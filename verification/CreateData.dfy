/** The create command as its code runs it: phases that call the clients and fill caches
    (pkg/cmd/serviceaccount/create.go, pkg/cmd/serviceaccount/phases/create). */
module CreateData {
  import opened Common
  import opened Cloud
  import opened AzureClient
  import opened CreateCommand
  import opened Workflow

  class Data {
    const flags: Flags
    const client: Client

    constructor (flags: Flags, client: Client)
      ensures this.flags == flags && this.client == client
    {
      this.flags, this.client := flags, client;
    }

    function Snapshot(): Session
      reads client
    {
      client.Snapshot()
    }

    method AADApplicationName() returns (name: string)
      ensures name == CreateCommand.AADApplicationName(flags)
    {
      name := flags.aadApplicationName;
      if name == "" {
        if flags.serviceAccountNamespace != "" && flags.serviceAccountName != "" && flags.issuerURL != "" {
          name := flags.serviceAccountNamespace + "-" + flags.serviceAccountName + "-" + flags.hash(flags.issuerURL);
        }
      }
    }

    method ServicePrincipalName() returns (name: string)
      ensures name == CreateCommand.ServicePrincipalName(flags)
    {
      name := flags.servicePrincipalName;
      if name == "" {
        name := AADApplicationName();
      }
    }

    method AADApplication() returns (r: Reply<Application>)
      modifies client
      ensures (Snapshot(), r) == CreateCommand.AADApplication(flags, old(Snapshot()))
    {
      if client.aadApplication.None? {
        var name := AADApplicationName();
        var app := client.GetApplication(name);
        if app.Err? {
          return app;
        }
        client.aadApplication := Some(app.value);
      }
      r := Ok(client.aadApplication.value);
    }

    method ServicePrincipal() returns (r: Reply<Cloud.ServicePrincipal>)
      modifies client
      ensures (Snapshot(), r) == ServicePrincipalObject(flags, old(Snapshot()))
    {
      if client.servicePrincipal.None? {
        var name := ServicePrincipalName();
        var sp := client.GetServicePrincipal(name);
        if sp.Err? {
          return sp;
        }
        client.servicePrincipal := Some(sp.value);
      }
      r := Ok(client.servicePrincipal.value);
    }

    method AADApplicationClientID() returns (id: string)
      modifies client
      ensures (Snapshot(), id) == CreateCommand.AADApplicationClientID(flags, old(Snapshot()))
    {
      if flags.aadApplicationClientID != "" {
        return flags.aadApplicationClientID;
      }
      var app := AADApplication();
      if app.Err? {
        return "";
      }
      id := app.value.appID;
    }

    method AADApplicationObjectID() returns (id: string)
      modifies client
      ensures (Snapshot(), id) == CreateCommand.AADApplicationObjectID(flags, old(Snapshot()))
    {
      if flags.aadApplicationObjectID != "" {
        return flags.aadApplicationObjectID;
      }
      var app := AADApplication();
      if app.Err? {
        return "";
      }
      id := app.value.objectID;
    }

    method ServicePrincipalObjectID() returns (id: string)
      modifies client
      ensures (Snapshot(), id) == CreateCommand.ServicePrincipalObjectID(flags, old(Snapshot()))
    {
      if flags.servicePrincipalObjectID != "" {
        return flags.servicePrincipalObjectID;
      }
      var sp := ServicePrincipal();
      if sp.Err? {
        return "";
      }
      id := sp.value.objectID;
    }

    method RunAADApplication() returns (err: Option<Error>)
      modifies client
      ensures (Snapshot(), err) == AppRun(flags, old(Snapshot()))
    {
      var app := AADApplication();
      if app.Err? {
        if !IsNotFound(app.error) {
          return Some(Wrapped("failed to get AAD application", app.error));
        }
        var name := AADApplicationName();
        app := client.Request(PostApplication(client.world, name));
        if app.Err? {
          return Some(Wrapped("failed to create AAD application", app.error));
        }
      }
      var sp := ServicePrincipal();
      if sp.Err? {
        if !IsNotFound(sp.error) {
          return Some(Wrapped("failed to get service principal", sp.error));
        }
        sp := client.Request(PostServicePrincipal(client.world, app.value.appID));
        if sp.Err? {
          return Some(Wrapped("failed to create service principal", sp.error));
        }
      }
      err := None;
    }

    method RunServiceAccount() returns (err: Option<Error>)
      modifies client
      ensures (Snapshot(), err) == AccountRun(flags, old(Snapshot()))
    {
      var clientID := AADApplicationClientID();
      var r := client.CreateOrUpdateServiceAccount(AccountKey(flags), DesiredAccount(flags, clientID));
      if r.Err? {
        return Some(Wrapped("failed to create kubernetes service account", r.error));
      }
      err := None;
    }

    method RunFederatedIdentity() returns (err: Option<Error>)
      modifies client
      ensures (Snapshot(), err) == CredentialRun(flags, old(Snapshot()))
    {
      var objectID := AADApplicationObjectID();
      var r := client.Request(PostCredential(client.world, objectID, DesiredCredential(flags)));
      if r.Err? {
        if !IsFederatedCredentialAlreadyExists(r.error) {
          return Some(Wrapped("failed to add federated credential", r.error));
        }
      }
      err := None;
    }

    method RunRoleAssignment() returns (err: Option<Error>)
      modifies client
      ensures (Snapshot(), err) == RoleRun(flags, old(Snapshot()))
    {
      var principal := ServicePrincipalObjectID();
      var r := client.CreateRoleAssignment(flags.azureScope, flags.azureRole, principal);
      if r.Err? {
        if !IsRoleAssignmentExists(r.error) {
          return Some(Wrapped("failed to create role assignment", r.error));
        }
      }
      err := None;
    }
  }

  /** The command: its phases in order, and its closure. */
  method RunCreate(skipPhases: seq<string>, f: Flags, w: World, faults: seq<Fault>)
      returns (out: Outcome<Session, Error>)
    ensures out == Create(f, skipPhases, w, faults)
  {
    var runner := new Runner<Session, Error>();
    runner.AppendPhases(CreatePhases(f));
    assert runner.phases == CreatePhases(f);
    runner.skipPhases := skipPhases;
    out := runner.Run(Session(w, None, None, faults));
  }
}
