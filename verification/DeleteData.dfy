/** The delete command as its code runs it (pkg/cmd/serviceaccount/delete.go,
    pkg/cmd/serviceaccount/phases/delete). */
module DeleteData {
  import opened Common
  import opened Cloud
  import opened AzureClient
  import opened DeleteCommand
  import opened Workflow

  class Data {
    const flags: Flags
    const client: Client

    constructor (flags: Flags, client: Client)
      ensures this.flags == flags && this.client == client
    {
      this.flags, this.client := flags, client;
    }

    function Snapshot(): Session
      reads client
    {
      client.Snapshot()
    }

    method AADApplicationName() returns (name: string)
      ensures name == DeleteCommand.AADApplicationName(flags)
    {
      name := flags.aadApplicationName;
      if name == "" {
        if flags.serviceAccountNamespace != "" && flags.serviceAccountName != "" && flags.issuerURL != "" {
          name := flags.serviceAccountNamespace + "-" + flags.serviceAccountName + "-" + flags.hash(flags.issuerURL);
        }
      }
    }

    method AADApplication() returns (r: Reply<Application>)
      modifies client
      ensures (Snapshot(), r) == DeleteCommand.AADApplication(flags, old(Snapshot()))
    {
      if client.aadApplication.None? {
        var name := AADApplicationName();
        var app := client.GetApplication(name);
        if app.Err? {
          return app;
        }
        client.aadApplication := Some(app.value);
      }
      r := Ok(client.aadApplication.value);
    }

    method AADApplicationObjectID() returns (id: string)
      modifies client
      ensures (Snapshot(), id) == DeleteCommand.AADApplicationObjectID(flags, old(Snapshot()))
    {
      if flags.aadApplicationObjectID != "" {
        return flags.aadApplicationObjectID;
      }
      var app := AADApplication();
      if app.Err? {
        return "";
      }
      id := app.value.objectID;
    }

    method RunRoleAssignment() returns (err: Option<Error>)
      modifies client
      ensures (Snapshot(), err) == RoleRun(flags, old(Snapshot()))
    {
      var r := client.Request(DeleteAssignmentOnServer(client.world, flags.roleAssignmentID));
      if r.Err? {
        if !IsRoleAssignmentAlreadyDeleted(r.error) {
          return Some(Wrapped("failed to delete role assignment", r.error));
        }
      }
      err := None;
    }

    method RunFederatedIdentity() returns (err: Option<Error>)
      modifies client
      ensures (Snapshot(), err) == CredentialRun(flags, old(Snapshot()))
    {
      var objectID := AADApplicationObjectID();
      var fic := client.GetFederatedCredential(objectID, flags.issuerURL, Subject(flags));
      if fic.Err? {
        if !IsFederatedCredentialNotFound(fic.error) {
          return Some(Wrapped("failed to get federated identity credential", fic.error));
        }
      } else {
        objectID := AADApplicationObjectID();
        var r := client.Request(DeleteCredentialOnServer(client.world, objectID, fic.value.id));
        if r.Err? {
          return Some(Wrapped("failed to delete federated identity credential", r.error));
        }
      }
      err := None;
    }

    method RunServiceAccount() returns (err: Option<Error>)
      modifies client
      ensures (Snapshot(), err) == AccountRun(flags, old(Snapshot()))
    {
      var r := client.DeleteServiceAccount(AccountKey(flags));
      if r.Err? {
        if !(r.error.KubeError? && r.error.reason == "NotFound") {
          return Some(Wrapped("failed to delete service account", r.error));
        }
      }
      err := None;
    }

    method RunAADApplication() returns (err: Option<Error>)
      modifies client
      ensures (Snapshot(), err) == AppRun(flags, old(Snapshot()))
    {
      var objectID := AADApplicationObjectID();
      objectID := AADApplicationObjectID();
      var r := client.Request(DeleteApplicationOnServer(client.world, objectID));
      if r.Err? {
        return Some(Wrapped("failed to delete application", r.error));
      }
      err := None;
    }
  }

  /** The command's closure, over the runner's fields. */
  method RunDelete(runner: Runner<Session, Error>, d: Flags, w: World, faults: seq<Fault>)
      returns (out: Outcome<Session, Error>)
    requires runner.phases == DeletePhases(d)
    modifies runner`skipPhases
    ensures out == Delete(d, old(runner.skipPhases), w, faults)
    ensures runner.skipPhases == EffectiveSkips(old(runner.skipPhases))
  {
    var appActive := runner.IsPhaseActive(APP_PHASE);
    if appActive {
      runner.AppendSkipPhases([DeletePhases(d)[1]]);
      assert Names([DeletePhases(d)[1]]) == [CREDENTIAL_PHASE];
    }
    out := runner.Run(Session(w, None, None, faults));
  }
}
