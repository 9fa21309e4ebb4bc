/**
 The Azure and Kubernetes clients that the commands call (pkg/cloud/graph.go,
 pkg/cloud/roleassignments.go, pkg/kuberneteshelper/serviceaccount.go), with the loop that retries
 a role assignment and the one that searches the credentials listed by the server.
 */
module AzureClient {
  import opened Common
  import opened Cloud
  import opened PodMutator

  /** A session in progress: the remote state, the faults to come and the command's caches. */
  class Client {
    var world: World
    var aadApplication: Option<Application>
    var servicePrincipal: Option<ServicePrincipal>
    var faults: seq<Fault>

    constructor (w: World, faults: seq<Fault>)
      ensures Snapshot() == Session(w, None, None, faults)
    {
      world, aadApplication, servicePrincipal, this.faults := w, None, None, faults;
    }

    function Snapshot(): Session
      reads this
    {
      Session(world, aadApplication, servicePrincipal, faults)
    }

    /** One request, answered from the current state. */
    method Request<T>(effect: (World, Reply<T>)) returns (r: Reply<T>)
      modifies this`world, this`faults
      ensures (Snapshot(), r) == Write(old(Snapshot()), effect)
    {
      var fault := if faults == [] then Healthy else faults[0];
      if faults != [] {
        faults := faults[1..];
      }
      if !fault.Lost? {
        world := effect.0;
      }
      r := if fault.Healthy? then effect.1 else Err(fault.error);
    }

    method GetApplication(displayName: string) returns (r: Reply<Application>)
      modifies this`world, this`faults
      ensures (Snapshot(), r) == Cloud.GetApplication(old(Snapshot()), displayName)
    {
      var found := FirstApp(world.apps, displayName);
      r := Request((world, if found.Some? then Ok(found.value)
                           else Err(Plain("application with display name '" + displayName + "' not found"))));
    }

    method GetServicePrincipal(displayName: string) returns (r: Reply<ServicePrincipal>)
      modifies this`world, this`faults
      ensures (Snapshot(), r) == Cloud.GetServicePrincipal(old(Snapshot()), displayName)
    {
      var found := FirstPrincipal(world.principals, displayName);
      r := Request((world, if found.Some? then Ok(found.value)
                    else Err(Plain("service principal " + displayName + " not found"))));
    }

    method GetFederatedCredential(objectID: string, issuer: string, subject: string) returns (r: Reply<Credential>)
      modifies this`world, this`faults
      ensures (Snapshot(), r) == Cloud.GetFederatedCredential(old(Snapshot()), objectID, issuer, subject)
    {
      var app := AppByID(world.apps, objectID);
      // the server filters by subject
      var listing: Reply<seq<Credential>> := if app.None? then Err(GraphError(RESOURCE_NOT_FOUND, "application"))
                                             else Ok(OfSubject(app.value.credentials, subject));
      var resp: Reply<seq<Credential>> := Request((world, listing));
      if resp.Err? {
        return Err(resp.error);
      }
      if app.Some? { FirstOfSubject(app.value.credentials, issuer, subject); }
      for i := 0 to |resp.value|
        invariant FirstIssuer(resp.value, issuer) == FirstIssuer(resp.value[i..], issuer)
      {
        if resp.value[i].issuer == issuer {
          return Ok(resp.value[i]);
        }
      }
      r := Err(CREDENTIAL_NOT_FOUND);
    }

    /** The loop's own err shadows the function's, so running out of attempts is no error. */
    method CreateRoleAssignment(scope: string, role: string, principal: string) returns (r: Reply<Option<string>>)
      modifies this`world, this`faults
      ensures (Snapshot(), r) == Cloud.CreateRoleAssignment(old(Snapshot()), scope, role, principal)
    {
      var definition := Request((world, if role in world.roles then Ok(world.roles[role])
                                        else Err(Plain("role definition " + role + " not found"))));
      if definition.Err? {
        return Err(Wrapped("failed to get role definition id for role " + role, definition.error));
      }
      ghost var start := Snapshot();
      for i := 0 to ROLE_ASSIGNMENT_RETRIES
        invariant Attempts(start, ROLE_ASSIGNMENT_RETRIES, scope, definition.value, principal)
               == Attempts(Snapshot(), ROLE_ASSIGNMENT_RETRIES - i, scope, definition.value, principal)
      {
        var resp := Request(PutRoleAssignment(world, scope, definition.value, principal));
        if resp.Ok? {
          return Ok(Some(resp.value));
        }
        if IsRoleAssignmentExists(resp.error) {
          return Err(resp.error);
        }
      }
      r := Ok(None);
    }

    method CreateOrUpdateServiceAccount(key: (string, string), sa: ServiceAccount) returns (r: Reply<()>)
      modifies this`world, this`faults
      ensures (Snapshot(), r) == Cloud.CreateOrUpdateServiceAccount(old(Snapshot()), key, sa)
    {
      r := Request(CreateAccountOnServer(world, key, sa));
      if r.Err? && r.error.KubeError? && r.error.reason == "AlreadyExists" {
        r := Request(UpdateAccountOnServer(world, key, sa));
      }
    }

    method DeleteServiceAccount(key: (string, string)) returns (r: Reply<()>)
      modifies this`world, this`faults
      ensures (Snapshot(), r) == Cloud.DeleteServiceAccount(old(Snapshot()), key)
    {
      r := Request((world, if key in world.accounts then Ok(()) else Err(KubeError("NotFound", ""))));
      if r.Ok? {
        r := Request(DeleteAccountOnServer(world, key));
      }
    }
  }

  function OfSubject(credentials: seq<Credential>, subject: string): seq<Credential> {
    if credentials == [] then []
    else (if credentials[0].subject == subject then [credentials[0]] else []) + OfSubject(credentials[1..], subject)
  }

  function FirstIssuer(credentials: seq<Credential>, issuer: string): Option<Credential> {
    if credentials == [] then None
    else if credentials[0].issuer == issuer then Some(credentials[0])
    else FirstIssuer(credentials[1..], issuer)
  }

  /** Filtering by subject on the server and by issuer in the client finds the right credential. */
  lemma {:induction false} FirstOfSubject(credentials: seq<Credential>, issuer: string, subject: string)
    ensures FirstIssuer(OfSubject(credentials, subject), issuer) == FirstCredential(credentials, issuer, subject)
  {
    if credentials != [] {
      FirstOfSubject(credentials[1..], issuer, subject);
      var rest := OfSubject(credentials[1..], subject);
      assert ([credentials[0]] + rest)[1..] == rest;
      assert [] + rest == rest;
    }
  }
}
