/**
 The Azure directory, the role assignments and the cluster's service accounts, as the azwi
 commands see them (pkg/cloud/graph.go, pkg/cloud/errors.go, pkg/cloud/roleassignments.go,
 pkg/kuberneteshelper/serviceaccount.go).

 A world is the remote state.  A session is what one command works with: the world, the objects
 it has cached, and the faults that its next remote calls will meet.
 */
module Cloud {
  import opened Common
  import opened Text
  import opened PodMutator

  datatype Credential = Credential(id: string, name: string, issuer: string, subject: string,
                                   description: string, audiences: seq<string>)

  datatype Application = Application(objectID: string, appID: string, displayName: string, credentials: seq<Credential>)

  datatype ServicePrincipal = ServicePrincipal(objectID: string, appID: string, displayName: string)

  datatype RoleAssignment = RoleAssignment(id: string, scope: string, roleDefinition: string, principal: string)

  /** roles maps role names to definitions; otherPrincipals are users, groups and identities.
      issued bounds the length of all IDs, and the next one is longer. */
  datatype World = World(
    apps: seq<Application>, principals: seq<ServicePrincipal>, assignments: seq<RoleAssignment>,
    accounts: map<(string, string), ServiceAccount>,
    roles: map<string, string>, otherPrincipals: set<string>, issued: nat)

  // ---------------------------------------------------------------------------------------
  // Errors

  datatype Error =
    | GraphError(code: string, message: string)
    | ResponseError(statusCode: int, message: string)
    | KubeError(reason: string, message: string)
    | Plain(message: string)
    | Wrapped(text: string, cause: Error)

  type Reply<T> = Result<T, Error>

  /** The error for a flag that is required but not given (pkg/cmd/serviceaccount/options/errors.go). */
  function Required(present: bool, flag: string): Option<Error> {
    if present then None else Some(Plain("--" + flag + " is required"))
  }

  const RESOURCE_NOT_FOUND := "Request_ResourceNotFound"
  const MULTIPLE_OBJECTS := "Request_MultipleObjectsWithSameKeyValue"
  const CREDENTIAL_NOT_FOUND: Error := Plain("federated credential not found")

  function Message(e: Error): string {
    match e
    case GraphError(code, message) => "code: " + code + ", message: " + message
    case ResponseError(_, message) => message
    case KubeError(_, message) => message
    case Plain(message) => message
    case Wrapped(text, cause) => text + ": " + Message(cause)
  }

  function Innermost(e: Error): Error {
    if e.Wrapped? then Innermost(e.cause) else e
  }

  predicate IsNotFound(e: Error) {
    Contains(Message(e), "not found")
  }

  predicate IsRoleAssignmentAlreadyDeleted(e: Error) {
    Innermost(e).ResponseError? && Innermost(e).statusCode == 204
  }

  predicate IsRoleAssignmentExists(e: Error) {
    Innermost(e).ResponseError? && Innermost(e).statusCode == 409
  }

  predicate IsFederatedCredentialNotFound(e: Error) {
    Innermost(e).GraphError? && Innermost(e).code == RESOURCE_NOT_FOUND
  }

  predicate IsFederatedCredentialAlreadyExists(e: Error) {
    Innermost(e).GraphError? && Innermost(e).code == MULTIPLE_OBJECTS
  }

  // ---------------------------------------------------------------------------------------
  // What the servers do

  /** A fresh ID: longer than any ID before. */
  function NewID(w: World): string {
    seq(w.issued + 1, _ => '#')
  }

  function Issue(w: World): World {
    w.(issued := w.issued + 1)
  }

  function FirstApp(apps: seq<Application>, displayName: string): Option<Application> {
    if apps == [] then None
    else if apps[0].displayName == displayName then Some(apps[0])
    else FirstApp(apps[1..], displayName)
  }

  function FirstPrincipal(principals: seq<ServicePrincipal>, displayName: string): Option<ServicePrincipal> {
    if principals == [] then None
    else if principals[0].displayName == displayName then Some(principals[0])
    else FirstPrincipal(principals[1..], displayName)
  }

  function AppByID(apps: seq<Application>, objectID: string): Option<Application> {
    if apps == [] then None
    else if apps[0].objectID == objectID then Some(apps[0])
    else AppByID(apps[1..], objectID)
  }

  function AppByClientID(apps: seq<Application>, appID: string): Option<Application> {
    if apps == [] then None
    else if apps[0].appID == appID then Some(apps[0])
    else AppByClientID(apps[1..], appID)
  }

  predicate HasPrincipalFor(principals: seq<ServicePrincipal>, appID: string) {
    exists i :: 0 <= i < |principals| && principals[i].appID == appID
  }

  predicate PrincipalExists(w: World, objectID: string) {
    objectID in w.otherPrincipals || exists i :: 0 <= i < |w.principals| && w.principals[i].objectID == objectID
  }

  predicate HasCredentialNamed(app: Application, name: string) {
    exists i :: 0 <= i < |app.credentials| && app.credentials[i].name == name
  }

  predicate HasAssignment(assignments: seq<RoleAssignment>, scope: string, roleDefinition: string, principal: string) {
    exists i :: 0 <= i < |assignments| && assignments[i].scope == scope
                && assignments[i].roleDefinition == roleDefinition && assignments[i].principal == principal
  }

  /** Replaces the credentials of the application with that object ID. */
  function WithCredentials(apps: seq<Application>, objectID: string, credentials: seq<Credential>): seq<Application> {
    if apps == [] then []
    else if apps[0].objectID == objectID then [apps[0].(credentials := credentials)] + apps[1..]
    else [apps[0]] + WithCredentials(apps[1..], objectID, credentials)
  }

  function WithoutApp(apps: seq<Application>, objectID: string): seq<Application> {
    if apps == [] then []
    else (if apps[0].objectID == objectID then [] else [apps[0]]) + WithoutApp(apps[1..], objectID)
  }

  function WithoutPrincipalsFor(principals: seq<ServicePrincipal>, appID: string): seq<ServicePrincipal> {
    if principals == [] then []
    else (if principals[0].appID == appID then [] else [principals[0]]) + WithoutPrincipalsFor(principals[1..], appID)
  }

  function WithoutCredential(credentials: seq<Credential>, id: string): seq<Credential> {
    if credentials == [] then []
    else (if credentials[0].id == id then [] else [credentials[0]]) + WithoutCredential(credentials[1..], id)
  }

  function WithoutAssignment(assignments: seq<RoleAssignment>, id: string): seq<RoleAssignment> {
    if assignments == [] then []
    else (if assignments[0].id == id then [] else [assignments[0]]) + WithoutAssignment(assignments[1..], id)
  }

  function HasAssignmentID(assignments: seq<RoleAssignment>, id: string): bool {
    exists i :: 0 <= i < |assignments| && assignments[i].id == id
  }

  function PostApplication(w: World, displayName: string): (World, Reply<Application>) {
    var app := Application(NewID(w), NewID(Issue(w)), displayName, []);
    (Issue(Issue(w)).(apps := w.apps + [app]), Ok(app))
  }

  /** One service principal per application; it takes the application's display name. */
  function PostServicePrincipal(w: World, appID: string): (World, Reply<ServicePrincipal>) {
    match AppByClientID(w.apps, appID)
    case None => (w, Err(GraphError(RESOURCE_NOT_FOUND, "application")))
    case Some(app) =>
      if HasPrincipalFor(w.principals, appID) then (w, Err(GraphError(MULTIPLE_OBJECTS, "service principal")))
      else
        var sp := ServicePrincipal(NewID(w), appID, app.displayName);
        (Issue(w).(principals := w.principals + [sp]), Ok(sp))
  }

  /** Credential names are unique within an application. */
  function PostCredential(w: World, objectID: string, c: Credential): (World, Reply<()>) {
    match AppByID(w.apps, objectID)
    case None => (w, Err(GraphError(RESOURCE_NOT_FOUND, "application")))
    case Some(app) =>
      if HasCredentialNamed(app, c.name) then (w, Err(GraphError(MULTIPLE_OBJECTS, "credential")))
      else (Issue(w).(apps := WithCredentials(w.apps, objectID, app.credentials + [c.(id := NewID(w))])), Ok(()))
  }

  /** One assignment per scope, role and principal; the principal must exist. */
  function PutRoleAssignment(w: World, scope: string, roleDefinition: string, principal: string)
      : (World, Reply<string>)
  {
    if !PrincipalExists(w, principal) then (w, Err(ResponseError(400, "PrincipalNotFound")))
    else if HasAssignment(w.assignments, scope, roleDefinition, principal) then
      (w, Err(ResponseError(409, "RoleAssignmentExists")))
    else
      var added := RoleAssignment(NewID(w), scope, roleDefinition, principal);
      (Issue(w).(assignments := w.assignments + [added]), Ok(added.id))
  }

  /** Deleting an application takes its credentials and its service principal along. */
  function DeleteApplicationOnServer(w: World, objectID: string): (World, Reply<()>) {
    match AppByID(w.apps, objectID)
    case None => (w, Err(Plain("ODataError")))
    case Some(app) =>
      (w.(apps := WithoutApp(w.apps, objectID), principals := WithoutPrincipalsFor(w.principals, app.appID)), Ok(()))
  }

  function DeleteCredentialOnServer(w: World, objectID: string, id: string): (World, Reply<()>) {
    match AppByID(w.apps, objectID)
    case None => (w, Err(Plain("ODataError")))
    case Some(app) =>
      (w.(apps := WithCredentials(w.apps, objectID, WithoutCredential(app.credentials, id))), Ok(()))
  }

  function DeleteAssignmentOnServer(w: World, id: string): (World, Reply<()>) {
    if HasAssignmentID(w.assignments, id) then (w.(assignments := WithoutAssignment(w.assignments, id)), Ok(()))
    else (w, Err(ResponseError(204, "")))
  }

  function CreateAccountOnServer(w: World, key: (string, string), sa: ServiceAccount): (World, Reply<()>) {
    if key in w.accounts then (w, Err(KubeError("AlreadyExists", "")))
    else (w.(accounts := w.accounts[key := sa]), Ok(()))
  }

  function UpdateAccountOnServer(w: World, key: (string, string), sa: ServiceAccount): (World, Reply<()>) {
    if key in w.accounts then (w.(accounts := w.accounts[key := sa]), Ok(())) else (w, Err(KubeError("NotFound", "")))
  }

  function DeleteAccountOnServer(w: World, key: (string, string)): (World, Reply<()>) {
    if key in w.accounts then (w.(accounts := w.accounts - {key}), Ok(())) else (w, Err(KubeError("NotFound", "")))
  }

  // ---------------------------------------------------------------------------------------
  // Calls from a command

  /** What a remote call meets: nothing, an error without effect, or an error after the effect.
      A crash of the command is a call that is lost and all later ones too. */
  datatype Fault = Healthy | Lost(error: Error) | Landed(error: Error)

  datatype Session = Session(world: World, app: Option<Application>, sp: Option<ServicePrincipal>, faults: seq<Fault>)

  function NextFault(s: Session): Fault {
    if s.faults == [] then Healthy else s.faults[0]
  }

  function Called(s: Session): Session {
    if s.faults == [] then s else s.(faults := s.faults[1..])
  }

  function Read<T>(s: Session, answer: Reply<T>): (Session, Reply<T>) {
    match NextFault(s)
    case Healthy => (Called(s), answer)
    case Lost(e) => (Called(s), Err(e))
    case Landed(e) => (Called(s), Err(e))
  }

  function Write<T>(s: Session, effect: (World, Reply<T>)): (Session, Reply<T>) {
    match NextFault(s)
    case Healthy => (Called(s).(world := effect.0), effect.1)
    case Lost(e) => (Called(s), Err(e))
    case Landed(e) => (Called(s).(world := effect.0), Err(e))
  }

  function GetApplication(s: Session, displayName: string): (Session, Reply<Application>) {
    var found := FirstApp(s.world.apps, displayName);
    Read(s, if found.Some? then Ok(found.value)
         else Err(Plain("application with display name '" + displayName + "' not found")))
  }

  function GetServicePrincipal(s: Session, displayName: string): (Session, Reply<ServicePrincipal>) {
    var found := FirstPrincipal(s.world.principals, displayName);
    Read(s, if found.Some? then Ok(found.value) else Err(Plain("service principal " + displayName + " not found")))
  }

  /** The first credential of that subject and issuer. */
  function FirstCredential(credentials: seq<Credential>, issuer: string, subject: string): Option<Credential> {
    if credentials == [] then None
    else if credentials[0].subject == subject && credentials[0].issuer == issuer then Some(credentials[0])
    else FirstCredential(credentials[1..], issuer, subject)
  }

  function GetFederatedCredential(s: Session, objectID: string, issuer: string, subject: string)
      : (Session, Reply<Credential>)
  {
    Read(s, match AppByID(s.world.apps, objectID)
            case None => Err(GraphError(RESOURCE_NOT_FOUND, "application"))
            case Some(app) =>
              var found := FirstCredential(app.credentials, issuer, subject);
              if found.Some? then Ok(found.value) else Err(CREDENTIAL_NOT_FOUND))
  }

  const ROLE_ASSIGNMENT_RETRIES: nat := 7

  /** The retry loop: Ok(None) stands for the nil error that is returned when all attempts failed. */
  function Attempts(s: Session, n: nat, scope: string, roleDefinition: string, principal: string)
      : (Session, Reply<Option<string>>)
    decreases n
  {
    if n == 0 then (s, Ok(None))
    else
      var (s', r) := Write(s, PutRoleAssignment(s.world, scope, roleDefinition, principal));
      match r
      case Ok(id) => (s', Ok(Some(id)))
      case Err(e) =>
        if IsRoleAssignmentExists(e) then (s', Err(e)) else Attempts(s', n - 1, scope, roleDefinition, principal)
  }

  function CreateRoleAssignment(s: Session, scope: string, role: string, principal: string)
      : (Session, Reply<Option<string>>)
  {
    var (s', r) := Read(s, if role in s.world.roles then Ok(s.world.roles[role])
                           else Err(Plain("role definition " + role + " not found")));
    match r
    case Err(e) => (s', Err(Wrapped("failed to get role definition id for role " + role, e)))
    case Ok(definition) => Attempts(s', ROLE_ASSIGNMENT_RETRIES, scope, definition, principal)
  }

  function CreateOrUpdateServiceAccount(s: Session, key: (string, string), sa: ServiceAccount): (Session, Reply<()>) {
    var (s', r) := Write(s, CreateAccountOnServer(s.world, key, sa));
    if r.Err? && r.error.KubeError? && r.error.reason == "AlreadyExists"
    then Write(s', UpdateAccountOnServer(s'.world, key, sa))
    else (s', r)
  }

  function DeleteServiceAccount(s: Session, key: (string, string)): (Session, Reply<()>) {
    var (s', r) := Read(s, if key in s.world.accounts then Ok(()) else Err(KubeError("NotFound", "")));
    if r.Err? then (s', r) else Write(s', DeleteAccountOnServer(s'.world, key))
  }

  // ---------------------------------------------------------------------------------------
  // What the retry loop makes of faults

  /** The i-th call from here on; when the faults have run out, calls are undisturbed. */
  function FaultAt(s: Session, i: nat): Fault {
    if i < |s.faults| then s.faults[i] else Healthy
  }

  predicate IsConflict(fault: Fault) {
    !fault.Healthy? && IsRoleAssignmentExists(fault.error)
  }

  lemma FaultsShift(s: Session, i: nat)
    ensures FaultAt(s, 0) == NextFault(s) && FaultAt(Called(s), i) == FaultAt(s, i + 1)
  {
  }

  /** Success without a result, whatever faults the calls meet.  All n attempts failed, and none by a
      conflict: if the principal exists each met a fault, for a call that is answered ends the loop;
      if it does not exist, answered calls fail as well. */
  lemma {:induction false} AttemptsGiveUpExactlyWhen(s: Session, n: nat, scope: string, roleDefinition: string,
                                                     principal: string)
    ensures Attempts(s, n, scope, roleDefinition, principal).1 == Ok(None) <==>
              forall i: nat :: i < n ==>
                !IsConflict(FaultAt(s, i)) && (PrincipalExists(s.world, principal) ==> !FaultAt(s, i).Healthy?)
    decreases n
  {
    if n > 0 {
      FaultsShift(s, 0);
      var (s', r) := Write(s, PutRoleAssignment(s.world, scope, roleDefinition, principal));
      if r.Err? && !IsRoleAssignmentExists(r.error) {
        AttemptsGiveUpExactlyWhen(s', n - 1, scope, roleDefinition, principal);
        assert PrincipalExists(s'.world, principal) == PrincipalExists(s.world, principal);
        forall i: nat ensures FaultAt(s', i) == FaultAt(s, i + 1) { FaultsShift(s, i); }
        if (forall i: nat :: i < n - 1 ==>
              !IsConflict(FaultAt(s', i)) && (PrincipalExists(s.world, principal) ==> !FaultAt(s', i).Healthy?)) {
          forall i: nat | i < n
            ensures !IsConflict(FaultAt(s, i)) && (PrincipalExists(s.world, principal) ==> !FaultAt(s, i).Healthy?)
          {
            if i > 0 { assert FaultAt(s', i - 1) == FaultAt(s, i); }
          }
        }
      } else {
        assert IsConflict(FaultAt(s, 0)) || FaultAt(s, 0).Healthy?;
      }
    }
  }

  /** One of n attempts reaches the server: those before were lost without ending the loop. */
  ghost predicate SomeArrives(s: Session, n: nat) {
    exists k: nat :: k < n && Arrives(s, k)
  }

  ghost predicate Arrives(s: Session, k: nat) {
    !FaultAt(s, k).Lost? && forall i: nat :: i < k ==> FaultAt(s, i).Lost? && !IsConflict(FaultAt(s, i))
  }

  lemma ArrivesLater(s: Session, s': Session, k: nat)
    requires s'.faults == Called(s).faults && FaultAt(s, 0).Lost? && !IsConflict(FaultAt(s, 0))
    ensures Arrives(s', k) <==> Arrives(s, k + 1)
  {
    forall i: nat ensures FaultAt(s', i) == FaultAt(s, i + 1) { FaultsShift(s, i); }
    if Arrives(s', k) {
      forall i: nat | i < k + 1 ensures FaultAt(s, i).Lost? && !IsConflict(FaultAt(s, i)) {
        if i > 0 { assert FaultAt(s', i - 1) == FaultAt(s, i); }
      }
    }
  }

  /** The assignment exists afterwards exactly if it did before, or the principal exists and some
      attempt reached the server, whatever the command was told. */
  lemma {:induction false} AttemptsAssignExactlyWhen(s: Session, n: nat, scope: string, roleDefinition: string,
                                                     principal: string)
    ensures var s' := Attempts(s, n, scope, roleDefinition, principal).0;
            && (HasAssignment(s'.world.assignments, scope, roleDefinition, principal) <==>
                  HasAssignment(s.world.assignments, scope, roleDefinition, principal)
                  || (PrincipalExists(s.world, principal) && SomeArrives(s, n)))
            && s'.world == s.world.(assignments := s'.world.assignments, issued := s'.world.issued)
    decreases n
  {
    if n > 0 {
      var effect := PutRoleAssignment(s.world, scope, roleDefinition, principal);
      var (s1, r) := Write(s, effect);
      AssignedOnServer(s.world, scope, roleDefinition, principal);
      assert FaultAt(s, 0) == NextFault(s);
      if !FaultAt(s, 0).Lost? { assert Arrives(s, 0); }
      if r.Err? && !IsRoleAssignmentExists(r.error) {
        AttemptsAssignExactlyWhen(s1, n - 1, scope, roleDefinition, principal);
        if FaultAt(s, 0).Lost? { ArrivesShift(s, s1, n); }
      } else if FaultAt(s, 0).Lost? {
        assert IsConflict(FaultAt(s, 0)) && !SomeArrives(s, n);
      }
    }
  }

  lemma ArrivesShift(s: Session, s': Session, n: nat)
    requires n > 0 && s'.faults == Called(s).faults && FaultAt(s, 0).Lost? && !IsConflict(FaultAt(s, 0))
    ensures SomeArrives(s', n - 1) <==> SomeArrives(s, n)
  {
    if k: nat :| k < n - 1 && Arrives(s', k) { ArrivesLater(s, s', k); }
    if k: nat :| k < n && Arrives(s, k) {
      if k > 0 { ArrivesLater(s, s', k - 1); }
    }
  }

  lemma AssignedOnServer(w: World, scope: string, roleDefinition: string, principal: string)
    ensures var after := PutRoleAssignment(w, scope, roleDefinition, principal).0;
            && (HasAssignment(after.assignments, scope, roleDefinition, principal) <==>
                  HasAssignment(w.assignments, scope, roleDefinition, principal) || PrincipalExists(w, principal))
            && after == w.(assignments := after.assignments, issued := after.issued)
  {
    var after := PutRoleAssignment(w, scope, roleDefinition, principal).0;
    if after != w {
      assert after.assignments[|w.assignments|] == RoleAssignment(NewID(w), scope, roleDefinition, principal);
    }
  }
}
