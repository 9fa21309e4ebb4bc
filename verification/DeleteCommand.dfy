/**
 azwi serviceaccount delete (pkg/cmd/serviceaccount/delete.go and the phases under
 pkg/cmd/serviceaccount/phases/delete).
 */
module DeleteCommand {
  import opened Common
  import opened Cloud
  import opened Workflow
  import Naming

  datatype Flags = Flags(
    serviceAccountName: string, serviceAccountNamespace: string, issuerURL: string,
    aadApplicationName: string, aadApplicationObjectID: string, roleAssignmentID: string, hash: string -> string)

  type Step = (Session, Option<Error>)

  const ROLE_PHASE := "role-assignment"
  const CREDENTIAL_PHASE := "federated-identity"
  const ACCOUNT_PHASE := "service-account"
  const APP_PHASE := "aad-application"

  // ---------------------------------------------------------------------------------------
  // deleteData

  function AADApplicationName(d: Flags): string {
    Naming.ApplicationName(d.aadApplicationName, d.serviceAccountNamespace, d.serviceAccountName, d.issuerURL, d.hash)
  }

  function AccountKey(d: Flags): (string, string) {
    (d.serviceAccountNamespace, d.serviceAccountName)
  }

  function AADApplication(d: Flags, s: Session): (Session, Reply<Application>) {
    if s.app.Some? then (s, Ok(s.app.value))
    else
      var (s', r) := GetApplication(s, AADApplicationName(d));
      if r.Err? then (s', r) else (s'.(app := Some(r.value)), r)
  }

  function AADApplicationObjectID(d: Flags, s: Session): (Session, string) {
    if d.aadApplicationObjectID != "" then (s, d.aadApplicationObjectID)
    else
      var (s', r) := AADApplication(d, s);
      (s', if r.Err? then "" else r.value.objectID)
  }

  // ---------------------------------------------------------------------------------------
  // role-assignment

  function RolePreRun(d: Flags, s: Session): Step {
    (s, Required(d.roleAssignmentID != "", "role-assignment-id"))
  }

  function RoleRun(d: Flags, s: Session): Step {
    var (s', r) := Write(s, DeleteAssignmentOnServer(s.world, d.roleAssignmentID));
    (s', if r.Ok? || IsRoleAssignmentAlreadyDeleted(r.error) then None
         else Some(Wrapped("failed to delete role assignment", r.error)))
  }

  // ---------------------------------------------------------------------------------------
  // federated-identity

  function CredentialPreRun(d: Flags, s: Session): Step {
    if d.serviceAccountNamespace == "" then (s, Required(false, "service-account-namespace"))
    else if d.serviceAccountName == "" then (s, Required(false, "service-account-name"))
    else (s, Required(d.issuerURL != "", "service-account-issuer-url"))
  }

  function Subject(d: Flags): string {
    Naming.CredentialSubject(d.serviceAccountNamespace, d.serviceAccountName)
  }

  function CredentialRun(d: Flags, s: Session): Step {
    var (s1, objectID) := AADApplicationObjectID(d, s);
    var (s2, r) := GetFederatedCredential(s1, objectID, d.issuerURL, Subject(d));
    match r
    case Err(e) =>
      (s2, if IsFederatedCredentialNotFound(e) then None
       else Some(Wrapped("failed to get federated identity credential", e)))
    case Ok(found) =>
      var (s3, again) := AADApplicationObjectID(d, s2);
      var (s4, deleted) := Write(s3, DeleteCredentialOnServer(s3.world, again, found.id));
      (s4, if deleted.Ok? then None else Some(Wrapped("failed to delete federated identity credential", deleted.error)))
  }

  // ---------------------------------------------------------------------------------------
  // service-account

  function AccountPreRun(d: Flags, s: Session): Step {
    if d.serviceAccountNamespace == "" then (s, Required(false, "service-account-namespace"))
    else if d.serviceAccountName == "" then (s, Required(false, "service-account-name"))
    else
      var (s', r) := Read(s, Ok(()));
      (s', if r.Ok? then None else Some(Wrapped("failed to get Kubernetes client", r.error)))
  }

  function AccountRun(d: Flags, s: Session): Step {
    var (s', r) := DeleteServiceAccount(s, AccountKey(d));
    (s', if r.Ok? || (r.error.KubeError? && r.error.reason == "NotFound") then None
         else Some(Wrapped("failed to delete service account", r.error)))
  }

  // ---------------------------------------------------------------------------------------
  // aad-application

  function AppPreRun(d: Flags, s: Session): Step {
    if AADApplicationName(d) != "" then (s, None)
    else
      var (s', objectID) := AADApplicationObjectID(d, s);
      (s', Required(objectID != "", "aad-application-name or --aad-application-object-id"))
  }

  /** The ID is looked up twice, first to be logged. */
  function AppRun(d: Flags, s: Session): Step {
    var (logged, _) := AADApplicationObjectID(d, s);
    var (s1, objectID) := AADApplicationObjectID(d, logged);
    var (s2, r) := Write(s1, DeleteApplicationOnServer(s1.world, objectID));
    (s2, if r.Ok? then None else Some(Wrapped("failed to delete application", r.error)))
  }

  // ---------------------------------------------------------------------------------------
  // The command

  function DeletePhases(d: Flags): seq<Phase<Session, Error>> {
    [Phase(ROLE_PHASE, s => RolePreRun(d, s), s => RoleRun(d, s)),
     Phase(CREDENTIAL_PHASE, s => CredentialPreRun(d, s), s => CredentialRun(d, s)),
     Phase(ACCOUNT_PHASE, s => AccountPreRun(d, s), s => AccountRun(d, s)),
     Phase(APP_PHASE, s => AppPreRun(d, s), s => AppRun(d, s))]
  }

  /** All phases that are not skipped. */
  function PlainDelete(d: Flags, skips: seq<string>, w: World, faults: seq<Fault>): Outcome<Session, Error> {
    RunPhases(DeletePhases(d), skips, Session(w, None, None, faults))
  }

  /** The command does not delete the credential by itself if it is to delete the application. */
  function EffectiveSkips(skips: seq<string>): seq<string> {
    if APP_PHASE in skips then skips else skips + [CREDENTIAL_PHASE]
  }

  function Delete(d: Flags, skips: seq<string>, w: World, faults: seq<Fault>): Outcome<Session, Error> {
    PlainDelete(d, EffectiveSkips(skips), w, faults)
  }
}
