/**
 azwi serviceaccount create (pkg/cmd/serviceaccount/create.go and the phases under
 pkg/cmd/serviceaccount/phases/create).
 */
module CreateCommand {
  import opened Common
  import opened PodMutator
  import opened TokenLifetime
  import opened Cloud
  import opened Workflow
  import Naming

  datatype Flags = Flags(
    serviceAccountName: string, serviceAccountNamespace: string, issuerURL: string, tokenExpiration: int,
    aadApplicationName: string, aadApplicationClientID: string, aadApplicationObjectID: string,
    servicePrincipalObjectID: string, servicePrincipalName: string,
    azureRole: string, azureScope: string, azureTenantID: string, hash: string -> string)

  type Step = (Session, Option<Error>)

  const APP_PHASE := "aad-application"
  const ACCOUNT_PHASE := "service-account"
  const CREDENTIAL_PHASE := "federated-identity"
  const ROLE_PHASE := "role-assignment"
  const DEFAULT_AUDIENCE := "api://AzureADTokenExchange"

  // ---------------------------------------------------------------------------------------
  // createData

  function AADApplicationName(f: Flags): string {
    Naming.ApplicationName(f.aadApplicationName, f.serviceAccountNamespace, f.serviceAccountName, f.issuerURL, f.hash)
  }

  function ServicePrincipalName(f: Flags): string {
    if f.servicePrincipalName == "" then AADApplicationName(f) else f.servicePrincipalName
  }

  function AccountKey(f: Flags): (string, string) {
    (f.serviceAccountNamespace, f.serviceAccountName)
  }

  /** The application of the command's name, looked up once. */
  function AADApplication(f: Flags, s: Session): (Session, Reply<Application>) {
    if s.app.Some? then (s, Ok(s.app.value))
    else
      var (s', r) := GetApplication(s, AADApplicationName(f));
      if r.Err? then (s', r) else (s'.(app := Some(r.value)), r)
  }

  function ServicePrincipalObject(f: Flags, s: Session): (Session, Reply<ServicePrincipal>) {
    if s.sp.Some? then (s, Ok(s.sp.value))
    else
      var (s', r) := GetServicePrincipal(s, ServicePrincipalName(f));
      if r.Err? then (s', r) else (s'.(sp := Some(r.value)), r)
  }

  /** Errors of the lookup become the empty string, here and below. */
  function AADApplicationClientID(f: Flags, s: Session): (Session, string) {
    if f.aadApplicationClientID != "" then (s, f.aadApplicationClientID)
    else
      var (s', r) := AADApplication(f, s);
      (s', if r.Err? then "" else r.value.appID)
  }

  function AADApplicationObjectID(f: Flags, s: Session): (Session, string) {
    if f.aadApplicationObjectID != "" then (s, f.aadApplicationObjectID)
    else
      var (s', r) := AADApplication(f, s);
      (s', if r.Err? then "" else r.value.objectID)
  }

  function ServicePrincipalObjectID(f: Flags, s: Session): (Session, string) {
    if f.servicePrincipalObjectID != "" then (s, f.servicePrincipalObjectID)
    else
      var (s', r) := ServicePrincipalObject(f, s);
      (s', if r.Err? then "" else r.value.objectID)
  }

  // ---------------------------------------------------------------------------------------
  // aad-application

  function AppPreRun(f: Flags, s: Session): Step {
    (s, Required(AADApplicationName(f) != "", "aad-application-name"))
  }

  function GetOrCreateApp(f: Flags, s: Session): (Session, Reply<Application>) {
    var (s1, r) := AADApplication(f, s);
    if r.Ok? then (s1, r)
    else if !IsNotFound(r.error) then (s1, Err(Wrapped("failed to get AAD application", r.error)))
    else
      var (s2, c) := Write(s1, PostApplication(s1.world, AADApplicationName(f)));
      (s2, if c.Ok? then c else Err(Wrapped("failed to create AAD application", c.error)))
  }

  function GetOrCreatePrincipal(f: Flags, s: Session, appID: string): Step {
    var (s1, r) := ServicePrincipalObject(f, s);
    if r.Ok? then (s1, None)
    else if !IsNotFound(r.error) then (s1, Some(Wrapped("failed to get service principal", r.error)))
    else
      var (s2, c) := Write(s1, PostServicePrincipal(s1.world, appID));
      (s2, if c.Ok? then None else Some(Wrapped("failed to create service principal", c.error)))
  }

  function AppRun(f: Flags, s: Session): Step {
    var (s1, r) := GetOrCreateApp(f, s);
    if r.Err? then (s1, Some(r.error)) else GetOrCreatePrincipal(f, s1, r.value.appID)
  }

  // ---------------------------------------------------------------------------------------
  // service-account

  function AccountPreRun(f: Flags, s: Session): Step {
    if f.serviceAccountNamespace == "" then (s, Required(false, "service-account-namespace"))
    else if f.serviceAccountName == "" then (s, Required(false, "service-account-name"))
    else if !AcceptedLifetime(f.tokenExpiration) then
      (s, Some(Plain("--service-account-token-expiration is out of bounds")))
    else
      var (s', r) := Read(s, Ok(()));
      (s', if r.Ok? then None else Some(Wrapped("failed to get kubernetes client", r.error)))
  }

  function DesiredAccount(f: Flags, clientID: string): ServiceAccount {
    ServiceAccount(AccountAnnotations(clientID, f.azureTenantID, f.tokenExpiration))
  }

  function AccountRun(f: Flags, s: Session): Step {
    var (s1, clientID) := AADApplicationClientID(f, s);
    var (s2, r) := CreateOrUpdateServiceAccount(s1, AccountKey(f), DesiredAccount(f, clientID));
    (s2, if r.Ok? then None else Some(Wrapped("failed to create kubernetes service account", r.error)))
  }

  // ---------------------------------------------------------------------------------------
  // federated-identity

  function CredentialPreRun(f: Flags, s: Session): Step {
    if f.serviceAccountNamespace == "" then (s, Required(false, "service-account-namespace"))
    else if f.serviceAccountName == "" then (s, Required(false, "service-account-name"))
    else (s, Required(f.issuerURL != "", "service-account-issuer-url"))
  }

  /** The server assigns the ID. */
  function DesiredCredential(f: Flags): Credential {
    var ns, name := f.serviceAccountNamespace, f.serviceAccountName;
    Credential("", Naming.CredentialName(ns, name, f.issuerURL, f.hash), f.issuerURL,
               Naming.CredentialSubject(ns, name),
               "Federated Service Account for " + ns + "/" + name, [DEFAULT_AUDIENCE])
  }

  function CredentialRun(f: Flags, s: Session): Step {
    var (s1, objectID) := AADApplicationObjectID(f, s);
    var (s2, r) := Write(s1, PostCredential(s1.world, objectID, DesiredCredential(f)));
    (s2, if r.Ok? || IsFederatedCredentialAlreadyExists(r.error) then None
         else Some(Wrapped("failed to add federated credential", r.error)))
  }

  // ---------------------------------------------------------------------------------------
  // role-assignment

  function RolePreRun(f: Flags, s: Session): Step {
    if f.azureScope == "" then (s, Required(false, "azure-scope"))
    else if f.azureRole == "" then (s, Required(false, "azure-role"))
    else if ServicePrincipalName(f) != "" then (s, None)
    else
      var (s', objectID) := ServicePrincipalObjectID(f, s);
      (s', Required(objectID != "", "service-principal-name or --service-principal-object-id"))
  }

  function RoleRun(f: Flags, s: Session): Step {
    var (s1, objectID) := ServicePrincipalObjectID(f, s);
    var (s2, r) := CreateRoleAssignment(s1, f.azureScope, f.azureRole, objectID);
    (s2, if r.Ok? || IsRoleAssignmentExists(r.error) then None
         else Some(Wrapped("failed to create role assignment", r.error)))
  }

  // ---------------------------------------------------------------------------------------
  // The command

  function CreatePhases(f: Flags): seq<Phase<Session, Error>> {
    [Phase(APP_PHASE, s => AppPreRun(f, s), s => AppRun(f, s)),
     Phase(ACCOUNT_PHASE, s => AccountPreRun(f, s), s => AccountRun(f, s)),
     Phase(CREDENTIAL_PHASE, s => CredentialPreRun(f, s), s => CredentialRun(f, s)),
     Phase(ROLE_PHASE, s => RolePreRun(f, s), s => RoleRun(f, s))]
  }

  /** One run of the command in a world, under a schedule of faults. */
  function Create(f: Flags, skips: seq<string>, w: World, faults: seq<Fault>): Outcome<Session, Error> {
    RunPhases(CreatePhases(f), skips, Session(w, None, None, faults))
  }
}
