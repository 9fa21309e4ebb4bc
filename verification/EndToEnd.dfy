/** What azwi serviceaccount create is for: pods of the account act as the application. */
module EndToEnd {
  import opened Common
  import opened Cloud
  import opened Directory
  import opened PodMutator
  import opened PodMutatorContent
  import opened CreateConvergence
  import opened CreateLimits
  import C = CreateCommand
  import CT = CreateTheorem
  import Workflow

  /** The account names the application and its tenant. */
  ghost predicate Announced(f: C.Flags, created: World, app: Application) {
    && app in created.apps && app.displayName == C.AADApplicationName(f)
    && C.AccountKey(f) in created.accounts
    && var annotations := created.accounts[C.AccountKey(f)].annotations;
       && Annotation(annotations, CLIENT_ID_ANNOTATION) == app.appID != ""
       && TENANT_ID_ANNOTATION in annotations && annotations[TENANT_ID_ANNOTATION] == f.azureTenantID
  }

  /** A service principal of the client has the role. */
  ghost predicate Empowered(f: C.Flags, w: World, principals: seq<ServicePrincipal>, assignments: seq<RoleAssignment>,
                            appID: string)
    requires f.azureRole in w.roles
  {
    exists sp :: sp in principals && sp.appID == appID
                 && HasAssignment(assignments, f.azureScope, w.roles[f.azureRole], sp.objectID)
  }

  /** The account names the application, which trusts the account's tokens and has the role. */
  ghost predicate Connected(f: C.Flags, w: World, created: World, app: Application) {
    && Announced(f, created, app) && TrustsAccount(f, app)
    && f.azureRole in w.roles && Empowered(f, w, created.principals, created.assignments, app.appID)
  }

  /** What the world must be like for create to connect them: an application of the name that is
      there already has no credential of the account's credential name, or trusts the account; and a
      service principal of the name that is there already is the application's, or the application
      has another one with the role. */
  ghost predicate Connectable(f: C.Flags, w: World)
    requires f.azureRole in w.roles
  {
    var app := FirstApp(w.apps, C.AADApplicationName(f));
    var found := FirstPrincipal(w.principals, C.ServicePrincipalName(f));
    && (app.Some? ==> !HasCredentialNamed(app.value, C.DesiredCredential(f).name) || TrustsAccount(f, app.value))
    && (found.Some? ==> app.Some? && EmpoweredWith(f, w, app.value.appID, found.value.objectID))
  }

  /** A service principal of the client is the given one or has the role. */
  ghost predicate EmpoweredWith(f: C.Flags, w: World, appID: string, objectID: string)
    requires f.azureRole in w.roles
  {
    exists sp :: sp in w.principals && sp.appID == appID
                 && (sp.objectID == objectID
                     || HasAssignment(w.assignments, f.azureScope, w.roles[f.azureRole], sp.objectID))
  }

  // ---------------------------------------------------------------------------------------
  // The application

  /** Before the credential was added. */
  lemma OwnerBefore(f: C.Flags, w: World, p: Progress)
    requires Valid(w) && Sane(f, w, p) && f.aadApplicationObjectID == "" && AppIdentity(f, w, p).Some?
    ensures var owner, before := AppByID(Apps(f, w, p), ObjectID(f, w, p)), FirstApp(w.apps, C.AADApplicationName(f));
            && owner.Some?
            && (before.Some? ==> owner == before)
            && (before.None? ==> owner.value.credentials == [])
  {
    var name := C.AADApplicationName(f);
    if p.app.Some? {
      LongIDsAreUnknown(w.apps, p.app.value.0, w.issued);
      AppByIDAppend(w.apps, NewApp(f, p.app.value), p.app.value.0);
    } else {
      assert Apps(f, w, p) == w.apps;
      FirstAppByIDs(w.apps, name);
    }
  }

  lemma BuiltTrusts(f: C.Flags, w: World, p: Progress, app: Application)
    requires Valid(w) && Sane(f, w, p) && f.aadApplicationObjectID == "" && CredentialSettled(f, w, p)
    requires AppIdentity(f, w, p) == Some((app.objectID, app.appID))
    requires AppByID(AppsWithCredential(f, w, p), app.objectID) == Some(app)
    ensures var before := FirstApp(w.apps, C.AADApplicationName(f));
            TrustsAccount(f, app) <==>
              (before.Some? ==>
                 !HasCredentialNamed(before.value, C.DesiredCredential(f).name) || TrustsAccount(f, before.value))
  {
    OwnerBefore(f, w, p);
    var owner := AppByID(Apps(f, w, p), ObjectID(f, w, p)).value;
    if p.credential.Some? {
      AppByIDWithCredentials(Apps(f, w, p), app.objectID,
                             owner.credentials + [C.DesiredCredential(f).(id := p.credential.value)], app.objectID);
      NewCredentialTrusts(f, owner, p.credential.value);
    }
    hide TrustsAccount;
    hide Valid;
    hide FirstApp;
  }

  // ---------------------------------------------------------------------------------------
  // The role

  /** The assignments of the built world are the old ones and the command's. */
  lemma BuiltAssignments(f: C.Flags, w: World, p: Progress, id: string)
    requires f.azureRole in w.roles
    ensures HasAssignment(Assignments(f, w, p), f.azureScope, w.roles[f.azureRole], id) <==>
              HasAssignment(w.assignments, f.azureScope, w.roles[f.azureRole], id)
                  || (p.role.Some? && id == PrincipalID(f, w, p))
  {
    var all := Assignments(f, w, p);
    if p.role.Some? {
      assert all[|w.assignments|]
          == RoleAssignment(p.role.value, f.azureScope, w.roles[f.azureRole], PrincipalID(f, w, p));
    }
    assert forall i :: 0 <= i < |w.assignments| ==> all[i] == w.assignments[i];
  }

  lemma RoleOfFound(f: C.Flags, w: World, p: Progress)
    requires f.azureRole in w.roles && f.servicePrincipalObjectID == "" && p.sp.None? && RoleSettled(f, w, p)
    requires FirstPrincipal(w.principals, C.ServicePrincipalName(f)).Some?
    ensures PrincipalID(f, w, p) == FirstPrincipal(w.principals, C.ServicePrincipalName(f)).value.objectID
    ensures HasAssignment(Assignments(f, w, p), f.azureScope, w.roles[f.azureRole], PrincipalID(f, w, p))
  {
    FirstPrincipalIn(w.principals, C.ServicePrincipalName(f));
    assert Principals(f, w, p) == w.principals;
    BuiltAssignments(f, w, p, PrincipalID(f, w, p));
    hide HasAssignment;
  }

  lemma BuiltEmpowers(f: C.Flags, w: World, p: Progress)
    requires Valid(w) && FlagsKnown(f, w) && Sane(f, w, p) && AppSettled(f, w, p) && RoleSettled(f, w, p)
    requires f.azureRole in w.roles && f.servicePrincipalObjectID == "" && AppIdentity(f, w, p).Some?
    ensures var app := FirstApp(w.apps, C.AADApplicationName(f));
            var found := FirstPrincipal(w.principals, C.ServicePrincipalName(f));
            Empowered(f, w, Principals(f, w, p), Assignments(f, w, p), AppIdentity(f, w, p).value.1) <==>
              (found.Some? ==> app.Some? && EmpoweredWith(f, w, app.value.appID, found.value.objectID))
  {
    var appID := AppIdentity(f, w, p).value.1;
    if p.sp.Some? {
      CT.MissingRoleByKind(f, w, p);
      var sp := ServicePrincipal(p.sp.value, appID, C.AADApplicationName(f));
      assert sp in Principals(f, w, p);
      BuiltAssignments(f, w, p, sp.objectID);
    } else {
      RoleOfFound(f, w, p);
      OldPrincipalsEmpower(f, w, p, appID);
    }
    hide HasAssignment;
    hide Sane;
    hide RoleMissing;
    hide Assignments;
  }

  /** If the principal was there, it is the one that has the role. */
  lemma OldPrincipalsEmpower(f: C.Flags, w: World, p: Progress, appID: string)
    requires Valid(w) && f.azureRole in w.roles && p.sp.None?
    requires AppIdentity(f, w, p).Some? && appID == AppIdentity(f, w, p).value.1
    requires p.app.Some? <==> FirstApp(w.apps, C.AADApplicationName(f)).None?
    requires p.app.Some? ==> !Known(w, appID)
    requires HasAssignment(Assignments(f, w, p), f.azureScope, w.roles[f.azureRole], PrincipalID(f, w, p))
    ensures var app := FirstApp(w.apps, C.AADApplicationName(f));
            Empowered(f, w, Principals(f, w, p), Assignments(f, w, p), appID) <==>
              app.Some? && EmpoweredWith(f, w, app.value.appID, PrincipalID(f, w, p))
  {
    assert Principals(f, w, p) == w.principals;
    forall id ensures HasAssignment(Assignments(f, w, p), f.azureScope, w.roles[f.azureRole], id) <==>
                        HasAssignment(w.assignments, f.azureScope, w.roles[f.azureRole], id)
                            || id == PrincipalID(f, w, p)
    {
      BuiltAssignments(f, w, p, id);
    }
    if p.app.Some? { FreshAppHasNoPrincipal(w, appID); }
    hide HasAssignment;
    hide Assignments;
    hide PrincipalID;
  }

  // ---------------------------------------------------------------------------------------
  // The account

  lemma AnnotationsRead(f: C.Flags, clientID: string)
    ensures var written := C.DesiredAccount(f, clientID).annotations;
            && Annotation(written, CLIENT_ID_ANNOTATION) == clientID
            && TENANT_ID_ANNOTATION in written && written[TENANT_ID_ANNOTATION] == f.azureTenantID
  {
    assert |TOKEN_EXPIRY_ANNOTATION| != |CLIENT_ID_ANNOTATION| && |TOKEN_EXPIRY_ANNOTATION| != |TENANT_ID_ANNOTATION|;
    assert |CLIENT_ID_ANNOTATION| == |TENANT_ID_ANNOTATION| && CLIENT_ID_ANNOTATION[24] != TENANT_ID_ANNOTATION[24];
  }

  lemma BuiltAnnounces(f: C.Flags, w: World, p: Progress, issued: nat, app: Application)
    requires f.aadApplicationClientID == "" && AccountSettled(f, w, p)
    requires AppIdentity(f, w, p) == Some((app.objectID, app.appID)) && app.appID != ""
    requires app in AppsWithCredential(f, w, p) && app.displayName == C.AADApplicationName(f)
    ensures Announced(f, Build(f, w, p, issued), app)
  {
    AnnotationsRead(f, app.appID);
    hide C.DesiredAccount;
    hide AppsWithCredential;
    hide Annotation;
  }

  lemma BuiltConnected(f: C.Flags, w: World, p: Progress, issued: nat) returns (app: Application)
    requires Valid(w) && FlagsKnown(f, w) && Sane(f, w, p) && f.azureRole in w.roles
    requires f.aadApplicationClientID == "" && f.aadApplicationObjectID == "" && f.servicePrincipalObjectID == ""
    requires AppSettled(f, w, p) && AccountSettled(f, w, p) && CredentialSettled(f, w, p) && RoleSettled(f, w, p)
    ensures var created := Build(f, w, p, issued);
            && FirstApp(created.apps, C.AADApplicationName(f)) == Some(app) && Announced(f, created, app)
            && (Connected(f, w, created, app) <==> Connectable(f, w))
  {
    assert AppIdentity(f, w, p).Some?;
    hide Sane;
    hide Valid;
    hide AccountSettled;
    hide CredentialSettled;
    hide RoleSettled;
    hide AppIdentity;
    hide AppsWithCredential;
    hide Principals;
    hide Assignments;
    hide Announced;
    hide TrustsAccount;
    hide Empowered;
    hide EmpoweredWith;
    hide HasCredentialNamed;
    app := BuiltApp(f, w, p);
    BuiltAnnounces(f, w, p, issued, app);
    BuiltTrusts(f, w, p, app);
    BuiltEmpowers(f, w, p);
  }

  /** A complete and feasible create, however often disturbed before, leaves an account that names the
      application of the command's name.  The application trusts the account's tokens and has the role
      exactly if what was there before did not stand in the way; create reports success either way. */
  lemma CreateConnectsExactlyWhen(f: C.Flags, w: World, runs: seq<seq<Fault>>) returns (app: Application)
    requires Valid(w) && NameServes(f, w) && CT.Feasible(f, [], w)
    requires f.aadApplicationClientID == "" && f.aadApplicationObjectID == "" && f.servicePrincipalObjectID == ""
    requires forall i :: 0 <= i < |runs| ==> Honest(runs[i])
    ensures var create := C.Create(f, [], CT.AfterRuns(f, [], w, runs), []);
            var created := create.data.world;
            && create.err == None && f.azureRole in w.roles
            && FirstApp(created.apps, C.AADApplicationName(f)) == Some(app) && Announced(f, created, app)
            && (Connected(f, w, created, app) <==> Connectable(f, w))
  {
    FeasibleHasRole(f, w);
    hide C.Create;
    hide CT.AfterRuns;
    hide CT.Feasible;
    hide Valid;
    hide Connected;
    hide Connectable;
    hide Announced;
    hide Build;
    var b := CT.AfterRuns(f, [], w, runs);
    var q := CT.HistoryWorks(f, [], w, runs);
    q := CT.CreateWorks(f, [], w, q, b, []);
    assert Workflow.ToSet([]) == {};
    app := BuiltConnected(f, w, q, C.Create(f, [], b, []).data.world.issued);
  }

  lemma FeasibleHasRole(f: C.Flags, w: World)
    requires CT.Feasible(f, [], w)
    ensures f.azureRole in w.roles
  {
    assert Workflow.ToSet([]) == {};
  }

  /** A pod of a connected account, admitted by the webhook, acts as the application: its container
      sees the application's client ID, and a token for the audience that the application trusts from
      the account's issuer and subject. */
  lemma PodActsAsApplication(f: C.Flags, w: World, created: World, app: Application,
                             m: Mutator, request: Pod, result: Pod, init: bool, i: nat)
      returns (c: Container, mount: VolumeMount, volume: Volume)
    requires Connected(f, w, created, app)
    requires m.client(f.serviceAccountName, f.serviceAccountNamespace) == Found(created.accounts[C.AccountKey(f)])
    requires request.serviceAccountName == f.serviceAccountName != ""
    requires Handled(m, f.serviceAccountNamespace, request) == Patched(result)
    requires !IsUsingCustomTokenEndpoint(m, request) && m.audience == C.DEFAULT_AUDIENCE
    requires i < |Listed(request, init)| && Listed(request, init)[i].name !in SkipContainers(request)
    requires EnvNames(Listed(request, init)[i].env) !! IDENTITY_ENVS
    ensures c in Listed(result, init) && c.name == Listed(request, init)[i].name
    ensures EffectiveEnv(c.env, CLIENT_ID_ENV) == Some(app.appID)
    ensures EffectiveEnv(c.env, TENANT_ID_ENV) == ValueOf(f.azureTenantID)
    ensures mount in c.volumeMounts && volume in result.volumes && mount.name == volume.name
    ensures EffectiveEnv(c.env, TOKEN_FILE_ENV) == Some(mount.mountPath + "/" + TOKEN_FILE_PATH)
    ensures ProjectsToken(volume, TOKEN_FILE_PATH, C.DEFAULT_AUDIENCE)
    ensures TrustsAccount(f, app)
  {
    hide Handled;
    hide SkipContainers;
    hide EnvNames;
    hide EffectiveEnv;
    hide ProjectsToken;
    hide TrustsAccount;
    hide HasAssignment;
    var sa;
    sa, c, mount, volume := IdentityReachesContainer(m, f.serviceAccountNamespace, request, result, init, i);
  }
}
