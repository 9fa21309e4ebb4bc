/** What create leaves, said in terms of its flags and of what was there before. */
module CreateMeaning {
  import opened Common
  import opened Cloud
  import opened Directory
  import opened PodMutator
  import opened PodMutatorMeaning
  import opened TokenLifetime
  import opened CreateCommand
  import opened CreateConvergence
  import opened EndToEnd

  /** Create, after any disturbed attempts. */
  function Created(f: Flags, w: World, runs: seq<seq<Fault>>): World {
    Create(f, [], CT.AfterRuns(f, [], w, runs), []).data.world
  }

  /** A complete create that can succeed, after attempts of which no fault reads as not-found. */
  ghost predicate Succeeds(f: Flags, w: World, runs: seq<seq<Fault>>) {
    && Valid(w) && NameServes(f, w) && FlagsKnown(f, w) && CT.Feasible(f, [], w)
    && forall i :: 0 <= i < |runs| ==> Honest(runs[i])
  }

  lemma CreatedBuilds(f: Flags, w: World, runs: seq<seq<Fault>>) returns (p: Progress)
    requires Succeeds(f, w, runs)
    ensures Create(f, [], CT.AfterRuns(f, [], w, runs), []).err == None
    ensures Created(f, w, runs) == Build(f, w, p, Created(f, w, runs).issued)
    ensures Sane(f, w, p) && CT.SettledUpTo(f, {}, w, p, 4) && CT.PreFeasibleUpTo(f, {}, w, 4) && f.azureRole in w.roles
  {
    p := CT.HistoryWorks(f, [], w, runs);
    p := CT.CreateWorks(f, [], w, p, CT.AfterRuns(f, [], w, runs), []);
    assert Workflow.ToSet([]) == {};
    hide Create;
    hide CT.AfterRuns;
    hide Sane;
    hide Build;
    hide Valid;
    hide NameServes;
    hide FlagsKnown;
    hide CT.SettledUpTo;
  }

  /** The name that is given, or the one made of namespace, name and issuer. */
  predicate Names(f: Flags, name: string) {
    if f.aadApplicationName != "" then name == f.aadApplicationName
    else name == f.serviceAccountNamespace + "-" + f.serviceAccountName + "-" + f.hash(f.issuerURL)
  }

  /** The account that is there afterwards names the client that is given, or else the application of
      the name, which is one that was there before or a new one; and nothing else happens to accounts. */
  lemma CreateAnnounces(f: Flags, w: World, runs: seq<seq<Fault>>) returns (app: Application)
    requires Succeeds(f, w, runs)
    ensures Create(f, [], CT.AfterRuns(f, [], w, runs), []).err == None
    ensures Names(f, app.displayName) && FirstApp(Created(f, w, runs).apps, app.displayName) == Some(app)
    ensures match FirstApp(w.apps, app.displayName)
            case Some(before) =>
              before.objectID == app.objectID && before.appID == app.appID && |Created(f, w, runs).apps| == |w.apps|
            case None => |Created(f, w, runs).apps| == |w.apps| + 1
    ensures var key, accounts := (f.serviceAccountNamespace, f.serviceAccountName), Created(f, w, runs).accounts;
            && key in accounts && accounts.Keys == w.accounts.Keys + {key}
            && (forall k :: k in w.accounts && k != key ==> accounts[k] == w.accounts[k])
            && Annotation(accounts[key].annotations, "azure.workload.identity/client-id")
                 == (if f.aadApplicationClientID != "" then f.aadApplicationClientID else app.appID)
            && Annotation(accounts[key].annotations, "azure.workload.identity/tenant-id") == f.azureTenantID
  {
    var p := CreatedBuilds(f, w, runs);
    app := AppIsNamed(f, w, p);
    AccountIsWritten(f, w, p, app);
    hide Sane;
    hide Succeeds;
    hide Names;
    hide FirstApp;
    hide AppsWithCredential;
    hide AppIdentity;
    hide Accounts;
    hide Annotation;
    hide Created;
    hide AppSettled;
    hide AccountSettled;
    hide CredentialSettled;
    hide RoleSettled;
    hide CT.PreFeasibleUpTo;
  }

  lemma AppIsNamed(f: Flags, w: World, p: Progress) returns (app: Application)
    requires Valid(w) && Sane(f, w, p) && CT.SettledUpTo(f, {}, w, p, 4) && CT.PreFeasibleUpTo(f, {}, w, 4)
    ensures Names(f, app.displayName) && FirstApp(AppsWithCredential(f, w, p), app.displayName) == Some(app)
    ensures AppIdentity(f, w, p) == Some((app.objectID, app.appID)) && app.displayName == AADApplicationName(f)
    ensures match FirstApp(w.apps, app.displayName)
            case Some(before) =>
              && before.objectID == app.objectID && before.appID == app.appID
              && |AppsWithCredential(f, w, p)| == |w.apps|
            case None => |AppsWithCredential(f, w, p)| == |w.apps| + 1
  {
    assert AppIdentity(f, w, p).Some?;
    app := BuiltApp(f, w, p);
    SizeOfApps(f, w, p);
    hide Sane;
    hide Valid;
    hide AppsWithCredential;
    hide CredentialSettled;
    hide RoleSettled;
    hide AccountSettled;
  }

  lemma AccountIsWritten(f: Flags, w: World, p: Progress, app: Application)
    requires CT.SettledUpTo(f, {}, w, p, 4) && AppIdentity(f, w, p) == Some((app.objectID, app.appID))
    ensures var key, accounts := (f.serviceAccountNamespace, f.serviceAccountName), Accounts(f, w, p);
            && key in accounts && accounts.Keys == w.accounts.Keys + {key}
            && (forall k :: k in w.accounts && k != key ==> accounts[k] == w.accounts[k])
            && Annotation(accounts[key].annotations, "azure.workload.identity/client-id")
                 == (if f.aadApplicationClientID != "" then f.aadApplicationClientID else app.appID)
            && Annotation(accounts[key].annotations, "azure.workload.identity/tenant-id") == f.azureTenantID
  {
    AnnotationsRead(f, ClientID(f, w, p));
    hide DesiredAccount;
    hide AppIdentity;
    hide AppSettled;
    hide CredentialSettled;
    hide RoleSettled;
  }

  /** A pod of the account that does not ask for a lifetime itself gets the one that create was given,
      to the nearest second. */
  lemma CreateSetsLifetime(f: Flags, w: World, runs: seq<seq<Fault>>, pod: Pod) returns (seconds: int)
    requires Succeeds(f, w, runs) && !SetIn(pod.annotations, TOKEN_EXPIRY_ANNOTATION)
    ensures var key := (f.serviceAccountNamespace, f.serviceAccountName);
            && key in Created(f, w, runs).accounts
            && AsksForLifetime(pod, Created(f, w, runs).accounts[key], seconds)
    ensures 3600 <= seconds <= 86400
    ensures -1_000_000_000 < 2 * (seconds * 1_000_000_000 - f.tokenExpiration) <= 1_000_000_000
  {
    var p := CreatedBuilds(f, w, runs);
    var clientID := ClientID(f, w, p);
    LifetimeRoundTrip(pod, clientID, f.azureTenantID, f.tokenExpiration);
    seconds := ProjectedLifetime(pod, clientID, f.azureTenantID, f.tokenExpiration).value;
    LifetimeExactlyWhen(pod, DesiredAccount(f, clientID), seconds);
    assert Accounts(f, w, p)[AccountKey(f)] == DesiredAccount(f, clientID);
    hide Sane;
    hide Succeeds;
    hide AppsWithCredential;
    hide ClientID;
    hide TokenExpiration;
    hide AsksForLifetime;
    hide AccountAnnotations;
    hide Created;
    hide AppSettled;
    hide CredentialSettled;
    hide RoleSettled;
  }

  lemma {:induction false} SameSize(apps: seq<Application>, id: string, cs: seq<Credential>)
    ensures |WithCredentials(apps, id, cs)| == |apps|
  {
    if apps != [] { SameSize(apps[1..], id, cs); }
  }

  lemma SizeOfApps(f: Flags, w: World, p: Progress)
    ensures |AppsWithCredential(f, w, p)| == |w.apps| + if p.app.Some? then 1 else 0
  {
    var owner := AppByID(Apps(f, w, p), ObjectID(f, w, p));
    if p.credential.Some? && owner.Some? {
      SameSize(Apps(f, w, p), ObjectID(f, w, p),
               owner.value.credentials + [DesiredCredential(f).(id := p.credential.value)]);
    }
  }

  /** The principal that is looked for: by the name that is given, or else by the application's. */
  function Wanted(f: Flags, w: World, appName: string): Option<ServicePrincipal> {
    FirstPrincipal(w.principals, if f.servicePrincipalName != "" then f.servicePrincipalName else appName)
  }

  /** The role goes to the principal that is given by its ID, or else to the one of the wanted name if
      there is one, and else to a new one of the application. */
  lemma CreateAssigns(f: Flags, w: World, runs: seq<seq<Fault>>) returns (app: Application, principal: string)
    requires Succeeds(f, w, runs)
    ensures Names(f, app.displayName) && FirstApp(Created(f, w, runs).apps, app.displayName) == Some(app)
    ensures f.servicePrincipalObjectID != "" ==> principal == f.servicePrincipalObjectID
    ensures match Wanted(f, w, app.displayName)
            case Some(sp) =>
              && Created(f, w, runs).principals == w.principals
              && (f.servicePrincipalObjectID == "" ==> principal == sp.objectID)
            case None =>
              exists sp: ServicePrincipal :: Created(f, w, runs).principals == w.principals + [sp]
                && sp.appID == app.appID && sp.displayName == app.displayName
                && (f.servicePrincipalObjectID == "" ==> principal == sp.objectID)
    ensures f.azureRole in w.roles
    ensures f.servicePrincipalObjectID == "" || PrincipalExists(Created(f, w, runs), principal) ==>
              HasAssignment(Created(f, w, runs).assignments, f.azureScope, w.roles[f.azureRole], principal)
  {
    var p := CreatedBuilds(f, w, runs);
    app := AppIsNamed(f, w, p);
    principal := PrincipalID(f, w, p);
    RoleIsThere(f, w, p, Created(f, w, runs).issued);
    PrincipalIsWanted(f, w, p, app);
    hide Sane;
    hide Succeeds;
    hide Names;
    hide FirstApp;
    hide AppsWithCredential;
    hide AppIdentity;
    hide PrincipalID;
    hide Wanted;
    hide Principals;
    hide Assignments;
    hide Accounts;
    hide Created;
    hide HasAssignment;
    hide PrincipalExists;
    hide AppSettled;
    hide CredentialSettled;
    hide AccountSettled;
    hide RoleSettled;
    hide CT.PreFeasibleUpTo;
  }

  lemma PrincipalIsWanted(f: Flags, w: World, p: Progress, app: Application)
    requires Sane(f, w, p) && AppSettled(f, w, p) && app.displayName == AADApplicationName(f)
    requires AppIdentity(f, w, p) == Some((app.objectID, app.appID))
    ensures var principal := PrincipalID(f, w, p);
            && (f.servicePrincipalObjectID != "" ==> principal == f.servicePrincipalObjectID)
            && match Wanted(f, w, app.displayName)
               case Some(sp) =>
                 Principals(f, w, p) == w.principals && (f.servicePrincipalObjectID == "" ==> principal == sp.objectID)
               case None =>
                 exists sp: ServicePrincipal :: Principals(f, w, p) == w.principals + [sp]
                   && sp.appID == app.appID && sp.displayName == app.displayName
                   && (f.servicePrincipalObjectID == "" ==> principal == sp.objectID)
  {
    hide AADApplicationName;
    hide AppIdentity;
    hide RoleMissing;
    hide CredentialMissing;
    if p.sp.Some? {
      var sp := ServicePrincipal(p.sp.value, app.appID, app.displayName);
      assert Principals(f, w, p) == w.principals + [sp];
    } else {
      assert Principals(f, w, p) == w.principals;
    }
  }

  lemma RoleIsThere(f: Flags, w: World, p: Progress, issued: nat)
    requires Valid(w) && FlagsKnown(f, w) && Sane(f, w, p) && AppSettled(f, w, p) && RoleSettled(f, w, p)
    requires f.azureRole in w.roles
    ensures var principal := PrincipalID(f, w, p);
            f.servicePrincipalObjectID == "" || PrincipalExists(Build(f, w, p, issued), principal) ==>
              HasAssignment(Assignments(f, w, p), f.azureScope, w.roles[f.azureRole], principal)
  {
    var principal := PrincipalID(f, w, p);
    CT.MissingRoleByKind(f, w, p);
    BuiltAssignments(f, w, p, principal);
    if f.servicePrincipalObjectID == "" && p.sp.None? { RoleOfFound(f, w, p); }
    hide HasAssignment;
    hide Sane;
    hide Valid;
    hide Assignments;
  }

  // ---------------------------------------------------------------------------------------
  // The credential

  /** The credentials of an application before, of which a new one has none. */
  function CredentialsOf(w: World, objectID: string): seq<Credential> {
    match AppByID(w.apps, objectID)
    case Some(app) => app.credentials
    case None => []
  }

  /** The application that is given by its ID, or else the one of the name, has a credential of the
      account's name afterwards: one that was there before, or one for the account's tokens. */
  lemma CreateFederates(f: Flags, w: World, runs: seq<seq<Fault>>) returns (app: Application, owner: Application)
    requires Succeeds(f, w, runs)
    ensures Names(f, app.displayName) && FirstApp(Created(f, w, runs).apps, app.displayName) == Some(app)
    ensures var id := if f.aadApplicationObjectID != "" then f.aadApplicationObjectID else app.objectID;
            AppByID(Created(f, w, runs).apps, id) == Some(owner) && owner.objectID == id
    ensures var ns, account := f.serviceAccountNamespace, f.serviceAccountName;
            var name := f.hash(ns + "-" + account + "-" + f.issuerURL);
            var before := CredentialsOf(w, owner.objectID);
            if exists c :: c in before && c.name == name then owner.credentials == before
            else exists id ::
              owner.credentials == before + [Credential(id, name, f.issuerURL,
                                                        "system:serviceaccount:" + ns + ":" + account,
                                                        "Federated Service Account for " + ns + "/" + account,
                                                        ["api://AzureADTokenExchange"])]
  {
    var p := CreatedBuilds(f, w, runs);
    app := AppIsNamed(f, w, p);
    OwnerIsThere(f, w, p);
    owner := CredentialIsThere(f, w, p);
    hide Sane;
    hide Names;
    hide FirstApp;
    hide AppsWithCredential;
    hide AppIdentity;
    hide Principals;
    hide Assignments;
    hide Accounts;
    hide Created;
    hide AppSettled;
    hide CredentialSettled;
    hide AccountSettled;
    hide RoleSettled;
    hide CT.PreFeasibleUpTo;
  }

  lemma OwnerIsThere(f: Flags, w: World, p: Progress)
    requires Valid(w) && FlagsKnown(f, w) && Sane(f, w, p) && CT.SettledUpTo(f, {}, w, p, 4) && CT.Feasible(f, [], w)
    ensures CredentialFeasible(f, w, p)
  {
    assert Workflow.ToSet([]) == {};
    CT.PossibleIsFeasible(f, {}, w, p);
    hide Sane;
    hide Valid;
  }

  lemma OwnerBeforehand(f: Flags, w: World, p: Progress)
    requires CredentialFeasible(f, w, p)
    ensures AppByID(Apps(f, w, p), ObjectID(f, w, p)).value.credentials == CredentialsOf(w, ObjectID(f, w, p))
  {
    var id := ObjectID(f, w, p);
    if p.app.Some? {
      AppByIDAppend(w.apps, NewApp(f, p.app.value), id);
    } else {
      assert Apps(f, w, p) == w.apps;
    }
  }

  lemma {:induction false} IDOfFound(apps: seq<Application>, id: string)
    requires AppByID(apps, id).Some?
    ensures AppByID(apps, id).value.objectID == id
  {
    if apps[0].objectID != id { IDOfFound(apps[1..], id); }
  }

  lemma CredentialIsThere(f: Flags, w: World, p: Progress) returns (owner: Application)
    requires CredentialFeasible(f, w, p) && CredentialSettled(f, w, p)
    ensures AppByID(AppsWithCredential(f, w, p), ObjectID(f, w, p)) == Some(owner)
    ensures owner.objectID == ObjectID(f, w, p)
    ensures var ns, account := f.serviceAccountNamespace, f.serviceAccountName;
            var name := f.hash(ns + "-" + account + "-" + f.issuerURL);
            var before := CredentialsOf(w, owner.objectID);
            if exists c :: c in before && c.name == name then owner.credentials == before
            else exists id ::
              owner.credentials == before + [Credential(id, name, f.issuerURL,
                                                        "system:serviceaccount:" + ns + ":" + account,
                                                        "Federated Service Account for " + ns + "/" + account,
                                                        ["api://AzureADTokenExchange"])]
  {
    var id, first := ObjectID(f, w, p), AppByID(Apps(f, w, p), ObjectID(f, w, p)).value;
    OwnerBeforehand(f, w, p);
    IDOfFound(Apps(f, w, p), id);
    owner := first;
    if p.credential.Some? {
      var c := DesiredCredential(f).(id := p.credential.value);
      AppByIDWithCredentials(Apps(f, w, p), id, first.credentials + [c], id);
      owner := first.(credentials := first.credentials + [c]);
    }
    hide Apps;
    hide ObjectID;
    hide AppByID;
  }

  // ---------------------------------------------------------------------------------------
  // All or nothing before the first phase runs

  lemma NoClientNoPreRun(f: Flags, skip: set<string>, s: Session)
    requires NextFault(s).Lost? && ACCOUNT_PHASE !in skip
    ensures var pre := Workflow.ThenAll((s, None), CreatePhases(f), skip, true); pre.1.Some? && pre.0.world == s.world
  {
    hide Workflow.Then;
    hide CreatePhases;
    hide RolePreRun;
    hide CredentialPreRun;
    var start: Step := (s, None);
    CT.PreSteps(f, skip, start);
    var a := Workflow.Unless(start, APP_PHASE, skip, AppPreRun(f, s));
    CT.PreSteps(f, skip, a);
    var b := Workflow.Unless(a, ACCOUNT_PHASE, skip, AccountPreRun(f, a.0));
    assert b.1.Some? && b.0.world == s.world;
    CT.PreSteps(f, skip, b);
  }

  /** If the Kubernetes client cannot be had, the command fails before it creates anything. */
  lemma NoClientNoCreate(f: Flags, skips: seq<string>, w: World, error: Error, faults: seq<Fault>)
    requires CT.KnownSkips(skips) && ACCOUNT_PHASE !in skips
    ensures var o := Create(f, skips, w, [Lost(error)] + faults); o.err.Some? && o.data.world == w
  {
    hide Workflow.ThenAll;
    hide CreatePhases;
    hide Workflow.RunPhases;
    hide CT.KnownSkips;
    var s := Session(w, None, None, [Lost(error)] + faults);
    CT.CreateRuns(f, skips, s);
    NoClientNoPreRun(f, Workflow.ToSet(skips), s);
  }
}
