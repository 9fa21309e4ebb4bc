/**
 Create converges: however often the command was run before with the same flags, and whatever
 faults those runs met, one undisturbed run leads to the state that it would have led to at once.
 */
module CreateConvergence {
  import opened Common
  import opened PodMutator
  import opened Cloud
  import opened Directory
  import opened CreateCommand
  import Text

  /** What runs of create have added to a world: IDs of the objects, and the account they wrote. */
  datatype Progress = Progress(app: Option<(string, string)>, sp: Option<string>, account: Option<ServiceAccount>,
                               credential: Option<string>, role: Option<string>)

  const NOTHING := Progress(None, None, None, None, None)

  // ---------------------------------------------------------------------------------------
  // The world after some progress

  /** Object ID and client ID of the application that the lookup by name finds. */
  function AppIdentity(f: Flags, w: World, p: Progress): Option<(string, string)> {
    match FirstApp(w.apps, AADApplicationName(f))
    case Some(a) => Some((a.objectID, a.appID))
    case None => p.app
  }

  function ClientID(f: Flags, w: World, p: Progress): string {
    if f.aadApplicationClientID != "" then f.aadApplicationClientID
    else if AppIdentity(f, w, p).Some? then AppIdentity(f, w, p).value.1 else ""
  }

  function ObjectID(f: Flags, w: World, p: Progress): string {
    if f.aadApplicationObjectID != "" then f.aadApplicationObjectID
    else if AppIdentity(f, w, p).Some? then AppIdentity(f, w, p).value.0 else ""
  }

  function PrincipalIdentity(f: Flags, w: World, p: Progress): Option<string> {
    match FirstPrincipal(w.principals, ServicePrincipalName(f))
    case Some(sp) => Some(sp.objectID)
    case None => p.sp
  }

  function PrincipalID(f: Flags, w: World, p: Progress): string {
    if f.servicePrincipalObjectID != "" then f.servicePrincipalObjectID
    else if PrincipalIdentity(f, w, p).Some? then PrincipalIdentity(f, w, p).value else ""
  }

  function NewApp(f: Flags, ids: (string, string)): Application {
    Application(ids.0, ids.1, AADApplicationName(f), [])
  }

  function Apps(f: Flags, w: World, p: Progress): seq<Application> {
    w.apps + if p.app.Some? then [NewApp(f, p.app.value)] else []
  }

  function AppsWithCredential(f: Flags, w: World, p: Progress): seq<Application> {
    var owner := AppByID(Apps(f, w, p), ObjectID(f, w, p));
    if p.credential.Some? && owner.Some? then
      WithCredentials(Apps(f, w, p), ObjectID(f, w, p),
                      owner.value.credentials + [DesiredCredential(f).(id := p.credential.value)])
    else Apps(f, w, p)
  }

  function Principals(f: Flags, w: World, p: Progress): seq<ServicePrincipal> {
    w.principals + if p.sp.Some? && AppIdentity(f, w, p).Some?
                   then [ServicePrincipal(p.sp.value, AppIdentity(f, w, p).value.1, AADApplicationName(f))] else []
  }

  function Assignments(f: Flags, w: World, p: Progress): seq<RoleAssignment> {
    w.assignments + if p.role.Some? && f.azureRole in w.roles
                    then [RoleAssignment(p.role.value, f.azureScope, w.roles[f.azureRole], PrincipalID(f, w, p))]
                    else []
  }

  function Accounts(f: Flags, w: World, p: Progress): map<(string, string), ServiceAccount> {
    if p.account.Some? then w.accounts[AccountKey(f) := p.account.value] else w.accounts
  }

  /** w with the progress made.  The ID counter does not matter to anybody. */
  function Build(f: Flags, w: World, p: Progress, issued: nat): World {
    World(AppsWithCredential(f, w, p), Principals(f, w, p), Assignments(f, w, p), Accounts(f, w, p),
          w.roles, w.otherPrincipals, issued)
  }

  // ---------------------------------------------------------------------------------------
  // Which progress is possible

  predicate Known(w: World, id: string) {
    |id| <= w.issued
  }

  predicate CredentialMissing(f: Flags, w: World, p: Progress) {
    var owner := AppByID(Apps(f, w, p), ObjectID(f, w, p));
    owner.Some? && !HasCredentialNamed(owner.value, DesiredCredential(f).name)
  }

  predicate PrincipalPresent(f: Flags, w: World, p: Progress) {
    PrincipalExists(w.(principals := Principals(f, w, p)), PrincipalID(f, w, p))
  }

  predicate RoleMissing(f: Flags, w: World, p: Progress) {
    && f.azureRole in w.roles && PrincipalPresent(f, w, p)
    && !HasAssignment(w.assignments, f.azureScope, w.roles[f.azureRole], PrincipalID(f, w, p))
  }

  /** Nothing was added that was there before, and the new IDs are new. */
  predicate Sane(f: Flags, w: World, p: Progress) {
    && (p.app.Some? ==>
          FirstApp(w.apps, AADApplicationName(f)).None? && !Known(w, p.app.value.0) && !Known(w, p.app.value.1))
    && (p.sp.Some? ==> FirstPrincipal(w.principals, ServicePrincipalName(f)).None? && !Known(w, p.sp.value)
                       && AppIdentity(f, w, p).Some? && !HasPrincipalFor(w.principals, AppIdentity(f, w, p).value.1))
    && (p.credential.Some? ==> CredentialMissing(f, w, p))
    && (p.role.Some? ==> RoleMissing(f, w, p) && !Known(w, p.role.value))
  }

  /** Only phases that are not skipped make progress. */
  predicate Allowed(skip: set<string>, p: Progress) {
    && (APP_PHASE in skip ==> p.app.None? && p.sp.None?)
    && (ACCOUNT_PHASE in skip ==> p.account.None?)
    && (CREDENTIAL_PHASE in skip ==> p.credential.None?)
    && (ROLE_PHASE in skip ==> p.role.None?)
  }

  /** Create looks for a service principal by the name that the one it creates will have, or by one
      that is there. */
  predicate NameServes(f: Flags, w: World) {
    || f.servicePrincipalName == "" || f.servicePrincipalName == AADApplicationName(f)
    || FirstPrincipal(w.principals, f.servicePrincipalName).Some?
  }

  /** The IDs given as flags are not IDs that are still to be issued. */
  predicate FlagsKnown(f: Flags, w: World) {
    Known(w, f.aadApplicationObjectID) && Known(w, f.servicePrincipalObjectID)
  }

  /** Not-found errors come only from servers that looked. */
  ghost predicate Honest(faults: seq<Fault>) {
    forall i :: 0 <= i < |faults| ==> !faults[i].Healthy? ==> !IsNotFound(faults[i].error)
  }

  ghost predicate CachesOk(f: Flags, w: World, p: Progress, s: Session) {
    && (s.app.Some? ==> AppIdentity(f, w, p) == Some((s.app.value.objectID, s.app.value.appID)))
    && (s.sp.Some? ==> PrincipalIdentity(f, w, p) == Some(s.sp.value.objectID))
  }

  /** A session that works on w with progress p. */
  ghost predicate Works(f: Flags, skip: set<string>, w: World, p: Progress, s: Session) {
    && Valid(w) && NameServes(f, w) && FlagsKnown(f, w)
    && Sane(f, w, p) && Allowed(skip, p)
    && w.issued <= s.world.issued && s.world == Build(f, w, p, s.world.issued)
    && CachesOk(f, w, p, s) && Honest(s.faults)
  }

  // ---------------------------------------------------------------------------------------
  // What lookups find in the built world

  lemma NewIDIsNew(w: World, s: Session)
    requires w.issued <= s.world.issued
    ensures !Known(w, NewID(s.world)) && NewID(s.world) != ""
  {
  }

  lemma AppFound(f: Flags, w: World, p: Progress)
    requires Valid(w) && Sane(f, w, p)
    ensures var found := FirstApp(AppsWithCredential(f, w, p), AADApplicationName(f));
            && (found.Some? <==> AppIdentity(f, w, p).Some?)
            && (found.Some? ==> AppIdentity(f, w, p).value == (found.value.objectID, found.value.appID))
  {
    var n := AADApplicationName(f);
    if p.app.Some? { FirstAppAppend(w.apps, NewApp(f, p.app.value), n); } else { assert Apps(f, w, p) == w.apps; }
    var owner := AppByID(Apps(f, w, p), ObjectID(f, w, p));
    if p.credential.Some? {
      FirstAppWithCredentials(Apps(f, w, p), ObjectID(f, w, p),
                              owner.value.credentials + [DesiredCredential(f).(id := p.credential.value)], n);
    }
  }

  lemma AppFoundByClientID(f: Flags, w: World, p: Progress)
    requires Valid(w) && Sane(f, w, p) && AppIdentity(f, w, p).Some?
    ensures var found := AppByClientID(AppsWithCredential(f, w, p), AppIdentity(f, w, p).value.1);
            found.Some? && found.value.displayName == AADApplicationName(f)
  {
    var n, appID := AADApplicationName(f), AppIdentity(f, w, p).value.1;
    if p.app.Some? {
      LongIDsAreUnknown(w.apps, appID, w.issued);
      AppByClientIDAppend(w.apps, NewApp(f, p.app.value), appID);
    } else {
      assert Apps(f, w, p) == w.apps;
      FirstAppByIDs(w.apps, n);
    }
    var owner := AppByID(Apps(f, w, p), ObjectID(f, w, p));
    if p.credential.Some? {
      AppByClientIDWithCredentials(Apps(f, w, p), ObjectID(f, w, p),
                                   owner.value.credentials + [DesiredCredential(f).(id := p.credential.value)], appID);
    }
  }

  lemma PrincipalFound(f: Flags, w: World, p: Progress)
    requires Sane(f, w, p) && NameServes(f, w)
    ensures var found := FirstPrincipal(Principals(f, w, p), ServicePrincipalName(f));
            && (found.Some? <==> PrincipalIdentity(f, w, p).Some?)
            && (found.Some? ==> PrincipalIdentity(f, w, p).value == found.value.objectID)
  {
    if p.sp.Some? {
      var name := AADApplicationName(f);
      FirstPrincipalAppend(w.principals, ServicePrincipal(p.sp.value, AppIdentity(f, w, p).value.1, name), name);
    } else {
      assert Principals(f, w, p) == w.principals;
    }
  }

  lemma CredentialOwner(f: Flags, w: World, p: Progress)
    requires Valid(w) && Sane(f, w, p)
    ensures var owner := AppByID(AppsWithCredential(f, w, p), ObjectID(f, w, p));
            && (owner.Some? <==> AppByID(Apps(f, w, p), ObjectID(f, w, p)).Some?)
            && (owner.Some? && p.credential.None? ==> owner == AppByID(Apps(f, w, p), ObjectID(f, w, p)))
            && (owner.Some? && p.credential.Some? ==> HasCredentialNamed(owner.value, DesiredCredential(f).name))
  {
    var before := AppByID(Apps(f, w, p), ObjectID(f, w, p));
    if p.credential.Some? {
      var cs := before.value.credentials + [DesiredCredential(f).(id := p.credential.value)];
      AppByIDWithCredentials(Apps(f, w, p), ObjectID(f, w, p), cs, ObjectID(f, w, p));
      assert cs[|before.value.credentials|].name == DesiredCredential(f).name;
    }
  }

  lemma BuiltAppsDistinct(f: Flags, w: World, p: Progress)
    requires Valid(w) && Sane(f, w, p)
    ensures DistinctIDs(AppsWithCredential(f, w, p))
  {
    assert DistinctIDs(Apps(f, w, p));
    var id := ObjectID(f, w, p);
    if p.credential.Some? && AppByID(Apps(f, w, p), id).Some? {
      ChangedIDs(Apps(f, w, p), id,
                 AppByID(Apps(f, w, p), id).value.credentials + [DesiredCredential(f).(id := p.credential.value)]);
    }
  }

  /** The application that the name finds in the built world. */
  lemma BuiltApp(f: Flags, w: World, p: Progress) returns (app: Application)
    requires Valid(w) && Sane(f, w, p) && AppIdentity(f, w, p).Some?
    ensures FirstApp(AppsWithCredential(f, w, p), AADApplicationName(f)) == Some(app)
    ensures app in AppsWithCredential(f, w, p) && app.displayName == AADApplicationName(f)
    ensures AppIdentity(f, w, p) == Some((app.objectID, app.appID)) && app.appID != ""
    ensures AppByID(AppsWithCredential(f, w, p), app.objectID) == Some(app)
  {
    AppFound(f, w, p);
    BuiltAppsDistinct(f, w, p);
    FirstAppByIDs(AppsWithCredential(f, w, p), AADApplicationName(f));
    app := FirstApp(AppsWithCredential(f, w, p), AADApplicationName(f)).value;
    if FirstApp(w.apps, AADApplicationName(f)).Some? { FirstAppByIDs(w.apps, AADApplicationName(f)); }
  }

  // ---------------------------------------------------------------------------------------
  // The lookups of the command

  lemma NotFoundText(before: string)
    ensures IsNotFound(Plain(before + " not found"))
  {
    Text.ContainsInside(before + " ", "not found", "");
    assert before + " " + "not found" + "" == before + " not found";
  }

  /** A call keeps the session working and uses up a fault. */
  lemma CalledWorks(f: Flags, skip: set<string>, w: World, p: Progress, s: Session)
    requires Works(f, skip, w, p, s)
    ensures Works(f, skip, w, p, Called(s))
    ensures s.faults == [] ==> Called(s).faults == []
    ensures !NextFault(s).Healthy? ==> !IsNotFound(NextFault(s).error)
  {
  }

  /** An undisturbed lookup fails only with a not-found error. */
  lemma AbsentAppText(s: Session, name: string)
    requires NextFault(s).Healthy? && FirstApp(s.world.apps, name).None?
    ensures GetApplication(s, name).1.Err? && IsNotFound(GetApplication(s, name).1.error)
  {
    NotFoundText("application with display name '" + name + "'");
    var text := "application with display name '";
    assert text + name + "'" + " not found" == text + name + "' not found";
  }

  lemma LookupApp(f: Flags, skip: set<string>, w: World, p: Progress, s: Session)
    requires Works(f, skip, w, p, s)
    ensures var (s', r) := AADApplication(f, s);
            && Works(f, skip, w, p, s') && s'.world == s.world
            && (r.Ok? ==> AppIdentity(f, w, p) == Some((r.value.objectID, r.value.appID)))
            && (r.Err? && IsNotFound(r.error) ==> AppIdentity(f, w, p).None? && s'.app.None?)
            && (s.faults == [] ==> s'.faults == [] && (r.Err? ==> IsNotFound(r.error)))
  {
    if s.app.None? {
      var name := AADApplicationName(f);
      CalledWorks(f, skip, w, p, s);
      AppFound(f, w, p);
      if NextFault(s).Healthy? {
        if FirstApp(s.world.apps, name).None? { AbsentAppText(s, name); }
      }
    }
  }

  lemma LookupPrincipal(f: Flags, skip: set<string>, w: World, p: Progress, s: Session)
    requires Works(f, skip, w, p, s)
    ensures var (s', r) := ServicePrincipalObject(f, s);
            && Works(f, skip, w, p, s') && s'.world == s.world
            && (r.Ok? ==> PrincipalIdentity(f, w, p) == Some(r.value.objectID))
            && (r.Err? && IsNotFound(r.error) ==> PrincipalIdentity(f, w, p).None? && s'.sp.None?)
            && (s.faults == [] ==> s'.faults == [] && (r.Err? ==> IsNotFound(r.error)))
  {
    if s.sp.None? {
      CalledWorks(f, skip, w, p, s);
      PrincipalFound(f, w, p);
      NotFoundText("service principal " + ServicePrincipalName(f));
    }
  }

  // ---------------------------------------------------------------------------------------
  // aad-application

  predicate AppSettled(f: Flags, w: World, p: Progress) {
    && (p.app.Some? <==> FirstApp(w.apps, AADApplicationName(f)).None?)
    && (p.sp.Some? <==> FirstPrincipal(w.principals, ServicePrincipalName(f)).None?)
  }

  /** Creating the service principal does not conflict. */
  predicate AppFeasible(f: Flags, w: World) {
    var app := FirstApp(w.apps, AADApplicationName(f));
    || FirstPrincipal(w.principals, ServicePrincipalName(f)).Some?
    || app.None? || !HasPrincipalFor(w.principals, app.value.appID)
  }

  /** Adding the application: nothing else can have been added that depends on it. */
  lemma AppAdded(f: Flags, skip: set<string>, w: World, p: Progress, s: Session) returns (p': Progress)
    requires Works(f, skip, w, p, s) && AppIdentity(f, w, p).None? && APP_PHASE !in skip && s.app.None?
    ensures p' == p.(app := p'.app) && p'.app == Some((NewID(s.world), NewID(Issue(s.world))))
    ensures Works(f, skip, w, p', s.(world := PostApplication(s.world, AADApplicationName(f)).0))
    ensures AppIdentity(f, w, p') == p'.app
  {
    var ids := (NewID(s.world), NewID(Issue(s.world)));
    p' := p.(app := Some(ids));
    NewIDIsNew(w, s);
    assert Apps(f, w, p) == w.apps;
    assert Apps(f, w, p') == w.apps + [NewApp(f, ids)];
    CredentialsWithoutApp(f, w, p, ids);
    var w' := PostApplication(s.world, AADApplicationName(f)).0;
    assert Principals(f, w, p') == Principals(f, w, p) == w.principals;
    assert PrincipalID(f, w, p') == PrincipalID(f, w, p);
  }

  /** A credential that exists without the application of the command's name is in an
      application given by its object ID, and stays there. */
  lemma CredentialsWithoutApp(f: Flags, w: World, p: Progress, ids: (string, string))
    requires Valid(w) && Sane(f, w, p) && FlagsKnown(f, w) && AppIdentity(f, w, p).None? && !Known(w, ids.0)
    ensures var p' := p.(app := Some(ids));
            && AppsWithCredential(f, w, p') == AppsWithCredential(f, w, p) + [NewApp(f, ids)]
            && (p.credential.Some? ==> CredentialMissing(f, w, p'))
  {
    var p' := p.(app := Some(ids));
    assert Apps(f, w, p) == w.apps;
    if p.credential.Some? {
      var id := ObjectID(f, w, p);
      EmptyIDIsUnknown(w.apps);
      assert id == f.aadApplicationObjectID == ObjectID(f, w, p');
      AppByIDAppend(w.apps, NewApp(f, ids), id);
      var cs := AppByID(w.apps, id).value.credentials + [DesiredCredential(f).(id := p.credential.value)];
      WithCredentialsAppend(w.apps, NewApp(f, ids), id, cs);
    }
  }

  lemma GetOrCreateAppWorks(f: Flags, skip: set<string>, w: World, p: Progress, s: Session) returns (p': Progress)
    requires Works(f, skip, w, p, s) && APP_PHASE !in skip
    ensures p' == p.(app := p'.app)
    ensures var (s', r) := GetOrCreateApp(f, s);
            && Works(f, skip, w, p', s')
            && (r.Ok? ==> AppIdentity(f, w, p') == Some((r.value.objectID, r.value.appID)))
            && (s.faults == [] ==> s'.faults == [] && r.Ok?)
  {
    LookupApp(f, skip, w, p, s);
    var (s1, r) := AADApplication(f, s);
    p' := p;
    if r.Err? && IsNotFound(r.error) {
      CalledWorks(f, skip, w, p, s1);
      if !NextFault(s1).Lost? {
        p' := AppAdded(f, skip, w, p, Called(s1));
      }
    }
  }

  lemma PrincipalAdded(f: Flags, skip: set<string>, w: World, p: Progress, s: Session) returns (p': Progress)
    requires Works(f, skip, w, p, s) && PrincipalIdentity(f, w, p).None? && APP_PHASE !in skip && s.sp.None?
    requires AppIdentity(f, w, p).Some? && !HasPrincipalFor(w.principals, AppIdentity(f, w, p).value.1)
    ensures p' == p.(sp := p'.sp) && p'.sp.Some?
    ensures Works(f, skip, w, p', s.(world := PostServicePrincipal(s.world, AppIdentity(f, w, p).value.1).0))
    ensures PostServicePrincipal(s.world, AppIdentity(f, w, p).value.1).1.Ok?
  {
    p' := p.(sp := Some(NewID(s.world)));
    BuildIssued(f, w, p, s.world.issued);
    hide Sane;
    hide Build;
    hide Allowed;
    hide Valid;
    hide FlagsKnown;
    hide AppIdentity;
    hide PrincipalIdentity;
    hide AppsWithCredential;
    NewIDIsNew(w, s);
    AppFoundByClientID(f, w, p);
    PrincipalBuild(f, skip, w, p, NewID(s.world), s.world.issued);
    PrincipalBuild(f, skip, w, p, NewID(s.world), s.world.issued + 1);
  }

  lemma BuildIssued(f: Flags, w: World, p: Progress, issued: nat)
    ensures Build(f, w, p, issued + 1) == Build(f, w, p, issued).(issued := issued + 1)
    ensures Build(f, w, p, issued).apps == AppsWithCredential(f, w, p)
  {
  }

  lemma PrincipalBuild(f: Flags, skip: set<string>, w: World, p: Progress, id: string, issued: nat)
    requires Valid(w) && FlagsKnown(f, w) && Sane(f, w, p) && Allowed(skip, p) && APP_PHASE !in skip && !Known(w, id)
    requires PrincipalIdentity(f, w, p).None? && AppIdentity(f, w, p).Some?
    requires !HasPrincipalFor(w.principals, AppIdentity(f, w, p).value.1)
    ensures var p' := p.(sp := Some(id));
            && Sane(f, w, p') && Allowed(skip, p')
            && AppIdentity(f, w, p') == AppIdentity(f, w, p) && PrincipalIdentity(f, w, p') == Some(id)
            && var b := Build(f, w, p, issued);
               && b.principals == w.principals
               && Build(f, w, p', issued)
                  == b.(principals := b.principals
                                      + [ServicePrincipal(id, AppIdentity(f, w, p).value.1, AADApplicationName(f))])
  {
    var p' := p.(sp := Some(id));
    assert Apps(f, w, p') == Apps(f, w, p) && ObjectID(f, w, p') == ObjectID(f, w, p);
    assert Principals(f, w, p) == w.principals;
    RoleWithoutPrincipal(f, w, p, id);
    hide Assignments;
    hide CredentialMissing;
    hide RoleMissing;
    MissingByApp(f, w, p, p');
  }

  lemma MissingByApp(f: Flags, w: World, p: Progress, q: Progress)
    requires q.app == p.app
    ensures CredentialMissing(f, w, q) == CredentialMissing(f, w, p)
  {
  }

  /** An assignment that exists without the service principal of the command's name is for a
      principal given by its ID, and stays as it is. */
  lemma RoleWithoutPrincipal(f: Flags, w: World, p: Progress, id: string)
    requires Valid(w) && Sane(f, w, p) && FlagsKnown(f, w) && PrincipalIdentity(f, w, p).None?
    requires AppIdentity(f, w, p).Some?
    ensures var p' := p.(sp := Some(id));
            Assignments(f, w, p') == Assignments(f, w, p) && (p.role.Some? ==> RoleMissing(f, w, p'))
  {
    var p' := p.(sp := Some(id));
    if p.role.Some? {
      assert Principals(f, w, p) == w.principals;
      assert PrincipalID(f, w, p) == f.servicePrincipalObjectID == PrincipalID(f, w, p');
      if i :| 0 <= i < |w.principals| && w.principals[i].objectID == PrincipalID(f, w, p) {
        assert Principals(f, w, p')[i].objectID == PrincipalID(f, w, p');
      }
    }
  }

  lemma GetOrCreatePrincipalWorks(f: Flags, skip: set<string>, w: World, p: Progress, s: Session) returns (p': Progress)
    requires Works(f, skip, w, p, s) && APP_PHASE !in skip && AppIdentity(f, w, p).Some?
    ensures p' == p.(sp := p'.sp)
    ensures var (s', err) := GetOrCreatePrincipal(f, s, AppIdentity(f, w, p).value.1);
            && Works(f, skip, w, p', s')
            && (s.faults == [] ==> s'.faults == [])
            && (s.faults == [] ==>
                  (err == None <==>
                     PrincipalIdentity(f, w, p).Some? || !HasPrincipalFor(w.principals, AppIdentity(f, w, p).value.1)))
            && (s.faults == [] && err == None ==> PrincipalIdentity(f, w, p').Some?)
  {
    var appID := AppIdentity(f, w, p).value.1;
    LookupPrincipal(f, skip, w, p, s);
    var (s1, r) := ServicePrincipalObject(f, s);
    p' := p;
    if r.Err? && IsNotFound(r.error) {
      CalledWorks(f, skip, w, p, s1);
      assert Principals(f, w, p) == w.principals;
      AppFoundByClientID(f, w, p);
      if !HasPrincipalFor(w.principals, appID) && !NextFault(s1).Lost? {
        p' := PrincipalAdded(f, skip, w, p, Called(s1));
      }
    }
  }

  lemma AppRunWorks(f: Flags, skip: set<string>, w: World, p: Progress, s: Session) returns (p': Progress)
    requires Works(f, skip, w, p, s) && APP_PHASE !in skip
    ensures p' == p.(app := p'.app, sp := p'.sp)
    ensures var (s', err) := AppRun(f, s);
            && Works(f, skip, w, p', s')
            && (s.faults == [] ==> s'.faults == [] && (err == None <==> AppFeasible(f, w)))
            && (s.faults == [] && err == None ==> AppSettled(f, w, p'))
  {
    p' := GetOrCreateAppWorks(f, skip, w, p, s);
    var (s1, r) := GetOrCreateApp(f, s);
    if r.Ok? {
      var p1 := p';
      p' := GetOrCreatePrincipalWorks(f, skip, w, p1, s1);
      FreshAppHasNoPrincipal(w, r.value.appID);
    }
  }

  lemma FreshAppHasNoPrincipal(w: World, appID: string)
    requires Valid(w)
    ensures !Known(w, appID) ==> !HasPrincipalFor(w.principals, appID)
  {
  }

  // ---------------------------------------------------------------------------------------
  // service-account

  predicate AccountSettled(f: Flags, w: World, p: Progress) {
    p.account == Some(DesiredAccount(f, ClientID(f, w, p)))
  }

  /** Nothing but the accounts depends on which account was written. */
  lemma AccountBuild(f: Flags, skip: set<string>, w: World, p: Progress, sa: ServiceAccount, issued: nat)
    requires Sane(f, w, p) && Allowed(skip, p) && ACCOUNT_PHASE !in skip
    ensures var p' := p.(account := Some(sa));
            && Sane(f, w, p') && Allowed(skip, p')
            && AppIdentity(f, w, p') == AppIdentity(f, w, p)
            && PrincipalIdentity(f, w, p') == PrincipalIdentity(f, w, p)
            && var b := Build(f, w, p, issued);
               Build(f, w, p', issued) == b.(accounts := b.accounts[AccountKey(f) := sa])
  {
    var p' := p.(account := Some(sa));
    assert Apps(f, w, p') == Apps(f, w, p) && ObjectID(f, w, p') == ObjectID(f, w, p);
    assert Principals(f, w, p') == Principals(f, w, p) && Assignments(f, w, p') == Assignments(f, w, p);
    assert Accounts(f, w, p') == Accounts(f, w, p)[AccountKey(f) := sa];
  }

  /** Setting the account once more keeps the session working. */
  lemma AccountSet(f: Flags, skip: set<string>, w: World, p: Progress, s: Session, sa: ServiceAccount)
    requires Works(f, skip, w, p, s) && ACCOUNT_PHASE !in skip
    ensures Works(f, skip, w, p.(account := Some(sa)),
                  s.(world := s.world.(accounts := s.world.accounts[AccountKey(f) := sa])))
  {
    AccountBuild(f, skip, w, p, sa, s.world.issued);
    hide Sane;
    hide Build;
    hide AppIdentity;
    hide PrincipalIdentity;
  }

  function WithAccount(f: Flags, b: World, sa: ServiceAccount): World {
    b.(accounts := b.accounts[AccountKey(f) := sa])
  }

  /** A call that sets the account or leaves the world alone. */
  lemma AccountCall(f: Flags, skip: set<string>, w: World, p: Progress, s: Session, sa: ServiceAccount,
                    effect: (World, Reply<()>))
      returns (p': Progress)
    requires Works(f, skip, w, p, s) && ACCOUNT_PHASE !in skip
    requires effect.0 == s.world || effect.0 == WithAccount(f, s.world, sa)
    ensures p' == p || p' == p.(account := Some(sa))
    ensures var (s', r) := Write(s, effect);
            Works(f, skip, w, p', s') && (s'.world == s.world || s'.world == WithAccount(f, s.world, sa))
    ensures s.faults == [] && effect.0 == WithAccount(f, s.world, sa) ==> p' == p.(account := Some(sa))
  {
    CalledWorks(f, skip, w, p, s);
    AccountSet(f, skip, w, p, Called(s), sa);
    p' := if !NextFault(s).Lost? && effect.0 == WithAccount(f, s.world, sa) then p.(account := Some(sa)) else p;
    hide Works;
  }

  lemma AccountWritten(f: Flags, skip: set<string>, w: World, p: Progress, s: Session, sa: ServiceAccount)
      returns (p': Progress)
    requires Works(f, skip, w, p, s) && ACCOUNT_PHASE !in skip
    ensures p' == p.(account := p'.account)
    ensures var (s', r) := CreateOrUpdateServiceAccount(s, AccountKey(f), sa);
            && Works(f, skip, w, p', s')
            && (s.faults == [] ==> s'.faults == [] && r.Ok? && p'.account == Some(sa))
  {
    hide Works;
    var create := CreateAccountOnServer(s.world, AccountKey(f), sa);
    p' := AccountCall(f, skip, w, p, s, sa, create);
    var (s1, r1) := Write(s, create);
    if r1.Err? && r1.error.KubeError? && r1.error.reason == "AlreadyExists" {
      p' := AccountCall(f, skip, w, p', s1, sa, UpdateAccountOnServer(s1.world, AccountKey(f), sa));
    }
  }

  lemma LookupClientID(f: Flags, skip: set<string>, w: World, p: Progress, s: Session)
    requires Works(f, skip, w, p, s)
    ensures var (s', clientID) := AADApplicationClientID(f, s);
            Works(f, skip, w, p, s') && (s.faults == [] ==> s'.faults == [] && clientID == ClientID(f, w, p))
  {
    LookupApp(f, skip, w, p, s);
  }

  lemma AccountRunWorks(f: Flags, skip: set<string>, w: World, p: Progress, s: Session) returns (p': Progress)
    requires Works(f, skip, w, p, s) && ACCOUNT_PHASE !in skip
    ensures p' == p.(account := p'.account)
    ensures var (s', err) := AccountRun(f, s);
            && Works(f, skip, w, p', s')
            && (s.faults == [] ==> s'.faults == [] && err == None && AccountSettled(f, w, p'))
  {
    LookupClientID(f, skip, w, p, s);
    var (s1, clientID) := AADApplicationClientID(f, s);
    p' := AccountWritten(f, skip, w, p, s1, DesiredAccount(f, clientID));
  }

  // ---------------------------------------------------------------------------------------
  // federated-identity

  predicate CredentialSettled(f: Flags, w: World, p: Progress) {
    p.credential.Some? <==> CredentialMissing(f, w, p)
  }

  predicate CredentialFeasible(f: Flags, w: World, p: Progress) {
    AppByID(Apps(f, w, p), ObjectID(f, w, p)).Some?
  }

  /** The object ID is right, or it is empty because the lookup failed. */
  lemma LookupObjectID(f: Flags, skip: set<string>, w: World, p: Progress, s: Session)
    requires Works(f, skip, w, p, s)
    ensures var (s', objectID) := AADApplicationObjectID(f, s);
            && Works(f, skip, w, p, s')
            && (objectID == ObjectID(f, w, p) || objectID == "")
            && (s.faults == [] ==> s'.faults == [] && objectID == ObjectID(f, w, p))
  {
    LookupApp(f, skip, w, p, s);
  }

  lemma EmptyOwner(f: Flags, w: World, p: Progress)
    requires Valid(w) && Sane(f, w, p)
    ensures AppByID(AppsWithCredential(f, w, p), "") == None
  {
    EmptyIDIsUnknown(Apps(f, w, p));
    var owner := AppByID(Apps(f, w, p), ObjectID(f, w, p));
    if p.credential.Some? {
      AppByIDWithCredentials(Apps(f, w, p), ObjectID(f, w, p),
                             owner.value.credentials + [DesiredCredential(f).(id := p.credential.value)], "");
    }
  }

  /** What posting the command's credential does, in terms of progress. */
  lemma PostCredentialWorks(f: Flags, skip: set<string>, w: World, p: Progress, s: Session, objectID: string)
      returns (p': Progress)
    requires Works(f, skip, w, p, s) && CREDENTIAL_PHASE !in skip
    requires objectID == ObjectID(f, w, p) || objectID == ""
    ensures p' == p.(credential := p'.credential)
    ensures var (s', r) := Write(s, PostCredential(s.world, objectID, DesiredCredential(f)));
            && Works(f, skip, w, p', s')
            && (s.faults == [] ==> s'.faults == [])
            && (s.faults == [] && objectID == ObjectID(f, w, p) ==>
                  (r.Ok? || IsFederatedCredentialAlreadyExists(r.error) <==> CredentialFeasible(f, w, p)))
            && (s.faults == [] && objectID == ObjectID(f, w, p) && CredentialFeasible(f, w, p) ==>
                  CredentialSettled(f, w, p'))
  {
    MissingIsFeasible(f, w, p);
    p' := p;
    hide Works;
    hide PostCredential;
    hide CredentialMissing;
    hide CredentialFeasible;
    hide ObjectID;
    if objectID == ObjectID(f, w, p) && p.credential.None? && CredentialMissing(f, w, p) {
      p' := PostUseful(f, skip, w, p, s);
      SameOwner(f, w, p, p');
    } else {
      PostUseless(f, skip, w, p, s, objectID);
    }
  }

  lemma MissingIsFeasible(f: Flags, w: World, p: Progress)
    ensures CredentialMissing(f, w, p) ==> CredentialFeasible(f, w, p)
  {
  }

  /** Whether the application exists does not depend on its credentials. */
  lemma SameOwner(f: Flags, w: World, p: Progress, q: Progress)
    requires q == p.(credential := q.credential)
    ensures CredentialFeasible(f, w, q) == CredentialFeasible(f, w, p)
  {
    assert Apps(f, w, p) == Apps(f, w, q) && ObjectID(f, w, p) == ObjectID(f, w, q);
  }

  lemma EmptyIsNoOwner(f: Flags, w: World, p: Progress)
    requires Valid(w) && Sane(f, w, p)
    ensures ObjectID(f, w, p) == "" ==> !CredentialMissing(f, w, p) && !CredentialFeasible(f, w, p)
  {
    EmptyIDIsUnknown(Apps(f, w, p));
  }

  lemma PostUseful(f: Flags, skip: set<string>, w: World, p: Progress, s: Session) returns (p': Progress)
    requires Works(f, skip, w, p, s) && CREDENTIAL_PHASE !in skip && p.credential.None? && CredentialMissing(f, w, p)
    ensures p' == p.(credential := p'.credential) && (s.faults == [] ==> p'.credential.Some?)
    ensures var (s', r) := Write(s, PostCredential(s.world, ObjectID(f, w, p), DesiredCredential(f)));
            Works(f, skip, w, p', s') && (s.faults == [] ==> s'.faults == [] && r.Ok?)
    ensures CredentialMissing(f, w, p')
  {
    CalledWorks(f, skip, w, p, s);
    var added := CredentialAdded(f, skip, w, p, Called(s));
    p' := if NextFault(s).Lost? then p else added;
    hide Works;
    hide PostCredential;
  }

  lemma PostUseless(f: Flags, skip: set<string>, w: World, p: Progress, s: Session, objectID: string)
    requires Works(f, skip, w, p, s)
    requires objectID == "" || (objectID == ObjectID(f, w, p) && (p.credential.Some? || !CredentialMissing(f, w, p)))
    ensures var (s', r) := Write(s, PostCredential(s.world, objectID, DesiredCredential(f)));
            && Works(f, skip, w, p, s')
            && (s.faults == [] ==> s'.faults == [])
            && (s.faults == [] && objectID == ObjectID(f, w, p) ==>
                  (r.Ok? || IsFederatedCredentialAlreadyExists(r.error) <==> CredentialFeasible(f, w, p))
                  && CredentialSettled(f, w, p))
  {
    CalledWorks(f, skip, w, p, s);
    NoPostEffect(f, w, p, s.world, objectID);
    EmptyIsNoOwner(f, w, p);
    SaneIsMissing(f, w, p);
    hide Works;
    hide PostCredential;
    hide CredentialMissing;
    hide CredentialFeasible;
    hide ObjectID;
  }

  lemma SaneIsMissing(f: Flags, w: World, p: Progress)
    requires Sane(f, w, p)
    ensures p.credential.Some? ==> CredentialMissing(f, w, p)
  {
  }

  /** An unnecessary or impossible credential is refused. */
  lemma NoPostEffect(f: Flags, w: World, p: Progress, b: World, objectID: string)
    requires Valid(w) && Sane(f, w, p) && b == Build(f, w, p, b.issued)
    requires objectID == "" || (objectID == ObjectID(f, w, p) && (p.credential.Some? || !CredentialMissing(f, w, p)))
    ensures PostCredential(b, objectID, DesiredCredential(f)).0 == b
    ensures PostCredential(b, objectID, DesiredCredential(f)).1.Err?
    ensures objectID == ObjectID(f, w, p) ==>
              PostCredential(b, objectID, DesiredCredential(f)).1.error.GraphError?
              && (PostCredential(b, objectID, DesiredCredential(f)).1.error.code == MULTIPLE_OBJECTS <==>
                    CredentialFeasible(f, w, p))
  {
    assert |RESOURCE_NOT_FOUND| != |MULTIPLE_OBJECTS|;
    CredentialOwner(f, w, p);
    EmptyOwner(f, w, p);
  }

  lemma CredentialRunWorks(f: Flags, skip: set<string>, w: World, p: Progress, s: Session) returns (p': Progress)
    requires Works(f, skip, w, p, s) && CREDENTIAL_PHASE !in skip
    ensures p' == p.(credential := p'.credential)
    ensures var (s', err) := CredentialRun(f, s);
            && Works(f, skip, w, p', s')
            && (s.faults == [] ==> s'.faults == [] && (err == None <==> CredentialFeasible(f, w, p)))
            && (s.faults == [] && err == None ==> CredentialSettled(f, w, p'))
  {
    LookupObjectID(f, skip, w, p, s);
    var (s1, objectID) := AADApplicationObjectID(f, s);
    p' := PostCredentialWorks(f, skip, w, p, s1, objectID);
    hide Works;
    hide PostCredential;
    hide CredentialFeasible;
    hide CredentialSettled;
    hide ObjectID;
  }

  lemma CredentialBuild(f: Flags, skip: set<string>, w: World, p: Progress, id: string, issued: nat)
    requires Sane(f, w, p) && Allowed(skip, p) && CREDENTIAL_PHASE !in skip
    requires p.credential.None? && CredentialMissing(f, w, p)
    ensures var p' := p.(credential := Some(id));
            && Sane(f, w, p') && Allowed(skip, p')
            && AppIdentity(f, w, p') == AppIdentity(f, w, p)
            && PrincipalIdentity(f, w, p') == PrincipalIdentity(f, w, p)
            && var b := Build(f, w, p, issued);
               var owner := AppByID(b.apps, ObjectID(f, w, p));
               && owner.Some? && !HasCredentialNamed(owner.value, DesiredCredential(f).name)
               && var credentials := owner.value.credentials + [DesiredCredential(f).(id := id)];
                  Build(f, w, p', issued) == b.(apps := WithCredentials(b.apps, ObjectID(f, w, p), credentials))
  {
    var p' := p.(credential := Some(id));
    assert Apps(f, w, p') == Apps(f, w, p) && ObjectID(f, w, p') == ObjectID(f, w, p);
    assert Principals(f, w, p') == Principals(f, w, p) && Assignments(f, w, p') == Assignments(f, w, p);
  }

  lemma CredentialAdded(f: Flags, skip: set<string>, w: World, p: Progress, s: Session) returns (p': Progress)
    requires Works(f, skip, w, p, s) && CREDENTIAL_PHASE !in skip
    requires p.credential.None? && CredentialMissing(f, w, p)
    ensures p' == p.(credential := p'.credential) && p'.credential.Some?
    ensures Works(f, skip, w, p', s.(world := PostCredential(s.world, ObjectID(f, w, p), DesiredCredential(f)).0))
    ensures PostCredential(s.world, ObjectID(f, w, p), DesiredCredential(f)).1.Ok?
  {
    p' := p.(credential := Some(NewID(s.world)));
    CredentialBuild(f, skip, w, p, NewID(s.world), s.world.issued);
    CredentialBuild(f, skip, w, p, NewID(s.world), s.world.issued + 1);
    assert Build(f, w, p, s.world.issued + 1) == Build(f, w, p, s.world.issued).(issued := s.world.issued + 1);
    hide Sane;
    hide Build;
    hide AppIdentity;
    hide PrincipalIdentity;
    hide ObjectID;
  }

  // ---------------------------------------------------------------------------------------
  // role-assignment

  predicate RoleSettled(f: Flags, w: World, p: Progress) {
    p.role.Some? <==> RoleMissing(f, w, p)
  }

  lemma LookupPrincipalID(f: Flags, skip: set<string>, w: World, p: Progress, s: Session)
    requires Works(f, skip, w, p, s)
    ensures var (s', objectID) := ServicePrincipalObjectID(f, s);
            && Works(f, skip, w, p, s') && s'.world == s.world && s'.world.roles == w.roles
            && (objectID == PrincipalID(f, w, p) || objectID == "")
            && (s.faults == [] ==> s'.faults == [] && objectID == PrincipalID(f, w, p))
  {
    LookupPrincipal(f, skip, w, p, s);
  }

  lemma NobodyIsEmpty(f: Flags, w: World, p: Progress, s: Session)
    requires Valid(w) && Sane(f, w, p) && s.world == Build(f, w, p, s.world.issued)
    ensures !PrincipalExists(s.world, "")
  {
  }

  lemma RoleBuild(f: Flags, skip: set<string>, w: World, p: Progress, id: string, issued: nat)
    requires Sane(f, w, p) && Allowed(skip, p) && ROLE_PHASE !in skip && p.role.None? && RoleMissing(f, w, p)
    requires !Known(w, id)
    ensures var p' := p.(role := Some(id));
            && Sane(f, w, p') && Allowed(skip, p')
            && AppIdentity(f, w, p') == AppIdentity(f, w, p)
            && PrincipalIdentity(f, w, p') == PrincipalIdentity(f, w, p)
            && var b := Build(f, w, p, issued);
               && PrincipalExists(b, PrincipalID(f, w, p))
               && !HasAssignment(b.assignments, f.azureScope, w.roles[f.azureRole], PrincipalID(f, w, p))
               && Build(f, w, p', issued)
                  == b.(assignments := b.assignments
                          + [RoleAssignment(id, f.azureScope, w.roles[f.azureRole], PrincipalID(f, w, p))])
  {
    var p' := p.(role := Some(id));
    assert Apps(f, w, p') == Apps(f, w, p) && ObjectID(f, w, p') == ObjectID(f, w, p);
    assert Principals(f, w, p') == Principals(f, w, p) && PrincipalID(f, w, p') == PrincipalID(f, w, p);
    assert Assignments(f, w, p) == w.assignments;
  }

  lemma RoleAdded(f: Flags, skip: set<string>, w: World, p: Progress, s: Session) returns (p': Progress)
    requires Works(f, skip, w, p, s) && ROLE_PHASE !in skip && p.role.None? && RoleMissing(f, w, p)
    ensures p' == p.(role := p'.role) && p'.role.Some?
    ensures var put := PutRoleAssignment(s.world, f.azureScope, w.roles[f.azureRole], PrincipalID(f, w, p));
            put.1.Ok? && Works(f, skip, w, p', s.(world := put.0))
  {
    p' := p.(role := Some(NewID(s.world)));
    NewIDIsNew(w, s);
    RoleBuild(f, skip, w, p, NewID(s.world), s.world.issued);
    RoleBuild(f, skip, w, p, NewID(s.world), s.world.issued + 1);
    assert Build(f, w, p, s.world.issued + 1) == Build(f, w, p, s.world.issued).(issued := s.world.issued + 1);
    hide Sane;
    hide Build;
    hide AppIdentity;
    hide PrincipalIdentity;
    hide PrincipalID;
  }

  /** A put by the command: it adds the missing assignment, or has no effect. */
  lemma PutWorks(f: Flags, skip: set<string>, w: World, p: Progress, s: Session, principal: string)
      returns (p': Progress)
    requires Works(f, skip, w, p, s) && ROLE_PHASE !in skip && f.azureRole in w.roles
    requires principal == PrincipalID(f, w, p) || principal == ""
    ensures p' == p.(role := p'.role)
    ensures var (s', r) := Write(s, PutRoleAssignment(s.world, f.azureScope, w.roles[f.azureRole], principal));
            && Works(f, skip, w, p', s')
            && (s.faults == [] && principal == PrincipalID(f, w, p) ==>
                  if PrincipalPresent(f, w, p) then (r.Ok? || IsRoleAssignmentExists(r.error)) && RoleSettled(f, w, p')
                  else r.Err? && !IsRoleAssignmentExists(r.error) && s' == s && RoleSettled(f, w, p'))
  {
    CalledWorks(f, skip, w, p, s);
    NobodyIsEmpty(f, w, p, s);
    PresentInBuild(f, w, p, s);
    p' := p;
    if principal == PrincipalID(f, w, p) && p.role.None? && RoleMissing(f, w, p) && !NextFault(s).Lost? {
      p' := RoleAdded(f, skip, w, p, Called(s));
    } else if p.role.Some? {
      assert Assignments(f, w, p)[|w.assignments|]
          == RoleAssignment(p.role.value, f.azureScope, w.roles[f.azureRole], PrincipalID(f, w, p));
    } else {
      assert Assignments(f, w, p) == w.assignments;
    }
  }

  lemma PresentInBuild(f: Flags, w: World, p: Progress, s: Session)
    requires s.world == Build(f, w, p, s.world.issued)
    ensures PrincipalExists(s.world, PrincipalID(f, w, p)) == PrincipalPresent(f, w, p)
  {
  }

  lemma {:induction false} AttemptsWork(f: Flags, skip: set<string>, w: World, p: Progress, s: Session, n: nat,
                                        principal: string)
      returns (p': Progress)
    requires Works(f, skip, w, p, s) && ROLE_PHASE !in skip && f.azureRole in w.roles
    requires principal == PrincipalID(f, w, p) || principal == ""
    ensures p' == p.(role := p'.role) && (n == 0 ==> p' == p)
    ensures var (s', r) := Attempts(s, n, f.azureScope, w.roles[f.azureRole], principal);
            && Works(f, skip, w, p', s')
            && (s.faults == [] ==> s'.faults == [])
            && (s.faults == [] && n > 0 && principal == PrincipalID(f, w, p) ==>
                  (r.Ok? || IsRoleAssignmentExists(r.error)) && RoleSettled(f, w, p'))
    decreases n
  {
    hide Works;
    hide PutRoleAssignment;
    hide PrincipalPresent;
    p' := p;
    if n > 0 {
      p' := PutWorks(f, skip, w, p, s, principal);
      var (s1, r) := Write(s, PutRoleAssignment(s.world, f.azureScope, w.roles[f.azureRole], principal));
      if r.Err? && !IsRoleAssignmentExists(r.error) {
        p' := AttemptsWork(f, skip, w, p', s1, n - 1, principal);
      }
    }
  }

  lemma PlainIsNoConflict(text: string, message: string)
    ensures !IsRoleAssignmentExists(Wrapped(text, Plain(message)))
  {
    assert Innermost(Wrapped(text, Plain(message))) == Innermost(Plain(message)) == Plain(message);
  }

  lemma CreateRoleWorks(f: Flags, skip: set<string>, w: World, p: Progress, s: Session, objectID: string)
      returns (p': Progress)
    requires Works(f, skip, w, p, s) && ROLE_PHASE !in skip
    requires objectID == PrincipalID(f, w, p) || objectID == ""
    ensures p' == p.(role := p'.role)
    ensures var (s', r) := CreateRoleAssignment(s, f.azureScope, f.azureRole, objectID);
            && Works(f, skip, w, p', s')
            && (s.faults == [] ==> s'.faults == [])
            && (s.faults == [] && objectID == PrincipalID(f, w, p) ==>
                  (r.Ok? || IsRoleAssignmentExists(r.error) <==> f.azureRole in w.roles)
                  && (f.azureRole in w.roles ==> RoleSettled(f, w, p')))
  {
    CalledWorks(f, skip, w, p, s);
    assert s.world.roles == w.roles;
    PlainIsNoConflict("failed to get role definition id for role " + f.azureRole,
                      "role definition " + f.azureRole + " not found");
    hide Works;
    hide RoleSettled;
    hide PrincipalID;
    hide Attempts;
    hide IsRoleAssignmentExists;
    p' := p;
    if f.azureRole in w.roles && NextFault(s).Healthy? {
      p' := AttemptsWork(f, skip, w, p, Called(s), ROLE_ASSIGNMENT_RETRIES, objectID);
    }
  }

  lemma RoleRunWorks(f: Flags, skip: set<string>, w: World, p: Progress, s: Session) returns (p': Progress)
    requires Works(f, skip, w, p, s) && ROLE_PHASE !in skip
    ensures p' == p.(role := p'.role)
    ensures var (s', err) := RoleRun(f, s);
            && Works(f, skip, w, p', s')
            && (s.faults == [] ==> s'.faults == [] && (err == None <==> f.azureRole in w.roles))
            && (s.faults == [] && err == None ==> RoleSettled(f, w, p'))
  {
    hide Works;
    hide RoleSettled;
    hide PrincipalID;
    hide CreateRoleAssignment;
    LookupPrincipalID(f, skip, w, p, s);
    var (s1, objectID) := ServicePrincipalObjectID(f, s);
    p' := CreateRoleWorks(f, skip, w, p, s1, objectID);
  }
}
