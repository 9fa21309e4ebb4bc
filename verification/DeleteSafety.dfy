/** Whatever faults it meets, delete touches nothing but what it is to delete. */
module DeleteSafety {
  import opened Common
  import opened Cloud
  import opened Directory
  import opened Workflow
  import opened DeleteCommand
  import opened DeleteTheorem

  /** Which phases took effect. */
  datatype Effects = Effects(role: bool, credential: bool, account: bool, app: bool)

  /** The world after some of the phases took effect. */
  function Partly(d: Flags, w: World, e: Effects): World {
    var app := AppByID(w.apps, Target(d, w));
    var gone := e.app && app.Some?;
    w.(assignments := if e.role then WithoutAssignment(w.assignments, d.roleAssignmentID) else w.assignments,
       accounts := if e.account then w.accounts - {AccountKey(d)} else w.accounts,
       apps := if gone then WithoutApp(w.apps, Target(d, w)) else if e.credential then AppsWithout(d, w) else w.apps,
       principals := if gone then WithoutPrincipalsFor(w.principals, app.value.appID) else w.principals)
  }

  /** No application has the empty ID that stands for a failed lookup. */
  ghost predicate Named(w: World) {
    AppByID(w.apps, "") == None
  }

  /** The session leads to the target or to nothing. */
  predicate Aims(d: Flags, w: World, s: Session) {
    d.aadApplicationObjectID == "" ==>
      match s.app
      case Some(app) => app.objectID == Target(d, w)
      case None => match FirstApp(s.world.apps, AADApplicationName(d))
                   case Some(app) => app.objectID == Target(d, w)
                   case None => Target(d, w) == ""
  }

  lemma LookupAims(d: Flags, w: World, s: Session)
    requires Aims(d, w, s)
    ensures var (s', id) := AADApplicationObjectID(d, s);
            Aims(d, w, s') && s'.world == s.world && (id == Target(d, w) || id == "")
  {
  }

  // ---------------------------------------------------------------------------------------
  // The phases under faults

  ghost predicate Reached(d: Flags, w: World, e: Effects, x: Step) {
    x.0.world == Partly(d, w, e) && (x.1 == None ==> Aims(d, w, x.0))
  }

  lemma RolePartly(d: Flags, skip: set<string>, w: World, e: Effects, x: Step) returns (e': Effects)
    requires Reached(d, w, e, x) && !e.role
    ensures Reached(d, w, e', Unless(x, ROLE_PHASE, skip, RoleRun(d, x.0)))
    ensures e' == e.(role := e'.role) && (e'.role ==> ROLE_PHASE !in skip)
  {
    e' := e.(role := x.1 == None && ROLE_PHASE !in skip && !NextFault(x.0).Lost?);
    if !HasAssignmentID(w.assignments, d.roleAssignmentID) { NothingToRemove(w.assignments, d.roleAssignmentID); }
    hide AppsWithout;
    hide Target;
  }

  lemma CredentialFound(d: Flags, w: World, s: Session, id: string)
    requires s.world.apps == w.apps && (id == Target(d, w) || id == "") && Named(w)
    requires GetFederatedCredential(s, id, d.issuerURL, Subject(d)).1.Ok?
    ensures id == Target(d, w) && AppByID(w.apps, id).Some?
    ensures Unwanted(d, AppByID(w.apps, id).value)
              == Some(GetFederatedCredential(s, id, d.issuerURL, Subject(d)).1.value)
  {
    hide Target;
  }

  /** Deleting the credential that was found, by an ID that is looked up again. */
  lemma CredentialDeleted(d: Flags, w: World, e: Effects, s: Session, id: string, found: Credential)
    requires s.world == Partly(d, w, e) && Aims(d, w, s) && !e.credential && !e.app && Named(w)
    requires id == Target(d, w) || id == ""
    requires AppByID(w.apps, Target(d, w)).Some? && Unwanted(d, AppByID(w.apps, Target(d, w)).value) == Some(found)
    ensures var s' := Write(s, DeleteCredentialOnServer(s.world, id, found.id)).0;
            s'.world == Partly(d, w, e.(credential := id != "" && !NextFault(s).Lost?)) && Aims(d, w, s')
  {
    TargetApps(d, w);
    hide Target;
  }

  lemma CredentialPartly(d: Flags, skip: set<string>, w: World, e: Effects, x: Step) returns (e': Effects)
    requires Reached(d, w, e, x) && !e.credential && !e.app && Named(w)
    ensures Reached(d, w, e', Unless(x, CREDENTIAL_PHASE, skip, CredentialRun(d, x.0)))
    ensures e' == e.(credential := e'.credential) && (e'.credential ==> CREDENTIAL_PHASE !in skip)
  {
    e' := e;
    if x.1 == None && CREDENTIAL_PHASE !in skip {
      LookupAims(d, w, x.0);
      var (s1, id) := AADApplicationObjectID(d, x.0);
      var (s2, r) := GetFederatedCredential(s1, id, d.issuerURL, Subject(d));
      assert s2.world == s1.world && s2.app == s1.app && s1.world.apps == w.apps;
      if r.Ok? {
        CredentialFound(d, w, s1, id);
        LookupAims(d, w, s2);
        var (s3, again) := AADApplicationObjectID(d, s2);
        CredentialDeleted(d, w, e, s3, again, r.value);
        e' := e.(credential := again != "" && !NextFault(s3).Lost?);
      }
    }
    hide AADApplicationObjectID;
    hide GetFederatedCredential;
    hide DeleteCredentialOnServer;
    hide Partly;
    hide Target;
    hide Write;
  }

  lemma AccountPartly(d: Flags, skip: set<string>, w: World, e: Effects, x: Step) returns (e': Effects)
    requires Reached(d, w, e, x) && !e.account
    ensures Reached(d, w, e', Unless(x, ACCOUNT_PHASE, skip, AccountRun(d, x.0)))
    ensures e' == e.(account := e'.account) && (e'.account ==> ACCOUNT_PHASE !in skip)
  {
    var s := Called(x.0);
    var found := NextFault(x.0).Healthy? && AccountKey(d) in w.accounts;
    e' := e.(account := x.1 == None && ACCOUNT_PHASE !in skip && found && !NextFault(s).Lost?);
    hide AppsWithout;
    hide Target;
    hide WithoutAssignment;
  }

  /** Deleting the application by an ID that was looked up. */
  lemma AppDeleted(d: Flags, w: World, e: Effects, s: Session, id: string)
    requires s.world == Partly(d, w, e) && !e.app && Named(w) && (id == Target(d, w) || id == "")
    ensures Write(s, DeleteApplicationOnServer(s.world, id)).0.world
              == Partly(d, w, e.(app := id != "" && !NextFault(s).Lost?))
  {
    TargetApps(d, w);
    EmptyStaysUnknown(d, w);
    hide AppsWithout;
    hide Target;
    hide WithoutAssignment;
  }

  lemma AppPartly(d: Flags, skip: set<string>, w: World, e: Effects, x: Step) returns (e': Effects)
    requires Reached(d, w, e, x) && !e.app && Named(w)
    ensures Unless(x, APP_PHASE, skip, AppRun(d, x.0)).0.world == Partly(d, w, e')
    ensures e' == e.(app := e'.app) && (e'.app ==> APP_PHASE !in skip)
  {
    hide Partly;
    hide Target;
    hide Named;
    e' := e;
    if x.1 == None && APP_PHASE !in skip {
      LookupAims(d, w, x.0);
      var (logged, _) := AADApplicationObjectID(d, x.0);
      LookupAims(d, w, logged);
      var (s1, id) := AADApplicationObjectID(d, logged);
      AppDeleted(d, w, e, s1, id);
      e' := e.(app := id != "" && !NextFault(s1).Lost?);
    }
    hide AADApplicationObjectID;
    hide Write;
    hide DeleteApplicationOnServer;
  }

  lemma EmptyStaysUnknown(d: Flags, w: World)
    requires Named(w)
    ensures AppByID(AppsWithout(d, w), "") == None
  {
    var app := AppByID(w.apps, Target(d, w));
    if app.Some? && Unwanted(d, app.value).Some? {
      AppByIDWithCredentials(w.apps, Target(d, w),
                             WithoutCredential(app.value.credentials, Unwanted(d, app.value).value.id), "");
    }
  }

  /** The pre-runs only look. */
  lemma PreAims(d: Flags, skip: set<string>, w: World, s: Session)
    requires Aims(d, w, s) && s.world == w
    ensures var ps, start := DeletePhases(d), (s, None);
            var pre := ThenAll(start, ps, skip, true);
            pre.0.world == w && Aims(d, w, pre.0)
  {
    hide Then;
    hide DeletePhases;
    hide Target;
    hide AADApplicationName;
    hide AADApplicationObjectID;
    var start: Step := (s, None);
    PreSteps(d, skip, start);
    var a := Unless(start, ROLE_PHASE, skip, RolePreRun(d, start.0));
    PreSteps(d, skip, a);
    var b := Unless(a, CREDENTIAL_PHASE, skip, CredentialPreRun(d, a.0));
    PreSteps(d, skip, b);
    var c := Unless(b, ACCOUNT_PHASE, skip, AccountPreRun(d, b.0));
    PreSteps(d, skip, c);
    LookupAims(d, w, c.0);
  }

  predicate OfActive(e: Effects, skip: set<string>) {
    && (e.role ==> ROLE_PHASE !in skip)
    && (e.credential ==> CREDENTIAL_PHASE !in skip)
    && (e.account ==> ACCOUNT_PHASE !in skip)
    && (e.app ==> APP_PHASE !in skip)
  }

  lemma RunsPartly(d: Flags, skip: set<string>, w: World, s: Session) returns (e: Effects)
    requires Aims(d, w, s) && s.world == w && Named(w)
    ensures var ps := DeletePhases(d);
            ThenAll((s, None), ps, skip, false).0.world
              == Partly(d, w, e)
    ensures OfActive(e, skip)
  {
    e := Effects(false, false, false, false);
    var start: Step := (s, None);
    assert Reached(d, w, e, start);
    hide Reached;
    hide Partly;
    hide Then;
    hide Unless;
    hide DeletePhases;
    RunSteps(d, skip, start);
    e := RolePartly(d, skip, w, e, start);
    var a := Unless(start, ROLE_PHASE, skip, RoleRun(d, s));
    RunSteps(d, skip, a);
    e := CredentialPartly(d, skip, w, e, a);
    var b := Unless(a, CREDENTIAL_PHASE, skip, CredentialRun(d, a.0));
    RunSteps(d, skip, b);
    e := AccountPartly(d, skip, w, e, b);
    var c := Unless(b, ACCOUNT_PHASE, skip, AccountRun(d, b.0));
    RunSteps(d, skip, c);
    e := AppPartly(d, skip, w, e, c);
  }

  // ---------------------------------------------------------------------------------------
  // The command

  /** For every schedule of faults, a delete leaves the world with some of the effects of its active
      phases, each complete, and with no other change. */
  lemma DeleteTouchesOnlyItsOwn(d: Flags, skips: seq<string>, w: World, faults: seq<Fault>) returns (e: Effects)
    requires Named(w)
    ensures Delete(d, skips, w, faults).data.world == Partly(d, w, e) && OfActive(e, ToSet(EffectiveSkips(skips)))
  {
    var ps, s, effective := DeletePhases(d), Session(w, None, None, faults), EffectiveSkips(skips);
    var skip := ToSet(effective);
    assert |ps| == 4;
    hide Then;
    hide RunPhases;
    hide DeletePhases;
    hide KnownSkips;
    hide EffectiveSkips;
    e := Effects(false, false, false, false);
    if KnownSkips(effective) {
      DeleteRuns(d, effective, s);
      PreAims(d, skip, w, s);
      var start: Step := (s, None);
      var pre := ThenAll(start, ps, skip, true);
      if pre.1 == None { e := RunsPartly(d, skip, w, pre.0); }
    } else {
      UnknownSkips(d, effective, s);
    }
  }

  lemma {:induction false} OtherAppsStay(apps: seq<Application>, id: string, a: Application)
    requires a in apps && a.objectID != id
    ensures a in WithoutApp(apps, id)
  {
    if apps[0] != a { OtherAppsStay(apps[1..], id, a); }
  }

  lemma {:induction false} OtherAppsUnchanged(apps: seq<Application>, id: string, cs: seq<Credential>, a: Application)
    requires a in apps && a.objectID != id
    ensures a in WithCredentials(apps, id, cs)
  {
    if apps[0] != a { OtherAppsUnchanged(apps[1..], id, cs, a); }
  }

  lemma {:induction false} OtherAssignmentsStay(assignments: seq<RoleAssignment>, id: string, a: RoleAssignment)
    requires a in assignments && a.id != id
    ensures a in WithoutAssignment(assignments, id)
  {
    if assignments[0] != a { OtherAssignmentsStay(assignments[1..], id, a); }
  }

  lemma {:induction false} OtherPrincipalsStay(ps: seq<ServicePrincipal>, appID: string, sp: ServicePrincipal)
    requires sp in ps && sp.appID != appID
    ensures sp in WithoutPrincipalsFor(ps, appID)
  {
    if ps[0] != sp { OtherPrincipalsStay(ps[1..], appID, sp); }
  }

  /** Other people's applications, principals, assignments and accounts survive every delete. */
  lemma OthersSurvive(d: Flags, skips: seq<string>, w: World, faults: seq<Fault>,
                      a: Application, sp: ServicePrincipal, ra: RoleAssignment, key: (string, string))
    requires Named(w)
    ensures var left, app := Delete(d, skips, w, faults).data.world, AppByID(w.apps, Target(d, w));
            && (a in w.apps && a.objectID != Target(d, w) ==> a in left.apps)
            && (sp in w.principals && (app.None? || sp.appID != app.value.appID) ==> sp in left.principals)
            && (ra in w.assignments && ra.id != d.roleAssignmentID ==> ra in left.assignments)
            && (key in w.accounts && key != AccountKey(d) ==>
                  key in left.accounts && left.accounts[key] == w.accounts[key])
  {
    var e := DeleteTouchesOnlyItsOwn(d, skips, w, faults);
    hide Delete;
    var id, app := Target(d, w), AppByID(w.apps, Target(d, w));
    if a in w.apps && a.objectID != id {
      OtherAppsStay(w.apps, id, a);
      if app.Some? && Unwanted(d, app.value).Some? {
        OtherAppsUnchanged(w.apps, id, WithoutCredential(app.value.credentials, Unwanted(d, app.value).value.id), a);
      }
    }
    if app.Some? && sp in w.principals && sp.appID != app.value.appID {
      OtherPrincipalsStay(w.principals, app.value.appID, sp);
    }
    if ra in w.assignments && ra.id != d.roleAssignmentID {
      OtherAssignmentsStay(w.assignments, d.roleAssignmentID, ra);
    }
  }
}
