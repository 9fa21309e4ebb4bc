/** What an undisturbed azwi serviceaccount delete does, and when it succeeds. */
module DeleteTheorem {
  import opened Common
  import opened Cloud
  import opened Directory
  import opened Workflow
  import opened DeleteCommand

  // ---------------------------------------------------------------------------------------
  // The meaning of the command

  /** Object ID of the application to delete, or "" if there is none. */
  function Target(d: Flags, w: World): string {
    if d.aadApplicationObjectID != "" then d.aadApplicationObjectID
    else match FirstApp(w.apps, AADApplicationName(d))
         case Some(app) => app.objectID
         case None => ""
  }

  function Unwanted(d: Flags, app: Application): Option<Credential> {
    FirstCredential(app.credentials, d.issuerURL, Subject(d))
  }

  /** The applications without the unwanted credential. */
  function AppsWithout(d: Flags, w: World): seq<Application> {
    match AppByID(w.apps, Target(d, w))
    case None => w.apps
    case Some(app) =>
      match Unwanted(d, app)
      case None => w.apps
      case Some(c) => WithCredentials(w.apps, Target(d, w), WithoutCredential(app.credentials, c.id))
  }

  /** The world after the first n phases. */
  function After(d: Flags, skip: set<string>, w: World, n: nat): World {
    var app := AppByID(w.apps, Target(d, w));
    var gone := n >= 4 && APP_PHASE !in skip && app.Some?;
    w.(assignments := if n >= 1 && ROLE_PHASE !in skip then WithoutAssignment(w.assignments, d.roleAssignmentID)
                      else w.assignments,
       accounts := if n >= 3 && ACCOUNT_PHASE !in skip then w.accounts - {AccountKey(d)} else w.accounts,
       apps := if gone then WithoutApp(w.apps, Target(d, w))
               else if n >= 2 && CREDENTIAL_PHASE !in skip then AppsWithout(d, w) else w.apps,
       principals := if gone then WithoutPrincipalsFor(w.principals, app.value.appID) else w.principals)
  }

  predicate Complete(d: Flags, skip: set<string>, w: World, n: nat) {
    && (n >= 1 && ROLE_PHASE !in skip ==> d.roleAssignmentID != "")
    && (n >= 2 && CREDENTIAL_PHASE !in skip ==>
          d.serviceAccountNamespace != "" && d.serviceAccountName != "" && d.issuerURL != "")
    && (n >= 3 && ACCOUNT_PHASE !in skip ==> d.serviceAccountNamespace != "" && d.serviceAccountName != "")
    && (n >= 4 && APP_PHASE !in skip ==> AADApplicationName(d) != "" || Target(d, w) != "")
  }

  /** What the first n phases need: an application to delete, and for deleting the credential on
      its own that the application is absent or has it. */
  predicate Possible(d: Flags, skip: set<string>, w: World, n: nat) {
    var app := AppByID(w.apps, Target(d, w));
    && (n >= 2 && CREDENTIAL_PHASE !in skip ==> app.None? || Unwanted(d, app.value).Some?)
    && (n >= 4 && APP_PHASE !in skip ==> app.Some?)
  }

  predicate KnownSkips(skips: seq<string>) {
    forall s :: s in skips ==> s in [ROLE_PHASE, CREDENTIAL_PHASE, ACCOUNT_PHASE, APP_PHASE]
  }

  // ---------------------------------------------------------------------------------------
  // Lists

  lemma {:induction false} NothingToRemove(assignments: seq<RoleAssignment>, id: string)
    requires !HasAssignmentID(assignments, id)
    ensures WithoutAssignment(assignments, id) == assignments
  {
    if assignments != [] {
      assert assignments[0].id != id;
      assert forall i :: 0 <= i < |assignments[1..]| ==> assignments[1..][i] == assignments[i + 1];
      NothingToRemove(assignments[1..], id);
    }
  }

  /** Changing an application's credentials before deleting it makes no difference. */
  lemma {:induction false} WithoutChangedApp(apps: seq<Application>, id: string, cs: seq<Credential>)
    ensures WithoutApp(WithCredentials(apps, id, cs), id) == WithoutApp(apps, id)
  {
    if apps != [] {
      var changed := WithCredentials(apps, id, cs);
      if apps[0].objectID == id {
        assert changed[1..] == apps[1..];
      } else {
        assert changed[1..] == WithCredentials(apps[1..], id, cs);
        WithoutChangedApp(apps[1..], id, cs);
      }
    }
  }

  // ---------------------------------------------------------------------------------------
  // Lookups

  /** The session still leads to the target, through its cache or by a lookup. */
  predicate Looks(d: Flags, w: World, s: Session) {
    && s.faults == []
    && (d.aadApplicationObjectID == "" ==>
          match s.app
          case Some(app) => app.objectID == Target(d, w)
          case None => match FirstApp(s.world.apps, AADApplicationName(d))
                       case Some(app) => app.objectID == Target(d, w)
                       case None => Target(d, w) == "")
  }

  lemma LookupTarget(d: Flags, w: World, s: Session)
    requires Looks(d, w, s)
    ensures var (s', id) := AADApplicationObjectID(d, s);
            Looks(d, w, s') && s'.world == s.world && id == Target(d, w)
  {
  }

  lemma TargetApps(d: Flags, w: World)
    ensures SameIdentity(FirstApp(AppsWithout(d, w), AADApplicationName(d)), FirstApp(w.apps, AADApplicationName(d)))
    ensures AppByID(AppsWithout(d, w), Target(d, w)).Some? <==> AppByID(w.apps, Target(d, w)).Some?
    ensures AppByID(w.apps, Target(d, w)).Some? ==>
              AppByID(AppsWithout(d, w), Target(d, w)).value.appID == AppByID(w.apps, Target(d, w)).value.appID
    ensures WithoutApp(AppsWithout(d, w), Target(d, w)) == WithoutApp(w.apps, Target(d, w))
  {
    var app := AppByID(w.apps, Target(d, w));
    if app.Some? && Unwanted(d, app.value).Some? {
      var cs := WithoutCredential(app.value.credentials, Unwanted(d, app.value).value.id);
      FirstAppWithCredentials(w.apps, Target(d, w), cs, AADApplicationName(d));
      AppByIDWithCredentials(w.apps, Target(d, w), cs, Target(d, w));
      WithoutChangedApp(w.apps, Target(d, w), cs);
    }
  }

  // ---------------------------------------------------------------------------------------
  // The phases, one by one

  lemma PreSteps(d: Flags, skip: set<string>, x: Step)
    ensures var ps := DeletePhases(d);
            && Then(x, ps[0], skip, true) == Unless(x, ROLE_PHASE, skip, RolePreRun(d, x.0))
            && Then(x, ps[1], skip, true) == Unless(x, CREDENTIAL_PHASE, skip, CredentialPreRun(d, x.0))
            && Then(x, ps[2], skip, true) == Unless(x, ACCOUNT_PHASE, skip, AccountPreRun(d, x.0))
            && Then(x, ps[3], skip, true) == Unless(x, APP_PHASE, skip, AppPreRun(d, x.0))
  {
    hide RolePreRun;
    hide CredentialPreRun;
    hide AccountPreRun;
    hide AppPreRun;
  }

  lemma RunSteps(d: Flags, skip: set<string>, x: Step)
    ensures var ps := DeletePhases(d);
            && Then(x, ps[0], skip, false) == Unless(x, ROLE_PHASE, skip, RoleRun(d, x.0))
            && Then(x, ps[1], skip, false) == Unless(x, CREDENTIAL_PHASE, skip, CredentialRun(d, x.0))
            && Then(x, ps[2], skip, false) == Unless(x, ACCOUNT_PHASE, skip, AccountRun(d, x.0))
            && Then(x, ps[3], skip, false) == Unless(x, APP_PHASE, skip, AppRun(d, x.0))
  {
    hide RoleRun;
    hide CredentialRun;
    hide AccountRun;
    hide AppRun;
  }

  predicate PreStage(d: Flags, skip: set<string>, w: World, n: nat, x: Step) {
    Looks(d, w, x.0) && x.0.world == w && (x.1 == None <==> Complete(d, skip, w, n))
  }

  /** How many of the first n phases leave their effect: a credential that is missing stops the command. */
  function Reaches(d: Flags, skip: set<string>, w: World, n: nat): nat {
    if n < 2 || Possible(d, skip, w, 2) then n else 1
  }

  predicate Stage(d: Flags, skip: set<string>, w: World, n: nat, x: Step) {
    && (x.1 == None <==> Possible(d, skip, w, n))
    && x.0.world == After(d, skip, w, Reaches(d, skip, w, n))
    && (x.1 == None && n < 4 ==> Looks(d, w, x.0))
  }

  lemma RoleStage(d: Flags, skip: set<string>, w: World, x: Step)
    requires Stage(d, skip, w, 0, x)
    ensures Stage(d, skip, w, 1, Unless(x, ROLE_PHASE, skip, RoleRun(d, x.0)))
  {
    if !HasAssignmentID(w.assignments, d.roleAssignmentID) { NothingToRemove(w.assignments, d.roleAssignmentID); }
  }

  lemma CredentialStage(d: Flags, skip: set<string>, w: World, x: Step)
    requires Stage(d, skip, w, 1, x)
    ensures Stage(d, skip, w, 2, Unless(x, CREDENTIAL_PHASE, skip, CredentialRun(d, x.0)))
  {
    if x.1 == None && CREDENTIAL_PHASE !in skip {
      LookupTarget(d, w, x.0);
      var (s1, id) := AADApplicationObjectID(d, x.0);
      var (s2, r) := GetFederatedCredential(s1, id, d.issuerURL, Subject(d));
      LookupTarget(d, w, s2);
      TargetApps(d, w);
    }
  }

  lemma AccountStage(d: Flags, skip: set<string>, w: World, x: Step)
    requires Stage(d, skip, w, 2, x)
    ensures Stage(d, skip, w, 3, Unless(x, ACCOUNT_PHASE, skip, AccountRun(d, x.0)))
  {
    if AccountKey(d) !in w.accounts { assert w.accounts - {AccountKey(d)} == w.accounts; }
    hide AppsWithout;
  }

  lemma AppStage(d: Flags, skip: set<string>, w: World, x: Step)
    requires Stage(d, skip, w, 3, x)
    ensures Stage(d, skip, w, 4, Unless(x, APP_PHASE, skip, AppRun(d, x.0)))
  {
    if x.1 == None && APP_PHASE !in skip {
      LookupTarget(d, w, x.0);
      LookupTarget(d, w, AADApplicationObjectID(d, x.0).0);
    }
    TargetApps(d, w);
    hide AADApplicationObjectID;
    hide AppsWithout;
    hide Target;
    hide WithoutAssignment;
  }

  lemma PreStart(d: Flags, skip: set<string>, w: World)
    ensures PreStage(d, skip, w, 0, (Session(w, None, None, []), None))
  {
  }

  lemma RolePreStage(d: Flags, skip: set<string>, w: World, x: Step)
    requires PreStage(d, skip, w, 0, x)
    ensures PreStage(d, skip, w, 1, Unless(x, ROLE_PHASE, skip, RolePreRun(d, x.0)))
  {
    hide Looks;
  }

  lemma CredentialPreStage(d: Flags, skip: set<string>, w: World, x: Step)
    requires PreStage(d, skip, w, 1, x)
    ensures PreStage(d, skip, w, 2, Unless(x, CREDENTIAL_PHASE, skip, CredentialPreRun(d, x.0)))
  {
    hide Looks;
  }

  lemma AccountPreStage(d: Flags, skip: set<string>, w: World, x: Step)
    requires PreStage(d, skip, w, 2, x)
    ensures PreStage(d, skip, w, 3, Unless(x, ACCOUNT_PHASE, skip, AccountPreRun(d, x.0)))
  {
    hide Target;
    hide AADApplicationName;
  }

  lemma AppPreStage(d: Flags, skip: set<string>, w: World, x: Step)
    requires PreStage(d, skip, w, 3, x)
    ensures PreStage(d, skip, w, 4, Unless(x, APP_PHASE, skip, AppPreRun(d, x.0)))
  {
    LookupTarget(d, w, x.0);
    hide Target;
    hide AADApplicationName;
    hide AADApplicationObjectID;
  }

  lemma PreStages(d: Flags, skip: set<string>, w: World)
    ensures var ps, start := DeletePhases(d), (Session(w, None, None, []), None);
            PreStage(d, skip, w, 4, ThenAll(start, ps, skip, true))
  {
    hide Then;
    hide DeletePhases;
    hide Target;
    hide AADApplicationName;
    hide AADApplicationObjectID;
    hide PreStage;
    hide Unless;
    var start: Step := (Session(w, None, None, []), None);
    PreStart(d, skip, w);
    PreSteps(d, skip, start);
    RolePreStage(d, skip, w, start);
    var a := Unless(start, ROLE_PHASE, skip, RolePreRun(d, start.0));
    PreSteps(d, skip, a);
    CredentialPreStage(d, skip, w, a);
    var b := Unless(a, CREDENTIAL_PHASE, skip, CredentialPreRun(d, a.0));
    PreSteps(d, skip, b);
    AccountPreStage(d, skip, w, b);
    var c := Unless(b, ACCOUNT_PHASE, skip, AccountPreRun(d, b.0));
    PreSteps(d, skip, c);
    AppPreStage(d, skip, w, c);
  }

  lemma Stages(d: Flags, skip: set<string>, w: World, s: Session)
    requires Looks(d, w, s) && s.world == w
    ensures var ps := DeletePhases(d);
            Stage(d, skip, w, 4, ThenAll((s, None), ps, skip, false))
  {
    var start: Step := (s, None);
    assert Stage(d, skip, w, 0, start);
    hide Stage;
    hide Then;
    hide Unless;
    hide DeletePhases;
    RunSteps(d, skip, start);
    RoleStage(d, skip, w, start);
    var a := Unless(start, ROLE_PHASE, skip, RoleRun(d, s));
    RunSteps(d, skip, a);
    CredentialStage(d, skip, w, a);
    var b := Unless(a, CREDENTIAL_PHASE, skip, CredentialRun(d, a.0));
    RunSteps(d, skip, b);
    AccountStage(d, skip, w, b);
    var c := Unless(b, ACCOUNT_PHASE, skip, AccountRun(d, b.0));
    RunSteps(d, skip, c);
    AppStage(d, skip, w, c);
  }

  lemma DeleteRuns(d: Flags, skips: seq<string>, s: Session)
    requires KnownSkips(skips)
    ensures var ps, skip := DeletePhases(d), ToSet(skips);
            var pre := ThenAll((s, None), ps, skip, true);
            var run := ThenAll((pre.0, None), ps, skip, false);
            var o := RunPhases(ps, skips, s);
            if pre.1.Some? then o.err.Some? && o.data == pre.0
            else (o.err.Some? <==> run.1.Some?) && o.data == run.0
  {
    hide Then;
    hide RunPhases;
    var ps := DeletePhases(d);
    assert ps == [ps[0], ps[1], ps[2], ps[3]];
    RunOfFour(ps[0], ps[1], ps[2], ps[3], skips, s);
  }

  lemma UnknownSkips(d: Flags, skips: seq<string>, s: Session)
    requires !KnownSkips(skips)
    ensures RunPhases(DeletePhases(d), skips, s).err.Some? && RunPhases(DeletePhases(d), skips, s).data == s
  {
    hide RunPhases;
    assert Names(DeletePhases(d)) == [ROLE_PHASE, CREDENTIAL_PHASE, ACCOUNT_PHASE, APP_PHASE];
    UnknownSkipFails(DeletePhases(d), skips, s);
  }

  /** An undisturbed run of all phases: when it succeeds, and what it leaves, also if it fails. */
  lemma PlainDeleteMeaning(d: Flags, skips: seq<string>, w: World)
    ensures var o, skip := PlainDelete(d, skips, w, []), ToSet(skips);
            && (o.err == None <==> KnownSkips(skips) && Complete(d, skip, w, 4) && Possible(d, skip, w, 4))
            && (KnownSkips(skips) && Complete(d, skip, w, 4) ==>
                  o.data.world == After(d, skip, w, Reaches(d, skip, w, 4)))
            && (!KnownSkips(skips) || !Complete(d, skip, w, 4) ==> o.data.world == w)
  {
    var ps, skip, s := DeletePhases(d), ToSet(skips), Session(w, None, None, []);
    assert |ps| == 4;
    hide Then;
    hide RunPhases;
    hide DeletePhases;
    hide KnownSkips;
    hide Complete;
    hide Possible;
    hide After;
    if KnownSkips(skips) {
      DeleteRuns(d, skips, s);
      PreStages(d, skip, w);
      var start: Step := (s, None);
      var pre := ThenAll(start, ps, skip, true);
      if pre.1 == None { Stages(d, skip, w, pre.0); }
    } else {
      UnknownSkips(d, skips, s);
    }
  }

  // ---------------------------------------------------------------------------------------
  // The optimisation

  lemma KnownEffectiveSkips(skips: seq<string>)
    ensures KnownSkips(EffectiveSkips(skips)) <==> KnownSkips(skips)
    ensures ToSet(EffectiveSkips(skips)) ==
            if APP_PHASE in skips then ToSet(skips) else ToSet(skips) + {CREDENTIAL_PHASE}
  {
    if KnownSkips(EffectiveSkips(skips)) {
      forall s | s in skips ensures s in [ROLE_PHASE, CREDENTIAL_PHASE, ACCOUNT_PHASE, APP_PHASE] {
        assert s in EffectiveSkips(skips);
      }
    }
  }

  /** The credential phase alone would succeed. */
  predicate CredentialDeletable(d: Flags, w: World) {
    var app := AppByID(w.apps, Target(d, w));
    && d.serviceAccountNamespace != "" && d.serviceAccountName != "" && d.issuerURL != ""
    && (app.Some? ==> Unwanted(d, app.value).Some?)
  }

  /** Leaving the credential to the deletion of its application preserves meaning: wherever the
      plain command succeeds the optimised one does, with the same result.  It succeeds more often:
      exactly where the plain command fails because of the credential phase only. */
  lemma OptimisationPreserves(d: Flags, skips: seq<string>, w: World)
    ensures var plain, quick := PlainDelete(d, skips, w, []), Delete(d, skips, w, []);
            && (plain.err == None ==> quick.err == None && quick.data.world == plain.data.world)
            && (plain.err == None <==>
                  quick.err == None && (APP_PHASE in skips || CREDENTIAL_PHASE in skips || CredentialDeletable(d, w)))
  {
    PlainDeleteMeaning(d, skips, w);
    PlainDeleteMeaning(d, EffectiveSkips(skips), w);
    KnownEffectiveSkips(skips);
    assert APP_PHASE in skips <==> APP_PHASE in ToSet(skips);
    assert CREDENTIAL_PHASE in skips <==> CREDENTIAL_PHASE in ToSet(skips);
    hide PlainDelete;
    hide KnownSkips;
    hide EffectiveSkips;
    hide Target;
    hide AppsWithout;
  }

  // ---------------------------------------------------------------------------------------
  // Deleting twice

  lemma {:induction false} AppIsGone(apps: seq<Application>, id: string, other: string)
    ensures AppByID(WithoutApp(apps, id), other) == if other == id then None else AppByID(apps, other)
  {
    if apps != [] {
      AppIsGone(apps[1..], id, other);
      var rest := WithoutApp(apps[1..], id);
      assert ([apps[0]] + rest)[1..] == rest && [] + rest == rest;
    }
  }

  ghost predicate UniqueName(apps: seq<Application>, name: string) {
    forall i, j :: 0 <= i < j < |apps| ==> !(apps[i].displayName == apps[j].displayName == name)
  }

  lemma {:induction false} NameIsGone(apps: seq<Application>, name: string, id: string)
    requires forall a :: a in apps && a.displayName == name ==> a.objectID == id
    ensures FirstApp(WithoutApp(apps, id), name) == None
  {
    if apps != [] {
      NameIsGone(apps[1..], name, id);
      var rest := WithoutApp(apps[1..], id);
      assert apps[0] in apps;
      assert ([apps[0]] + rest)[1..] == rest && [] + rest == rest;
    }
  }

  lemma {:induction false} FirstOfName(apps: seq<Application>, name: string)
    requires UniqueName(apps, name) && FirstApp(apps, name).Some?
    ensures forall a :: a in apps && a.displayName == name ==> a == FirstApp(apps, name).value
  {
    if apps[0].displayName == name {
      forall a | a in apps && a.displayName == name ensures a == apps[0] {
        var i :| 0 <= i < |apps| && apps[i] == a;
      }
    } else {
      FirstOfName(apps[1..], name);
    }
  }

  lemma {:induction false} RemovedAssignment(assignments: seq<RoleAssignment>, id: string)
    ensures !HasAssignmentID(WithoutAssignment(assignments, id), id)
  {
    if assignments != [] { RemovedAssignment(assignments[1..], id); }
  }

  /** Delete is not idempotent: with the application phase active, whoever deletes an application
      of a unique name once cannot do so again. */
  lemma DeleteTwiceFails(d: Flags, skips: seq<string>, w: World)
    requires Delete(d, skips, w, []).err == None && APP_PHASE !in skips
    requires UniqueName(w.apps, AADApplicationName(d)) && forall a :: a in w.apps ==> a.objectID != ""
    ensures Delete(d, skips, Delete(d, skips, w, []).data.world, []).err != None
  {
    KnownEffectiveSkips(skips);
    PlainDeleteMeaning(d, EffectiveSkips(skips), w);
    var w1 := Delete(d, skips, w, []).data.world;
    PlainDeleteMeaning(d, EffectiveSkips(skips), w1);
    assert APP_PHASE !in ToSet(skips);
    hide PlainDelete;
    hide KnownSkips;
    var id, name := Target(d, w), AADApplicationName(d);
    assert w1.apps == WithoutApp(w.apps, id);
    NoSuchID(w.apps);
    AppIsGone(w.apps, id, Target(d, w1));
    if d.aadApplicationObjectID == "" {
      FirstOfName(w.apps, name);
      NameIsGone(w.apps, name, id);
    }
  }

  /** Without the application and credential phases it is idempotent. */
  lemma DeleteTwiceSame(d: Flags, skips: seq<string>, w: World)
    requires Delete(d, skips, w, []).err == None && APP_PHASE in skips && CREDENTIAL_PHASE in skips
    ensures var once := Delete(d, skips, w, []);
            var twice := Delete(d, skips, once.data.world, []);
            twice.err == None && twice.data.world == once.data.world
  {
    PlainDeleteMeaning(d, skips, w);
    var w1 := Delete(d, skips, w, []).data.world;
    PlainDeleteMeaning(d, skips, w1);
    RemovedAssignment(w.assignments, d.roleAssignmentID);
    NothingToRemove(WithoutAssignment(w.assignments, d.roleAssignmentID), d.roleAssignmentID);
    hide PlainDelete;
    hide KnownSkips;
    hide Target;
    assert w.accounts - {AccountKey(d)} - {AccountKey(d)} == w.accounts - {AccountKey(d)};
  }

  lemma {:induction false} NoSuchID(apps: seq<Application>)
    ensures (forall a :: a in apps ==> a.objectID != "") ==> AppByID(apps, "") == None
  {
    if apps != [] {
      assert apps[0] in apps;
      NoSuchID(apps[1..]);
    }
  }
}
