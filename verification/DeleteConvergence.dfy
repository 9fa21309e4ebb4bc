/** When delete converges: in what it leaves, not in what it reports. */
module DeleteConvergence {
  import opened Common
  import opened Cloud
  import opened Directory
  import opened Workflow
  import opened DeleteCommand
  import opened DeleteTheorem
  import opened DeleteSafety

  function Both(a: Effects, b: Effects): Effects {
    Effects(a.role || b.role, a.credential || b.credential, a.account || b.account, a.app || b.app)
  }

  /** All that the command is to do if it deletes the application. */
  function AllOf(skip: set<string>): Effects {
    Effects(ROLE_PHASE !in skip, false, ACCOUNT_PHASE !in skip, true)
  }

  lemma AfterIsPartly(d: Flags, skip: set<string>, w: World)
    requires CREDENTIAL_PHASE in skip && APP_PHASE !in skip
    ensures After(d, skip, w, 4) == Partly(d, w, AllOf(skip))
  {
    hide AppsWithout;
    hide Target;
  }

  /** The world without the application. */
  function Emptied(d: Flags, w: World): World {
    w.(apps := WithoutApp(w.apps, Target(d, w)))
  }

  /** Once the application is gone, no other is found in its place. */
  predicate NothingInItsPlace(d: Flags, w: World) {
    AppByID(w.apps, Target(d, w)).Some? ==> AppByID(Emptied(d, w).apps, Target(d, Emptied(d, w))) == None
  }

  /** So it is if the name is that of one application, or the application is given by its ID. */
  lemma UniqueIsEnough(d: Flags, w: World)
    requires Named(w) && (d.aadApplicationObjectID != "" || UniqueName(w.apps, AADApplicationName(d)))
    ensures NothingInItsPlace(d, w)
  {
    var id, name := Target(d, w), AADApplicationName(d);
    AppIsGone(w.apps, id, id);
    AppIsGone(w.apps, id, "");
    if d.aadApplicationObjectID == "" && AppByID(w.apps, id).Some? {
      FirstOfName(w.apps, name);
      NameIsGone(w.apps, name, id);
    }
  }

  lemma StillNamed(d: Flags, w: World)
    requires Named(w)
    ensures Named(Emptied(d, w))
  {
    AppIsGone(w.apps, Target(d, w), "");
  }

  lemma RemovedOnce(d: Flags, w: World)
    ensures var once := WithoutAssignment(w.assignments, d.roleAssignmentID);
            WithoutAssignment(once, d.roleAssignmentID) == once
    ensures w.accounts - {AccountKey(d)} - {AccountKey(d)} == w.accounts - {AccountKey(d)}
  {
    RemovedAssignment(w.assignments, d.roleAssignmentID);
    NothingToRemove(WithoutAssignment(w.assignments, d.roleAssignmentID), d.roleAssignmentID);
  }

  /** No credential for the account's tokens is left once the first one is deleted. */
  predicate NoOtherCredential(d: Flags, w: World) {
    var app := AppByID(w.apps, Target(d, w));
    app.Some? && Unwanted(d, app.value).Some? ==>
      FirstCredential(WithoutCredential(app.value.credentials, Unwanted(d, app.value).value.id),
                      d.issuerURL, Subject(d)) == None
  }

  /** The world without the credential. */
  function Stripped(d: Flags, w: World): World {
    w.(apps := AppsWithout(d, w))
  }

  lemma StrippedStaysSo(d: Flags, w: World)
    requires Named(w)
    ensures Named(Stripped(d, w)) && Target(d, Stripped(d, w)) == Target(d, w)
    ensures NoOtherCredential(d, w) ==> AppsWithout(d, Stripped(d, w)) == AppsWithout(d, w)
  {
    TargetApps(d, w);
    EmptyStaysUnknown(d, w);
    var id, app := Target(d, w), AppByID(w.apps, Target(d, w));
    if app.Some? && Unwanted(d, app.value).Some? {
      var cs := WithoutCredential(app.value.credentials, Unwanted(d, app.value).value.id);
      AppByIDWithCredentials(w.apps, id, cs, id);
    }
  }

  /** Effects that add up: the same application and the same credential are meant twice. */
  predicate Additive(d: Flags, w: World, a: Effects, b: Effects) {
    if a.credential || b.credential then !a.app && !b.app && NoOtherCredential(d, w)
    else a.app ==> NothingInItsPlace(d, w)
  }

  lemma PartlyTwice(d: Flags, w: World, a: Effects, b: Effects)
    requires Named(w) && Additive(d, w, a, b)
    ensures Named(Partly(d, w, a)) && Partly(d, Partly(d, w, a), b) == Partly(d, w, Both(a, b))
  {
    RemovedOnce(d, w);
    StrippedStaysSo(d, w);
    var w' := Partly(d, w, a);
    if a.credential {
      assert w'.apps == Stripped(d, w).apps && Target(d, w') == Target(d, Stripped(d, w));
      assert AppsWithout(d, w') == AppsWithout(d, Stripped(d, w));
    } else if a.app && AppByID(w.apps, Target(d, w)).Some? {
      StillNamed(d, w);
      assert w'.apps == Emptied(d, w).apps && Target(d, w') == Target(d, Emptied(d, w));
    } else {
      assert w'.apps == w.apps && Target(d, w') == Target(d, w);
    }
    hide Target;
    hide AppsWithout;
    hide WithoutApp;
    hide WithoutAssignment;
    hide WithoutPrincipalsFor;
    hide AppByID;
  }

  function AfterDeletes(d: Flags, skips: seq<string>, w: World, runs: seq<seq<Fault>>): World {
    if runs == [] then w
    else
      var last := |runs| - 1;
      Delete(d, skips, AfterDeletes(d, skips, w, runs[..last]), runs[last]).data.world
  }

  /** What an undisturbed delete leaves. */
  function Left(d: Flags, skips: seq<string>, w: World): World {
    Delete(d, skips, w, []).data.world
  }

  lemma {:induction false} HistoryPartly(d: Flags, skips: seq<string>, w: World, runs: seq<seq<Fault>>)
      returns (e: Effects)
    requires Named(w)
    requires APP_PHASE !in skips ==> NothingInItsPlace(d, w)
    requires CREDENTIAL_PHASE !in EffectiveSkips(skips) ==> NoOtherCredential(d, w)
    ensures AfterDeletes(d, skips, w, runs) == Partly(d, w, e) && OfActive(e, ToSet(EffectiveSkips(skips)))
    decreases |runs|
  {
    hide Delete;
    hide NothingInItsPlace;
    if runs == [] {
      e := Effects(false, false, false, false);
    } else {
      var last := |runs| - 1;
      e := HistoryPartly(d, skips, w, runs[..last]);
      KnownEffectiveSkips(skips);
      var none := Effects(false, false, false, false);
      PartlyTwice(d, w, e, none);
      var more := DeleteTouchesOnlyItsOwn(d, skips, Partly(d, w, e), runs[last]);
      PartlyTwice(d, w, e, more);
      hide Partly;
      e := Both(e, more);
    }
  }

  /** After any number of deletes, each disturbed at any of its remote calls, one undisturbed delete
      leaves the world that it would have left at once.  It reports success exactly if none of the
      others had deleted the application, which it takes for an error of its own. */
  lemma DeleteConverges(d: Flags, skips: seq<string>, w: World, runs: seq<seq<Fault>>)
    requires Named(w) && NothingInItsPlace(d, w) && APP_PHASE !in skips && KnownSkips(skips)
    requires AADApplicationName(d) != "" || d.aadApplicationObjectID != ""
    requires Complete(d, ToSet(EffectiveSkips(skips)), w, 4)
    ensures var before := AfterDeletes(d, skips, w, runs);
            var last := Delete(d, skips, before, []);
            && last.data.world == Delete(d, skips, w, []).data.world == After(d, ToSet(EffectiveSkips(skips)), w, 4)
            && (last.err == None <==> AppByID(before.apps, Target(d, before)).Some?)
  {
    var skip := ToSet(EffectiveSkips(skips));
    KnownEffectiveSkips(skips);
    var before := AfterDeletes(d, skips, w, runs);
    PlainDeleteMeaning(d, EffectiveSkips(skips), w);
    PlainDeleteMeaning(d, EffectiveSkips(skips), before);
    var e := HistoryPartly(d, skips, w, runs);
    AfterIsPartly(d, skip, w);
    AfterIsPartly(d, skip, before);
    PartlyTwice(d, w, e, AllOf(skip));
    assert Both(e, AllOf(skip)) == AllOf(skip);
    hide PlainDelete;
    hide AfterDeletes;
    hide KnownSkips;
    hide Target;
    hide After;
    hide Partly;
    hide NothingInItsPlace;
  }

  /** If another application is found in its place, the second of two undisturbed deletes takes it. */
  lemma SecondDeleteTakesAnother(d: Flags, skips: seq<string>, w: World)
    requires Named(w) && !NothingInItsPlace(d, w) && APP_PHASE !in skips && KnownSkips(skips)
    requires AADApplicationName(d) != "" || d.aadApplicationObjectID != ""
    requires Complete(d, ToSet(EffectiveSkips(skips)), w, 4)
    ensures Left(d, skips, AfterDeletes(d, skips, w, [[]])) != Left(d, skips, w)
  {
    var skip := ToSet(EffectiveSkips(skips));
    KnownEffectiveSkips(skips);
    var once: seq<seq<Fault>> := [[]];
    assert once[..0] == [] && AfterDeletes(d, skips, w, []) == w;
    var w1 := Delete(d, skips, w, []).data.world;
    assert AfterDeletes(d, skips, w, once) == w1;
    PlainDeleteMeaning(d, EffectiveSkips(skips), w);
    assert w1.apps == Emptied(d, w).apps;
    assert Target(d, w1) == Target(d, Emptied(d, w));
    PlainDeleteMeaning(d, EffectiveSkips(skips), w1);
    AppIsGone(w1.apps, Target(d, w1), Target(d, w1));
    hide PlainDelete;
    hide AfterDeletes;
    hide KnownSkips;
    hide Target;
    hide AppsWithout;
  }

  /** Delete of the application converges over all histories exactly if no other application is found
      in the place of the deleted one. */
  lemma DeleteConvergesExactlyWhen(d: Flags, skips: seq<string>, w: World)
    requires Named(w) && APP_PHASE !in skips && KnownSkips(skips)
    requires AADApplicationName(d) != "" || d.aadApplicationObjectID != ""
    requires Complete(d, ToSet(EffectiveSkips(skips)), w, 4)
    ensures NothingInItsPlace(d, w) <==>
              forall runs :: Left(d, skips, AfterDeletes(d, skips, w, runs)) == Left(d, skips, w)
  {
    hide Delete;
    hide AfterDeletes;
    hide NothingInItsPlace;
    hide Complete;
    if NothingInItsPlace(d, w) {
      forall runs ensures Left(d, skips, AfterDeletes(d, skips, w, runs)) == Left(d, skips, w) {
        DeleteConverges(d, skips, w, runs);
      }
    } else {
      SecondDeleteTakesAnother(d, skips, w);
    }
  }

  /** Without the application and credential phases delete always converges. */
  lemma DeleteOfOthersConverges(d: Flags, skips: seq<string>, w: World, runs: seq<seq<Fault>>)
    requires Named(w) && APP_PHASE in skips && CREDENTIAL_PHASE in skips && KnownSkips(skips)
    requires Complete(d, ToSet(skips), w, 4)
    ensures var last := Delete(d, skips, AfterDeletes(d, skips, w, runs), []);
            last.err == None && last.data.world == Delete(d, skips, w, []).data.world
  {
    var skip, before := ToSet(skips), AfterDeletes(d, skips, w, runs);
    var all := Effects(ROLE_PHASE !in skip, false, ACCOUNT_PHASE !in skip, false);
    PlainDeleteMeaning(d, skips, w);
    PlainDeleteMeaning(d, skips, before);
    var e := HistoryPartly(d, skips, w, runs);
    AfterIsPartlyToo(d, skip, w, all);
    AfterIsPartlyToo(d, skip, before, all);
    PartlyTwice(d, w, e, all);
    assert Both(e, all) == all;
    hide PlainDelete;
    hide AfterDeletes;
    hide KnownSkips;
    hide Target;
    hide After;
    hide Partly;
    hide NothingInItsPlace;
  }

  lemma AfterIsPartlyToo(d: Flags, skip: set<string>, w: World, all: Effects)
    requires CREDENTIAL_PHASE in skip && APP_PHASE in skip
    requires all == Effects(ROLE_PHASE !in skip, false, ACCOUNT_PHASE !in skip, false)
    ensures After(d, skip, w, 4) == Partly(d, w, all)
  {
    hide AppsWithout;
    hide Target;
  }

  // ---------------------------------------------------------------------------------------
  // Deleting the credential and not the application

  /** All that the command is to do if it deletes the credential. */
  function AllButApp(skip: set<string>): Effects {
    Effects(ROLE_PHASE !in skip, true, ACCOUNT_PHASE !in skip, false)
  }

  /** A credential that is missing keeps the command from the account, unless nothing is to do there. */
  predicate NothingBehind(d: Flags, skip: set<string>, w: World) {
    AppByID(w.apps, Target(d, w)).Some? ==> ACCOUNT_PHASE in skip || AccountKey(d) !in w.accounts
  }

  lemma LeftIsPartly(d: Flags, skips: seq<string>, w: World)
    requires APP_PHASE in skips && CREDENTIAL_PHASE !in skips && KnownSkips(skips)
    requires Complete(d, ToSet(skips), w, 4) && NothingBehind(d, ToSet(skips), w)
    ensures Left(d, skips, w) == Partly(d, w, AllButApp(ToSet(skips)))
  {
    hide PlainDelete;
    hide Target;
    hide WithoutAssignment;
    hide AppsWithout;
    hide AppByID;
    hide Unwanted;
    PlainDeleteMeaning(d, skips, w);
    NothingUnwanted(d, w);
    if AccountKey(d) !in w.accounts { assert w.accounts - {AccountKey(d)} == w.accounts; }
  }

  lemma NothingUnwanted(d: Flags, w: World)
    ensures var app := AppByID(w.apps, Target(d, w));
            app.None? || Unwanted(d, app.value).None? ==> AppsWithout(d, w) == w.apps
  {
  }

  lemma CredentialDeleteConverges(d: Flags, skips: seq<string>, w: World, runs: seq<seq<Fault>>)
    requires Named(w) && APP_PHASE in skips && CREDENTIAL_PHASE !in skips && KnownSkips(skips)
    requires Complete(d, ToSet(skips), w, 4) && NothingBehind(d, ToSet(skips), w) && NoOtherCredential(d, w)
    ensures Left(d, skips, AfterDeletes(d, skips, w, runs)) == Left(d, skips, w)
  {
    var skip, before := ToSet(skips), AfterDeletes(d, skips, w, runs);
    var e := HistoryPartly(d, skips, w, runs);
    TargetApps(d, w);
    StrippedStaysSo(d, w);
    assert Target(d, before) == Target(d, if e.credential then Stripped(d, w) else w);
    assert NothingBehind(d, skip, before);
    LeftIsPartly(d, skips, w);
    LeftIsPartly(d, skips, before);
    PartlyTwice(d, w, e, AllButApp(skip));
    assert Both(e, AllButApp(skip)) == AllButApp(skip);
    hide Left;
    hide AfterDeletes;
    hide AppsWithout;
    hide WithoutAssignment;
  }

  lemma {:induction false} NoSuchCredential(cs: seq<Credential>, id: string)
    ensures forall c :: c in WithoutCredential(cs, id) ==> c.id != id
  {
    if cs != [] { NoSuchCredential(cs[1..], id); }
  }

  lemma {:induction false} FirstIsOneOf(cs: seq<Credential>, issuer: string, subject: string)
    requires FirstCredential(cs, issuer, subject).Some?
    ensures FirstCredential(cs, issuer, subject).value in cs
  {
    if !(cs[0].subject == subject && cs[0].issuer == issuer) { FirstIsOneOf(cs[1..], issuer, subject); }
  }

  /** Deleting a credential that is there makes a difference. */
  lemma DeletingShows(d: Flags, w: World)
    requires AppByID(w.apps, Target(d, w)).Some? && Unwanted(d, AppByID(w.apps, Target(d, w)).value).Some?
    ensures AppsWithout(d, w) != w.apps
  {
    var id, app := Target(d, w), AppByID(w.apps, Target(d, w)).value;
    var c := Unwanted(d, app).value;
    FirstIsOneOf(app.credentials, d.issuerURL, Subject(d));
    NoSuchCredential(app.credentials, c.id);
    AppByIDWithCredentials(w.apps, id, WithoutCredential(app.credentials, c.id), id);
  }

  /** If another credential is left, the second of two undisturbed deletes takes it. */
  lemma SecondDeleteTakesCredential(d: Flags, skips: seq<string>, w: World)
    requires Named(w) && APP_PHASE in skips && CREDENTIAL_PHASE !in skips && KnownSkips(skips)
    requires Complete(d, ToSet(skips), w, 4) && !NoOtherCredential(d, w)
    ensures Left(d, skips, AfterDeletes(d, skips, w, [[]])) != Left(d, skips, w)
  {
    var once: seq<seq<Fault>> := [[]];
    assert once[..0] == [] && AfterDeletes(d, skips, w, []) == w;
    var w1 := Left(d, skips, w);
    PlainDeleteMeaning(d, skips, w);
    PlainDeleteMeaning(d, skips, w1);
    StrippedStaysSo(d, w);
    assert w1.apps == Stripped(d, w).apps && Target(d, w1) == Target(d, w);
    var id, app := Target(d, w), AppByID(w.apps, Target(d, w)).value;
    AppByIDWithCredentials(w.apps, id, WithoutCredential(app.credentials, Unwanted(d, app).value.id), id);
    DeletingShows(d, w1);
    hide PlainDelete;
    hide Target;
    hide WithoutAssignment;
    hide WithCredentials;
  }

  // ---------------------------------------------------------------------------------------
  // One disturbed run that the next cannot make up for

  function OnlyIf(b: bool, fault: Fault): seq<Fault> {
    if b then [fault] else []
  }

  /** What the calls meet up to the credential phase, and in it: first the account's pre-run. */
  function Disturbed(d: Flags, skips: seq<string>, faults: seq<Fault>): seq<Fault> {
    [Healthy] + OnlyIf(ROLE_PHASE !in skips, Healthy) + OnlyIf(d.aadApplicationObjectID == "", Healthy) + faults
  }

  lemma QuietPreRun(d: Flags, skip: set<string>, s: Session)
    requires APP_PHASE in skip && CREDENTIAL_PHASE !in skip && ACCOUNT_PHASE !in skip
    requires Complete(d, skip, s.world, 4) && s.faults != [] && s.faults[0].Healthy?
    ensures ThenAll((s, None), DeletePhases(d), skip, true) == (Called(s), None)
  {
    hide Then;
    hide DeletePhases;
    var start: Step := (s, None);
    PreSteps(d, skip, start);
    PreSteps(d, skip, (Called(s), None));
  }

  lemma QuietRole(d: Flags, skip: set<string>, s: Session, rest: seq<Fault>)
    requires s.faults == OnlyIf(ROLE_PHASE !in skip, Healthy) + rest
    ensures var e := Effects(ROLE_PHASE !in skip, false, false, false);
            Unless((s, None), ROLE_PHASE, skip, RoleRun(d, s))
              == (s.(world := Partly(d, s.world, e), faults := rest), None)
  {
    if !HasAssignmentID(s.world.assignments, d.roleAssignmentID) {
      NothingToRemove(s.world.assignments, d.roleAssignmentID);
    }
    assert [Healthy] + rest != [] && ([Healthy] + rest)[1..] == rest && [] + rest == rest;
    hide Target;
    hide AppsWithout;
  }

  /** The lookup of the application, in a session that has not looked yet. */
  lemma QuietLookup(d: Flags, s: Session, rest: seq<Fault>)
    requires s.app == None && s.faults == OnlyIf(d.aadApplicationObjectID == "", Healthy) + rest
    ensures var (s', id) := AADApplicationObjectID(d, s);
            && s'.world == s.world && s'.faults == rest && id == Target(d, s.world)
            && (d.aadApplicationObjectID == "" && AppByID(s.world.apps, id).Some? && Named(s.world) ==>
                  s'.app == FirstApp(s.world.apps, AADApplicationName(d)) && s'.app.Some?)
  {
    assert ([Healthy] + rest)[1..] == rest && [] + rest == rest;
    hide AADApplicationName;
  }

  /** The credential is deleted, and an error reported all the same. */
  lemma CredentialLanded(d: Flags, s: Session, error: Error)
    requires Named(s.world) && s.app == None && AppByID(s.world.apps, Target(d, s.world)).Some?
    requires Unwanted(d, AppByID(s.world.apps, Target(d, s.world)).value).Some?
    requires s.faults == OnlyIf(d.aadApplicationObjectID == "", Healthy) + [Healthy, Landed(error)]
    ensures var (s', failure) := CredentialRun(d, s);
            failure.Some? && s'.world == Stripped(d, s.world)
  {
    QuietLookup(d, s, [Healthy, Landed(error)]);
    var (s1, id) := AADApplicationObjectID(d, s);
    var (s2, r) := GetFederatedCredential(s1, id, d.issuerURL, Subject(d));
    assert r == Ok(Unwanted(d, AppByID(s.world.apps, id).value).value) && s2 == Called(s1);
    assert s2.faults == [Landed(error)];
    assert AADApplicationObjectID(d, s2) == (s2, id);
  }

  /** The credential is overlooked, for the answer of a failing server. */
  lemma CredentialOverlooked(d: Flags, s: Session, error: Error)
    requires s.app == None && IsFederatedCredentialNotFound(error)
    requires s.faults == OnlyIf(d.aadApplicationObjectID == "", Healthy) + [Lost(error)]
    ensures var (s', failure) := CredentialRun(d, s);
            failure == None && s'.world == s.world && s'.faults == []
  {
    QuietLookup(d, s, [Lost(error)]);
    hide AADApplicationObjectID;
  }

  /** The world and the session that the credential phase starts from. */
  function WithoutRole(d: Flags, skip: set<string>, w: World): World {
    Partly(d, w, Effects(ROLE_PHASE !in skip, false, false, false))
  }

  function BeforeCredential(d: Flags, skip: set<string>, w: World, faults: seq<Fault>): Session {
    Session(WithoutRole(d, skip, w), None, None, OnlyIf(d.aadApplicationObjectID == "", Healthy) + faults)
  }

  lemma DisturbedRun(d: Flags, skips: seq<string>, w: World, faults: seq<Fault>)
    requires APP_PHASE in skips && CREDENTIAL_PHASE !in skips && ACCOUNT_PHASE !in skips
    requires KnownSkips(skips) && Complete(d, ToSet(skips), w, 4)
    ensures var left := CredentialRun(d, BeforeCredential(d, ToSet(skips), w, faults));
            AfterDeletes(d, skips, w, [Disturbed(d, skips, faults)])
              == if left.1.Some? then left.0.world else AccountRun(d, left.0).0.world
  {
    hide Then;
    hide DeletePhases;
    hide RunPhases;
    hide KnownSkips;
    hide Complete;
    hide CredentialRun;
    hide RoleRun;
    hide AccountRun;
    var runs, skip := [Disturbed(d, skips, faults)], ToSet(skips);
    assert runs[..0] == [] && AfterDeletes(d, skips, w, []) == w;
    var s := Session(w, None, None, runs[0]);
    var rest := OnlyIf(d.aadApplicationObjectID == "", Healthy) + faults;
    assert runs[0] == [Healthy] + (OnlyIf(ROLE_PHASE !in skip, Healthy) + rest);
    DeleteRuns(d, skips, s);
    QuietPreRun(d, skip, s);
    var start: Step := (Called(s), None);
    RunSteps(d, skip, start);
    QuietRole(d, skip, Called(s), rest);
    var a: Step := (BeforeCredential(d, skip, w, faults), None);
    assert Unless(start, ROLE_PHASE, skip, RoleRun(d, start.0)) == a;
    RunSteps(d, skip, a);
    var b := CredentialRun(d, a.0);
    RunSteps(d, skip, b);
    RunSteps(d, skip, Unless(b, ACCOUNT_PHASE, skip, AccountRun(d, b.0)));
  }

  lemma LandedRun(d: Flags, skips: seq<string>, w: World, error: Error)
    requires Named(w) && APP_PHASE in skips && CREDENTIAL_PHASE !in skips && ACCOUNT_PHASE !in skips
    requires KnownSkips(skips) && Complete(d, ToSet(skips), w, 4)
    requires AppByID(w.apps, Target(d, w)).Some? && Unwanted(d, AppByID(w.apps, Target(d, w)).value).Some?
    ensures AfterDeletes(d, skips, w, [Disturbed(d, skips, [Healthy, Landed(error)])])
              == Stripped(d, WithoutRole(d, ToSet(skips), w))
  {
    var faults := [Healthy, Landed(error)];
    DisturbedRun(d, skips, w, faults);
    var s := BeforeCredential(d, ToSet(skips), w, faults);
    assert s.world.apps == w.apps && Target(d, s.world) == Target(d, w);
    CredentialLanded(d, s, error);
    hide AfterDeletes;
    hide CredentialRun;
    hide WithoutAssignment;
    hide Target;
    hide AppsWithout;
  }

  /** Without the credential the command never gets to the account. */
  lemma StopsAtCredential(d: Flags, skips: seq<string>, w: World)
    requires CREDENTIAL_PHASE !in skips && APP_PHASE in skips
    requires AppByID(w.apps, Target(d, w)).Some? && Unwanted(d, AppByID(w.apps, Target(d, w)).value) == None
    ensures Left(d, skips, w).accounts == w.accounts
  {
    PlainDeleteMeaning(d, skips, w);
    hide PlainDelete;
    hide KnownSkips;
    hide Complete;
    hide Target;
    hide AppsWithout;
    hide WithoutAssignment;
  }

  /** If the credential is deleted but reported as failed, no later delete gets to the account. */
  lemma AccountStaysBehind(d: Flags, skips: seq<string>, w: World, error: Error)
    requires Named(w) && APP_PHASE in skips && CREDENTIAL_PHASE !in skips && KnownSkips(skips)
    requires Complete(d, ToSet(skips), w, 4) && !NothingBehind(d, ToSet(skips), w) && NoOtherCredential(d, w)
    requires Unwanted(d, AppByID(w.apps, Target(d, w)).value).Some?
    ensures var runs := [Disturbed(d, skips, [Healthy, Landed(error)])];
            Left(d, skips, AfterDeletes(d, skips, w, runs)) != Left(d, skips, w)
  {
    var before := AfterDeletes(d, skips, w, [Disturbed(d, skips, [Healthy, Landed(error)])]);
    LandedRun(d, skips, w, error);
    StrippedStaysSo(d, w);
    var id, app := Target(d, w), AppByID(w.apps, Target(d, w)).value;
    assert before.apps == Stripped(d, w).apps && Target(d, before) == Target(d, Stripped(d, w));
    AppByIDWithCredentials(w.apps, id, WithoutCredential(app.credentials, Unwanted(d, app).value.id), id);
    StopsAtCredential(d, skips, before);
    PlainDeleteMeaning(d, skips, w);
    hide PlainDelete;
    hide AfterDeletes;
    hide WithoutAssignment;
    hide WithCredentials;
    hide WithoutCredential;
  }

  /** If a failing server makes a delete overlook that the credential is missing, the account goes. */
  lemma AccountGoesToo(d: Flags, skips: seq<string>, w: World, error: Error)
    requires Named(w) && APP_PHASE in skips && CREDENTIAL_PHASE !in skips && KnownSkips(skips)
    requires Complete(d, ToSet(skips), w, 4) && !NothingBehind(d, ToSet(skips), w)
    requires Unwanted(d, AppByID(w.apps, Target(d, w)).value) == None && IsFederatedCredentialNotFound(error)
    ensures var runs := [Disturbed(d, skips, [Lost(error)])];
            Left(d, skips, AfterDeletes(d, skips, w, runs)) != Left(d, skips, w)
  {
    var skip, faults := ToSet(skips), [Lost(error)];
    var before := AfterDeletes(d, skips, w, [Disturbed(d, skips, faults)]);
    DisturbedRun(d, skips, w, faults);
    var s := BeforeCredential(d, skip, w, faults);
    CredentialOverlooked(d, s, error);
    assert AccountKey(d) !in before.accounts;
    StopsAtCredential(d, skips, w);
    PlainDeleteMeaning(d, skips, before);
    hide PlainDelete;
    hide AfterDeletes;
    hide CredentialRun;
    hide WithoutAssignment;
    hide Target;
    hide AppsWithout;
  }

  /** Delete of the credential without the application converges over all histories exactly if no
      other credential for the account's tokens is left, and no account that a missing credential
      would keep it from. */
  lemma CredentialDeleteConvergesExactlyWhen(d: Flags, skips: seq<string>, w: World)
    requires Named(w) && APP_PHASE in skips && CREDENTIAL_PHASE !in skips && KnownSkips(skips)
    requires Complete(d, ToSet(skips), w, 4)
    ensures NoOtherCredential(d, w) && NothingBehind(d, ToSet(skips), w) <==>
              forall runs :: Left(d, skips, AfterDeletes(d, skips, w, runs)) == Left(d, skips, w)
  {
    hide Left;
    hide AfterDeletes;
    hide Complete;
    if !NoOtherCredential(d, w) {
      SecondDeleteTakesCredential(d, skips, w);
    } else if NothingBehind(d, ToSet(skips), w) {
      forall runs ensures Left(d, skips, AfterDeletes(d, skips, w, runs)) == Left(d, skips, w) {
        CredentialDeleteConverges(d, skips, w, runs);
      }
    } else if Unwanted(d, AppByID(w.apps, Target(d, w)).value).Some? {
      AccountStaysBehind(d, skips, w, Plain(""));
    } else {
      AccountGoesToo(d, skips, w, GraphError(RESOURCE_NOT_FOUND, ""));
    }
  }
}
