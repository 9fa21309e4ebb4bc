/** The convergence of azwi serviceaccount create over whole histories of disturbed runs. */
module CreateTheorem {
  import opened Common
  import opened TokenLifetime
  import opened Cloud
  import opened Directory
  import opened Workflow
  import opened CreateCommand
  import opened CreateConvergence

  // ---------------------------------------------------------------------------------------
  // One phase

  lemma PreSteps(f: Flags, skip: set<string>, x: Step)
    ensures var ps := CreatePhases(f);
            && Then(x, ps[0], skip, true) == Unless(x, APP_PHASE, skip, AppPreRun(f, x.0))
            && Then(x, ps[1], skip, true) == Unless(x, ACCOUNT_PHASE, skip, AccountPreRun(f, x.0))
            && Then(x, ps[2], skip, true) == Unless(x, CREDENTIAL_PHASE, skip, CredentialPreRun(f, x.0))
            && Then(x, ps[3], skip, true) == Unless(x, ROLE_PHASE, skip, RolePreRun(f, x.0))
  {
    hide AppPreRun;
    hide AccountPreRun;
    hide CredentialPreRun;
    hide RolePreRun;
  }

  lemma RunSteps(f: Flags, skip: set<string>, x: Step)
    ensures var ps := CreatePhases(f);
            && Then(x, ps[0], skip, false) == Unless(x, APP_PHASE, skip, AppRun(f, x.0))
            && Then(x, ps[1], skip, false) == Unless(x, ACCOUNT_PHASE, skip, AccountRun(f, x.0))
            && Then(x, ps[2], skip, false) == Unless(x, CREDENTIAL_PHASE, skip, CredentialRun(f, x.0))
            && Then(x, ps[3], skip, false) == Unless(x, ROLE_PHASE, skip, RoleRun(f, x.0))
  {
    hide AppRun;
    hide AccountRun;
    hide CredentialRun;
    hide RoleRun;
  }

  // ---------------------------------------------------------------------------------------
  // Pre-runs

  predicate RolePreFeasible(f: Flags, w: World) {
    && f.azureScope != "" && f.azureRole != ""
    && (ServicePrincipalName(f) != "" || f.servicePrincipalObjectID != "" || FirstPrincipal(w.principals, "").Some?)
  }

  lemma AccountPreWorks(f: Flags, skip: set<string>, w: World, p: Progress, s: Session)
    requires Works(f, skip, w, p, s)
    ensures var (s', err) := AccountPreRun(f, s);
            && Works(f, skip, w, p, s') && s'.world == s.world
            && (s.faults == [] ==> s'.faults == []
                                   && (err == None <==> f.serviceAccountNamespace != "" && f.serviceAccountName != ""
                                                        && AcceptedLifetime(f.tokenExpiration)))
  {
    CalledWorks(f, skip, w, p, s);
    hide Works;
  }

  lemma RolePreWorks(f: Flags, skip: set<string>, w: World, p: Progress, s: Session)
    requires Works(f, skip, w, p, s) && (APP_PHASE !in skip ==> AADApplicationName(f) != "")
    ensures var (s', err) := RolePreRun(f, s);
            && Works(f, skip, w, p, s') && s'.world == s.world
            && (s.faults == [] ==> s'.faults == [] && (err == None <==> RolePreFeasible(f, w)))
  {
    assert ServicePrincipalName(f) == "" ==> AADApplicationName(f) == "";
    hide Works;
    hide PrincipalID;
    hide ServicePrincipalName;
    hide AADApplicationName;
    hide ServicePrincipalObjectID;
    hide FirstPrincipal;
    if ServicePrincipalName(f) == "" {
      LookupPrincipalID(f, skip, w, p, s);
      EmptyName(f, skip, w, p, s);
    }
  }

  /** Without any name, the principal is one given by its ID or one of an empty name. */
  lemma EmptyName(f: Flags, skip: set<string>, w: World, p: Progress, s: Session)
    requires Works(f, skip, w, p, s) && APP_PHASE in skip && ServicePrincipalName(f) == ""
    ensures PrincipalID(f, w, p) != "" <==> f.servicePrincipalObjectID != "" || FirstPrincipal(w.principals, "").Some?
  {
    if FirstPrincipal(w.principals, "").Some? { FirstPrincipalIn(w.principals, ""); }
  }

  /** The flags of the first n phases, as far as not skipped, are complete and within bounds. */
  predicate PreFeasibleUpTo(f: Flags, skip: set<string>, w: World, n: nat) {
    && (n >= 1 && APP_PHASE !in skip ==> AADApplicationName(f) != "")
    && (n >= 2 && ACCOUNT_PHASE !in skip ==>
          f.serviceAccountNamespace != "" && f.serviceAccountName != "" && AcceptedLifetime(f.tokenExpiration))
    && (n >= 3 && CREDENTIAL_PHASE !in skip ==>
          f.serviceAccountNamespace != "" && f.serviceAccountName != "" && f.issuerURL != "")
    && (n >= 4 && ROLE_PHASE !in skip ==> RolePreFeasible(f, w))
  }

  /** The first n pre-runs leave the world alone; undisturbed, they succeed if the flags are right. */
  ghost predicate PreDone(f: Flags, skip: set<string>, w: World, p: Progress, b: World, n: nat, undisturbed: bool,
                          x: Step) {
    && Works(f, skip, w, p, x.0) && x.0.world == b
    && (x.1 == None && n >= 1 && APP_PHASE !in skip ==> AADApplicationName(f) != "")
    && (undisturbed ==> x.0.faults == [] && (x.1 == None <==> PreFeasibleUpTo(f, skip, w, n)))
  }

  lemma AppPreStage(f: Flags, skip: set<string>, w: World, p: Progress, b: World, undisturbed: bool, x: Step)
    requires PreDone(f, skip, w, p, b, 0, undisturbed, x)
    ensures PreDone(f, skip, w, p, b, 1, undisturbed, Unless(x, APP_PHASE, skip, AppPreRun(f, x.0)))
  {
    hide Works;
    hide AADApplicationName;
  }

  lemma AccountPreStage(f: Flags, skip: set<string>, w: World, p: Progress, b: World, undisturbed: bool, x: Step)
    requires PreDone(f, skip, w, p, b, 1, undisturbed, x)
    ensures PreDone(f, skip, w, p, b, 2, undisturbed, Unless(x, ACCOUNT_PHASE, skip, AccountPreRun(f, x.0)))
  {
    AccountPreWorks(f, skip, w, p, x.0);
    hide Works;
    hide AADApplicationName;
    hide AccountPreRun;
  }

  lemma CredentialPreStage(f: Flags, skip: set<string>, w: World, p: Progress, b: World, undisturbed: bool, x: Step)
    requires PreDone(f, skip, w, p, b, 2, undisturbed, x)
    ensures PreDone(f, skip, w, p, b, 3, undisturbed, Unless(x, CREDENTIAL_PHASE, skip, CredentialPreRun(f, x.0)))
  {
    hide Works;
    hide AADApplicationName;
  }

  lemma RolePreStage(f: Flags, skip: set<string>, w: World, p: Progress, b: World, undisturbed: bool, x: Step)
    requires PreDone(f, skip, w, p, b, 3, undisturbed, x)
    ensures PreDone(f, skip, w, p, b, 4, undisturbed, Unless(x, ROLE_PHASE, skip, RolePreRun(f, x.0)))
  {
    if x.1.None? { RolePreWorks(f, skip, w, p, x.0); }
    hide Works;
    hide AADApplicationName;
    hide RolePreRun;
    hide RolePreFeasible;
  }

  lemma PreRunsWork(f: Flags, skip: set<string>, w: World, p: Progress, s: Session)
    requires Works(f, skip, w, p, s)
    ensures var ps := CreatePhases(f);
            PreDone(f, skip, w, p, s.world, 4, s.faults == [],
                    ThenAll((s, None), ps, skip, true))
  {
    hide Works;
    hide PreDone;
    hide Then;
    hide Unless;
    hide CreatePhases;
    var start: Step, undisturbed := (s, None), s.faults == [];
    PreStart(f, skip, w, p, s);
    PreSteps(f, skip, start);
    AppPreStage(f, skip, w, p, s.world, undisturbed, start);
    var a := Unless(start, APP_PHASE, skip, AppPreRun(f, s));
    PreSteps(f, skip, a);
    AccountPreStage(f, skip, w, p, s.world, undisturbed, a);
    var b := Unless(a, ACCOUNT_PHASE, skip, AccountPreRun(f, a.0));
    PreSteps(f, skip, b);
    CredentialPreStage(f, skip, w, p, s.world, undisturbed, b);
    var c := Unless(b, CREDENTIAL_PHASE, skip, CredentialPreRun(f, b.0));
    PreSteps(f, skip, c);
    RolePreStage(f, skip, w, p, s.world, undisturbed, c);
  }

  lemma PreStart(f: Flags, skip: set<string>, w: World, p: Progress, s: Session)
    requires Works(f, skip, w, p, s)
    ensures PreDone(f, skip, w, p, s.world, 0, s.faults == [], (s, None))
  {
  }

  // ---------------------------------------------------------------------------------------
  // Runs

  predicate CredentialPossible(f: Flags, skip: set<string>, w: World) {
    if f.aadApplicationObjectID != "" then AppByID(w.apps, f.aadApplicationObjectID).Some?
    else FirstApp(w.apps, AADApplicationName(f)).Some? || APP_PHASE !in skip
  }

  lemma PossibleIsFeasible(f: Flags, skip: set<string>, w: World, p: Progress)
    requires Valid(w) && FlagsKnown(f, w) && Sane(f, w, p) && Allowed(skip, p)
    requires APP_PHASE !in skip ==> AppSettled(f, w, p)
    ensures CredentialFeasible(f, w, p) <==> CredentialPossible(f, skip, w)
  {
    var id := ObjectID(f, w, p);
    if p.app.Some? {
      LongIDsAreUnknown(w.apps, p.app.value.0, w.issued);
      AppByIDAppend(w.apps, NewApp(f, p.app.value), id);
    } else {
      assert Apps(f, w, p) == w.apps;
      EmptyIDIsUnknown(w.apps);
      if FirstApp(w.apps, AADApplicationName(f)).Some? { FirstAppByIDs(w.apps, AADApplicationName(f)); }
    }
  }

  lemma WorksPossible(f: Flags, skip: set<string>, w: World, p: Progress, s: Session)
    requires Works(f, skip, w, p, s) && (APP_PHASE !in skip ==> AppSettled(f, w, p))
    ensures CredentialFeasible(f, w, p) <==> CredentialPossible(f, skip, w)
  {
    PossibleIsFeasible(f, skip, w, p);
  }

  /** What was settled stays settled while later phases add their part. */
  lemma SettledStays(f: Flags, w: World, p: Progress, q: Progress)
    requires q == p.(account := q.account, credential := q.credential, role := q.role)
    ensures AppSettled(f, w, q) == AppSettled(f, w, p)
    ensures q.account == p.account ==> AccountSettled(f, w, q) == AccountSettled(f, w, p)
    ensures q.credential == p.credential ==> CredentialSettled(f, w, q) == CredentialSettled(f, w, p)
  {
    assert Apps(f, w, p) == Apps(f, w, q) && ObjectID(f, w, p) == ObjectID(f, w, q)
        && ClientID(f, w, p) == ClientID(f, w, q);
  }

  /** What the first n phases need from the world. */
  predicate RunFeasibleUpTo(f: Flags, skip: set<string>, w: World, n: nat) {
    && (n >= 1 && APP_PHASE !in skip ==> AppFeasible(f, w))
    && (n >= 3 && CREDENTIAL_PHASE !in skip ==> CredentialPossible(f, skip, w))
    && (n >= 4 && ROLE_PHASE !in skip ==> f.azureRole in w.roles)
  }

  /** Everything that the first n phases are to add has been added. */
  predicate SettledUpTo(f: Flags, skip: set<string>, w: World, p: Progress, n: nat) {
    && (n >= 1 && APP_PHASE !in skip ==> AppSettled(f, w, p))
    && (n >= 2 && ACCOUNT_PHASE !in skip ==> AccountSettled(f, w, p))
    && (n >= 3 && CREDENTIAL_PHASE !in skip ==> CredentialSettled(f, w, p))
    && (n >= 4 && ROLE_PHASE !in skip ==> RoleSettled(f, w, p))
  }

  /** After the first n runs some progress has been made; undisturbed, all that was to be made. */
  ghost predicate RunDone(f: Flags, skip: set<string>, w: World, p: Progress, n: nat, undisturbed: bool, x: Step) {
    && Works(f, skip, w, p, x.0)
    && (undisturbed ==> x.0.faults == [] && (x.1 == None <==> RunFeasibleUpTo(f, skip, w, n)))
    && (undisturbed && x.1 == None ==> SettledUpTo(f, skip, w, p, n))
  }

  lemma AppStage(f: Flags, skip: set<string>, w: World, p: Progress, undisturbed: bool, x: Step) returns (q: Progress)
    requires RunDone(f, skip, w, p, 0, undisturbed, x)
    ensures RunDone(f, skip, w, q, 1, undisturbed, Unless(x, APP_PHASE, skip, AppRun(f, x.0)))
  {
    q := p;
    if x.1.None? && APP_PHASE !in skip { q := AppRunWorks(f, skip, w, p, x.0); }
    hide Works;
    hide AppRun;
    hide AppFeasible;
    hide AppSettled;
  }

  lemma AccountStage(f: Flags, skip: set<string>, w: World, p: Progress, undisturbed: bool, x: Step)
      returns (q: Progress)
    requires RunDone(f, skip, w, p, 1, undisturbed, x)
    ensures RunDone(f, skip, w, q, 2, undisturbed, Unless(x, ACCOUNT_PHASE, skip, AccountRun(f, x.0)))
  {
    hide Works;
    hide AccountRun;
    hide AppFeasible;
    hide AppSettled;
    hide AccountSettled;
    q := p;
    if x.1.None? && ACCOUNT_PHASE !in skip { q := AccountRunWorks(f, skip, w, p, x.0); }
    SettledStays(f, w, p, q);
  }

  lemma CredentialStage(f: Flags, skip: set<string>, w: World, p: Progress, undisturbed: bool, x: Step)
      returns (q: Progress)
    requires RunDone(f, skip, w, p, 2, undisturbed, x)
    ensures RunDone(f, skip, w, q, 3, undisturbed, Unless(x, CREDENTIAL_PHASE, skip, CredentialRun(f, x.0)))
  {
    hide Works;
    hide CredentialRun;
    hide AppFeasible;
    hide AppSettled;
    hide AccountSettled;
    hide CredentialSettled;
    hide CredentialFeasible;
    hide CredentialPossible;
    q := p;
    if x.1.None? && CREDENTIAL_PHASE !in skip {
      q := CredentialRunWorks(f, skip, w, p, x.0);
      if undisturbed { WorksPossible(f, skip, w, p, x.0); }
    }
    SettledStays(f, w, p, q);
  }

  lemma RoleStage(f: Flags, skip: set<string>, w: World, p: Progress, undisturbed: bool, x: Step) returns (q: Progress)
    requires RunDone(f, skip, w, p, 3, undisturbed, x)
    ensures RunDone(f, skip, w, q, 4, undisturbed, Unless(x, ROLE_PHASE, skip, RoleRun(f, x.0)))
  {
    hide Works;
    hide RoleRun;
    hide AppFeasible;
    hide AppSettled;
    hide AccountSettled;
    hide CredentialSettled;
    hide CredentialPossible;
    hide RoleSettled;
    q := p;
    if x.1.None? && ROLE_PHASE !in skip { q := RoleRunWorks(f, skip, w, p, x.0); }
    SettledStays(f, w, p, q);
  }

  lemma RunStart(f: Flags, skip: set<string>, w: World, p: Progress, s: Session)
    requires Works(f, skip, w, p, s)
    ensures RunDone(f, skip, w, p, 0, s.faults == [], (s, None))
  {
  }

  lemma RunsWork(f: Flags, skip: set<string>, w: World, p: Progress, s: Session) returns (q: Progress)
    requires Works(f, skip, w, p, s)
    ensures var ps := CreatePhases(f);
            RunDone(f, skip, w, q, 4, s.faults == [],
                    ThenAll((s, None), ps, skip, false))
  {
    hide Works;
    hide RunDone;
    hide Then;
    hide Unless;
    hide CreatePhases;
    var start: Step, undisturbed := (s, None), s.faults == [];
    RunStart(f, skip, w, p, s);
    RunSteps(f, skip, start);
    q := AppStage(f, skip, w, p, undisturbed, start);
    var a := Unless(start, APP_PHASE, skip, AppRun(f, s));
    RunSteps(f, skip, a);
    q := AccountStage(f, skip, w, q, undisturbed, a);
    var b := Unless(a, ACCOUNT_PHASE, skip, AccountRun(f, a.0));
    RunSteps(f, skip, b);
    q := CredentialStage(f, skip, w, q, undisturbed, b);
    var c := Unless(b, CREDENTIAL_PHASE, skip, CredentialRun(f, b.0));
    RunSteps(f, skip, c);
    q := RoleStage(f, skip, w, q, undisturbed, c);
  }

  // ---------------------------------------------------------------------------------------
  // Histories

  predicate KnownSkips(skips: seq<string>) {
    forall s :: s in skips ==> s in [APP_PHASE, ACCOUNT_PHASE, CREDENTIAL_PHASE, ROLE_PHASE]
  }

  /** When an undisturbed run succeeds: it depends on the flags and the original world only. */
  predicate Feasible(f: Flags, skips: seq<string>, w: World) {
    KnownSkips(skips) && PreFeasibleUpTo(f, ToSet(skips), w, 4) && RunFeasibleUpTo(f, ToSet(skips), w, 4)
  }

  lemma CreateRuns(f: Flags, skips: seq<string>, s: Session)
    requires KnownSkips(skips)
    ensures var ps, skip := CreatePhases(f), ToSet(skips);
            var pre := ThenAll((s, None), ps, skip, true);
            var run := ThenAll((pre.0, None), ps, skip, false);
            var o := RunPhases(ps, skips, s);
            if pre.1.Some? then o.err.Some? && o.data == pre.0
            else (o.err.Some? <==> run.1.Some?) && o.data == run.0
  {
    hide Then;
    hide RunPhases;
    var ps := CreatePhases(f);
    assert ps == [ps[0], ps[1], ps[2], ps[3]];
    RunOfFour(ps[0], ps[1], ps[2], ps[3], skips, s);
  }

  lemma UnknownSkips(f: Flags, skips: seq<string>, s: Session)
    requires !KnownSkips(skips)
    ensures RunPhases(CreatePhases(f), skips, s).err.Some? && RunPhases(CreatePhases(f), skips, s).data == s
  {
    hide RunPhases;
    assert Names(CreatePhases(f)) == [APP_PHASE, ACCOUNT_PHASE, CREDENTIAL_PHASE, ROLE_PHASE];
    UnknownSkipFails(CreatePhases(f), skips, s);
  }

  lemma CreateWorks(f: Flags, skips: seq<string>, w: World, p: Progress, b: World, faults: seq<Fault>)
      returns (q: Progress)
    requires Works(f, ToSet(skips), w, p, Session(b, None, None, faults))
    ensures var o := Create(f, skips, b, faults);
            && Works(f, ToSet(skips), w, q, o.data)
            && (faults == [] ==> (o.err == None <==> Feasible(f, skips, w)))
            && (faults == [] && o.err == None ==> SettledUpTo(f, ToSet(skips), w, q, 4))
  {
    hide Works;
    hide Then;
    hide RunPhases;
    assert |CreatePhases(f)| == 4;
    hide CreatePhases;
    hide KnownSkips;
    hide PreFeasibleUpTo;
    hide RunFeasibleUpTo;
    hide SettledUpTo;
    var skip, s, ps := ToSet(skips), Session(b, None, None, faults), CreatePhases(f);
    q := p;
    if KnownSkips(skips) {
      CreateRuns(f, skips, s);
      PreRunsWork(f, skip, w, p, s);
      var start: Step := (s, None);
      var pre := ThenAll(start, ps, skip, true);
      if pre.1.None? { q := RunsWork(f, skip, w, p, pre.0); }
    } else {
      UnknownSkips(f, skips, s);
    }
  }

  /** The world after runs of the command with the same flags, each under faults of its own. */
  function AfterRuns(f: Flags, skips: seq<string>, w: World, runs: seq<seq<Fault>>): World {
    if runs == [] then w
    else
      var last := |runs| - 1;
      Create(f, skips, AfterRuns(f, skips, w, runs[..last]), runs[last]).data.world
  }

  lemma NothingBuilt(f: Flags, skip: set<string>, w: World, faults: seq<Fault>)
    requires Valid(w) && NameServes(f, w) && FlagsKnown(f, w) && Honest(faults)
    ensures Works(f, skip, w, NOTHING, Session(w, None, None, faults))
  {
    assert Build(f, w, NOTHING, w.issued) == w;
  }

  /** A later run starts from what an earlier one left, with empty caches. */
  lemma Restart(f: Flags, skip: set<string>, w: World, p: Progress, s: Session, faults: seq<Fault>)
    requires Works(f, skip, w, p, s) && Honest(faults)
    ensures Works(f, skip, w, p, Session(s.world, None, None, faults))
  {
  }

  lemma {:induction false} HistoryWorks(f: Flags, skips: seq<string>, w: World, runs: seq<seq<Fault>>)
      returns (p: Progress)
    requires Valid(w) && NameServes(f, w) && FlagsKnown(f, w)
    requires forall i :: 0 <= i < |runs| ==> Honest(runs[i])
    ensures Works(f, ToSet(skips), w, p, Session(AfterRuns(f, skips, w, runs), None, None, []))
    decreases |runs|
  {
    hide Works;
    hide Valid;
    hide NameServes;
    hide FlagsKnown;
    hide Create;
    if runs == [] {
      p := NOTHING;
      NothingBuilt(f, ToSet(skips), w, []);
    } else {
      var last := |runs| - 1;
      p := HistoryWorks(f, skips, w, runs[..last]);
      var b := AfterRuns(f, skips, w, runs[..last]);
      Restart(f, ToSet(skips), w, p, Session(b, None, None, []), runs[last]);
      p := CreateWorks(f, skips, w, p, b, runs[last]);
      Restart(f, ToSet(skips), w, p, Create(f, skips, b, runs[last]).data, []);
    }
  }

  /** The same kinds of objects were added; the account differs at most in the client ID of a
      new application. */
  predicate SameButIDs(f: Flags, w: World, p: Progress, q: Progress) {
    && (p.app.Some? <==> q.app.Some?)
    && (p.sp.Some? <==> q.sp.Some?)
    && (p.credential.Some? <==> q.credential.Some?)
    && (p.role.Some? <==> q.role.Some?)
    && (p.account.Some? <==> q.account.Some?)
    && (p.account.Some? ==> p.account.value == DesiredAccount(f, ClientID(f, w, p)))
    && (q.account.Some? ==> q.account.value == DesiredAccount(f, ClientID(f, w, q)))
  }

  /** Whether the credential is missing does not depend on the IDs of a new application. */
  lemma MissingCredentialByKind(f: Flags, w: World, p: Progress)
    requires Valid(w) && FlagsKnown(f, w) && Sane(f, w, p)
    ensures CredentialMissing(f, w, p) <==>
              if f.aadApplicationObjectID == "" && p.app.Some? then true
              else CredentialMissing(f, w, NOTHING)
  {
    assert Apps(f, w, NOTHING) == w.apps;
    if p.app.Some? {
      LongIDsAreUnknown(w.apps, p.app.value.0, w.issued);
      AppByIDAppend(w.apps, NewApp(f, p.app.value), ObjectID(f, w, p));
      EmptyIDIsUnknown(w.apps);
    }
  }

  lemma MissingRoleByKind(f: Flags, w: World, p: Progress)
    requires Valid(w) && FlagsKnown(f, w) && Sane(f, w, p)
    ensures RoleMissing(f, w, p) <==>
              if f.servicePrincipalObjectID == "" && p.sp.Some? then f.azureRole in w.roles
              else RoleMissing(f, w, NOTHING)
  {
    assert Principals(f, w, NOTHING) == w.principals;
    if p.sp.Some? {
      var n := |w.principals|;
      var added := Principals(f, w, p);
      assert added[n].objectID == p.sp.value && forall i :: 0 <= i < n ==> added[i] == w.principals[i];
    }
  }

  lemma SettledTwice(f: Flags, skip: set<string>, w: World, p: Progress, q: Progress)
    requires Valid(w) && FlagsKnown(f, w)
    requires Sane(f, w, p) && Allowed(skip, p) && SettledUpTo(f, skip, w, p, 4)
    requires Sane(f, w, q) && Allowed(skip, q) && SettledUpTo(f, skip, w, q, 4)
    ensures SameButIDs(f, w, p, q)
  {
    MissingCredentialByKind(f, w, p);
    MissingCredentialByKind(f, w, q);
    MissingRoleByKind(f, w, p);
    MissingRoleByKind(f, w, q);
    hide RoleMissing;
    hide CredentialMissing;
    hide AADApplicationName;
    hide DesiredAccount;
    hide ClientID;
    hide FirstApp;
    hide FirstPrincipal;
    hide Valid;
  }

  /** Create converges.  After any number of runs, each disturbed at any of its remote calls, one
      undisturbed run succeeds exactly if it would have succeeded at first, which depends on the
      flags and on the original world only; and then it leads to the original world with the same
      kinds of objects added, each of which was missing and has a fresh ID. */
  lemma CreateConverges(f: Flags, skips: seq<string>, w: World, runs: seq<seq<Fault>>)
      returns (p: Progress, q: Progress)
    requires Valid(w) && NameServes(f, w) && FlagsKnown(f, w)
    requires forall i :: 0 <= i < |runs| ==> Honest(runs[i])
    ensures var once, last := Create(f, skips, w, []), Create(f, skips, AfterRuns(f, skips, w, runs), []);
            && (once.err == None <==> Feasible(f, skips, w))
            && (last.err == None <==> Feasible(f, skips, w))
            && (Feasible(f, skips, w) ==>
                  && once.data.world == Build(f, w, p, once.data.world.issued)
                  && last.data.world == Build(f, w, q, last.data.world.issued)
                  && Sane(f, w, p) && Sane(f, w, q) && SameButIDs(f, w, p, q))
  {
    hide Create;
    hide Feasible;
    hide SettledUpTo;
    hide Sane;
    hide Build;
    NothingBuilt(f, ToSet(skips), w, []);
    p := CreateWorks(f, skips, w, NOTHING, w, []);
    q := HistoryWorks(f, skips, w, runs);
    q := CreateWorks(f, skips, w, q, AfterRuns(f, skips, w, runs), []);
    if Feasible(f, skips, w) { SettledTwice(f, ToSet(skips), w, p, q); }
  }
}
