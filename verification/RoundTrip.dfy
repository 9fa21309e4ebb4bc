/** Create and then delete: when the original world comes back. */
module RoundTrip {
  import opened Common
  import opened Cloud
  import opened Directory
  import opened CreateConvergence
  import C = CreateCommand
  import D = DeleteCommand
  import CT = CreateTheorem
  import DT = DeleteTheorem
  import Workflow

  /** The delete that matches a create: same account and issuer, same application name or none. */
  function Matching(f: C.Flags, roleAssignmentID: string): D.Flags {
    D.Flags(f.serviceAccountName, f.serviceAccountNamespace, f.issuerURL, f.aadApplicationName, "", roleAssignmentID,
            f.hash)
  }

  /** Nothing that was there before is deleted or left changed: there was no application and no
      account of those names, and if the credential goes to an application given by its ID, that one
      has a credential of the name already. */
  predicate Restorable(f: C.Flags, w: World) {
    && FirstApp(w.apps, C.AADApplicationName(f)).None?
    && C.AccountKey(f) !in w.accounts
    && (f.aadApplicationObjectID != "" ==>
          var owner := AppByID(w.apps, f.aadApplicationObjectID);
          owner.Some? ==> HasCredentialNamed(owner.value, C.DesiredCredential(f).name))
  }

  /** Create adds a role assignment, whose ID delete can be given. */
  predicate RoleIsNew(f: C.Flags, w: World) {
    || (f.servicePrincipalObjectID == "" && FirstPrincipal(w.principals, C.ServicePrincipalName(f)).None?)
    || RoleMissing(f, w, NOTHING)
  }

  // ---------------------------------------------------------------------------------------
  // Lists

  lemma {:induction false} WithoutNewApp(apps: seq<Application>, x: Application)
    requires AppByID(apps, x.objectID).None?
    ensures WithoutApp(apps + [x], x.objectID) == apps
  {
    if apps == [] {
      assert apps + [x] == [x] && [x][1..] == [];
    } else {
      assert (apps + [x])[1..] == apps[1..] + [x];
      WithoutNewApp(apps[1..], x);
    }
  }

  lemma {:induction false} WithoutNewPrincipals(ps: seq<ServicePrincipal>, added: seq<ServicePrincipal>, appID: string)
    requires !HasPrincipalFor(ps, appID) && forall i :: 0 <= i < |added| ==> added[i].appID == appID
    ensures WithoutPrincipalsFor(ps + added, appID) == ps
    decreases |ps| + |added|
  {
    if ps != [] {
      assert (ps + added)[1..] == ps[1..] + added && ps[0].appID != appID;
      assert forall i :: 0 <= i < |ps[1..]| ==> ps[1..][i] == ps[i + 1];
      WithoutNewPrincipals(ps[1..], added, appID);
    } else {
      assert ps + added == added;
      if added != [] {
        assert forall i :: 0 <= i < |added[1..]| ==> added[1..][i] == added[i + 1];
        WithoutNewPrincipals([], added[1..], appID);
        assert [] + added[1..] == added[1..];
      }
    }
  }

  lemma {:induction false} WithoutNewAssignment(assignments: seq<RoleAssignment>, x: RoleAssignment)
    requires !HasAssignmentID(assignments, x.id)
    ensures WithoutAssignment(assignments + [x], x.id) == assignments
  {
    if assignments == [] {
      assert assignments + [x] == [x] && [x][1..] == [];
    } else {
      assert (assignments + [x])[1..] == assignments[1..] + [x];
      assert assignments[0].id != x.id;
      assert forall i :: 0 <= i < |assignments[1..]| ==> assignments[1..][i] == assignments[i + 1];
      WithoutNewAssignment(assignments[1..], x);
    }
  }

  // ---------------------------------------------------------------------------------------
  // What delete leaves of the built world

  lemma AssignmentDeleted(f: C.Flags, w: World, p: Progress)
    requires Valid(w) && Sane(f, w, p) && p.role.Some? && f.azureRole in w.roles
    ensures WithoutAssignment(Assignments(f, w, p), p.role.value) == w.assignments
  {
    WithoutNewAssignment(w.assignments,
                         RoleAssignment(p.role.value, f.azureScope, w.roles[f.azureRole], PrincipalID(f, w, p)));
  }

  lemma PrincipalsDeleted(f: C.Flags, w: World, p: Progress)
    requires Valid(w) && Sane(f, w, p) && p.app.Some?
    ensures WithoutPrincipalsFor(Principals(f, w, p), p.app.value.1) == w.principals
  {
    FreshAppHasNoPrincipal(w, p.app.value.1);
    var added := if p.sp.Some? then [ServicePrincipal(p.sp.value, p.app.value.1, C.AADApplicationName(f))] else [];
    assert Principals(f, w, p) == w.principals + added;
    WithoutNewPrincipals(w.principals, added, p.app.value.1);
  }

  /** Without a credential in an application that was there before, the applications come back. */
  lemma AppsDeleted(f: C.Flags, w: World, p: Progress)
    requires Valid(w) && Sane(f, w, p) && p.app.Some? && (p.credential.Some? ==> f.aadApplicationObjectID == "")
    ensures WithoutApp(AppsWithCredential(f, w, p), p.app.value.0) == w.apps
  {
    var id := p.app.value.0;
    LongIDsAreUnknown(w.apps, id, w.issued);
    WithoutNewApp(w.apps, NewApp(f, p.app.value));
    if p.credential.Some? {
      var owner := AppByID(Apps(f, w, p), id);
      DT.WithoutChangedApp(Apps(f, w, p), id,
                           owner.value.credentials + [C.DesiredCredential(f).(id := p.credential.value)]);
    }
  }

  /** A credential in another application stays there. */
  lemma CredentialLeft(f: C.Flags, w: World, p: Progress)
    requires Valid(w) && FlagsKnown(f, w) && Sane(f, w, p) && p.app.Some? && p.credential.Some?
    requires f.aadApplicationObjectID != ""
    ensures WithoutApp(AppsWithCredential(f, w, p), p.app.value.0) != w.apps
  {
    var id, other := p.app.value.0, f.aadApplicationObjectID;
    AppByIDAppend(w.apps, NewApp(f, p.app.value), other);
    var owner := AppByID(w.apps, other).value;
    var cs := owner.credentials + [C.DesiredCredential(f).(id := p.credential.value)];
    AppByIDWithCredentials(Apps(f, w, p), other, cs, other);
    DT.AppIsGone(AppsWithCredential(f, w, p), id, other);
    assert |cs| != |owner.credentials|;
  }

  /** An application that was there before is gone. */
  lemma OldAppDeleted(f: C.Flags, w: World, p: Progress, app: Application)
    requires Valid(w) && FirstApp(w.apps, C.AADApplicationName(f)).Some?
    requires FirstApp(w.apps, C.AADApplicationName(f)).value.objectID == app.objectID
    ensures WithoutApp(AppsWithCredential(f, w, p), app.objectID) != w.apps
  {
    FirstAppByIDs(w.apps, C.AADApplicationName(f));
    DT.AppIsGone(AppsWithCredential(f, w, p), app.objectID, app.objectID);
  }

  /** The optimised delete of everything. */
  predicate OnlyCredentialSkipped(skip: set<string>) {
    D.CREDENTIAL_PHASE in skip && D.ROLE_PHASE !in skip && D.ACCOUNT_PHASE !in skip && D.APP_PHASE !in skip
  }

  /** The delete finds the command's application. */
  lemma DeleteFinds(f: C.Flags, w: World, p: Progress, issued: nat, skip: set<string>, app: Application)
    requires p.role.Some? && OnlyCredentialSkipped(skip)
    requires FirstApp(AppsWithCredential(f, w, p), C.AADApplicationName(f)) == Some(app)
    requires AppByID(AppsWithCredential(f, w, p), app.objectID) == Some(app)
    ensures var d, b := Matching(f, p.role.value), Build(f, w, p, issued);
            && DT.Target(d, b) == app.objectID && DT.Possible(d, skip, b, 4)
            && DT.After(d, skip, b, 4)
               == b.(assignments := WithoutAssignment(b.assignments, p.role.value),
                     accounts := b.accounts - {C.AccountKey(f)},
                     apps := WithoutApp(b.apps, app.objectID),
                     principals := WithoutPrincipalsFor(b.principals, app.appID))
  {
    hide AppsWithCredential;
    hide Principals;
    hide Assignments;
    hide Accounts;
    hide FirstApp;
    hide AppByID;
    hide WithoutApp;
    hide WithoutAssignment;
    hide WithoutPrincipalsFor;
    hide DT.Unwanted;
    hide DT.AppsWithout;
  }

  /** Which parts of the world come back. */
  lemma PartsRestored(f: C.Flags, w: World, p: Progress, app: Application)
    requires Valid(w) && FlagsKnown(f, w) && Sane(f, w, p) && p.role.Some? && p.account.Some? && f.azureRole in w.roles
    requires AppSettled(f, w, p) && CredentialSettled(f, w, p)
    requires AppIdentity(f, w, p) == Some((app.objectID, app.appID))
    ensures WithoutAssignment(Assignments(f, w, p), p.role.value) == w.assignments
    ensures Restorable(f, w) <==>
              && WithoutApp(AppsWithCredential(f, w, p), app.objectID) == w.apps
              && Accounts(f, w, p) - {C.AccountKey(f)} == w.accounts
    ensures Restorable(f, w) ==> WithoutPrincipalsFor(Principals(f, w, p), app.appID) == w.principals
  {
    AssignmentDeleted(f, w, p);
    AccountRestored(f, w, p);
    if p.app.None? {
      OldAppDeleted(f, w, p, app);
    } else {
      PrincipalsDeleted(f, w, p);
      CredentialLeftWhere(f, w, p);
      if p.credential.Some? && f.aadApplicationObjectID != "" {
        CredentialLeft(f, w, p);
      } else {
        AppsDeleted(f, w, p);
      }
    }
    hide Valid;
    hide Sane;
    hide AppsWithCredential;
    hide CredentialMissing;
    hide HasCredentialNamed;
    hide Principals;
    hide Assignments;
    hide Accounts;
  }

  lemma AccountRestored(f: C.Flags, w: World, p: Progress)
    requires p.account.Some?
    ensures Accounts(f, w, p) - {C.AccountKey(f)} == w.accounts <==> C.AccountKey(f) !in w.accounts
  {
    var left := Accounts(f, w, p) - {C.AccountKey(f)};
    assert C.AccountKey(f) !in left;
    if C.AccountKey(f) !in w.accounts { assert left == w.accounts; }
  }

  /** Where the application is new, a credential is left in another one exactly if that one was given
      and had none of the name. */
  lemma CredentialLeftWhere(f: C.Flags, w: World, p: Progress)
    requires Valid(w) && FlagsKnown(f, w) && Sane(f, w, p) && p.app.Some? && CredentialSettled(f, w, p)
    ensures f.aadApplicationObjectID != "" ==>
              var owner := AppByID(w.apps, f.aadApplicationObjectID);
              p.credential.Some? <==> owner.Some? && !HasCredentialNamed(owner.value, C.DesiredCredential(f).name)
  {
    CT.MissingCredentialByKind(f, w, p);
    assert Apps(f, w, NOTHING) == w.apps;
  }

  // ---------------------------------------------------------------------------------------
  // The commands

  /** What a successful create has added, and what its flags were. */
  lemma CreatedAll(f: C.Flags, w: World, q: Progress)
    requires Valid(w) && FlagsKnown(f, w) && Sane(f, w, q) && RoleIsNew(f, w)
    requires CT.Feasible(f, [], w) && CT.SettledUpTo(f, {}, w, q, 4)
    ensures q.role.Some? && q.account.Some? && f.azureRole in w.roles && AppIdentity(f, w, q).Some?
    ensures AppSettled(f, w, q) && CredentialSettled(f, w, q)
    ensures f.serviceAccountNamespace != "" && f.serviceAccountName != "" && C.AADApplicationName(f) != ""
  {
    CT.MissingRoleByKind(f, w, q);
    assert Workflow.ToSet([]) == {};
    hide RoleMissing;
    hide CredentialMissing;
    hide CT.CredentialPossible;
    hide Valid;
    hide Sane;
    hide C.AADApplicationName;
  }

  /** The matching delete in the built world. */
  lemma DeleteOfBuilt(f: C.Flags, w: World, q: Progress, created: World, app: Application)
    requires q.role.Some? && q.role.value != ""
    requires f.serviceAccountNamespace != "" && f.serviceAccountName != "" && C.AADApplicationName(f) != ""
    requires FirstApp(AppsWithCredential(f, w, q), C.AADApplicationName(f)) == Some(app)
    requires AppByID(AppsWithCredential(f, w, q), app.objectID) == Some(app)
    requires created == Build(f, w, q, created.issued)
    ensures var o := D.Delete(Matching(f, q.role.value), [], created, []);
            && o.err == None
            && o.data.world == created.(assignments := WithoutAssignment(created.assignments, q.role.value),
                                        accounts := created.accounts - {C.AccountKey(f)},
                                        apps := WithoutApp(created.apps, app.objectID),
                                        principals := WithoutPrincipalsFor(created.principals, app.appID))
  {
    var d, skips := Matching(f, q.role.value), D.EffectiveSkips([]);
    var skip := Workflow.ToSet(skips);
    EffectiveSkip();
    DeleteFinds(f, w, q, created.issued, skip, app);
    DT.PlainDeleteMeaning(d, skips, created);
    assert D.AADApplicationName(d) == C.AADApplicationName(f);
    hide D.PlainDelete;
    hide D.EffectiveSkips;
    hide D.AADApplicationName;
    hide C.AADApplicationName;
    hide Build;
    hide FirstApp;
    hide AppByID;
    hide WithoutApp;
    hide WithoutAssignment;
    hide WithoutPrincipalsFor;
    hide DT.Target;
    hide DT.After;
    hide DT.Possible;
  }

  lemma EffectiveSkip()
    ensures OnlyCredentialSkipped(Workflow.ToSet(D.EffectiveSkips([]))) && DT.KnownSkips(D.EffectiveSkips([]))
  {
    DT.KnownEffectiveSkips([]);
    assert D.ROLE_PHASE != D.CREDENTIAL_PHASE && |D.ACCOUNT_PHASE| != |D.CREDENTIAL_PHASE|
        && |D.APP_PHASE| != |D.CREDENTIAL_PHASE|;
  }

  lemma BuiltAndDeleted(f: C.Flags, w: World, q: Progress, created: World)
    requires Valid(w) && FlagsKnown(f, w) && Sane(f, w, q) && RoleIsNew(f, w)
    requires CT.Feasible(f, [], w) && CT.SettledUpTo(f, {}, w, q, 4)
    requires created == Build(f, w, q, created.issued)
    ensures q.role.Some?
    ensures var o := D.Delete(Matching(f, q.role.value), [], created, []);
            o.err == None && (o.data.world == w.(issued := created.issued) <==> Restorable(f, w))
  {
    RoleIDIsNew(f, w, q);
    hide CT.Feasible;
    hide CT.SettledUpTo;
    hide Valid;
    hide Sane;
    hide FlagsKnown;
    hide RoleIsNew;
    hide Restorable;
    hide D.Delete;
    hide AppIdentity;
    hide AppSettled;
    hide CredentialSettled;
    hide AppsWithCredential;
    hide Principals;
    hide Assignments;
    hide Accounts;
    hide C.AADApplicationName;
    CreatedAll(f, w, q);
    var app := BuiltApp(f, w, q);
    DeleteOfBuilt(f, w, q, created, app);
    PartsRestored(f, w, q, app);
  }

  lemma RoleIDIsNew(f: C.Flags, w: World, q: Progress)
    requires Sane(f, w, q)
    ensures q.role.Some? ==> q.role.value != ""
  {
  }

  /** Create, however often disturbed before it succeeds, and then delete with the ID of the role
      assignment that was created.  The delete succeeds, and the original world comes back exactly if
      nothing that was there before was deleted or left changed. */
  lemma CreateThenDelete(f: C.Flags, w: World, runs: seq<seq<Fault>>) returns (roleAssignmentID: string)
    requires Valid(w) && NameServes(f, w) && FlagsKnown(f, w) && CT.Feasible(f, [], w) && RoleIsNew(f, w)
    requires forall i :: 0 <= i < |runs| ==> Honest(runs[i])
    ensures var create := C.Create(f, [], CT.AfterRuns(f, [], w, runs), []);
            var created := create.data.world;
            var o := D.Delete(Matching(f, roleAssignmentID), [], created, []);
            && create.err == None
            && (exists a :: a in created.assignments && a.id == roleAssignmentID
                            && created.assignments == w.assignments + [a])
            && o.err == None
            && (o.data.world == w.(issued := created.issued) <==> Restorable(f, w))
  {
    hide C.Create;
    hide CT.AfterRuns;
    hide CT.Feasible;
    hide CT.SettledUpTo;
    hide D.Delete;
    hide Valid;
    hide RoleIsNew;
    hide Restorable;
    hide AppsWithCredential;
    hide Principals;
    hide Accounts;
    var b := CT.AfterRuns(f, [], w, runs);
    var created := C.Create(f, [], b, []).data.world;
    var q := CT.HistoryWorks(f, [], w, runs);
    q := CT.CreateWorks(f, [], w, q, b, []);
    assert Workflow.ToSet([]) == {};
    CreatedAll(f, w, q);
    BuiltAndDeleted(f, w, q, created);
    roleAssignmentID := q.role.value;
    var a := RoleAssignment(roleAssignmentID, f.azureScope, w.roles[f.azureRole], PrincipalID(f, w, q));
    assert created.assignments == w.assignments + [a];
  }
}
