/** Which credential delete deletes, and that it is the one that create adds. */
module DeleteMeaning {
  import opened Common
  import opened Cloud
  import opened Directory
  import opened DeleteCommand
  import opened DeleteTheorem
  import opened DeleteSafety
  import opened Workflow
  import C = CreateCommand

  // ---------------------------------------------------------------------------------------
  // Which credential is deleted

  /** A credential for the account's tokens, by issuer and subject. */
  predicate IsFor(c: Credential, issuer: string, namespace: string, name: string) {
    c.issuer == issuer && c.subject == "system:serviceaccount:" + namespace + ":" + name
  }

  /** The first of the credentials for the account's tokens. */
  ghost predicate FirstFor(cs: seq<Credential>, i: nat, issuer: string, namespace: string, name: string) {
    i < |cs| && IsFor(cs[i], issuer, namespace, name)
    && forall k :: 0 <= k < i ==> !IsFor(cs[k], issuer, namespace, name)
  }

  lemma {:induction false} FirstCredentialIs(cs: seq<Credential>, i: nat, issuer: string, namespace: string,
                                             name: string)
    requires FirstFor(cs, i, issuer, namespace, name)
    ensures FirstCredential(cs, issuer, Naming.CredentialSubject(namespace, name)) == Some(cs[i])
  {
    if i > 0 {
      assert !IsFor(cs[0], issuer, namespace, name);
      assert FirstFor(cs[1..], i - 1, issuer, namespace, name);
      FirstCredentialIs(cs[1..], i - 1, issuer, namespace, name);
    }
  }

  lemma {:induction false} NoCredentialIs(cs: seq<Credential>, issuer: string, namespace: string, name: string)
    requires forall k :: 0 <= k < |cs| ==> !IsFor(cs[k], issuer, namespace, name)
    ensures FirstCredential(cs, issuer, Naming.CredentialSubject(namespace, name)) == None
  {
    if cs != [] {
      assert !IsFor(cs[0], issuer, namespace, name);
      NoCredentialIs(cs[1..], issuer, namespace, name);
    }
  }

  ghost predicate DistinctCredentials(cs: seq<Credential>) {
    forall i, j :: 0 <= i < j < |cs| ==> cs[i].id != cs[j].id
  }

  lemma {:induction false} NoneToRemove(cs: seq<Credential>, id: string)
    requires forall k :: 0 <= k < |cs| ==> cs[k].id != id
    ensures WithoutCredential(cs, id) == cs
  {
    if cs != [] { NoneToRemove(cs[1..], id); }
  }

  lemma {:induction false} OneRemoved(cs: seq<Credential>, i: nat)
    requires DistinctCredentials(cs) && i < |cs|
    ensures WithoutCredential(cs, cs[i].id) == cs[..i] + cs[i + 1..]
  {
    if i == 0 {
      NoneToRemove(cs[1..], cs[0].id);
    } else {
      OneRemoved(cs[1..], i - 1);
      assert cs[..i] == [cs[0]] + cs[1..][..i - 1];
      assert cs[i + 1..] == cs[1..][i..];
    }
  }

  /** Deleting the credential and not the application: what becomes of the application that is found. */
  lemma FirstIsDeleted(d: Flags, skips: seq<string>, w: World, app: Application, i: nat)
    requires APP_PHASE in skips && CREDENTIAL_PHASE !in skips && KnownSkips(skips)
    requires Complete(d, ToSet(skips), w, 4) && AppByID(w.apps, Target(d, w)) == Some(app)
    requires FirstFor(app.credentials, i, d.issuerURL, d.serviceAccountNamespace, d.serviceAccountName)
    requires DistinctCredentials(app.credentials)
    ensures var o := Delete(d, skips, w, []);
            && o.err == None
            && o.data.world.apps
                 == WithCredentials(w.apps, Target(d, w), app.credentials[..i] + app.credentials[i + 1..])
            && o.data.world.principals == w.principals
  {
    FirstCredentialIs(app.credentials, i, d.issuerURL, d.serviceAccountNamespace, d.serviceAccountName);
    OneRemoved(app.credentials, i);
    PlainDeleteMeaning(d, skips, w);
    hide PlainDelete;
    hide Target;
    hide KnownSkips;
    hide Complete;
    hide FirstFor;
  }

  /** Without one, the command fails before it gets to the account. */
  lemma NoneIsDeleted(d: Flags, skips: seq<string>, w: World, app: Application)
    requires APP_PHASE in skips && CREDENTIAL_PHASE !in skips && KnownSkips(skips)
    requires Complete(d, ToSet(skips), w, 4) && AppByID(w.apps, Target(d, w)) == Some(app)
    requires forall k :: 0 <= k < |app.credentials| ==>
               !IsFor(app.credentials[k], d.issuerURL, d.serviceAccountNamespace, d.serviceAccountName)
    ensures var o := Delete(d, skips, w, []);
            o.err.Some? && o.data.world.apps == w.apps && o.data.world.accounts == w.accounts
  {
    NoCredentialIs(app.credentials, d.issuerURL, d.serviceAccountNamespace, d.serviceAccountName);
    PlainDeleteMeaning(d, skips, w);
    hide PlainDelete;
    hide Target;
    hide KnownSkips;
    hide Complete;
    hide IsFor;
  }

  // ---------------------------------------------------------------------------------------
  // Create and delete mean the same credential

  lemma {:induction false} CredentialsBack(apps: seq<Application>, id: string, cs: seq<Credential>)
    requires AppByID(apps, id).Some?
    ensures WithCredentials(WithCredentials(apps, id, cs), id, AppByID(apps, id).value.credentials) == apps
  {
    var changed := WithCredentials(apps, id, cs);
    if apps[0].objectID == id {
      assert changed[1..] == apps[1..];
    } else {
      assert changed[1..] == WithCredentials(apps[1..], id, cs);
      CredentialsBack(apps[1..], id, cs);
    }
  }

  /** The delete of what create's credential phase did: for the same account, issuer and application. */
  function Undo(f: C.Flags, roleAssignmentID: string): Flags {
    Flags(f.serviceAccountName, f.serviceAccountNamespace, f.issuerURL, f.aadApplicationName, f.aadApplicationObjectID,
          roleAssignmentID, f.hash)
  }

  /** Create adds a credential to an application that had none for the account's tokens, and a delete
      with the same flags that leaves the application succeeds and takes exactly that one away. */
  lemma CredentialRoundTrip(f: C.Flags, skips: seq<string>, w: World, app: Application, roleAssignmentID: string)
    requires APP_PHASE in skips && CREDENTIAL_PHASE !in skips && KnownSkips(skips)
    requires Complete(Undo(f, roleAssignmentID), ToSet(skips), w, 4)
    requires AppByID(w.apps, Target(Undo(f, roleAssignmentID), w)) == Some(app)
    requires forall c :: c in app.credentials ==>
               |c.id| <= w.issued && c.name != C.DesiredCredential(f).name
               && !IsFor(c, f.issuerURL, f.serviceAccountNamespace, f.serviceAccountName)
    requires DistinctCredentials(app.credentials)
    ensures var (s, err) := C.CredentialRun(f, Session(w, None, None, []));
            var o := Delete(Undo(f, roleAssignmentID), skips, s.world, []);
            && err == None
            && (exists c :: s.world.apps == WithCredentials(w.apps, app.objectID, app.credentials + [c])
                            && IsFor(c, f.issuerURL, f.serviceAccountNamespace, f.serviceAccountName))
            && o.err == None && o.data.world.apps == w.apps
  {
    var d, s := Undo(f, roleAssignmentID), C.CredentialRun(f, Session(w, None, None, [])).0;
    var c, n := C.DesiredCredential(f).(id := NewID(w)), |app.credentials|;
    var cs := app.credentials + [c];
    FoundHasID(w.apps, Target(d, w));
    AfterCreate(f, roleAssignmentID, w, app);
    assert FirstFor(cs, n, f.issuerURL, f.serviceAccountNamespace, f.serviceAccountName);
    assert cs[..n] + cs[n + 1..] == app.credentials;
    CredentialsBack(w.apps, app.objectID, cs);
    hide Delete;
    hide C.CredentialRun;
    hide FirstFor;
    hide Target;
    hide KnownSkips;
    hide WithCredentials;
    hide AppByID;
    FirstIsDeleted(d, skips, s.world, app.(credentials := cs), n);
  }

  /** What create's credential phase leaves, and what the delete finds there. */
  lemma AfterCreate(f: C.Flags, roleAssignmentID: string, w: World, app: Application)
    requires AppByID(w.apps, Target(Undo(f, roleAssignmentID), w)) == Some(app)
    requires !HasCredentialNamed(app, C.DesiredCredential(f).name)
    ensures var (s, err) := C.CredentialRun(f, Session(w, None, None, []));
            var d, id := Undo(f, roleAssignmentID), Target(Undo(f, roleAssignmentID), w);
            var cs := app.credentials + [C.DesiredCredential(f).(id := NewID(w))];
            && err == None && s.world == Issue(w).(apps := WithCredentials(w.apps, id, cs))
            && Target(d, s.world) == id && AppByID(s.world.apps, id) == Some(app.(credentials := cs))
  {
    var d := Undo(f, roleAssignmentID);
    var id, cs := Target(d, w), app.credentials + [C.DesiredCredential(f).(id := NewID(w))];
    CreateFindsTarget(f, roleAssignmentID, w);
    FirstAppWithCredentials(w.apps, id, cs, AADApplicationName(d));
    AppByIDWithCredentials(w.apps, id, cs, id);
    hide C.CredentialRun;
    hide C.DesiredCredential;
    hide HasCredentialNamed;
    hide AADApplicationName;
    hide AppByID;
    hide WithCredentials;
  }

  lemma {:induction false} FoundHasID(apps: seq<Application>, id: string)
    requires AppByID(apps, id).Some?
    ensures AppByID(apps, id).value.objectID == id
  {
    if apps[0].objectID != id { FoundHasID(apps[1..], id); }
  }

  lemma CreateFindsTarget(f: C.Flags, roleAssignmentID: string, w: World)
    requires AppByID(w.apps, Target(Undo(f, roleAssignmentID), w)).Some?
    ensures var app := AppByID(w.apps, Target(Undo(f, roleAssignmentID), w)).value;
            var c := C.DesiredCredential(f);
            !HasCredentialNamed(app, c.name) ==>
              var (s, err) := C.CredentialRun(f, Session(w, None, None, []));
              && err == None
              && s.world == Issue(w).(apps := WithCredentials(w.apps, Target(Undo(f, roleAssignmentID), w),
                                                              app.credentials + [c.(id := NewID(w))]))
  {
    assert AADApplicationName(Undo(f, roleAssignmentID)) == C.AADApplicationName(f);
    hide C.DesiredCredential;
    hide C.AADApplicationName;
    hide AADApplicationName;
    hide HasCredentialNamed;
  }

  // ---------------------------------------------------------------------------------------
  // Credentials of other accounts

  lemma {:induction false} OthersKept(cs: seq<Credential>, id: string, c: Credential)
    requires c in cs && c.id != id
    ensures c in WithoutCredential(cs, id)
  {
    if cs[0] != c { OthersKept(cs[1..], id, c); }
  }

  lemma {:induction false} FoundIsFor(cs: seq<Credential>, issuer: string, namespace: string, name: string)
    requires FirstCredential(cs, issuer, Naming.CredentialSubject(namespace, name)).Some?
    ensures var c := FirstCredential(cs, issuer, Naming.CredentialSubject(namespace, name)).value;
            c in cs && IsFor(c, issuer, namespace, name)
  {
    if !IsFor(cs[0], issuer, namespace, name) { FoundIsFor(cs[1..], issuer, namespace, name); }
  }

  lemma OtherStays(d: Flags, w: World, app: Application, c: Credential)
    requires AppByID(w.apps, Target(d, w)) == Some(app) && DistinctCredentials(app.credentials)
    requires c in app.credentials && !IsFor(c, d.issuerURL, d.serviceAccountNamespace, d.serviceAccountName)
    ensures var left := AppByID(AppsWithout(d, w), Target(d, w)); left.Some? && c in left.value.credentials
  {
    if Unwanted(d, app).Some? {
      FoundIsFor(app.credentials, d.issuerURL, d.serviceAccountNamespace, d.serviceAccountName);
      var unwanted := Unwanted(d, app).value;
      var i :| 0 <= i < |app.credentials| && app.credentials[i] == unwanted;
      var j :| 0 <= j < |app.credentials| && app.credentials[j] == c;
      OthersKept(app.credentials, unwanted.id, c);
      AppByIDWithCredentials(w.apps, Target(d, w), WithoutCredential(app.credentials, unwanted.id), Target(d, w));
    }
    hide Target;
  }

  /** Under every schedule of faults, the credentials of other accounts stay in an application that is
      not to be deleted itself. */
  lemma OtherAccountsKeepTrust(d: Flags, skips: seq<string>, w: World, faults: seq<Fault>, app: Application,
                               c: Credential, namespace: string, name: string)
    requires Named(w) && APP_PHASE in skips
    requires AppByID(w.apps, Target(d, w)) == Some(app) && DistinctCredentials(app.credentials)
    requires c in app.credentials && c.subject == "system:serviceaccount:" + namespace + ":" + name
    requires (namespace, name) != (d.serviceAccountNamespace, d.serviceAccountName)
    requires ':' !in namespace && ':' !in d.serviceAccountNamespace
    ensures var left := AppByID(Delete(d, skips, w, faults).data.world.apps, Target(d, w));
            left.Some? && c in left.value.credentials
  {
    Naming.SubjectsTellAccounts(namespace, name, d.serviceAccountNamespace, d.serviceAccountName);
    var e := DeleteTouchesOnlyItsOwn(d, skips, w, faults);
    OtherStays(d, w, app, c);
    hide Delete;
    hide Target;
    hide AppsWithout;
  }

  // ---------------------------------------------------------------------------------------
  // All or nothing before the first phase runs

  lemma NoClientNoPreRun(d: Flags, skip: set<string>, s: Session)
    requires NextFault(s).Lost? && ACCOUNT_PHASE !in skip
    ensures var pre := ThenAll((s, None), DeletePhases(d), skip, true); pre.1.Some? && pre.0.world == s.world
  {
    hide Then;
    hide DeletePhases;
    hide AppPreRun;
    var start: Step := (s, None);
    PreSteps(d, skip, start);
    var a := Unless(start, ROLE_PHASE, skip, RolePreRun(d, s));
    PreSteps(d, skip, a);
    var b := Unless(a, CREDENTIAL_PHASE, skip, CredentialPreRun(d, a.0));
    PreSteps(d, skip, b);
    var c := Unless(b, ACCOUNT_PHASE, skip, AccountPreRun(d, b.0));
    assert c.1.Some? && c.0.world == s.world;
    PreSteps(d, skip, c);
  }

  /** If the Kubernetes client cannot be had, the command fails before it deletes anything. */
  lemma NoClientNoDelete(d: Flags, skips: seq<string>, w: World, error: Error, faults: seq<Fault>)
    requires KnownSkips(skips) && ACCOUNT_PHASE !in skips
    ensures var o := Delete(d, skips, w, [Lost(error)] + faults); o.err.Some? && o.data.world == w
  {
    hide ThenAll;
    hide DeletePhases;
    hide RunPhases;
    hide KnownSkips;
    hide EffectiveSkips;
    var effective, s := EffectiveSkips(skips), Session(w, None, None, [Lost(error)] + faults);
    KnownEffectiveSkips(skips);
    assert ACCOUNT_PHASE !in ToSet(effective) by { assert |ACCOUNT_PHASE| != |CREDENTIAL_PHASE|; }
    DeleteRuns(d, effective, s);
    NoClientNoPreRun(d, ToSet(effective), s);
  }
}
