/** Where create does not converge, or succeeds without doing its work, and exactly when. */
module CreateLimits {
  import opened Common
  import opened Cloud
  import opened Directory
  import opened CreateCommand
  import opened CreateConvergence
  import opened PodMutator
  import Naming

  /** A failed lookup duplicates an existing application exactly if the failure's text contains
      "not found", as that of a failed DNS lookup may. */
  lemma LostLookupDuplicatesExactlyWhen(f: Flags, w: World, e: Error)
    requires FirstApp(w.apps, AADApplicationName(f)).Some?
    ensures var (s, r) := GetOrCreateApp(f, Session(w, None, None, [Lost(e)]));
            if IsNotFound(e) then
              r.Ok? && s.world.apps == w.apps + [r.value] && r.value.displayName == AADApplicationName(f)
            else r.Err? && s.world == w
  {
    var s := Session(w, None, None, [Lost(e)]);
    assert [Lost(e)][1..] == [];
    assert GetApplication(s, AADApplicationName(f)) == (Session(w, None, None, []), Err(e));
  }

  lemma LookupOfPrincipal(f: Flags, s: Session)
    requires s.faults == [] && s.sp == None
    ensures var found := FirstPrincipal(s.world.principals, ServicePrincipalName(f));
            var (s', r) := ServicePrincipalObject(f, s);
            && s'.world == s.world && s'.faults == [] && s'.app == s.app
            && (if found.Some? then r == Ok(found.value) else r.Err? && IsNotFound(r.error))
  {
    NotFoundText("service principal " + ServicePrincipalName(f));
  }

  /** An undisturbed get-or-create of the service principal, whatever its name. */
  lemma PrincipalStepExactlyWhen(f: Flags, s: Session, app: Application)
    requires s.faults == [] && s.sp == None && AppByClientID(s.world.apps, app.appID) == Some(app)
    ensures var found := FirstPrincipal(s.world.principals, ServicePrincipalName(f)).Some?;
            var (s', err) := GetOrCreatePrincipal(f, s, app.appID);
            && (err == None <==> found || !HasPrincipalFor(s.world.principals, app.appID))
            && (err == None && !found ==>
                  var made := ServicePrincipal(NewID(s.world), app.appID, app.displayName);
                  s'.world.principals == s.world.principals + [made])
            && s'.world.apps == s.world.apps
            && (found || err != None ==> s'.world == s.world)
  {
    LookupOfPrincipal(f, s);
  }

  lemma LookupOfApp(f: Flags, s: Session, app: Application)
    requires s.faults == [] && s.app == None && FirstApp(s.world.apps, AADApplicationName(f)) == Some(app)
    ensures GetOrCreateApp(f, s) == (s.(app := Some(app)), Ok(app))
  {
  }

  lemma AppMade(f: Flags, w: World)
    requires FirstApp(w.apps, AADApplicationName(f)).None?
    ensures var (w', r) := PostApplication(w, AADApplicationName(f));
            GetOrCreateApp(f, Session(w, None, None, [])) == (Session(w', None, None, []), r)
  {
    AbsentAppText(Session(w, None, None, []), AADApplicationName(f));
  }

  lemma ValidWithApp(w: World, name: string)
    requires Valid(w)
    ensures var (w', r) := PostApplication(w, name);
            Valid(w') && !HasPrincipalFor(w.principals, r.value.appID)
  {
  }

  /** After get-or-create the application is the one that the name finds. */
  lemma AppStepFinds(f: Flags, w: World)
    requires Valid(w)
    ensures var (s, r) := GetOrCreateApp(f, Session(w, None, None, []));
            && r.Ok? && s.faults == [] && s.sp == None
            && Valid(s.world) && s.world.principals == w.principals
            && FirstApp(s.world.apps, AADApplicationName(f)) == Some(r.value)
            && (FirstApp(w.apps, AADApplicationName(f)).None? ==> !HasPrincipalFor(w.principals, r.value.appID))
  {
    var name := AADApplicationName(f);
    if FirstApp(w.apps, name).None? {
      AppMade(f, w);
      ValidWithApp(w, name);
      FirstAppAppend(w.apps, PostApplication(w, name).1.value, name);
    } else {
      LookupOfApp(f, Session(w, None, None, []), FirstApp(w.apps, name).value);
    }
    hide Valid;
    hide GetOrCreateApp;
    hide HasPrincipalFor;
  }

  /** Run twice without faults, the application phase succeeds the second time exactly if it finds a
      service principal by the name it looks for: because that name is the application's, which the
      principal that it creates takes too, or because there was one of that name before. */
  lemma AppRunTwiceExactlyWhen(f: Flags, w: World)
    requires Valid(w) && AppRun(f, Session(w, None, None, [])).1 == None
    ensures var w1 := AppRun(f, Session(w, None, None, [])).0.world;
            AppRun(f, Session(w1, None, None, [])).1 == None <==>
              NameServes(f, w)
  {
    var (s, r) := GetOrCreateApp(f, Session(w, None, None, []));
    AppStepFinds(f, w);
    FirstAppByIDs(s.world.apps, AADApplicationName(f));
    PrincipalStepExactlyWhen(f, s, r.value);
    var w1 := AppRun(f, Session(w, None, None, [])).0.world;
    LookupOfApp(f, Session(w1, None, None, []), r.value);
    PrincipalStepExactlyWhen(f, Session(w1, Some(r.value), None, []), r.value);
    hide GetOrCreateApp;
    hide GetOrCreatePrincipal;
    hide Valid;
    if FirstPrincipal(w.principals, ServicePrincipalName(f)).None? {
      var sp := ServicePrincipal(NewID(s.world), r.value.appID, r.value.displayName);
      assert w1.principals[|w.principals|] == sp;
      FirstPrincipalAppend(w.principals, sp, ServicePrincipalName(f));
    }
  }

  lemma LookupLeavesWorld(f: Flags, s: Session)
    ensures ServicePrincipalObjectID(f, s).0.world == s.world
  {
  }

  /** For any session and any faults: when the role phase reports success, and when the assignment
      exists then.  The two have little to do with each other: seven failed attempts count as success,
      and so does a role lookup that fails with a conflict. */
  lemma RoleRunExactlyWhen(f: Flags, s: Session)
    ensures var (s1, principal) := ServicePrincipalObjectID(f, s);
            var (s', err) := RoleRun(f, s);
            var known := NextFault(s1).Healthy? && f.azureRole in s.world.roles;
            && (err == None <==> known || IsConflict(NextFault(s1)))
            && (!known ==> s'.world == s.world)
            && (known ==>
                  var definition := s.world.roles[f.azureRole];
                  HasAssignment(s'.world.assignments, f.azureScope, definition, principal) <==>
                    HasAssignment(s.world.assignments, f.azureScope, definition, principal)
                    || (PrincipalExists(s.world, principal) && SomeArrives(Called(s1), 7)))
  {
    LookupLeavesWorld(f, s);
    var (s1, principal) := ServicePrincipalObjectID(f, s);
    var text := "failed to get role definition id for role " + f.azureRole;
    PlainIsNoConflict(text, "role definition " + f.azureRole + " not found");
    if !NextFault(s1).Healthy? { WrappingKeepsConflict(text, NextFault(s1).error); }
    if f.azureRole in s.world.roles {
      AttemptsEndWell(Called(s1), ROLE_ASSIGNMENT_RETRIES, f.azureScope, s.world.roles[f.azureRole], principal);
      AttemptsAssignExactlyWhen(Called(s1), ROLE_ASSIGNMENT_RETRIES, f.azureScope, s.world.roles[f.azureRole],
                                principal);
    }
    hide Attempts;
    hide PrincipalExists;
    hide HasAssignment;
    hide IsRoleAssignmentExists;
    hide SomeArrives;
    hide ServicePrincipalObjectID;
  }

  lemma WrappingKeepsConflict(text: string, e: Error)
    ensures IsRoleAssignmentExists(Wrapped(text, e)) == IsRoleAssignmentExists(e)
  {
  }

  /** The loop reports no error but a conflict. */
  lemma {:induction false} AttemptsEndWell(s: Session, n: nat, scope: string, roleDefinition: string, principal: string)
    ensures var r := Attempts(s, n, scope, roleDefinition, principal).1; r.Ok? || IsRoleAssignmentExists(r.error)
    decreases n
  {
    if n > 0 {
      var s' := Write(s, PutRoleAssignment(s.world, scope, roleDefinition, principal)).0;
      AttemptsEndWell(s', n - 1, scope, roleDefinition, principal);
    }
    hide PutRoleAssignment;
  }

  // ---------------------------------------------------------------------------------------
  // service-account

  /** The client ID that the account is to get. */
  function WantedClientID(f: Flags, s: Session): string {
    if f.aadApplicationClientID != "" then f.aadApplicationClientID
    else if s.app.Some? then s.app.value.appID
    else match FirstApp(s.world.apps, AADApplicationName(f))
         case Some(app) => app.appID
         case None => ""
  }

  lemma AccountStored(s: Session, key: (string, string), sa: ServiceAccount)
    requires CreateOrUpdateServiceAccount(s, key, sa).1.Ok?
    ensures var after := CreateOrUpdateServiceAccount(s, key, sa).0.world;
            key in after.accounts && after.accounts[key] == sa
  {
  }

  lemma ClientIDTells(f: Flags, a: string, b: string)
    ensures DesiredAccount(f, a) == DesiredAccount(f, b) <==> a == b
  {
    assert |TOKEN_EXPIRY_ANNOTATION| != |CLIENT_ID_ANNOTATION|;
    assert |CLIENT_ID_ANNOTATION| == |TENANT_ID_ANNOTATION| && CLIENT_ID_ANNOTATION[24] != TENANT_ID_ANNOTATION[24];
    assert DesiredAccount(f, a).annotations[CLIENT_ID_ANNOTATION] == a
        && DesiredAccount(f, b).annotations[CLIENT_ID_ANNOTATION] == b;
  }

  /** For any session and any faults: an account phase that reports success has written the account
      with the right client ID unless the lookup of an existing application failed; then the account
      names no application at all. */
  lemma AccountRunExactlyWhen(f: Flags, s: Session)
    requires AccountRun(f, s).1 == None
    ensures var accounts, wanted := AccountRun(f, s).0.world.accounts, WantedClientID(f, s);
            var asked := f.aadApplicationClientID == "" && s.app.None?;
            && AccountKey(f) in accounts
            && (accounts[AccountKey(f)] == DesiredAccount(f, wanted) <==>
                  !asked || NextFault(s).Healthy? || wanted == "")
            && (asked && !NextFault(s).Healthy? ==> accounts[AccountKey(f)] == DesiredAccount(f, ""))
  {
    var (s1, clientID) := AADApplicationClientID(f, s);
    AccountStored(s1, AccountKey(f), DesiredAccount(f, clientID));
    ClientIDTells(f, clientID, WantedClientID(f, s));
    hide DesiredAccount;
    hide CreateOrUpdateServiceAccount;
  }

  // ---------------------------------------------------------------------------------------
  // federated-identity

  /** The application accepts tokens of that issuer and subject for that audience. */
  predicate Trusts(app: Application, issuer: string, subject: string, audience: string) {
    exists i :: 0 <= i < |app.credentials| && app.credentials[i].issuer == issuer
                && app.credentials[i].subject == subject && audience in app.credentials[i].audiences
  }

  /** The application trusts the account's tokens. */
  predicate TrustsAccount(f: Flags, app: Application) {
    Trusts(app, f.issuerURL, Naming.CredentialSubject(f.serviceAccountNamespace, f.serviceAccountName),
           DEFAULT_AUDIENCE)
  }

  lemma NewCredentialTrusts(f: Flags, app: Application, id: string)
    ensures TrustsAccount(f, app.(credentials := app.credentials + [DesiredCredential(f).(id := id)]))
  {
    var cs := app.credentials + [DesiredCredential(f).(id := id)];
    assert cs[|app.credentials|].issuer == f.issuerURL;
  }

  lemma ObjectIDLookup(f: Flags, s: Session)
    requires s.faults == []
    ensures AADApplicationObjectID(f, s).0.world == s.world && AADApplicationObjectID(f, s).0.faults == []
  {
  }

  /** An undisturbed credential phase succeeds on every application that exists.  Afterwards the
      application trusts the account's tokens exactly if it did before, or had no credential of the
      name: one that has the name is taken for the right one, whatever it is for. */
  lemma CredentialRunExactlyWhen(f: Flags, s: Session, app: Application)
    requires s.faults == [] && AppByID(s.world.apps, AADApplicationObjectID(f, s).1) == Some(app)
    ensures var (s', err) := CredentialRun(f, s);
            var after := AppByID(s'.world.apps, AADApplicationObjectID(f, s).1);
            && err == None && after.Some?
            && (TrustsAccount(f, after.value) <==>
                  !HasCredentialNamed(app, DesiredCredential(f).name) || TrustsAccount(f, app))
            && (HasCredentialNamed(app, DesiredCredential(f).name) ==> s'.world == s.world)
  {
    ObjectIDLookup(f, s);
    var (s1, id) := AADApplicationObjectID(f, s);
    var added := DesiredCredential(f).(id := NewID(s.world));
    AppByIDWithCredentials(s.world.apps, id, app.credentials + [added], id);
    NewCredentialTrusts(f, app, NewID(s.world));
    hide AADApplicationObjectID;
    hide TrustsAccount;
  }

  /** Two accounts on one application: the credential of the second is taken for that of the first.
      Create reports success and changes nothing, and the application does not trust the account. */
  lemma SecondAccountIsNotTrusted(f: Flags, a: string, b: string, c: string, s: Session, app: Application, id: string)
    requires f.serviceAccountNamespace == a + "-" + b && f.serviceAccountName == c
    requires app.credentials == [DesiredCredential(f).(id := id)] && s.faults == []
    requires var second := f.(serviceAccountNamespace := a, serviceAccountName := b + "-" + c);
             AppByID(s.world.apps, AADApplicationObjectID(second, s).1) == Some(app)
    ensures var second := f.(serviceAccountNamespace := a, serviceAccountName := b + "-" + c);
            && CredentialRun(second, s).1 == None && CredentialRun(second, s).0.world == s.world
            && TrustsAccount(f, app) && !TrustsAccount(second, app)
  {
    var second := f.(serviceAccountNamespace := a, serviceAccountName := b + "-" + c);
    Naming.CredentialNamesOverlap(a, b, c, f.issuerURL, f.hash);
    assert app.credentials[0].name == DesiredCredential(second).name;
    assert app.credentials[0].issuer == f.issuerURL;
    CredentialRunExactlyWhen(second, s, app);
    hide CredentialRun;
    hide AADApplicationObjectID;
  }
}
