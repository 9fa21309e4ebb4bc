/** Facts about lookups in the directory's lists. */
module Directory {
  import opened Common
  import opened Cloud

  ghost predicate DistinctIDs(apps: seq<Application>) {
    forall i, j :: 0 <= i < j < |apps| ==> apps[i].objectID != apps[j].objectID && apps[i].appID != apps[j].appID
  }

  /** All IDs in the world were issued before, and none is empty or shared by two applications. */
  ghost predicate Valid(w: World) {
    && DistinctIDs(w.apps)
    && (forall i :: 0 <= i < |w.apps| ==> 0 < |w.apps[i].objectID| <= w.issued && 0 < |w.apps[i].appID| <= w.issued)
    && (forall i :: 0 <= i < |w.principals| ==>
          0 < |w.principals[i].objectID| <= w.issued && |w.principals[i].appID| <= w.issued)
    && (forall i :: 0 <= i < |w.assignments| ==>
          |w.assignments[i].principal| <= w.issued && |w.assignments[i].id| <= w.issued)
    && (forall p :: p in w.otherPrincipals ==> 0 < |p| <= w.issued)
  }

  // ---------------------------------------------------------------------------------------
  // Applications

  lemma {:induction false} FirstAppAppend(apps: seq<Application>, x: Application, n: string)
    ensures FirstApp(apps + [x], n) == if FirstApp(apps, n).Some? then FirstApp(apps, n)
                                       else if x.displayName == n then Some(x) else None
  {
    if apps == [] {
      assert apps + [x] == [x] && [x][1..] == [];
    } else {
      assert (apps + [x])[1..] == apps[1..] + [x];
      FirstAppAppend(apps[1..], x, n);
    }
  }

  lemma {:induction false} AppByIDAppend(apps: seq<Application>, x: Application, id: string)
    ensures AppByID(apps + [x], id) == if AppByID(apps, id).Some? then AppByID(apps, id)
                                       else if x.objectID == id then Some(x) else None
  {
    if apps == [] {
      assert apps + [x] == [x] && [x][1..] == [];
    } else {
      assert (apps + [x])[1..] == apps[1..] + [x];
      AppByIDAppend(apps[1..], x, id);
    }
  }

  lemma {:induction false} AppByClientIDAppend(apps: seq<Application>, x: Application, id: string)
    ensures AppByClientID(apps + [x], id) == if AppByClientID(apps, id).Some? then AppByClientID(apps, id)
                                             else if x.appID == id then Some(x) else None
  {
    if apps == [] {
      assert apps + [x] == [x] && [x][1..] == [];
    } else {
      assert (apps + [x])[1..] == apps[1..] + [x];
      AppByClientIDAppend(apps[1..], x, id);
    }
  }

  lemma {:induction false} LongIDsAreUnknown(apps: seq<Application>, id: string, issued: nat)
    requires forall i :: 0 <= i < |apps| ==> |apps[i].objectID| <= issued && |apps[i].appID| <= issued
    requires |id| > issued
    ensures AppByID(apps, id) == None && AppByClientID(apps, id) == None
  {
    if apps != [] { LongIDsAreUnknown(apps[1..], id, issued); }
  }

  lemma {:induction false} EmptyIDIsUnknown(apps: seq<Application>)
    requires forall i :: 0 <= i < |apps| ==> apps[i].objectID != ""
    ensures AppByID(apps, "") == None
  {
    if apps != [] { EmptyIDIsUnknown(apps[1..]); }
  }

  /** The first application of a name is found again by its IDs. */
  lemma {:induction false} FirstAppByIDs(apps: seq<Application>, n: string)
    requires DistinctIDs(apps) && FirstApp(apps, n).Some?
    ensures var a := FirstApp(apps, n).value;
            && a in apps && a.displayName == n
            && AppByID(apps, a.objectID) == Some(a) && AppByClientID(apps, a.appID) == Some(a)
  {
    if apps[0].displayName != n {
      FirstAppByIDs(apps[1..], n);
      var a := FirstApp(apps[1..], n).value;
      var i :| 0 <= i < |apps[1..]| && apps[1..][i] == a;
      assert apps[i + 1] == a;
    }
  }

  /** Replacing credentials changes nothing else. */
  predicate SameIdentity(a: Option<Application>, b: Option<Application>) {
    (a.None? && b.None?) || (a.Some? && b.Some? && a.value == b.value.(credentials := a.value.credentials))
  }

  lemma {:induction false} FirstAppWithCredentials(apps: seq<Application>, id: string, cs: seq<Credential>, n: string)
    ensures SameIdentity(FirstApp(WithCredentials(apps, id, cs), n), FirstApp(apps, n))
  {
    if apps != [] {
      FirstAppWithCredentials(apps[1..], id, cs, n);
      var changed := WithCredentials(apps, id, cs);
      if apps[0].objectID == id {
        assert changed[1..] == apps[1..];
      } else {
        assert changed[1..] == WithCredentials(apps[1..], id, cs);
      }
    }
  }

  lemma {:induction false} AppByClientIDWithCredentials(apps: seq<Application>, id: string, cs: seq<Credential>,
                                                        appID: string)
    ensures SameIdentity(AppByClientID(WithCredentials(apps, id, cs), appID), AppByClientID(apps, appID))
  {
    if apps != [] {
      AppByClientIDWithCredentials(apps[1..], id, cs, appID);
      var changed := WithCredentials(apps, id, cs);
      if apps[0].objectID == id {
        assert changed[1..] == apps[1..];
      } else {
        assert changed[1..] == WithCredentials(apps[1..], id, cs);
      }
    }
  }

  lemma {:induction false} AppByIDWithCredentials(apps: seq<Application>, id: string, cs: seq<Credential>,
                                                  other: string)
    ensures AppByID(WithCredentials(apps, id, cs), other) ==
            if other == id && AppByID(apps, id).Some? then Some(AppByID(apps, id).value.(credentials := cs))
            else AppByID(apps, other)
  {
    if apps != [] {
      AppByIDWithCredentials(apps[1..], id, cs, other);
      var changed := WithCredentials(apps, id, cs);
      if apps[0].objectID == id {
        assert changed[1..] == apps[1..];
      } else {
        assert changed[1..] == WithCredentials(apps[1..], id, cs);
      }
    }
  }

  lemma {:induction false} WithCredentialsAppend(apps: seq<Application>, x: Application, id: string,
                                                 cs: seq<Credential>)
    ensures WithCredentials(apps + [x], id, cs) ==
            if AppByID(apps, id).Some? then WithCredentials(apps, id, cs) + [x]
            else apps + [if x.objectID == id then x.(credentials := cs) else x]
  {
    if apps == [] {
      assert apps + [x] == [x] && [x][1..] == [];
    } else {
      assert (apps + [x])[1..] == apps[1..] + [x];
      WithCredentialsAppend(apps[1..], x, id, cs);
    }
  }

  lemma {:induction false} ChangedIDs(apps: seq<Application>, id: string, cs: seq<Credential>)
    ensures |WithCredentials(apps, id, cs)| == |apps|
    ensures forall i :: 0 <= i < |apps| ==>
              var changed := WithCredentials(apps, id, cs)[i];
              changed.objectID == apps[i].objectID && changed.appID == apps[i].appID
  {
    if apps != [] && apps[0].objectID != id {
      ChangedIDs(apps[1..], id, cs);
      forall i | 0 <= i < |apps|
        ensures var changed := WithCredentials(apps, id, cs)[i];
                changed.objectID == apps[i].objectID && changed.appID == apps[i].appID
      {
        if i > 0 { assert WithCredentials(apps, id, cs)[i] == WithCredentials(apps[1..], id, cs)[i - 1]; }
      }
    }
  }

  // ---------------------------------------------------------------------------------------
  // Service principals

  lemma {:induction false} FirstPrincipalAppend(ps: seq<ServicePrincipal>, x: ServicePrincipal, n: string)
    ensures FirstPrincipal(ps + [x], n) == if FirstPrincipal(ps, n).Some? then FirstPrincipal(ps, n)
                                           else if x.displayName == n then Some(x) else None
  {
    if ps == [] {
      assert ps + [x] == [x] && [x][1..] == [];
    } else {
      assert (ps + [x])[1..] == ps[1..] + [x];
      FirstPrincipalAppend(ps[1..], x, n);
    }
  }

  lemma {:induction false} FirstPrincipalIn(ps: seq<ServicePrincipal>, n: string)
    requires FirstPrincipal(ps, n).Some?
    ensures FirstPrincipal(ps, n).value in ps && FirstPrincipal(ps, n).value.displayName == n
  {
    if ps[0].displayName != n { FirstPrincipalIn(ps[1..], n); }
  }
}
