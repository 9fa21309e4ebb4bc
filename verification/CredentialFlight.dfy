/**
 The credential get-or-create protocol of the proxy (pkg/proxy/proxy.go, pkg/proxy/cred_cache.go).

 Any number of concurrent callers look up a shared cache, join or lead a flight for their key,
 double-check the cache, create a credential, add it to the cache and complete the flight.
 Every atomic region of the code is one action; any interleaving of actions is a run.  The
 environment may expire or evict any cache entry at any moment.
 */
module CredentialFlight {
  datatype Key = Key(clientID: string, tenantID: string)

  /** A credential remembers which creation it stems from and for which key it was created. */
  datatype Cred = Cred(serial: nat, key: Key)

  datatype CallResult = Success(cred: Cred) | Failure

  /** Where a caller of getOrCreateCred is. */
  datatype PC =
    | Start
    | Missed                          // the unlocked lookup missed
    | Leading                         // owns the flight, before the double-check
    | Creating                        // the double-check missed
    | Created(cred: Cred)             // has a new credential, not yet in the cache
    | Finishing(result: CallResult)   // the flight function returned
    | Waiting(leader: nat)            // joined somebody else's flight
    | Done(result: CallResult)
  {
    predicate InFlight() {
      Leading? || Creating? || Created? || Finishing?
    }

    /** How many actions of its own the caller has left at most. */
    function Remaining(): nat {
      match this
      case Start => 6
      case Missed => 5
      case Leading => 4
      case Creating => 3
      case Created(_) => 2
      case Finishing(_) => 1
      case Waiting(_) => 1
      case Done(_) => 0
    }
  }

  /** made lists all credentials ever created; removed counts the cache entries lost per key. */
  datatype State = State(pcs: seq<PC>, cache: map<Key, Cred>, flights: map<string, nat>,
                         made: seq<Cred>, removed: multiset<Key>)

  datatype Action =
    | Lookup(t: nat)
    | Enter(t: nat)
    | DoubleCheck(t: nat)
    | Create(t: nat, ok: bool)
    | Store(t: nat, evicted: set<Key>)
    | Complete(t: nat)
    | Wake(t: nat)
    | Expire(key: Key)

  function FlightKey(k: Key): string {
    k.clientID + "\0" + k.tenantID
  }

  function Initial(n: nat): State {
    State(seq(n, _ => Start), map[], map[], [], multiset{})
  }

  predicate Enabled(reqs: seq<Key>, s: State, a: Action)
    requires |s.pcs| == |reqs|
  {
    match a
    case Lookup(t) => t < |reqs| && s.pcs[t].Start?
    case Enter(t) => t < |reqs| && s.pcs[t].Missed?
    case DoubleCheck(t) => t < |reqs| && s.pcs[t].Leading?
    case Create(t, _) => t < |reqs| && s.pcs[t].Creating?
    case Store(t, evicted) => t < |reqs| && s.pcs[t].Created? && evicted <= s.cache.Keys && reqs[t] !in evicted
    case Complete(t) => t < |reqs| && s.pcs[t].Finishing?
    case Wake(t) => t < |reqs| && s.pcs[t].Waiting? && s.pcs[t].leader < |reqs| && s.pcs[s.pcs[t].leader].Done?
    case Expire(k) => k in s.cache
  }

  function Apply(reqs: seq<Key>, s: State, a: Action): (s': State)
    requires |s.pcs| == |reqs| && Enabled(reqs, s, a)
    ensures |s'.pcs| == |reqs|
  {
    match a
    case Lookup(t) =>
      s.(pcs := s.pcs[t := if reqs[t] in s.cache then Done(Success(s.cache[reqs[t]])) else Missed])
    case Enter(t) =>
      var fk := FlightKey(reqs[t]);
      if fk in s.flights then s.(pcs := s.pcs[t := Waiting(s.flights[fk])])
      else s.(pcs := s.pcs[t := Leading], flights := s.flights[fk := t])
    case DoubleCheck(t) =>
      s.(pcs := s.pcs[t := if reqs[t] in s.cache then Finishing(Success(s.cache[reqs[t]])) else Creating])
    case Create(t, ok) =>
      if ok then
        var c := Cred(|s.made|, reqs[t]);
        s.(pcs := s.pcs[t := Created(c)], made := s.made + [c])
      else s.(pcs := s.pcs[t := Finishing(Failure)])
    case Store(t, evicted) =>
      var c := s.pcs[t].cred;
      s.(pcs := s.pcs[t := Finishing(Success(c))],
         cache := (s.cache - evicted)[reqs[t] := c],
         removed := s.removed + multiset(evicted))
    case Complete(t) =>
      var fk := FlightKey(reqs[t]);
      s.(pcs := s.pcs[t := Done(s.pcs[t].result)],
         flights := if fk in s.flights && s.flights[fk] == t then s.flights - {fk} else s.flights)
    case Wake(t) =>
      s.(pcs := s.pcs[t := Done(s.pcs[s.pcs[t].leader].result)])
    case Expire(k) =>
      s.(cache := s.cache - {k}, removed := s.removed + multiset{k})
  }

  /** The states reached by a sequence of actions, all enabled when taken. */
  ghost predicate Run(reqs: seq<Key>, s: State, actions: seq<Action>, s': State)
    requires |s.pcs| == |reqs|
    decreases |actions|
  {
    if actions == [] then s' == s
    else Enabled(reqs, s, actions[0]) && Run(reqs, Apply(reqs, s, actions[0]), actions[1..], s')
  }

  ghost predicate Reachable(reqs: seq<Key>, s: State) {
    exists actions :: Run(reqs, Initial(|reqs|), actions, s)
  }

  /** Requests that share a flight are for the same client and tenant. */
  ghost predicate FlightsIdentify(reqs: seq<Key>) {
    forall i, j :: 0 <= i < |reqs| && 0 <= j < |reqs| && FlightKey(reqs[i]) == FlightKey(reqs[j]) ==> reqs[i] == reqs[j]
  }

  // ---------------------------------------------------------------------------------------
  // Invariant

  function CreatedFor(made: seq<Cred>, k: Key): nat {
    if made == [] then 0
    else CreatedFor(made[..|made| - 1], k) + if made[|made| - 1].key == k then 1 else 0
  }

  /** 1 if the leader of k's flight holds a credential that it has not added yet. */
  function Pending(reqs: seq<Key>, s: State, k: Key): nat {
    var fk := FlightKey(k);
    if fk in s.flights && s.flights[fk] < |s.pcs| && s.flights[fk] < |reqs|
       && reqs[s.flights[fk]] == k && s.pcs[s.flights[fk]].Created? then 1 else 0
  }

  predicate Authentic(s: State, k: Key, c: Cred) {
    c.serial < |s.made| && s.made[c.serial] == c && c.key == k
  }

  predicate AuthenticResult(s: State, k: Key, r: CallResult) {
    r.Success? ==> Authentic(s, k, r.cred)
  }

  ghost predicate FlightsHaveLeaders(reqs: seq<Key>, s: State) {
    |s.pcs| == |reqs| &&
    forall fk :: fk in s.flights ==>
      s.flights[fk] < |reqs| && FlightKey(reqs[s.flights[fk]]) == fk && s.pcs[s.flights[fk]].InFlight()
  }

  ghost predicate CallerOk(reqs: seq<Key>, s: State, t: nat)
    requires |s.pcs| == |reqs| && t < |reqs|
  {
    var pc, k := s.pcs[t], reqs[t];
    && (pc.InFlight() ==> FlightKey(k) in s.flights && s.flights[FlightKey(k)] == t)
    && (pc.Creating? || pc.Created? ==> k !in s.cache)
    && (pc.Created? ==> Authentic(s, k, pc.cred))
    && (pc.Finishing? || pc.Done? ==> AuthenticResult(s, k, pc.result))
    && (pc.Waiting? ==> pc.leader < |reqs| && FlightKey(reqs[pc.leader]) == FlightKey(k)
                        && (s.pcs[pc.leader].InFlight() || s.pcs[pc.leader].Done?))
  }

  ghost predicate CacheOk(s: State) {
    forall k :: k in s.cache ==> Authentic(s, k, s.cache[k])
  }

  ghost predicate Conserved(reqs: seq<Key>, s: State, k: Key) {
    CreatedFor(s.made, k) == s.removed[k] + (if k in s.cache then 1 else 0) + Pending(reqs, s, k)
  }

  ghost predicate Inv(reqs: seq<Key>, s: State) {
    && FlightsHaveLeaders(reqs, s)
    && (forall t: nat :: t < |reqs| ==> CallerOk(reqs, s, t))
    && CacheOk(s)
    && (forall k :: Conserved(reqs, s, k))
  }

  lemma InitialInv(reqs: seq<Key>)
    ensures Inv(reqs, Initial(|reqs|))
  {
  }

  lemma CreatedForAppend(made: seq<Cred>, c: Cred, k: Key)
    ensures CreatedFor(made + [c], k) == CreatedFor(made, k) + if c.key == k then 1 else 0
  {
    assert (made + [c])[..|made|] == made;
  }

  lemma StepKeepsLeaders(reqs: seq<Key>, s: State, a: Action)
    requires Inv(reqs, s) && Enabled(reqs, s, a)
    ensures FlightsHaveLeaders(reqs, Apply(reqs, s, a))
  {
    if !a.Expire? { assert CallerOk(reqs, s, a.t); }
  }

  lemma StepKeepsCache(reqs: seq<Key>, s: State, a: Action)
    requires Inv(reqs, s) && Enabled(reqs, s, a)
    ensures CacheOk(Apply(reqs, s, a))
  {
    if a.Store? { assert CallerOk(reqs, s, a.t); }
  }

  /** Credentials are never unmade. */
  lemma StepKeepsAuthentic(reqs: seq<Key>, s: State, a: Action, k: Key, c: Cred)
    requires |s.pcs| == |reqs| && Enabled(reqs, s, a) && Authentic(s, k, c)
    ensures Authentic(Apply(reqs, s, a), k, c)
  {
  }

  /** A leader that stays put keeps its flight, and its key stays uncached. */
  lemma StepKeepsFlight(reqs: seq<Key>, s: State, a: Action, u: nat)
    requires Inv(reqs, s) && Enabled(reqs, s, a)
    requires u < |reqs| && (a.Expire? || u != a.t) && s.pcs[u].InFlight()
    ensures var s', fk := Apply(reqs, s, a), FlightKey(reqs[u]);
            && fk in s'.flights && s'.flights[fk] == u
            && (reqs[u] !in s.cache ==> reqs[u] !in s'.cache)
  {
    assert CallerOk(reqs, s, u);
    if !a.Expire? { assert CallerOk(reqs, s, a.t); }
  }

  /** A leader stays in flight until it is done. */
  lemma StepKeepsLeader(reqs: seq<Key>, s: State, a: Action, leader: nat)
    requires |s.pcs| == |reqs| && Enabled(reqs, s, a)
    requires leader < |reqs| && (s.pcs[leader].InFlight() || s.pcs[leader].Done?)
    ensures Apply(reqs, s, a).pcs[leader].InFlight() || Apply(reqs, s, a).pcs[leader].Done?
  {
  }

  /** A caller that stays put keeps its part of the invariant. */
  lemma StepKeepsBystander(reqs: seq<Key>, s: State, a: Action, u: nat)
    requires FlightsIdentify(reqs) && Inv(reqs, s) && Enabled(reqs, s, a)
    requires u < |reqs| && (a.Expire? || u != a.t)
    ensures CallerOk(reqs, Apply(reqs, s, a), u)
  {
    var pc := s.pcs[u];
    assert CallerOk(reqs, s, u) && Apply(reqs, s, a).pcs[u] == pc;
    if pc.InFlight() { StepKeepsFlight(reqs, s, a, u); }
    if pc.Created? { StepKeepsAuthentic(reqs, s, a, reqs[u], pc.cred); }
    if (pc.Finishing? || pc.Done?) && pc.result.Success? { StepKeepsAuthentic(reqs, s, a, reqs[u], pc.result.cred); }
    if pc.Waiting? { StepKeepsLeader(reqs, s, a, pc.leader); }
    hide Inv;
    hide Apply;
    hide Authentic;
    hide FlightKey;
  }

  lemma StepKeepsMover(reqs: seq<Key>, s: State, a: Action)
    requires FlightsIdentify(reqs) && Inv(reqs, s) && Enabled(reqs, s, a) && !a.Expire?
    ensures CallerOk(reqs, Apply(reqs, s, a), a.t)
  {
    assert CallerOk(reqs, s, a.t);
    if s.pcs[a.t].Waiting? { assert CallerOk(reqs, s, s.pcs[a.t].leader); }
  }

  /** What a leader's step makes of the pending credentials. */
  lemma PendingAfter(reqs: seq<Key>, s: State, s': State, t: nat, k: Key)
    requires t < |reqs| == |s.pcs| == |s'.pcs| && s'.flights == s.flights && s'.pcs == s.pcs[t := s'.pcs[t]]
    requires FlightKey(reqs[t]) in s.flights && s.flights[FlightKey(reqs[t])] == t
    ensures Pending(reqs, s', k) == if k == reqs[t] then (if s'.pcs[t].Created? then 1 else 0) else Pending(reqs, s, k)
    ensures Pending(reqs, s, reqs[t]) == if s.pcs[t].Created? then 1 else 0
  {
    hide FlightKey;
  }

  /** Creating and storing a credential. */
  lemma ProductionConserves(reqs: seq<Key>, s: State, a: Action, k: Key)
    requires Inv(reqs, s) && Enabled(reqs, s, a) && (a.Create? || a.Store?)
    ensures Conserved(reqs, Apply(reqs, s, a), k)
  {
    assert Conserved(reqs, s, k) && CallerOk(reqs, s, a.t);
    assert reqs[a.t] !in s.cache;
    PendingAfter(reqs, s, Apply(reqs, s, a), a.t, k);
    hide Inv;
    hide CallerOk;
    hide Pending;
    hide FlightKey;
    if a.Create? { CreatedForAppend(s.made, Cred(|s.made|, reqs[a.t]), k); }
  }

  /** All other steps. */
  lemma OtherStepsConserve(reqs: seq<Key>, s: State, a: Action, k: Key)
    requires Inv(reqs, s) && Enabled(reqs, s, a) && !a.Create? && !a.Store?
    ensures Conserved(reqs, Apply(reqs, s, a), k)
  {
    assert Conserved(reqs, s, k) && FlightsHaveLeaders(reqs, s);
    if !a.Expire? { assert CallerOk(reqs, s, a.t); }
    hide Inv;
    hide FlightKey;
    hide Authentic;
    hide AuthenticResult;
  }

  lemma StepConserves(reqs: seq<Key>, s: State, a: Action, k: Key)
    requires FlightsIdentify(reqs) && Inv(reqs, s) && Enabled(reqs, s, a)
    ensures Conserved(reqs, Apply(reqs, s, a), k)
  {
    if a.Create? || a.Store? { ProductionConserves(reqs, s, a, k); } else { OtherStepsConserve(reqs, s, a, k); }
  }

  lemma StepKeepsInv(reqs: seq<Key>, s: State, a: Action)
    requires FlightsIdentify(reqs) && Inv(reqs, s) && Enabled(reqs, s, a)
    ensures Inv(reqs, Apply(reqs, s, a))
  {
    StepKeepsLeaders(reqs, s, a);
    StepKeepsCache(reqs, s, a);
    forall u: nat | u < |reqs| ensures CallerOk(reqs, Apply(reqs, s, a), u) {
      if a.Expire? || u != a.t { StepKeepsBystander(reqs, s, a, u); } else { StepKeepsMover(reqs, s, a); }
    }
    forall k ensures Conserved(reqs, Apply(reqs, s, a), k) {
      StepConserves(reqs, s, a, k);
    }
  }

  lemma {:induction false} RunKeepsInv(reqs: seq<Key>, s: State, actions: seq<Action>, s': State)
    requires FlightsIdentify(reqs) && Inv(reqs, s) && Run(reqs, s, actions, s')
    ensures Inv(reqs, s')
    decreases |actions|
  {
    if actions != [] {
      StepKeepsInv(reqs, s, actions[0]);
      RunKeepsInv(reqs, Apply(reqs, s, actions[0]), actions[1..], s');
    }
  }

  lemma ReachableInv(reqs: seq<Key>, s: State)
    requires FlightsIdentify(reqs) && Reachable(reqs, s)
    ensures Inv(reqs, s)
  {
    var actions :| Run(reqs, Initial(|reqs|), actions, s);
    InitialInv(reqs);
    RunKeepsInv(reqs, Initial(|reqs|), actions, s);
  }

  // ---------------------------------------------------------------------------------------
  // Which requests share a flight

  /** Two pairs collide exactly when a NUL inside a client ID takes the role of the separator. */
  lemma FlightKeyCollision(a: Key, b: Key)
    requires |a.clientID| <= |b.clientID|
    ensures FlightKey(a) == FlightKey(b) <==>
            a == b || exists m :: b.clientID == a.clientID + "\0" + m && a.tenantID == m + "\0" + b.tenantID
  {
    var n, n' := |a.clientID|, |b.clientID|;
    if FlightKey(a) == FlightKey(b) {
      assert a.clientID == FlightKey(a)[..n] == b.clientID[..n];
      if n == n' {
        assert a.tenantID == FlightKey(a)[n + 1..] == b.tenantID;
      } else {
        assert FlightKey(a)[n] == '\0' == b.clientID[n];
        var m := b.clientID[n + 1..];
        assert b.clientID == a.clientID + "\0" + m;
        assert a.tenantID == FlightKey(b)[n + 1..] == m + "\0" + b.tenantID;
      }
    }
    forall m | b.clientID == a.clientID + "\0" + m && a.tenantID == m + "\0" + b.tenantID
      ensures FlightKey(a) == FlightKey(b)
    {
      assert FlightKey(a) == a.clientID + "\0" + (m + "\0" + b.tenantID) == FlightKey(b);
    }
  }

  lemma SameTenantIdentifies(a: Key, b: Key)
    requires a.tenantID == b.tenantID && FlightKey(a) == FlightKey(b)
    ensures a == b
  {
    if |a.clientID| <= |b.clientID| { FlightKeyCollision(a, b); } else { FlightKeyCollision(b, a); }
  }

  lemma NulFreeClientsIdentify(a: Key, b: Key)
    requires '\0' !in a.clientID && '\0' !in b.clientID
    ensures FlightKey(a) == FlightKey(b) <==> a == b
  {
    if |a.clientID| < |b.clientID| {
      assert FlightKey(b)[|a.clientID|] == b.clientID[|a.clientID|] != FlightKey(a)[|a.clientID|];
    } else if |b.clientID| < |a.clientID| {
      assert FlightKey(a)[|b.clientID|] == a.clientID[|b.clientID|] != FlightKey(b)[|b.clientID|];
    } else {
      FlightKeyCollision(a, b);
    }
  }

  // ---------------------------------------------------------------------------------------
  // Key isolation

  /** In every reachable state every caller that got a credential got one made for its own key. */
  ghost predicate Isolated(reqs: seq<Key>) {
    forall s :: Reachable(reqs, s) ==>
      forall t: nat :: t < |s.pcs| && t < |reqs| && s.pcs[t].Done? && s.pcs[t].result.Success? ==>
        s.pcs[t].result.cred.key == reqs[t]
  }

  lemma {:induction false} RunConcat(reqs: seq<Key>, s: State, first: seq<Action>, mid: State, second: seq<Action>,
                                     s': State)
    requires |s.pcs| == |mid.pcs| == |reqs| && Run(reqs, s, first, mid) && Run(reqs, mid, second, s')
    ensures Run(reqs, s, first + second, s')
    decreases |first|
  {
    if first == [] {
      assert first + second == second;
    } else {
      assert (first + second)[1..] == first[1..] + second;
      RunConcat(reqs, Apply(reqs, s, first[0]), first[1..], mid, second, s');
    }
  }

  lemma ReachableStep(reqs: seq<Key>, s: State, a: Action)
    requires Reachable(reqs, s) && |s.pcs| == |reqs| && Enabled(reqs, s, a)
    ensures Reachable(reqs, Apply(reqs, s, a))
  {
    var actions :| Run(reqs, Initial(|reqs|), actions, s);
    assert [a][1..] == [];
    RunConcat(reqs, Initial(|reqs|), actions, s, [a], Apply(reqs, s, a));
  }

  /** Joining a flight that is led for another key hands out that key's credential. */
  lemma CollisionLeaks(reqs: seq<Key>, i: nat, j: nat) returns (s: State)
    requires i < |reqs| && j < |reqs| && reqs[i] != reqs[j] && FlightKey(reqs[i]) == FlightKey(reqs[j])
    ensures Reachable(reqs, s) && |s.pcs| == |reqs|
    ensures s.pcs[j].Done? && s.pcs[j].result.Success? && s.pcs[j].result.cred.key == reqs[i]
  {
    s := Initial(|reqs|);
    assert Run(reqs, s, [], s);
    ReachableStep(reqs, s, Lookup(i));
    s := Apply(reqs, s, Lookup(i));
    ReachableStep(reqs, s, Lookup(j));
    s := Apply(reqs, s, Lookup(j));
    ReachableStep(reqs, s, Enter(i));
    s := Apply(reqs, s, Enter(i));
    ReachableStep(reqs, s, Enter(j));
    s := Apply(reqs, s, Enter(j));
    assert s.pcs[i].Leading? && s.pcs[j] == Waiting(i) && s.cache == map[];
    ReachableStep(reqs, s, DoubleCheck(i));
    s := Apply(reqs, s, DoubleCheck(i));
    ReachableStep(reqs, s, Create(i, true));
    s := Apply(reqs, s, Create(i, true));
    ReachableStep(reqs, s, Store(i, {}));
    s := Apply(reqs, s, Store(i, {}));
    ReachableStep(reqs, s, Complete(i));
    s := Apply(reqs, s, Complete(i));
    ReachableStep(reqs, s, Wake(j));
    s := Apply(reqs, s, Wake(j));
  }

  /** Isolation holds in every run precisely when no two requests share a flight key by accident. */
  lemma IsolationTheorem(reqs: seq<Key>)
    ensures Isolated(reqs) <==> FlightsIdentify(reqs)
  {
    if FlightsIdentify(reqs) {
      forall s | Reachable(reqs, s)
        ensures forall t: nat :: t < |s.pcs| && t < |reqs| && s.pcs[t].Done? && s.pcs[t].result.Success? ==>
                  s.pcs[t].result.cred.key == reqs[t]
      {
        ReachableInv(reqs, s);
        forall t: nat | t < |reqs| && s.pcs[t].Done? && s.pcs[t].result.Success?
          ensures s.pcs[t].result.cred.key == reqs[t]
        {
          assert CallerOk(reqs, s, t);
        }
      }
    } else {
      var i, j :| 0 <= i < |reqs| && 0 <= j < |reqs| && FlightKey(reqs[i]) == FlightKey(reqs[j]) && reqs[i] != reqs[j];
      var s := CollisionLeaks(reqs, i, j);
    }
  }

  // ---------------------------------------------------------------------------------------
  // Requests of one proxy

  /** Whatever clients query for, even client IDs with NULs in them, one proxy isolates them: all its
      requests are for its own tenant. */
  lemma ProxyIsolates(reqs: seq<Key>, tenantID: string)
    requires forall t :: 0 <= t < |reqs| ==> reqs[t].tenantID == tenantID
    ensures Isolated(reqs)
  {
    forall i, j | 0 <= i < |reqs| && 0 <= j < |reqs| && FlightKey(reqs[i]) == FlightKey(reqs[j])
      ensures reqs[i] == reqs[j]
    {
      SameTenantIdentifies(reqs[i], reqs[j]);
    }
    IsolationTheorem(reqs);
  }

  /** The state when one more request has come in. */
  function WithCaller(s: State): State {
    s.(pcs := s.pcs + [Start])
  }

  /** A request that only just came in does not disturb the others. */
  lemma {:induction false} RunWithCaller(reqs: seq<Key>, s: State, actions: seq<Action>, s': State, k: Key)
    requires |s.pcs| == |reqs| && Run(reqs, s, actions, s')
    ensures Run(reqs + [k], WithCaller(s), actions, WithCaller(s'))
    decreases |actions|
  {
    if actions != [] {
      ApplyWithCaller(reqs, s, actions[0], k);
      RunWithCaller(reqs, Apply(reqs, s, actions[0]), actions[1..], s', k);
    }
  }

  lemma ApplyWithCaller(reqs: seq<Key>, s: State, a: Action, k: Key)
    requires |s.pcs| == |reqs| && Enabled(reqs, s, a)
    ensures Enabled(reqs + [k], WithCaller(s), a)
    ensures Apply(reqs + [k], WithCaller(s), a) == WithCaller(Apply(reqs, s, a))
  {
    if !a.Expire? {
      assert (reqs + [k])[a.t] == reqs[a.t];
      var pc := Apply(reqs, s, a).pcs[a.t];
      assert (s.pcs + [Start])[a.t := pc] == s.pcs[a.t := pc] + [Start];
    }
  }

  lemma ReachableWithCaller(reqs: seq<Key>, s: State, k: Key)
    requires Reachable(reqs, s)
    ensures Reachable(reqs + [k], WithCaller(s))
  {
    var actions :| Run(reqs, Initial(|reqs|), actions, s);
    RunWithCaller(reqs, Initial(|reqs|), actions, s, k);
    assert WithCaller(Initial(|reqs|)) == Initial(|reqs + [k]|);
  }

  // ---------------------------------------------------------------------------------------
  // Conservation

  /** In every reachable state, for each key: creations = removals + cached + about to be cached. */
  lemma ConservationTheorem(reqs: seq<Key>, s: State, k: Key)
    requires FlightsIdentify(reqs) && Reachable(reqs, s)
    ensures CreatedFor(s.made, k) == s.removed[k] + (if k in s.cache then 1 else 0) + Pending(reqs, s, k)
    ensures Pending(reqs, s, k) == 1 ==> k !in s.cache
    ensures CreatedFor(s.made, k) <= s.removed[k] + 1
  {
    ReachableInv(reqs, s);
    assert Conserved(reqs, s, k);
    if Pending(reqs, s, k) == 1 {
      assert CallerOk(reqs, s, s.flights[FlightKey(k)]);
    }
  }

  lemma {:induction false} TwoCreations(made: seq<Cred>, i: nat, j: nat, k: Key)
    requires i < j < |made| && made[i].key == k && made[j].key == k
    ensures CreatedFor(made, k) >= 2
  {
    var front := made[..|made| - 1];
    if j < |made| - 1 {
      TwoCreations(front, i, j, k);
    } else {
      OneCreation(front, i, k);
    }
  }

  lemma {:induction false} OneCreation(made: seq<Cred>, i: nat, k: Key)
    requires i < |made| && made[i].key == k
    ensures CreatedFor(made, k) >= 1
  {
    if i < |made| - 1 { OneCreation(made[..|made| - 1], i, k); }
  }

  /** While nothing was removed for a key, all its successful callers share one credential. */
  lemma OneCredentialWithoutRemovals(reqs: seq<Key>, s: State, t: nat, u: nat)
    requires FlightsIdentify(reqs) && Reachable(reqs, s) && |s.pcs| == |reqs|
    requires t < |reqs| && u < |reqs| && reqs[t] == reqs[u] && s.removed[reqs[t]] == 0
    requires s.pcs[t].Done? && s.pcs[t].result.Success? && s.pcs[u].Done? && s.pcs[u].result.Success?
    ensures s.pcs[t].result == s.pcs[u].result
    ensures CreatedFor(s.made, reqs[t]) == 1
  {
    ReachableInv(reqs, s);
    assert CallerOk(reqs, s, t) && CallerOk(reqs, s, u);
    ConservationTheorem(reqs, s, reqs[t]);
    var c, d := s.pcs[t].result.cred, s.pcs[u].result.cred;
    OneCreation(s.made, c.serial, reqs[t]);
    if c.serial < d.serial { TwoCreations(s.made, c.serial, d.serial, reqs[t]); }
    if d.serial < c.serial { TwoCreations(s.made, d.serial, c.serial, reqs[t]); }
  }

  // ---------------------------------------------------------------------------------------
  // Progress

  ghost predicate Unfinished(s: State) {
    exists t :: 0 <= t < |s.pcs| && !s.pcs[t].Done?
  }

  function Measure(pcs: seq<PC>): nat {
    if pcs == [] then 0 else pcs[0].Remaining() + Measure(pcs[1..])
  }

  lemma {:induction false} MeasureUpdate(pcs: seq<PC>, t: nat, pc: PC)
    requires t < |pcs|
    ensures Measure(pcs[t := pc]) == Measure(pcs) - pcs[t].Remaining() + pc.Remaining()
  {
    if t > 0 {
      assert pcs[t := pc][1..] == pcs[1..][t - 1 := pc];
      MeasureUpdate(pcs[1..], t - 1, pc);
    } else {
      assert pcs[t := pc][1..] == pcs[1..];
    }
  }

  lemma StepDecreases(reqs: seq<Key>, s: State, a: Action)
    requires |s.pcs| == |reqs| && Enabled(reqs, s, a)
    ensures a.Expire? ==> Measure(Apply(reqs, s, a).pcs) == Measure(s.pcs)
    ensures !a.Expire? ==> Measure(Apply(reqs, s, a).pcs) < Measure(s.pcs)
  {
    if !a.Expire? {
      MeasureUpdate(s.pcs, a.t, Apply(reqs, s, a).pcs[a.t]);
    }
  }

  /** Whom a waiter joined leads for the same key.  Either that flight is open and no other caller
      leads one for the key, or it is over, and the waiter can return with its result. */
  lemma WaiterHasOneLeader(reqs: seq<Key>, s: State, t: nat)
    requires FlightsIdentify(reqs) && Reachable(reqs, s) && |s.pcs| == |reqs|
    requires t < |reqs| && s.pcs[t].Waiting?
    ensures var l := s.pcs[t].leader;
            && l < |reqs| && reqs[l] == reqs[t]
            && (s.pcs[l].InFlight() || s.pcs[l].Done?)
            && (s.pcs[l].InFlight() ==>
                  forall u: nat :: u < |reqs| && s.pcs[u].InFlight() && reqs[u] == reqs[t] ==> u == l)
            && (s.pcs[l].Done? ==>
                  && Enabled(reqs, s, Wake(t)) && Apply(reqs, s, Wake(t)).pcs[t] == s.pcs[l]
                  && AuthenticResult(s, reqs[t], s.pcs[l].result))
  {
    ReachableInv(reqs, s);
    assert CallerOk(reqs, s, t);
    var l := s.pcs[t].leader;
    assert CallerOk(reqs, s, l);
    forall u: nat | u < |reqs| && s.pcs[u].InFlight() && reqs[u] == reqs[t] && s.pcs[l].InFlight() ensures u == l {
      assert CallerOk(reqs, s, u);
    }
  }

  /** An action that lets some unfinished caller proceed. */
  lemma NotStuck(reqs: seq<Key>, s: State) returns (a: Action)
    requires Inv(reqs, s) && Unfinished(s)
    ensures !a.Expire? && Enabled(reqs, s, a)
  {
    var t :| 0 <= t < |s.pcs| && !s.pcs[t].Done?;
    assert CallerOk(reqs, s, t);
    if s.pcs[t].Waiting? && s.pcs[s.pcs[t].leader].InFlight() {
      a := Advance(s, s.pcs[t].leader);
    } else {
      a := Advance(s, t);
    }
  }

  function Advance(s: State, t: nat): Action
    requires t < |s.pcs| && !s.pcs[t].Done?
  {
    match s.pcs[t]
    case Start => Lookup(t)
    case Missed => Enter(t)
    case Leading => DoubleCheck(t)
    case Creating => Create(t, true)
    case Created(_) => Store(t, {})
    case Finishing(_) => Complete(t)
    case Waiting(_) => Wake(t)
  }

  function CallerActions(actions: seq<Action>): nat {
    if actions == [] then 0
    else (if actions[0].Expire? then 0 else 1) + CallerActions(actions[1..])
  }

  /** Every action counts that is not an expiry, wherever it stands. */
  lemma {:induction false} CallerActionsCount(before: seq<Action>, a: Action, after: seq<Action>)
    ensures CallerActions(before + [a] + after) == CallerActions(before + after) + if a.Expire? then 0 else 1
  {
    if before == [] {
      assert ([a] + after)[1..] == after && [] + [a] + after == [a] + after && [] + after == after;
    } else {
      assert (before + [a] + after)[1..] == before[1..] + [a] + after && (before + after)[1..] == before[1..] + after;
      CallerActionsCount(before[1..], a, after);
    }
  }

  lemma {:induction false} RunSpendsMeasure(reqs: seq<Key>, s: State, actions: seq<Action>, s': State)
    requires |s.pcs| == |reqs| && Run(reqs, s, actions, s')
    ensures CallerActions(actions) + Measure(s'.pcs) <= Measure(s.pcs)
    decreases |actions|
  {
    if actions != [] {
      StepDecreases(reqs, s, actions[0]);
      RunSpendsMeasure(reqs, Apply(reqs, s, actions[0]), actions[1..], s');
    }
  }

  lemma {:induction false} MeasureInitial(n: nat)
    ensures Measure(Initial(n).pcs) == 6 * n
  {
    if n > 0 {
      assert Initial(n).pcs[1..] == Initial(n - 1).pcs;
      MeasureInitial(n - 1);
    }
  }

  /** However callers and evictions interleave, n callers take at most 6n actions, and as long
      as one of them has not returned, some caller can act. */
  lemma ProgressTheorem(reqs: seq<Key>, actions: seq<Action>, s: State)
    requires FlightsIdentify(reqs) && Run(reqs, Initial(|reqs|), actions, s)
    ensures CallerActions(actions) <= 6 * |reqs|
    ensures |s.pcs| == |reqs|
    ensures Unfinished(s) ==> exists a: Action :: !a.Expire? && Enabled(reqs, s, a)
  {
    ReachableInv(reqs, s);
    RunSpendsMeasure(reqs, Initial(|reqs|), actions, s);
    MeasureInitial(|reqs|);
    if Unfinished(s) {
      var a := NotStuck(reqs, s);
    }
  }

  /** Once all callers have returned, no flight is left behind, and what is cached was created. */
  lemma QuiescentState(reqs: seq<Key>, s: State)
    requires FlightsIdentify(reqs) && Reachable(reqs, s) && !Unfinished(s)
    ensures s.flights == map[]
    ensures forall k :: k in s.cache ==> s.cache[k] in s.made && s.cache[k].key == k
    ensures forall k :: CreatedFor(s.made, k) == s.removed[k] + if k in s.cache then 1 else 0
  {
    ReachableInv(reqs, s);
    forall fk ensures fk !in s.flights {
      if fk in s.flights { assert false; }
    }
    forall k ensures CreatedFor(s.made, k) == s.removed[k] + if k in s.cache then 1 else 0 {
      ConservationTheorem(reqs, s, k);
    }
  }
}
