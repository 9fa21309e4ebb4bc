/**
 The proxy's credential cache and getOrCreateCred as the code runs them
 (pkg/proxy/proxy.go, pkg/proxy/cred_cache.go), among any number of concurrent calls.

 A call is a method that works on shared fields.  Between two of its atomic steps the other calls
 and the cache's clock do whatever the protocol of CredentialFlight allows them.

 The LRU library is not part of this model.  It is known by its contract only: a lookup misses or
 returns what was last added for the key, and an addition may evict other entries.
 */
module Proxy {
  import opened Common
  import opened CredentialFlight

  class CredCache {
    var entries: map<Key, Cred>
    var removed: multiset<Key>

    constructor ()
      ensures entries == map[] && removed == multiset{}
    {
      entries, removed := map[], multiset{};
    }

    method Get(key: Key) returns (r: Option<Cred>)
      ensures r == if key in entries then Some(entries[key]) else None
    {
      r := if key in entries then Some(entries[key]) else None;
    }

    /** evicted are the entries that make room for the new one. */
    method Add(key: Key, cred: Cred, evicted: set<Key>)
      requires evicted <= entries.Keys && key !in evicted
      modifies this
      ensures entries == (old(entries) - evicted)[key := cred]
      ensures removed == old(removed) + multiset(evicted)
    {
      entries := (entries - evicted)[key := cred];
      removed := removed + multiset(evicted);
    }
  }

  /** What happens around one call: the actions of others between its steps, whether a creation
      succeeds, and which entries are evicted if it adds one. */
  datatype Surroundings = Surroundings(
    beforeEnter: seq<Action>, beforeCheck: seq<Action>, beforeCreate: seq<Action>, beforeAdd: seq<Action>,
    beforeComplete: seq<Action>, whileWaiting: seq<Action>, creationOk: bool, evicted: set<Key>)

  /** How msiHandler replies: two errors of the request, a credential that cannot be made, or whatever
      the token request with a credential gives.  Pending means that the leader of the flight that the
      call joined has not finished yet. */
  datatype Reply = ClientIDRequired | ResourceRequired | CreationFailed | TokenFor(cred: Cred, scope: string) | Pending

  const CLIENT_ID_ENV := "AZURE_CLIENT_ID"

  predicate IsOf(a: Action, t: nat) {
    !a.Expire? && a.t == t
  }

  /** Some run of the protocol takes s to s'. */
  ghost predicate Leads(reqs: seq<Key>, s: State, s': State)
    requires |s.pcs| == |reqs|
  {
    exists actions :: Run(reqs, s, actions, s')
  }

  lemma LeadsNowhere(reqs: seq<Key>, s: State)
    requires |s.pcs| == |reqs|
    ensures Leads(reqs, s, s)
  {
    assert Run(reqs, s, [], s);
  }

  /** One more step of a run. */
  lemma LeadsTo(reqs: seq<Key>, start: State, s: State, a: Action, next: State)
    requires |start.pcs| == |s.pcs| == |reqs| && Leads(reqs, start, s)
    requires Enabled(reqs, s, a) && next == Apply(reqs, s, a)
    ensures Leads(reqs, start, next)
  {
    var actions :| Run(reqs, start, actions, s);
    assert [a][1..] == [];
    assert Run(reqs, s, [a], next);
    RunConcat(reqs, start, actions, s, [a], next);
  }

  lemma RunReaches(reqs: seq<Key>, s: State, s': State)
    requires Reachable(reqs, s) && |s.pcs| == |reqs| && Leads(reqs, s, s')
    ensures Reachable(reqs, s') && |s'.pcs| == |reqs|
  {
    var first :| Run(reqs, Initial(|reqs|), first, s);
    var second :| Run(reqs, s, second, s');
    RunConcat(reqs, Initial(|reqs|), first, s, second, s');
    RunKeepsCallers(reqs, s, second, s');
  }

  lemma {:induction false} RunKeepsCallers(reqs: seq<Key>, s: State, actions: seq<Action>, s': State)
    requires |s.pcs| == |reqs| && Run(reqs, s, actions, s')
    ensures |s'.pcs| == |reqs|
    decreases |actions|
  {
    if actions != [] { RunKeepsCallers(reqs, Apply(reqs, s, actions[0]), actions[1..], s'); }
  }

  class Proxy {
    const tenantID: string
    const credCache: CredCache
    var reqs: seq<Key>
    var credGroup: map<string, nat>
    var made: seq<Cred>
    var pcs: seq<PC>

    /** A proxy to which these requests are going to be made. */
    constructor (tenantID: string, reqs: seq<Key>)
      ensures this.tenantID == tenantID && this.reqs == reqs && fresh(credCache)
      ensures Snapshot() == Initial(|reqs|)
    {
      this.tenantID, this.reqs := tenantID, reqs;
      this.credCache := new CredCache();
      this.credGroup, this.made := map[], [];
      this.pcs := seq(|reqs|, _ => Start);
    }

    function Snapshot(): State
      reads this, credCache
    {
      State(pcs, credCache.entries, credGroup, made, credCache.removed)
    }

    /** The state is one that the calls so far can have led to, and all calls are for one tenant. */
    ghost predicate Valid()
      reads this, credCache
    {
      && |pcs| == |reqs| && Reachable(reqs, Snapshot())
      && forall i :: 0 <= i < |reqs| ==> reqs[i].tenantID == tenantID
    }

    lemma OneTenant()
      requires Valid()
      ensures FlightsIdentify(reqs) && Inv(reqs, Snapshot())
    {
      forall i, j | 0 <= i < |reqs| && 0 <= j < |reqs| && FlightKey(reqs[i]) == FlightKey(reqs[j])
        ensures reqs[i] == reqs[j]
      {
        SameTenantIdentifies(reqs[i], reqs[j]);
      }
      ReachableInv(reqs, Snapshot());
    }

    method Restore(s: State)
      modifies this`pcs, this`credGroup, this`made, credCache
      ensures Snapshot() == s
    {
      pcs, credGroup, made := s.pcs, s.flights, s.made;
      credCache.entries, credCache.removed := s.cache, s.removed;
    }

    /** Others act while call t is between two steps; what is not possible does not happen. */
    method Others(t: nat, actions: seq<Action>)
      requires Valid() && t < |reqs|
      modifies this`pcs, this`credGroup, this`made, credCache
      ensures Valid() && Leads(reqs, old(Snapshot()), Snapshot()) && pcs[t] == old(pcs)[t]
    {
      ghost var start := Snapshot();
      LeadsNowhere(reqs, start);
      for i := 0 to |actions|
        invariant |pcs| == |reqs| && Leads(reqs, start, Snapshot()) && pcs[t] == start.pcs[t]
      {
        if !IsOf(actions[i], t) && Enabled(reqs, Snapshot(), actions[i]) {
          ghost var before := Snapshot();
          Restore(Apply(reqs, Snapshot(), actions[i]));
          LeadsTo(reqs, start, before, actions[i], Snapshot());
        }
      }
      RunReaches(reqs, start, Snapshot());
    }

    /** A step of the protocol keeps the proxy valid. */
    twostate lemma Stepped(a: Action)
      requires reqs == old(reqs) && old(Valid()) && old(Enabled(reqs, Snapshot(), a))
      requires Snapshot() == old(Apply(reqs, Snapshot(), a))
      ensures Valid() && Leads(reqs, old(Snapshot()), Snapshot())
    {
      LeadsNowhere(reqs, old(Snapshot()));
      LeadsTo(reqs, old(Snapshot()), old(Snapshot()), a, Snapshot());
      RunReaches(reqs, old(Snapshot()), Snapshot());
    }

    /** Runs follow on each other. */
    twostate lemma Followed(mid: State)
      requires reqs == old(reqs) && |mid.pcs| == |old(pcs)| == |pcs| == |reqs|
      requires Leads(reqs, old(Snapshot()), mid) && Leads(reqs, mid, Snapshot())
      ensures Leads(reqs, old(Snapshot()), Snapshot())
    {
      var first :| Run(reqs, old(Snapshot()), first, mid);
      var second :| Run(reqs, mid, second, Snapshot());
      RunConcat(reqs, old(Snapshot()), first, mid, second, Snapshot());
    }

    // -------------------------------------------------------------------------------------
    // The atomic steps of call t

    method Lookup(t: nat) returns (cached: Option<Cred>)
      requires Valid() && t < |reqs| && pcs[t] == Start
      modifies this`pcs
      ensures Valid() && Leads(reqs, old(Snapshot()), Snapshot())
      ensures cached == if reqs[t] in credCache.entries then Some(credCache.entries[reqs[t]]) else None
      ensures pcs[t] == if cached.Some? then Done(Success(cached.value)) else Missed
    {
      cached := credCache.Get(reqs[t]);
      pcs := pcs[t := if cached.Some? then Done(Success(cached.value)) else Missed];
      Stepped(Action.Lookup(t));
    }

    /** Joins the flight of the call's key if there is one, else opens it. */
    method Enter(t: nat)
      requires Valid() && t < |reqs| && pcs[t] == Missed
      modifies this`pcs, this`credGroup
      ensures Valid() && Leads(reqs, old(Snapshot()), Snapshot())
      ensures pcs[t] == var sfKey := FlightKey(reqs[t]);
                        if sfKey in old(credGroup) then Waiting(old(credGroup)[sfKey]) else Leading
    {
      var sfKey := reqs[t].clientID + "\0" + reqs[t].tenantID;
      if sfKey in credGroup {
        pcs := pcs[t := Waiting(credGroup[sfKey])];
      } else {
        pcs := pcs[t := Leading];
        credGroup := credGroup[sfKey := t];
      }
      Stepped(Action.Enter(t));
    }

    method DoubleCheck(t: nat) returns (cached: Option<Cred>)
      requires Valid() && t < |reqs| && pcs[t] == Leading
      modifies this`pcs
      ensures Valid() && Leads(reqs, old(Snapshot()), Snapshot())
      ensures pcs[t] == if cached.Some? then Finishing(Success(cached.value)) else Creating
    {
      cached := credCache.Get(reqs[t]);
      pcs := pcs[t := if cached.Some? then Finishing(Success(cached.value)) else Creating];
      Stepped(Action.DoubleCheck(t));
    }

    method NewCredential(t: nat, ok: bool) returns (wi: Option<Cred>)
      requires Valid() && t < |reqs| && pcs[t] == Creating
      modifies this`pcs, this`made
      ensures Valid() && Leads(reqs, old(Snapshot()), Snapshot())
      ensures wi.Some? <==> ok
      ensures pcs[t] == if ok then Created(wi.value) else Finishing(Failure)
    {
      if ok {
        var c := Cred(|made|, reqs[t]);
        wi, made, pcs := Some(c), made + [c], pcs[t := Created(c)];
      } else {
        wi, pcs := None, pcs[t := Finishing(Failure)];
      }
      Stepped(Create(t, ok));
    }

    method AddToCache(t: nat, wi: Cred, evicted: set<Key>)
      requires Valid() && t < |reqs| && pcs[t] == Created(wi)
      modifies this`pcs, credCache
      ensures Valid() && Leads(reqs, old(Snapshot()), Snapshot()) && pcs[t] == Finishing(Success(wi))
    {
      var gone := (evicted * credCache.entries.Keys) - {reqs[t]};
      credCache.Add(reqs[t], wi, gone);
      pcs := pcs[t := Finishing(Success(wi))];
      Stepped(Store(t, gone));
    }

    method Complete(t: nat, r: CallResult)
      requires Valid() && t < |reqs| && pcs[t] == Finishing(r)
      modifies this`pcs, this`credGroup
      ensures Valid() && Leads(reqs, old(Snapshot()), Snapshot()) && pcs[t] == Done(r)
      ensures FlightKey(reqs[t]) !in credGroup
    {
      OneTenant();
      assert CallerOk(reqs, Snapshot(), t);
      pcs := pcs[t := Done(r)];
      credGroup := credGroup - {FlightKey(reqs[t])};
      Stepped(Action.Complete(t));
    }

    /** Takes the result of the flight that was joined, once its leader has finished. */
    method Wake(t: nat, leader: nat) returns (r: Option<CallResult>)
      requires Valid() && t < |reqs| && pcs[t] == Waiting(leader)
      modifies this`pcs
      ensures Valid() && Leads(reqs, old(Snapshot()), Snapshot())
      ensures pcs[t] == if r.Some? then Done(r.value) else Waiting(leader)
      ensures leader < |reqs| && (r.Some? <==> old(pcs)[leader].Done?)
    {
      OneTenant();
      assert CallerOk(reqs, Snapshot(), t);
      if pcs[leader].Done? {
        r := Some(pcs[leader].result);
        pcs := pcs[t := Done(r.value)];
        Stepped(Action.Wake(t));
      } else {
        r := None;
        LeadsNowhere(reqs, Snapshot());
      }
    }

    // -------------------------------------------------------------------------------------
    // The code

    /** The function that the leader of a flight runs: double-check, create, add. */
    method CreateUnlessCached(t: nat, w: Surroundings) returns (r: CallResult)
      requires Valid() && t < |reqs| && pcs[t] == Leading
      modifies this`pcs, this`credGroup, this`made, credCache
      ensures Valid() && Leads(reqs, old(Snapshot()), Snapshot()) && pcs[t] == Finishing(r)
      ensures r.Failure? ==> !w.creationOk
    {
      var cached := DoubleCheck(t);
      if cached.Some? {
        return Success(cached.value);
      }
      ghost var checked := Snapshot();
      Others(t, w.beforeCreate);
      Followed(checked);
      ghost var creating := Snapshot();
      var wi := NewCredential(t, w.creationOk);
      Followed(creating);
      if wi.None? {
        return Failure;
      }
      ghost var created := Snapshot();
      Others(t, w.beforeAdd);
      Followed(created);
      ghost var adding := Snapshot();
      AddToCache(t, wi.value, w.evicted);
      Followed(adding);
      r := Success(wi.value);
    }

    /** Leads the flight of the call's key, or waits for whoever does.  None means that the leader
        has not finished yet when the surroundings end. */
    method Do(t: nat, w: Surroundings) returns (r: Option<CallResult>)
      requires Valid() && t < |reqs| && pcs[t] == Missed
      modifies this`pcs, this`credGroup, this`made, credCache
      ensures Valid() && Leads(reqs, old(Snapshot()), Snapshot())
      ensures if r.Some? then pcs[t] == Done(r.value) else pcs[t].Waiting?
      ensures FlightKey(reqs[t]) !in old(credGroup) ==> r.Some? && (r.value.Failure? ==> !w.creationOk)
    {
      Enter(t);
      ghost var entered := Snapshot();
      if pcs[t].Waiting? {
        Others(t, w.whileWaiting);
        Followed(entered);
        ghost var waited := Snapshot();
        r := Wake(t, pcs[t].leader);
        Followed(waited);
        return;
      }
      Others(t, w.beforeCheck);
      Followed(entered);
      ghost var checking := Snapshot();
      var result := CreateUnlessCached(t, w);
      Followed(checking);
      ghost var finished := Snapshot();
      Others(t, w.beforeComplete);
      Followed(finished);
      ghost var completing := Snapshot();
      Complete(t, result);
      Followed(completing);
      r := Some(result);
    }

    /** Among any concurrent calls, a call is a run of the protocol, so whatever holds of all runs
        holds of it.  What it returns was made for its own key. */
    method GetOrCreateCred(t: nat, w: Surroundings) returns (r: Option<CallResult>)
      requires Valid() && t < |reqs| && pcs[t] == Start
      modifies this`pcs, this`credGroup, this`made, credCache
      ensures Valid() && Leads(reqs, old(Snapshot()), Snapshot())
      ensures if r.Some? then pcs[t] == Done(r.value) else pcs[t].Waiting?
      ensures reqs[t] in old(credCache.entries) ==> r == Some(Success(old(credCache.entries)[reqs[t]]))
      ensures r.Some? && r.value.Success? ==> r.value.cred.key == reqs[t] && r.value.cred in made
    {
      var cached := Lookup(t);
      if cached.Some? {
        r := Some(Success(cached.value));
      } else {
        ghost var missed := Snapshot();
        Others(t, w.beforeEnter);
        Followed(missed);
        ghost var entering := Snapshot();
        r := Do(t, w);
        Followed(entering);
      }
      OneTenant();
      assert CallerOk(reqs, Snapshot(), t);
    }

    /** One more request comes in. */
    method Arrive(key: Key) returns (t: nat)
      requires Valid() && key.tenantID == tenantID
      modifies this`reqs, this`pcs
      ensures Valid() && reqs == old(reqs) + [key] && t == |old(reqs)|
      ensures Snapshot() == WithCaller(old(Snapshot()))
    {
      ReachableWithCaller(reqs, Snapshot(), key);
      t := |reqs|;
      reqs, pcs := reqs + [key], pcs + [Start];
    }

    /** The scope of a resource, which must end in "/.default" (getScope). */
    method GetScope(resource: string) returns (scope: string)
      ensures scope == resource || scope == resource + "/.default"
      ensures |scope| >= 9 && scope[|scope| - 9..] == "/.default"
      ensures |resource| >= 9 && resource[|resource| - 9..] == "/.default" ==> scope == resource
    {
      scope := resource;
      if !(|resource| >= 9 && resource[|resource| - 9..] == "/.default") {
        scope := resource + "/.default";
      }
    }

    /** Answers a token request among any concurrent ones.  The client that is queried for wins over the
        one of the environment.  The credential that a token is requested with was made for that client
        and the proxy's tenant. */
    method MsiHandler(queried: string, resource: string, environment: string -> string, w: Surroundings)
        returns (r: Reply)
      requires Valid()
      modifies this, credCache
      ensures Valid()
      ensures r == ClientIDRequired <==> queried == "" && environment("AZURE_CLIENT_ID") == ""
      ensures r == ResourceRequired <==> !(queried == "" && environment("AZURE_CLIENT_ID") == "") && resource == ""
      ensures r == ClientIDRequired || r == ResourceRequired ==> reqs == old(reqs) && Snapshot() == old(Snapshot())
      ensures r.TokenFor? ==>
                && r.cred in made && r.cred.key.tenantID == tenantID
                && r.cred.key.clientID == (if queried != "" then queried else environment("AZURE_CLIENT_ID"))
                && (r.scope == resource || r.scope == resource + "/.default")
      ensures r.TokenFor? || r.CreationFailed? || r.Pending? ==>
                && |reqs| == |old(reqs)| + 1 && reqs[..|old(reqs)|] == old(reqs)
                && reqs[|old(reqs)|] == Key(if queried != "" then queried else environment("AZURE_CLIENT_ID"), tenantID)
                && Leads(reqs, WithCaller(old(Snapshot())), Snapshot())
                && (reqs[|old(reqs)|] in old(credCache.entries) ==>
                      r.TokenFor? && r.cred == old(credCache.entries)[reqs[|old(reqs)|]])
    {
      var clientID := queried;
      if clientID == "" {
        clientID := environment(CLIENT_ID_ENV);
      }
      if clientID == "" {
        return ClientIDRequired;
      }
      if resource == "" {
        return ResourceRequired;
      }
      var t := Arrive(Key(clientID, tenantID));
      var result := GetOrCreateCred(t, w);
      match result {
        case None => return Pending;
        case Some(Failure) => return CreationFailed;
        case Some(Success(cred)) =>
          var scope := GetScope(resource);
          return TokenFor(cred, scope);
      }
    }
  }
}
