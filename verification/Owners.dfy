/** The walk from a pod's controller to its top-level owner (pkg/cmd/podidentity/detect.go). */
module Owners {
  import opened Common
  import opened PodMutator

  datatype OwnerReference = OwnerReference(kind: string, name: string, controller: bool)

  /** Any Kubernetes object with a pod spec.  resourceVersion stands for the metadata and status
      that detect clears. */
  datatype Object = Object(
    kind: string, name: string, owners: seq<OwnerReference>, resourceVersion: string,
    serviceAccountName: string, initContainers: seq<Container>, containers: seq<Container>)

  datatype LookupError = Unsupported(kind: string) | Missing(name: string)

  type Answer<T> = Result<T, LookupError>

  const SUPPORTED: set<string> :=
    {"Deployment", "StatefulSet", "CronJob", "Job", "DaemonSet", "ReplicaSet", "ReplicationController"}

  type Objects = map<(string, string), Object>

  /** The object of a reference, by kind and name. */
  function OwnerObject(objects: Objects, r: OwnerReference): Answer<Object> {
    if r.kind !in SUPPORTED then Err(Unsupported(r.kind))
    else if (r.kind, r.name) !in objects then Err(Missing(r.name))
    else Ok(objects[(r.kind, r.name)])
  }

  /** The first reference that was set by a controller. */
  function Controller(owners: seq<OwnerReference>): Option<OwnerReference> {
    if owners == [] then None
    else if owners[0].controller then Some(owners[0])
    else Controller(owners[1..])
  }

  /** The first of the references that a controller set, if there is one. */
  lemma {:induction false} ControllerExactlyWhen(owners: seq<OwnerReference>, i: nat)
    requires i < |owners|
    ensures Controller(owners) == None ==> !owners[i].controller
    ensures owners[i].controller && (forall k :: 0 <= k < i ==> !owners[k].controller) ==>
              Controller(owners) == Some(owners[i])
  {
    if i > 0 { ControllerExactlyWhen(owners[1..], i - 1); }
  }

  /** Only these seven kinds are looked up, each reference by its own kind and name. */
  lemma OwnerObjectExactlyWhen(objects: Objects, r: OwnerReference, o: Object)
    ensures OwnerObject(objects, r) == Ok(o) <==>
              && (r.kind == "Deployment" || r.kind == "StatefulSet" || r.kind == "CronJob" || r.kind == "Job"
                  || r.kind == "DaemonSet" || r.kind == "ReplicaSet" || r.kind == "ReplicationController")
              && (r.kind, r.name) in objects && objects[(r.kind, r.name)] == o
    ensures OwnerObject(objects, r) == Err(Missing(r.name)) <==>
              r.kind in SUPPORTED && (r.kind, r.name) !in objects
  {
  }

  /** One step up, if there is one. */
  function Up(objects: Objects, r: OwnerReference): Option<OwnerReference> {
    match OwnerObject(objects, r)
    case Ok(o) => Controller(o.owners)
    case _ => None
  }

  /** The n-th reference of the chain that starts with r. */
  function Chain(objects: Objects, r: OwnerReference, n: nat): Option<OwnerReference> {
    if n == 0 then Some(r)
    else match Chain(objects, r, n - 1)
         case None => None
         case Some(last) => Up(objects, last)
  }

  /** The chain ends with its n-th reference. */
  predicate EndsAfter(objects: Objects, r: OwnerReference, n: nat) {
    Chain(objects, r, n).Some? && Chain(objects, r, n + 1).None?
  }

  ghost predicate Terminates(objects: Objects, r: OwnerReference) {
    exists n: nat :: EndsAfter(objects, r, n)
  }

  /** Some reference refers to the same object twice along the chain. */
  ghost predicate Cyclic(objects: Objects, r: OwnerReference) {
    exists i: nat, j: nat :: i < j && Same(Chain(objects, r, i), Chain(objects, r, j))
  }

  predicate Same(a: Option<OwnerReference>, b: Option<OwnerReference>) {
    a.Some? && b.Some? && a.value.kind == b.value.kind && a.value.name == b.value.name
  }

  // ---------------------------------------------------------------------------------------
  // Chains

  lemma {:induction false} ChainAdds(objects: Objects, r: OwnerReference, m: nat, n: nat)
    requires Chain(objects, r, m).Some?
    ensures Chain(objects, r, m + n) == Chain(objects, Chain(objects, r, m).value, n)
  {
    if n > 0 { ChainAdds(objects, r, m, n - 1); }
  }

  lemma {:induction false} ChainBefore(objects: Objects, r: OwnerReference, m: nat, n: nat)
    requires m <= n && Chain(objects, r, n).Some?
    ensures Chain(objects, r, m).Some?
    decreases n
  {
    if m < n { ChainBefore(objects, r, m, n - 1); }
  }

  lemma EndIsUnique(objects: Objects, r: OwnerReference, m: nat, n: nat)
    requires EndsAfter(objects, r, m) && EndsAfter(objects, r, n)
    ensures m == n
  {
    if m < n { ChainBefore(objects, r, m + 1, n); }
    if n < m { ChainBefore(objects, r, n + 1, m); }
  }

  /** References that name the same object lead up to the same reference. */
  lemma {:induction false} SameGoesOn(objects: Objects, a: OwnerReference, b: OwnerReference, n: nat)
    requires a.kind == b.kind && a.name == b.name
    ensures n > 0 ==> Chain(objects, a, n) == Chain(objects, b, n)
  {
    if n > 1 { SameGoesOn(objects, a, b, n - 1); }
    if n == 1 { assert Chain(objects, a, 0) == Some(a) && Chain(objects, b, 0) == Some(b); }
  }

  /** A chain that revisits an object never ends. */
  lemma {:induction false} CyclesGoOn(objects: Objects, r: OwnerReference, i: nat, j: nat, n: nat)
    requires i < j && Same(Chain(objects, r, i), Chain(objects, r, j))
    ensures Chain(objects, r, n).Some?
    decreases n
  {
    if n <= j {
      ChainBefore(objects, r, n, j);
    } else {
      CyclesGoOn(objects, r, i, j, n - (j - i));
      ChainAdds(objects, r, i, n - j);
      ChainAdds(objects, r, j, n - j);
      SameGoesOn(objects, Chain(objects, r, i).value, Chain(objects, r, j).value, n - j);
    }
  }

  /** The objects of the first n references. */
  ghost function Visited(objects: Objects, r: OwnerReference, n: nat): set<(string, string)>
    requires Chain(objects, r, n).Some?
  {
    if n == 0 then {}
    else
      ChainBefore(objects, r, n - 1, n);
      var last := Chain(objects, r, n - 1).value;
      Visited(objects, r, n - 1) + {(last.kind, last.name)}
  }

  predicate VisitedAt(objects: Objects, r: OwnerReference, i: nat, k: (string, string)) {
    var at := Chain(objects, r, i);
    at.Some? && k == (at.value.kind, at.value.name)
  }

  lemma {:induction false} VisitedMeaning(objects: Objects, r: OwnerReference, n: nat, k: (string, string))
      returns (i: nat)
    requires Chain(objects, r, n).Some? && k in Visited(objects, r, n)
    ensures i < n && VisitedAt(objects, r, i, k)
  {
    ChainBefore(objects, r, n - 1, n);
    if VisitedAt(objects, r, n - 1, k) {
      i := n - 1;
    } else {
      i := VisitedMeaning(objects, r, n - 1, k);
    }
  }

  lemma VisitedTwice(objects: Objects, r: OwnerReference, n: nat)
    requires Chain(objects, r, n).Some?
    requires (Chain(objects, r, n).value.kind, Chain(objects, r, n).value.name) in Visited(objects, r, n)
    ensures Cyclic(objects, r)
  {
    var last := Chain(objects, r, n).value;
    var i := VisitedMeaning(objects, r, n, (last.kind, last.name));
    assert Same(Chain(objects, r, i), Chain(objects, r, n));
  }

  lemma {:induction false} VisitedCount(objects: Objects, r: OwnerReference, n: nat)
    requires Chain(objects, r, n).Some? && !Cyclic(objects, r)
    ensures |Visited(objects, r, n)| == n && Visited(objects, r, n) <= objects.Keys
  {
    if n > 0 {
      ChainBefore(objects, r, n - 1, n);
      var last := Chain(objects, r, n - 1).value;
      assert Up(objects, last).Some? && (last.kind, last.name) in objects;
      if (last.kind, last.name) in Visited(objects, r, n - 1) { VisitedTwice(objects, r, n - 1); }
      hide Cyclic;
      hide Up;
      VisitedCount(objects, r, n - 1);
    }
  }

  lemma {:induction false} SomeEnd(objects: Objects, r: OwnerReference, n: nat)
    requires Chain(objects, r, n).None?
    ensures Terminates(objects, r)
  {
    if n > 0 && Chain(objects, r, n - 1).Some? {
      assert EndsAfter(objects, r, n - 1);
    } else if n > 0 {
      SomeEnd(objects, r, n - 1);
    }
  }

  /** The walk terminates exactly if it visits no object twice; then it takes at most one step per
      object. */
  lemma TerminatesExactlyWhen(objects: Objects, r: OwnerReference)
    ensures Terminates(objects, r) <==> !Cyclic(objects, r)
    ensures forall n: nat :: EndsAfter(objects, r, n) ==> n <= |objects|
  {
    var n := |objects.Keys| + 1;
    if Cyclic(objects, r) {
      var i: nat, j: nat :| i < j && Same(Chain(objects, r, i), Chain(objects, r, j));
      forall k: nat ensures !EndsAfter(objects, r, k) {
        CyclesGoOn(objects, r, i, j, k + 1);
      }
    } else {
      NotLonger(objects, r, n);
      SomeEnd(objects, r, n);
      forall k: nat | EndsAfter(objects, r, k) ensures k <= |objects| {
        if k > |objects| { NotLonger(objects, r, k); }
      }
    }
  }

  lemma NotLonger(objects: Objects, r: OwnerReference, n: nat)
    requires !Cyclic(objects, r) && n > |objects|
    ensures Chain(objects, r, n).None?
  {
    if Chain(objects, r, n).Some? {
      VisitedCount(objects, r, n);
      SubsetSize(Visited(objects, r, n), objects.Keys);
    }
  }

  lemma {:induction false} SubsetSize<T>(a: set<T>, b: set<T>)
    requires a <= b
    ensures |a| <= |b|
  {
    if a != {} {
      var x :| x in a;
      SubsetSize(a - {x}, b - {x});
    }
  }

  // ---------------------------------------------------------------------------------------
  // The walk

  /** What the last reference of the chain gives: the top-level owner, or the error. */
  ghost function TopLevel(objects: Objects, r: OwnerReference): Answer<Object>
    requires Terminates(objects, r)
  {
    var n: nat :| EndsAfter(objects, r, n);
    OwnerObject(objects, Chain(objects, r, n).value)
  }

  lemma TopLevelAt(objects: Objects, r: OwnerReference, n: nat)
    requires EndsAfter(objects, r, n)
    ensures Terminates(objects, r) && TopLevel(objects, r) == OwnerObject(objects, Chain(objects, r, n).value)
  {
    forall m: nat | EndsAfter(objects, r, m) ensures m == n { EndIsUnique(objects, r, m, n); }
  }

  lemma EndAbove(objects: Objects, r: OwnerReference, k: nat, n: nat)
    requires EndsAfter(objects, r, n) && Chain(objects, r, k).Some?
    ensures k <= n && EndsAfter(objects, Chain(objects, r, k).value, n - k)
    ensures Chain(objects, Chain(objects, r, k).value, n - k) == Chain(objects, r, n)
  {
    if n < k { ChainBefore(objects, r, n + 1, k); }
    ChainAdds(objects, r, k, n - k);
    ChainAdds(objects, r, k, n - k + 1);
  }

  lemma TerminatesAbove(objects: Objects, r: OwnerReference, k: nat)
    requires Terminates(objects, r) && Chain(objects, r, k).Some?
    ensures Terminates(objects, Chain(objects, r, k).value)
    ensures TopLevel(objects, r) == TopLevel(objects, Chain(objects, r, k).value)
  {
    var n: nat :| EndsAfter(objects, r, n);
    EndAbove(objects, r, k, n);
    TopLevelAt(objects, r, n);
    TopLevelAt(objects, Chain(objects, r, k).value, n - k);
  }

  method GetOwner(objects: Objects, r: OwnerReference, ghost length: nat) returns (owner: Answer<Object>)
    requires EndsAfter(objects, r, length)
    ensures Terminates(objects, r) && owner == TopLevel(objects, r)
    decreases length
  {
    owner := OwnerObject(objects, r);
    if !owner.Ok? {
      LastReference(objects, r, length);
      return;
    }
    var owners := owner.value.owners;
    for i := 0 to |owners|
      invariant Controller(owners) == Controller(owners[i..])
    {
      if owners[i].controller {
        assert Up(objects, r) == Some(owners[i]) == Chain(objects, r, 1);
        if length == 0 { assert false; }
        ChainAdds(objects, r, 1, length - 1);
        ChainAdds(objects, r, 1, length);
        owner := GetOwner(objects, owners[i], length - 1);
        TerminatesAbove(objects, r, 1);
        return;
      }
    }
    LastReference(objects, r, length);
  }

  lemma LastReference(objects: Objects, r: OwnerReference, length: nat)
    requires EndsAfter(objects, r, length) && Up(objects, r) == None
    ensures TopLevel(objects, r) == OwnerObject(objects, r)
  {
    assert Chain(objects, r, 0) == Some(r) && Chain(objects, r, 1) == None;
    TopLevelAt(objects, r, 0);
  }

  /** All references resolve, and to supported kinds. */
  ghost predicate Resolvable(objects: Objects) {
    forall k :: k in objects ==>
      forall i :: 0 <= i < |objects[k].owners| ==> OwnerObject(objects, objects[k].owners[i]).Ok?
  }

  /** In an acyclic cluster where every reference resolves the walk ends with an object that no
      controller owns, the same for every reference on the way. */
  lemma OwnerTheorem(objects: Objects, r: OwnerReference)
    requires Resolvable(objects) && OwnerObject(objects, r).Ok? && !Cyclic(objects, r)
    ensures Terminates(objects, r) && TopLevel(objects, r).Ok? && Controller(TopLevel(objects, r).value.owners) == None
    ensures forall k: nat :: Chain(objects, r, k).Some? ==>
              var above := Chain(objects, r, k).value;
              Terminates(objects, above) && TopLevel(objects, above) == TopLevel(objects, r)
  {
    TerminatesExactlyWhen(objects, r);
    var n: nat :| EndsAfter(objects, r, n) && TopLevel(objects, r) == OwnerObject(objects, Chain(objects, r, n).value);
    ChainResolves(objects, r, n);
    forall k: nat | Chain(objects, r, k).Some?
      ensures var above := Chain(objects, r, k).value;
              Terminates(objects, above) && TopLevel(objects, above) == TopLevel(objects, r)
    {
      TerminatesAbove(objects, r, k);
    }
  }

  lemma {:induction false} ChainResolves(objects: Objects, r: OwnerReference, n: nat)
    requires Resolvable(objects) && OwnerObject(objects, r).Ok? && Chain(objects, r, n).Some?
    ensures OwnerObject(objects, Chain(objects, r, n).value).Ok?
  {
    if n > 0 {
      ChainBefore(objects, r, n - 1, n);
      ChainResolves(objects, r, n - 1);
      var before := Chain(objects, r, n - 1).value;
      ControllerIn(objects[(before.kind, before.name)].owners);
    }
  }

  lemma {:induction false} ControllerIn(owners: seq<OwnerReference>)
    requires Controller(owners).Some?
    ensures exists i :: 0 <= i < |owners| && owners[i] == Controller(owners).value
  {
    if owners[0].controller {
      assert owners[0] == Controller(owners).value;
    } else {
      ControllerIn(owners[1..]);
      var i :| 0 <= i < |owners[1..]| && owners[1..][i] == Controller(owners[1..]).value;
      assert owners[i + 1] == Controller(owners).value;
    }
  }
}
