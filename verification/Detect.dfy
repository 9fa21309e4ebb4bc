/**
 azwi podidentity detect (pkg/cmd/podidentity/detect.go): from the pods of a cluster to a
 directory of files, through maps whose iteration order is open.
 */
module Detect {
  import opened Common
  import opened Bindings
  import opened Owners
  import opened Migration

  datatype LabelledPod = LabelledPod(pod: Object, binding: Option<string>)

  datatype Cluster = Cluster(
    bindings: seq<Binding>, identities: seq<Identity>, pods: map<string, LabelledPod>,
    objects: Objects, accounts: Accounts)

  datatype Content = AccountFile(account: Account) | ResourceFile(resource: Object)

  type Labels = map<string, Identity>

  type Files = map<string, Content>

  // ---------------------------------------------------------------------------------------
  // What is to be generated

  /** A top-level owner or standalone pod, with the identity it is to use. */
  datatype Entry = Entry(owner: Object, clientID: string)

  predicate IsBound(c: Cluster, labels: Labels, n: string) {
    n in c.pods && c.pods[n].binding.Some? && c.pods[n].binding.value in labels
  }

  /** No chain of controllers of a pod revisits an object. */
  ghost predicate Acyclic(c: Cluster) {
    forall n :: n in c.pods && Controller(c.pods[n].pod.owners).Some? ==>
      !Cyclic(c.objects, Controller(c.pods[n].pod.owners).value)
  }

  ghost function RootOf(c: Cluster, pod: Object): Answer<Object>
    requires Controller(pod.owners).Some? ==> Terminates(c.objects, Controller(pod.owners).value)
  {
    match Controller(pod.owners)
    case None => Ok(pod)
    case Some(r) => TopLevel(c.objects, r)
  }

  lemma AcyclicTerminates(c: Cluster, n: string)
    requires Acyclic(c) && n in c.pods
    ensures Controller(c.pods[n].pod.owners).Some? ==> Terminates(c.objects, Controller(c.pods[n].pod.owners).value)
  {
    var r := Controller(c.pods[n].pod.owners);
    if r.Some? { TerminatesExactlyWhen(c.objects, r.value); }
  }

  ghost function EntryOf(c: Cluster, labels: Labels, n: string): Answer<Entry>
    requires Acyclic(c) && IsBound(c, labels, n)
  {
    AcyclicTerminates(c, n);
    match RootOf(c, c.pods[n].pod)
    case Ok(o) => Ok(Entry(o, labels[c.pods[n].binding.value].clientID))
    case Err(e) => Err(e)
  }

  ghost function OutputOf(c: Cluster, labels: Labels, opt: Options, n: string): Answer<Output>
    requires Acyclic(c) && IsBound(c, labels, n)
  {
    match EntryOf(c, labels, n)
    case Ok(e) => Generate(c.accounts, opt, e.owner, e.clientID)
    case Err(e) => Err(e)
  }

  // ---------------------------------------------------------------------------------------
  // Files

  function ResourceFileName(name: string): string {
    name + ".yaml"
  }

  function AccountFileName(prefix: string): string {
    prefix + "-serviceaccount.yaml"
  }

  function FilesOf(out: Output): Files {
    map[AccountFileName(out.resource.name) := AccountFile(out.account),
        ResourceFileName(out.resource.name) := ResourceFile(out.resource)]
  }

  /** The directory after writing the outputs in an order. */
  function WriteAll(base: Files, outs: map<string, Output>, order: seq<string>): Files
    requires forall n :: n in order ==> n in outs
  {
    if order == [] then base
    else
      var last := |order| - 1;
      assert order[last] in outs;
      WriteAll(base, outs, order[..last]) + FilesOf(outs[order[last]])
  }

  ghost predicate Enumerates(order: seq<string>, names: set<string>) {
    && (forall n :: n in order <==> n in names)
    && (forall i, j :: 0 <= i < j < |order| ==> order[i] != order[j])
  }

  /** Whoever writes a file writes the same. */
  ghost predicate Consistent(outs: map<string, Output>) {
    forall m, n, f :: m in outs && n in outs && f in FilesOf(outs[m]) && f in FilesOf(outs[n]) ==>
      FilesOf(outs[m])[f] == FilesOf(outs[n])[f]
  }

  lemma FileNamesDiffer(a: string, b: string)
    ensures AccountFileName(a) == ResourceFileName(b) <==> b == a + "-serviceaccount"
    ensures AccountFileName(a) == AccountFileName(b) <==> a == b
    ensures ResourceFileName(a) == ResourceFileName(b) <==> a == b
  {
    var suffix := "-serviceaccount";
    assert AccountFileName(a) == a + suffix + ".yaml";
    assert (a + suffix + ".yaml")[..|a + suffix|] == a + suffix;
    assert ResourceFileName(b)[..|b|] == b && ResourceFileName(a)[..|a|] == a;
    assert AccountFileName(a)[..|a|] == a && AccountFileName(b)[..|b|] == b;
  }

  /** Outputs are consistent exactly if those for one name agree, and none is named as the
      account file of another. */
  lemma ConsistentExactlyWhen(outs: map<string, Output>)
    ensures Consistent(outs) <==>
              forall m, n :: m in outs && n in outs ==>
                && outs[n].resource.name != outs[m].resource.name + "-serviceaccount"
                && (outs[m].resource.name == outs[n].resource.name ==> outs[m] == outs[n])
  {
    forall m, n | m in outs && n in outs
      ensures (forall f :: f in FilesOf(outs[m]) && f in FilesOf(outs[n]) ==>
                 FilesOf(outs[m])[f] == FilesOf(outs[n])[f]) <==>
                && outs[n].resource.name != outs[m].resource.name + "-serviceaccount"
                && outs[m].resource.name != outs[n].resource.name + "-serviceaccount"
                && (outs[m].resource.name == outs[n].resource.name ==> outs[m] == outs[n])
    {
      PairExactlyWhen(outs[m], outs[n]);
    }
  }

  lemma PairExactlyWhen(a: Output, b: Output)
    ensures (forall f :: f in FilesOf(a) && f in FilesOf(b) ==> FilesOf(a)[f] == FilesOf(b)[f]) <==>
              && b.resource.name != a.resource.name + "-serviceaccount"
              && a.resource.name != b.resource.name + "-serviceaccount"
              && (a.resource.name == b.resource.name ==> a == b)
  {
    var x, y := a.resource.name, b.resource.name;
    FileNamesDiffer(x, y);
    FileNamesDiffer(y, x);
    FileNamesDiffer(x, x);
    FileNamesDiffer(y, y);
    assert x != x + "-serviceaccount" && y != y + "-serviceaccount";
    assert FilesOf(a)[AccountFileName(x)] == AccountFile(a.account)
        && FilesOf(a)[ResourceFileName(x)] == ResourceFile(a.resource);
    assert FilesOf(b)[AccountFileName(y)] == AccountFile(b.account)
        && FilesOf(b)[ResourceFileName(y)] == ResourceFile(b.resource);
    hide FilesOf;
    hide AccountFileName;
    hide ResourceFileName;
  }

  /** The files that some output writes. */
  ghost predicate Writes(outs: map<string, Output>, f: string) {
    exists n :: n in outs && f in FilesOf(outs[n])
  }

  lemma {:induction false} WrittenFiles(base: Files, outs: map<string, Output>, order: seq<string>, f: string)
    requires forall n :: n in order ==> n in outs
    ensures f in WriteAll(base, outs, order) <==> f in base || exists n :: n in order && f in FilesOf(outs[n])
    ensures f in WriteAll(base, outs, order) ==>
              if exists n :: n in order && f in FilesOf(outs[n])
              then exists n :: n in order && f in FilesOf(outs[n])
                               && WriteAll(base, outs, order)[f] == FilesOf(outs[n])[f]
              else WriteAll(base, outs, order)[f] == base[f]
  {
    if order != [] {
      var last := |order| - 1;
      assert order == order[..last] + [order[last]];
      WrittenFiles(base, outs, order[..last], f);
    }
  }

  /** The directory that the command is to produce: old files, and for each entry its two files. */
  ghost predicate Expected(base: Files, outs: map<string, Output>, files: Files) {
    && (forall f :: f in files <==> f in base || Writes(outs, f))
    && (forall n, f :: n in outs && f in FilesOf(outs[n]) ==> files[f] == FilesOf(outs[n])[f])
    && (forall f :: f in base && !Writes(outs, f) ==> files[f] == base[f])
  }

  lemma ExpectedUnique(base: Files, outs: map<string, Output>, files: Files, again: Files)
    requires Expected(base, outs, files) && Expected(base, outs, again)
    ensures files == again
  {
    forall f | f in files ensures f in again && files[f] == again[f] {
      if Writes(outs, f) {
        var n :| n in outs && f in FilesOf(outs[n]);
        assert files[f] == FilesOf(outs[n])[f] == again[f];
      }
    }
    assert files.Keys == again.Keys;
  }

  lemma WriteAllExpected(base: Files, outs: map<string, Output>, order: seq<string>)
    requires Enumerates(order, outs.Keys) && Consistent(outs)
    ensures Expected(base, outs, WriteAll(base, outs, order))
  {
    forall f ensures f in WriteAll(base, outs, order) <==> f in base || Writes(outs, f) {
      WrittenFiles(base, outs, order, f);
    }
    forall n, f | n in outs && f in FilesOf(outs[n]) ensures WriteAll(base, outs, order)[f] == FilesOf(outs[n])[f] {
      WrittenFiles(base, outs, order, f);
      assert n in order;
    }
    forall f | f in base && !Writes(outs, f) ensures WriteAll(base, outs, order)[f] == base[f] {
      WrittenFiles(base, outs, order, f);
    }
  }

  /** The last output written keeps its files. */
  lemma LastWins(base: Files, outs: map<string, Output>, order: seq<string>, n: string, f: string)
    requires (forall m :: m in order ==> m in outs) && order != [] && order[|order| - 1] == n && n in outs
    requires f in FilesOf(outs[n])
    ensures f in WriteAll(base, outs, order) && WriteAll(base, outs, order)[f] == FilesOf(outs[n])[f]
  {
  }

  lemma {:induction false} EnumerationEndingWith(names: set<string>, n: string) returns (order: seq<string>)
    requires n in names
    ensures Enumerates(order, names) && order != [] && order[|order| - 1] == n
  {
    var front := Enumeration(names - {n});
    order := front + [n];
  }

  lemma {:induction false} Enumeration(names: set<string>) returns (order: seq<string>)
    ensures Enumerates(order, names)
    decreases |names|
  {
    if names == {} {
      order := [];
    } else {
      var n :| n in names;
      var rest := Enumeration(names - {n});
      order := [n] + rest;
    }
  }

  /** The directory does not depend on the order of writing exactly if the outputs are consistent. */
  lemma OrderIndependentExactlyWhen(base: Files, outs: map<string, Output>)
    ensures Consistent(outs) <==>
              forall a, b :: Enumerates(a, outs.Keys) && Enumerates(b, outs.Keys) ==>
                WriteAll(base, outs, a) == WriteAll(base, outs, b)
  {
    if Consistent(outs) {
      forall a, b | Enumerates(a, outs.Keys) && Enumerates(b, outs.Keys)
        ensures WriteAll(base, outs, a) == WriteAll(base, outs, b)
      {
        WriteAllExpected(base, outs, a);
        WriteAllExpected(base, outs, b);
        ExpectedUnique(base, outs, WriteAll(base, outs, a), WriteAll(base, outs, b));
      }
    } else {
      var m, n, f :| m in outs && n in outs && f in FilesOf(outs[m]) && f in FilesOf(outs[n])
          && FilesOf(outs[m])[f] != FilesOf(outs[n])[f];
      var a := EnumerationEndingWith(outs.Keys, m);
      var b := EnumerationEndingWith(outs.Keys, n);
      LastWins(base, outs, a, m, f);
      LastWins(base, outs, b, n, f);
    }
  }
}
