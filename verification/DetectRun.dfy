/** The detect command as its code runs it, with maps iterated in any order. */
module DetectRun {
  import opened Common
  import opened Bindings
  import opened Owners
  import opened Migration
  import opened Detect
  import opened TokenLifetime
  import opened PodMutator

  // ---------------------------------------------------------------------------------------
  // What the loops collect

  ghost function BoundPods(c: Cluster, labels: Labels): set<string> {
    set n | n in c.pods && IsBound(c, labels, n)
  }

  /** The controllers of the visited pods; a reference is a key of its own in every pod, since it
      contains pointers. */
  ghost function ReferencesOf(c: Cluster, labels: Labels, visited: set<string>): map<string, (OwnerReference, string)> {
    map n | n in visited && n in c.pods && IsBound(c, labels, n) && Controller(c.pods[n].pod.owners).Some?
      :: (Controller(c.pods[n].pod.owners).value, labels[c.pods[n].binding.value].clientID)
  }

  ghost function StandaloneOf(c: Cluster, labels: Labels, visited: set<string>): map<string, Entry> {
    map n | n in visited && n in c.pods && IsBound(c, labels, n) && Controller(c.pods[n].pod.owners).None?
      :: Entry(c.pods[n].pod, labels[c.pods[n].binding.value].clientID)
  }

  function PodsOf(c: Cluster, selector: string): set<string> {
    set n | n in c.pods && c.pods[n].binding == Some(selector)
  }

  /** What can be generated. */
  ghost function Outputs(c: Cluster, labels: Labels, opt: Options): map<string, Output>
    requires Acyclic(c)
  {
    map n | n in c.pods && IsBound(c, labels, n) && OutputOf(c, labels, opt, n).Ok? :: OutputOf(c, labels, opt, n).value
  }

  predicate SameFailure<T, U>(a: Answer<T>, b: Answer<U>) {
    a.Err? && b.Err? && a.error == b.error
  }

  // ---------------------------------------------------------------------------------------
  // The code

  class DetectCmd {
    const cluster: Cluster
    const options: Options
    var files: Files

    constructor (cluster: Cluster, options: Options, files: Files)
      ensures this.cluster == cluster && this.options == options && this.files == files
    {
      this.cluster, this.options, this.files := cluster, options, files;
    }

    method CreateServiceAccountFile(name: string, ownerName: string, clientID: string) returns (r: Answer<Account>)
      modifies this
      ensures var base := BaseAccount(cluster.accounts, name, ownerName);
              if base.Ok? then
                && r == Ok(Annotated(options, base.value, clientID))
                && files == old(files)[AccountFileName(ownerName) := AccountFile(r.value)]
              else r == base && files == old(files)
    {
      var sa := Account(ownerName, map[], map[]);
      if name != "" && name != "default" {
        if name !in cluster.accounts {
          return Err(Missing(name));
        }
        sa := Account(name, cluster.accounts[name].labels, cluster.accounts[name].annotations);
      }
      var annotations := sa.annotations;
      annotations := annotations[CLIENT_ID_ANNOTATION := clientID];
      annotations := annotations[TOKEN_EXPIRY_ANNOTATION := PrintedSeconds(options.lifetime)];
      if options.tenantID != "" {
        annotations := annotations[TENANT_ID_ANNOTATION := options.tenantID];
      }
      sa := sa.(annotations := annotations);
      files := files[AccountFileName(ownerName) := AccountFile(sa)];
      r := Ok(sa);
    }

    method CreateResourceFile(o: Object, sa: Account)
      modifies this
      ensures files == old(files)[ResourceFileName(o.name) := ResourceFile(Migrated(options, o, sa.name))]
    {
      var initContainers := AddProxyInitContainer(options, o.initContainers);
      var containers := AddProxyContainer(options, o.containers);
      var resource := o.(initContainers := initContainers, containers := containers);
      resource := resource.(serviceAccountName := sa.name, resourceVersion := "");
      files := files[ResourceFileName(o.name) := ResourceFile(resource)];
    }

    method Collect(labels: Labels)
        returns (references: map<string, (OwnerReference, string)>, results: map<string, Entry>)
      ensures references == ReferencesOf(cluster, labels, BoundPods(cluster, labels))
      ensures results == StandaloneOf(cluster, labels, BoundPods(cluster, labels))
    {
      references, results := map[], map[];
      var selectors := labels.Keys;
      ghost var visited: set<string> := {};
      while selectors != {}
        invariant selectors <= labels.Keys
        invariant visited == set n | n in BoundPods(cluster, labels) && cluster.pods[n].binding.value !in selectors
        invariant references == ReferencesOf(cluster, labels, visited)
        invariant results == StandaloneOf(cluster, labels, visited)
        decreases |selectors|
      {
        var selector :| selector in selectors;
        selectors := selectors - {selector};
        references, results := CollectSelector(labels, selector, references, results, visited);
        visited := visited + PodsOf(cluster, selector);
      }
      assert visited == BoundPods(cluster, labels);
    }

    method CollectSelector(labels: Labels, selector: string, references: map<string, (OwnerReference, string)>,
                           results: map<string, Entry>, ghost visited: set<string>)
        returns (references': map<string, (OwnerReference, string)>, results': map<string, Entry>)
      requires selector in labels
      requires references == ReferencesOf(cluster, labels, visited) && results == StandaloneOf(cluster, labels, visited)
      ensures references' == ReferencesOf(cluster, labels, visited + PodsOf(cluster, selector))
      ensures results' == StandaloneOf(cluster, labels, visited + PodsOf(cluster, selector))
    {
      references', results' := references, results;
      var pods := PodsOf(cluster, selector);
      ghost var seen := visited;
      while pods != {}
        invariant pods <= PodsOf(cluster, selector)
        invariant seen == visited + (PodsOf(cluster, selector) - pods)
        invariant references' == ReferencesOf(cluster, labels, seen)
        invariant results' == StandaloneOf(cluster, labels, seen)
        decreases |pods|
      {
        hide ReferencesOf;
        hide StandaloneOf;
        var n :| n in pods;
        pods := pods - {n};
        references', results' := AddPod(labels, selector, n, references', results', seen);
        seen := seen + {n};
      }
    }

    method AddPod(labels: Labels, selector: string, n: string, references: map<string, (OwnerReference, string)>,
                  results: map<string, Entry>, ghost visited: set<string>)
        returns (references': map<string, (OwnerReference, string)>, results': map<string, Entry>)
      requires n in cluster.pods && cluster.pods[n].binding == Some(selector) && selector in labels
      requires references == ReferencesOf(cluster, labels, visited) && results == StandaloneOf(cluster, labels, visited)
      ensures references' == ReferencesOf(cluster, labels, visited + {n})
      ensures results' == StandaloneOf(cluster, labels, visited + {n})
    {
      references', results' := references, results;
      var owners, clientID := cluster.pods[n].pod.owners, labels[selector].clientID;
      for i := 0 to |owners|
        invariant references' == references && results' == results
        invariant Controller(owners) == Controller(owners[i..])
      {
        if owners[i].controller {
          references' := references[n := (owners[i], clientID)];
          assert results' == StandaloneOf(cluster, labels, visited + {n});
          return;
        }
      }
      results' := results[n := Entry(cluster.pods[n].pod, clientID)];
      assert references' == ReferencesOf(cluster, labels, visited + {n});
    }

    method Resolve(labels: Labels, references: map<string, (OwnerReference, string)>, standalone: map<string, Entry>)
        returns (r: Answer<map<string, Entry>>, ghost failed: string)
      requires Acyclic(cluster)
      requires references == ReferencesOf(cluster, labels, BoundPods(cluster, labels))
      requires standalone == StandaloneOf(cluster, labels, BoundPods(cluster, labels))
      ensures r.Ok? ==> r.value.Keys == BoundPods(cluster, labels)
                        && forall n :: n in r.value ==> EntryOf(cluster, labels, n) == Ok(r.value[n])
      ensures !r.Ok? ==> IsBound(cluster, labels, failed) && SameFailure(r, EntryOf(cluster, labels, failed))
    {
      var results, todo := standalone, references.Keys;
      failed := "";
      while todo != {}
        invariant todo <= references.Keys
        invariant results.Keys == BoundPods(cluster, labels) - todo
        invariant forall n :: n in results ==> EntryOf(cluster, labels, n) == Ok(results[n])
        decreases |todo|
      {
        var n :| n in todo;
        todo := todo - {n};
        AcyclicTerminates(cluster, n);
        ghost var length: nat :| EndsAfter(cluster.objects, references[n].0, length);
        var owner := GetOwner(cluster.objects, references[n].0, length);
        match owner {
          case Ok(o) => results := results[n := Entry(o, references[n].1)];
          case Err(e) => return Err(e), n;
        }
      }
      r := Ok(results);
    }

    /** The two files of one result. */
    method WriteEntry(o: Object, clientID: string) returns (r: Answer<()>)
      modifies this
      ensures match Generate(cluster.accounts, options, o, clientID)
              case Err(e) => r == Err(e)
              case Ok(out) => r == Ok(()) && files == old(files)[AccountFileName(o.name) := AccountFile(out.account)]
                                                              [ResourceFileName(o.name) := ResourceFile(out.resource)]
    {
      var sa := CreateServiceAccountFile(o.serviceAccountName, o.name, clientID);
      if sa.Err? {
        return Err(sa.error);
      }
      CreateResourceFile(o, sa.value);
      r := Ok(());
    }

    method WriteResults(labels: Labels, results: map<string, Entry>)
        returns (r: Answer<()>, ghost order: seq<string>, ghost failed: string)
      requires Acyclic(cluster) && results.Keys == BoundPods(cluster, labels)
      requires forall n :: n in results ==> EntryOf(cluster, labels, n) == Ok(results[n])
      modifies this
      ensures r.Ok? ==> && Outputs(cluster, labels, options).Keys == BoundPods(cluster, labels)
                        && Enumerates(order, BoundPods(cluster, labels))
                        && files == WriteAll(old(files), Outputs(cluster, labels, options), order)
      ensures !r.Ok? ==> IsBound(cluster, labels, failed) && SameFailure(r, OutputOf(cluster, labels, options, failed))
    {
      hide Outputs;
      hide OutputOf;
      hide EntryOf;
      hide Generate;
      var todo := results.Keys;
      ghost var outs := Outputs(cluster, labels, options);
      order, failed := [], "";
      while todo != {}
        invariant todo <= results.Keys
        invariant Enumerates(order, results.Keys - todo)
        invariant forall n :: n in order ==> n in outs
        invariant files == WriteAll(old(files), outs, order)
        decreases |todo|
      {
        var n :| n in todo;
        todo := todo - {n};
        var o, clientID := results[n].owner, results[n].clientID;
        r := WriteEntry(o, clientID);
        OutputOfResult(cluster, labels, options, n, results[n]);
        if r.Err? {
          return r, order, n;
        }
        OneMoreWritten(old(files), outs, order, n, files);
        order := order + [n];
      }
      OutputsAreBound(cluster, labels, options);
      r := Ok(());
    }

    /** Any order of the listed bindings and of all iterations leads to some order of writing. */
    method Run() returns (r: Answer<()>, ghost sorted: seq<Binding>, ghost order: seq<string>, ghost failed: string)
      requires Acyclic(cluster)
      modifies this
      ensures Sorted(sorted) && multiset(sorted) == multiset(cluster.bindings)
      ensures var labels := Filtered(sorted, IdentityMap(cluster.identities));
              && (r.Ok? ==> && Outputs(cluster, labels, options).Keys == BoundPods(cluster, labels)
                            && Enumerates(order, BoundPods(cluster, labels))
                            && files == WriteAll(old(files), Outputs(cluster, labels, options), order))
              && (!r.Ok? ==>
                    IsBound(cluster, labels, failed) && SameFailure(r, OutputOf(cluster, labels, options, failed)))
    {
      var list := new Binding[|cluster.bindings|](i requires 0 <= i < |cluster.bindings| => cluster.bindings[i]);
      assert list[..] == cluster.bindings;
      Sort(list);
      sorted := list[..];
      var identities := MapIdentities(cluster.identities);
      var labels := FilterAzureIdentities(list[..], identities);
      var references, standalone := Collect(labels);
      order := [];
      var results;
      results, failed := Resolve(labels, references, standalone);
      match results {
        case Err(e) => return Err(e), sorted, order, failed;
        case Ok(entries) => r, order, failed := WriteResults(labels, entries);
      }
    }
  }

  lemma OutputOfResult(c: Cluster, labels: Labels, opt: Options, n: string, e: Entry)
    requires Acyclic(c) && IsBound(c, labels, n) && EntryOf(c, labels, n) == Ok(e)
    ensures OutputOf(c, labels, opt, n) == Generate(c.accounts, opt, e.owner, e.clientID)
    ensures OutputOf(c, labels, opt, n).Ok? ==>
              && n in Outputs(c, labels, opt) && Outputs(c, labels, opt)[n] == OutputOf(c, labels, opt, n).value
              && Outputs(c, labels, opt)[n].resource.name == e.owner.name
  {
    hide EntryOf;
  }

  lemma OutputsAreBound(c: Cluster, labels: Labels, opt: Options)
    requires Acyclic(c)
    ensures Outputs(c, labels, opt).Keys <= BoundPods(c, labels)
  {
  }

  lemma TwoAdded(files: Files, a: string, x: Content, b: string, y: Content)
    requires a != b
    ensures files + map[a := x, b := y] == files[a := x][b := y]
  {
  }

  lemma OneMoreWritten(base: Files, outs: map<string, Output>, order: seq<string>, n: string, files: Files)
    requires (forall m :: m in order ==> m in outs) && n in outs
    requires var out, before := outs[n], WriteAll(base, outs, order);
             files == before[AccountFileName(out.resource.name) := AccountFile(out.account)]
                            [ResourceFileName(out.resource.name) := ResourceFile(out.resource)]
    ensures forall m :: m in order + [n] ==> m in outs
    ensures files == WriteAll(base, outs, order + [n])
  {
    assert (order + [n])[..|order|] == order;
    var out, before := outs[n], WriteAll(base, outs, order);
    FileNamesDiffer(out.resource.name, out.resource.name);
    TwoAdded(before, AccountFileName(out.resource.name), AccountFile(out.account),
             ResourceFileName(out.resource.name), ResourceFile(out.resource));
  }
}
