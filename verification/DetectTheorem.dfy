/** Detect's directory does not depend on any order of listing, sorting or iteration. */
module DetectTheorem {
  import opened Common
  import opened Bindings
  import opened Migration
  import opened Owners
  import opened Detect
  import opened DetectRun
  import opened PodMutator

  ghost predicate HasEntry(c: Cluster, labels: Labels, n: string)
    requires Acyclic(c)
  {
    IsBound(c, labels, n) && EntryOf(c, labels, n).Ok?
  }

  /** Top-level objects of one name are one object, whose pods carry one label; and none is named
      as another's account file. */
  ghost predicate WellNamed(c: Cluster, labels: Labels)
    requires Acyclic(c)
  {
    forall m, n :: HasEntry(c, labels, m) && HasEntry(c, labels, n) ==>
      var a, b := EntryOf(c, labels, m).value.owner, EntryOf(c, labels, n).value.owner;
      && b.name != a.name + "-serviceaccount"
      && (a.name == b.name ==> a == b && c.pods[m].binding == c.pods[n].binding)
  }

  lemma OutputOfEntry(c: Cluster, labels: Labels, opt: Options, n: string)
    requires Acyclic(c) && n in Outputs(c, labels, opt)
    ensures HasEntry(c, labels, n)
    ensures var e := EntryOf(c, labels, n).value;
            && Generate(c.accounts, opt, e.owner, e.clientID) == Ok(Outputs(c, labels, opt)[n])
            && Outputs(c, labels, opt)[n].resource.name == e.owner.name
            && e.clientID == labels[c.pods[n].binding.value].clientID
  {
  }

  lemma WellNamedIsConsistent(c: Cluster, labels: Labels, opt: Options)
    requires Acyclic(c) && WellNamed(c, labels)
    ensures Consistent(Outputs(c, labels, opt))
  {
    var outs := Outputs(c, labels, opt);
    forall m, n | m in outs && n in outs
      ensures outs[n].resource.name != outs[m].resource.name + "-serviceaccount"
      ensures outs[m].resource.name == outs[n].resource.name ==> outs[m] == outs[n]
    {
      hide Generate;
      hide EntryOf;
      hide OutputOf;
      hide Outputs;
      OutputOfEntry(c, labels, opt, m);
      OutputOfEntry(c, labels, opt, n);
    }
    ConsistentExactlyWhen(outs);
  }

  /** The cluster with its lists as another listing gives them. */
  function Relisted(c: Cluster, bindings: seq<Binding>, identities: seq<Identity>): Cluster {
    c.(bindings := bindings, identities := identities)
  }

  lemma SameOutputs(c: Cluster, d: Cluster, labels: Labels, opt: Options)
    requires Acyclic(c) && d == Relisted(c, d.bindings, d.identities)
    ensures Acyclic(d) && Outputs(d, labels, opt) == Outputs(c, labels, opt)
  {
    forall n | n in c.pods && IsBound(c, labels, n) ensures OutputOf(d, labels, opt, n) == OutputOf(c, labels, opt, n) {
      AcyclicTerminates(c, n);
    }
  }

  /** Two runs on the same cluster, whose bindings and identities are listed in different orders,
      whose bindings are sorted in any way that sort.Sort allows, and whose maps are iterated in any
      order, generate the same directory: the old files, and for every top-level owner its account
      and its resource. */
  lemma RunsAgree(c: Cluster, d: Cluster, opt: Options, base: Files,
                  sorted: seq<Binding>, order: seq<string>, resorted: seq<Binding>, reorder: seq<string>)
    requires Acyclic(c) && d == Relisted(c, d.bindings, d.identities) && Acyclic(d)
    requires DistinctKeys(c.bindings) && multiset(d.bindings) == multiset(c.bindings)
    requires DistinctNames(c.identities) && multiset(d.identities) == multiset(c.identities)
    requires Sorted(sorted) && multiset(sorted) == multiset(c.bindings)
    requires Sorted(resorted) && multiset(resorted) == multiset(d.bindings)
    requires WellNamed(c, Filtered(sorted, IdentityMap(c.identities)))
    requires Enumerates(order, Outputs(c, Filtered(sorted, IdentityMap(c.identities)), opt).Keys)
    requires Enumerates(reorder, Outputs(d, Filtered(resorted, IdentityMap(d.identities)), opt).Keys)
    ensures var outs := Outputs(c, Filtered(sorted, IdentityMap(c.identities)), opt);
            var again := Outputs(d, Filtered(resorted, IdentityMap(d.identities)), opt);
            && WriteAll(base, outs, order) == WriteAll(base, again, reorder)
            && Expected(base, outs, WriteAll(base, outs, order))
  {
    PermutationInvariance(c.bindings, d.bindings, sorted, resorted, c.identities, d.identities);
    var labels := Filtered(sorted, IdentityMap(c.identities));
    SameOutputs(c, d, labels, opt);
    WellNamedIsConsistent(c, labels, opt);
    WriteAllExpected(base, Outputs(c, labels, opt), order);
    OrderIndependentExactlyWhen(base, Outputs(c, labels, opt));
  }

  /** The identity of a selector is that of the binding that is selected for it. */
  lemma IdentityOfSelector(c: Cluster, sorted: seq<Binding>, selector: string)
      returns (b: Binding, identity: Identity)
    requires DistinctKeys(c.bindings) && Sorted(sorted) && multiset(sorted) == multiset(c.bindings)
    requires selector in Filtered(sorted, IdentityMap(c.identities))
    ensures b.selector == selector && Selected(b, multiset(c.bindings), IdentityMap(c.identities))
    ensures identity in c.identities && identity.name == b.azureIdentity && identity.kind == UserAssignedMSI
    ensures Filtered(sorted, IdentityMap(c.identities))[selector] == identity
  {
    var identities := IdentityMap(c.identities);
    DistinctKeysPermuted(c.bindings, sorted);
    SelectionTheorem(sorted, identities);
    b :| Selected(b, multiset(sorted), identities) && b.selector == selector
         && Filtered(sorted, identities)[selector] == identities[b.azureIdentity];
    IdentityMapMeaning(c.identities);
    identity := identities[b.azureIdentity];
    hide IdentityMap;
    hide Filtered;
    hide Before;
  }

  lemma FilesOfOutput(base: Files, outs: map<string, Output>, order: seq<string>, n: string)
    requires Enumerates(order, outs.Keys) && Consistent(outs) && n in outs
    ensures var files, name := WriteAll(base, outs, order), outs[n].resource.name;
            && name + "-serviceaccount.yaml" in files && name + ".yaml" in files
            && files[name + "-serviceaccount.yaml"] == AccountFile(outs[n].account)
            && files[name + ".yaml"] == ResourceFile(outs[n].resource)
  {
    WriteAllExpected(base, outs, order);
    var name := outs[n].resource.name;
    FileNamesDiffer(name, name);
    assert AccountFileName(name) in FilesOf(outs[n]) && ResourceFileName(name) in FilesOf(outs[n]);
    hide WriteAll;
    hide Consistent;
  }

  /** What two files a bound pod gives rise to: a resource for its top-level owner, or for itself if it
      has no controller, and an account with the client ID of the identity that is selected for it. */
  lemma BoundPodIsMigrated(c: Cluster, opt: Options, base: Files, sorted: seq<Binding>, order: seq<string>, n: string)
      returns (b: Binding, identity: Identity, owner: Object, account: Account, resource: Object)
    requires Acyclic(c) && DistinctKeys(c.bindings) && Sorted(sorted) && multiset(sorted) == multiset(c.bindings)
    requires WellNamed(c, Filtered(sorted, IdentityMap(c.identities)))
    requires Enumerates(order, Outputs(c, Filtered(sorted, IdentityMap(c.identities)), opt).Keys)
    requires n in Outputs(c, Filtered(sorted, IdentityMap(c.identities)), opt)
    ensures n in c.pods && c.pods[n].binding == Some(b.selector)
    ensures Selected(b, multiset(c.bindings), IdentityMap(c.identities))
    ensures identity in c.identities && identity.name == b.azureIdentity && identity.kind == UserAssignedMSI
    ensures IsTopLevel(c, c.pods[n].pod, owner)
    ensures var files := WriteAll(base, Outputs(c, Filtered(sorted, IdentityMap(c.identities)), opt), order);
            && owner.name + "-serviceaccount.yaml" in files && owner.name + ".yaml" in files
            && files[owner.name + "-serviceaccount.yaml"] == AccountFile(account)
            && files[owner.name + ".yaml"] == ResourceFile(resource)
    ensures CLIENT_ID_ANNOTATION in account.annotations
    ensures account.annotations[CLIENT_ID_ANNOTATION] == identity.clientID
    ensures resource == Migrated(opt, owner, account.name)
  {
    var labels := Filtered(sorted, IdentityMap(c.identities));
    OutputOfEntry(c, labels, opt, n);
    var e, outs := EntryOf(c, labels, n).value, Outputs(c, labels, opt);
    owner, account, resource := e.owner, outs[n].account, outs[n].resource;
    OwnerOfEntry(c, labels, n);
    b, identity := IdentityOfSelector(c, sorted, c.pods[n].binding.value);
    GeneratedParts(c.accounts, opt, owner, e.clientID);
    WellNamedIsConsistent(c, labels, opt);
    FilesOfOutput(base, outs, order, n);
    hide WellNamed;
    hide Generate;
    hide Outputs;
    hide EntryOf;
    hide Selected;
    hide WriteAll;
    hide Acyclic;
    hide Migrated;
    hide IsTopLevel;
    hide Filtered;
    hide IdentityMap;
    hide Sorted;
    hide DistinctKeys;
    hide Enumerates;
    hide Consistent;
  }

  ghost predicate IsTopLevel(c: Cluster, pod: Object, owner: Object) {
    match Controller(pod.owners)
    case None => owner == pod
    case Some(r) => Terminates(c.objects, r) && TopLevel(c.objects, r) == Ok(owner)
  }

  lemma OwnerOfEntry(c: Cluster, labels: Labels, n: string)
    requires Acyclic(c) && HasEntry(c, labels, n)
    ensures IsTopLevel(c, c.pods[n].pod, EntryOf(c, labels, n).value.owner)
  {
    AcyclicTerminates(c, n);
  }

  lemma GeneratedParts(accounts: Accounts, opt: Options, o: Object, clientID: string)
    requires Generate(accounts, opt, o, clientID).Ok?
    ensures var out := Generate(accounts, opt, o, clientID).value;
            && CLIENT_ID_ANNOTATION in out.account.annotations
            && out.account.annotations[CLIENT_ID_ANNOTATION] == clientID
            && out.resource == Migrated(opt, o, out.account.name)
  {
    ClientIDKept(opt, BaseAccount(accounts, o.serviceAccountName, o.name).value, clientID);
    hide Migrated;
  }

  /** Pods of one owner under different labels make the account file depend on the order. */
  lemma DifferentLabelsAreInconsistent(c: Cluster, labels: Labels, opt: Options, m: string, n: string)
    requires Acyclic(c) && HasEntry(c, labels, m) && HasEntry(c, labels, n)
    requires EntryOf(c, labels, m).value.owner == EntryOf(c, labels, n).value.owner
    requires EntryOf(c, labels, m).value.clientID != EntryOf(c, labels, n).value.clientID
    requires OutputOf(c, labels, opt, m).Ok? && OutputOf(c, labels, opt, n).Ok?
    ensures !Consistent(Outputs(c, labels, opt))
  {
    var outs := Outputs(c, labels, opt);
    assert m in outs && n in outs && outs[m].resource.name == outs[n].resource.name;
    var a, b := EntryOf(c, labels, m).value, EntryOf(c, labels, n).value;
    ClientIDKept(opt, BaseAccount(c.accounts, a.owner.serviceAccountName, a.owner.name).value, a.clientID);
    ClientIDKept(opt, BaseAccount(c.accounts, b.owner.serviceAccountName, b.owner.name).value, b.clientID);
    assert outs[m] != outs[n];
    ConsistentExactlyWhen(outs);
  }

  lemma ClientIDKept(opt: Options, sa: Account, clientID: string)
    ensures var written := Annotated(opt, sa, clientID).annotations;
            CLIENT_ID_ANNOTATION in written && written[CLIENT_ID_ANNOTATION] == clientID
  {
    assert |TOKEN_EXPIRY_ANNOTATION| != |CLIENT_ID_ANNOTATION|;
    assert |CLIENT_ID_ANNOTATION| == |TENANT_ID_ANNOTATION| && CLIENT_ID_ANNOTATION[24] != TENANT_ID_ANNOTATION[24];
  }
}
