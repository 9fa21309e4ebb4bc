/**
 Which identity a pod label is bound to: sorting bindings and filtering them
 (pkg/kuberneteshelper/azureidentitybinding.go, pkg/cmd/podidentity/detect.go).
 */
module Bindings {
  import Text

  datatype Binding = Binding(namespace: string, name: string, azureIdentity: string, selector: string)

  datatype IdentityType = UserAssignedMSI | ServicePrincipal | ServicePrincipalCertificate

  datatype Identity = Identity(name: string, kind: IdentityType, clientID: string)

  // ---------------------------------------------------------------------------------------
  // The order of bindings

  predicate Less(a: Binding, b: Binding) {
    if a.namespace == b.namespace then Text.Less(a.name, b.name) else Text.Less(a.namespace, b.namespace)
  }

  /** By namespace, and within one by name, each by the first character that differs. */
  ghost predicate Before(a: Binding, b: Binding) {
    Text.Precedes(a.namespace, b.namespace) || (a.namespace == b.namespace && Text.Precedes(a.name, b.name))
  }

  lemma LessExactlyWhen(a: Binding, b: Binding)
    ensures Less(a, b) <==> Before(a, b)
  {
    Text.LessExactlyWhen(a.namespace, b.namespace);
    Text.LessExactlyWhen(a.name, b.name);
    Text.LessIrreflexive(a.namespace);
  }

  predicate SameKey(a: Binding, b: Binding) {
    a.namespace == b.namespace && a.name == b.name
  }

  /** A strict order, total up to equal namespace and name. */
  lemma StrictOrder(a: Binding, b: Binding, c: Binding)
    ensures !Less(a, a)
    ensures Less(a, b) && Less(b, c) ==> Less(a, c)
    ensures Less(a, b) || Less(b, a) || SameKey(a, b)
    ensures SameKey(a, b) ==> Less(a, c) == Less(b, c) && Less(c, a) == Less(c, b)
  {
    Text.LessIrreflexive(a.name);
    Text.LessIrreflexive(a.namespace);
    Text.LessTotal(a.name, b.name);
    Text.LessTotal(a.namespace, b.namespace);
    if Less(a, b) && Less(b, c) {
      if a.namespace == b.namespace == c.namespace {
        Text.LessTransitive(a.name, b.name, c.name);
      } else if a.namespace != b.namespace && b.namespace != c.namespace {
        Text.LessTransitive(a.namespace, b.namespace, c.namespace);
        Text.LessIrreflexive(c.namespace);
      }
    }
  }

  /** What sort.Sort promises. */
  ghost predicate Sorted(s: seq<Binding>) {
    forall i, j :: 0 <= i < j < |s| ==> !Less(s[j], s[i])
  }

  ghost predicate DistinctKeys(s: seq<Binding>) {
    forall i, j :: 0 <= i < j < |s| ==> !SameKey(s[i], s[j])
  }

  /** The sorted form of bindings of distinct names. */
  lemma SortedExactlyWhen(s: seq<Binding>)
    requires DistinctKeys(s)
    ensures Sorted(s) <==> forall i, j :: 0 <= i < j < |s| ==> Before(s[i], s[j])
  {
    forall i, j | 0 <= i < j < |s| ensures !Less(s[j], s[i]) <==> Before(s[i], s[j]) {
      LessExactlyWhen(s[i], s[j]);
      StrictOrder(s[i], s[j], s[i]);
    }
    hide Less;
    hide Before;
  }

  lemma NotLessChain(a: Binding, b: Binding, c: Binding)
    requires !Less(b, a) && !Less(c, b)
    ensures !Less(c, a)
  {
    StrictOrder(b, a, c);
    StrictOrder(c, a, b);
    StrictOrder(a, b, c);
  }

  method Swap(a: array<Binding>, i: int, j: int)
    requires 0 <= i < a.Length && 0 <= j < a.Length
    modifies a
    ensures a[..] == old(a[..])[i := old(a[j])][j := old(a[i])]
    ensures multiset(a[..]) == multiset(old(a[..]))
  {
    a[i], a[j] := a[j], a[i];
  }

  /** A sort by Less and Swap: each item moves down past greater ones. */
  method Sort(a: array<Binding>)
    modifies a
    ensures Sorted(a[..]) && multiset(a[..]) == multiset(old(a[..]))
  {
    for i := 0 to a.Length
      invariant forall x, y :: 0 <= x < y < i ==> !Less(a[y], a[x])
      invariant multiset(a[..]) == multiset(old(a[..]))
    {
      var j := i;
      while j > 0 && Less(a[j], a[j - 1])
        invariant 0 <= j <= i
        invariant forall x, y :: 0 <= x < y <= i && y != j ==> !Less(a[y], a[x])
        invariant multiset(a[..]) == multiset(old(a[..]))
      {
        StrictOrder(a[j], a[j - 1], a[j]);
        Swap(a, j - 1, j);
        j := j - 1;
      }
      if j > 0 {
        forall x | 0 <= x < j - 1 ensures !Less(a[j], a[x]) {
          NotLessChain(a[x], a[j - 1], a[j]);
        }
      }
    }
  }

  lemma LeastFirst(s: seq<Binding>, t: seq<Binding>)
    requires Sorted(s) && Sorted(t) && DistinctKeys(s) && s != [] && t != []
    requires s[0] in t && t[0] in s
    ensures s[0] == t[0]
  {
    var i :| 0 <= i < |t| && t[i] == s[0];
    var j :| 0 <= j < |s| && s[j] == t[0];
    StrictOrder(s[0], t[0], s[0]);
  }

  lemma SameRest(s: seq<Binding>, t: seq<Binding>)
    requires s != [] && t != [] && s[0] == t[0] && multiset(s) == multiset(t)
    ensures multiset(s[1..]) == multiset(t[1..])
  {
    assert s == [s[0]] + s[1..] && t == [t[0]] + t[1..];
    assert multiset(s[1..]) == multiset(s) - multiset{s[0]};
    assert multiset(t[1..]) == multiset(t) - multiset{t[0]};
  }

  lemma SameLength(s: seq<Binding>, t: seq<Binding>)
    requires multiset(s) == multiset(t)
    ensures |s| == |t|
    ensures s != [] ==> s[0] in t && t[0] in s
  {
    assert |s| == |multiset(s)| == |multiset(t)| == |t|;
    if s != [] { assert s[0] in multiset(t) && t[0] in multiset(s); }
  }

  /** Whoever sorts bindings of distinct names gets the same list. */
  lemma {:induction false} SortedUnique(s: seq<Binding>, t: seq<Binding>)
    requires Sorted(s) && Sorted(t) && multiset(s) == multiset(t) && DistinctKeys(s)
    ensures s == t
  {
    SameLength(s, t);
    if s != [] {
      LeastFirst(s, t);
      SameRest(s, t);
      hide Less;
      hide SameKey;
      SortedUnique(s[1..], t[1..]);
      assert s == [s[0]] + s[1..] && t == [t[0]] + t[1..];
    }
  }

  // ---------------------------------------------------------------------------------------
  // Filtering

  /** The identities a binding may refer to, by name. */
  function IdentityMap(identities: seq<Identity>): map<string, Identity> {
    if identities == [] then map[]
    else
      var last := identities[|identities| - 1];
      var m := IdentityMap(identities[..|identities| - 1]);
      if last.kind == UserAssignedMSI then m[last.name := last] else m
  }

  predicate Resolves(b: Binding, identities: map<string, Identity>) {
    b.selector != "" && b.azureIdentity != "" && b.azureIdentity in identities
  }

  function Filtered(bindings: seq<Binding>, identities: map<string, Identity>): map<string, Identity> {
    if bindings == [] then map[]
    else
      var b := bindings[|bindings| - 1];
      var m := Filtered(bindings[..|bindings| - 1], identities);
      if Resolves(b, identities) && b.selector !in m then m[b.selector := identities[b.azureIdentity]] else m
  }

  method MapIdentities(identities: seq<Identity>) returns (m: map<string, Identity>)
    ensures m == IdentityMap(identities)
  {
    m := map[];
    for i := 0 to |identities|
      invariant m == IdentityMap(identities[..i])
    {
      assert identities[..i + 1][..i] == identities[..i];
      if identities[i].kind == UserAssignedMSI {
        m := m[identities[i].name := identities[i]];
      }
    }
    assert identities[..|identities|] == identities;
  }

  method FilterAzureIdentities(bindings: seq<Binding>, identities: map<string, Identity>)
      returns (m: map<string, Identity>)
    ensures m == Filtered(bindings, identities)
  {
    m := map[];
    for i := 0 to |bindings|
      invariant m == Filtered(bindings[..i], identities)
    {
      assert bindings[..i + 1][..i] == bindings[..i];
      var binding := bindings[i];
      if binding.selector == "" || binding.azureIdentity == "" {
        continue;
      }
      if binding.selector in m {
        continue;
      }
      if binding.azureIdentity in identities {
        m := m[binding.selector := identities[binding.azureIdentity]];
      }
    }
    assert bindings[..|bindings|] == bindings;
  }

  lemma {:induction false} IdentityMapMeaning(identities: seq<Identity>)
    ensures forall n :: n in IdentityMap(identities) <==>
              exists x :: x in identities && x.kind == UserAssignedMSI && x.name == n
    ensures forall n :: n in IdentityMap(identities) ==>
              IdentityMap(identities)[n] in identities && IdentityMap(identities)[n].name == n
              && IdentityMap(identities)[n].kind == UserAssignedMSI
  {
    if identities != [] {
      var front, last := identities[..|identities| - 1], identities[|identities| - 1];
      IdentityMapMeaning(front);
      assert identities == front + [last];
    }
  }

  ghost predicate DistinctNames(identities: seq<Identity>) {
    forall i, j :: 0 <= i < j < |identities| ==> identities[i].name != identities[j].name
  }

  lemma NameStaysMapped(identities: seq<Identity>, again: seq<Identity>, n: string)
    requires multiset(identities) == multiset(again) && n in IdentityMap(identities)
    ensures n in IdentityMap(again)
  {
    IdentityMapMeaning(identities);
    IdentityMapMeaning(again);
    assert IdentityMap(identities)[n] in multiset(again);
  }

  lemma SameIdentityMapped(identities: seq<Identity>, again: seq<Identity>, n: string)
    requires DistinctNames(identities) && multiset(identities) == multiset(again)
    requires n in IdentityMap(identities) && n in IdentityMap(again)
    ensures IdentityMap(again)[n] == IdentityMap(identities)[n]
  {
    IdentityMapMeaning(identities);
    IdentityMapMeaning(again);
    assert IdentityMap(again)[n] in multiset(identities);
    var i :| 0 <= i < |identities| && identities[i] == IdentityMap(identities)[n];
    var j :| 0 <= j < |identities| && identities[j] == IdentityMap(again)[n];
  }

  /** The map does not depend on the order in which identities of distinct names are listed. */
  lemma IdentityMapPermuted(identities: seq<Identity>, again: seq<Identity>)
    requires DistinctNames(identities) && multiset(identities) == multiset(again)
    ensures IdentityMap(identities) == IdentityMap(again)
  {
    forall n | n in IdentityMap(again) ensures n in IdentityMap(identities) {
      NameStaysMapped(again, identities, n);
    }
    forall n | n in IdentityMap(identities)
      ensures n in IdentityMap(again) && IdentityMap(again)[n] == IdentityMap(identities)[n]
    {
      NameStaysMapped(identities, again, n);
      SameIdentityMapped(identities, again, n);
    }
  }

  /** A selector is bound by the first binding of it that resolves. */
  lemma {:induction false} FilteredFirst(bindings: seq<Binding>, identities: map<string, Identity>, i: nat)
    requires i < |bindings| && Resolves(bindings[i], identities)
    requires forall k :: 0 <= k < i && bindings[k].selector == bindings[i].selector ==>
               !Resolves(bindings[k], identities)
    ensures var m := Filtered(bindings, identities);
            bindings[i].selector in m && m[bindings[i].selector] == identities[bindings[i].azureIdentity]
    decreases |bindings|
  {
    var front := bindings[..|bindings| - 1];
    if i == |front| {
      FilteredDomain(front, identities);
    } else {
      FilteredFirst(front, identities, i);
    }
  }

  lemma {:induction false} FilteredDomain(bindings: seq<Binding>, identities: map<string, Identity>)
    ensures forall sel :: sel in Filtered(bindings, identities) <==>
              exists k :: 0 <= k < |bindings| && Resolves(bindings[k], identities) && bindings[k].selector == sel
  {
    if bindings != [] {
      var front := bindings[..|bindings| - 1];
      FilteredDomain(front, identities);
      assert forall k :: 0 <= k < |front| ==> front[k] == bindings[k];
    }
  }

  // ---------------------------------------------------------------------------------------
  // Selection

  /** Of all bindings of its selector that resolve, the one of the smallest namespace and, within it,
      the smallest name. */
  ghost predicate Selected(b: Binding, bindings: multiset<Binding>, identities: map<string, Identity>) {
    && b in bindings && Resolves(b, identities)
    && forall c :: c in bindings && Resolves(c, identities) && c.selector == b.selector ==> c == b || Before(b, c)
  }

  lemma FirstIsSelected(sorted: seq<Binding>, identities: map<string, Identity>, i: nat)
    requires Sorted(sorted) && DistinctKeys(sorted) && i < |sorted| && Resolves(sorted[i], identities)
    requires forall k :: 0 <= k < i && sorted[k].selector == sorted[i].selector ==> !Resolves(sorted[k], identities)
    ensures Selected(sorted[i], multiset(sorted), identities)
  {
    SortedExactlyWhen(sorted);
    hide Before;
    assert forall c :: c in multiset(sorted) <==> c in sorted;
  }

  lemma {:induction false} FirstResolving(bindings: seq<Binding>, identities: map<string, Identity>, k: nat)
      returns (i: nat)
    requires k < |bindings| && Resolves(bindings[k], identities)
    ensures i <= k && Resolves(bindings[i], identities) && bindings[i].selector == bindings[k].selector
    ensures forall j :: 0 <= j < i && bindings[j].selector == bindings[k].selector ==>
              !Resolves(bindings[j], identities)
  {
    i := k;
    if j :| 0 <= j < k && bindings[j].selector == bindings[k].selector && Resolves(bindings[j], identities) {
      i := FirstResolving(bindings, identities, j);
    }
  }

  /** In which order the API server lists bindings does not matter: sorting and filtering binds each
      selector of a binding that resolves to the identity of the one that is selected, and nothing else. */
  lemma SelectionTheorem(sorted: seq<Binding>, identities: map<string, Identity>)
    requires Sorted(sorted) && DistinctKeys(sorted)
    ensures var m, all := Filtered(sorted, identities), multiset(sorted);
            && (forall sel :: sel in m <==> exists b :: b in all && Resolves(b, identities) && b.selector == sel)
            && (forall sel :: sel in m ==> exists b :: Selected(b, all, identities) && b.selector == sel
                                                       && m[sel] == identities[b.azureIdentity])
  {
    var m := Filtered(sorted, identities);
    FilteredDomain(sorted, identities);
    assert forall b :: b in multiset(sorted) <==> b in sorted;
    forall sel | sel in m
      ensures exists b :: Selected(b, multiset(sorted), identities) && b.selector == sel
                          && m[sel] == identities[b.azureIdentity]
    {
      var k :| 0 <= k < |sorted| && Resolves(sorted[k], identities) && sorted[k].selector == sel;
      var i := FirstResolving(sorted, identities, k);
      FirstIsSelected(sorted, identities, i);
      FilteredFirst(sorted, identities, i);
    }
    hide Selected;
  }

  /** Two listings of the same bindings, sorted in any way, and of the same identities are filtered
      to the same map. */
  lemma PermutationInvariance(listed: seq<Binding>, again: seq<Binding>, sorted: seq<Binding>, resorted: seq<Binding>,
                              identities: seq<Identity>, relisted: seq<Identity>)
    requires DistinctKeys(listed) && multiset(listed) == multiset(again)
    requires Sorted(sorted) && multiset(sorted) == multiset(listed)
    requires Sorted(resorted) && multiset(resorted) == multiset(again)
    requires DistinctNames(identities) && multiset(identities) == multiset(relisted)
    ensures Filtered(sorted, IdentityMap(identities)) == Filtered(resorted, IdentityMap(relisted))
  {
    DistinctKeysPermuted(listed, sorted);
    SortedUnique(sorted, resorted);
    IdentityMapPermuted(identities, relisted);
  }

  lemma DistinctKeysPermuted(s: seq<Binding>, t: seq<Binding>)
    requires DistinctKeys(s) && multiset(s) == multiset(t)
    ensures DistinctKeys(t)
  {
    forall i, j | 0 <= i < j < |t| ensures !SameKey(t[i], t[j]) {
      if SameKey(t[i], t[j]) {
        assert t[i] in multiset(s) && t[j] in multiset(s);
        var k :| 0 <= k < |s| && s[k] == t[i];
        var l :| 0 <= l < |s| && s[l] == t[j];
        assert k == l;
        TwiceCounted(t, i, j);
        OnceCounted(s, k);
      }
    }
  }

  lemma TwiceCounted(t: seq<Binding>, i: nat, j: nat)
    requires i < j < |t| && t[i] == t[j]
    ensures multiset(t)[t[i]] >= 2
  {
    assert t == t[..j] + t[j..];
    assert multiset(t) == multiset(t[..j]) + multiset(t[j..]);
    assert t[..j][i] in t[..j] && t[j..][0] in t[j..];
  }

  lemma OnceCounted(s: seq<Binding>, k: nat)
    requires DistinctKeys(s) && k < |s|
    ensures multiset(s)[s[k]] == 1
  {
    assert s == s[..k] + [s[k]] + s[k + 1..];
    assert multiset(s) == multiset(s[..k]) + multiset([s[k]]) + multiset(s[k + 1..]);
    assert s[k] !in s[..k] && s[k] !in s[k + 1..];
  }

  /** sort.Sort is not stable: bindings of one name may come in either order, and then which of
      them is selected is open. */
  lemma SameNamesAreAmbiguous(b: Binding, c: Binding, identities: map<string, Identity>)
    requires SameKey(b, c) && b.selector == c.selector && Resolves(b, identities) && Resolves(c, identities)
    ensures Sorted([b, c]) && Sorted([c, b]) && multiset([b, c]) == multiset([c, b])
    ensures Filtered([b, c], identities) == map[b.selector := identities[b.azureIdentity]]
    ensures Filtered([c, b], identities) == map[b.selector := identities[c.azureIdentity]]
  {
    StrictOrder(b, c, b);
    assert [b, c][..1] == [b] && [c, b][..1] == [c] && [b][..0] == [] && [c][..0] == [];
    assert Filtered([b], identities) == map[b.selector := identities[b.azureIdentity]];
    assert Filtered([c], identities) == map[c.selector := identities[c.azureIdentity]];
  }
}
