/** Names that create and delete derive on their own (pkg/cmd/serviceaccount/util/util.go,
    pkg/cmd/serviceaccount/create.go, pkg/cmd/serviceaccount/delete.go). */
module Naming {
  /** hash is the URL-safe Base64 of the SHA-256 of a string. */
  function ApplicationName(given: string, namespace: string, name: string, issuerURL: string,
                           hash: string -> string): string {
    if given != "" then given
    else if namespace != "" && name != "" && issuerURL != "" then namespace + "-" + name + "-" + hash(issuerURL)
    else ""
  }

  function CredentialName(namespace: string, name: string, issuerURL: string, hash: string -> string): string {
    hash(namespace + "-" + name + "-" + issuerURL)
  }

  function CredentialSubject(namespace: string, name: string): string {
    "system:serviceaccount:" + namespace + ":" + name
  }

  /** Subjects tell accounts apart, as namespaces have no colons. */
  lemma SubjectsTellAccounts(ns1: string, name1: string, ns2: string, name2: string)
    requires ':' !in ns1 && ':' !in ns2
    ensures CredentialSubject(ns1, name1) == "system:serviceaccount:" + ns1 + ":" + name1
    ensures CredentialSubject(ns1, name1) == CredentialSubject(ns2, name2) <==> ns1 == ns2 && name1 == name2
  {
    var a, b, n := CredentialSubject(ns1, name1), CredentialSubject(ns2, name2), |"system:serviceaccount:"|;
    assert a[n..n + |ns1|] == ns1 && a[n + |ns1|] == ':' && a[n + |ns1| + 1..] == name1;
    assert b[n..n + |ns2|] == ns2 && b[n + |ns2|] == ':' && b[n + |ns2| + 1..] == name2;
  }

  ghost predicate FixedLength(hash: string -> string) {
    forall a, b :: |hash(a)| == |hash(b)|
  }

  /** Default application names do not keep namespace and name apart: two accounts share one
      exactly if namespace and name, joined by a hyphen, agree, and the issuers' hashes do. */
  lemma SharedNameExactlyWhen(ns1: string, name1: string, url1: string, ns2: string, name2: string, url2: string,
                              hash: string -> string)
    requires FixedLength(hash)
    requires ns1 != "" && name1 != "" && url1 != "" && ns2 != "" && name2 != "" && url2 != ""
    ensures ApplicationName("", ns1, name1, url1, hash) == ApplicationName("", ns2, name2, url2, hash) <==>
              ns1 + "-" + name1 == ns2 + "-" + name2 && hash(url1) == hash(url2)
  {
    var joined1, joined2 := ns1 + "-" + name1, ns2 + "-" + name2;
    var all1, all2 := joined1 + "-" + hash(url1), joined2 + "-" + hash(url2);
    assert all1 == ApplicationName("", ns1, name1, url1, hash) && all2 == ApplicationName("", ns2, name2, url2, hash);
    assert |hash(url1)| == |hash(url2)|;
    assert all1[..|joined1|] == joined1 && all1[|joined1| + 1..] == hash(url1);
    assert all2[..|joined2|] == joined2 && all2[|joined2| + 1..] == hash(url2);
  }

  lemma NamespacesOverlap(a: string, b: string, c: string, url: string, hash: string -> string)
    requires a != "" && b != "" && c != "" && url != ""
    ensures ApplicationName("", a + "-" + b, c, url, hash) == ApplicationName("", a, b + "-" + c, url, hash)
  {
    assert a + "-" + b + "-" + c == a + "-" + (b + "-" + c);
  }

  /** Within a namespace, and for one issuer, names are told apart. */
  lemma NamesDiffer(ns: string, name1: string, name2: string, url: string, hash: string -> string)
    requires FixedLength(hash) && ns != "" && name1 != "" && name2 != "" && url != ""
    ensures ApplicationName("", ns, name1, url, hash) == ApplicationName("", ns, name2, url, hash) ==> name1 == name2
  {
    SharedNameExactlyWhen(ns, name1, url, ns, name2, url, hash);
    assert (ns + "-" + name1)[|ns| + 1..] == name1 && (ns + "-" + name2)[|ns| + 1..] == name2;
  }

  /** Credential names do not keep namespace, name and issuer apart either: two accounts get one name
      exactly if the three, joined by hyphens, agree; for one issuer, if namespace and name do. */
  lemma SharedCredentialNameExactlyWhen(ns1: string, name1: string, url1: string, ns2: string, name2: string,
                                        url2: string, hash: string -> string)
    requires var a, b := ns1 + "-" + name1 + "-" + url1, ns2 + "-" + name2 + "-" + url2; hash(a) == hash(b) ==> a == b
    ensures CredentialName(ns1, name1, url1, hash) == CredentialName(ns2, name2, url2, hash) <==>
              ns1 + "-" + name1 + "-" + url1 == ns2 + "-" + name2 + "-" + url2
    ensures url1 == url2 ==>
              (CredentialName(ns1, name1, url1, hash) == CredentialName(ns2, name2, url2, hash) <==>
                 ns1 + "-" + name1 == ns2 + "-" + name2)
  {
    var a, b := ns1 + "-" + name1, ns2 + "-" + name2;
    if url1 == url2 && a + "-" + url1 == b + "-" + url2 {
      assert |a| == |b|;
      assert (a + "-" + url1)[..|a|] == a && (b + "-" + url2)[..|b|] == b;
    }
  }

  /** Accounts of different namespaces can share a credential name, but never a subject. */
  lemma CredentialNamesOverlap(a: string, b: string, c: string, url: string, hash: string -> string)
    ensures CredentialName(a + "-" + b, c, url, hash) == CredentialName(a, b + "-" + c, url, hash)
    ensures CredentialSubject(a + "-" + b, c) != CredentialSubject(a, b + "-" + c)
  {
    assert a + "-" + b + "-" + c + "-" + url == a + "-" + (b + "-" + c) + "-" + url;
    var before := "system:serviceaccount:" + a;
    assert CredentialSubject(a + "-" + b, c)[|before|] == '-';
    assert CredentialSubject(a, b + "-" + c)[|before|] == ':';
  }
}
