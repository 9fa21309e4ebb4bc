/** The service account and resource that detect generates for one owner
    (pkg/cmd/podidentity/detect.go). */
module Migration {
  import opened Common
  import opened Text
  import opened PodMutator
  import opened TokenLifetime
  import opened Owners

  datatype Options = Options(proxyPort: int, lifetime: int, tenantID: string)

  datatype Metadata = Metadata(labels: map<string, string>, annotations: map<string, string>)

  /** The service accounts of the namespace, by name. */
  type Accounts = map<string, Metadata>

  datatype Account = Account(name: string, labels: map<string, string>, annotations: map<string, string>)

  datatype Output = Output(account: Account, resource: Object)

  const PROXY_INIT_IMAGE_PREFIX := "mcr.microsoft.com/oss/azure/workload-identity/proxy-init"
  const PROXY_IMAGE_PREFIX := "mcr.microsoft.com/oss/azure/workload-identity/proxy"
  const IMAGE_TAG := ":v1.6.0"

  predicate HasImage(containers: seq<Container>, prefix: string) {
    exists i :: 0 <= i < |containers| && prefix <= containers[i].image
  }

  function ProxyInitContainer(opt: Options): Container {
    Container(PROXY_INIT_NAME, PROXY_INIT_IMAGE_PREFIX + IMAGE_TAG, [], [], [], false,
              [EnvVar(PROXY_PORT_ENV, Decimal(opt.proxyPort))], [], "privileged, as root, with NET_ADMIN only")
  }

  function ProxyContainer(opt: Options): Container {
    var port := "--proxy-port=" + Decimal(opt.proxyPort);
    Container(PROXY_NAME, PROXY_IMAGE_PREFIX + IMAGE_TAG, [port, "--log-level=info"], [opt.proxyPort],
              ["/proxy", port, "--probe", "--log-level=info"], false, [], [], "")
  }

  function WithProxyInit(opt: Options, containers: seq<Container>): seq<Container> {
    if HasImage(containers, PROXY_INIT_IMAGE_PREFIX) then containers else containers + [ProxyInitContainer(opt)]
  }

  function WithProxyContainer(opt: Options, containers: seq<Container>): seq<Container> {
    if HasImage(containers, PROXY_IMAGE_PREFIX) then containers else containers + [ProxyContainer(opt)]
  }

  method AddProxyInitContainer(opt: Options, initContainers: seq<Container>) returns (r: seq<Container>)
    ensures r == WithProxyInit(opt, initContainers)
  {
    for i := 0 to |initContainers|
      invariant !HasImage(initContainers[..i], PROXY_INIT_IMAGE_PREFIX)
    {
      if PROXY_INIT_IMAGE_PREFIX <= initContainers[i].image {
        return initContainers;
      }
    }
    assert initContainers[..|initContainers|] == initContainers;
    r := initContainers + [ProxyInitContainer(opt)];
  }

  method AddProxyContainer(opt: Options, containers: seq<Container>) returns (r: seq<Container>)
    ensures r == WithProxyContainer(opt, containers)
  {
    for i := 0 to |containers|
      invariant !HasImage(containers[..i], PROXY_IMAGE_PREFIX)
    {
      if PROXY_IMAGE_PREFIX <= containers[i].image {
        return containers;
      }
    }
    assert containers[..|containers|] == containers;
    r := containers + [ProxyContainer(opt)];
  }

  // ---------------------------------------------------------------------------------------
  // The generated objects

  /** A new account for owners that use the default one, else the owner's account. */
  function BaseAccount(accounts: Accounts, name: string, ownerName: string): Answer<Account> {
    if name == "" || name == "default" then Ok(Account(ownerName, map[], map[]))
    else if name in accounts then Ok(Account(name, accounts[name].labels, accounts[name].annotations))
    else Err(Missing(name))
  }

  function Annotated(opt: Options, sa: Account, clientID: string): Account {
    var named := sa.annotations[CLIENT_ID_ANNOTATION := clientID];
    var required := named[TOKEN_EXPIRY_ANNOTATION := PrintedSeconds(opt.lifetime)];
    sa.(annotations := if opt.tenantID != "" then required[TENANT_ID_ANNOTATION := opt.tenantID] else required)
  }

  function Migrated(opt: Options, o: Object, account: string): Object {
    o.(initContainers := WithProxyInit(opt, o.initContainers), containers := WithProxyContainer(opt, o.containers),
       serviceAccountName := account, resourceVersion := "")
  }

  function Generate(accounts: Accounts, opt: Options, o: Object, clientID: string): Answer<Output> {
    match BaseAccount(accounts, o.serviceAccountName, o.name)
    case Ok(sa) => Ok(Output(Annotated(opt, sa, clientID), Migrated(opt, o, sa.name)))
    case Err(e) => Err(e)
  }

  // ---------------------------------------------------------------------------------------
  // What migration does to a resource

  /** An image of the proxy, whose name is a prefix of the name of proxy-init. */
  predicate IsProxyImage(image: string) {
    PROXY_IMAGE_PREFIX <= image && !(PROXY_INIT_IMAGE_PREFIX <= image)
  }

  predicate RunsProxy(containers: seq<Container>) {
    exists i :: 0 <= i < |containers| && IsProxyImage(containers[i].image)
  }

  /** The user's containers are in front, in order and unchanged, and proxy-init is there.  The proxy
      is there too, unless the user's containers include proxy-init but not the proxy. */
  lemma MigratedShape(opt: Options, o: Object, account: string)
    ensures var m := Migrated(opt, o, account);
            && o.initContainers <= m.initContainers && |m.initContainers| <= |o.initContainers| + 1
            && o.containers <= m.containers && |m.containers| <= |o.containers| + 1
            && HasImage(m.initContainers, PROXY_INIT_IMAGE_PREFIX)
            && (RunsProxy(m.containers) <==>
                  RunsProxy(o.containers) || !HasImage(o.containers, PROXY_INIT_IMAGE_PREFIX))
            && m.kind == o.kind && m.name == o.name && m.owners == o.owners
            && m.serviceAccountName == account && m.resourceVersion == ""
  {
    var m := Migrated(opt, o, account);
    assert ProxyInitContainer(opt).image[..|PROXY_INIT_IMAGE_PREFIX|] == PROXY_INIT_IMAGE_PREFIX;
    assert m.initContainers == o.initContainers || m.initContainers[|o.initContainers|] == ProxyInitContainer(opt);
    ProxyRunsExactlyWhen(opt, o.containers);
  }

  /** What is added listens on, and redirects to, the port of the options. */
  lemma AddedForPort(opt: Options, o: Object, account: string)
    ensures var m, port := Migrated(opt, o, account), Decimal(opt.proxyPort);
            && (forall c :: c in m.initContainers && c !in o.initContainers ==>
                  && c.name == "azwi-proxy-init" && c.image == PROXY_INIT_IMAGE_PREFIX + IMAGE_TAG
                  && c.env == [EnvVar("PROXY_PORT", port)])
            && (forall c :: c in m.containers && c !in o.containers ==>
                  && c.name == "azwi-proxy" && c.image == PROXY_IMAGE_PREFIX + IMAGE_TAG && c.ports == [opt.proxyPort]
                  && c.args == ["--proxy-port=" + port, "--log-level=info"]
                  && c.postStart == ["/proxy", "--proxy-port=" + port, "--probe", "--log-level=info"])
  {
    hide Decimal;
    hide HasImage;
  }

  lemma ProxyInitIsProxyToo(image: string)
    ensures PROXY_INIT_IMAGE_PREFIX <= image ==> PROXY_IMAGE_PREFIX <= image
  {
    assert PROXY_INIT_IMAGE_PREFIX[..|PROXY_IMAGE_PREFIX|] == PROXY_IMAGE_PREFIX;
    if PROXY_INIT_IMAGE_PREFIX <= image {
      assert image[..|PROXY_IMAGE_PREFIX|] == PROXY_INIT_IMAGE_PREFIX[..|PROXY_IMAGE_PREFIX|];
    }
  }

  lemma AddedProxy(opt: Options)
    ensures IsProxyImage(ProxyContainer(opt).image)
  {
    var image, n := ProxyContainer(opt).image, |PROXY_IMAGE_PREFIX|;
    assert image[..n] == PROXY_IMAGE_PREFIX;
    assert image[n] == ':' && PROXY_INIT_IMAGE_PREFIX[n] == '-';
  }

  lemma ProxyRunsExactlyWhen(opt: Options, cs: seq<Container>)
    ensures RunsProxy(WithProxyContainer(opt, cs)) <==> RunsProxy(cs) || !HasImage(cs, PROXY_INIT_IMAGE_PREFIX)
  {
    hide IsProxyImage;
    if HasImage(cs, PROXY_IMAGE_PREFIX) {
      SomeProxy(cs);
    } else {
      AddedProxy(opt);
      assert WithProxyContainer(opt, cs)[|cs|] == ProxyContainer(opt);
      if i :| 0 <= i < |cs| && PROXY_INIT_IMAGE_PREFIX <= cs[i].image { ProxyInitIsProxyToo(cs[i].image); }
    }
  }

  lemma SomeProxy(cs: seq<Container>)
    requires HasImage(cs, PROXY_IMAGE_PREFIX)
    ensures RunsProxy(cs) || HasImage(cs, PROXY_INIT_IMAGE_PREFIX)
  {
    var i :| 0 <= i < |cs| && PROXY_IMAGE_PREFIX <= cs[i].image;
    assert IsProxyImage(cs[i].image) || PROXY_INIT_IMAGE_PREFIX <= cs[i].image;
  }

  predicate IsReserved(key: string) {
    key == CLIENT_ID_ANNOTATION || key == TENANT_ID_ANNOTATION || key == TOKEN_EXPIRY_ANNOTATION
  }

  /** Account and resource fit together.  Owners that used the default account get one of their own
      name; other accounts keep their names and their other annotations. */
  lemma GeneratedFits(accounts: Accounts, opt: Options, o: Object, clientID: string)
    requires Generate(accounts, opt, o, clientID).Ok?
    ensures var out := Generate(accounts, opt, o, clientID).value;
            && out.resource.serviceAccountName == out.account.name
            && (if o.serviceAccountName == "" || o.serviceAccountName == "default" then
                  out.account.name == o.name && forall k :: k in out.account.annotations ==> IsReserved(k)
                else
                  && out.account.name == o.serviceAccountName && o.serviceAccountName in accounts
                  && forall k :: !IsReserved(k) ==>
                       && (k in out.account.annotations <==> k in accounts[o.serviceAccountName].annotations)
                       && (k in out.account.annotations ==>
                             out.account.annotations[k] == accounts[o.serviceAccountName].annotations[k]))
            && (opt.tenantID == "" ==>
                  (TENANT_ID_ANNOTATION in out.account.annotations <==>
                     && out.account.name == o.serviceAccountName != "default" && o.serviceAccountName != ""
                     && TENANT_ID_ANNOTATION in accounts[o.serviceAccountName].annotations))
  {
  }

  const USE_LABEL := "azure.workload.identity/use"

  predicate HasUseLabel(labels: map<string, string>) {
    USE_LABEL in labels && labels[USE_LABEL] == "true"
  }

  /** The comment on createServiceAccountFile promises the use label on the generated account.  The
      account has it exactly if the owner's own account had it; so a new account never does. */
  lemma LabelledExactlyWhen(accounts: Accounts, opt: Options, o: Object, clientID: string)
    requires Generate(accounts, opt, o, clientID).Ok?
    ensures HasUseLabel(Generate(accounts, opt, o, clientID).value.account.labels) <==>
              && o.serviceAccountName != "" && o.serviceAccountName != "default"
              && HasUseLabel(accounts[o.serviceAccountName].labels)
  {
    var sa := BaseAccount(accounts, o.serviceAccountName, o.name).value;
    assert Generate(accounts, opt, o, clientID).value.account.labels == sa.labels;
  }

  /** Migrating what was migrated, with the generated account in place, changes nothing. */
  lemma MigrationIdempotent(accounts: Accounts, opt: Options, o: Object, clientID: string)
    requires Generate(accounts, opt, o, clientID).Ok?
    ensures var out := Generate(accounts, opt, o, clientID).value;
            var applied := accounts[out.account.name := Metadata(out.account.labels, out.account.annotations)];
            Generate(applied, opt, out.resource, clientID) == Ok(out)
  {
    var out := Generate(accounts, opt, o, clientID).value;
    MigratedShape(opt, o, out.account.name);
    assert Annotated(opt, out.account, clientID).annotations == out.account.annotations;
    var applied := accounts[out.account.name := Metadata(out.account.labels, out.account.annotations)];
    assert Generate(applied, opt, out.resource, clientID).value.resource == out.resource;
  }

  /** The prefix of the proxy's image is one of the proxy-init image's too: detect leaves the proxy
      out exactly if some container runs either image, so one that runs proxy-init is enough. */
  lemma ProxyLeftOutExactlyWhen(opt: Options, containers: seq<Container>)
    ensures WithProxyContainer(opt, containers) == containers <==> HasImage(containers, PROXY_IMAGE_PREFIX)
    ensures HasImage(containers, PROXY_INIT_IMAGE_PREFIX) ==> WithProxyContainer(opt, containers) == containers
  {
    assert PROXY_INIT_IMAGE_PREFIX[..|PROXY_IMAGE_PREFIX|] == PROXY_IMAGE_PREFIX;
    if i :| 0 <= i < |containers| && PROXY_INIT_IMAGE_PREFIX <= containers[i].image {
      assert containers[i].image[..|PROXY_IMAGE_PREFIX|] == PROXY_INIT_IMAGE_PREFIX[..|PROXY_IMAGE_PREFIX|];
    }
    assert |containers + [ProxyContainer(opt)]| != |containers|;
  }

  /** What detect writes on the account, the webhook reads back: the lifetime within half a second,
      and the given identity. */
  lemma GeneratedAccountReadBack(opt: Options, sa: Account, clientID: string, pod: Pod)
    requires AcceptedLifetime(opt.lifetime) && Annotation(pod.annotations, TOKEN_EXPIRY_ANNOTATION) == ""
    ensures var written := Annotated(opt, sa, clientID).annotations;
            var parsed := TokenExpiration(pod, ServiceAccount(written));
            && parsed.Some? && ValidTokenExpiry(parsed.value)
            && -SECOND < 2 * (parsed.value * SECOND - opt.lifetime) <= SECOND
            && Annotation(written, CLIENT_ID_ANNOTATION) == clientID
            && (opt.tenantID != "" ==> Annotation(written, TENANT_ID_ANNOTATION) == opt.tenantID)
  {
    RoundWithinBounds(opt.lifetime);
    ParseDecimal(RoundToSecond(opt.lifetime) / SECOND, 64);
    DecimalDigits(RoundToSecond(opt.lifetime) / SECOND);
    assert |TOKEN_EXPIRY_ANNOTATION| != |CLIENT_ID_ANNOTATION| && |TOKEN_EXPIRY_ANNOTATION| != |TENANT_ID_ANNOTATION|;
    assert |CLIENT_ID_ANNOTATION| == |TENANT_ID_ANNOTATION| && CLIENT_ID_ANNOTATION[24] != TENANT_ID_ANNOTATION[24];
  }
}
