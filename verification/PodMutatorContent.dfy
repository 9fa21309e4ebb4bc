/** What becomes of the user's pod: everything in it is kept, and what is added fits together. */
module PodMutatorContent {
  import opened Common
  import opened Config
  import opened PodMutator
  import opened PodMutatorTheorems
  import opened Text

  // ---------------------------------------------------------------------------------------
  // Environment variables

  /** The value a container sees: the last variable of that name. */
  function EffectiveEnv(env: seq<EnvVar>, name: string): Option<string> {
    if env == [] then None
    else if env[|env| - 1].name == name then Some(env[|env| - 1].value)
    else EffectiveEnv(env[..|env| - 1], name)
  }

  lemma {:induction false} EffectiveNames(env: seq<EnvVar>, name: string)
    ensures EffectiveEnv(env, name).Some? <==> name in EnvNames(env)
  {
    if env != [] {
      var front, last := env[..|env| - 1], env[|env| - 1];
      EffectiveNames(front, name);
      EnvNamesAppend(front, last);
      assert front + [last] == env;
    }
  }

  lemma {:induction false} EffectiveConcat(a: seq<EnvVar>, b: seq<EnvVar>, name: string)
    ensures EffectiveEnv(a + b, name) ==
            if EffectiveEnv(b, name).Some? then EffectiveEnv(b, name) else EffectiveEnv(a, name)
  {
    if b == [] {
      assert a + b == a;
    } else {
      assert (a + b)[..|a + b| - 1] == a + b[..|b| - 1];
      EffectiveConcat(a, b[..|b| - 1], name);
    }
  }

  ghost predicate DistinctEnv(env: seq<EnvVar>) {
    forall i, j :: 0 <= i < j < |env| ==> env[i].name != env[j].name
  }

  ghost predicate DistinctMounts(mounts: seq<VolumeMount>) {
    forall i, j :: 0 <= i < j < |mounts| ==> mounts[i].name != mounts[j].name
  }

  ghost predicate DistinctVolumes(volumes: seq<Volume>) {
    forall i, j :: 0 <= i < j < |volumes| ==> volumes[i].name != volumes[j].name
  }

  lemma DesiredDistinct(m: Mutator, clientID: string, tenantID: string, custom: bool)
    ensures DistinctEnv(DesiredEnv(m, clientID, tenantID, custom))
  {
    assert "AZURE_CLIENT_ID"[6] != "AZURE_TENANT_ID"[6];
    assert "AZURE_KUBERNETES_SNI_NAME"[17] != "AZURE_KUBERNETES_CA_FILE"[17];
    assert "AZURE_KUBERNETES_CA_DATA"[20] != "AZURE_KUBERNETES_CA_FILE"[20];
  }

  /** The missing variables are among the desired ones, in the desired order. */
  lemma {:induction false} MissingFrom(desired: seq<EnvVar>, taken: set<string>)
    requires DistinctEnv(desired)
    ensures DistinctEnv(MissingEnv(desired, taken))
    ensures forall e :: e in MissingEnv(desired, taken) ==> e in desired && e.name !in taken && e.value != ""
  {
    if desired != [] {
      var front, last := desired[..|desired| - 1], desired[|desired| - 1];
      MissingFrom(front, taken);
      var missing := MissingEnv(front, taken);
      forall i | 0 <= i < |missing| ensures missing[i].name != last.name {
        assert missing[i] in front;
      }
    }
  }

  lemma {:induction false} MissingLacks(desired: seq<EnvVar>, taken: set<string>, name: string)
    requires forall i :: 0 <= i < |desired| ==> desired[i].name != name
    ensures EffectiveEnv(MissingEnv(desired, taken), name) == None
  {
    if desired != [] {
      var missing := MissingEnv(desired[..|desired| - 1], taken);
      MissingLacks(desired[..|desired| - 1], taken, name);
      assert (missing + [desired[|desired| - 1]])[..|missing|] == missing;
      assert missing + [] == missing;
    }
  }

  lemma {:induction false} EffectiveMissing(desired: seq<EnvVar>, taken: set<string>, i: nat)
    requires DistinctEnv(desired) && i < |desired|
    ensures EffectiveEnv(MissingEnv(desired, taken), desired[i].name) ==
            if desired[i].name in taken || desired[i].value == "" then None else Some(desired[i].value)
  {
    var front, last := desired[..|desired| - 1], desired[|desired| - 1];
    var missing := MissingEnv(front, taken);
    assert (missing + [last])[..|missing|] == missing;
    assert missing + [] == missing;
    if i < |front| {
      EffectiveMissing(front, taken, i);
    } else {
      MissingLacks(front, taken, last.name);
    }
  }

  /** For each variable that the webhook provides, the user's own value wins; otherwise the
      container sees the webhook's value, unless that is empty. */
  lemma EnvResolution(inj: Injection, c: Container, i: nat)
    requires DistinctEnv(inj.desired) && i < |inj.desired| && c.name !in inj.skip
    ensures var d := inj.desired[i];
            EffectiveEnv(MutateContainer(inj, c).env, d.name) ==
            if d.name in EnvNames(c.env) then EffectiveEnv(c.env, d.name)
            else if d.value == "" then None
            else Some(d.value)
  {
    var taken := EnvNames(c.env);
    EffectiveMissing(inj.desired, taken, i);
    EffectiveConcat(c.env, MissingEnv(inj.desired, taken), inj.desired[i].name);
    EffectiveNames(c.env, inj.desired[i].name);
  }

  // ---------------------------------------------------------------------------------------
  // One container

  function MountNames(c: Container): set<string> {
    set i | 0 <= i < |c.volumeMounts| :: c.volumeMounts[i].name
  }

  lemma PutMountNames(c: Container, mount: VolumeMount)
    ensures MountNames(c.(volumeMounts := PutMount(c.volumeMounts, mount))) == MountNames(c) + {mount.name}
  {
    var i, put := MountIndex(c.volumeMounts, mount.name), PutMount(c.volumeMounts, mount);
    assert put[i] == mount;
    forall n | n in MountNames(c) ensures exists k :: 0 <= k < |put| && put[k].name == n {
      var k :| 0 <= k < |c.volumeMounts| && c.volumeMounts[k].name == n;
      assert put[k].name == n;
    }
  }

  /** What mutation keeps of a container. */
  lemma ContainerKept(inj: Injection, c: Container, name: string)
    requires DistinctEnv(inj.desired)
    ensures var c' := MutateContainer(inj, c);
            && c' == c.(env := c'.env, volumeMounts := c'.volumeMounts)
            && (c.name in inj.skip ==> c' == c)
            && c.env <= c'.env
            && (name in EnvNames(c.env) ==> EffectiveEnv(c'.env, name) == EffectiveEnv(c.env, name))
            && (DistinctEnv(c.env) ==> DistinctEnv(c'.env))
            && (DistinctMounts(c.volumeMounts) ==> DistinctMounts(c'.volumeMounts))
            && (c.name !in inj.skip ==>
                  inj.mount in c'.volumeMounts && MountNames(c') == MountNames(c) + {inj.mount.name})
  {
    if c.name !in inj.skip {
      var taken := EnvNames(c.env);
      var missing := MissingEnv(inj.desired, taken);
      MissingFrom(inj.desired, taken);
      EffectiveConcat(c.env, missing, name);
      EffectiveNames(missing, name);
      PutMountNames(c, inj.mount);
      assert MountNames(MutateContainer(inj, c)) == MountNames(c.(volumeMounts := PutMount(c.volumeMounts, inj.mount)));
      assert PutMount(c.volumeMounts, inj.mount)[MountIndex(c.volumeMounts, inj.mount.name)] == inj.mount;
      forall i, j | 0 <= i < |c.env| && 0 <= j < |missing| ensures c.env[i].name != missing[j].name {
        assert c.env[i].name in taken && missing[j] in missing;
      }
    }
  }

  // ---------------------------------------------------------------------------------------
  // The pod

  function VolumeNames(volumes: seq<Volume>): set<string> {
    set i | 0 <= i < |volumes| :: volumes[i].name
  }

  lemma PutVolumeKeeps(volumes: seq<Volume>, volume: Volume)
    ensures VolumeNames(PutVolume(volumes, volume)) == VolumeNames(volumes) + {volume.name}
    ensures DistinctVolumes(volumes) ==> DistinctVolumes(PutVolume(volumes, volume))
    ensures volume in PutVolume(volumes, volume)
    ensures forall v :: v in volumes && v.name != volume.name ==> v in PutVolume(volumes, volume)
  {
    var i, put := VolumeIndex(volumes, volume.name), PutVolume(volumes, volume);
    assert put[i] == volume;
    forall k | 0 <= k < |volumes| && volumes[k].name != volume.name ensures volumes[k] in put {
      assert put[k] == volumes[k];
    }
    forall n | n in VolumeNames(volumes) ensures exists k :: 0 <= k < |put| && put[k].name == n {
      var k :| 0 <= k < |volumes| && volumes[k].name == n;
      assert put[k].name == n;
    }
  }

  /** The user's containers come out in order, each mutated, among at most the two proxies. */
  lemma ContainersKept(m: Mutator, namespace: string, request: Pod, result: Pod)
      returns (inj: Injection, inits: seq<Container>, initProxy: seq<Container>, proxy: seq<Container>)
    requires Handled(m, namespace, request) == Patched(result)
    ensures ServiceAccountOf(m, namespace, result).Found?
    ensures inj == PodInjection(m, result, ServiceAccountOf(m, namespace, result).sa)
    ensures result.initContainers == inits + MutateContainers(inj, request.initContainers) + initProxy
    ensures result.containers == proxy + MutateContainers(inj, request.containers)
    ensures |inits| + |proxy| <= 1 && |initProxy| <= 1
    ensures !ShouldInjectProxySidecar(request) ==> inits == initProxy == proxy == []
    ensures AllNamed(inits, PROXY_NAME) && AllNamed(proxy, PROXY_NAME) && AllNamed(initProxy, PROXY_INIT_NAME)
    ensures result == request.(namespace := namespace, initContainers := result.initContainers,
                               containers := result.containers, volumes := result.volumes)
  {
    var sa, proxied, expiration := HandledParts(m, namespace, request, result);
    var pod := request.(namespace := namespace);
    inj := PodInjection(m, proxied, sa);
    WithProxyLists(m, pod, proxied);
    inits, proxy := MutateContainers(inj, InitSidecar(m, pod)), MutateContainers(inj, PlainSidecar(m, pod));
    initProxy := MutateContainers(inj, InitPart(m, pod));
    MutateThree(inj, InitSidecar(m, pod), pod.initContainers, InitPart(m, pod));
    MutateContainersConcat(inj, PlainSidecar(m, pod), pod.containers);
    PartsNamed(m, pod, inj);
    hide Handled;
    hide WithProxy;
    hide MutateContainers;
    hide InitSidecar;
    hide PlainSidecar;
    hide InitPart;
    hide AllNamed;
    hide ShouldInjectProxySidecar;
  }

  lemma MutatedNames(inj: Injection, cs: seq<Container>, name: string)
    requires AllNamed(cs, name)
    ensures AllNamed(MutateContainers(inj, cs), name) && |MutateContainers(inj, cs)| == |cs|
  {
  }

  lemma PartsShape(m: Mutator, pod: Pod)
    ensures AllNamed(InitSidecar(m, pod), PROXY_NAME) && AllNamed(PlainSidecar(m, pod), PROXY_NAME)
    ensures AllNamed(InitPart(m, pod), PROXY_INIT_NAME)
    ensures |InitSidecar(m, pod)| + |PlainSidecar(m, pod)| <= 1 && |InitPart(m, pod)| <= 1
    ensures !ShouldInjectProxySidecar(pod) ==> InitSidecar(m, pod) == PlainSidecar(m, pod) == InitPart(m, pod) == []
  {
    hide HasContainer;
  }

  lemma PartsNamed(m: Mutator, pod: Pod, inj: Injection)
    ensures var inits, proxy := MutateContainers(inj, InitSidecar(m, pod)), MutateContainers(inj, PlainSidecar(m, pod));
            var initProxy := MutateContainers(inj, InitPart(m, pod));
            && |inits| + |proxy| <= 1 && |initProxy| <= 1
            && (!ShouldInjectProxySidecar(pod) ==> inits == initProxy == proxy == [])
            && AllNamed(inits, PROXY_NAME) && AllNamed(proxy, PROXY_NAME) && AllNamed(initProxy, PROXY_INIT_NAME)
  {
    hide InitSidecar;
    hide PlainSidecar;
    hide InitPart;
    hide AllNamed;
    hide MutateContainers;
    PartsShape(m, pod);
    MutatedNames(inj, InitSidecar(m, pod), PROXY_NAME);
    MutatedNames(inj, PlainSidecar(m, pod), PROXY_NAME);
    MutatedNames(inj, InitPart(m, pod), PROXY_INIT_NAME);
  }

  lemma MutateThree(inj: Injection, a: seq<Container>, b: seq<Container>, c: seq<Container>)
    ensures MutateContainers(inj, a + b + c) == MutateContainers(inj, a) + MutateContainers(inj, b)
              + MutateContainers(inj, c)
  {
    MutateContainersConcat(inj, a + b, c);
    MutateContainersConcat(inj, a, b);
  }

  /** The volume list gains exactly the token volume, whose lifetime is within bounds. */
  lemma VolumesKept(m: Mutator, namespace: string, request: Pod, result: Pod)
      returns (expiration: int, name: string)
    requires Handled(m, namespace, request) == Patched(result)
    ensures name == VolumeName(m, PodName(result))
    ensures ValidTokenExpiry(expiration)
    ensures TokenVolume(m, expiration, name, IsUsingCustomTokenEndpoint(m, result)) in result.volumes
    ensures VolumeNames(result.volumes) == VolumeNames(request.volumes) + {name}
    ensures forall v :: v in request.volumes && v.name != name ==> v in result.volumes
    ensures DistinctVolumes(request.volumes) ==> DistinctVolumes(result.volumes)
  {
    var sa, proxied, lifetime := HandledParts(m, namespace, request, result);
    WithProxyLists(m, request.(namespace := namespace), proxied);
    expiration, name := lifetime, VolumeName(m, PodName(result));
    PutVolumeKeeps(request.volumes, TokenVolume(m, expiration, name, IsUsingCustomTokenEndpoint(m, result)));
  }

  // ---------------------------------------------------------------------------------------
  // Mounts and volumes fit together

  ghost predicate ListResolves(cs: seq<Container>, volumes: set<string>) {
    forall i :: 0 <= i < |cs| ==> MountNames(cs[i]) <= volumes
  }

  /** Every mount of every container names a volume of the pod. */
  ghost predicate MountsResolve(pod: Pod) {
    ListResolves(pod.initContainers, VolumeNames(pod.volumes)) && ListResolves(pod.containers, VolumeNames(pod.volumes))
  }

  lemma ListStillResolves(inj: Injection, cs: seq<Container>, volumes: set<string>)
    requires ListResolves(cs, volumes)
    ensures ListResolves(MutateContainers(inj, cs), volumes + {inj.mount.name})
  {
    forall i | 0 <= i < |cs| ensures MountNames(MutateContainer(inj, cs[i])) <= volumes + {inj.mount.name} {
      if cs[i].name !in inj.skip {
        PutMountNames(cs[i], inj.mount);
        assert MountNames(MutateContainer(inj, cs[i]))
            == MountNames(cs[i].(volumeMounts := PutMount(cs[i].volumeMounts, inj.mount)));
      }
    }
  }

  lemma ResolvesConcat(a: seq<Container>, b: seq<Container>, volumes: set<string>)
    ensures ListResolves(a + b, volumes) <==> ListResolves(a, volumes) && ListResolves(b, volumes)
  {
    if ListResolves(a + b, volumes) {
      assert forall i :: 0 <= i < |a| ==> a[i] == (a + b)[i];
      assert forall i :: 0 <= i < |b| ==> b[i] == (a + b)[|a| + i];
    }
  }

  lemma PartsAreBare(m: Mutator, pod: Pod)
    ensures forall volumes :: ListResolves(InitPart(m, pod), volumes) && ListResolves(InitSidecar(m, pod), volumes)
                              && ListResolves(PlainSidecar(m, pod), volumes)
  {
  }

  /** The injected proxies bring no mounts of their own. */
  lemma ProxiedResolves(m: Mutator, pod: Pod, proxied: Pod)
    requires WithProxy(m, pod) == Some(proxied) && MountsResolve(pod)
    ensures MountsResolve(proxied) && proxied.volumes == pod.volumes
  {
    WithProxyLists(m, pod, proxied);
    PartsAreBare(m, pod);
    var volumes := VolumeNames(pod.volumes);
    ResolvesConcat(InitSidecar(m, pod), pod.initContainers, volumes);
    ResolvesConcat(InitSidecar(m, pod) + pod.initContainers, InitPart(m, pod), volumes);
    ResolvesConcat(PlainSidecar(m, pod), pod.containers, volumes);
    hide ListResolves;
    hide InitPart;
    hide InitSidecar;
    hide PlainSidecar;
    hide WithProxy;
  }

  lemma MountsStillResolve(m: Mutator, namespace: string, request: Pod, result: Pod)
    requires Handled(m, namespace, request) == Patched(result) && MountsResolve(request)
    ensures MountsResolve(result)
  {
    var sa, proxied, expiration := HandledParts(m, namespace, request, result);
    var inj, volumes := PodInjection(m, proxied, sa), VolumeNames(request.volumes);
    ProxiedResolves(m, request.(namespace := namespace), proxied);
    ListStillResolves(inj, proxied.initContainers, volumes);
    ListStillResolves(inj, proxied.containers, volumes);
    PutVolumeKeeps(request.volumes, TokenVolume(m, expiration, inj.mount.name, IsUsingCustomTokenEndpoint(m, proxied)));
  }

  // ---------------------------------------------------------------------------------------
  // From the service account to the container

  const IDENTITY_ENVS: set<string> := {CLIENT_ID_ENV, TENANT_ID_ENV, TOKEN_FILE_ENV, AUTHORITY_HOST_ENV}

  function ValueOf(value: string): Option<string> {
    if value == "" then None else Some(value)
  }

  /** A token for the audience projected into a volume under the path, of a valid lifetime. */
  predicate ProjectsToken(v: Volume, path: string, audience: string) {
    && v.source.Projected? && v.source.sources != [] && v.source.sources[0].ServiceAccountToken?
    && v.source.sources[0].path == path && v.source.sources[0].audience == audience
        && ValidTokenExpiry(v.source.sources[0].expirationSeconds)
  }

  function Audience(m: Mutator, pod: Pod): string {
    if IsUsingCustomTokenEndpoint(m, pod) then m.customTokenEndpoint.audience else m.audience
  }

  /** The init or the regular containers. */
  function Listed(pod: Pod, init: bool): seq<Container> {
    if init then pod.initContainers else pod.containers
  }

  /** A container without identity variables of its own sees the client ID of the pod's service
      account, the account's tenant or else the cluster's, and a token file that exists: it lies
      where the container mounts a volume of the pod that projects a token there. */
  lemma IdentityReachesContainer(m: Mutator, namespace: string, request: Pod, result: Pod, init: bool, i: nat)
      returns (sa: ServiceAccount, c: Container, mount: VolumeMount, volume: Volume)
    requires Handled(m, namespace, request) == Patched(result)
    requires i < |Listed(request, init)| && Listed(request, init)[i].name !in SkipContainers(request)
    requires EnvNames(Listed(request, init)[i].env) !! IDENTITY_ENVS
    ensures ServiceAccountOf(m, namespace, request) == Found(sa)
    ensures c in Listed(result, init) && c.name == Listed(request, init)[i].name
    ensures EffectiveEnv(c.env, CLIENT_ID_ENV) == ValueOf(Annotation(sa.annotations, CLIENT_ID_ANNOTATION))
    ensures EffectiveEnv(c.env, TENANT_ID_ENV) ==
            ValueOf(if TENANT_ID_ANNOTATION in sa.annotations then sa.annotations[TENANT_ID_ANNOTATION]
                    else m.config.tenantID)
    ensures EffectiveEnv(c.env, AUTHORITY_HOST_ENV) == ValueOf(m.azureAuthorityHost)
    ensures mount in c.volumeMounts && volume in result.volumes && mount.name == volume.name
    ensures EffectiveEnv(c.env, TOKEN_FILE_ENV) == Some(mount.mountPath + "/" + TOKEN_FILE_PATH)
    ensures ProjectsToken(volume, TOKEN_FILE_PATH, Audience(m, request))
  {
    hide Handled;
    hide EnvNames;
    hide EffectiveEnv;
    hide MutateContainer;
    hide MutateContainers;
    hide TokenVolume;
    hide ProjectsToken;
    hide AllNamed;
    hide VolumeNames;
    hide DistinctVolumes;
    var inj, inits, initProxy, proxy := ContainersKept(m, namespace, request, result);
    var expiration, name := VolumesKept(m, namespace, request, result);
    var account, proxied, lifetime := HandledParts(m, namespace, request, result);
    var own := Listed(request, init)[i];
    sa, c, mount := account, MutateContainer(inj, own), inj.mount;
    volume := TokenVolume(m, expiration, name, IsUsingCustomTokenEndpoint(m, result));
    TokenVolumeProjects(m, expiration, name, IsUsingCustomTokenEndpoint(m, result));
    MutatedInside(inj, if init then inits else proxy, Listed(request, init), if init then initProxy else [], i);
    assert result.containers == proxy + MutateContainers(inj, request.containers) + [];
    IdentityResolved(m, inj, sa, result, own);
    ContainerKept(inj, own, "");
  }

  lemma MutatedInside(inj: Injection, front: seq<Container>, cs: seq<Container>, back: seq<Container>, i: nat)
    requires i < |cs|
    ensures MutateContainer(inj, cs[i]) in front + MutateContainers(inj, cs) + back
  {
    assert (front + MutateContainers(inj, cs) + back)[|front| + i] == MutateContainer(inj, cs[i]);
  }

  lemma TokenVolumeProjects(m: Mutator, expiration: int, name: string, custom: bool)
    requires ValidTokenExpiry(expiration) && (custom ==> m.customTokenEndpoint.Enabled?)
    ensures TokenVolume(m, expiration, name, custom).name == name
    ensures ProjectsToken(TokenVolume(m, expiration, name, custom), TOKEN_FILE_PATH,
                          if custom then m.customTokenEndpoint.audience else m.audience)
  {
  }

  lemma IdentityResolved(m: Mutator, inj: Injection, sa: ServiceAccount, pod: Pod, own: Container)
    requires inj == PodInjection(m, pod, sa) && own.name !in inj.skip
    requires EnvNames(own.env) !! IDENTITY_ENVS
    ensures var env := MutateContainer(inj, own).env;
            && EffectiveEnv(env, CLIENT_ID_ENV) == ValueOf(Annotation(sa.annotations, CLIENT_ID_ANNOTATION))
            && EffectiveEnv(env, TENANT_ID_ENV) == ValueOf(TenantID(m, sa))
            && EffectiveEnv(env, AUTHORITY_HOST_ENV) == ValueOf(m.azureAuthorityHost)
            && EffectiveEnv(env, TOKEN_FILE_ENV) == Some(MOUNT_PATH + "/" + TOKEN_FILE_PATH)
    ensures DistinctEnv(inj.desired)
  {
    var desired := inj.desired;
    DesiredDistinct(m, Annotation(sa.annotations, CLIENT_ID_ANNOTATION), TenantID(m, sa),
                    IsUsingCustomTokenEndpoint(m, pod));
    assert desired[0] == EnvVar(CLIENT_ID_ENV, Annotation(sa.annotations, CLIENT_ID_ANNOTATION));
    assert desired[1] == EnvVar(TENANT_ID_ENV, TenantID(m, sa));
    assert desired[2] == EnvVar(TOKEN_FILE_ENV, MOUNT_PATH + "/" + TOKEN_FILE_PATH);
    assert desired[3] == EnvVar(AUTHORITY_HOST_ENV, m.azureAuthorityHost);
    hide PodInjection;
    hide DesiredEnv;
    hide EffectiveEnv;
    hide MutateContainer;
    EnvResolution(inj, own, 0);
    EnvResolution(inj, own, 1);
    EnvResolution(inj, own, 2);
    EnvResolution(inj, own, 3);
  }

  // ---------------------------------------------------------------------------------------
  // The two proxies

  lemma PortFits(pod: Pod)
    requires ProxyPort(pod).Number?
    ensures ParseInt(Decimal(ProxyPort(pod).value), 32) == Number(ProxyPort(pod).value)
  {
    ParseDecimal(ProxyPort(pod).value, 32);
  }

  function FirstNamed(cs: seq<Container>, name: string): Option<Container> {
    if cs == [] then None
    else if cs[0].name == name then Some(cs[0])
    else FirstNamed(cs[1..], name)
  }

  lemma {:induction false} FirstNamedConcat(a: seq<Container>, b: seq<Container>, name: string)
    ensures FirstNamed(a + b, name) == if FirstNamed(a, name).Some? then FirstNamed(a, name) else FirstNamed(b, name)
  {
    if a == [] {
      assert a + b == b;
    } else {
      assert (a + b)[1..] == a[1..] + b;
      FirstNamedConcat(a[1..], b, name);
    }
  }

  lemma {:induction false} FirstNamedExists(cs: seq<Container>, name: string)
    ensures FirstNamed(cs, name).Some? <==> HasContainer(cs, name)
    ensures FirstNamed(cs, name).Some? ==> FirstNamed(cs, name).value.name == name
  {
    if cs != [] {
      FirstNamedExists(cs[1..], name);
      assert forall i :: 0 <= i < |cs[1..]| ==> cs[1..][i] == cs[i + 1];
      if i :| 0 <= i < |cs| && cs[i].name == name && i > 0 { assert cs[1..][i - 1].name == name; }
    }
  }

  lemma {:induction false} FirstNamedMutated(inj: Injection, cs: seq<Container>, name: string)
    ensures FirstNamed(MutateContainers(inj, cs), name) ==
            if FirstNamed(cs, name).Some? then Some(MutateContainer(inj, FirstNamed(cs, name).value)) else None
  {
    if cs != [] {
      assert MutateContainers(inj, cs)[1..] == MutateContainers(inj, cs[1..]);
      FirstNamedMutated(inj, cs[1..], name);
    }
  }

  /** The list that holds the sidecar. */
  function Host(m: Mutator, pod: Pod): seq<Container> {
    if m.useNativeSidecar then pod.initContainers else pod.containers
  }

  /** The pod's own container if it brings one, else the injected one. */
  lemma FirstProxies(m: Mutator, pod: Pod, proxied: Pod)
    requires WithProxy(m, pod) == Some(proxied) && ShouldInjectProxySidecar(pod) && ProxyPort(pod).Number?
    ensures FirstNamed(proxied.initContainers, PROXY_INIT_NAME) ==
            var own := FirstNamed(pod.initContainers, PROXY_INIT_NAME);
            if own.Some? then own else Some(ProxyInitContainer(m, ProxyPort(pod).value))
    ensures FirstNamed(Host(m, proxied), PROXY_NAME) ==
            var own := FirstNamed(Host(m, pod), PROXY_NAME);
            if own.Some? then own else Some(ProxyContainer(m, ProxyPort(pod).value, m.useNativeSidecar))
  {
    FirstParts(m, pod);
    WithProxyLists(m, pod, proxied);
    FirstNamedExists(pod.initContainers, PROXY_INIT_NAME);
    FirstNamedExists(Host(m, pod), PROXY_NAME);
    FirstNamedConcat(InitSidecar(m, pod) + pod.initContainers, InitPart(m, pod), PROXY_INIT_NAME);
    FirstNamedConcat(InitSidecar(m, pod), pod.initContainers, PROXY_INIT_NAME);
    FirstNamedConcat(InitSidecar(m, pod) + pod.initContainers, InitPart(m, pod), PROXY_NAME);
    FirstNamedConcat(InitSidecar(m, pod), pod.initContainers, PROXY_NAME);
    FirstNamedConcat(PlainSidecar(m, pod), pod.containers, PROXY_NAME);
    hide FirstNamed;
    hide InitPart;
    hide InitSidecar;
    hide PlainSidecar;
    hide WithProxy;
    hide HasContainer;
  }

  lemma FirstParts(m: Mutator, pod: Pod)
    requires ShouldInjectProxySidecar(pod) && ProxyPort(pod).Number?
    ensures var port := ProxyPort(pod).value;
            var sidecar := if HasContainer(Host(m, pod), PROXY_NAME) then None
                           else Some(ProxyContainer(m, port, m.useNativeSidecar));
            && FirstNamed(InitPart(m, pod), PROXY_INIT_NAME) ==
                 (if HasContainer(pod.initContainers, PROXY_INIT_NAME) then None else Some(ProxyInitContainer(m, port)))
            && FirstNamed(InitPart(m, pod), PROXY_NAME) == None
            && FirstNamed(InitSidecar(m, pod), PROXY_INIT_NAME) == None
            && FirstNamed(InitSidecar(m, pod), PROXY_NAME) == (if m.useNativeSidecar then sidecar else None)
            && FirstNamed(PlainSidecar(m, pod), PROXY_NAME) == (if m.useNativeSidecar then None else sidecar)
  {
    hide HasContainer;
    assert |PROXY_NAME| != |PROXY_INIT_NAME|;
  }

  /** The port that an init proxy redirects to. */
  function RedirectedPort(c: Container): Parsed {
    match EffectiveEnv(c.env, PROXY_PORT_ENV)
    case None => Malformed
    case Some(v) => ParseInt(v, 32)
  }

  lemma MutationKeepsPorts(m: Mutator, pod: Pod, sa: ServiceAccount, c: Container)
    ensures var c' := MutateContainer(PodInjection(m, pod, sa), c);
            RedirectedPort(c') == RedirectedPort(c) && c'.ports == c.ports && c'.args == c.args
  {
    var inj := PodInjection(m, pod, sa);
    DesiredDistinct(m, Annotation(sa.annotations, CLIENT_ID_ANNOTATION), TenantID(m, sa),
                    IsUsingCustomTokenEndpoint(m, pod));
    ContainerKept(inj, c, PROXY_PORT_ENV);
    NoPortDesired(m, pod, sa);
    MissingLacks(inj.desired, EnvNames(c.env), PROXY_PORT_ENV);
    EffectiveConcat(c.env, MissingEnv(inj.desired, EnvNames(c.env)), PROXY_PORT_ENV);
    hide PodInjection;
    hide ParseInt;
    hide EffectiveEnv;
  }

  lemma NoPortDesired(m: Mutator, pod: Pod, sa: ServiceAccount)
    ensures forall e :: e in PodInjection(m, pod, sa).desired ==> e.name != PROXY_PORT_ENV
  {
    assert forall e :: e in PodInjection(m, pod, sa).desired ==> |e.name| > |PROXY_PORT_ENV|;
  }

  lemma InjectedPorts(m: Mutator, pod: Pod, native: bool)
    requires ProxyPort(pod).Number?
    ensures var port := ProxyPort(pod).value;
            && RedirectedPort(ProxyInitContainer(m, port)) == Number(port)
            && ProxyContainer(m, port, native).ports == [port]
            && "--proxy-port=" + Decimal(port) in ProxyContainer(m, port, native).args
  {
    PortFits(pod);
    var port := ProxyPort(pod).value;
    assert EffectiveEnv(ProxyInitContainer(m, port).env, PROXY_PORT_ENV) == Some(Decimal(port));
    assert ProxyContainer(m, port, native).args[0] == "--proxy-port=" + Decimal(port);
  }

  /** The two proxies of a handled pod, of which it may have brought one or both itself: each keeps
      or gets its port, so traffic is redirected to a port that the sidecar serves exactly if
      nothing that the pod brought speaks against it. */
  lemma ProxiesAgreeExactlyWhen(m: Mutator, namespace: string, request: Pod, result: Pod)
      returns (init: Container, sidecar: Container)
    requires Handled(m, namespace, request) == Patched(result) && ShouldInjectProxySidecar(request)
    ensures ProxyPort(request).Number?
    ensures FirstNamed(result.initContainers, PROXY_INIT_NAME) == Some(init)
    ensures FirstNamed(Host(m, result), PROXY_NAME) == Some(sidecar)
    ensures var port := ProxyPort(request).value;
            var ownInit := FirstNamed(request.initContainers, PROXY_INIT_NAME);
            var own := FirstNamed(Host(m, request), PROXY_NAME);
            && (own.None? ==> "--proxy-port=" + Decimal(port) in sidecar.args)
            && (RedirectedPort(init).Number? && RedirectedPort(init).value in sidecar.ports <==>
                  match ownInit
                  case None => own.None? || port in own.value.ports
                  case Some(i) =>
                    RedirectedPort(i).Number?
                    && if own.None? then RedirectedPort(i).value == port
                      else RedirectedPort(i).value in own.value.ports)
  {
    hide Handled;
    hide WithProxy;
    hide MutateContainer;
    hide RedirectedPort;
    hide FirstNamed;
    hide ProxyContainer;
    hide ProxyInitContainer;
    hide PodInjection;
    hide ProxyPort;
    var sa, proxied, expiration := HandledParts(m, namespace, request, result);
    var pod := request.(namespace := namespace);
    PortOfNamespaced(request, namespace);
    WithProxyShape(m, pod);
    FirstProxies(m, pod, proxied);
    InjectedPorts(m, pod, m.useNativeSidecar);
    var inj := PodInjection(m, proxied, sa);
    FirstNamedMutated(inj, proxied.initContainers, PROXY_INIT_NAME);
    FirstNamedMutated(inj, Host(m, proxied), PROXY_NAME);
    var bareInit := FirstNamed(proxied.initContainers, PROXY_INIT_NAME).value;
    var bare := FirstNamed(Host(m, proxied), PROXY_NAME).value;
    init, sidecar := MutateContainer(inj, bareInit), MutateContainer(inj, bare);
    MutationKeepsPorts(m, proxied, sa, bareInit);
    MutationKeepsPorts(m, proxied, sa, bare);
  }

  lemma PortOfNamespaced(pod: Pod, namespace: string)
    ensures ProxyPort(pod.(namespace := namespace)) == ProxyPort(pod)
    ensures ShouldInjectProxySidecar(pod.(namespace := namespace)) == ShouldInjectProxySidecar(pod)
  {
  }

  // ---------------------------------------------------------------------------------------
  // The CA sources of a custom token endpoint

  ghost predicate ProvidesFile(v: Volume, path: string) {
    v.source.Projected? && exists i :: 0 <= i < |v.source.sources| && v.source.sources[i].path == path
  }

  ghost predicate DistinctPaths(v: Volume) {
    v.source.Projected? && forall i, j :: 0 <= i < j < |v.source.sources| ==>
      v.source.sources[i].path != v.source.sources[j].path
  }

  /** Under a validated configuration the projected files do not collide, and CA data never
      comes both as a file and as a variable. */
  lemma ValidConfigHasOneCASource(m: Mutator, expiration: int, name: string, clientID: string, tenantID: string,
                                  custom: bool)
    requires Valid(m.config)
    ensures DistinctPaths(TokenVolume(m, expiration, name, custom))
    ensures |TokenVolume(m, expiration, name, custom).source.sources| <= 2
    ensures ProvidesFile(TokenVolume(m, expiration, name, custom), CA_FILE_PATH) ==>
              forall e :: e in DesiredEnv(m, clientID, tenantID, custom) && e.name == CA_DATA_ENV ==> e.value == ""
  {
    DesiredDistinct(m, clientID, tenantID, custom);
    if custom {
      assert DesiredEnv(m, clientID, tenantID, custom)[7] == EnvVar(CA_DATA_ENV, m.config.azureKubernetesCAData);
    } else {
      assert forall e :: e in DesiredEnv(m, clientID, tenantID, false) ==> |e.name| != |CA_DATA_ENV|;
    }
  }

  /** AZURE_KUBERNETES_CA_FILE is set for every pod with a custom endpoint, but the file it names
      is in the projected volume exactly if a ConfigMap or a trust bundle is configured. */
  lemma CAFileExistsExactlyWhen(m: Mutator, inj: Injection, c: Container, expiration: int, name: string,
                                clientID: string, tenantID: string)
    requires inj.desired == DesiredEnv(m, clientID, tenantID, true)
    requires c.name !in inj.skip && CA_FILE_ENV !in EnvNames(c.env)
    ensures EffectiveEnv(MutateContainer(inj, c).env, CA_FILE_ENV) == Some(MOUNT_PATH + "/" + CA_FILE_PATH)
    ensures ProvidesFile(TokenVolume(m, expiration, name, true), CA_FILE_PATH) <==>
            m.config.azureKubernetesCAConfigMapName != "" || m.config.azureKubernetesCACTBSignerName != ""
  {
    DesiredDistinct(m, clientID, tenantID, true);
    EnvResolution(inj, c, 6);
    var sources := TokenVolume(m, expiration, name, true).source.sources;
    if m.config.azureKubernetesCAConfigMapName != "" || m.config.azureKubernetesCACTBSignerName != "" {
      assert sources[1].path == CA_FILE_PATH;
    } else {
      assert |sources| == 1 && sources[0].path == TOKEN_FILE_PATH;
      assert |TOKEN_FILE_PATH| != |CA_FILE_PATH|;
    }
  }
}
