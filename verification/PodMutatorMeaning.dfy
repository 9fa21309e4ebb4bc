/** What the webhook makes of annotations and configuration, said in terms of the texts themselves. */
module PodMutatorMeaning {
  import opened Common
  import opened PodMutator
  import opened PodMutatorTheorems
  import opened PodMutatorContent
  import opened Text

  // ---------------------------------------------------------------------------------------
  // The account and the token's lifetime

  /** The account that the pod names, or the namespace's default one: from the cache, or from the API
      server if the cache does not have it. */
  ghost predicate RunsAs(m: Mutator, namespace: string, pod: Pod, sa: ServiceAccount) {
    var name := if pod.serviceAccountName == "" then "default" else pod.serviceAccountName;
    m.client(name, namespace) == Found(sa)
    || (m.client(name, namespace) == NotFound && m.reader(name, namespace) == Found(sa))
  }

  predicate SetIn(annotations: map<string, string>, key: string) {
    key in annotations && annotations[key] != ""
  }

  /** In the order of preference: the pod's annotation, the account's, the default of an hour. */
  ghost predicate AsksForLifetime(pod: Pod, sa: ServiceAccount, seconds: int) {
    var key := TOKEN_EXPIRY_ANNOTATION;
    if SetIn(pod.annotations, key) then Writes(pod.annotations[key], seconds)
    else if SetIn(sa.annotations, key) then Writes(sa.annotations[key], seconds)
    else seconds == 3600
  }

  lemma LifetimeExactlyWhen(pod: Pod, sa: ServiceAccount, seconds: int)
    ensures TokenExpiration(pod, sa) == Some(seconds) <==>
              AsksForLifetime(pod, sa, seconds) && 3600 <= seconds <= 86400
  {
    var key := TOKEN_EXPIRY_ANNOTATION;
    if SetIn(pod.annotations, key) {
      ParseIntExactlyWhen(pod.annotations[key], 64, seconds);
    } else if SetIn(sa.annotations, key) {
      ParseIntExactlyWhen(sa.annotations[key], 64, seconds);
    }
    hide ParseInt;
    hide Writes;
  }

  /** The port annotation is absent, or writes a 32-bit number. */
  ghost predicate AsksForPort(pod: Pod, port: int) {
    if PROXY_PORT_ANNOTATION in pod.annotations
    then Writes(pod.annotations[PROXY_PORT_ANNOTATION], port) && -0x8000_0000 <= port < 0x8000_0000
    else port == 8000
  }

  lemma PortExactlyWhen(pod: Pod, port: int)
    ensures ProxyPort(pod) == Number(port) <==> AsksForPort(pod, port)
  {
    if PROXY_PORT_ANNOTATION in pod.annotations {
      ParseIntExactlyWhen(pod.annotations[PROXY_PORT_ANNOTATION], 32, port);
    }
    hide ParseInt;
    hide Writes;
  }

  /** The proxy is asked for by the presence of its annotation, whatever its value. */
  predicate AsksForProxy(pod: Pod) {
    "azure.workload.identity/inject-proxy-sidecar" in pod.annotations
  }

  /** Which pods are admitted. */
  lemma AdmittedExactlyWhen(m: Mutator, namespace: string, request: Pod)
    ensures Handled(m, namespace, request).Patched? <==>
              && (exists sa, seconds :: RunsAs(m, namespace, request, sa) && AsksForLifetime(request, sa, seconds)
                                        && 3600 <= seconds <= 86400)
              && (AsksForProxy(request) ==> !request.hostNetwork && exists port :: AsksForPort(request, port))
  {
    PatchedExactlyWhen(m, namespace, request);
    forall sa, seconds ensures TokenExpiration(request, sa) == Some(seconds) <==>
                                 AsksForLifetime(request, sa, seconds) && 3600 <= seconds <= 86400
    {
      LifetimeExactlyWhen(request, sa, seconds);
    }
    forall port ensures ProxyPort(request) == Number(port) <==> AsksForPort(request, port) {
      PortExactlyWhen(request, port);
    }
    if Handled(m, namespace, request).Patched? {
      var sa := ServiceAccountOf(m, namespace, request).sa;
      assert RunsAs(m, namespace, request, sa);
      assert TokenExpiration(request, sa) == Some(TokenExpiration(request, sa).value);
      if AsksForProxy(request) { assert ProxyPort(request) == Number(ProxyPort(request).value); }
    }
    hide Handled;
    hide TokenExpiration;
    hide AsksForLifetime;
    hide ProxyPort;
    hide AsksForPort;
  }

  /** A pod's own annotation decides: if it writes no valid lifetime the pod is refused, whatever its
      account says. */
  lemma OwnAnnotationDecides(m: Mutator, namespace: string, request: Pod)
    requires SetIn(request.annotations, TOKEN_EXPIRY_ANNOTATION)
    requires forall seconds :: Writes(request.annotations[TOKEN_EXPIRY_ANNOTATION], seconds) ==>
               !(3600 <= seconds <= 86400)
    ensures Handled(m, namespace, request) == Errored
  {
    AdmittedExactlyWhen(m, namespace, request);
    hide Handled;
  }

  /** The hash is of the name the pod has when it is handled, and is cut to what a volume name may hold. */
  ghost predicate NamesTokenVolume(m: Mutator, pod: Pod, name: string) {
    var hash := m.sha256Hex(if pod.name != "" then pod.name else pod.generateName + " (prefix)");
    && |name| <= 63 && VOLUME_NAME_PREFIX <= name && name[|VOLUME_NAME_PREFIX|..] <= hash
    && (|name| == 63 || name == VOLUME_NAME_PREFIX + hash)
  }

  lemma VolumeNameMeaning(m: Mutator, pod: Pod)
    ensures NamesTokenVolume(m, pod, VolumeName(m, PodName(pod)))
  {
    var hash := m.sha256Hex(PodName(pod));
    var name := VolumeName(m, PodName(pod));
    assert name[..|VOLUME_NAME_PREFIX|] == VOLUME_NAME_PREFIX;
    assert name[|VOLUME_NAME_PREFIX|..] == if |hash| < 30 then hash else hash[..30];
  }

  /** The pod uses the custom endpoint if its annotation is "true" in any case. */
  predicate UsesEndpoint(m: Mutator, pod: Pod) {
    match m.customTokenEndpoint
    case Disabled => false
    case Enabled(key, _) =>
      && key in pod.annotations && |pod.annotations[key]| == 4
      && forall i :: 0 <= i < 4 ==> pod.annotations[key][i] == "true"[i] || pod.annotations[key][i] == "TRUE"[i]
  }

  lemma UsesEndpointExactlyWhen(m: Mutator, pod: Pod)
    ensures IsUsingCustomTokenEndpoint(m, pod) <==> UsesEndpoint(m, pod)
  {
  }

  /** Every admitted pod gets a token of the lifetime that it or its account asks for, and of the
      audience of its endpoint. */
  lemma TokenAsAsked(m: Mutator, namespace: string, request: Pod, result: Pod)
      returns (sa: ServiceAccount, seconds: int, volume: Volume)
    requires Handled(m, namespace, request) == Patched(result)
    ensures RunsAs(m, namespace, request, sa) && AsksForLifetime(request, sa, seconds) && 3600 <= seconds <= 86400
    ensures volume in result.volumes && NamesTokenVolume(m, request, volume.name)
    ensures volume.source.Projected? && volume.source.sources != []
    ensures volume.source.sources[0] ==
              ServiceAccountToken("token/azure-identity-token", seconds,
                                  if UsesEndpoint(m, request) then m.customTokenEndpoint.audience else m.audience)
  {
    var proxied;
    sa, proxied, seconds := HandledParts(m, namespace, request, result);
    WithProxyLists(m, request.(namespace := namespace), proxied);
    LifetimeExactlyWhen(request, sa, seconds);
    UsesEndpointExactlyWhen(m, request);
    VolumeNameMeaning(m, request);
    var custom := IsUsingCustomTokenEndpoint(m, request);
    volume := TokenVolume(m, seconds, VolumeName(m, PodName(request)), custom);
    TokenVolumeProjects(m, seconds, VolumeName(m, PodName(request)), custom);
    PutVolumeKeeps(request.volumes, volume);
    hide AsksForLifetime;
    hide NamesTokenVolume;
    hide UsesEndpoint;
  }

  // ---------------------------------------------------------------------------------------
  // Containers to skip

  /** The annotation lists names, separated by semicolons, with any space around each. */
  ghost predicate ListsToSkip(pod: Pod, parts: seq<string>) {
    && parts != [] && (forall k :: 0 <= k < |parts| ==> ';' !in parts[k])
    && Join(parts, ';') ==
       if SKIP_CONTAINERS_ANNOTATION in pod.annotations then pod.annotations[SKIP_CONTAINERS_ANNOTATION] else ""
  }

  ghost predicate IsListed(parts: seq<string>, name: string) {
    parts != [""] && exists k :: 0 <= k < |parts| && Trims(parts[k], name)
  }

  lemma SkippedExactlyWhen(pod: Pod, parts: seq<string>, name: string)
    requires ListsToSkip(pod, parts)
    ensures name in SkipContainers(pod) <==> IsListed(parts, name)
  {
    SplitJoined(parts, ';');
    forall k | 0 <= k < |parts| ensures TrimSpace(parts[k]) == name <==> Trims(parts[k], name) {
      TrimExactlyWhen(parts[k], name);
    }
    hide TrimSpace;
    hide Trims;
  }

  /** Exactly the containers that are not listed get the mount; the listed ones stay as they are. */
  lemma ListedContainersStay(m: Mutator, namespace: string, request: Pod, result: Pod, parts: seq<string>,
                             init: bool, i: nat)
      returns (c: Container)
    requires Handled(m, namespace, request) == Patched(result) && ListsToSkip(request, parts)
    requires i < |Listed(request, init)|
    ensures c in Listed(result, init)
    ensures var own := Listed(request, init)[i];
            if IsListed(parts, own.name) then c == own
            else
              && c == own.(env := c.env, volumeMounts := c.volumeMounts) && own.env <= c.env
              && exists mount :: mount in c.volumeMounts && NamesTokenVolume(m, request, mount.name)
                                 && mount.mountPath == "/var/run/secrets/azure/wi" && mount.readOnly
  {
    var inj, inits, initProxy, proxy := ContainersKept(m, namespace, request, result);
    var own := Listed(request, init)[i];
    c := MutateContainer(inj, own);
    SkippedExactlyWhen(request, parts, own.name);
    VolumeNameMeaning(m, request);
    assert inj.mount.mountPath == MOUNT_PATH && inj.mount.readOnly && NamesTokenVolume(m, request, inj.mount.name);
    assert c.volumeMounts == own.volumeMounts || inj.mount in c.volumeMounts by {
      assert PutMount(own.volumeMounts, inj.mount)[MountIndex(own.volumeMounts, inj.mount.name)] == inj.mount;
    }
    MutatedInside(inj, if init then inits else proxy, Listed(request, init), if init then initProxy else [], i);
    assert result.containers == proxy + MutateContainers(inj, request.containers) + [];
    hide Handled;
    hide IsListed;
    hide NamesTokenVolume;
    hide MissingEnv;
    hide MutateContainers;
  }

  // ---------------------------------------------------------------------------------------
  // The custom token endpoint

  const ENDPOINT_ENVS: set<string> := {TOKEN_PROXY_ENV, SNI_NAME_ENV, CA_FILE_ENV, CA_DATA_ENV}

  lemma EndpointDesired(m: Mutator, clientID: string, tenantID: string, custom: bool, name: string)
    ensures var desired := DesiredEnv(m, clientID, tenantID, custom);
            if custom then
              && |desired| == 8 && DistinctEnv(desired)
              && desired[4] == EnvVar("AZURE_KUBERNETES_TOKEN_PROXY", m.config.azureKubernetesTokenProxy)
              && desired[5] == EnvVar("AZURE_KUBERNETES_SNI_NAME", m.config.azureKubernetesSNIName)
              && desired[6] == EnvVar("AZURE_KUBERNETES_CA_FILE", "/var/run/secrets/azure/wi" + "/" + "ca-cert/ca.crt")
              && desired[7] == EnvVar("AZURE_KUBERNETES_CA_DATA", m.config.azureKubernetesCAData)
            else name in ENDPOINT_ENVS ==> forall k :: 0 <= k < |desired| ==> desired[k].name != name
  {
    DesiredDistinct(m, clientID, tenantID, custom);
    assert forall n :: n in ENDPOINT_ENVS ==> n[6] == 'K';
  }

  /** What a container without such variables of its own sees of the endpoint's configuration. */
  lemma EndpointReachesContainer(m: Mutator, namespace: string, request: Pod, result: Pod, init: bool, i: nat)
      returns (c: Container)
    requires Handled(m, namespace, request) == Patched(result)
    requires i < |Listed(request, init)| && Listed(request, init)[i].name !in SkipContainers(request)
    requires EnvNames(Listed(request, init)[i].env) !! ENDPOINT_ENVS
    ensures c in Listed(result, init) && c.name == Listed(request, init)[i].name
    ensures var on := UsesEndpoint(m, request);
            && EffectiveEnv(c.env, "AZURE_KUBERNETES_TOKEN_PROXY")
                 == (if on then ValueOf(m.config.azureKubernetesTokenProxy) else None)
            && EffectiveEnv(c.env, "AZURE_KUBERNETES_SNI_NAME")
                 == (if on then ValueOf(m.config.azureKubernetesSNIName) else None)
            && EffectiveEnv(c.env, "AZURE_KUBERNETES_CA_FILE")
                 == (if on then Some("/var/run/secrets/azure/wi" + "/" + "ca-cert/ca.crt") else None)
            && EffectiveEnv(c.env, "AZURE_KUBERNETES_CA_DATA")
                 == (if on then ValueOf(m.config.azureKubernetesCAData) else None)
  {
    hide Handled;
    hide EnvNames;
    hide EffectiveEnv;
    hide MutateContainers;
    hide UsesEndpoint;
    var inj, inits, initProxy, proxy := ContainersKept(m, namespace, request, result);
    var sa := ServiceAccountOf(m, namespace, result).sa;
    var own := Listed(request, init)[i];
    c := MutateContainer(inj, own);
    UsesEndpointExactlyWhen(m, request);
    MutatedInside(inj, if init then inits else proxy, Listed(request, init), if init then initProxy else [], i);
    assert result.containers == proxy + MutateContainers(inj, request.containers) + [];
    EndpointResolved(m, inj, sa, result, own);
    hide MutateContainer;
  }

  lemma EndpointResolved(m: Mutator, inj: Injection, sa: ServiceAccount, pod: Pod, own: Container)
    requires inj == PodInjection(m, pod, sa) && own.name !in inj.skip && EnvNames(own.env) !! ENDPOINT_ENVS
    ensures var env, on := MutateContainer(inj, own).env, IsUsingCustomTokenEndpoint(m, pod);
            && EffectiveEnv(env, TOKEN_PROXY_ENV) == (if on then ValueOf(m.config.azureKubernetesTokenProxy) else None)
            && EffectiveEnv(env, SNI_NAME_ENV) == (if on then ValueOf(m.config.azureKubernetesSNIName) else None)
            && EffectiveEnv(env, CA_FILE_ENV) == (if on then Some(MOUNT_PATH + "/" + CA_FILE_PATH) else None)
            && EffectiveEnv(env, CA_DATA_ENV) == (if on then ValueOf(m.config.azureKubernetesCAData) else None)
  {
    var clientID, tenantID := Annotation(sa.annotations, CLIENT_ID_ANNOTATION), TenantID(m, sa);
    var on := IsUsingCustomTokenEndpoint(m, pod);
    hide EffectiveEnv;
    hide DesiredEnv;
    forall name ensures name in ENDPOINT_ENVS && !on ==> EffectiveEnv(MutateContainer(inj, own).env, name) == None {
      EndpointDesired(m, clientID, tenantID, on, name);
      if name in ENDPOINT_ENVS && !on {
        var missing := MissingEnv(inj.desired, EnvNames(own.env));
        MissingLacks(inj.desired, EnvNames(own.env), name);
        EffectiveConcat(own.env, missing, name);
        EffectiveNames(own.env, name);
      }
    }
    if on {
      EndpointDesired(m, clientID, tenantID, on, "");
      EnvResolution(inj, own, 4);
      EnvResolution(inj, own, 5);
      EnvResolution(inj, own, 6);
      EnvResolution(inj, own, 7);
    }
    hide MutateContainer;
  }

  // ---------------------------------------------------------------------------------------
  // The injected proxies

  /** What the pod does not bring itself is injected as configured, for the port that was asked for. */
  lemma ProxiesAsConfigured(m: Mutator, namespace: string, request: Pod, result: Pod)
      returns (init: Container, sidecar: Container, port: int)
    requires Handled(m, namespace, request) == Patched(result) && AsksForProxy(request)
    ensures AsksForPort(request, port)
    ensures FirstNamed(result.initContainers, "azwi-proxy-init") == Some(init)
    ensures FirstNamed(if m.useNativeSidecar then result.initContainers else result.containers, "azwi-proxy")
              == Some(sidecar)
    ensures FirstNamed(request.initContainers, "azwi-proxy-init") == None ==>
              && init.image == m.proxyInitImage && init.ports == [] && init.args == []
              && EffectiveEnv(init.env, "PROXY_PORT") == Some(Decimal(port))
    ensures FirstNamed(if m.useNativeSidecar then request.initContainers else request.containers, "azwi-proxy") == None
              ==>
              && sidecar.image == m.proxyImage && sidecar.ports == [port]
              && sidecar.args == ["--proxy-port=" + Decimal(port), "--log-level=" + m.logLevel]
              && sidecar.postStart
                   == ["/proxy", "--proxy-port=" + Decimal(port), "--probe", "--log-level=" + m.logLevel]
              && sidecar.restartPolicyAlways == m.useNativeSidecar
  {
    hide Handled;
    hide WithProxy;
    hide MutateContainer;
    hide FirstNamed;
    hide PodInjection;
    hide ProxyPort;
    hide AsksForPort;
    var sa, proxied, expiration := HandledParts(m, namespace, request, result);
    var pod := request.(namespace := namespace);
    PortOfNamespaced(request, namespace);
    WithProxyShape(m, pod);
    port := ProxyPort(request).value;
    PortExactlyWhen(request, port);
    FirstProxies(m, pod, proxied);
    var inj := PodInjection(m, proxied, sa);
    FirstNamedMutated(inj, proxied.initContainers, PROXY_INIT_NAME);
    FirstNamedMutated(inj, Host(m, proxied), PROXY_NAME);
    var bareInit := FirstNamed(proxied.initContainers, PROXY_INIT_NAME).value;
    var bare := FirstNamed(Host(m, proxied), PROXY_NAME).value;
    init, sidecar := MutateContainer(inj, bareInit), MutateContainer(inj, bare);
    OtherFieldsKept(inj, bareInit);
    OtherFieldsKept(inj, bare);
    PortSurvives(m, proxied, sa, bareInit);
    hide EffectiveEnv;
  }

  lemma OtherFieldsKept(inj: Injection, c: Container)
    ensures var c' := MutateContainer(inj, c); c' == c.(env := c'.env, volumeMounts := c'.volumeMounts)
  {
  }

  lemma PortSurvives(m: Mutator, pod: Pod, sa: ServiceAccount, c: Container)
    ensures var c' := MutateContainer(PodInjection(m, pod, sa), c);
            EffectiveEnv(c'.env, PROXY_PORT_ENV) == EffectiveEnv(c.env, PROXY_PORT_ENV)
  {
    var inj := PodInjection(m, pod, sa);
    NoPortDesired(m, pod, sa);
    MissingLacks(inj.desired, EnvNames(c.env), PROXY_PORT_ENV);
    EffectiveConcat(c.env, MissingEnv(inj.desired, EnvNames(c.env)), PROXY_PORT_ENV);
    hide PodInjection;
    hide EffectiveEnv;
  }
}
