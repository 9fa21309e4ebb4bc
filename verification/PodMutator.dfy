/**
 The mutating admission webhook (pkg/webhook/webhook.go, pkg/webhook/consts.go).

 The functions say what Handle computes, on pod values.  The methods are the code: loops that
 assign into container lists, environment lists, mount lists and volume lists.
 */
module PodMutator {
  import opened Common
  import opened Config
  import opened Text

  // ---------------------------------------------------------------------------------------
  // The parts of the Kubernetes API that the webhook touches

  datatype EnvVar = EnvVar(name: string, value: string)

  datatype VolumeMount = VolumeMount(name: string, mountPath: string, readOnly: bool)

  /** extra stands for the fields that the webhook neither reads nor changes. */
  datatype Container = Container(
    name: string, image: string, args: seq<string>, ports: seq<int>, postStart: seq<string>,
    restartPolicyAlways: bool, env: seq<EnvVar>, volumeMounts: seq<VolumeMount>, extra: string)

  datatype Projection =
    | ServiceAccountToken(path: string, expirationSeconds: int, audience: string)
    | ConfigMap(name: string, key: string, path: string)
    | ClusterTrustBundle(signerName: string, labelSelector: Option<string>, path: string)

  datatype VolumeSource = Projected(sources: seq<Projection>) | OtherSource(spec: string)

  datatype Volume = Volume(name: string, source: VolumeSource)

  datatype Pod = Pod(
    name: string, generateName: string, namespace: string, serviceAccountName: string,
    annotations: map<string, string>, hostNetwork: bool,
    initContainers: seq<Container>, containers: seq<Container>, volumes: seq<Volume>)

  datatype ServiceAccount = ServiceAccount(annotations: map<string, string>)

  datatype Lookup = Found(sa: ServiceAccount) | NotFound | LookupFailed

  // ---------------------------------------------------------------------------------------
  // Constants

  const CLIENT_ID_ANNOTATION := "azure.workload.identity/client-id"
  const TENANT_ID_ANNOTATION := "azure.workload.identity/tenant-id"
  const TOKEN_EXPIRY_ANNOTATION := "azure.workload.identity/service-account-token-expiration"
  const SKIP_CONTAINERS_ANNOTATION := "azure.workload.identity/skip-containers"
  const INJECT_PROXY_ANNOTATION := "azure.workload.identity/inject-proxy-sidecar"
  const PROXY_PORT_ANNOTATION := "azure.workload.identity/proxy-sidecar-port"
  const MIN_TOKEN_EXPIRATION := 3600
  const MAX_TOKEN_EXPIRATION := 86400
  const DEFAULT_TOKEN_EXPIRATION := 3600
  const DEFAULT_PROXY_PORT := 8000
  const PROXY_INIT_NAME := "azwi-proxy-init"
  const PROXY_NAME := "azwi-proxy"
  const PROXY_PORT_ENV := "PROXY_PORT"
  const CLIENT_ID_ENV := "AZURE_CLIENT_ID"
  const TENANT_ID_ENV := "AZURE_TENANT_ID"
  const TOKEN_FILE_ENV := "AZURE_FEDERATED_TOKEN_FILE"
  const AUTHORITY_HOST_ENV := "AZURE_AUTHORITY_HOST"
  const TOKEN_PROXY_ENV := "AZURE_KUBERNETES_TOKEN_PROXY"
  const SNI_NAME_ENV := "AZURE_KUBERNETES_SNI_NAME"
  const CA_FILE_ENV := "AZURE_KUBERNETES_CA_FILE"
  const CA_DATA_ENV := "AZURE_KUBERNETES_CA_DATA"
  const VOLUME_NAME_PREFIX := "azure-workload-identity-reserved-"
  const TOKEN_FILE_PATH := "token/azure-identity-token"
  const CA_FILE_PATH := "ca-cert/ca.crt"
  const MOUNT_PATH := "/var/run/secrets/azure/wi"

  // ---------------------------------------------------------------------------------------
  // The mutator

  datatype CustomTokenEndpoint = Disabled | Enabled(annotation: string, audience: string)

  /** client is the cached view of the cluster's service accounts and reader the API server. */
  datatype Mutator = Mutator(
    config: Config,
    client: (string, string) -> Lookup,
    reader: (string, string) -> Lookup,
    audience: string, azureAuthorityHost: string, proxyImage: string, proxyInitImage: string,
    logLevel: string, useNativeSidecar: bool, customTokenEndpoint: CustomTokenEndpoint,
    sha256Hex: string -> string)

  datatype Response = Errored | Patched(pod: Pod)

  function Annotation(annotations: map<string, string>, key: string): string {
    if key in annotations then annotations[key] else ""
  }

  function PodName(pod: Pod): string {
    if pod.name == "" then pod.generateName + " (prefix)" else pod.name
  }

  function VolumeName(m: Mutator, podName: string): string {
    var hash := m.sha256Hex(podName);
    var length := 63 - |VOLUME_NAME_PREFIX|;
    VOLUME_NAME_PREFIX + if |hash| < length then hash else hash[..length]
  }

  function GetServiceAccount(m: Mutator, name: string, namespace: string): Lookup {
    match m.client(name, namespace)
    case NotFound => m.reader(name, namespace)
    case other => other
  }

  /** The service account of a pod; pods without one run as "default". */
  function ServiceAccountOf(m: Mutator, namespace: string, pod: Pod): Lookup {
    GetServiceAccount(m, if pod.serviceAccountName == "" then "default" else pod.serviceAccountName, namespace)
  }

  predicate ShouldInjectProxySidecar(pod: Pod) {
    INJECT_PROXY_ANNOTATION in pod.annotations
  }

  predicate IsUsingCustomTokenEndpoint(m: Mutator, pod: Pod) {
    && m.customTokenEndpoint.Enabled?
    && m.customTokenEndpoint.annotation in pod.annotations
    && IsTrueFold(pod.annotations[m.customTokenEndpoint.annotation])
  }

  function SkipContainers(pod: Pod): set<string> {
    var list := Annotation(pod.annotations, SKIP_CONTAINERS_ANNOTATION);
    if list == "" then {}
    else
      var parts := Split(list, ';');
      set i | 0 <= i < |parts| :: TrimSpace(parts[i])
  }

  predicate ValidTokenExpiry(expiry: int) {
    MIN_TOKEN_EXPIRATION <= expiry <= MAX_TOKEN_EXPIRATION
  }

  /** The pod's annotation, else the service account's, else the default; None is an error. */
  function TokenExpiration(pod: Pod, sa: ServiceAccount): Option<int> {
    var own := Annotation(pod.annotations, TOKEN_EXPIRY_ANNOTATION);
    var shared := Annotation(sa.annotations, TOKEN_EXPIRY_ANNOTATION);
    var parsed :=
      if own != "" then ParseInt(own, 64)
      else if shared != "" then ParseInt(shared, 64)
      else Number(DEFAULT_TOKEN_EXPIRATION);
    if parsed.Number? && ValidTokenExpiry(parsed.value) then Some(parsed.value) else None
  }

  function ProxyPort(pod: Pod): Parsed {
    if PROXY_PORT_ANNOTATION in pod.annotations then ParseInt(pod.annotations[PROXY_PORT_ANNOTATION], 32)
    else Number(DEFAULT_PROXY_PORT)
  }

  function TenantID(m: Mutator, sa: ServiceAccount): string {
    if TENANT_ID_ANNOTATION in sa.annotations then sa.annotations[TENANT_ID_ANNOTATION] else m.config.tenantID
  }

  // ---------------------------------------------------------------------------------------
  // What is injected

  predicate HasContainer(cs: seq<Container>, name: string) {
    exists i :: 0 <= i < |cs| && cs[i].name == name
  }

  function ProxyInitContainer(m: Mutator, port: int): Container {
    Container(PROXY_INIT_NAME, m.proxyInitImage, [], [], [], false,
              [EnvVar(PROXY_PORT_ENV, Decimal(port))], [], "privileged root, NET_ADMIN only")
  }

  function ProxyContainer(m: Mutator, port: int, restartPolicyAlways: bool): Container {
    var portArg, levelArg := "--proxy-port=" + Decimal(port), "--log-level=" + m.logLevel;
    Container(PROXY_NAME, m.proxyImage, [portArg, levelArg], [port], ["/proxy", portArg, "--probe", levelArg],
              restartPolicyAlways, [], [], "unprivileged, no capabilities, read-only root")
  }

  function InjectInit(m: Mutator, cs: seq<Container>, port: int): seq<Container> {
    if HasContainer(cs, PROXY_INIT_NAME) then cs else cs + [ProxyInitContainer(m, port)]
  }

  function InjectSidecar(m: Mutator, cs: seq<Container>, port: int, restartPolicyAlways: bool): seq<Container> {
    if HasContainer(cs, PROXY_NAME) then cs else [ProxyContainer(m, port, restartPolicyAlways)] + cs
  }

  function DesiredEnv(m: Mutator, clientID: string, tenantID: string, custom: bool): seq<EnvVar> {
    [EnvVar(CLIENT_ID_ENV, clientID), EnvVar(TENANT_ID_ENV, tenantID),
     EnvVar(TOKEN_FILE_ENV, MOUNT_PATH + "/" + TOKEN_FILE_PATH), EnvVar(AUTHORITY_HOST_ENV, m.azureAuthorityHost)]
    + if custom then
        [EnvVar(TOKEN_PROXY_ENV, m.config.azureKubernetesTokenProxy),
         EnvVar(SNI_NAME_ENV, m.config.azureKubernetesSNIName),
         EnvVar(CA_FILE_ENV, MOUNT_PATH + "/" + CA_FILE_PATH), EnvVar(CA_DATA_ENV, m.config.azureKubernetesCAData)]
      else []
  }

  function EnvNames(env: seq<EnvVar>): set<string> {
    set i | 0 <= i < |env| :: env[i].name
  }

  /** The desired variables that have a value and whose name is not taken. */
  function MissingEnv(desired: seq<EnvVar>, taken: set<string>): seq<EnvVar> {
    if desired == [] then []
    else
      var last := desired[|desired| - 1];
      MissingEnv(desired[..|desired| - 1], taken) + if last.name !in taken && last.value != "" then [last] else []
  }

  /** The index of the first mount of that name, or the length. */
  function MountIndex(mounts: seq<VolumeMount>, name: string): (i: nat)
    ensures i <= |mounts|
    ensures i < |mounts| ==> mounts[i].name == name
    ensures forall k :: 0 <= k < i ==> mounts[k].name != name
  {
    if mounts == [] || mounts[0].name == name then 0 else 1 + MountIndex(mounts[1..], name)
  }

  function PutMount(mounts: seq<VolumeMount>, mount: VolumeMount): seq<VolumeMount> {
    var i := MountIndex(mounts, mount.name);
    if i < |mounts| then mounts[i := mount] else mounts + [mount]
  }

  function VolumeIndex(volumes: seq<Volume>, name: string): (i: nat)
    ensures i <= |volumes|
    ensures i < |volumes| ==> volumes[i].name == name
    ensures forall k :: 0 <= k < i ==> volumes[k].name != name
  {
    if volumes == [] || volumes[0].name == name then 0 else 1 + VolumeIndex(volumes[1..], name)
  }

  function PutVolume(volumes: seq<Volume>, volume: Volume): seq<Volume> {
    var i := VolumeIndex(volumes, volume.name);
    if i < |volumes| then volumes[i := volume] else volumes + [volume]
  }

  /** Everything that is the same for all containers of one pod. */
  datatype Injection = Injection(desired: seq<EnvVar>, mount: VolumeMount, skip: set<string>)

  function MutateContainer(inj: Injection, c: Container): Container {
    if c.name in inj.skip then c
    else c.(env := c.env + MissingEnv(inj.desired, EnvNames(c.env)),
            volumeMounts := PutMount(c.volumeMounts, inj.mount))
  }

  function MutateContainers(inj: Injection, cs: seq<Container>): seq<Container> {
    seq(|cs|, i requires 0 <= i < |cs| => MutateContainer(inj, cs[i]))
  }

  function TokenVolume(m: Mutator, expiration: int, name: string, custom: bool): Volume {
    var audience := if custom && m.customTokenEndpoint.Enabled? then m.customTokenEndpoint.audience else m.audience;
    Volume(name, Projected(
      [ServiceAccountToken(TOKEN_FILE_PATH, expiration, audience)]
      + (if custom && m.config.azureKubernetesCAConfigMapName != ""
         then [ConfigMap(m.config.azureKubernetesCAConfigMapName, "ca.crt", CA_FILE_PATH)] else [])
      + (if custom && m.config.azureKubernetesCACTBSignerName != ""
         then [ClusterTrustBundle(m.config.azureKubernetesCACTBSignerName, m.config.azureKubernetesCACTBLabelSelector,
                                  CA_FILE_PATH)]
         else [])))
  }

  // ---------------------------------------------------------------------------------------
  // Handle

  /** The containers with the proxy injected where the pod asks for it; None is an error. */
  function WithProxy(m: Mutator, pod: Pod): Option<Pod> {
    if !ShouldInjectProxySidecar(pod) then Some(pod)
    else if pod.hostNetwork then None
    else
      match ProxyPort(pod)
      case Malformed => None
      case Number(port) =>
        var inits := InjectInit(m, pod.initContainers, port);
        if m.useNativeSidecar then Some(pod.(initContainers := InjectSidecar(m, inits, port, true)))
        else Some(pod.(initContainers := inits, containers := InjectSidecar(m, pod.containers, port, false)))
  }

  function PodInjection(m: Mutator, pod: Pod, sa: ServiceAccount): Injection {
    Injection(DesiredEnv(m, Annotation(sa.annotations, CLIENT_ID_ANNOTATION), TenantID(m, sa),
                         IsUsingCustomTokenEndpoint(m, pod)),
              VolumeMount(VolumeName(m, PodName(pod)), MOUNT_PATH, true), SkipContainers(pod))
  }

  /** The pod once the service account and its token expiration are known. */
  function Mutated(m: Mutator, pod: Pod, sa: ServiceAccount, expiration: int): Pod {
    var inj := PodInjection(m, pod, sa);
    pod.(initContainers := MutateContainers(inj, pod.initContainers),
         containers := MutateContainers(inj, pod.containers),
         volumes := PutVolume(pod.volumes,
                              TokenVolume(m, expiration, inj.mount.name, IsUsingCustomTokenEndpoint(m, pod))))
  }

  function Handled(m: Mutator, namespace: string, request: Pod): Response {
    var pod := request.(namespace := namespace);
    match ServiceAccountOf(m, namespace, pod)
    case NotFound => Errored
    case LookupFailed => Errored
    case Found(sa) =>
      match WithProxy(m, pod)
      case None => Errored
      case Some(proxied) =>
        match TokenExpiration(proxied, sa)
        case None => Errored
        case Some(expiration) => Patched(Mutated(m, proxied, sa, expiration))
  }

  // ---------------------------------------------------------------------------------------
  // The code

  /** A pod object whose fields Handle updates in place. */
  class PodObject {
    const request: Pod
    var namespace: string
    var initContainers: seq<Container>
    var containers: seq<Container>
    var volumes: seq<Volume>

    constructor (decoded: Pod)
      ensures request == decoded && Value() == decoded
    {
      request := decoded;
      namespace, initContainers, containers, volumes :=
        decoded.namespace, decoded.initContainers, decoded.containers, decoded.volumes;
    }

    function Value(): Pod
      reads this
    {
      request.(namespace := namespace, initContainers := initContainers, containers := containers, volumes := volumes)
    }
  }

  method Handle(m: Mutator, namespace: string, request: Pod) returns (r: Response)
    ensures r == Handled(m, namespace, request)
  {
    var pod := new PodObject(request);
    var podName := PodName(pod.Value());
    pod.namespace := namespace;
    var serviceAccountName := request.serviceAccountName;
    if serviceAccountName == "" {
      serviceAccountName := "default";
    }
    var lookup := m.client(serviceAccountName, namespace);
    if lookup.NotFound? {
      // bypass the cache
      lookup := m.reader(serviceAccountName, namespace);
    }
    if !lookup.Found? {
      return Errored;
    }
    var ok := InjectProxy(m, pod);
    if !ok {
      return Errored;
    }
    ok := InjectIdentity(m, pod, podName, lookup.sa);
    if !ok {
      return Errored;
    }
    r := Patched(pod.Value());
  }

  method InjectProxy(m: Mutator, pod: PodObject) returns (ok: bool)
    modifies pod
    ensures WithProxy(m, old(pod.Value())) == if ok then Some(pod.Value()) else None
  {
    if !ShouldInjectProxySidecar(pod.Value()) {
      return true;
    }
    if pod.request.hostNetwork {
      return false;
    }
    var port := GetProxyPort(pod.Value());
    if port.Malformed? {
      return false;
    }
    pod.initContainers := InjectProxyInitContainer(m, pod.initContainers, port.value);
    if m.useNativeSidecar {
      pod.initContainers := InjectProxySidecarContainer(m, pod.initContainers, port.value, true);
    } else {
      pod.containers := InjectProxySidecarContainer(m, pod.containers, port.value, false);
    }
    ok := true;
  }

  method InjectIdentity(m: Mutator, pod: PodObject, podName: string, sa: ServiceAccount) returns (ok: bool)
    requires podName == PodName(pod.Value())
    modifies pod
    ensures var expiration := TokenExpiration(old(pod.Value()), sa);
            if expiration.None? then !ok else ok && pod.Value() == Mutated(m, old(pod.Value()), sa, expiration.value)
  {
    var expiration := GetTokenExpiration(pod.Value(), sa);
    if expiration.None? {
      return false;
    }
    var clientID := Annotation(sa.annotations, CLIENT_ID_ANNOTATION);
    var tenantID := m.config.tenantID;
    if TENANT_ID_ANNOTATION in sa.annotations {
      tenantID := sa.annotations[TENANT_ID_ANNOTATION];
    }
    var skip := GetSkipContainers(pod.Value());
    var custom := IsUsingCustomTokenEndpoint(m, pod.Value());
    var volumeName := VolumeName(m, podName);

    pod.initContainers := MutateContainerList(m, pod.initContainers, clientID, tenantID, skip, custom, volumeName);
    pod.containers := MutateContainerList(m, pod.containers, clientID, tenantID, skip, custom, volumeName);
    AddProjectedVolume(m, pod, expiration.value, volumeName, custom);
    ok := true;
  }

  method GetProxyPort(pod: Pod) returns (port: Parsed)
    ensures port == ProxyPort(pod)
  {
    if PROXY_PORT_ANNOTATION !in pod.annotations {
      return Number(DEFAULT_PROXY_PORT);
    }
    port := ParseInt(pod.annotations[PROXY_PORT_ANNOTATION], 32);
  }

  /** The annotation of the pod comes before that of the account, and either before the default. */
  method GetTokenExpiration(pod: Pod, sa: ServiceAccount) returns (expiration: Option<int>)
    ensures expiration == TokenExpiration(pod, sa)
  {
    var seconds := DEFAULT_TOKEN_EXPIRATION;
    var text := "";
    if TOKEN_EXPIRY_ANNOTATION in pod.annotations && pod.annotations[TOKEN_EXPIRY_ANNOTATION] != "" {
      text := pod.annotations[TOKEN_EXPIRY_ANNOTATION];
    } else if TOKEN_EXPIRY_ANNOTATION in sa.annotations && sa.annotations[TOKEN_EXPIRY_ANNOTATION] != "" {
      text := sa.annotations[TOKEN_EXPIRY_ANNOTATION];
    }
    if text != "" {
      var parsed := ParseInt(text, 64);
      if parsed.Malformed? {
        return None;
      }
      seconds := parsed.value;
    }
    if seconds > MAX_TOKEN_EXPIRATION || seconds < MIN_TOKEN_EXPIRATION {
      return None;
    }
    expiration := Some(seconds);
  }

  method GetSkipContainers(pod: Pod) returns (skip: set<string>)
    ensures skip == SkipContainers(pod)
  {
    skip := {};
    if SKIP_CONTAINERS_ANNOTATION !in pod.annotations || |pod.annotations[SKIP_CONTAINERS_ANNOTATION]| == 0 {
      return;
    }
    var list := Split(pod.annotations[SKIP_CONTAINERS_ANNOTATION], ';');
    for i := 0 to |list|
      invariant skip == set k | 0 <= k < i :: TrimSpace(list[k])
    {
      skip := skip + {TrimSpace(list[i])};
    }
  }

  method InjectProxyInitContainer(m: Mutator, containers: seq<Container>, port: int) returns (r: seq<Container>)
    ensures r == InjectInit(m, containers, port)
  {
    for i := 0 to |containers|
      invariant !HasContainer(containers[..i], PROXY_INIT_NAME)
    {
      if containers[i].name == PROXY_INIT_NAME {
        return containers;
      }
      assert forall k :: 0 <= k < i ==> containers[k] == containers[..i][k];
    }
    assert containers[..|containers|] == containers;
    r := containers + [ProxyInitContainer(m, port)];
  }

  method InjectProxySidecarContainer(m: Mutator, containers: seq<Container>, port: int, restartPolicyAlways: bool)
      returns (r: seq<Container>)
    ensures r == InjectSidecar(m, containers, port, restartPolicyAlways)
  {
    for i := 0 to |containers|
      invariant !HasContainer(containers[..i], PROXY_NAME)
    {
      if containers[i].name == PROXY_NAME {
        return containers;
      }
      assert forall k :: 0 <= k < i ==> containers[k] == containers[..i][k];
    }
    assert containers[..|containers|] == containers;
    r := [ProxyContainer(m, port, restartPolicyAlways)] + containers;
  }

  method MutateContainerList(m: Mutator, containers: seq<Container>, clientID: string, tenantID: string,
                             skip: set<string>, custom: bool, volumeName: string)
      returns (r: seq<Container>)
    ensures r == MutateContainers(Injection(DesiredEnv(m, clientID, tenantID, custom),
                                            VolumeMount(volumeName, MOUNT_PATH, true), skip), containers)
  {
    ghost var mount := VolumeMount(volumeName, MOUNT_PATH, true);
    ghost var inj := Injection(DesiredEnv(m, clientID, tenantID, custom), mount, skip);
    r := containers;
    for i := 0 to |containers|
      invariant |r| == |containers|
      invariant forall k :: 0 <= k < |r| ==>
                  r[k] == if k < i then MutateContainer(inj, containers[k]) else containers[k]
    {
      if r[i].name in skip {
        continue;
      }
      var c := AddEnvironmentVariables(m, r[i], clientID, tenantID, custom);
      r := r[i := c];
      c := AddProjectedVolumeMount(r[i], volumeName);
      r := r[i := c];
    }
  }

  method AddEnvironmentVariables(m: Mutator, container: Container, clientID: string, tenantID: string, custom: bool)
      returns (r: Container)
    ensures r == container.(env := container.env
                              + MissingEnv(DesiredEnv(m, clientID, tenantID, custom), EnvNames(container.env)))
  {
    var envs: map<string, string> := map[];
    for i := 0 to |container.env|
      invariant envs.Keys == EnvNames(container.env[..i])
    {
      envs := envs[container.env[i].name := container.env[i].value];
      EnvNamesAppend(container.env[..i], container.env[i]);
      assert container.env[..i + 1] == container.env[..i] + [container.env[i]];
    }
    assert container.env[..|container.env|] == container.env;
    var desired := DesiredEnvironment(m, clientID, tenantID, custom);
    var env := container.env;
    for i := 0 to |desired|
      invariant env == container.env + MissingEnv(desired[..i], envs.Keys)
    {
      assert desired[..i + 1][..i] == desired[..i];
      if desired[i].name !in envs && |desired[i].value| > 0 {
        env := env + [desired[i]];
      }
    }
    assert desired[..|desired|] == desired;
    r := container.(env := env);
  }

  method DesiredEnvironment(m: Mutator, clientID: string, tenantID: string, custom: bool) returns (desired: seq<EnvVar>)
    ensures desired == DesiredEnv(m, clientID, tenantID, custom)
  {
    desired := [EnvVar(CLIENT_ID_ENV, clientID), EnvVar(TENANT_ID_ENV, tenantID),
                EnvVar(TOKEN_FILE_ENV, MOUNT_PATH + "/" + TOKEN_FILE_PATH),
                EnvVar(AUTHORITY_HOST_ENV, m.azureAuthorityHost)];
    if custom {
      desired := desired + [EnvVar(TOKEN_PROXY_ENV, m.config.azureKubernetesTokenProxy)];
      desired := desired + [EnvVar(SNI_NAME_ENV, m.config.azureKubernetesSNIName)];
      desired := desired + [EnvVar(CA_FILE_ENV, MOUNT_PATH + "/" + CA_FILE_PATH)];
      desired := desired + [EnvVar(CA_DATA_ENV, m.config.azureKubernetesCAData)];
    }
  }

  lemma EnvNamesAppend(env: seq<EnvVar>, e: EnvVar)
    ensures EnvNames(env + [e]) == EnvNames(env) + {e.name}
  {
    forall n | n in EnvNames(env) + {e.name} ensures n in EnvNames(env + [e]) {
      if n == e.name {
        assert (env + [e])[|env|].name == n;
      } else {
        var i :| 0 <= i < |env| && env[i].name == n;
        assert (env + [e])[i].name == n;
      }
    }
  }

  method AddProjectedVolumeMount(container: Container, volumeName: string) returns (r: Container)
    ensures r == container.(volumeMounts := PutMount(container.volumeMounts, VolumeMount(volumeName, MOUNT_PATH, true)))
  {
    var mount := VolumeMount(volumeName, MOUNT_PATH, true);
    for i := 0 to |container.volumeMounts|
      invariant i <= MountIndex(container.volumeMounts, volumeName)
    {
      if container.volumeMounts[i].name == volumeName {
        return container.(volumeMounts := container.volumeMounts[i := mount]);
      }
    }
    r := container.(volumeMounts := container.volumeMounts + [mount]);
  }

  method AddProjectedVolume(m: Mutator, pod: PodObject, expiration: int, volumeName: string, custom: bool)
    modifies pod`volumes
    ensures pod.volumes == PutVolume(old(pod.volumes), TokenVolume(m, expiration, volumeName, custom))
  {
    var audience := m.audience;
    if custom && m.customTokenEndpoint.Enabled? {
      audience := m.customTokenEndpoint.audience;
    }
    var sources := [ServiceAccountToken(TOKEN_FILE_PATH, expiration, audience)];
    if custom {
      if |m.config.azureKubernetesCAConfigMapName| > 0 {
        sources := sources + [ConfigMap(m.config.azureKubernetesCAConfigMapName, "ca.crt", CA_FILE_PATH)];
      }
      if |m.config.azureKubernetesCACTBSignerName| > 0 {
        sources := sources + [ClusterTrustBundle(m.config.azureKubernetesCACTBSignerName,
                                                 m.config.azureKubernetesCACTBLabelSelector, CA_FILE_PATH)];
      }
    }
    var volume := Volume(volumeName, Projected(sources));
    assert sources == TokenVolume(m, expiration, volumeName, custom).source.sources;
    for i := 0 to |pod.volumes|
      invariant pod.volumes == old(pod.volumes)
      invariant i <= VolumeIndex(pod.volumes, volumeName)
    {
      if pod.volumes[i].name == volumeName {
        pod.volumes := pod.volumes[i := volume];
        return;
      }
    }
    pod.volumes := pod.volumes + [volume];
  }
}
