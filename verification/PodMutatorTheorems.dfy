/** What the webhook promises: idempotence, convergence under reinvocation, and user content kept. */
module PodMutatorTheorems {
  import opened Common
  import opened PodMutator

  // ---------------------------------------------------------------------------------------
  // Mutating a mutated container, mount list or volume list changes nothing

  lemma {:induction false} NothingMissing(desired: seq<EnvVar>, taken: set<string>)
    requires forall i :: 0 <= i < |desired| ==> desired[i].name in taken || desired[i].value == ""
    ensures MissingEnv(desired, taken) == []
  {
    if desired != [] { NothingMissing(desired[..|desired| - 1], taken); }
  }

  /** The names that MissingEnv contributes: those desired with a value and not taken. */
  lemma {:induction false} MissingNames(desired: seq<EnvVar>, taken: set<string>, n: string)
    ensures n in EnvNames(MissingEnv(desired, taken)) <==>
            n !in taken && exists i :: 0 <= i < |desired| && desired[i].name == n && desired[i].value != ""
  {
    if desired != [] {
      var front, last := desired[..|desired| - 1], desired[|desired| - 1];
      MissingNames(front, taken, n);
      var missing := MissingEnv(front, taken);
      if last.name !in taken && last.value != "" {
        EnvNamesAppend(missing, last);
      } else {
        assert MissingEnv(desired, taken) == missing;
      }
      if i :| 0 <= i < |front| && front[i].name == n && front[i].value != "" {
        assert desired[i] == front[i];
      }
      if i :| 0 <= i < |desired| && desired[i].name == n && desired[i].value != "" {
        assert i < |front| ==> front[i] == desired[i];
      }
    }
  }

  lemma EnvNamesConcat(a: seq<EnvVar>, b: seq<EnvVar>)
    ensures EnvNames(a + b) == EnvNames(a) + EnvNames(b)
  {
    forall n | n in EnvNames(a) + EnvNames(b) ensures n in EnvNames(a + b) {
      if n in EnvNames(a) {
        var i :| 0 <= i < |a| && a[i].name == n;
        assert (a + b)[i].name == n;
      } else {
        var i :| 0 <= i < |b| && b[i].name == n;
        assert (a + b)[|a| + i].name == n;
      }
    }
  }

  lemma MountIndexUnique(mounts: seq<VolumeMount>, name: string, i: nat)
    requires i <= |mounts| && (i < |mounts| ==> mounts[i].name == name)
    requires forall k :: 0 <= k < i ==> mounts[k].name != name
    ensures MountIndex(mounts, name) == i
  {
  }

  lemma VolumeIndexUnique(volumes: seq<Volume>, name: string, i: nat)
    requires i <= |volumes| && (i < |volumes| ==> volumes[i].name == name)
    requires forall k :: 0 <= k < i ==> volumes[k].name != name
    ensures VolumeIndex(volumes, name) == i
  {
  }

  lemma PutMountTwice(mounts: seq<VolumeMount>, mount: VolumeMount)
    ensures PutMount(PutMount(mounts, mount), mount) == PutMount(mounts, mount)
  {
    MountIndexUnique(PutMount(mounts, mount), mount.name, MountIndex(mounts, mount.name));
  }

  lemma PutVolumeTwice(volumes: seq<Volume>, volume: Volume)
    ensures PutVolume(PutVolume(volumes, volume), volume) == PutVolume(volumes, volume)
  {
    VolumeIndexUnique(PutVolume(volumes, volume), volume.name, VolumeIndex(volumes, volume.name));
  }

  lemma MutateContainerTwice(inj: Injection, c: Container)
    ensures MutateContainer(inj, MutateContainer(inj, c)) == MutateContainer(inj, c)
  {
    if c.name !in inj.skip {
      var added := MissingEnv(inj.desired, EnvNames(c.env));
      EnvNamesConcat(c.env, added);
      forall i | 0 <= i < |inj.desired|
        ensures inj.desired[i].name in EnvNames(c.env + added) || inj.desired[i].value == ""
      {
        MissingNames(inj.desired, EnvNames(c.env), inj.desired[i].name);
      }
      NothingMissing(inj.desired, EnvNames(c.env + added));
      PutMountTwice(c.volumeMounts, inj.mount);
    }
  }

  lemma MutateContainersConcat(inj: Injection, a: seq<Container>, b: seq<Container>)
    ensures MutateContainers(inj, a + b) == MutateContainers(inj, a) + MutateContainers(inj, b)
  {
  }

  /** Containers that were mutated once stay as they are, wherever others were put between them. */
  lemma MutateAround(inj: Injection, cs: seq<Container>, before: seq<Container>, between: seq<Container>,
                     after: seq<Container>)
    requires before + after == MutateContainers(inj, cs)
    ensures MutateContainers(inj, before + between + after) == before + MutateContainers(inj, between) + after
  {
    forall i | 0 <= i < |before| ensures MutateContainer(inj, before[i]) == before[i] {
      assert before[i] == (before + after)[i] == MutateContainer(inj, cs[i]);
      MutateContainerTwice(inj, cs[i]);
    }
    forall i | 0 <= i < |after| ensures MutateContainer(inj, after[i]) == after[i] {
      assert after[i] == (before + after)[|before| + i] == MutateContainer(inj, cs[|before| + i]);
      MutateContainerTwice(inj, cs[|before| + i]);
    }
  }

  lemma HasContainerAround(inj: Injection, cs: seq<Container>, name: string,
                           before: seq<Container>, between: seq<Container>, after: seq<Container>)
    requires before + after == MutateContainers(inj, cs) && HasContainer(cs, name)
    ensures HasContainer(before + between + after, name)
  {
    var i :| 0 <= i < |cs| && cs[i].name == name;
    assert (before + after)[i].name == name;
    if i < |before| {
      assert (before + between + after)[i].name == name;
    } else {
      assert (before + between + after)[i + |between|].name == name;
    }
  }

  // ---------------------------------------------------------------------------------------
  // Where the proxies go

  lemma HasContainerAppend(cs: seq<Container>, added: seq<Container>, name: string)
    requires !HasContainer(added, name)
    ensures HasContainer(cs + added, name) == HasContainer(cs, name)
  {
    if i :| 0 <= i < |cs| && cs[i].name == name { assert (cs + added)[i].name == name; }
    if i :| 0 <= i < |cs + added| && (cs + added)[i].name == name {
      assert i >= |cs| ==> added[i - |cs|].name == name;
    }
  }

  /** The azwi-proxy-init container that this call injects, if any. */
  function InitPart(m: Mutator, pod: Pod): seq<Container> {
    if ShouldInjectProxySidecar(pod) && ProxyPort(pod).Number? && !HasContainer(pod.initContainers, PROXY_INIT_NAME)
    then [ProxyInitContainer(m, ProxyPort(pod).value)] else []
  }

  /** The azwi-proxy container that this call injects, if any. */
  function SidecarPart(m: Mutator, pod: Pod): seq<Container> {
    if ShouldInjectProxySidecar(pod) && ProxyPort(pod).Number?
       && !HasContainer(if m.useNativeSidecar then pod.initContainers else pod.containers, PROXY_NAME)
    then [ProxyContainer(m, ProxyPort(pod).value, m.useNativeSidecar)] else []
  }

  lemma WithProxyShape(m: Mutator, pod: Pod)
    ensures WithProxy(m, pod).Some? <==> !ShouldInjectProxySidecar(pod) || (!pod.hostNetwork && ProxyPort(pod).Number?)
    ensures WithProxy(m, pod).Some? ==>
      WithProxy(m, pod).value ==
      if m.useNativeSidecar then pod.(initContainers := SidecarPart(m, pod) + pod.initContainers + InitPart(m, pod))
      else pod.(initContainers := pod.initContainers + InitPart(m, pod),
                containers := SidecarPart(m, pod) + pod.containers)
  {
    var init, sidecar := InitPart(m, pod), SidecarPart(m, pod);
    if WithProxy(m, pod).Some? && ShouldInjectProxySidecar(pod) {
      HasContainerAppend(pod.initContainers, init, PROXY_NAME);
      assert InjectInit(m, pod.initContainers, ProxyPort(pod).value) == pod.initContainers + init;
      if m.useNativeSidecar {
        assert sidecar + (pod.initContainers + init) == sidecar + pod.initContainers + init;
        var own := pod.initContainers + init;
        assert InjectSidecar(m, own, ProxyPort(pod).value, true) == sidecar + pod.initContainers + init;
      } else {
        assert InjectSidecar(m, pod.containers, ProxyPort(pod).value, false) == sidecar + pod.containers;
      }
    }
  }

  predicate AllNamed(cs: seq<Container>, name: string) {
    forall i :: 0 <= i < |cs| ==> cs[i].name == name
  }

  function InitSidecar(m: Mutator, pod: Pod): seq<Container> {
    if m.useNativeSidecar then SidecarPart(m, pod) else []
  }

  function PlainSidecar(m: Mutator, pod: Pod): seq<Container> {
    if m.useNativeSidecar then [] else SidecarPart(m, pod)
  }

  /** The two container lists of a pod that got its proxies. */
  lemma WithProxyLists(m: Mutator, pod: Pod, proxied: Pod)
    requires WithProxy(m, pod) == Some(proxied)
    ensures proxied == pod.(initContainers := InitSidecar(m, pod) + pod.initContainers + InitPart(m, pod),
                            containers := PlainSidecar(m, pod) + pod.containers)
  {
    WithProxyShape(m, pod);
    if m.useNativeSidecar {
      assert PlainSidecar(m, pod) + pod.containers == pod.containers;
    } else {
      assert InitSidecar(m, pod) + pod.initContainers == pod.initContainers;
    }
  }

  /** Wherever both proxies were asked for, they are there. */
  lemma ProxyPresent(m: Mutator, pod: Pod, proxied: Pod)
    requires WithProxy(m, pod) == Some(proxied) && ShouldInjectProxySidecar(pod)
    ensures !pod.hostNetwork && ProxyPort(pod).Number?
    ensures HasContainer(proxied.initContainers, PROXY_INIT_NAME)
    ensures HasContainer(if m.useNativeSidecar then proxied.initContainers else proxied.containers, PROXY_NAME)
  {
    hide InitPart;
    hide InitSidecar;
    hide PlainSidecar;
    hide SidecarPart;
    hide HasContainer;
    hide WithProxy;
    WithProxyShape(m, pod);
    WithProxyLists(m, pod, proxied);
    InitPresent(m, pod);
    SidecarPresent(m, pod);
  }

  lemma HasContainerLater(a: seq<Container>, b: seq<Container>, name: string)
    requires HasContainer(b, name)
    ensures HasContainer(a + b, name)
  {
    var i :| 0 <= i < |b| && b[i].name == name;
    assert (a + b)[|a| + i] == b[i];
  }

  lemma HasContainerEarlier(a: seq<Container>, b: seq<Container>, name: string)
    requires HasContainer(a, name)
    ensures HasContainer(a + b, name)
  {
    var i :| 0 <= i < |a| && a[i].name == name;
    assert (a + b)[i] == a[i];
  }

  lemma InitPresent(m: Mutator, pod: Pod)
    requires ShouldInjectProxySidecar(pod) && ProxyPort(pod).Number?
    ensures HasContainer(InitSidecar(m, pod) + pod.initContainers + InitPart(m, pod), PROXY_INIT_NAME)
  {
    InitPartPresent(m, pod);
    hide HasContainer;
    hide InitPart;
    hide InitSidecar;
    var front, own, back := InitSidecar(m, pod), pod.initContainers, InitPart(m, pod);
    if HasContainer(own, PROXY_INIT_NAME) {
      HasContainerLater(front, own, PROXY_INIT_NAME);
      HasContainerEarlier(front + own, back, PROXY_INIT_NAME);
    } else {
      HasContainerLater(front + own, back, PROXY_INIT_NAME);
    }
  }

  lemma InitPartPresent(m: Mutator, pod: Pod)
    requires ShouldInjectProxySidecar(pod) && ProxyPort(pod).Number?
    ensures HasContainer(pod.initContainers, PROXY_INIT_NAME) || HasContainer(InitPart(m, pod), PROXY_INIT_NAME)
  {
    if !HasContainer(pod.initContainers, PROXY_INIT_NAME) { assert InitPart(m, pod)[0].name == PROXY_INIT_NAME; }
  }

  lemma SidecarPresent(m: Mutator, pod: Pod)
    requires ShouldInjectProxySidecar(pod) && ProxyPort(pod).Number?
    ensures HasContainer(if m.useNativeSidecar then InitSidecar(m, pod) + pod.initContainers + InitPart(m, pod)
                         else PlainSidecar(m, pod) + pod.containers, PROXY_NAME)
  {
    var own := if m.useNativeSidecar then pod.initContainers else pod.containers;
    var part := SidecarPart(m, pod);
    assert m.useNativeSidecar ==> InitSidecar(m, pod) == part;
    assert !m.useNativeSidecar ==> PlainSidecar(m, pod) == part;
    SidecarPartPresent(m, pod, own);
    hide HasContainer;
    hide InitPart;
    hide InitSidecar;
    hide PlainSidecar;
    hide SidecarPart;
    if HasContainer(own, PROXY_NAME) {
      HasContainerLater(part, own, PROXY_NAME);
    } else {
      HasContainerEarlier(part, own, PROXY_NAME);
    }
    if m.useNativeSidecar { HasContainerEarlier(part + own, InitPart(m, pod), PROXY_NAME); }
  }

  lemma SidecarPartPresent(m: Mutator, pod: Pod, own: seq<Container>)
    requires ShouldInjectProxySidecar(pod) && ProxyPort(pod).Number?
    requires own == if m.useNativeSidecar then pod.initContainers else pod.containers
    ensures HasContainer(own, PROXY_NAME) || HasContainer(SidecarPart(m, pod), PROXY_NAME)
  {
    if !HasContainer(own, PROXY_NAME) { assert SidecarPart(m, pod)[0].name == PROXY_NAME; }
  }

  /** The webhook refuses a pod exactly for a missing account, a proxy in the host's network, a port
      that is no number, or a lifetime that is none or out of bounds. */
  lemma PatchedExactlyWhen(m: Mutator, namespace: string, request: Pod)
    ensures Handled(m, namespace, request).Patched? <==>
              && ServiceAccountOf(m, namespace, request).Found?
              && (ShouldInjectProxySidecar(request) ==> !request.hostNetwork && ProxyPort(request).Number?)
              && TokenExpiration(request, ServiceAccountOf(m, namespace, request).sa).Some?
  {
    WithProxyShape(m, request.(namespace := namespace));
    hide WithProxy;
  }

  /** The pieces of a successful Handle. */
  lemma HandledParts(m: Mutator, namespace: string, request: Pod, result: Pod)
      returns (sa: ServiceAccount, proxied: Pod, expiration: int)
    requires Handled(m, namespace, request) == Patched(result)
    ensures ServiceAccountOf(m, namespace, request) == Found(sa) && ServiceAccountOf(m, namespace, result) == Found(sa)
    ensures WithProxy(m, request.(namespace := namespace)) == Some(proxied)
    ensures TokenExpiration(proxied, sa) == Some(expiration)
    ensures result == Mutated(m, proxied, sa, expiration)
    ensures PodInjection(m, proxied, sa) == PodInjection(m, result, sa)
  {
    var pod := request.(namespace := namespace);
    WithProxyShape(m, pod);
    sa := ServiceAccountOf(m, namespace, pod).sa;
    proxied := WithProxy(m, pod).value;
    expiration := TokenExpiration(proxied, sa).value;
  }

  lemma MutatedAgain(m: Mutator, pod: Pod, sa: ServiceAccount, expiration: int,
                     initBefore: seq<Container>, initNew: seq<Container>, initAfter: seq<Container>,
                     before: seq<Container>, added: seq<Container>, after: seq<Container>)
    requires initBefore + initAfter == MutateContainers(PodInjection(m, pod, sa), pod.initContainers)
    requires before + after == MutateContainers(PodInjection(m, pod, sa), pod.containers)
    ensures var inj := PodInjection(m, pod, sa);
            var result := Mutated(m, pod, sa, expiration);
            Mutated(m, result.(initContainers := initBefore + initNew + initAfter,
                               containers := before + added + after), sa, expiration)
            == result.(initContainers := initBefore + MutateContainers(inj, initNew) + initAfter,
                       containers := before + MutateContainers(inj, added) + after)
  {
    var inj := PodInjection(m, pod, sa);
    MutateAround(inj, pod.initContainers, initBefore, initNew, initAfter);
    MutateAround(inj, pod.containers, before, added, after);
    PutVolumeTwice(pod.volumes, TokenVolume(m, expiration, inj.mount.name, IsUsingCustomTokenEndpoint(m, pod)));
  }

  lemma ProxyAgain(m: Mutator, request: Pod, proxied: Pod, inj: Injection, again: Pod,
                   initBefore: seq<Container>, initNew: seq<Container>, initAfter: seq<Container>,
                   before: seq<Container>, added: seq<Container>, after: seq<Container>)
    requires WithProxy(m, request) == Some(proxied)
    requires initBefore + initAfter == MutateContainers(inj, proxied.initContainers)
    requires before + after == MutateContainers(inj, proxied.containers)
    requires again.annotations == request.annotations && again.hostNetwork == request.hostNetwork
    requires again.initContainers == initBefore + initNew + initAfter && again.containers == before + added + after
    ensures WithProxy(m, again) == Some(again)
  {
    if ShouldInjectProxySidecar(request) {
      ProxyPresent(m, request, proxied);
      HasContainerAround(inj, proxied.initContainers, PROXY_INIT_NAME, initBefore, initNew, initAfter);
      if m.useNativeSidecar {
        HasContainerAround(inj, proxied.initContainers, PROXY_NAME, initBefore, initNew, initAfter);
      } else {
        HasContainerAround(inj, proxied.containers, PROXY_NAME, before, added, after);
      }
    }
  }

  /** Handle on its own result, with containers inserted anywhere by others: the old ones stay as
      they are, the new ones are mutated, and nothing else changes. */
  lemma InsertionTheorem(m: Mutator, namespace: string, request: Pod, result: Pod,
                         initBefore: seq<Container>, initNew: seq<Container>, initAfter: seq<Container>,
                         before: seq<Container>, added: seq<Container>, after: seq<Container>)
    requires Handled(m, namespace, request) == Patched(result)
    requires result.initContainers == initBefore + initAfter && result.containers == before + after
    ensures ServiceAccountOf(m, namespace, result).Found?
    ensures var inj := PodInjection(m, result, ServiceAccountOf(m, namespace, result).sa);
            Handled(m, namespace,
                    result.(initContainers := initBefore + initNew + initAfter, containers := before + added + after))
            == Patched(result.(initContainers := initBefore + MutateContainers(inj, initNew) + initAfter,
                               containers := before + MutateContainers(inj, added) + after))
  {
    var sa, proxied, expiration := HandledParts(m, namespace, request, result);
    WithProxyShape(m, request.(namespace := namespace));
    var inj := PodInjection(m, proxied, sa);
    assert inj == PodInjection(m, result, sa);
    var again := result.(initContainers := initBefore + initNew + initAfter, containers := before + added + after);
    ProxyAgain(m, request.(namespace := namespace), proxied, inj, again, initBefore, initNew, initAfter, before, added,
               after);
    MutatedAgain(m, proxied, sa, expiration, initBefore, initNew, initAfter, before, added, after);
    assert again.(namespace := namespace) == again;
  }

  /** The API server may call the webhook again with its own output: the pod stays as it is. */
  lemma HandleIdempotent(m: Mutator, namespace: string, request: Pod, result: Pod)
    requires Handled(m, namespace, request) == Patched(result)
    ensures Handled(m, namespace, result) == Patched(result)
  {
    var inits, cs := result.initContainers, result.containers;
    assert inits == inits + [] + [] && inits == inits + [] && cs == cs + [] + [] && cs == cs + [];
    InsertionTheorem(m, namespace, request, result, inits, [], [], cs, [], []);
    var inj := PodInjection(m, result, ServiceAccountOf(m, namespace, result).sa);
    assert inits + MutateContainers(inj, []) + [] == inits && cs + MutateContainers(inj, []) + [] == cs;
    assert result.(initContainers := inits, containers := cs) == result;
  }

  // ---------------------------------------------------------------------------------------
  // Reinvocation: another webhook appends containers between two calls

  /** Appended containers of other names do not change which proxies get injected. */
  lemma PartsAppended(m: Mutator, pod: Pod, initAdded: seq<Container>, added: seq<Container>)
    requires !HasContainer(initAdded, PROXY_NAME) && !HasContainer(initAdded, PROXY_INIT_NAME)
    requires !HasContainer(added, PROXY_NAME)
    ensures var later := pod.(initContainers := pod.initContainers + initAdded, containers := pod.containers + added);
            SidecarPart(m, later) == SidecarPart(m, pod) && InitPart(m, later) == InitPart(m, pod)
  {
    HasContainerAppend(pod.initContainers, initAdded, PROXY_NAME);
    HasContainerAppend(pod.initContainers, initAdded, PROXY_INIT_NAME);
    HasContainerAppend(pod.containers, added, PROXY_NAME);
  }

  lemma WithProxyAppended(m: Mutator, pod: Pod, proxied: Pod, added: seq<Container>)
    requires WithProxy(m, pod) == Some(proxied) && !HasContainer(added, PROXY_NAME)
    ensures WithProxy(m, pod.(containers := pod.containers + added))
              == Some(proxied.(containers := proxied.containers + added))
  {
    var later := pod.(containers := pod.containers + added);
    assert pod.initContainers + [] == pod.initContainers;
    PartsAppended(m, pod, [], added);
    assert later == pod.(initContainers := pod.initContainers + [], containers := pod.containers + added);
    WithProxyShape(m, pod);
    WithProxyShape(m, later);
    assert SidecarPart(m, pod) + (pod.containers + added) == SidecarPart(m, pod) + pod.containers + added;
  }

  /** Appending regular containers first and handling once, or handling, appending and handling
      again: the same pod. */
  lemma ReinvocationConverges(m: Mutator, namespace: string, request: Pod, result: Pod, added: seq<Container>)
    requires Handled(m, namespace, request) == Patched(result)
    requires !HasContainer(added, PROXY_NAME)
    ensures Handled(m, namespace, request.(containers := request.containers + added)).Patched?
    ensures Handled(m, namespace, result.(containers := result.containers + added))
         == Handled(m, namespace, request.(containers := request.containers + added))
  {
    var sa, proxied, expiration := HandledParts(m, namespace, request, result);
    WithProxyAppended(m, request.(namespace := namespace), proxied, added);
    var inj := PodInjection(m, proxied, sa);
    MutateContainersConcat(inj, proxied.containers, added);
    HandledFrom(m, namespace, request.(containers := request.containers + added), sa,
                proxied.(containers := proxied.containers + added), expiration);
    AppendedTwice(m, namespace, request, result, [], added);
    assert result.initContainers + [] == result.initContainers;
    assert result.initContainers + MutateContainers(inj, []) == result.initContainers;
  }

  lemma HandledFrom(m: Mutator, namespace: string, request: Pod, sa: ServiceAccount, proxied: Pod, expiration: int)
    requires ServiceAccountOf(m, namespace, request) == Found(sa)
    requires WithProxy(m, request.(namespace := namespace)) == Some(proxied)
    requires TokenExpiration(proxied, sa) == Some(expiration)
    ensures Handled(m, namespace, request) == Patched(Mutated(m, proxied, sa, expiration))
  {
  }

  /** The second call after containers were appended to the first call's result. */
  lemma AppendedTwice(m: Mutator, namespace: string, request: Pod, result: Pod, initAdded: seq<Container>,
                      added: seq<Container>)
    requires Handled(m, namespace, request) == Patched(result)
    ensures ServiceAccountOf(m, namespace, result).Found?
    ensures var inj := PodInjection(m, result, ServiceAccountOf(m, namespace, result).sa);
            Handled(m, namespace,
                    result.(initContainers := result.initContainers + initAdded,
                            containers := result.containers + added))
            == Patched(result.(initContainers := result.initContainers + MutateContainers(inj, initAdded),
                               containers := result.containers + MutateContainers(inj, added)))
  {
    var inits, cs := result.initContainers, result.containers;
    InsertionTheorem(m, namespace, request, result, inits, initAdded, [], cs, added, []);
    var inj := PodInjection(m, result, ServiceAccountOf(m, namespace, result).sa);
    assert inits == inits + [] && cs == cs + [];
    assert inits + initAdded + [] == inits + initAdded && cs + added + [] == cs + added;
    assert inits + MutateContainers(inj, initAdded) + [] == inits + MutateContainers(inj, initAdded);
    assert cs + MutateContainers(inj, added) + [] == cs + MutateContainers(inj, added);
  }

  /** The init containers of a pod up to where azwi-proxy-init is appended. */
  function InitFront(m: Mutator, pod: Pod): seq<Container> {
    if m.useNativeSidecar then SidecarPart(m, pod) + pod.initContainers else pod.initContainers
  }

  lemma WithProxyInitAppended(m: Mutator, pod: Pod, proxied: Pod, added: seq<Container>)
    requires WithProxy(m, pod) == Some(proxied)
    requires !HasContainer(added, PROXY_NAME) && !HasContainer(added, PROXY_INIT_NAME)
    ensures proxied.initContainers == InitFront(m, pod) + InitPart(m, pod)
    ensures WithProxy(m, pod.(initContainers := pod.initContainers + added))
            == Some(proxied.(initContainers := InitFront(m, pod) + added + InitPart(m, pod)))
  {
    hide WithProxy;
    hide HasContainer;
    hide ProxyPort;
    hide ShouldInjectProxySidecar;
    hide InitPart;
    hide SidecarPart;
    var later := pod.(initContainers := pod.initContainers + added);
    InitPartsAppended(m, pod, added);
    WithProxyShape(m, pod);
    WithProxyShape(m, later);
    assert SidecarPart(m, pod) + (pod.initContainers + added) == SidecarPart(m, pod) + pod.initContainers + added;
  }

  lemma InitPartsAppended(m: Mutator, pod: Pod, added: seq<Container>)
    requires !HasContainer(added, PROXY_NAME) && !HasContainer(added, PROXY_INIT_NAME)
    ensures var later := pod.(initContainers := pod.initContainers + added);
            && SidecarPart(m, later) == SidecarPart(m, pod) && InitPart(m, later) == InitPart(m, pod)
            && ProxyPort(later) == ProxyPort(pod) && ShouldInjectProxySidecar(later) == ShouldInjectProxySidecar(pod)
  {
    assert pod.containers + [] == pod.containers;
    PartsAppended(m, pod, added, []);
    hide SidecarPart;
    hide InitPart;
    assert pod.(initContainers := pod.initContainers + added)
        == pod.(initContainers := pod.initContainers + added, containers := pod.containers + []);
  }

  /** Handling after init containers were appended. */
  lemma AppendedOnce(m: Mutator, namespace: string, request: Pod, sa: ServiceAccount, proxied: Pod, expiration: int,
                     added: seq<Container>)
    requires ServiceAccountOf(m, namespace, request) == Found(sa)
    requires WithProxy(m, request.(namespace := namespace)) == Some(proxied)
    requires TokenExpiration(proxied, sa) == Some(expiration)
    requires !HasContainer(added, PROXY_NAME) && !HasContainer(added, PROXY_INIT_NAME)
    ensures var inj, pod := PodInjection(m, proxied, sa), request.(namespace := namespace);
            Handled(m, namespace, request.(initContainers := request.initContainers + added))
            == Patched(Mutated(m, proxied, sa, expiration).(initContainers :=
                 MutateContainers(inj, InitFront(m, pod)) + MutateContainers(inj, added)
                     + MutateContainers(inj, InitPart(m, pod))))
  {
    var pod := request.(namespace := namespace);
    var inj := PodInjection(m, proxied, sa);
    WithProxyInitAppended(m, pod, proxied, added);
    MutateContainersConcat(inj, InitFront(m, pod) + added, InitPart(m, pod));
    MutateContainersConcat(inj, InitFront(m, pod), added);
    HandledFrom(m, namespace, request.(initContainers := request.initContainers + added), sa,
                proxied.(initContainers := InitFront(m, pod) + added + InitPart(m, pod)), expiration);
  }

  /** With appended init containers the two orders agree except for the place of azwi-proxy-init:
      proxyInit is that container if this call injected it, and empty if it was there before. */
  lemma InitReinvocationConverges(m: Mutator, namespace: string, request: Pod, result: Pod, added: seq<Container>)
      returns (front: seq<Container>, proxyInit: seq<Container>, back: seq<Container>)
    requires Handled(m, namespace, request) == Patched(result)
    requires !HasContainer(added, PROXY_NAME) && !HasContainer(added, PROXY_INIT_NAME)
    ensures Handled(m, namespace, result.(initContainers := result.initContainers + added))
         == Patched(result.(initContainers := front + proxyInit + back))
    ensures Handled(m, namespace, request.(initContainers := request.initContainers + added))
         == Patched(result.(initContainers := front + back + proxyInit))
    ensures |back| == |added|
    ensures |proxyInit| <= 1 && forall i :: 0 <= i < |proxyInit| ==> proxyInit[i].name == PROXY_INIT_NAME
    ensures proxyInit != [] <==>
              ShouldInjectProxySidecar(request) && !HasContainer(request.initContainers, PROXY_INIT_NAME)
  {
    var sa, proxied, expiration := HandledParts(m, namespace, request, result);
    var pod := request.(namespace := namespace);
    var inj := PodInjection(m, proxied, sa);
    front, back := MutateContainers(inj, InitFront(m, pod)), MutateContainers(inj, added);
    proxyInit := MutateContainers(inj, InitPart(m, pod));
    AppendedOnce(m, namespace, request, sa, proxied, expiration, added);
    WithProxyInitAppended(m, pod, proxied, added);
    MutateContainersConcat(inj, InitFront(m, pod), InitPart(m, pod));
    InjectableExactlyWhen(m, pod, proxied);
    AppendedInitTwice(m, namespace, request, result, added, inj);
  }

  lemma InjectableExactlyWhen(m: Mutator, pod: Pod, proxied: Pod)
    requires WithProxy(m, pod) == Some(proxied)
    ensures InitPart(m, pod) != [] <==>
              ShouldInjectProxySidecar(pod) && !HasContainer(pod.initContainers, PROXY_INIT_NAME)
  {
    WithProxyShape(m, pod);
  }

  lemma AppendedInitTwice(m: Mutator, namespace: string, request: Pod, result: Pod, added: seq<Container>,
                          inj: Injection)
    requires Handled(m, namespace, request) == Patched(result)
    requires ServiceAccountOf(m, namespace, result).Found?
    requires inj == PodInjection(m, result, ServiceAccountOf(m, namespace, result).sa)
    ensures Handled(m, namespace, result.(initContainers := result.initContainers + added))
         == Patched(result.(initContainers := result.initContainers + MutateContainers(inj, added)))
  {
    AppendedTwice(m, namespace, request, result, added, []);
    assert result.containers + MutateContainers(inj, []) == result.containers
        && result.containers + [] == result.containers;
  }
}
