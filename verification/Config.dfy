/** The webhook's configuration and its validation (pkg/config/config.go). */
module Config {
  import opened Common

  datatype Config = Config(
    tenantID: string,
    azureKubernetesTokenProxy: string,
    azureKubernetesSNIName: string,
    azureKubernetesCAData: string,
    azureKubernetesCAConfigMapName: string,
    azureKubernetesCACTBSignerName: string,
    azureKubernetesCACTBLabelSelector: Option<string>)

  datatype ConfigError = TenantIDRequired | CASourcesExclusive | SelectorNeedsSigner

  /** No two of the three CA sources are set. */
  predicate AtMostOneCASource(c: Config) {
    && (c.azureKubernetesCAData == "" || c.azureKubernetesCAConfigMapName == "")
    && (c.azureKubernetesCAData == "" || c.azureKubernetesCACTBSignerName == "")
    && (c.azureKubernetesCAConfigMapName == "" || c.azureKubernetesCACTBSignerName == "")
  }

  predicate Valid(c: Config) {
    && c.tenantID != ""
    && AtMostOneCASource(c)
    && (c.azureKubernetesCACTBLabelSelector.Some? ==> c.azureKubernetesCACTBSignerName != "")
  }

  function CountSet(values: seq<string>): nat {
    if values == [] then 0
    else CountSet(values[..|values| - 1]) + if values[|values| - 1] == "" then 0 else 1
  }

  method ValidateConfig(c: Config) returns (err: Option<ConfigError>)
    ensures err == None <==> Valid(c)
    ensures err == Some(TenantIDRequired) <==> c.tenantID == ""
    ensures err == Some(CASourcesExclusive) <==> c.tenantID != "" && !AtMostOneCASource(c)
  {
    if |c.tenantID| == 0 {
      return Some(TenantIDRequired);
    }
    var values := [c.azureKubernetesCAData, c.azureKubernetesCAConfigMapName, c.azureKubernetesCACTBSignerName];
    var setCount := 0;
    for i := 0 to |values|
      invariant setCount == CountSet(values[..i])
    {
      assert values[..i + 1][..i] == values[..i];
      if |values[i]| > 0 {
        setCount := setCount + 1;
      }
    }
    CountThree(values);
    if setCount > 1 {
      return Some(CASourcesExclusive);
    }
    if c.azureKubernetesCACTBLabelSelector.Some? && |c.azureKubernetesCACTBSignerName| == 0 {
      return Some(SelectorNeedsSigner);
    }
    return None;
  }

  lemma CountThree(values: seq<string>)
    requires |values| == 3
    ensures CountSet(values[..3]) ==
            (if values[0] == "" then 0 else 1) + (if values[1] == "" then 0 else 1) + (if values[2] == "" then 0 else 1)
  {
    assert values[..3][..2] == values[..2] && values[..2][..1] == values[..1];
    assert CountSet(values[..1]) == if values[0] == "" then 0 else 1;
    assert CountSet(values[..2]) == CountSet(values[..1]) + if values[1] == "" then 0 else 1;
  }
}
