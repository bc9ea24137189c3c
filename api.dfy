// The custom resources of api/v1alpha1 and the constraints their kubebuilder
// markers declare. The API server enforces those markers; here each one is a
// predicate, and the defaults the markers declare are functions.
//
// Fields marked optional are Option values: None is a field left out of the
// object. Required strings that are empty stand for themselves.
module Api {
  import opened Wrappers
  import opened Strings
  import opened Kube

  // ---------------------------------------------------------------------------
  // RuleSet (api/v1alpha1/ruleset_types.go)
  // ---------------------------------------------------------------------------

  datatype RuleSetSpec = RuleSetSpec(instance: string, rules: seq<ObjectReference>)

  datatype RuleSet = RuleSet(name: string, namespace: string, spec: RuleSetSpec, conditions: seq<Condition>)

  const DefaultInstance: string := "default"

  /** The instance the API server stores for a field given or left out. */
  function InstanceOrDefault(instance: Option<string>): (r: string)
    ensures instance.None? ==> r == "default"
    ensures instance.Some? ==> r == instance.value
  {
    if instance.Some? then instance.value else DefaultInstance
  }

  predicate ValidInstance(instance: string)
  {
    1 <= |instance| <= 253
  }

  /** Only core/v1 ConfigMaps, and only in the RuleSet's own namespace. */
  predicate ValidRuleSource(r: ObjectReference)
  {
    r.kind == "ConfigMap" && r.apiVersion == "v1" && r.namespace == ""
  }

  predicate ValidRuleSetSpec(s: RuleSetSpec)
  {
    ValidInstance(s.instance)
    && 1 <= |s.rules| <= 2048
    && forall i :: 0 <= i < |s.rules| ==> ValidRuleSource(s.rules[i])
  }

  predicate ValidRuleSet(rs: RuleSet)
  {
    ValidRuleSetSpec(rs.spec) && UniqueConditionTypes(rs.conditions)
  }

  /** A left-out instance is defaulted to a valid one. */
  lemma DefaultInstanceValid()
    ensures ValidInstance(InstanceOrDefault(None))
  {
  }

  // ---------------------------------------------------------------------------
  // Engine (api/v1alpha1/engine_types.go, engine_driver_types.go,
  // engine_driver_istio_types.go)
  // ---------------------------------------------------------------------------

  const FailurePolicyFail: string := "fail"
  const FailurePolicyAllow: string := "allow"

  predicate ValidFailurePolicy(p: string)
  {
    p == FailurePolicyFail || p == FailurePolicyAllow
  }

  /** The failure policy the API server stores for a field given or left out. */
  function FailurePolicyOrDefault(p: Option<string>): (r: string)
    ensures p.None? ==> r == "fail"
    ensures p.Some? ==> r == p.value
  {
    if p.Some? then p.value else FailurePolicyFail
  }

  datatype LabelSelector = LabelSelector(matchLabels: map<string, string>)

  datatype IstioConfig = IstioConfig(workloadSelector: LabelSelector, mode: string)

  datatype WasmConfig = WasmConfig(image: string)

  datatype RuleSetCacheServerConfig = RuleSetCacheServerConfig(pollIntervalSeconds: int)

  /** DriverConfig as it appears in an Engine object: each property present or not. */
  datatype DriverConfig = DriverConfig(
    driverType: Option<string>,
    mode: Option<string>,
    istio: Option<IstioConfig>,
    wasm: Option<WasmConfig>,
    ruleSetCacheServer: Option<RuleSetCacheServerConfig>)

  datatype EngineSpec = EngineSpec(ruleSet: ObjectReference, driver: DriverConfig, failurePolicy: Option<string>)

  datatype EngineStatus = EngineStatus(conditions: Option<seq<Condition>>, ownedResources: Option<seq<ObjectReference>>)

  datatype Engine = Engine(name: string, namespace: string, spec: EngineSpec, status: Option<EngineStatus>)

  const DriverTypeIstio: string := "istio"
  const DriverModeWasm: string := "wasm"
  const IstioModeGateway: string := "gateway"
  const OciScheme: string := "oci://"
  const DefaultPollIntervalSeconds: int := 15

  predicate ValidRuleSetReference(r: ObjectReference)
  {
    r.kind == "RuleSet" && r.apiVersion == "waf.k8s.coraza.io/v1alpha1" && r.namespace == "" && r.name != ""
  }

  function DriverPropertyCount(d: DriverConfig): (n: nat)
    ensures n <= 5
    ensures n == 0 <==> d == DriverConfig(None, None, None, None, None)
  {
    (if d.driverType.Some? then 1 else 0) + (if d.mode.Some? then 1 else 0)
    + (if d.istio.Some? then 1 else 0) + (if d.wasm.Some? then 1 else 0)
    + (if d.ruleSetCacheServer.Some? then 1 else 0)
  }

  predicate ValidWasmConfig(w: WasmConfig)
  {
    1 <= |w.image| <= 1024 && HasPrefix(w.image, OciScheme)
  }

  predicate ValidPollInterval(seconds: int)
  {
    1 <= seconds <= 3600
  }

  /** The poll interval the API server stores for a field given or left out. */
  function PollIntervalOrDefault(seconds: Option<int>): (r: int)
    ensures seconds.None? ==> r == 15
    ensures seconds.Some? ==> r == seconds.value
  {
    if seconds.Some? then seconds.value else DefaultPollIntervalSeconds
  }

  /** The markers of DriverConfig: type and mode are required (their JSON tags
      have no omitempty), each enum has its one supported value, and the two
      cross-field rules demand the wasm and istio sections they name. */
  predicate ValidDriverConfig(d: DriverConfig)
  {
    d.driverType.Some? && d.mode.Some?
    && DriverPropertyCount(d) >= 1
    && (d.driverType.Some? ==> d.driverType.value == DriverTypeIstio)
    && (d.mode.Some? ==> d.mode.value == DriverModeWasm)
    && (d.mode == Some(DriverModeWasm) ==> d.wasm.Some?)
    && (d.driverType == Some(DriverTypeIstio) ==> d.istio.Some?)
    && (d.istio.Some? ==> d.istio.value.mode == IstioModeGateway)
    && (d.wasm.Some? ==> ValidWasmConfig(d.wasm.value))
    && (d.ruleSetCacheServer.Some? ==> ValidPollInterval(d.ruleSetCacheServer.value.pollIntervalSeconds))
  }

  predicate ValidEngineSpec(s: EngineSpec)
  {
    ValidRuleSetReference(s.ruleSet)
    && ValidDriverConfig(s.driver)
    && (s.failurePolicy.Some? ==> ValidFailurePolicy(s.failurePolicy.value))
  }

  function StatusPropertyCount(s: EngineStatus): nat
  {
    (if s.conditions.Some? then 1 else 0) + (if s.ownedResources.Some? then 1 else 0)
  }

  predicate ValidEngineStatus(s: EngineStatus)
  {
    StatusPropertyCount(s) >= 1
    && (s.conditions.Some? ==> 1 <= |s.conditions.value| <= 8 && UniqueConditionTypes(s.conditions.value))
    && (s.ownedResources.Some? ==> 1 <= |s.ownedResources.value| <= 8)
  }

  predicate ValidEngine(e: Engine)
  {
    ValidEngineSpec(e.spec) && (e.status.Some? ==> ValidEngineStatus(e.status.value))
  }

  /** A valid driver always carries both halves the controller needs: a valid
      wasm image and an Istio configuration. */
  lemma ValidDriverHasIstioAndWasm(d: DriverConfig)
    requires ValidDriverConfig(d)
    ensures d.driverType == Some(DriverTypeIstio) && d.mode == Some(DriverModeWasm)
    ensures d.istio.Some? && d.wasm.Some?
    ensures |d.wasm.value.image| > |OciScheme| - 1 && d.wasm.value.image[..6] == "oci://"
  {
  }

  /** A left-out failure policy or poll interval is defaulted to a valid one. */
  lemma DefaultsValid()
    ensures ValidFailurePolicy(FailurePolicyOrDefault(None))
    ensures ValidPollInterval(PollIntervalOrDefault(None))
  {
  }
}
