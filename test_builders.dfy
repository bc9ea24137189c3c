// test/utils/resource_builders.go: typed RuleSet, ConfigMap and Engine
// objects for the controller tests, every option left at its zero value
// replaced by a fixed default. The Engine these builders write names an
// instance instead of a RuleSet reference, so it has a spec of its own here;
// its driver section is the API's DriverConfig with every part present.
module TestBuilders {
  import opened Wrappers
  import opened Kube
  import Api

  // ---------------------------------------------------------------------------
  // RuleSet and ConfigMap
  // ---------------------------------------------------------------------------

  /** A nil Rules slice is None; an empty, non-nil one is Some([]). */
  datatype RuleSetOptions = RuleSetOptions(name: string, namespace: string, instance: string, rules: Option<seq<ObjectReference>>)

  const DefaultRuleSetName: string := "test-ruleset"
  const DefaultNamespace: string := "default"
  const DefaultInstance: string := "test-instance"
  const DefaultRulesReference: ObjectReference := ObjectReference("ConfigMap", "v1", "test-rules", "")

  /** NewTestRuleSet: each empty option takes its default; nil rules become
      the single "test-rules" ConfigMap reference, a non-nil list (even an
      empty one) is kept; the status is empty. */
  function NewTestRuleSet(opts: RuleSetOptions): (r: Api.RuleSet)
    ensures r.name == (if opts.name != "" then opts.name else DefaultRuleSetName)
    ensures r.namespace == (if opts.namespace != "" then opts.namespace else DefaultNamespace)
    ensures r.spec.instance == (if opts.instance != "" then opts.instance else DefaultInstance)
    ensures opts.rules.None? ==> r.spec.rules == [DefaultRulesReference]
    ensures opts.rules.Some? ==> r.spec.rules == opts.rules.value
    ensures r.conditions == []
    ensures r.name != "" && r.namespace != "" && r.spec.instance != ""
  {
    var name := if opts.name == "" then DefaultRuleSetName else opts.name;
    var namespace := if opts.namespace == "" then DefaultNamespace else opts.namespace;
    var instance := if opts.instance == "" then DefaultInstance else opts.instance;
    var rules := if opts.rules.None? then [DefaultRulesReference] else opts.rules.value;
    Api.RuleSet(name, namespace, Api.RuleSetSpec(instance, rules), [])
  }

  /** The options a built RuleSet would be rebuilt from. */
  function RuleSetOptionsOf(rs: Api.RuleSet): RuleSetOptions
  {
    RuleSetOptions(rs.name, rs.namespace, rs.spec.instance, Some(rs.spec.rules))
  }

  /** Options that are all given come back out of the built object unchanged. */
  lemma RuleSetOptionsRoundTrip(opts: RuleSetOptions)
    requires opts.name != "" && opts.namespace != "" && opts.instance != "" && opts.rules.Some?
    ensures RuleSetOptionsOf(NewTestRuleSet(opts)) == opts
  {
  }

  /** Building again from a built RuleSet changes nothing: defaults are
      applied once. */
  lemma NewTestRuleSetIdempotent(opts: RuleSetOptions)
    ensures NewTestRuleSet(RuleSetOptionsOf(NewTestRuleSet(opts))) == NewTestRuleSet(opts)
  {
  }

  /** NewTestConfigMap: the rules under exactly the one key "rules". */
  function NewTestConfigMap(name: string, namespace: string, rules: string): (r: ConfigMap)
    ensures r.name == name && r.namespace == namespace
    ensures r.data.Keys == {"rules"} && r.data["rules"] == rules
  {
    ConfigMap(name, namespace, map["rules" := rules])
  }

  // ---------------------------------------------------------------------------
  // Engine
  // ---------------------------------------------------------------------------

  /** A nil WorkloadLabels map is None; the poll interval is an int32. */
  datatype EngineOptions = EngineOptions(
    name: string,
    namespace: string,
    instance: string,
    driverType: string,
    driverMode: string,
    wasmImage: string,
    pollIntervalSeconds: int,
    workloadLabels: Option<map<string, string>>,
    istioMode: string,
    failurePolicy: string)

  datatype TestEngineSpec = TestEngineSpec(instance: string, driver: Api.DriverConfig, failurePolicy: string)

  datatype TestEngine = TestEngine(name: string, namespace: string, spec: TestEngineSpec)

  const DefaultEngineName: string := "test-engine"
  const DefaultWasmImage: string := Api.OciScheme + "fake-registry.io/" + "fake-image:latest"
  const DefaultPollInterval: int := 5
  const DefaultWorkloadLabels: map<string, string> := map["app" := "gateway"]

  /** The value, or the default when the value is empty. */
  function OrDefault(s: string, d: string): (r: string)
    ensures s != "" ==> r == s
    ensures s == "" ==> r == d
  {
    if s == "" then d else s
  }

  /** The options with every zero value replaced by its default. */
  function EngineDefaults(opts: EngineOptions): (r: EngineOptions)
    ensures r.name == (if opts.name != "" then opts.name else DefaultEngineName)
    ensures r.namespace == (if opts.namespace != "" then opts.namespace else DefaultNamespace)
    ensures r.instance == (if opts.instance != "" then opts.instance else DefaultInstance)
    ensures r.driverType == (if opts.driverType != "" then opts.driverType else Api.DriverTypeIstio)
    ensures r.driverMode == (if opts.driverMode != "" then opts.driverMode else Api.DriverModeWasm)
    ensures r.wasmImage == (if opts.wasmImage != "" then opts.wasmImage else DefaultWasmImage)
    ensures r.pollIntervalSeconds == (if opts.pollIntervalSeconds != 0 then opts.pollIntervalSeconds else DefaultPollInterval)
    ensures r.workloadLabels == Some(if opts.workloadLabels.Some? then opts.workloadLabels.value else DefaultWorkloadLabels)
    ensures r.istioMode == (if opts.istioMode != "" then opts.istioMode else Api.IstioModeGateway)
    ensures r.failurePolicy == (if opts.failurePolicy != "" then opts.failurePolicy else Api.FailurePolicyFail)
  {
    var poll := if opts.pollIntervalSeconds == 0 then DefaultPollInterval else opts.pollIntervalSeconds;
    var labels := if opts.workloadLabels.None? then DefaultWorkloadLabels else opts.workloadLabels.value;
    EngineOptions(
      OrDefault(opts.name, DefaultEngineName),
      OrDefault(opts.namespace, DefaultNamespace),
      OrDefault(opts.instance, DefaultInstance),
      OrDefault(opts.driverType, Api.DriverTypeIstio),
      OrDefault(opts.driverMode, Api.DriverModeWasm),
      OrDefault(opts.wasmImage, DefaultWasmImage),
      poll,
      Some(labels),
      OrDefault(opts.istioMode, Api.IstioModeGateway),
      OrDefault(opts.failurePolicy, Api.FailurePolicyFail))
  }

  /** Options that need no default. */
  predicate Complete(opts: EngineOptions)
  {
    opts.name != "" && opts.namespace != "" && opts.instance != "" && opts.driverType != ""
    && opts.driverMode != "" && opts.wasmImage != "" && opts.pollIntervalSeconds != 0
    && opts.workloadLabels.Some? && opts.istioMode != "" && opts.failurePolicy != ""
  }

  /** Defaulting leaves options that are all given unchanged and always
      yields complete options. */
  lemma EngineDefaultsFixpoint(opts: EngineOptions)
    ensures Complete(EngineDefaults(opts))
    ensures Complete(opts) ==> EngineDefaults(opts) == opts
  {
    assert DefaultEngineName != "" && DefaultNamespace != "" && DefaultInstance != "";
    assert Api.DriverTypeIstio != "" && Api.DriverModeWasm != "" && DefaultWasmImage != "";
    assert Api.IstioModeGateway != "" && Api.FailurePolicyFail != "";
  }

  /** The Engine written from complete options: every driver part present. */
  function EngineFrom(o: EngineOptions): TestEngine
    requires o.workloadLabels.Some?
  {
    TestEngine(o.name, o.namespace,
      TestEngineSpec(o.instance,
        Api.DriverConfig(
          Some(o.driverType),
          Some(o.driverMode),
          Some(Api.IstioConfig(Api.LabelSelector(o.workloadLabels.value), o.istioMode)),
          Some(Api.WasmConfig(o.wasmImage)),
          Some(Api.RuleSetCacheServerConfig(o.pollIntervalSeconds))),
        o.failurePolicy))
  }

  /** The options a built Engine would be rebuilt from. */
  function EngineOptionsOf(e: TestEngine): (r: Option<EngineOptions>)
    ensures r.Some? <==> e.spec.driver.driverType.Some? && e.spec.driver.mode.Some? && e.spec.driver.istio.Some?
                         && e.spec.driver.wasm.Some? && e.spec.driver.ruleSetCacheServer.Some?
  {
    var d := e.spec.driver;
    if d.driverType.None? || d.mode.None? || d.istio.None? || d.wasm.None? || d.ruleSetCacheServer.None? then None
    else Some(EngineOptions(e.name, e.namespace, e.spec.instance, d.driverType.value, d.mode.value, d.wasm.value.image,
                            d.ruleSetCacheServer.value.pollIntervalSeconds,
                            Some(d.istio.value.workloadSelector.matchLabels), d.istio.value.mode, e.spec.failurePolicy))
  }

  /** NewTestEngine: the defaulted options, written into the Engine. */
  function NewTestEngine(opts: EngineOptions): (r: TestEngine)
    ensures EngineOptionsOf(r) == Some(EngineDefaults(opts))
  {
    var o := EngineDefaults(opts);
    var e := EngineFrom(o);
    assert EngineOptionsOf(e) == Some(o);
    e
  }

  /** Options that are all given appear unchanged in the built Engine. */
  lemma EngineOptionsKept(opts: EngineOptions)
    requires Complete(opts)
    ensures EngineOptionsOf(NewTestEngine(opts)) == Some(opts)
  {
    EngineDefaultsFixpoint(opts);
  }

  /** Each given scalar option lands in its place in the Engine, whatever the
      others are. */
  lemma EngineFieldsPlaced(opts: EngineOptions)
    ensures var e := NewTestEngine(opts);
            (opts.instance != "" ==> e.spec.instance == opts.instance)
            && (opts.wasmImage != "" ==> e.spec.driver.wasm == Some(Api.WasmConfig(opts.wasmImage)))
            && (opts.pollIntervalSeconds != 0 ==>
                  e.spec.driver.ruleSetCacheServer == Some(Api.RuleSetCacheServerConfig(opts.pollIntervalSeconds)))
            && (opts.workloadLabels.None? ==> e.spec.driver.istio.value.workloadSelector.matchLabels == DefaultWorkloadLabels)
            && (opts.failurePolicy == "" ==> e.spec.failurePolicy == "fail")
  {
    var e := NewTestEngine(opts);
    assert EngineOptionsOf(e) == Some(EngineDefaults(opts));
  }

  /** Rebuilding from a built Engine's options yields the same Engine. */
  lemma NewTestEngineIdempotent(opts: EngineOptions)
    ensures NewTestEngine(EngineOptionsOf(NewTestEngine(opts)).value) == NewTestEngine(opts)
  {
    EngineDefaultsFixpoint(opts);
    var o := EngineDefaults(opts);
    assert EngineOptionsOf(NewTestEngine(opts)).value == o;
    EngineDefaultsFixpoint(o);
    assert NewTestEngine(o) == EngineFrom(EngineDefaults(o));
  }
}
