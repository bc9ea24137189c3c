// test/framework/resources.go: the unstructured Gateway, RuleSet and Engine
// objects the integration tests create, the defaults an Engine gets, the
// one-line blocking rule the tests install, and the scenario methods that
// create and update those objects. The API server's answers are parameters;
// each request is recorded in the scenario's call trace.
module TestResources {
  import opened Wrappers
  import opened Strings
  import opened Values
  import opened TestFramework
  import opened TestScenario
  import CrsGenerator

  const EngineResource: string := "engines"
  const RuleSetResource: string := "rulesets"
  const GatewayResource: string := "gateways"
  const WasmPluginResource: string := "wasmplugins"
  const ConfigMapResource: string := "configmaps"

  const FallbackWasmImage: string :=
    "oci://ghcr.io/networking-incubator/coraza-proxy-wasm:179ea90b2617f557f805fe672daf880c14c6b8b7"

  /** defaultWasmImage: CORAZA_WASM_IMAGE when it is set and non-empty. */
  function DefaultWasmImage(imageEnv: string): (r: string)
    ensures r != ""
    ensures imageEnv != "" ==> r == imageEnv
    ensures imageEnv == "" ==> r == FallbackWasmImage
  {
    if imageEnv != "" then imageEnv else FallbackWasmImage
  }

  // ---------------------------------------------------------------------------
  // SimpleBlockRule
  // ---------------------------------------------------------------------------

  const RuleTargets: string := " ARGS|" + "REQUEST_URI|" + "REQUEST_HEADERS " + "\"@contains "
  const RuleHead: string := "SecRule" + RuleTargets
  const RuleQuote: string := "\" \""
  const RuleIdKey: string := "id:"
  const RuleActions: string := ",phase:2,deny," + "status:403,msg:'"
  const RuleEnd: string := " blocked'\""

  /** A rule denying with 403 every request whose arguments, URI or headers
      contain target. */
  function SimpleBlockRule(id: int, target: string): string
  {
    RuleHead + target + RuleQuote + RuleIdKey + IntToString(id) + RuleActions + target + RuleEnd
  }

  predicate NoColon(s: string)
  {
    ':' !in s
  }

  lemma RulePieces()
    ensures NoColon(RuleHead) && NoColon(RuleQuote)
    ensures |RuleTargets| > 0 && RuleTargets[0] == ' '
    ensures RuleIdKey == "id:" && |RuleActions| > 0 && RuleActions[0] == ','
    ensures |RuleEnd| > 0 && RuleEnd[|RuleEnd| - 1] == '"'
  {
  }

  /** The leftmost "id:"+digit is at p when no colon comes before it. */
  lemma FirstIdAt(text: string, p: nat)
    requires CrsGenerator.IdAt(text, p) && NoColon(text[..p])
    ensures CrsGenerator.FindId(text, 0) == Some(p)
  {
    forall k | 0 <= k < p ensures !CrsGenerator.IdAt(text, k) {
      if k + 2 < p {
        assert text[..p][k + 2] == text[k + 2];
      }
    }
    CrsGenerator.FindIdFirst(text, 0);
  }

  /** The digit run starting at i ends where the digits given end. */
  lemma DigitRunEnd(text: string, i: nat, digits: string)
    requires i + |digits| < |text| && text[i..i + |digits|] == digits
    requires AllDigits(digits) && !IsDigit(text[i + |digits|])
    ensures CrsGenerator.DigitsEnd(text, i) == i + |digits|
  {
    var end := CrsGenerator.DigitsEnd(text, i);
    forall k | i <= k < i + |digits| ensures IsDigit(text[k]) {
      assert text[k] == text[i..i + |digits|][k - i];
    }
  }

  /** The CRS generator's extract_rule_id reads back the id of a block rule,
      so long as the target has no colon that could start an earlier
      "id:" match. */
  lemma SimpleBlockRuleId(id: nat, target: string)
    requires NoColon(target)
    ensures CrsGenerator.ExtractRuleId(SimpleBlockRule(id, target)) == NatToString(id)
  {
    RulePieces();
    var head := RuleHead + target + RuleQuote;
    var digits := NatToString(id);
    var tail := RuleActions + target + RuleEnd;
    var text := head + RuleIdKey + digits + tail;
    assert SimpleBlockRule(id, target) == text;
    var p := |head|;
    assert text[..p] == head;
    assert NoColon(head);
    assert text[p..p + 3] == RuleIdKey;
    assert text[p + 3] == digits[0];
    FirstIdAt(text, p);
    assert text[p + 3..p + 3 + |digits|] == digits;
    assert text[p + 3 + |digits|] == tail[0];
    DigitRunEnd(text, p + 3, digits);
  }

  /** A block rule opens a SecRule directive block on its own line: the CRS
      generator's rule splitting starts a block at it and does not continue
      it onto the next line. */
  lemma SimpleBlockRuleIsDirective(id: int, target: string)
    ensures CrsGenerator.IsDirectiveLine(SimpleBlockRule(id, target))
    ensures !CrsGenerator.Continues(SimpleBlockRule(id, target))
  {
    var text := SimpleBlockRule(id, target);
    assert |RuleHead| > 8 && RuleHead[..7] == "SecRule" && RuleHead[7] == ' ' by {
      RulePieces();
      assert RuleHead[7] == RuleTargets[0];
    }
    assert text[..7] == "SecRule" && text[7] == ' ' by {
      assert forall k :: 0 <= k < |RuleHead| ==> text[k] == RuleHead[k];
    }
    assert text[|text| - 1] == '"' by {
      RulePieces();
      assert text[|text| - 1] == RuleEnd[|RuleEnd| - 1];
    }
    SecRuleLine(text);
  }

  /** "SecRule", then a space, and a closing quote at the end of the line. */
  lemma SecRuleLine(text: string)
    requires |text| > 8 && text[..7] == "SecRule" && text[7] == ' ' && text[|text| - 1] == '"'
    ensures CrsGenerator.IsDirectiveLine(text) && !CrsGenerator.Continues(text)
  {
    assert RStrip(text) == text;
    assert !HasPrefix(text, "#") by {
      assert text[0] == text[..7][0] == 'S';
    }
    assert CrsGenerator.StartsWord(text, "SecRule");
  }

  // ---------------------------------------------------------------------------
  // BuildGateway
  // ---------------------------------------------------------------------------

  function Metadata(namespace: string, name: string): map<string, Value>
  {
    map["name" := Str(name), "namespace" := Str(namespace)]
  }

  const HttpListener: Value :=
    Object(map[
      "name" := Str("http"),
      "port" := Int(80),
      "protocol" := Str("HTTP"),
      "allowedRoutes" := Object(map["namespaces" := Object(map["from" := Str("All")])])])

  /** An Istio Gateway with one HTTP listener on port 80, exposed as a
      ClusterIP service. */
  function BuildGateway(namespace: string, name: string): Value
  {
    Object(map[
      "apiVersion" := Str("gateway.networking.k8s.io/v1"),
      "kind" := Str("Gateway"),
      "metadata" := Object(Metadata(namespace, name)
        ["labels" := Object(map["istio.io/rev" := Str("coraza")])]
        ["annotations" := Object(map["networking.istio.io/service-type" := Str("ClusterIP")])]),
      "spec" := Object(map[
        "gatewayClassName" := Str("istio"),
        "listeners" := List([HttpListener])])])
  }

  /** Whatever the name, the Gateway has exactly one listener, "http" on port
      80, class "istio" and the ClusterIP service type. */
  lemma BuildGatewayShape(namespace: string, name: string)
    ensures var g := BuildGateway(namespace, name);
            At(g, ["spec", "listeners"]) == Some(List([HttpListener]))
            && At(HttpListener, ["name"]) == Some(Str("http"))
            && At(HttpListener, ["port"]) == Some(Int(80))
            && At(g, ["spec", "gatewayClassName"]) == Some(Str("istio"))
            && At(g, ["metadata", "annotations", "networking.istio.io/service-type"]) == Some(Str("ClusterIP"))
            && At(g, ["metadata", "name"]) == Some(Str(name))
            && At(g, ["metadata", "namespace"]) == Some(Str(namespace))
  {
    var g := BuildGateway(namespace, name);
    assert ["spec", "listeners"][1..] == ["listeners"];
    assert ["spec", "gatewayClassName"][1..] == ["gatewayClassName"];
    assert ["metadata", "annotations", "networking.istio.io/service-type"][1..] == ["annotations", "networking.istio.io/service-type"];
    assert ["annotations", "networking.istio.io/service-type"][1..] == ["networking.istio.io/service-type"];
    assert ["metadata", "name"][1..] == ["name"];
    assert ["metadata", "namespace"][1..] == ["namespace"];
  }

  // ---------------------------------------------------------------------------
  // BuildRuleSet
  // ---------------------------------------------------------------------------

  /** One {"name": n} reference per ConfigMap name, in order. */
  function RuleRefs(names: seq<string>): (r: seq<Value>)
    ensures |r| == |names|
    ensures forall i :: 0 <= i < |names| ==> r[i] == Object(map["name" := Str(names[i])])
  {
    seq(|names|, i requires 0 <= i < |names| => Object(map["name" := Str(names[i])]))
  }

  /** The loop filling the rule list. */
  method BuildRuleList(names: seq<string>) returns (rules: seq<Value>)
    ensures rules == RuleRefs(names)
  {
    rules := [];
    var i := 0;
    while i < |names|
      invariant 0 <= i <= |names|
      invariant rules == RuleRefs(names[..i])
    {
      rules := rules + [Object(map["name" := Str(names[i])])];
      i := i + 1;
    }
    assert names[..i] == names;
  }

  function RuleSetObject(namespace: string, name: string, names: seq<string>): Value
  {
    Object(map[
      "apiVersion" := Str("waf.k8s.coraza.io/v1alpha1"),
      "kind" := Str("RuleSet"),
      "metadata" := Object(Metadata(namespace, name)),
      "spec" := Object(map["rules" := List(RuleRefs(names))])])
  }

  method BuildRuleSet(namespace: string, name: string, configMapNames: seq<string>) returns (obj: Value)
    ensures obj == RuleSetObject(namespace, name, configMapNames)
  {
    var rules := BuildRuleList(configMapNames);
    obj := Object(map[
      "apiVersion" := Str("waf.k8s.coraza.io/v1alpha1"),
      "kind" := Str("RuleSet"),
      "metadata" := Object(Metadata(namespace, name)),
      "spec" := Object(map["rules" := List(rules)])]);
  }

  /** spec.rules names the ConfigMaps given, one each, in the same order. */
  lemma RuleSetRulesInOrder(namespace: string, name: string, names: seq<string>)
    ensures var rules := At(RuleSetObject(namespace, name, names), ["spec", "rules"]);
            rules.Some? && rules.value.List? && |rules.value.items| == |names|
            && forall i :: 0 <= i < |names| ==> At(rules.value.items[i], ["name"]) == Some(Str(names[i]))
  {
    assert ["spec", "rules"][1..] == ["rules"];
    var refs := RuleRefs(names);
    forall i | 0 <= i < |names| ensures At(refs[i], ["name"]) == Some(Str(names[i])) {
      assert refs[i] == Object(map["name" := Str(names[i])]);
    }
  }

  // ---------------------------------------------------------------------------
  // BuildEngine
  // ---------------------------------------------------------------------------

  datatype EngineOpts = EngineOpts(
    ruleSetName: string,
    gatewayName: string,
    workloadLabels: Option<map<string, string>>,
    wasmImage: string,
    failurePolicy: string,
    pollInterval: int)

  const GatewayNameLabel: string := "gateway.networking.k8s.io/gateway-name"

  /** The workload selector's labels: WorkloadLabels when given (even empty),
      else the gateway-name label when a gateway is named, else app=gateway. */
  function WorkloadLabels(opts: EngineOpts): (r: map<string, string>)
    ensures opts.workloadLabels.Some? ==> r == opts.workloadLabels.value
    ensures opts.workloadLabels.None? && opts.gatewayName != "" ==> r == map[GatewayNameLabel := opts.gatewayName]
    ensures opts.workloadLabels.None? && opts.gatewayName == "" ==> r == map["app" := "gateway"]
  {
    var fromGateway :=
      if opts.workloadLabels.None? && opts.gatewayName != "" then Some(map[GatewayNameLabel := opts.gatewayName])
      else opts.workloadLabels;
    if fromGateway.None? then map["app" := "gateway"] else fromGateway.value
  }

  /** The options after BuildEngine fills the empty ones. */
  function WithDefaults(opts: EngineOpts, imageEnv: string): (r: EngineOpts)
    ensures r.wasmImage == (if opts.wasmImage != "" then opts.wasmImage else DefaultWasmImage(imageEnv))
    ensures r.failurePolicy == (if opts.failurePolicy != "" then opts.failurePolicy else "fail")
    ensures r.pollInterval == (if opts.pollInterval != 0 then opts.pollInterval else 5)
    ensures r.ruleSetName == opts.ruleSetName && r.gatewayName == opts.gatewayName
    ensures r.workloadLabels == opts.workloadLabels
  {
    var o1 := if opts.wasmImage == "" then opts.(wasmImage := DefaultWasmImage(imageEnv)) else opts;
    var o2 := if o1.failurePolicy == "" then o1.(failurePolicy := "fail") else o1;
    if o2.pollInterval == 0 then o2.(pollInterval := 5) else o2
  }

  /** spec.driver.istio.wasm of the Engine, for options already defaulted. */
  function WasmObject(o: EngineOpts, labels: Value): Value
  {
    Object(map[
      "image" := Str(o.wasmImage),
      "mode" := Str("gateway"),
      "workloadSelector" := Object(map["matchLabels" := labels]),
      "ruleSetCacheServer" := Object(map["pollIntervalSeconds" := Int(o.pollInterval)])])
  }

  function EngineSpecObject(o: EngineOpts, wasm: Value): Value
  {
    Object(map[
      "ruleSet" := Object(map["name" := Str(o.ruleSetName)]),
      "failurePolicy" := Str(o.failurePolicy),
      "driver" := Object(map["istio" := Object(map["wasm" := wasm])])])
  }

  function EngineObject(namespace: string, name: string, opts: EngineOpts, imageEnv: string): Value
  {
    var o := WithDefaults(opts, imageEnv);
    Object(map[
      "apiVersion" := Str("waf.k8s.coraza.io/v1alpha1"),
      "kind" := Str("Engine"),
      "metadata" := Object(Metadata(namespace, name)),
      "spec" := EngineSpecObject(o, WasmObject(o, StringMap(WorkloadLabels(o))))])
  }

  /** The loop converting map[string]string to map[string]interface{}. */
  method CopyLabels(labels: map<string, string>) returns (r: map<string, Value>)
    ensures Object(r) == StringMap(labels)
  {
    r := map[];
    var left := labels.Keys;
    while left != {}
      invariant left <= labels.Keys
      invariant r.Keys == labels.Keys - left
      invariant forall k :: k in r ==> r[k] == Str(labels[k])
      decreases left
    {
      var k :| k in left;
      r := r[k := Str(labels[k])];
      left := left - {k};
    }
  }

  method BuildEngine(namespace: string, name: string, opts: EngineOpts, imageEnv: string) returns (obj: Value)
    ensures obj == EngineObject(namespace, name, opts, imageEnv)
  {
    var o := opts;
    if o.wasmImage == "" {
      o := o.(wasmImage := DefaultWasmImage(imageEnv));
    }
    if o.failurePolicy == "" {
      o := o.(failurePolicy := "fail");
    }
    if o.pollInterval == 0 {
      o := o.(pollInterval := 5);
    }
    var workload := o.workloadLabels;
    if workload.None? && o.gatewayName != "" {
      workload := Some(map[GatewayNameLabel := o.gatewayName]);
    }
    if workload.None? {
      workload := Some(map["app" := "gateway"]);
    }
    var labels := CopyLabels(workload.value);
    var wasm := Object(map[
      "image" := Str(o.wasmImage),
      "mode" := Str("gateway"),
      "workloadSelector" := Object(map["matchLabels" := Object(labels)]),
      "ruleSetCacheServer" := Object(map["pollIntervalSeconds" := Int(o.pollInterval)])]);
    var spec := Object(map[
      "ruleSet" := Object(map["name" := Str(o.ruleSetName)]),
      "failurePolicy" := Str(o.failurePolicy),
      "driver" := Object(map["istio" := Object(map["wasm" := wasm])])]);
    assert o == WithDefaults(opts, imageEnv);
    assert wasm == WasmObject(o, StringMap(WorkloadLabels(o)));
    obj := Object(map[
      "apiVersion" := Str("waf.k8s.coraza.io/v1alpha1"),
      "kind" := Str("Engine"),
      "metadata" := Object(Metadata(namespace, name)),
      "spec" := spec]);
  }

  const WasmPath: seq<string> := ["spec", "driver", "istio", "wasm"]

  /** The wasm object sits at spec.driver.istio.wasm. */
  lemma EngineWasmAt(namespace: string, name: string, opts: EngineOpts, imageEnv: string)
    ensures var o := WithDefaults(opts, imageEnv);
            At(EngineObject(namespace, name, opts, imageEnv), WasmPath)
            == Some(WasmObject(o, StringMap(WorkloadLabels(o))))
  {
    var o := WithDefaults(opts, imageEnv);
    var wasm := WasmObject(o, StringMap(WorkloadLabels(o)));
    var spec := EngineSpecObject(o, wasm);
    assert WasmPath[1..] == ["driver", "istio", "wasm"];
    assert At(EngineObject(namespace, name, opts, imageEnv), WasmPath) == At(spec, ["driver", "istio", "wasm"]);
    assert ["driver", "istio", "wasm"][1..] == ["istio", "wasm"];
    assert ["istio", "wasm"][1..] == ["wasm"];
    assert At(spec, ["driver", "istio", "wasm"]) == At(Object(map["wasm" := wasm]), ["wasm"]);
  }

  /** The fields of the wasm object. */
  lemma WasmFields(o: EngineOpts, labels: Value)
    ensures var w := WasmObject(o, labels);
            At(w, ["image"]) == Some(Str(o.wasmImage))
            && At(w, ["mode"]) == Some(Str("gateway"))
            && At(w, ["workloadSelector", "matchLabels"]) == Some(labels)
            && At(w, ["ruleSetCacheServer", "pollIntervalSeconds"]) == Some(Int(o.pollInterval))
  {
    assert ["workloadSelector", "matchLabels"][1..] == ["matchLabels"];
    assert ["ruleSetCacheServer", "pollIntervalSeconds"][1..] == ["pollIntervalSeconds"];
  }

  /** The Engine read back: image, failure policy and poll interval are the
      defaulted options, the mode is always "gateway", the labels follow the
      precedence of WorkloadLabels, and the ruleSet reference carries only
      the name. */
  lemma EngineFields(namespace: string, name: string, opts: EngineOpts, imageEnv: string)
    ensures var e := EngineObject(namespace, name, opts, imageEnv);
            var o := WithDefaults(opts, imageEnv);
            At(e, WasmPath + ["image"]) == Some(Str(o.wasmImage))
            && At(e, WasmPath + ["mode"]) == Some(Str("gateway"))
            && At(e, WasmPath + ["workloadSelector", "matchLabels"]) == Some(StringMap(WorkloadLabels(opts)))
            && At(e, WasmPath + ["ruleSetCacheServer", "pollIntervalSeconds"]) == Some(Int(o.pollInterval))
            && At(e, ["spec", "failurePolicy"]) == Some(Str(o.failurePolicy))
            && At(e, ["spec", "ruleSet"]) == Some(Object(map["name" := Str(opts.ruleSetName)]))
  {
    EngineWasmFields(namespace, name, opts, imageEnv);
    EngineSpecFields(namespace, name, opts, imageEnv);
  }

  lemma EngineWasmFields(namespace: string, name: string, opts: EngineOpts, imageEnv: string)
    ensures var e := EngineObject(namespace, name, opts, imageEnv);
            var o := WithDefaults(opts, imageEnv);
            At(e, WasmPath + ["image"]) == Some(Str(o.wasmImage))
            && At(e, WasmPath + ["mode"]) == Some(Str("gateway"))
            && At(e, WasmPath + ["workloadSelector", "matchLabels"]) == Some(StringMap(WorkloadLabels(opts)))
            && At(e, WasmPath + ["ruleSetCacheServer", "pollIntervalSeconds"]) == Some(Int(o.pollInterval))
  {
    var e := EngineObject(namespace, name, opts, imageEnv);
    var o := WithDefaults(opts, imageEnv);
    var labels := StringMap(WorkloadLabels(o));
    assert WorkloadLabels(o) == WorkloadLabels(opts);
    EngineWasmAt(namespace, name, opts, imageEnv);
    WasmFields(o, labels);
    AtAppend(e, WasmPath, ["image"]);
    AtAppend(e, WasmPath, ["mode"]);
    AtAppend(e, WasmPath, ["workloadSelector", "matchLabels"]);
    AtAppend(e, WasmPath, ["ruleSetCacheServer", "pollIntervalSeconds"]);
  }

  lemma EngineSpecFields(namespace: string, name: string, opts: EngineOpts, imageEnv: string)
    ensures var e := EngineObject(namespace, name, opts, imageEnv);
            var o := WithDefaults(opts, imageEnv);
            At(e, ["spec", "failurePolicy"]) == Some(Str(o.failurePolicy))
            && At(e, ["spec", "ruleSet"]) == Some(Object(map["name" := Str(opts.ruleSetName)]))
  {
    assert ["spec", "failurePolicy"][1..] == ["failurePolicy"];
    assert ["spec", "ruleSet"][1..] == ["ruleSet"];
  }

  /** Explicit options are never overridden, whatever the environment. */
  lemma ExplicitOptionsKept(opts: EngineOpts, imageEnv: string)
    requires opts.wasmImage != "" && opts.failurePolicy != "" && opts.pollInterval != 0
    ensures WithDefaults(opts, imageEnv) == opts
  {
  }

  /** Filling defaults twice changes nothing more. */
  lemma WithDefaultsIdempotent(opts: EngineOpts, imageEnv: string)
    ensures WithDefaults(WithDefaults(opts, imageEnv), imageEnv) == WithDefaults(opts, imageEnv)
  {
  }

  // ---------------------------------------------------------------------------
  // Scenario methods: creating and updating objects
  // ---------------------------------------------------------------------------

  function ConfigMapObject(namespace: string, name: string, rules: string): Value
  {
    Object(map["metadata" := Object(Metadata(namespace, name)), "data" := Object(map["rules" := Str(rules)])])
  }

  /** CreateConfigMap: a ConfigMap whose data is exactly {"rules": rules};
      its deletion is registered once the create succeeded. */
  method CreateConfigMap(s: Scenario, namespace: string, name: string, rules: string, createError: Option<string>)
    modifies s
    ensures s.calls == old(s.calls) + [Create(ConfigMapResource, namespace, ConfigMapObject(namespace, name, rules))]
    ensures createError.Some? ==> s.failed && s.cleanups == old(s.cleanups)
    ensures createError.None? ==>
      s.failed == old(s.failed)
      && s.cleanups == old(s.cleanups) + [CleanupFn(DeleteObject(ConfigMapResource, namespace, name), [])]
    ensures s.namespaces == old(s.namespaces) && s.effects == old(s.effects)
  {
    s.calls := s.calls + [Create(ConfigMapResource, namespace, ConfigMapObject(namespace, name, rules))];
    if createError.Some? {
      s.failed := true;
      return;
    }
    s.OnCleanup(CleanupFn(DeleteObject(ConfigMapResource, namespace, name), []));
  }

  method CreateGateway(s: Scenario, namespace: string, name: string, createError: Option<string>)
    modifies s
    ensures s.calls == old(s.calls) + [Create(GatewayResource, namespace, BuildGateway(namespace, name))]
    ensures createError.Some? ==> s.failed && s.cleanups == old(s.cleanups)
    ensures createError.None? ==>
      s.failed == old(s.failed)
      && s.cleanups == old(s.cleanups) + [CleanupFn(DeleteObject(GatewayResource, namespace, name), [])]
    ensures s.namespaces == old(s.namespaces) && s.effects == old(s.effects)
  {
    s.calls := s.calls + [Create(GatewayResource, namespace, BuildGateway(namespace, name))];
    if createError.Some? {
      s.failed := true;
      return;
    }
    s.OnCleanup(CleanupFn(DeleteObject(GatewayResource, namespace, name), []));
  }

  /** TryCreateRuleSet: the create request, and its error handed back; no
      cleanup is registered. */
  method TryCreateRuleSet(s: Scenario, namespace: string, name: string, names: seq<string>, createError: Option<string>)
    returns (err: Option<string>)
    modifies s
    ensures err == createError
    ensures s.calls == old(s.calls) + [Create(RuleSetResource, namespace, RuleSetObject(namespace, name, names))]
    ensures s.cleanups == old(s.cleanups) && s.failed == old(s.failed)
    ensures s.namespaces == old(s.namespaces) && s.effects == old(s.effects)
  {
    var obj := BuildRuleSet(namespace, name, names);
    s.calls := s.calls + [Create(RuleSetResource, namespace, obj)];
    err := createError;
  }

  method CreateRuleSet(s: Scenario, namespace: string, name: string, names: seq<string>, createError: Option<string>)
    modifies s
    ensures s.calls == old(s.calls) + [Create(RuleSetResource, namespace, RuleSetObject(namespace, name, names))]
    ensures createError.Some? ==> s.failed && s.cleanups == old(s.cleanups)
    ensures createError.None? ==>
      s.failed == old(s.failed)
      && s.cleanups == old(s.cleanups) + [CleanupFn(DeleteObject(RuleSetResource, namespace, name), [])]
    ensures s.namespaces == old(s.namespaces) && s.effects == old(s.effects)
  {
    var err := TryCreateRuleSet(s, namespace, name, names, createError);
    if err.Some? {
      s.failed := true;
      return;
    }
    s.OnCleanup(CleanupFn(DeleteObject(RuleSetResource, namespace, name), []));
  }

  method TryCreateEngine(s: Scenario, namespace: string, name: string, opts: EngineOpts, imageEnv: string,
                         createError: Option<string>)
    returns (err: Option<string>)
    modifies s
    ensures err == createError
    ensures s.calls == old(s.calls) + [Create(EngineResource, namespace, EngineObject(namespace, name, opts, imageEnv))]
    ensures s.cleanups == old(s.cleanups) && s.failed == old(s.failed)
    ensures s.namespaces == old(s.namespaces) && s.effects == old(s.effects)
  {
    var obj := BuildEngine(namespace, name, opts, imageEnv);
    s.calls := s.calls + [Create(EngineResource, namespace, obj)];
    err := createError;
  }

  method CreateEngine(s: Scenario, namespace: string, name: string, opts: EngineOpts, imageEnv: string,
                      createError: Option<string>)
    modifies s
    ensures s.calls == old(s.calls) + [Create(EngineResource, namespace, EngineObject(namespace, name, opts, imageEnv))]
    ensures createError.Some? ==> s.failed && s.cleanups == old(s.cleanups)
    ensures createError.None? ==>
      s.failed == old(s.failed)
      && s.cleanups == old(s.cleanups) + [CleanupFn(DeleteObject(EngineResource, namespace, name), [])]
    ensures s.namespaces == old(s.namespaces) && s.effects == old(s.effects)
  {
    var err := TryCreateEngine(s, namespace, name, opts, imageEnv, createError);
    if err.Some? {
      s.failed := true;
      return;
    }
    s.OnCleanup(CleanupFn(DeleteObject(EngineResource, namespace, name), []));
  }

  /** unstructured.SetNestedSlice(obj, rules, "spec", "rules"): a missing
      spec is created; a spec that is not a map is an error. */
  function SetSpecRules(obj: map<string, Value>, rules: seq<Value>): (r: Result<map<string, Value>>)
    ensures r.Err? <==> "spec" in obj && !obj["spec"].Object?
    ensures r.Ok? ==> At(Object(r.value), ["spec", "rules"]) == Some(List(rules))
    ensures r.Ok? ==> forall k :: k in obj && k != "spec" ==> k in r.value && r.value[k] == obj[k]
    ensures r.Ok? ==> r.value.Keys == obj.Keys + {"spec"}
  {
    assert ["spec", "rules"][1..] == ["rules"];
    if "spec" !in obj then Ok(obj["spec" := Object(map["rules" := List(rules)])])
    else if !obj["spec"].Object? then
      Err(".spec.rules accessor error: value is not of type map[string]interface{}")
    else Ok(obj["spec" := Object(obj["spec"].fields["rules" := List(rules)])])
  }

  /** UpdateRuleSet: read the RuleSet, replace spec.rules by the given names
      and send the update; any failing step fails the test. */
  method UpdateRuleSet(s: Scenario, namespace: string, name: string, names: seq<string>,
                       current: Result<map<string, Value>>, updateError: Option<string>)
    modifies s
    ensures current.Err? || SetSpecRules(current.value, RuleRefs(names)).Err? ==>
      s.failed && s.calls == old(s.calls) + [Get(RuleSetResource, namespace, name)]
    ensures current.Ok? && SetSpecRules(current.value, RuleRefs(names)).Ok? ==>
      s.calls == old(s.calls) + [Get(RuleSetResource, namespace, name),
                                 Update(RuleSetResource, namespace, Object(SetSpecRules(current.value, RuleRefs(names)).value))]
      && s.failed == (old(s.failed) || updateError.Some?)
    ensures s.cleanups == old(s.cleanups) && s.namespaces == old(s.namespaces) && s.effects == old(s.effects)
  {
    s.calls := s.calls + [Get(RuleSetResource, namespace, name)];
    if current.Err? {
      s.failed := true;
      return;
    }
    var rules := BuildRuleList(names);
    var updated := SetSpecRules(current.value, rules);
    if updated.Err? {
      s.failed := true;
      return;
    }
    s.calls := s.calls + [Update(RuleSetResource, namespace, Object(updated.value))];
    if updateError.Some? {
      s.failed := true;
    }
  }

  /** UpdateConfigMap: read the ConfigMap, replace its whole data by
      {"rules": rules} and send the update. */
  method UpdateConfigMap(s: Scenario, namespace: string, name: string, rules: string,
                         current: Result<map<string, Value>>, updateError: Option<string>)
    modifies s
    ensures current.Err? ==> s.failed && s.calls == old(s.calls) + [Get(ConfigMapResource, namespace, name)]
    ensures current.Ok? ==>
      s.calls == old(s.calls) + [Get(ConfigMapResource, namespace, name),
                                 Update(ConfigMapResource, namespace, Object(current.value["data" := Object(map["rules" := Str(rules)])]))]
      && s.failed == (old(s.failed) || updateError.Some?)
    ensures s.cleanups == old(s.cleanups) && s.namespaces == old(s.namespaces) && s.effects == old(s.effects)
  {
    s.calls := s.calls + [Get(ConfigMapResource, namespace, name)];
    if current.Err? {
      s.failed := true;
      return;
    }
    s.calls := s.calls + [Update(ConfigMapResource, namespace, Object(current.value["data" := Object(map["rules" := Str(rules)])]))];
    if updateError.Some? {
      s.failed := true;
    }
  }
}
