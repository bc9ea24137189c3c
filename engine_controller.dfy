// EngineReconciler (internal/controller/engine_controller.go and
// internal/controller/engine_controller_driver_istio.go): read the Engine,
// mark it Progressing, pick the driver, and either build and apply the Istio
// WasmPlugin or report the configuration as invalid.
//
// The status writer, the event recorder and server-side apply are seen only
// through the calls the reconciler makes on them: each call is an Action, in
// the order issued, and the answers the cluster gives are parameters.
module EngineController {
  import opened Wrappers
  import opened Strings
  import opened Kube
  import opened Values

  /** The Engine fields the reconciler reads, as this revision of the
      controller reaches them (Spec.Driver.Istio.Wasm.*). */
  datatype CacheServerSettings = CacheServerSettings(pollIntervalSeconds: int)

  datatype WasmSettings = WasmSettings(image: string, workloadSelector: map<string, string>, ruleSetCacheServer: Option<CacheServerSettings>)

  datatype IstioSettings = IstioSettings(wasm: Option<WasmSettings>)

  datatype EngineObject = EngineObject(
    name: string,
    namespace: string,
    ruleSet: ObjectReference,
    istio: Option<IstioSettings>,
    conditions: seq<Condition>)

  /** The conditions the status helpers set. */
  datatype ConditionKind = Progressing | Ready | Degraded

  datatype Action =
    | PatchStatus(kind: ConditionKind, reason: string, message: string)
    | RecordEvent(eventType: string, reason: string, note: string)
    | ApplyPlugin(plugin: Value)

  /** The answers of the cluster to the calls that can fail; None is success.
      statusPatch answers the status patch after driver selection. */
  datatype Faults = Faults(progressPatch: Option<string>, ownerReference: Option<string>, apply: Option<string>, statusPatch: Option<string>)

  /** The outcome of a step and the calls it made. */
  datatype Run = Run(outcome: Outcome, actions: seq<Action>)

  const WasmPluginNamePrefix: string := "coraza-engine-"

  const InvalidDriverMessage: string := "invalid driver configuration: only Istio driver with Wasm mode is currently supported"

  const ProgressingPatch: Action := PatchStatus(Progressing, "Reconciling", "Starting reconciliation")

  // ---------------------------------------------------------------------------
  // buildWasmPlugin
  // ---------------------------------------------------------------------------

  /** The engine has the Istio driver in Wasm mode. */
  predicate Provisionable(engine: EngineObject)
  {
    engine.istio.Some? && engine.istio.value.wasm.Some?
  }

  /** The namespace of the RuleSet an Engine refers to: its reference's own,
      or the Engine's when the reference leaves it empty. */
  function RuleSetNamespace(engine: EngineObject): string
  {
    if engine.ruleSet.namespace == "" then engine.namespace else engine.ruleSet.namespace
  }

  function PluginConfig(engine: EngineObject, cacheServerCluster: string): map<string, Value>
    requires Provisionable(engine)
  {
    var base := map[
      "cache_server_instance" := Str(RuleSetNamespace(engine) + "/" + engine.ruleSet.name),
      "cache_server_cluster" := Str(cacheServerCluster)];
    var server := engine.istio.value.wasm.value.ruleSetCacheServer;
    if server.Some? then base["rule_reload_interval_seconds" := Int(server.value.pollIntervalSeconds)] else base
  }

  function BuildWasmPlugin(engine: EngineObject, cacheServerCluster: string): Value
    requires Provisionable(engine)
  {
    var wasm := engine.istio.value.wasm.value;
    Object(map[
      "apiVersion" := Str("extensions.istio.io/v1alpha1"),
      "kind" := Str("WasmPlugin"),
      "metadata" := Object(map["name" := Str(WasmPluginNamePrefix + engine.name), "namespace" := Str(engine.namespace)]),
      "spec" := Object(map[
        "url" := Str(wasm.image),
        "pluginConfig" := Object(PluginConfig(engine, cacheServerCluster)),
        "selector" := Object(map["matchLabels" := StringMap(wasm.workloadSelector)])])])
  }

  /** What the WasmPlugin carries: its name and namespace, the cache key and
      cluster, the reload interval exactly when a cache server is configured,
      the image and the workload labels. */
  lemma BuildWasmPluginFields(engine: EngineObject, cacheServerCluster: string)
    requires Provisionable(engine)
    ensures var p := BuildWasmPlugin(engine, cacheServerCluster);
      var wasm := engine.istio.value.wasm.value;
      At(p, ["kind"]) == Some(Str("WasmPlugin"))
      && At(p, ["metadata", "name"]) == Some(Str("coraza-engine-" + engine.name))
      && At(p, ["metadata", "namespace"]) == Some(Str(engine.namespace))
      && At(p, ["spec", "pluginConfig", "cache_server_instance"]) == Some(Str(RuleSetNamespace(engine) + "/" + engine.ruleSet.name))
      && At(p, ["spec", "pluginConfig", "cache_server_cluster"]) == Some(Str(cacheServerCluster))
      && (At(p, ["spec", "pluginConfig", "rule_reload_interval_seconds"]).Some? <==> wasm.ruleSetCacheServer.Some?)
      && (wasm.ruleSetCacheServer.Some? ==>
            At(p, ["spec", "pluginConfig", "rule_reload_interval_seconds"]) == Some(Int(wasm.ruleSetCacheServer.value.pollIntervalSeconds)))
      && At(p, ["spec", "url"]) == Some(Str(wasm.image))
      && At(p, ["spec", "selector", "matchLabels"]) == Some(StringMap(wasm.workloadSelector))
  {
    WasmPluginMetadata(engine, cacheServerCluster);
    WasmPluginConfigFields(engine, cacheServerCluster);
    WasmPluginSpecFields(engine, cacheServerCluster);
  }

  lemma WasmPluginMetadata(engine: EngineObject, cacheServerCluster: string)
    requires Provisionable(engine)
    ensures var p := BuildWasmPlugin(engine, cacheServerCluster);
      At(p, ["kind"]) == Some(Str("WasmPlugin"))
      && At(p, ["metadata", "name"]) == Some(Str("coraza-engine-" + engine.name))
      && At(p, ["metadata", "namespace"]) == Some(Str(engine.namespace))
  {
    var p := BuildWasmPlugin(engine, cacheServerCluster);
    assert ["kind"][1..] == [];
    assert At(p, ["metadata", "name"]) == At(p.fields["metadata"], ["name"]) by {
      assert ["metadata", "name"][1..] == ["name"];
    }
    assert At(p, ["metadata", "namespace"]) == At(p.fields["metadata"], ["namespace"]) by {
      assert ["metadata", "namespace"][1..] == ["namespace"];
    }
  }

  lemma WasmPluginConfigFields(engine: EngineObject, cacheServerCluster: string)
    requires Provisionable(engine)
    ensures var p := BuildWasmPlugin(engine, cacheServerCluster);
      var wasm := engine.istio.value.wasm.value;
      At(p, ["spec", "pluginConfig", "cache_server_instance"]) == Some(Str(RuleSetNamespace(engine) + "/" + engine.ruleSet.name))
      && At(p, ["spec", "pluginConfig", "cache_server_cluster"]) == Some(Str(cacheServerCluster))
      && (At(p, ["spec", "pluginConfig", "rule_reload_interval_seconds"]).Some? <==> wasm.ruleSetCacheServer.Some?)
      && (wasm.ruleSetCacheServer.Some? ==>
            At(p, ["spec", "pluginConfig", "rule_reload_interval_seconds"]) == Some(Int(wasm.ruleSetCacheServer.value.pollIntervalSeconds)))
  {
    var p := BuildWasmPlugin(engine, cacheServerCluster);
    var config := Object(PluginConfig(engine, cacheServerCluster));
    assert At(p, ["spec", "pluginConfig"]) == Some(config) by {
      assert ["spec", "pluginConfig"][1..] == ["pluginConfig"];
    }
    AtAppend(p, ["spec", "pluginConfig"], ["cache_server_instance"]);
    AtAppend(p, ["spec", "pluginConfig"], ["cache_server_cluster"]);
    AtAppend(p, ["spec", "pluginConfig"], ["rule_reload_interval_seconds"]);
    assert ["spec", "pluginConfig"] + ["cache_server_instance"] == ["spec", "pluginConfig", "cache_server_instance"];
    assert ["spec", "pluginConfig"] + ["cache_server_cluster"] == ["spec", "pluginConfig", "cache_server_cluster"];
    assert ["spec", "pluginConfig"] + ["rule_reload_interval_seconds"] == ["spec", "pluginConfig", "rule_reload_interval_seconds"];
  }

  lemma WasmPluginSpecFields(engine: EngineObject, cacheServerCluster: string)
    requires Provisionable(engine)
    ensures var p := BuildWasmPlugin(engine, cacheServerCluster);
      var wasm := engine.istio.value.wasm.value;
      At(p, ["spec", "url"]) == Some(Str(wasm.image))
      && At(p, ["spec", "selector", "matchLabels"]) == Some(StringMap(wasm.workloadSelector))
  {
    var p := BuildWasmPlugin(engine, cacheServerCluster);
    var spec := p.fields["spec"];
    assert At(p, ["spec", "selector", "matchLabels"]) == At(spec.fields["selector"], ["matchLabels"]) by {
      assert ["spec", "selector", "matchLabels"][1..] == ["selector", "matchLabels"];
      assert ["selector", "matchLabels"][1..] == ["matchLabels"];
    }
    assert At(p, ["spec", "url"]) == At(spec, ["url"]) by {
      assert ["spec", "url"][1..] == ["url"];
    }
  }

  // ---------------------------------------------------------------------------
  // The specification of each step
  // ---------------------------------------------------------------------------

  /** handleInvalidDriverConfiguration: an event, a Degraded patch, an error. */
  function InvalidConfigurationRun(statusPatch: Option<string>): Run
  {
    var actions := [
      RecordEvent("Warning", "InvalidConfiguration", InvalidDriverMessage),
      PatchStatus(Degraded, "InvalidConfiguration", InvalidDriverMessage)];
    match statusPatch
    case None => Run(Errored(InvalidDriverMessage), actions)
    case Some(u) => Run(Errored("validation failed: " + InvalidDriverMessage + " (status patch also failed: " + u + ")"), actions)
  }

  /** provisionIstioEngineWithWasm */
  function ProvisionRun(engine: EngineObject, cacheServerCluster: string, faults: Faults): Run
    requires Provisionable(engine)
  {
    if faults.ownerReference.Some? then Run(Errored(faults.ownerReference.value), [])
    else
      var applied := [ApplyPlugin(BuildWasmPlugin(engine, cacheServerCluster))];
      if faults.apply.Some? then
        var e := faults.apply.value;
        Run(Errored(e), applied + [
          RecordEvent("Warning", "ProvisioningFailed", "Failed to create WasmPlugin: " + e),
          PatchStatus(Degraded, "ProvisioningFailed", "Failed to create or update WasmPlugin: " + e)])
      else
        var ready := applied + [PatchStatus(Ready, "Configured", "WasmPlugin successfully created/updated")];
        if faults.statusPatch.Some? then Run(Errored(faults.statusPatch.value), ready)
        else Run(Done, ready + [RecordEvent("Normal", "WasmPluginCreated",
          "Created WasmPlugin " + engine.namespace + "/" + WasmPluginNamePrefix + engine.name)])
  }

  /** selectDriver */
  function SelectDriverRun(engine: EngineObject, cacheServerCluster: string, faults: Faults): Run
  {
    if Provisionable(engine) then ProvisionRun(engine, cacheServerCluster, faults)
    else InvalidConfigurationRun(faults.statusPatch)
  }

  /** Reconcile */
  function ReconcileRun(req: NamespacedName, engines: Cluster<EngineObject>, cacheServerCluster: string, faults: Faults): Run
  {
    match Get(engines, req)
    case NotFound => Run(Outcome(false, 0, None), [])
    case ReadFailed(e) => Run(Outcome(true, 0, Some(e)), [])
    case Found(engine) =>
      if HasConditionType(engine.conditions, "Ready") then SelectDriverRun(engine, cacheServerCluster, faults)
      else if faults.progressPatch.Some? then Run(Errored(faults.progressPatch.value), [ProgressingPatch])
      else
        var rest := SelectDriverRun(engine, cacheServerCluster, faults);
        Run(rest.outcome, [ProgressingPatch] + rest.actions)
  }

  // ---------------------------------------------------------------------------
  // Properties
  // ---------------------------------------------------------------------------

  predicate Provisions(actions: seq<Action>)
  {
    exists i :: 0 <= i < |actions| && actions[i].ApplyPlugin?
  }

  predicate SetsCondition(actions: seq<Action>, kind: ConditionKind)
  {
    exists i :: 0 <= i < |actions| && actions[i].PatchStatus? && actions[i].kind == kind
  }

  /** An absent Engine ends without requeue and without calls; any other read
      error is returned with a requeue. */
  lemma ReconcileReadOutcomes(req: NamespacedName, engines: Cluster<EngineObject>, cacheServerCluster: string, faults: Faults)
    ensures Get(engines, req).NotFound? ==> ReconcileRun(req, engines, cacheServerCluster, faults) == Run(Outcome(false, 0, None), [])
    ensures Get(engines, req).ReadFailed? ==>
      ReconcileRun(req, engines, cacheServerCluster, faults) == Run(Outcome(true, 0, Some(Get(engines, req).err)), [])
  {
  }

  /** Progressing is patched, first of all calls, exactly when the Engine has
      no Ready condition yet; when that patch fails, nothing else is called. */
  lemma ReconcileProgressing(req: NamespacedName, engines: Cluster<EngineObject>, cacheServerCluster: string, faults: Faults)
    requires Get(engines, req).Found?
    ensures var engine := Get(engines, req).obj;
      var r := ReconcileRun(req, engines, cacheServerCluster, faults);
      (SetsCondition(r.actions, Progressing) <==> !HasConditionType(engine.conditions, "Ready"))
      && (!HasConditionType(engine.conditions, "Ready") ==> r.actions[0] == ProgressingPatch)
      && (!HasConditionType(engine.conditions, "Ready") && faults.progressPatch.Some? ==>
            r == Run(Errored(faults.progressPatch.value), [ProgressingPatch]))
  {
    var engine := Get(engines, req).obj;
    var rest := SelectDriverRun(engine, cacheServerCluster, faults);
    SelectDriverNeverProgressing(engine, cacheServerCluster, faults);
    if !HasConditionType(engine.conditions, "Ready") {
      assert ReconcileRun(req, engines, cacheServerCluster, faults).actions[0] == ProgressingPatch;
      assert SetsCondition(ReconcileRun(req, engines, cacheServerCluster, faults).actions, Progressing);
    }
    if !HasConditionType(engine.conditions, "Ready") && faults.progressPatch.None? {
      var r := ReconcileRun(req, engines, cacheServerCluster, faults);
      assert r.actions[0] == ProgressingPatch;
      forall i | 0 < i < |r.actions| && r.actions[i].PatchStatus?
        ensures r.actions[i].kind != Progressing
      {
        assert r.actions[i] == rest.actions[i - 1];
      }
    }
  }

  /** Only Reconcile itself patches Progressing. */
  lemma SelectDriverNeverProgressing(engine: EngineObject, cacheServerCluster: string, faults: Faults)
    ensures !SetsCondition(SelectDriverRun(engine, cacheServerCluster, faults).actions, Progressing)
  {
  }

  /** The driver is provisioned exactly for the Istio driver with Wasm; every
      other shape is reported as an invalid configuration. */
  lemma SelectDriverProvisionsIff(engine: EngineObject, cacheServerCluster: string, faults: Faults)
    requires faults.ownerReference.None?
    ensures Provisions(SelectDriverRun(engine, cacheServerCluster, faults).actions) <==> Provisionable(engine)
    ensures !Provisionable(engine) ==> SelectDriverRun(engine, cacheServerCluster, faults) == InvalidConfigurationRun(faults.statusPatch)
  {
    if Provisionable(engine) {
      assert SelectDriverRun(engine, cacheServerCluster, faults).actions[0].ApplyPlugin?;
    }
  }

  /** An invalid configuration emits a Warning event and a Degraded patch, both
      with reason InvalidConfiguration, and always returns an error; when the
      patch fails too, the error names both failures. */
  lemma InvalidConfigurationReports(statusPatch: Option<string>)
    ensures var r := InvalidConfigurationRun(statusPatch);
      r.outcome.err.Some? && !r.outcome.requeue
      && r.actions == [RecordEvent("Warning", "InvalidConfiguration", InvalidDriverMessage),
                       PatchStatus(Degraded, "InvalidConfiguration", InvalidDriverMessage)]
      && (statusPatch.None? ==> r.outcome.err == Some(InvalidDriverMessage))
      && (statusPatch.Some? ==> Contains(r.outcome.err.value, InvalidDriverMessage) && Contains(r.outcome.err.value, statusPatch.value))
  {
    if statusPatch.Some? {
      var u := statusPatch.value;
      var a, b, c := "validation failed: ", " (status patch also failed: ", ")";
      var err := a + InvalidDriverMessage + b + u + c;
      assert err == InvalidConfigurationRun(statusPatch).outcome.err.value;
      ContainsMiddle(a, InvalidDriverMessage, b + u + c);
      assert a + InvalidDriverMessage + (b + u + c) == err;
      ContainsMiddle(a + InvalidDriverMessage + b, u, c);
    }
  }

  /** A failed apply emits a Warning ProvisioningFailed event, marks the Engine
      Degraded, returns the apply error itself and never marks it Ready. */
  lemma ProvisionApplyFailure(engine: EngineObject, cacheServerCluster: string, faults: Faults)
    requires Provisionable(engine) && faults.ownerReference.None? && faults.apply.Some?
    ensures var r := ProvisionRun(engine, cacheServerCluster, faults);
      r.outcome == Errored(faults.apply.value)
      && r.actions[1] == RecordEvent("Warning", "ProvisioningFailed", "Failed to create WasmPlugin: " + faults.apply.value)
      && SetsCondition(r.actions, Degraded)
      && !SetsCondition(r.actions, Ready)
  {
    var r := ProvisionRun(engine, cacheServerCluster, faults);
    assert r.actions[2].PatchStatus? && r.actions[2].kind == Degraded;
  }

  /** A successful apply marks the Engine Ready with reason Configured, then
      emits a Normal WasmPluginCreated event, and returns no error. */
  lemma ProvisionSuccess(engine: EngineObject, cacheServerCluster: string, faults: Faults)
    requires Provisionable(engine) && faults.ownerReference.None? && faults.apply.None? && faults.statusPatch.None?
    ensures var r := ProvisionRun(engine, cacheServerCluster, faults);
      r.outcome == Done && |r.actions| == 3
      && r.actions[1] == PatchStatus(Ready, "Configured", "WasmPlugin successfully created/updated")
      && r.actions[2].RecordEvent? && r.actions[2].eventType == "Normal" && r.actions[2].reason == "WasmPluginCreated"
      && !SetsCondition(r.actions, Degraded)
  {
  }

  // ---------------------------------------------------------------------------
  // The reconciler
  // ---------------------------------------------------------------------------

  class EngineReconciler {
    const ruleSetCacheServerCluster: string

    /** Every call made on the status writer, the recorder and the applier. */
    var actions: seq<Action>

    constructor (ruleSetCacheServerCluster: string)
      ensures this.ruleSetCacheServerCluster == ruleSetCacheServerCluster && actions == []
    {
      this.ruleSetCacheServerCluster := ruleSetCacheServerCluster;
      actions := [];
    }

    method Reconcile(req: NamespacedName, engines: Cluster<EngineObject>, faults: Faults) returns (outcome: Outcome)
      modifies this
      ensures var r := ReconcileRun(req, engines, ruleSetCacheServerCluster, faults);
        outcome == r.outcome && actions == old(actions) + r.actions
    {
      var read := Get(engines, req);
      if read.NotFound? {
        return Outcome(false, 0, None);
      }
      if read.ReadFailed? {
        return Outcome(true, 0, Some(read.err));
      }
      var engine := read.obj;
      assert read == Found(engine);
      if !HasConditionType(engine.conditions, "Ready") {
        actions := actions + [ProgressingPatch];
        if faults.progressPatch.Some? {
          return Errored(faults.progressPatch.value);
        }
      }
      ghost var before := actions;
      outcome := SelectDriver(engine, faults);
      assert actions == before + SelectDriverRun(engine, ruleSetCacheServerCluster, faults).actions;
    }

    method SelectDriver(engine: EngineObject, faults: Faults) returns (outcome: Outcome)
      modifies this
      ensures var r := SelectDriverRun(engine, ruleSetCacheServerCluster, faults);
        outcome == r.outcome && actions == old(actions) + r.actions
    {
      if engine.istio.Some? {
        if engine.istio.value.wasm.Some? {
          outcome := ProvisionIstioEngineWithWasm(engine, faults);
          return;
        }
      }
      var err := HandleInvalidDriverConfiguration(faults.statusPatch);
      return Errored(err);
    }

    method HandleInvalidDriverConfiguration(statusPatch: Option<string>) returns (err: string)
      modifies this
      ensures var r := InvalidConfigurationRun(statusPatch);
        r.outcome == Errored(err) && actions == old(actions) + r.actions
    {
      err := InvalidDriverMessage;
      actions := actions + [RecordEvent("Warning", "InvalidConfiguration", err)];
      actions := actions + [PatchStatus(Degraded, "InvalidConfiguration", err)];
      if statusPatch.Some? {
        return "validation failed: " + err + " (status patch also failed: " + statusPatch.value + ")";
      }
    }

    method ProvisionIstioEngineWithWasm(engine: EngineObject, faults: Faults) returns (outcome: Outcome)
      requires Provisionable(engine)
      modifies this
      ensures var r := ProvisionRun(engine, ruleSetCacheServerCluster, faults);
        outcome == r.outcome && actions == old(actions) + r.actions
    {
      var wasmPlugin := BuildWasmPlugin(engine, ruleSetCacheServerCluster);
      if faults.ownerReference.Some? {
        return Errored(faults.ownerReference.value);
      }
      actions := actions + [ApplyPlugin(wasmPlugin)];
      if faults.apply.Some? {
        var err := faults.apply.value;
        actions := actions + [RecordEvent("Warning", "ProvisioningFailed", "Failed to create WasmPlugin: " + err)];
        actions := actions + [PatchStatus(Degraded, "ProvisioningFailed", "Failed to create or update WasmPlugin: " + err)];
        return Errored(err);
      }
      actions := actions + [PatchStatus(Ready, "Configured", "WasmPlugin successfully created/updated")];
      if faults.statusPatch.Some? {
        return Errored(faults.statusPatch.value);
      }
      actions := actions + [RecordEvent("Normal", "WasmPluginCreated",
        "Created WasmPlugin " + engine.namespace + "/" + WasmPluginNamePrefix + engine.name)];
      return Done;
    }
  }
}
