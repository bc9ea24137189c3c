// RuleSetReconciler.Reconcile (internal/controller/ruleset_controller.go):
// read the RuleSet, read its ConfigMap sources in order, join their "rules"
// data with newlines and store the result in the cache as a new version.
module RuleSetController {
  import opened Wrappers
  import opened Strings
  import opened Kube
  import opened Api
  import opened Cache

  /** The delay before a RuleSet whose ConfigMap is missing is tried again: 5s. */
  const ConfigMapRequeueAfter: int := 5 * NanosPerSecond

  /** What one source contributes: its rules text, or the outcome that ends
      the reconcile. */
  datatype Fetched = Data(text: string) | Stop(outcome: Outcome)

  /** One turn of the aggregation loop for a source of a RuleSet in namespace. */
  function FetchSource(rule: ObjectReference, namespace: string, configMaps: Cluster<ConfigMap>): Fetched
  {
    if rule.kind != "ConfigMap" then Stop(Errored("unsupported rule kind: " + rule.kind))
    else
      match Get(configMaps, NamespacedName(namespace, rule.name))
      case NotFound => Stop(Outcome(false, ConfigMapRequeueAfter, None))
      case ReadFailed(e) => Stop(Errored(e))
      case Found(cm) =>
        if "rules" in cm.data then Data(cm.data["rules"])
        else Stop(Errored("ConfigMap " + rule.name + " missing 'rules' key"))
  }

  datatype Collected = Collected(datas: seq<string>) | Aborted(outcome: Outcome)

  /** The sources processed in list order; the first that stops decides. */
  function Collect(rules: seq<ObjectReference>, namespace: string, configMaps: Cluster<ConfigMap>): (r: Collected)
    ensures r.Collected? ==> |r.datas| == |rules|
  {
    if |rules| == 0 then Collected([])
    else
      Extend(Collect(rules[..|rules| - 1], namespace, configMaps), FetchSource(rules[|rules| - 1], namespace, configMaps))
  }

  /** One more source: an earlier stop stands, else this source stops the
      loop or adds its text. */
  function Extend(c: Collected, f: Fetched): Collected
  {
    match c
    case Aborted(o) => Aborted(o)
    case Collected(ds) =>
      match f
      case Stop(o) => Aborted(o)
      case Data(t) => Collected(ds + [t])
  }

  /** The collection of a prefix one source longer. */
  lemma CollectPrefixStep(rules: seq<ObjectReference>, namespace: string, configMaps: Cluster<ConfigMap>, i: nat)
    requires i < |rules|
    ensures Collect(rules[..i + 1], namespace, configMaps)
      == Extend(Collect(rules[..i], namespace, configMaps), FetchSource(rules[i], namespace, configMaps))
  {
    assert rules[..i + 1][..i] == rules[..i];
  }

  /** A source that the reconciler reads successfully: a ConfigMap that is
      present in the RuleSet's namespace, can be read, and has a "rules" key. */
  predicate SourceReady(rule: ObjectReference, namespace: string, configMaps: Cluster<ConfigMap>)
  {
    var key := NamespacedName(namespace, rule.name);
    rule.kind == "ConfigMap" && key !in configMaps.faults && key in configMaps.objects
    && "rules" in configMaps.objects[key].data
  }

  /** The "rules" data of a ready source. */
  function SourceText(rule: ObjectReference, namespace: string, configMaps: Cluster<ConfigMap>): string
    requires SourceReady(rule, namespace, configMaps)
  {
    configMaps.objects[NamespacedName(namespace, rule.name)].data["rules"]
  }

  /** The loop body reads a source successfully exactly when it is ready, and
      then contributes its "rules" data. */
  lemma FetchSourceReady(rule: ObjectReference, namespace: string, configMaps: Cluster<ConfigMap>)
    ensures FetchSource(rule, namespace, configMaps).Data? <==> SourceReady(rule, namespace, configMaps)
    ensures SourceReady(rule, namespace, configMaps) ==> FetchSource(rule, namespace, configMaps).text == SourceText(rule, namespace, configMaps)
  {
  }

  /** Source j is the first that is not ready, and o is the outcome it ends with. */
  predicate FirstStopAt(rules: seq<ObjectReference>, namespace: string, configMaps: Cluster<ConfigMap>, j: int, o: Outcome)
  {
    0 <= j < |rules|
    && (forall k :: 0 <= k < j ==> SourceReady(rules[k], namespace, configMaps))
    && FetchSource(rules[j], namespace, configMaps) == Stop(o)
  }

  lemma {:induction false} CollectAbortPersists(rules: seq<ObjectReference>, namespace: string, configMaps: Cluster<ConfigMap>, j: nat)
    requires j <= |rules| && Collect(rules[..j], namespace, configMaps).Aborted?
    ensures Collect(rules, namespace, configMaps) == Collect(rules[..j], namespace, configMaps)
    decreases |rules| - j
  {
    if j < |rules| {
      assert rules[..|rules| - 1][..j] == rules[..j];
      CollectAbortPersists(rules[..|rules| - 1], namespace, configMaps, j);
    } else {
      assert rules[..j] == rules;
    }
  }

  /** Every source is read in order: aggregation succeeds exactly when every
      source is ready, with one text per source in list order; otherwise the
      first source that is not ready decides the outcome. */
  lemma {:induction false} CollectFirstFailureDecides(rules: seq<ObjectReference>, namespace: string, configMaps: Cluster<ConfigMap>)
    ensures var r := Collect(rules, namespace, configMaps);
      (r.Collected? <==> forall j :: 0 <= j < |rules| ==> SourceReady(rules[j], namespace, configMaps))
      && (r.Collected? ==> forall j :: 0 <= j < |rules| ==> r.datas[j] == SourceText(rules[j], namespace, configMaps))
      && (r.Aborted? ==> exists j :: FirstStopAt(rules, namespace, configMaps, j, r.outcome))
  {
    if |rules| > 0 {
      var init := rules[..|rules| - 1];
      CollectFirstFailureDecides(init, namespace, configMaps);
      assert forall j :: 0 <= j < |init| ==> init[j] == rules[j];
      var r := Collect(rules, namespace, configMaps);
      FetchSourceReady(rules[|rules| - 1], namespace, configMaps);
      if Collect(init, namespace, configMaps).Aborted? {
        var j :| FirstStopAt(init, namespace, configMaps, j, Collect(init, namespace, configMaps).outcome);
        assert FirstStopAt(rules, namespace, configMaps, j, r.outcome);
      } else if r.Aborted? {
        assert FirstStopAt(rules, namespace, configMaps, |rules| - 1, r.outcome);
      }
    }
  }

  /** The cache write a reconcile asks for. */
  datatype CachePut = CachePut(instance: string, rules: string)

  /** What one reconcile decides: its outcome, and the cache write, if any. */
  datatype Decision = Decision(outcome: Outcome, put: Option<CachePut>)

  function Decide(req: NamespacedName, ruleSets: Cluster<RuleSet>, configMaps: Cluster<ConfigMap>): Decision
  {
    match Get(ruleSets, req)
    case NotFound => Decision(Done, None)
    case ReadFailed(e) => Decision(Errored(e), None)
    case Found(rs) =>
      match Collect(rs.spec.rules, rs.namespace, configMaps)
      case Aborted(o) => Decision(o, None)
      case Collected(ds) => Decision(Done, Some(CachePut(rs.spec.instance, Join(ds, "\n"))))
  }

  /** The rules text of each source, in list order. */
  function SourceTexts(rules: seq<ObjectReference>, namespace: string, configMaps: Cluster<ConfigMap>): (texts: seq<string>)
    requires forall j :: 0 <= j < |rules| ==> SourceReady(rules[j], namespace, configMaps)
    ensures |texts| == |rules|
  {
    seq(|rules|, j requires 0 <= j < |rules| && SourceReady(rules[j], namespace, configMaps) => SourceText(rules[j], namespace, configMaps))
  }

  /** The outcomes of a reconcile. An absent RuleSet ends quietly; any error or
      requeue leaves the cache alone; a complete aggregation stores exactly one
      version under Spec.Instance, the texts joined by newlines. */
  lemma DecideOutcomes(req: NamespacedName, ruleSets: Cluster<RuleSet>, configMaps: Cluster<ConfigMap>)
    ensures var d := Decide(req, ruleSets, configMaps);
      (Get(ruleSets, req).NotFound? ==> d == Decision(Done, None))
      && (Get(ruleSets, req).ReadFailed? ==> d == Decision(Errored(Get(ruleSets, req).err), None))
      && (d.put.Some? ==> d.outcome == Done)
      && (Get(ruleSets, req).Found? ==>
            var rs := Get(ruleSets, req).obj;
            (d.put.Some? <==> forall j :: 0 <= j < |rs.spec.rules| ==> SourceReady(rs.spec.rules[j], rs.namespace, configMaps))
            && (d.put.Some? ==> d.put.value == CachePut(rs.spec.instance, Join(SourceTexts(rs.spec.rules, rs.namespace, configMaps), "\n")))
            && (d.put.None? ==> exists j :: FirstStopAt(rs.spec.rules, rs.namespace, configMaps, j, d.outcome)))
  {
    if Get(ruleSets, req).Found? {
      var rs := Get(ruleSets, req).obj;
      CollectFirstFailureDecides(rs.spec.rules, rs.namespace, configMaps);
      var c := Collect(rs.spec.rules, rs.namespace, configMaps);
      if c.Collected? {
        assert c.datas == SourceTexts(rs.spec.rules, rs.namespace, configMaps);
      }
    }
  }

  /** A second reconcile after a ConfigMap edit serves a new latest version,
      under a UUID different from the first, and keeps the first as history. */
  lemma ReconcileAgainStoresNewVersion(m: Store, instance: string, first: RuleSetEntry, second: RuleSetEntry)
    requires WellFormedStore(m) && UuidUnused(m, instance, first.uuid)
    requires UuidUnused(PutModel(m, instance, first), instance, second.uuid)
    ensures var after := PutModel(PutModel(m, instance, first), instance, second);
      Lookup(after, instance) == Some(second) && second.uuid != first.uuid
      && first in after[instance].entries
  {
    PutModelFacts(m, instance, first);
    PutModelFacts(PutModel(m, instance, first), instance, second);
    assert first in PutModel(m, instance, first)[instance].entries;
  }

  /** One turn of the aggregation loop: check the kind, read the ConfigMap,
      take its "rules" data. */
  method ReadSource(rule: ObjectReference, namespace: string, configMaps: Cluster<ConfigMap>) returns (fetched: Fetched)
    ensures fetched == FetchSource(rule, namespace, configMaps)
  {
    if rule.kind != "ConfigMap" {
      return Stop(Errored("unsupported rule kind: " + rule.kind));
    }
    var cm := Get(configMaps, NamespacedName(namespace, rule.name));
    if cm.NotFound? {
      return Stop(Outcome(false, ConfigMapRequeueAfter, None));
    }
    if cm.ReadFailed? {
      return Stop(Errored(cm.err));
    }
    if "rules" !in cm.obj.data {
      return Stop(Errored("ConfigMap " + rule.name + " missing 'rules' key"));
    }
    return Data(cm.obj.data["rules"]);
  }

  /** The aggregation loop of Reconcile: Some outcome when a source stops it,
      else the joined rules. */
  method AggregateRules(rules: seq<ObjectReference>, namespace: string, configMaps: Cluster<ConfigMap>)
    returns (stop: Option<Outcome>, aggregated: string)
    ensures var c := Collect(rules, namespace, configMaps);
      (c.Aborted? <==> stop.Some?) && (c.Aborted? ==> stop.value == c.outcome)
      && (c.Collected? ==> aggregated == Join(c.datas, "\n"))
  {
    aggregated := "";
    var i := 0;
    while i < |rules|
      invariant 0 <= i <= |rules|
      invariant Collect(rules[..i], namespace, configMaps).Collected?
      invariant aggregated == Join(Collect(rules[..i], namespace, configMaps).datas, "\n") + (if 0 < i < |rules| then "\n" else "")
    {
      var rule := rules[i];
      ghost var before := Collect(rules[..i], namespace, configMaps).datas;
      CollectPrefixStep(rules, namespace, configMaps, i);
      var fetched := ReadSource(rule, namespace, configMaps);
      if fetched.Stop? {
        CollectAbortPersists(rules, namespace, configMaps, i + 1);
        return Some(fetched.outcome), "";
      }
      var data := fetched.text;
      AggregatedStep(aggregated, before, data, i, |rules|);
      aggregated := aggregated + data;
      if i < |rules| - 1 {
        aggregated := aggregated + "\n";
      }
      i := i + 1;
    }
    assert rules[..i] == rules;
    return None, aggregated;
  }

  /** One more source extends the aggregated string by its text, then the
      separator unless it is the last. */
  lemma AggregatedStep(aggregated: string, before: seq<string>, data: string, i: nat, n: nat)
    requires i < n && |before| == i
    requires aggregated == Join(before, "\n") + (if 0 < i < n then "\n" else "")
    ensures aggregated + data + (if i < n - 1 then "\n" else "")
      == Join(before + [data], "\n") + (if 0 < i + 1 < n then "\n" else "")
  {
    if i > 0 {
      JoinAppend(before, data, "\n");
    } else {
      assert before + [data] == [data];
    }
  }

  /** A UUID that no version in the cache carries. */
  predicate UuidFresh(m: Store, uuid: string)
  {
    forall instance :: instance in m ==> UuidUnused(m, instance, uuid)
  }

  class RuleSetReconciler {
    const cache: RuleSetCache

    constructor (cache: RuleSetCache)
      ensures this.cache == cache
    {
      this.cache := cache;
    }

    /** Reconcile, with the cluster as two abstract stores; uuid and now are
        what the cache's Put would draw. */
    method Reconcile(req: NamespacedName, ruleSets: Cluster<RuleSet>, configMaps: Cluster<ConfigMap>, uuid: string, now: int)
      returns (outcome: Outcome)
      requires cache.Valid() && UuidFresh(cache.entries, uuid)
      modifies cache
      ensures cache.Valid()
      ensures var d := Decide(req, ruleSets, configMaps);
        outcome == d.outcome
        && (d.put.None? ==> cache.entries == old(cache.entries))
        && (d.put.Some? ==> cache.entries == PutModel(old(cache.entries), d.put.value.instance, RuleSetEntry(uuid, now, d.put.value.rules)))
    {
      var read := Get(ruleSets, req);
      if read.NotFound? {
        return Done;
      }
      if read.ReadFailed? {
        return Errored(read.err);
      }
      var ruleset := read.obj;
      var stop, aggregated := AggregateRules(ruleset.spec.rules, ruleset.namespace, configMaps);
      if stop.Some? {
        return stop.value;
      }
      var instance := ruleset.spec.instance;
      assert UuidUnused(cache.entries, instance, uuid);
      cache.Put(instance, aggregated, uuid, now);
      return Done;
    }
  }
}
