// findRuleSetsForConfigMap (internal/controller/ruleset_controller_watch_predicates.go):
// the RuleSets a changed ConfigMap must requeue.
module RuleSetWatch {
  import opened Kube
  import opened Api
  import opened Seqs

  /** The RuleSets a List restricted to one namespace answers, in list order. */
  function ListInNamespace(ruleSets: seq<RuleSet>, namespace: string): (r: seq<RuleSet>)
    ensures forall rs :: rs in r ==> rs in ruleSets && rs.namespace == namespace
  {
    if |ruleSets| == 0 then []
    else (if ruleSets[0].namespace == namespace then [ruleSets[0]] else []) + ListInNamespace(ruleSets[1..], namespace)
  }

  /** Some rule reference of rs names the ConfigMap; its kind is not looked at. */
  predicate ReferencesConfigMap(rs: RuleSet, name: string)
  {
    exists j :: 0 <= j < |rs.spec.rules| && rs.spec.rules[j].name == name
  }

  function KeyOf(rs: RuleSet): NamespacedName
  {
    NamespacedName(rs.namespace, rs.name)
  }

  function KeysOf(ruleSets: seq<RuleSet>): (keys: seq<NamespacedName>)
    ensures |keys| == |ruleSets|
    ensures forall i :: 0 <= i < |ruleSets| ==> keys[i] == KeyOf(ruleSets[i])
  {
    seq(|ruleSets|, i requires 0 <= i < |ruleSets| => KeyOf(ruleSets[i]))
  }

  /** The requests the loop builds from a RuleSet list. */
  function Requests(items: seq<RuleSet>, name: string): (r: seq<NamespacedName>)
    ensures |r| <= |items|
  {
    if |items| == 0 then []
    else (if ReferencesConfigMap(items[0], name) then [KeyOf(items[0])] else []) + Requests(items[1..], name)
  }

  /** A RuleSet's key is requested exactly when some listed RuleSet with that
      key references the ConfigMap. */
  lemma {:induction false} RequestsMembers(items: seq<RuleSet>, name: string, key: NamespacedName)
    ensures key in Requests(items, name) <==>
      exists k :: 0 <= k < |items| && ReferencesConfigMap(items[k], name) && KeyOf(items[k]) == key
  {
    if |items| > 0 {
      RequestsMembers(items[1..], name, key);
      assert forall k :: 0 < k < |items| ==> items[1..][k - 1] == items[k];
      if exists k :: 0 < k < |items| && ReferencesConfigMap(items[k], name) && KeyOf(items[k]) == key {
        var k :| 0 < k < |items| && ReferencesConfigMap(items[k], name) && KeyOf(items[k]) == key;
        assert ReferencesConfigMap(items[1..][k - 1], name) && KeyOf(items[1..][k - 1]) == key;
      }
    }
  }

  /** Requests keep the list order: they are the keys of the list with some left out. */
  lemma {:induction false} RequestsInListOrder(items: seq<RuleSet>, name: string)
    ensures IsSubsequence(Requests(items, name), KeysOf(items))
  {
    if |items| > 0 {
      RequestsInListOrder(items[1..], name);
      assert KeysOf(items)[1..] == KeysOf(items[1..]);
      var rest := Requests(items[1..], name);
      if ReferencesConfigMap(items[0], name) {
        assert Requests(items, name) == [KeyOf(items[0])] + rest;
        assert ([KeyOf(items[0])] + rest)[1..] == rest;
      } else {
        assert Requests(items, name) == rest;
        SubsequenceSkip(rest, KeysOf(items));
      }
    }
  }

  /** A RuleSet is requested at most once, however many of its references
      name the ConfigMap: distinct RuleSets give distinct requests. */
  lemma {:induction false} RequestsDistinct(items: seq<RuleSet>, name: string)
    requires Distinct(KeysOf(items))
    ensures Distinct(Requests(items, name))
  {
    if |items| > 0 {
      assert KeysOf(items[1..]) == KeysOf(items)[1..];
      RequestsDistinct(items[1..], name);
      var rest := Requests(items[1..], name);
      if ReferencesConfigMap(items[0], name) {
        forall x | x in rest
          ensures x != KeyOf(items[0])
        {
          RequestsMembers(items[1..], name, x);
          var k :| 0 <= k < |items[1..]| && ReferencesConfigMap(items[1..][k], name) && KeyOf(items[1..][k]) == x;
          assert KeysOf(items)[k + 1] == x && KeysOf(items)[0] == KeyOf(items[0]);
        }
        var r := [KeyOf(items[0])] + rest;
        forall i, j | 0 <= i < j < |r|
          ensures r[i] != r[j]
        {
          if i == 0 {
            assert r[j] == rest[j - 1] && rest[j - 1] in rest;
          } else {
            assert r[i] == rest[i - 1] && r[j] == rest[j - 1];
          }
        }
      }
    }
  }

  /** Only the ConfigMap's own namespace is listed, so every request names a
      RuleSet in that namespace that references the ConfigMap. */
  lemma RequestsStayInNamespace(ruleSets: seq<RuleSet>, configMap: ConfigMap, key: NamespacedName)
    requires key in Requests(ListInNamespace(ruleSets, configMap.namespace), configMap.name)
    ensures key.namespace == configMap.namespace
    ensures exists rs :: rs in ruleSets && KeyOf(rs) == key && ReferencesConfigMap(rs, configMap.name)
  {
    var listed := ListInNamespace(ruleSets, configMap.namespace);
    RequestsMembers(listed, configMap.name, key);
    var k :| 0 <= k < |listed| && ReferencesConfigMap(listed[k], configMap.name) && KeyOf(listed[k]) == key;
    assert listed[k] in listed;
  }

  lemma RequestsStep(items: seq<RuleSet>, i: int, name: string)
    requires 0 <= i < |items|
    ensures Requests(items[i..], name)
      == (if ReferencesConfigMap(items[i], name) then [KeyOf(items[i])] else []) + Requests(items[i + 1..], name)
  {
    assert items[i..][0] == items[i] && items[i..][1..] == items[i + 1..];
  }

  lemma AppendAssociative<T>(a: seq<T>, b: seq<T>, c: seq<T>)
    ensures (a + b) + c == a + (b + c)
  {
  }

  /** The inner loop: the RuleSet's request is appended at its first rule
      reference that names the ConfigMap, and the loop stops there. */
  method EnqueueIfReferenced(requests: seq<NamespacedName>, ruleSet: RuleSet, name: string)
    returns (enqueued: seq<NamespacedName>)
    ensures enqueued == requests + (if ReferencesConfigMap(ruleSet, name) then [KeyOf(ruleSet)] else [])
  {
    enqueued := requests;
    var j := 0;
    while j < |ruleSet.spec.rules|
      invariant 0 <= j <= |ruleSet.spec.rules|
      invariant forall k :: 0 <= k < j ==> ruleSet.spec.rules[k].name != name
    {
      if ruleSet.spec.rules[j].name == name {
        enqueued := enqueued + [NamespacedName(ruleSet.namespace, ruleSet.name)];
        return;
      }
      j := j + 1;
    }
    assert !ReferencesConfigMap(ruleSet, name);
    assert requests + [] == requests;
  }

  /** findRuleSetsForConfigMap; listFails stands for an error from the List
      call, which yields no requests. */
  method FindRuleSetsForConfigMap(configMap: ConfigMap, ruleSets: seq<RuleSet>, listFails: bool)
    returns (requests: seq<NamespacedName>)
    ensures listFails ==> requests == []
    ensures !listFails ==> requests == Requests(ListInNamespace(ruleSets, configMap.namespace), configMap.name)
  {
    if listFails {
      return [];
    }
    var items := ListInNamespace(ruleSets, configMap.namespace);
    requests := [];
    var i := 0;
    while i < |items|
      invariant 0 <= i <= |items|
      invariant requests + Requests(items[i..], configMap.name) == Requests(items, configMap.name)
    {
      RequestsStep(items, i, configMap.name);
      ghost var before := requests;
      requests := EnqueueIfReferenced(requests, items[i], configMap.name);
      AppendAssociative(before, requests[|before|..], Requests(items[i + 1..], configMap.name));
      i := i + 1;
    }
    assert items[i..] == [];
    assert requests + [] == requests;
  }
}
