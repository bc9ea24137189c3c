// test/framework/assertions.go: reading a condition out of an unstructured
// object, and the polling assertions built on it. require.Eventually is
// modelled by the sequence of answers the API server gave before the
// deadline: the assertion passes when one of them satisfies the check.
module TestAssertions {
  import opened Wrappers
  import opened Strings
  import opened Values

  /** status.conditions of the object when it is a list (NestedSlice errs or
      reports it missing otherwise). */
  function Conditions(obj: Value): (r: Option<seq<Value>>)
    ensures r.Some? <==> At(obj, ["status", "conditions"]).Some? && At(obj, ["status", "conditions"]).value.List?
  {
    match At(obj, ["status", "conditions"])
    case Some(List(items)) => Some(items)
    case _ => None
  }

  /** A condition element: a map whose "type" and "status" are the given
      strings (a missing key is nil and equals no string). */
  predicate IsCondition(c: Value, condType: string, status: string)
  {
    c.Object? && Field(c, "type") == Some(Str(condType)) && Field(c, "status") == Some(Str(status))
  }

  /** What hasCondition decides. */
  predicate ConditionPresent(obj: Value, condType: string, status: string)
  {
    var conds := Conditions(obj);
    conds.Some? && exists i :: 0 <= i < |conds.value| && IsCondition(conds.value[i], condType, status)
  }

  /** hasCondition: false when status.conditions is missing or not a list;
      elements that are not maps are skipped. */
  method HasCondition(obj: Value, condType: string, status: string) returns (r: bool)
    ensures r <==> ConditionPresent(obj, condType, status)
  {
    var conds := Conditions(obj);
    if conds.None? {
      return false;
    }
    var items := conds.value;
    var i := 0;
    while i < |items|
      invariant 0 <= i <= |items|
      invariant forall j :: 0 <= j < i ==> !IsCondition(items[j], condType, status)
    {
      var c := items[i];
      if !c.Object? {
        i := i + 1;
        continue;
      }
      if Field(c, "type") == Some(Str(condType)) && Field(c, "status") == Some(Str(status)) {
        return true;
      }
      i := i + 1;
    }
    return false;
  }

  /** An object without status.conditions, or whose conditions are not a
      list, has no condition at all. */
  lemma MissingConditionsNeverMatch(obj: Value, condType: string, status: string)
    requires At(obj, ["status", "conditions"]).None? || !At(obj, ["status", "conditions"]).value.List?
    ensures !ConditionPresent(obj, condType, status)
  {
  }

  /** Non-map elements neither match nor hide a later match. */
  lemma NonMapsAreSkipped(obj: Value, junk: Value, condType: string, status: string)
    requires Conditions(obj).Some? && !junk.Object?
    ensures var with := Object(obj.fields["status" := Object(obj.fields["status"].fields["conditions" := List([junk] + Conditions(obj).value)])]);
            ConditionPresent(with, condType, status) <==> ConditionPresent(obj, condType, status)
  {
    var items := Conditions(obj).value;
    var with := Object(obj.fields["status" := Object(obj.fields["status"].fields["conditions" := List([junk] + items)])]);
    assert At(with, ["status", "conditions"]) == Some(List([junk] + items));
    assert Conditions(with) == Some([junk] + items);
    if ConditionPresent(obj, condType, status) {
      var i :| 0 <= i < |items| && IsCondition(items[i], condType, status);
      assert ([junk] + items)[i + 1] == items[i];
    }
    if ConditionPresent(with, condType, status) {
      var i :| 0 <= i < |[junk] + items| && IsCondition(([junk] + items)[i], condType, status);
      assert i > 0;
      assert items[i - 1] == ([junk] + items)[i];
    }
  }

  /** ExpectCondition: some poll got the object and saw the condition. */
  method ExpectCondition(polls: seq<Result<Value>>, condType: string, status: string) returns (passed: bool)
    ensures passed <==>
      exists p :: 0 <= p < |polls| && polls[p].Ok? && ConditionPresent(polls[p].value, condType, status)
  {
    passed := false;
    var p := 0;
    while p < |polls|
      invariant 0 <= p <= |polls|
      invariant forall q :: 0 <= q < p && polls[q].Ok? ==> !ConditionPresent(polls[q].value, condType, status)
    {
      if polls[p].Ok? {
        var ok := HasCondition(polls[p].value, condType, status);
        if ok {
          return true;
        }
      }
      p := p + 1;
    }
  }

  /** ExpectEngineReady: condition Ready=True. */
  method ExpectEngineReady(polls: seq<Result<Value>>) returns (passed: bool)
    ensures passed <==> exists p :: 0 <= p < |polls| && polls[p].Ok? && ConditionPresent(polls[p].value, "Ready", "True")
  {
    passed := ExpectCondition(polls, "Ready", "True");
  }

  /** ExpectEngineDegraded: condition Degraded=True. */
  method ExpectEngineDegraded(polls: seq<Result<Value>>) returns (passed: bool)
    ensures passed <==> exists p :: 0 <= p < |polls| && polls[p].Ok? && ConditionPresent(polls[p].value, "Degraded", "True")
  {
    passed := ExpectCondition(polls, "Degraded", "True");
  }

  /** ExpectGatewayProgrammed: condition Programmed=True. */
  method ExpectGatewayProgrammed(polls: seq<Result<Value>>) returns (passed: bool)
    ensures passed <==> exists p :: 0 <= p < |polls| && polls[p].Ok? && ConditionPresent(polls[p].value, "Programmed", "True")
  {
    passed := ExpectCondition(polls, "Programmed", "True");
  }

  /** ExpectGatewayAccepted: condition Accepted=True. */
  method ExpectGatewayAccepted(polls: seq<Result<Value>>) returns (passed: bool)
    ensures passed <==> exists p :: 0 <= p < |polls| && polls[p].Ok? && ConditionPresent(polls[p].value, "Accepted", "True")
  {
    passed := ExpectCondition(polls, "Accepted", "True");
  }

  /** ExpectWasmPluginExists: some Get succeeded (its error was nil). */
  method ExpectWasmPluginExists(getErrors: seq<Option<string>>) returns (passed: bool)
    ensures passed <==> exists p :: 0 <= p < |getErrors| && getErrors[p].None?
  {
    passed := false;
    var p := 0;
    while p < |getErrors|
      invariant 0 <= p <= |getErrors|
      invariant forall q :: 0 <= q < p ==> getErrors[q].Some?
    {
      if getErrors[p].None? {
        return true;
      }
      p := p + 1;
    }
  }

  /** ExpectResourceGone: some Get failed; any error counts, not only
      NotFound. */
  method ExpectResourceGone(getErrors: seq<Option<string>>) returns (passed: bool)
    ensures passed <==> exists p :: 0 <= p < |getErrors| && getErrors[p].Some?
  {
    passed := false;
    var p := 0;
    while p < |getErrors|
      invariant 0 <= p <= |getErrors|
      invariant forall q :: 0 <= q < p ==> getErrors[q].None?
    {
      if getErrors[p].Some? {
        return true;
      }
      p := p + 1;
    }
  }

  /** ExpectCreateFails: fn must return an error, and its message must
      contain msg. */
  function ExpectCreateFails(msg: string, err: Option<string>): (passed: bool)
    ensures err.None? ==> !passed
    ensures passed ==> |msg| <= |err.value|
  {
    err.Some? && Contains(err.value, msg)
  }

  /** An error whose message embeds msg anywhere passes. */
  lemma ExpectCreateFailsEmbedded(before: string, msg: string, after: string)
    ensures ExpectCreateFails(msg, Some(before + msg + after))
  {
    ContainsMiddle(before, msg, after);
  }

  /** A message longer than the error never passes. */
  lemma ExpectCreateFailsTooLong(msg: string, err: string)
    requires |msg| > |err|
    ensures !ExpectCreateFails(msg, Some(err))
  {
  }

  /** Every create error passes when no particular message is demanded. */
  lemma ExpectCreateFailsEmptyMessage(err: string)
    ensures ExpectCreateFails("", Some(err))
  {
    assert OccursAt(err, "", 0);
  }
}
