// tools/cmd/github_issue_manager/triage.go: the triage label rules. Go's nil
// and empty slices are both the empty sequence.
module Triage {
  import opened Wrappers
  import opened Strings
  import opened Seqs

  const TriagePrefix: string := "triage/"
  const Accepted: string := "triage/accepted"
  const NeedsTriage: string := "triage/needs-triage"
  const Declined: string := "triage/declined"

  /** A label under triage/ other than the given one. */
  predicate IsOtherTriage(l: string, except: string)
  {
    HasPrefix(l, TriagePrefix) && l != except
  }

  function OtherTriage(except: string): string -> bool
  {
    l => IsOtherTriage(l, except)
  }

  // ---------------------------------------------------------------------------
  // contains and filter
  // ---------------------------------------------------------------------------

  /** The elements of ss that fn keeps, in order. */
  function Filtered(ss: seq<string>, fn: string -> bool): (out: seq<string>)
    ensures |out| <= |ss|
  {
    if |ss| == 0 then [] else (if fn(ss[0]) then [ss[0]] else []) + Filtered(ss[1..], fn)
  }

  lemma {:induction false} FilteredMembers(ss: seq<string>, fn: string -> bool, l: string)
    ensures l in Filtered(ss, fn) <==> l in ss && fn(l)
  {
    if |ss| > 0 {
      FilteredMembers(ss[1..], fn, l);
      assert ss == [ss[0]] + ss[1..];
    }
  }

  /** filter keeps the input order: its output is a subsequence of the input. */
  lemma {:induction false} FilteredInOrder(ss: seq<string>, fn: string -> bool)
    ensures IsSubsequence(Filtered(ss, fn), ss)
  {
    if |ss| > 0 {
      FilteredInOrder(ss[1..], fn);
      var rest := Filtered(ss[1..], fn);
      if fn(ss[0]) {
        assert Filtered(ss, fn) == [ss[0]] + rest;
        assert ([ss[0]] + rest)[1..] == rest;
      } else {
        assert Filtered(ss, fn) == rest;
        SubsequenceSkip(rest, ss);
      }
    }
  }

  lemma {:induction false} FilteredDistinct(ss: seq<string>, fn: string -> bool)
    requires Distinct(ss)
    ensures Distinct(Filtered(ss, fn))
  {
    if |ss| > 0 {
      FilteredDistinct(ss[1..], fn);
      var rest := Filtered(ss[1..], fn);
      if fn(ss[0]) {
        FilteredMembers(ss[1..], fn, ss[0]);
        assert ss[0] !in ss[1..];
        var r := [ss[0]] + rest;
        forall i, j | 0 <= i < j < |r|
          ensures r[i] != r[j]
        {
          if i == 0 {
            assert r[j] == rest[j - 1] && rest[j - 1] in rest;
          } else {
            assert r[i] == rest[i - 1] && r[j] == rest[j - 1];
          }
        }
      }
    }
  }

  lemma FilteredStep(ss: seq<string>, i: int, fn: string -> bool)
    requires 0 <= i < |ss|
    ensures Filtered(ss[i..], fn) == (if fn(ss[i]) then [ss[i]] else []) + Filtered(ss[i + 1..], fn)
  {
    assert ss[i..][0] == ss[i] && ss[i..][1..] == ss[i + 1..];
  }

  /** contains. */
  method Contains(ss: seq<string>, s: string) returns (found: bool)
    ensures found <==> s in ss
  {
    var i := 0;
    while i < |ss|
      invariant 0 <= i <= |ss|
      invariant forall k :: 0 <= k < i ==> ss[k] != s
    {
      if ss[i] == s {
        return true;
      }
      i := i + 1;
    }
    return false;
  }

  /** filter. */
  method Filter(ss: seq<string>, fn: string -> bool) returns (out: seq<string>)
    ensures out == Filtered(ss, fn)
  {
    out := [];
    var i := 0;
    while i < |ss|
      invariant 0 <= i <= |ss|
      invariant out + Filtered(ss[i..], fn) == Filtered(ss, fn)
    {
      FilteredStep(ss, i, fn);
      if fn(ss[i]) {
        AppendSingle(out, ss[i], Filtered(ss[i + 1..], fn));
        out := out + [ss[i]];
      }
      i := i + 1;
    }
    assert ss[i..] == [];
  }

  lemma AppendSingle(a: seq<string>, x: string, b: seq<string>)
    ensures a + ([x] + b) == (a + [x]) + b
  {
  }

  /** The loop both rules share: every label under triage/ other than except,
      in input order. */
  method CollectOtherTriage(labels: seq<string>, except: string) returns (removed: seq<string>)
    ensures removed == Filtered(labels, OtherTriage(except))
  {
    removed := [];
    var i := 0;
    while i < |labels|
      invariant 0 <= i <= |labels|
      invariant removed + Filtered(labels[i..], OtherTriage(except)) == Filtered(labels, OtherTriage(except))
    {
      FilteredStep(labels, i, OtherTriage(except));
      var l := labels[i];
      if HasPrefix(l, TriagePrefix) && l != except {
        AppendSingle(removed, l, Filtered(labels[i + 1..], OtherTriage(except)));
        removed := removed + [l];
      }
      i := i + 1;
    }
    assert labels[i..] == [];
  }

  // ---------------------------------------------------------------------------
  // ComputeLabelUpdates
  // ---------------------------------------------------------------------------

  datatype TriageResult = TriageResult(labelsToAdd: seq<string>, labelsToRemove: seq<string>)

  /** The label changes for an issue, as the rules in ComputeLabelUpdates state them. */
  function LabelUpdates(labels: seq<string>, hasMilestone: bool): TriageResult
  {
    if !hasMilestone then
      var dropAccepted := if Accepted in labels then [Accepted] else [];
      var remaining := Filtered(labels, OtherTriage(Accepted));
      if |remaining| == 0 then TriageResult([NeedsTriage], dropAccepted)
      else if NeedsTriage in labels && |remaining| > 1 then TriageResult([], dropAccepted + [NeedsTriage])
      else TriageResult([], dropAccepted)
    else
      TriageResult(if Accepted in labels then [] else [Accepted], Filtered(labels, OtherTriage(Accepted)))
  }

  method ComputeLabelUpdates(labels: seq<string>, hasMilestone: bool) returns (result: TriageResult)
    ensures result == LabelUpdates(labels, hasMilestone)
  {
    result := TriageResult([], []);
    if !hasMilestone {
      var hasAccepted := Contains(labels, Accepted);
      if hasAccepted {
        result := result.(labelsToRemove := result.labelsToRemove + [Accepted]);
      }
      var remaining := Filter(labels, OtherTriage(Accepted));
      var hasNeedsTriage := Contains(labels, NeedsTriage);
      if |remaining| == 0 {
        result := result.(labelsToAdd := result.labelsToAdd + [NeedsTriage]);
      } else if hasNeedsTriage && |remaining| > 1 {
        result := result.(labelsToRemove := result.labelsToRemove + [NeedsTriage]);
      }
    } else {
      var hasAccepted := Contains(labels, Accepted);
      if !hasAccepted {
        result := result.(labelsToAdd := result.labelsToAdd + [Accepted]);
      }
      var removed := CollectOtherTriage(labels, Accepted);
      result := result.(labelsToRemove := result.labelsToRemove + removed);
    }
  }

  /** Without a milestone: triage/accepted is removed exactly when present,
      and it is the first removal. */
  lemma NoMilestoneDropsAccepted(labels: seq<string>)
    ensures var r := LabelUpdates(labels, false);
      (Accepted in r.labelsToRemove <==> Accepted in labels)
      && (Accepted in labels ==> r.labelsToRemove[0] == Accepted)
  {
  }

  /** Without a milestone: needs-triage is added, and it is the only addition,
      exactly when no triage label other than accepted is present. */
  lemma {:induction false} NoMilestoneAddsNeedsTriage(labels: seq<string>)
    ensures var r := LabelUpdates(labels, false);
      (r.labelsToAdd == [NeedsTriage] <==> forall l :: l in labels ==> !IsOtherTriage(l, Accepted))
      && (r.labelsToAdd == [] || r.labelsToAdd == [NeedsTriage])
  {
    var remaining := Filtered(labels, OtherTriage(Accepted));
    if remaining != [] {
      FilteredMembers(labels, OtherTriage(Accepted), remaining[0]);
    } else {
      forall l | l in labels
        ensures !IsOtherTriage(l, Accepted)
      {
        FilteredMembers(labels, OtherTriage(Accepted), l);
      }
    }
  }

  /** Without a milestone, on an issue whose labels are distinct:
      needs-triage is removed exactly when it sits beside another triage
      label that is not accepted. */
  lemma NoMilestoneDropsNeedsTriage(labels: seq<string>)
    requires Distinct(labels)
    ensures NeedsTriage in LabelUpdates(labels, false).labelsToRemove <==>
      NeedsTriage in labels && exists l :: l in labels && l != NeedsTriage && IsOtherTriage(l, Accepted)
  {
    var fn := OtherTriage(Accepted);
    var remaining := Filtered(labels, fn);
    if NeedsTriage in labels {
      FilteredMembers(labels, fn, NeedsTriage);
      if |remaining| > 1 {
        FilteredDistinct(labels, fn);
        var other := if remaining[0] != NeedsTriage then remaining[0] else remaining[1];
        assert other in remaining && other != NeedsTriage;
        FilteredMembers(labels, fn, other);
      }
      if exists l :: l in labels && l != NeedsTriage && IsOtherTriage(l, Accepted) {
        var l :| l in labels && l != NeedsTriage && IsOtherTriage(l, Accepted);
        FilteredMembers(labels, fn, l);
      }
    }
  }

  /** Without a milestone, a lone triage label other than accepted and
      needs-triage is left alone and nothing else changes. */
  lemma LoneTriageLabelKept(labels: seq<string>, l: string)
    requires l in labels && HasPrefix(l, TriagePrefix) && l != Accepted && l != NeedsTriage
    requires forall x :: x in labels && HasPrefix(x, TriagePrefix) ==> x == l
    ensures LabelUpdates(labels, false) == TriageResult([], [])
  {
    FilteredMembers(labels, OtherTriage(Accepted), l);
  }

  /** With a milestone: accepted is added exactly when absent, and every other
      triage label is removed, in input order. */
  lemma {:induction false} MilestoneAccepts(labels: seq<string>)
    ensures var r := LabelUpdates(labels, true);
      (r.labelsToAdd == [Accepted] <==> Accepted !in labels)
      && (Accepted in labels ==> r.labelsToAdd == [])
      && IsSubsequence(r.labelsToRemove, labels)
      && (forall l :: l in r.labelsToRemove <==> l in labels && IsOtherTriage(l, Accepted))
  {
    FilteredInOrder(labels, OtherTriage(Accepted));
    forall l ensures l in Filtered(labels, OtherTriage(Accepted)) <==> l in labels && IsOtherTriage(l, Accepted) {
      FilteredMembers(labels, OtherTriage(Accepted), l);
    }
  }

  /** No label is both added and removed, and every label touched is a triage label. */
  lemma {:induction false} UpdatesDisjointAndTriageOnly(labels: seq<string>, hasMilestone: bool)
    ensures var r := LabelUpdates(labels, hasMilestone);
      (forall l :: l in r.labelsToAdd ==> l !in r.labelsToRemove)
      && (forall l :: l in r.labelsToAdd + r.labelsToRemove ==> HasPrefix(l, TriagePrefix))
  {
    var r := LabelUpdates(labels, hasMilestone);
    forall l | l in Filtered(labels, OtherTriage(Accepted))
      ensures IsOtherTriage(l, Accepted)
    {
      FilteredMembers(labels, OtherTriage(Accepted), l);
    }
    if !hasMilestone {
      var remaining := Filtered(labels, OtherTriage(Accepted));
      if |remaining| == 0 {
        assert r.labelsToAdd == [NeedsTriage];
        assert forall l :: l in r.labelsToRemove ==> l == Accepted;
      }
    }
  }

  // ---------------------------------------------------------------------------
  // ComputeDeclined
  // ---------------------------------------------------------------------------

  datatype DeclinedResult = DeclinedResult(labelsToRemove: seq<string>, removeMilestone: bool, closeIssue: bool)

  /** The changes for a declined issue; None (nil) when it is not declined. */
  function DeclinedChanges(labels: seq<string>, hasMilestone: bool, state: string): Option<DeclinedResult>
  {
    if Declined !in labels then None
    else Some(DeclinedResult(Filtered(labels, OtherTriage(Declined)), hasMilestone, state != "closed"))
  }

  method ComputeDeclined(labels: seq<string>, hasMilestone: bool, state: string) returns (result: Option<DeclinedResult>)
    ensures result == DeclinedChanges(labels, hasMilestone, state)
  {
    var declined := Contains(labels, Declined);
    if !declined {
      return None;
    }
    var removed := CollectOtherTriage(labels, Declined);
    var r := DeclinedResult(removed, hasMilestone, state != "closed");
    return Some(r);
  }

  /** None exactly when triage/declined is absent; otherwise the milestone is
      dropped if present, an issue not already closed is closed, and every
      other triage label is removed, in input order, never declined itself. */
  lemma {:induction false} DeclinedFacts(labels: seq<string>, hasMilestone: bool, state: string)
    ensures var d := DeclinedChanges(labels, hasMilestone, state);
      (d.None? <==> Declined !in labels)
      && (d.Some? ==>
        d.value.removeMilestone == hasMilestone
        && (d.value.closeIssue <==> state != "closed")
        && IsSubsequence(d.value.labelsToRemove, labels)
        && Declined !in d.value.labelsToRemove
        && (forall l :: l in d.value.labelsToRemove <==> l in labels && IsOtherTriage(l, Declined)))
  {
    FilteredInOrder(labels, OtherTriage(Declined));
    forall l ensures l in Filtered(labels, OtherTriage(Declined)) <==> l in labels && IsOtherTriage(l, Declined) {
      FilteredMembers(labels, OtherTriage(Declined), l);
    }
  }
}
