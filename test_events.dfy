// test/framework/events.go: matching events.k8s.io/v1 events against a
// criterion with wildcards, the one-line summary of a list of events, and
// the point-in-time and polling event assertions. The event list a call to
// the API server returns is a parameter; a poll is one such answer.
module TestEvents {
  import opened Wrappers
  import opened Strings

  datatype Event = Event(eventType: string, reason: string, note: string)

  /** An empty field matches any value. */
  datatype EventMatch = EventMatch(eventType: string, reason: string)

  /** matchesEvent: each non-empty criterion must equal the event's field. */
  predicate MatchesEvent(e: Event, m: EventMatch)
  {
    if m.eventType != "" && e.eventType != m.eventType then false
    else if m.reason != "" && e.reason != m.reason then false
    else true
  }

  /** The criterion is a conjunction of per-field wildcards. */
  lemma MatchesEventIff(e: Event, m: EventMatch)
    ensures MatchesEvent(e, m) <==>
      (m.eventType == "" || e.eventType == m.eventType) && (m.reason == "" || e.reason == m.reason)
  {
  }

  /** EventMatch{} matches every event. */
  lemma EmptyMatchMatchesAll(e: Event)
    ensures MatchesEvent(e, EventMatch("", ""))
  {
  }

  /** The loop inside ExpectEvent's poll: is there a matching event? */
  method AnyMatch(events: seq<Event>, m: EventMatch) returns (found: bool)
    ensures found <==> exists i :: 0 <= i < |events| && MatchesEvent(events[i], m)
  {
    found := false;
    var i := 0;
    while i < |events|
      invariant 0 <= i <= |events|
      invariant forall j :: 0 <= j < i ==> !MatchesEvent(events[j], m)
    {
      if MatchesEvent(events[i], m) {
        found := true;
        return;
      }
      i := i + 1;
    }
  }

  /** ExpectEvent: passes when some poll lists the events without error and
      one of them matches. */
  method ExpectEvent(polls: seq<Result<seq<Event>>>, m: EventMatch) returns (passed: bool)
    ensures passed <==>
      exists p :: 0 <= p < |polls| && polls[p].Ok? && exists i :: 0 <= i < |polls[p].value| && MatchesEvent(polls[p].value[i], m)
  {
    passed := false;
    var p := 0;
    while p < |polls|
      invariant 0 <= p <= |polls|
      invariant forall q :: 0 <= q < p && polls[q].Ok? ==>
        forall i :: 0 <= i < |polls[q].value| ==> !MatchesEvent(polls[q].value[i], m)
    {
      if polls[p].Ok? {
        var found := AnyMatch(polls[p].value, m);
        if found {
          passed := true;
          return;
        }
      }
      p := p + 1;
    }
  }

  // ---------------------------------------------------------------------------
  // summarizeEvents
  // ---------------------------------------------------------------------------

  /** "Type/Reason: Note" for one event. */
  function Part(e: Event): string
  {
    e.eventType + "/" + e.reason + ": " + e.note
  }

  function Parts(events: seq<Event>): (r: seq<string>)
    ensures |r| == |events|
    ensures forall i :: 0 <= i < |events| ==> r[i] == Part(events[i])
  {
    if |events| == 0 then [] else Parts(events[..|events| - 1]) + [Part(events[|events| - 1])]
  }

  /** The summary quoted in ExpectEvent's failure message. */
  function Summary(events: seq<Event>): string
  {
    if |events| == 0 then "none" else Join(Parts(events), "; ")
  }

  /** summarizeEvents collects one part per event, then joins them. */
  method SummarizeEvents(events: seq<Event>) returns (r: string)
    ensures r == Summary(events)
  {
    if |events| == 0 {
      return "none";
    }
    var parts: seq<string> := [];
    var i := 0;
    while i < |events|
      invariant 0 <= i <= |events|
      invariant parts == Parts(events[..i])
    {
      assert events[..i + 1][..i] == events[..i];
      parts := parts + [Part(events[i])];
      i := i + 1;
    }
    assert events[..i] == events;
    r := Join(parts, "; ");
  }

  /** A joined list starts with its first part. */
  lemma JoinStartsWithFirst(parts: seq<string>, sep: string)
    requires |parts| >= 1
    ensures HasPrefix(Join(parts, sep), parts[0])
  {
  }

  /** The summary is "none" exactly when there are no events. */
  lemma SummaryNoneIffEmpty(events: seq<Event>)
    ensures Summary(events) == "none" <==> events == []
  {
    if events != [] {
      var parts := Parts(events);
      JoinStartsWithFirst(parts, "; ");
      var first := Part(events[0]);
      assert first[|events[0].eventType|] == '/';
      assert Summary(events)[|events[0].eventType|] == '/';
    }
  }

  /** The summary lists the parts in event order: it starts with the first
      event's part, and each further event adds "; " and its own part. */
  lemma SummaryAppend(events: seq<Event>, e: Event)
    requires events != []
    ensures Summary(events + [e]) == Summary(events) + "; " + Part(e)
  {
    assert (events + [e])[..|events|] == events;
    JoinAppend(Parts(events), Part(e), "; ");
  }

  lemma SummaryFirst(events: seq<Event>)
    requires events != []
    ensures HasPrefix(Summary(events), Part(events[0]))
  {
    JoinStartsWithFirst(Parts(events), "; ");
  }

  // ---------------------------------------------------------------------------
  // ExpectNoEvent
  // ---------------------------------------------------------------------------

  /** The matching events, in list order. */
  function Matching(events: seq<Event>, m: EventMatch): (r: seq<Event>)
    ensures |r| <= |events|
    ensures forall e :: e in r <==> e in events && MatchesEvent(e, m)
  {
    if |events| == 0 then []
    else
      var rest := Matching(events[..|events| - 1], m);
      var last := events[|events| - 1];
      assert events == events[..|events| - 1] + [last];
      if MatchesEvent(last, m) then rest + [last] else rest
  }

  function UnexpectedMessage(e: Event, namespace: string): string
  {
    "unexpected " + e.eventType + " event with reason " + Quote(e.reason) + " in " + namespace + ": " + e.note
  }

  /** ExpectNoEvent: a failed listing fails the test at once (listFailed);
      otherwise one t.Errorf per matching event, in list order. */
  method ExpectNoEvent(listed: Result<seq<Event>>, namespace: string, m: EventMatch)
    returns (listFailed: bool, errors: seq<string>)
    ensures listFailed <==> listed.Err?
    ensures listed.Err? ==> errors == []
    ensures listed.Ok? ==>
      var bad := Matching(listed.value, m);
      |errors| == |bad| && forall i :: 0 <= i < |bad| ==> errors[i] == UnexpectedMessage(bad[i], namespace)
  {
    errors := [];
    if listed.Err? {
      return true, [];
    }
    listFailed := false;
    var events := listed.value;
    var i := 0;
    while i < |events|
      invariant 0 <= i <= |events|
      invariant errors == UnexpectedMessages(Matching(events[..i], m), namespace)
    {
      MatchingPrefixStep(events, m, i);
      if MatchesEvent(events[i], m) {
        UnexpectedMessagesSnoc(Matching(events[..i], m), events[i], namespace);
        errors := errors + [UnexpectedMessage(events[i], namespace)];
      }
      i := i + 1;
    }
    assert events[..i] == events;
  }

  /** One message per event, in order. */
  function UnexpectedMessages(bad: seq<Event>, namespace: string): (r: seq<string>)
    ensures |r| == |bad| && forall j :: 0 <= j < |bad| ==> r[j] == UnexpectedMessage(bad[j], namespace)
  {
    if |bad| == 0 then [] else UnexpectedMessages(bad[..|bad| - 1], namespace) + [UnexpectedMessage(bad[|bad| - 1], namespace)]
  }

  lemma UnexpectedMessagesSnoc(bad: seq<Event>, e: Event, namespace: string)
    ensures UnexpectedMessages(bad + [e], namespace) == UnexpectedMessages(bad, namespace) + [UnexpectedMessage(e, namespace)]
  {
    assert (bad + [e])[..|bad|] == bad;
  }

  /** The matching events of a prefix one event longer. */
  lemma MatchingPrefixStep(events: seq<Event>, m: EventMatch, i: nat)
    requires i < |events|
    ensures Matching(events[..i + 1], m)
      == Matching(events[..i], m) + (if MatchesEvent(events[i], m) then [events[i]] else [])
  {
    assert events[..i + 1][..i] == events[..i];
  }

  /** ExpectNoEvent reports nothing exactly when no listed event matches.  */
  lemma NoEventIffNoMatch(events: seq<Event>, m: EventMatch)
    ensures Matching(events, m) == [] <==> forall i :: 0 <= i < |events| ==> !MatchesEvent(events[i], m)
  {
    if Matching(events, m) != [] {
      var e := Matching(events, m)[0];
      assert e in Matching(events, m);
    }
  }
}
