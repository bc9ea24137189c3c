// test/utils/logger.go: the event recorders handed to the controllers under
// test. testRecorder drops every event; FakeRecorder keeps them, in call
// order, for the tests to inspect. fmt.Sprintf is not part of this model:
// the formatting function is a parameter of Eventf.
module TestRecorder {
  import opened Values

  datatype RecordedEvent = RecordedEvent(eventType: string, reason: string, action: string, note: string)

  /** Some recorded event has both the type and the reason. */
  predicate Recorded(events: seq<RecordedEvent>, eventType: string, reason: string)
  {
    exists i :: 0 <= i < |events| && events[i].eventType == eventType && events[i].reason == reason
  }

  /** The no-op recorder: it has no state, so Eventf can record nothing. */
  class NoopRecorder {
    constructor ()
    {
    }

    method Eventf(eventType: string, reason: string, action: string, note: string, args: seq<Value>)
    {
    }

    method WithLogger() returns (r: NoopRecorder)
      ensures r == this
    {
      r := this;
    }
  }

  class FakeRecorder {
    var events: seq<RecordedEvent>

    constructor ()
      ensures events == []
    {
      events := [];
    }

    /** Eventf appends exactly one event, with the note formatted with args. */
    method Eventf(eventType: string, reason: string, action: string, note: string, args: seq<Value>,
                  sprintf: (string, seq<Value>) -> string)
      modifies this
      ensures events == old(events) + [RecordedEvent(eventType, reason, action, sprintf(note, args))]
    {
      events := events + [RecordedEvent(eventType, reason, action, sprintf(note, args))];
    }

    method WithLogger() returns (r: FakeRecorder)
      ensures r == this
    {
      r := this;
    }

    /** HasEvent: some recorded event has both the type and the reason. */
    method HasEvent(eventType: string, reason: string) returns (found: bool)
      ensures found <==> Recorded(events, eventType, reason)
    {
      var i := 0;
      while i < |events|
        invariant 0 <= i <= |events|
        invariant forall j :: 0 <= j < i ==> !(events[j].eventType == eventType && events[j].reason == reason)
      {
        if events[i].eventType == eventType && events[i].reason == reason {
          return true;
        }
        i := i + 1;
      }
      return false;
    }
  }

  /** Nothing is ever removed: once recorded, an event stays visible to
      HasEvent whatever is recorded after it. */
  lemma RecordedPersists(events: seq<RecordedEvent>, more: seq<RecordedEvent>, eventType: string, reason: string)
    requires Recorded(events, eventType, reason)
    ensures Recorded(events + more, eventType, reason)
  {
    var i :| 0 <= i < |events| && events[i].eventType == eventType && events[i].reason == reason;
    assert (events + more)[i] == events[i];
  }

  /** An event just recorded is found by its type and reason. */
  lemma RecordedAfterEventf(events: seq<RecordedEvent>, e: RecordedEvent)
    ensures Recorded(events + [e], e.eventType, e.reason)
  {
    assert (events + [e])[|events|] == e;
  }

  /** HasEvent on a recorder that only saw other types or reasons is false. */
  lemma NotRecordedIfAbsent(events: seq<RecordedEvent>, eventType: string, reason: string)
    requires forall i :: 0 <= i < |events| ==> events[i].eventType != eventType || events[i].reason != reason
    ensures !Recorded(events, eventType, reason)
  {
  }
}
