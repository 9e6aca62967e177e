/** The in-memory event log: a list and a counter, the simple specification of the file log. */
module MockEventLog {
  import opened SyTypes
  import opened SyApi
  import Wal

  datatype MockState = MockState(events: seq<SimEvent>, nextEventId: u64) {
    function LastEventId(): EventId {
      if nextEventId > 1 then nextEventId - 1 else 0
    }
  }

  function MockAppend(m: MockState, event: SimEvent): MockState {
    MockState(m.events + [event.(id := m.nextEventId)], WrapNext(m.nextEventId))
  }

  function MockAppendAll(m: MockState, events: seq<SimEvent>): MockState
    decreases |events|
  {
    if events == [] then m else
    MockAppend(MockAppendAll(m, events[..|events| - 1]), events[|events| - 1])
  }

  function MockTruncate(m: MockState, id: EventId): MockState {
    var kept := Wal.UpTo(m.events, id);
    MockState(kept, if kept == [] then 1 else WrapNext(kept[|kept| - 1].id))
  }

  class MockLog {
    var events: seq<SimEvent>
    var nextEventId: u64

    ghost function State(): MockState
      reads this
    {
      MockState(events, nextEventId)
    }

    constructor ()
      ensures State() == MockState([], 1)
    {
      events, nextEventId := [], 1;
    }

    method Append(event: SimEvent) returns (persisted: SimEvent)
      modifies this
      ensures State() == MockAppend(old(State()), event)
      ensures persisted == event.(id := old(nextEventId))
    {
      persisted := event.(id := nextEventId);
      nextEventId := WrapNext(nextEventId);
      events := events + [persisted];
    }

    method AppendAll(batch: seq<SimEvent>) returns (persisted: seq<SimEvent>)
      modifies this
      ensures State() == MockAppendAll(old(State()), batch)
      ensures events == old(events) + persisted
    {
      hide WrapNext;
      persisted := [];
      for i := 0 to |batch|
        invariant State() == MockAppendAll(old(State()), batch[..i])
        invariant events == old(events) + persisted
      {
        assert batch[..i + 1][..i] == batch[..i];
        var e := Append(batch[i]);
        persisted := persisted + [e];
      }
      assert batch[..|batch|] == batch;
    }

    method TruncateTo(id: EventId)
      modifies this
      ensures State() == MockTruncate(old(State()), id)
    {
      events := Wal.UpTo(events, id);
      if events != [] {
        nextEventId := WrapNext(events[|events| - 1].id);
      } else {
        nextEventId := 1;
      }
    }
  }
}
