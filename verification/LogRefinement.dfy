/** The file log refines the in-memory log: over any sequence of appends, batches, truncations
    and reopenings both answer every query alike. */
module LogRefinement {
  import opened SyTypes
  import opened SyApi
  import opened Wal
  import opened WalLaws
  import opened MockEventLog

  datatype LogOp = AppendOne(event: SimEvent) | AppendMany(events: seq<SimEvent>) | TruncateTo(id: EventId) | Reopen

  /** An operation on the file log: the log after it, and what it returned. */
  function FileStep(c: Codec, l: LogState, op: LogOp): Appended {
    match op
    case AppendOne(e) => WriteEvent(c, l, e)
    case AppendMany(es) => AppendBatch(c, l, es)
    case TruncateTo(id) =>
      var t := TruncateAfter(c, l, id);
      Appended(t.log, if t.error.Some? then Err(t.error.value) else Ok([]))
    case Reopen => Appended(OpenLog(c, l.file, Repair), Ok([]))
  }

  /** The same on the list log, which never fails. */
  function MockStep(m: MockState, op: LogOp): MockState {
    match op
    case AppendOne(e) => MockAppend(m, e)
    case AppendMany(es) => MockAppendAll(m, es)
    case TruncateTo(id) => MockTruncate(m, id)
    case Reopen => m
  }

  /** What the list log returns: the events it pushed. */
  function MockReturn(m: MockState, op: LogOp): seq<SimEvent> {
    match op
    case AppendOne(e) => [e.(id := m.nextEventId)]
    case AppendMany(es) => Numbered(es, m.nextEventId)
    case _ => []
  }

  predicate Contiguous(events: seq<SimEvent>, base: nat) {
    forall i :: 0 <= i < |events| ==> events[i].id == base + i + 1
  }

  predicate FitsAlone(c: Codec, e: SimEvent) {
    |c.encode([e])| <= MAX_PAYLOAD
  }

  /** The file log holds the list log's events, numbered from one, and agrees on all cursors. */
  ghost predicate Refines(c: Codec, l: LogState, m: MockState) {
    && Clean(c, l.Bytes()) && Scan(c, l.Bytes()).events == m.events
    && Contiguous(m.events, 0)
    && l.nextEventId == m.nextEventId == |m.events| + 1
    && l.lastTick == TickOfLast(m.events)
    && l.totalEvents == |m.events|
    && l.readError.None?
    && forall e :: e in m.events ==> FitsAlone(c, e)
  }

  /** Everything a caller can ask of a log. */
  lemma RefinedLogsAnswerAlike(c: Codec, l: LogState, m: MockState, from: EventId)
    requires Refines(c, l, m)
    ensures ReadAll(c, l) == Ok(m.events)
    ensures l.LastEventId() == m.LastEventId() && l.lastTick == TickOfLast(m.events) && l.totalEvents == |m.events|
    ensures After(ReadAll(c, l).value, from) == m.events[if from <= |m.events| then from else |m.events|..]
  {
    AfterDrops(m.events, from, 0);
  }

  // ------------------------------------------------------------------------
  // Numbering
  // ------------------------------------------------------------------------

  lemma {:induction false} NumberedIsContiguous(events: seq<SimEvent>, next: u64)
    requires next + |events| <= U64_MAX
    ensures forall i :: 0 <= i < |events| ==> Numbered(events, next)[i] == events[i].(id := next + i)
    ensures Advanced(next, |events|) == next + |events|
    decreases |events|
  {
    if events == [] {
    } else {
      assert WrapNext(next) == next + 1;
      NumberedIsContiguous(events[1..], next + 1);
    }
  }

  lemma {:induction false} MockAppendsNumbered(m: MockState, events: seq<SimEvent>)
    requires m.nextEventId + |events| <= U64_MAX
    ensures MockAppendAll(m, events)
         == MockState(m.events + Numbered(events, m.nextEventId), (m.nextEventId + |events|) as u64)
    decreases |events|
  {
    hide Numbered, Advanced;
    NumberedIsContiguous(events, m.nextEventId);
    if events == [] {
      NumberedNothing(m.nextEventId);
      assert m.events + [] == m.events;
    } else {
      var front := events[..|events| - 1];
      MockAppendsNumbered(m, front);
      NumberedIsContiguous(front, m.nextEventId);
      assert WrapNext(m.nextEventId + |front|) == m.nextEventId + |events|;
      assert Numbered(events, m.nextEventId)
          == Numbered(front, m.nextEventId) + [events[|front|].(id := m.nextEventId + |front|)];
    }
  }

  lemma {:induction false} UpToTakes(events: seq<SimEvent>, id: EventId, base: nat)
    requires Contiguous(events, base)
    ensures UpTo(events, id)
         == events[..if id < base then 0 else if id - base <= |events| then id - base else |events|]
    decreases |events|
  {
    if events == [] {
    } else {
      assert Contiguous(events[1..], base + 1) by {
        assert forall i :: 0 <= i < |events[1..]| ==> events[1..][i] == events[i + 1];
      }
      UpToTakes(events[1..], id, base + 1);
    }
  }

  lemma {:induction false} AfterDrops(events: seq<SimEvent>, id: EventId, base: nat)
    requires Contiguous(events, base)
    ensures After(events, id)
         == events[if id < base then 0 else if id - base <= |events| then id - base else |events|..]
    decreases |events|
  {
    if events == [] {
    } else {
      assert Contiguous(events[1..], base + 1) by {
        assert forall i :: 0 <= i < |events[1..]| ==> events[1..][i] == events[i + 1];
      }
      AfterDrops(events[1..], id, base + 1);
    }
  }

  // ------------------------------------------------------------------------
  // One operation
  // ------------------------------------------------------------------------

  lemma BatchFits(c: Codec, batch: seq<SimEvent>)
    requires c.Monotone() && EncodeRecord(c, batch).Ok?
    ensures forall e :: e in batch ==> FitsAlone(c, e)
  {
    forall e | e in batch
      ensures FitsAlone(c, e)
    {
      var i :| 0 <= i < |batch| && batch[i] == e;
      assert |c.encode([batch[i]])| <= |c.encode(batch)|;
    }
  }

  lemma ContiguousGrows(a: seq<SimEvent>, b: seq<SimEvent>)
    requires Contiguous(a, 0) && Contiguous(b, |a|)
    ensures Contiguous(a + b, 0)
  {
  }

  /** A batch that encodes, written to a refined log, keeps it refined. */
  lemma AppendRefines(c: Codec, l: LogState, m: MockState, events: seq<SimEvent>)
    requires c.Lawful() && c.Monotone() && Refines(c, l, m)
    requires events != [] && l.nextEventId + |events| <= U64_MAX
    requires EncodeRecord(c, Numbered(events, l.nextEventId)).Ok?
    ensures Refines(c, AppendBatch(c, l, events).log, MockAppendAll(m, events))
  {
    hide Scan, Numbered, Advanced, MockAppendAll, EncodeRecord, FitsAlone, Contiguous;
    var numbered := Numbered(events, l.nextEventId);
    NumberedIsContiguous(events, l.nextEventId);
    MockAppendsNumbered(m, events);
    AppendedRecordScans(c, l.Bytes(), numbered);
    BatchFits(c, numbered);
    NumberedContiguous(events, l.nextEventId);
    ContiguousGrows(m.events, numbered);
  }

  lemma NumberedContiguous(events: seq<SimEvent>, next: u64)
    requires 0 < next && next + |events| <= U64_MAX
    ensures Contiguous(Numbered(events, next), next - 1)
  {
    hide Numbered;
    NumberedIsContiguous(events, next);
  }

  lemma SingletonBatch(c: Codec, l: LogState, m: MockState, e: SimEvent)
    requires l.nextEventId < U64_MAX
    ensures WriteEvent(c, l, e) == AppendBatch(c, l, [e])
    ensures MockAppend(m, e) == MockAppendAll(m, [e])
    ensures Numbered([e], l.nextEventId) == [e.(id := l.nextEventId)]
  {
    hide EncodeRecord;
    NumberedIsContiguous([e], l.nextEventId);
    assert Numbered([e], l.nextEventId) == [e.(id := l.nextEventId)];
    assert [e][..0] == [];
  }

  const EMPTY_LOG := LogState(None, 1, None, 0, None)

  lemma EmptyRefines(c: Codec)
    ensures Refines(c, EMPTY_LOG, MockState([], 1))
  {
  }

  /** Writing back an event that carried the next id already restores it. */
  lemma WriteBackRefines(c: Codec, l: LogState, m: MockState, e: SimEvent)
    requires c.Lawful() && c.Monotone() && Refines(c, l, m)
    requires e.id == l.nextEventId < U64_MAX && FitsAlone(c, e)
    ensures var w := WriteEvent(c, l, e.(id := 0));
      w.result.Ok? && Refines(c, w.log, MockState(m.events + [e], WrapNext(m.nextEventId)))
  {
    hide Scan, Refines;
    RefinedNext(c, l, m);
    var blank := e.(id := 0);
    assert blank.(id := l.nextEventId) == e;
    SingletonBatch(c, l, m, blank);
    AppendRefines(c, l, m, [blank]);
  }

  /** How many leading events fit the record limit on their own. */
  function Fitting(c: Codec, events: seq<SimEvent>): (n: nat)
    ensures n <= |events|
    ensures forall i :: 0 <= i < n ==> FitsAlone(c, events[i])
    ensures n < |events| ==> !FitsAlone(c, events[n])
    decreases |events|
  {
    if events == [] then 0 else
    var n := Fitting(c, events[..|events| - 1]);
    if n == |events| - 1 && FitsAlone(c, events[|events| - 1]) then |events| else n
  }

  /** Writing back an event over the record limit fails and changes nothing. */
  lemma MisfitIsRefused(c: Codec, l: LogState, e: SimEvent)
    requires e.id == l.nextEventId && !FitsAlone(c, e)
    ensures WriteEvent(c, l, e.(id := 0)) == Appended(l, Err(PersistenceError))
  {
    assert e.(id := 0).(id := l.nextEventId) == e;
  }

  /** One more event: rewritten and counted only if all before it were. */
  lemma RewriteNext(c: Codec, events: seq<SimEvent>)
    requires events != []
    ensures var front, last := events[..|events| - 1], events[|events| - 1];
      var before, n := Rewrite(c, EMPTY_LOG, front), Fitting(c, front);
      var write := WriteEvent(c, before.log, last.(id := 0));
      && Rewrite(c, EMPTY_LOG, events) == (if before.error.Some? then before else
           Truncated(write.log, if write.result.Err? then Some(write.result.error) else None))
      && Fitting(c, events) == if n == |front| && FitsAlone(c, last) then |events| else n
  {
    hide WriteEvent, FitsAlone;
  }

  /** Rewriting events numbered from one restores the ids of those before the first that does not
      fit the record limit, where it stops with an error. */
  lemma {:induction false} RewriteStopsAtMisfit(c: Codec, events: seq<SimEvent>)
    requires c.Lawful() && c.Monotone() && Contiguous(events, 0) && |events| < U64_MAX
    ensures var t := Rewrite(c, EMPTY_LOG, events); var n := Fitting(c, events);
      && Refines(c, t.log, MockState(events[..n], (n + 1) as u64))
      && t.error == if n == |events| then None else Some(PersistenceError)
    decreases |events|
  {
    hide WriteEvent, Refines, FitsAlone, Codec.Lawful, Codec.Monotone;
    if events == [] {
      EmptyRefines(c);
    } else {
      var front, last := events[..|events| - 1], events[|events| - 1];
      RewriteStopsAtMisfit(c, front);
      RewriteNext(c, events);
      hide Rewrite, Fitting;
      var n := Fitting(c, front);
      assert front[..n] == events[..n];
      if n == |front| {
        assert front[..n] == front;
        var l, m := Rewrite(c, EMPTY_LOG, front).log, MockState(front, |events| as u64);
        RefinedNext(c, l, m);
        if FitsAlone(c, last) {
          WriteBackRefines(c, l, m, last);
          assert front + [last] == events == events[..|events|];
        } else {
          MisfitIsRefused(c, l, last);
        }
      }
    }
  }

  /** Rewriting events that were numbered from one restores their ids. */
  lemma RewriteRestores(c: Codec, events: seq<SimEvent>)
    requires c.Lawful() && c.Monotone() && Contiguous(events, 0) && |events| < U64_MAX
    requires forall e :: e in events ==> FitsAlone(c, e)
    ensures var t := Rewrite(c, EMPTY_LOG, events);
      t.error.None? && Refines(c, t.log, MockState(events, (|events| + 1) as u64))
  {
    hide Rewrite, Refines, FitsAlone;
    RewriteStopsAtMisfit(c, events);
    assert events[..|events|] == events;
  }

  lemma RefinedNext(c: Codec, l: LogState, m: MockState)
    requires Refines(c, l, m)
    ensures l.nextEventId == m.nextEventId == |m.events| + 1
  {
  }

  lemma KeptIsPrefix(c: Codec, events: seq<SimEvent>, kept: seq<SimEvent>)
    requires kept <= events && Contiguous(events, 0) && forall e :: e in events ==> FitsAlone(c, e)
    ensures Contiguous(kept, 0) && forall e :: e in kept ==> FitsAlone(c, e)
  {
  }

  /** Truncation of a contiguous log never fails and keeps the original ids. */
  lemma TruncateRefines(c: Codec, l: LogState, m: MockState, id: EventId)
    requires c.Lawful() && c.Monotone() && Refines(c, l, m)
    ensures var t := TruncateAfter(c, l, id);
      t.error.None? && Refines(c, t.log, MockTruncate(m, id))
      && MockTruncate(m, id).events == m.events[..if id <= |m.events| then id else |m.events|]
  {
    hide Scan, Rewrite, UpTo, FitsAlone;
    UpToTakes(m.events, id, 0);
    var kept := UpTo(m.events, id);
    KeptIsPrefix(c, m.events, kept);
    RewriteRestores(c, kept);
  }

  lemma {:induction false} RewriteIgnoresIds(c: Codec, l: LogState, a: seq<SimEvent>, b: seq<SimEvent>)
    requires |a| == |b| && forall i :: 0 <= i < |a| ==> a[i].(id := 0) == b[i].(id := 0)
    ensures Rewrite(c, l, a) == Rewrite(c, l, b)
    decreases |a|
  {
    hide WriteEvent;
    if a == [] {
    } else {
      RewriteIgnoresIds(c, l, a[..|a| - 1], b[..|b| - 1]);
    }
  }

  /** Truncation of any log that opened cleanly numbers what it keeps from one again, up to the
      first event that then exceeds the record limit, where it fails with the old file gone. So it
      succeeds exactly when all kept events fit, and keeps their ids exactly when moreover they
      were numbered from one already. */
  lemma TruncationKeepsIdsIffContiguous(c: Codec, l: LogState, id: EventId)
    requires c.Lawful() && c.Monotone() && l.readError.None?
    requires |UpTo(Scan(c, l.Bytes()).events, id)| < U64_MAX
    ensures var kept := UpTo(Scan(c, l.Bytes()).events, id); var t := TruncateAfter(c, l, id);
      var n := Fitting(c, Numbered(kept, 1));
      && ReadAll(c, t.log) == Ok(Numbered(kept, 1)[..n])
      && t.error == (if n == |kept| then None else Some(PersistenceError))
      && (ReadAll(c, t.log) == Ok(kept) <==> n == |kept| && Contiguous(kept, 0))
  {
    hide Scan, Rewrite, UpTo, Numbered, Fitting, FitsAlone;
    var kept := UpTo(Scan(c, l.Bytes()).events, id);
    var renumbered := Numbered(kept, 1);
    var n := Fitting(c, renumbered);
    NumberedIsContiguous(kept, 1);
    NumberedContiguous(kept, 1);
    RewriteIgnoresIds(c, EMPTY_LOG, kept, renumbered);
    RewriteStopsAtMisfit(c, renumbered);
    assert renumbered[..|kept|] == renumbered;
    if Contiguous(kept, 0) {
      assert forall i :: 0 <= i < |kept| ==> renumbered[i] == kept[i];
      assert renumbered == kept;
    }
  }

  lemma ReopenRefines(c: Codec, l: LogState, m: MockState)
    requires Refines(c, l, m)
    ensures OpenLog(c, l.file, Repair) == l
  {
    hide Scan;
    if l.file.Some? {
      assert l.file.value[..|l.file.value|] == l.file.value;
    }
  }

  /** The counter has room and every appended payload is within the record limit. */
  ghost predicate Admissible(c: Codec, l: LogState, op: LogOp) {
    match op
    case AppendOne(_) => l.nextEventId < U64_MAX && FileStep(c, l, op).result.Ok?
    case AppendMany(es) => l.nextEventId + |es| <= U64_MAX && FileStep(c, l, op).result.Ok?
    case _ => true
  }

  lemma StepRefines(c: Codec, l: LogState, m: MockState, op: LogOp)
    requires c.Lawful() && c.Monotone() && Refines(c, l, m) && Admissible(c, l, op)
    ensures FileStep(c, l, op).result == Ok(MockReturn(m, op))
    ensures Refines(c, FileStep(c, l, op).log, MockStep(m, op))
  {
    hide Refines, Rewrite, Scan, Numbered, EncodeRecord;
    RefinedNext(c, l, m);
    match op {
      case AppendOne(e) =>
        SingletonBatch(c, l, m, e);
        AppendRefines(c, l, m, [e]);
      case AppendMany(es) =>
        if es == [] {
          NumberedNothing(l.nextEventId);
        } else {
          AppendRefines(c, l, m, es);
        }
      case TruncateTo(id) => TruncateRefines(c, l, m, id);
      case Reopen => ReopenRefines(c, l, m);
    }
  }

  // ------------------------------------------------------------------------
  // Whole sequences
  // ------------------------------------------------------------------------

  function FileRun(c: Codec, ops: seq<LogOp>): LogState
    decreases |ops|
  {
    if ops == [] then EMPTY_LOG else FileStep(c, FileRun(c, ops[..|ops| - 1]), ops[|ops| - 1]).log
  }

  function MockRun(ops: seq<LogOp>): MockState
    decreases |ops|
  {
    if ops == [] then MockState([], 1) else MockStep(MockRun(ops[..|ops| - 1]), ops[|ops| - 1])
  }

  ghost predicate AllAdmissible(c: Codec, ops: seq<LogOp>) {
    forall i :: 0 <= i < |ops| ==> Admissible(c, FileRun(c, ops[..i]), ops[i])
  }

  /** Main result: from a fresh log, any sequence of operations whose appends fit leaves the file
      log refining the list log, with equal return values along the way. */
  lemma {:induction false} FileLogRefinesMock(c: Codec, ops: seq<LogOp>)
    requires c.Lawful() && c.Monotone() && AllAdmissible(c, ops)
    ensures Refines(c, FileRun(c, ops), MockRun(ops))
    ensures forall i :: 0 <= i < |ops| ==>
      FileStep(c, FileRun(c, ops[..i]), ops[i]).result == Ok(MockReturn(MockRun(ops[..i]), ops[i]))
    decreases |ops|
  {
    hide Refines, FileStep, MockStep, MockReturn, Admissible;
    if ops == [] {
      EmptyRefines(c);
    } else {
      var front := ops[..|ops| - 1];
      assert forall i :: 0 <= i <= |front| ==> front[..i] == ops[..i];
      FileLogRefinesMock(c, front);
      StepRefines(c, FileRun(c, front), MockRun(front), ops[|ops| - 1]);
    }
  }
}
