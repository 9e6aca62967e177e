/** The write-ahead log: record format, scan, repair, append and rewrite, first as functions on
    bytes, then as the log object that keeps cursors in memory beside a file. */
module Wal {
  import opened SyTypes
  import opened SyApi
  import opened LittleEndian

  const WAL_MAGIC: u32 := 0x57414C31
  const WAL_VERSION: nat := 1
  const HEADER: nat := 26
  const MAX_PAYLOAD: nat := 0x100_0000

  /** The checksum and the JSON payload codec, about which only the round trip is known. */
  datatype Codec = Codec(
    crc: seq<byte> -> u32,
    encode: seq<SimEvent> -> seq<byte>,
    decode: seq<byte> -> Option<seq<SimEvent>>)
  {
    ghost predicate Lawful() {
      forall es :: decode(encode(es)) == Some(es)
    }

    /** A one-event batch serializes no longer than any batch holding that event. */
    ghost predicate Monotone() {
      forall es, i :: 0 <= i < |es| ==> |encode([es[i]])| <= |encode(es)|
    }
  }

  /** What `compute_crc` hashes: the header fields re-encoded, then the payload. */
  function Body(length: nat, id: nat, tick: nat, payload: seq<byte>): seq<byte> {
    ToLE(WAL_MAGIC, 4) + ToLE(WAL_VERSION, 2) + ToLE(length, 4) + ToLE(id, 8) + ToLE(tick, 8) + payload
  }

  /** `encode_event_record`. */
  function EncodeRecord(c: Codec, events: seq<SimEvent>): Result<seq<byte>, SimError> {
    if events == [] then Err(PersistenceError) else
    var last := events[|events| - 1];
    var payload := c.encode(events);
    if |payload| > MAX_PAYLOAD then Err(PersistenceError) else
    var body := Body(|payload|, last.id, last.tick, payload);
    Ok(body + ToLE(c.crc(body), 4))
  }

  /** A decoded record: its events and its size in bytes. */
  datatype Record = Record(events: seq<SimEvent>, size: nat)

  /** `read_record_at`, on the bytes from the offset to the end of the file. */
  function ParseRecord(c: Codec, t: seq<byte>): (r: Result<Record, SimError>)
    ensures r.Ok? ==> HEADER + 4 <= r.value.size <= |t| && r.value.events != []
  {
    if |t| < 4 then Err(PersistenceError)
    else if FromLE(t[..4]) != WAL_MAGIC then Err(CorruptedState)
    else if |t| < 6 then Err(PersistenceError)
    else if FromLE(t[4..6]) != WAL_VERSION then Err(CorruptedState)
    else if |t| < HEADER then Err(PersistenceError)
    else
      var length, id, tick := FromLE(t[6..10]), FromLE(t[10..18]), FromLE(t[18..26]);
      if length > MAX_PAYLOAD then Err(CorruptedState)
      else if length + 4 > |t| - HEADER then Err(PersistenceError)
      else ParsePayload(c, length, id, tick, t[HEADER..HEADER + length],
                        FromLE(t[HEADER + length..HEADER + length + 4]))
  }

  function ParsePayload(c: Codec, length: nat, id: nat, tick: nat, payload: seq<byte>, stored: nat)
    : (r: Result<Record, SimError>)
    ensures r.Ok? ==> r.value.size == HEADER + length + 4 && r.value.events != []
  {
    if stored != c.crc(Body(length, id, tick, payload)) then Err(CorruptedState) else
    match c.decode(payload)
    case None => Err(CorruptedState)
    case Some(events) =>
      if events == [] then Err(CorruptedState)
      else if events[|events| - 1].id != id || events[|events| - 1].tick != tick then Err(CorruptedState)
      else Ok(Record(events, HEADER + length + 4))
  }

  /** The record that starts at an offset of a file. */
  function RecordAt(c: Codec, f: seq<byte>, off: nat): (r: Result<Record, SimError>)
    requires off <= |f|
    ensures r.Ok? ==> off < off + r.value.size <= |f| && r.value.events != []
  {
    ParseRecord(c, f[off..])
  }

  /** What a scan finds: the events of the valid prefix, its length, and why it stopped short. */
  datatype Scanned = Scanned(events: seq<SimEvent>, valid: nat, error: Option<SimError>)

  function Scan(c: Codec, t: seq<byte>): (s: Scanned)
    ensures s.valid <= |t|
    ensures s.error.None? <==> s.valid == |t|
    decreases |t|
  {
    if t == [] then Scanned([], 0, None) else
    match ParseRecord(c, t)
    case Err(e) => Scanned([], 0, Some(e))
    case Ok(r) =>
      var rest := Scan(c, t[r.size..]);
      Scanned(r.events + rest.events, r.size + rest.valid, rest.error)
  }

  lemma ScanFrom(c: Codec, f: seq<byte>, off: nat)
    requires off < |f|
    ensures match ParseRecord(c, f[off..])
      case Err(e) => Scan(c, f[off..]) == Scanned([], 0, Some(e))
      case Ok(r) =>
        off + r.size <= |f|
        && var rest := Scan(c, f[off + r.size..]);
           Scan(c, f[off..]) == Scanned(r.events + rest.events, r.size + rest.valid, rest.error)
  {
    hide ParseRecord;
    if ParseRecord(c, f[off..]).Ok? {
      var size := ParseRecord(c, f[off..]).value.size;
      assert f[off..][size..] == f[off + size..];
    }
  }

  /** A scan resumed at `off` after finding `seen`. */
  function Resumed(c: Codec, f: seq<byte>, off: nat, seen: seq<SimEvent>): Scanned
    requires off <= |f|
  {
    var rest := Scan(c, f[off..]);
    Scanned(seen + rest.events, off + rest.valid, rest.error)
  }

  lemma ResumeStart(c: Codec, f: seq<byte>)
    ensures Resumed(c, f, 0, []) == Scan(c, f)
  {
    assert f[0..] == f;
  }

  lemma ResumeStep(c: Codec, f: seq<byte>, off: nat, seen: seq<SimEvent>)
    requires off < |f|
    ensures match RecordAt(c, f, off)
      case Err(e) => Resumed(c, f, off, seen) == Scanned(seen, off, Some(e))
      case Ok(r) => off + r.size <= |f| && Resumed(c, f, off, seen) == Resumed(c, f, off + r.size, seen + r.events)
  {
    hide Scan, ParseRecord;
    ScanFrom(c, f, off);
    match ParseRecord(c, f[off..]) {
      case Err(e) => assert seen + [] == seen;
      case Ok(r) =>
        var rest := Scan(c, f[off + r.size..]);
        assert seen + (r.events + rest.events) == seen + r.events + rest.events;
    }
  }

  lemma ResumeEnd(c: Codec, f: seq<byte>, seen: seq<SimEvent>)
    ensures Resumed(c, f, |f|, seen) == Scanned(seen, |f|, None)
  {
    assert f[|f|..] == [];
    assert seen + [] == seen;
  }

  lemma ScanNothing(c: Codec)
    ensures Scan(c, []) == Scanned([], 0, None)
  {
  }

  datatype OpenMode = Repair | ReadOnly

  /** A log: the file (absent until first written) and the cursors kept in memory. */
  datatype LogState = LogState(
    file: Option<seq<byte>>,
    nextEventId: u64,
    lastTick: Option<Tick>,
    totalEvents: nat,
    readError: Option<SimError>)
  {
    function Bytes(): seq<byte> {
      FileBytes(file)
    }

    function LastEventId(): EventId {
      if nextEventId > 1 then nextEventId - 1 else 0
    }
  }

  function FileBytes(file: Option<seq<byte>>): seq<byte> {
    if file.None? then [] else file.value
  }

  function NextAfter(events: seq<SimEvent>): u64 {
    if events == [] then 1 else WrapNext(events[|events| - 1].id)
  }

  function TickOfLast(events: seq<SimEvent>): Option<Tick> {
    if events == [] then None else Some(events[|events| - 1].tick)
  }

  /** `open`: scan, then cut off the invalid tail or remember why it is invalid. */
  function OpenLog(c: Codec, file: Option<seq<byte>>, mode: OpenMode): LogState {
    var scan := Scan(c, FileBytes(file));
    LogState(
      if mode == Repair && file.Some? then Some(file.value[..scan.valid]) else file,
      NextAfter(scan.events), TickOfLast(scan.events), |scan.events|,
      if mode == ReadOnly then scan.error else None)
  }

  /** `read_all_events`. */
  function ReadAll(c: Codec, l: LogState): Result<seq<SimEvent>, SimError> {
    if l.readError.Some? then Err(l.readError.value) else Ok(Scan(c, l.Bytes()).events)
  }

  /** Ids assigned on append, from `next` upwards. */
  function Numbered(events: seq<SimEvent>, next: u64): (numbered: seq<SimEvent>)
    ensures |numbered| == |events|
  {
    if events == [] then [] else [events[0].(id := next)] + Numbered(events[1..], WrapNext(next))
  }

  lemma NumberedFrom(events: seq<SimEvent>, i: nat, next: u64)
    requires i < |events|
    ensures Numbered(events[i..], next) == [events[i].(id := next)] + Numbered(events[i + 1..], WrapNext(next))
  {
    assert events[i..][1..] == events[i + 1..];
  }

  function Advanced(next: u64, n: nat): u64
    decreases n
  {
    if n == 0 then next else Advanced(WrapNext(next), n - 1)
  }

  lemma AdvancedSteps()
    ensures forall next: u64 {:trigger Advanced(next, 0)} :: Advanced(next, 0) == next
    ensures forall next: u64, n: nat {:trigger Advanced(next, n)} ::
      n > 0 ==> Advanced(next, n) == Advanced(WrapNext(next), n - 1)
  {
  }

  lemma NumberedNothing(next: u64)
    ensures Numbered([], next) == []
  {
  }

  datatype Appended = Appended(log: LogState, result: Result<seq<SimEvent>, SimError>)

  /** `append_batch`: one record for the whole batch, cursors moved only once it is written. */
  function AppendBatch(c: Codec, l: LogState, events: seq<SimEvent>): Appended {
    if events == [] then Appended(l, Ok([])) else
    var numbered := Numbered(events, l.nextEventId);
    match EncodeRecord(c, numbered)
    case Err(e) => Appended(l, Err(e))
    case Ok(record) =>
      Appended(
        l.(file := Some(l.Bytes() + record),
           nextEventId := Advanced(l.nextEventId, |events|),
           lastTick := Some(numbered[|numbered| - 1].tick),
           totalEvents := l.totalEvents + |events|),
        Ok(numbered))
  }

  /** `write_event`: a batch of one. */
  function WriteEvent(c: Codec, l: LogState, event: SimEvent): Appended {
    var numbered := event.(id := l.nextEventId);
    match EncodeRecord(c, [numbered])
    case Err(e) => Appended(l, Err(e))
    case Ok(record) =>
      Appended(
        l.(file := Some(l.Bytes() + record),
           nextEventId := WrapNext(l.nextEventId),
           lastTick := Some(event.tick),
           totalEvents := l.totalEvents + 1),
        Ok([numbered]))
  }

  function UpTo(events: seq<SimEvent>, id: EventId): seq<SimEvent> {
    if events == [] then []
    else if events[0].id <= id then [events[0]] + UpTo(events[1..], id)
    else UpTo(events[1..], id)
  }

  function After(events: seq<SimEvent>, id: EventId): seq<SimEvent> {
    if events == [] then []
    else if events[0].id > id then [events[0]] + After(events[1..], id)
    else After(events[1..], id)
  }

  datatype Truncated = Truncated(log: LogState, error: Option<SimError>)

  /** Append the events one by one with fresh ids, stopping at the first failure. */
  function Rewrite(c: Codec, l: LogState, events: seq<SimEvent>): Truncated
    decreases |events|
  {
    if events == [] then Truncated(l, None) else
    var before := Rewrite(c, l, events[..|events| - 1]);
    if before.error.Some? then before else
    var last := WriteEvent(c, before.log, events[|events| - 1].(id := 0));
    Truncated(last.log, if last.result.Err? then Some(last.result.error) else None)
  }

  /** `truncate_after`: reload, delete the file, reset the cursors, append what is kept. */
  function TruncateAfter(c: Codec, l: LogState, id: EventId): Truncated {
    match ReadAll(c, l)
    case Err(e) => Truncated(l, Some(e))
    case Ok(events) => Rewrite(c, LogState(None, 1, None, 0, l.readError), UpTo(events, id))
  }

  // ------------------------------------------------------------------------
  // The log object
  // ------------------------------------------------------------------------

  /** The file behind a path: absent, or its bytes. */
  class WalFile {
    var bytes: Option<seq<byte>>

    constructor (b: Option<seq<byte>>)
      ensures bytes == b
    {
      bytes := b;
    }
  }

  /** The reading loop: collect the events of one record after another. */
  method ReadRecords(c: Codec, file: seq<byte>) returns (events: seq<SimEvent>)
    ensures events == Scan(c, file).events
  {
    hide Scan, Resumed, RecordAt;
    events := [];
    var offset := 0;
    ResumeStart(c, file);
    while offset < |file|
      invariant offset <= |file|
      invariant Resumed(c, file, offset, events) == Scan(c, file)
      decreases |file| - offset
    {
      ResumeStep(c, file, offset, events);
      match RecordAt(c, file, offset) {
        case Ok(r) =>
          offset := offset + r.size;
          events := events + r.events;
        case Err(_) => return;
      }
    }
    ResumeEnd(c, file, events);
  }

  /** The numbering loop of a batch. */
  method AssignIds(events: seq<SimEvent>, first: u64) returns (persisted: seq<SimEvent>, next: u64)
    ensures persisted == Numbered(events, first) && next == Advanced(first, |events|)
  {
    hide Numbered, Advanced, WrapNext;
    next := first;
    persisted := [];
    AdvancedSteps();
    assert events[0..] == events;
    for i := 0 to |events|
      invariant Numbered(events, first) == persisted + Numbered(events[i..], next)
      invariant Advanced(first, |events|) == Advanced(next, |events| - i)
    {
      NumberedFrom(events, i, next);
      persisted := persisted + [events[i].(id := next)];
      next := WrapNext(next);
    }
    NumberedNothing(next);
    assert events[|events|..] == [];
  }

  class FileEventLog {
    const codec: Codec
    const path: WalFile
    var nextEventId: u64
    var lastTick: Option<Tick>
    var totalEvents: nat
    var readError: Option<SimError>

    ghost function State(): LogState
      reads this, path
    {
      LogState(path.bytes, nextEventId, lastTick, totalEvents, readError)
    }

    constructor (c: Codec, file: WalFile, mode: OpenMode)
      modifies file
      ensures codec == c && path == file
      ensures State() == OpenLog(c, old(file.bytes), mode)
    {
      codec, path := c, file;
      nextEventId, lastTick, totalEvents, readError := 1, None, 0, None;
      new;
      Recover(mode);
    }

    /** Scan the file record by record, moving the cursors, then deal with an invalid tail. */
    method Recover(mode: OpenMode)
      requires nextEventId == 1 && lastTick == None && totalEvents == 0 && readError == None
      modifies this, path
      ensures State() == OpenLog(codec, old(path.bytes), mode)
    {
      hide Scan, Resumed, RecordAt, WrapNext;
      if path.bytes.None? {
        ScanNothing(codec);
        return;
      }
      var file := path.bytes.value;
      var offset, lastValidOffset := 0, 0;
      ghost var seen: seq<SimEvent> := [];
      ResumeStart(codec, file);
      while offset < |file|
        invariant offset == lastValidOffset <= |file| && path.bytes == Some(file) && readError == None
        invariant nextEventId == NextAfter(seen) && lastTick == TickOfLast(seen) && totalEvents == |seen|
        invariant Resumed(codec, file, offset, seen) == Scan(codec, file)
        decreases |file| - offset
      {
        ResumeStep(codec, file, offset, seen);
        match RecordAt(codec, file, offset) {
          case Ok(r) =>
            var last := r.events[|r.events| - 1];
            nextEventId := WrapNext(last.id);
            lastTick := Some(last.tick);
            totalEvents := totalEvents + |r.events|;
            seen := seen + r.events;
            lastValidOffset := offset + r.size;
            offset := lastValidOffset;
          case Err(e) =>
            if mode == ReadOnly {
              readError := Some(e);
            }
            break;
        }
      }
      if offset == |file| {
        ResumeEnd(codec, file, seen);
        assert file[..offset] == file;
      }
      if mode == Repair && lastValidOffset < |file| {
        path.bytes := Some(file[..lastValidOffset]);
      }
    }

    method ReadAllEvents() returns (r: Result<seq<SimEvent>, SimError>)
      ensures r == ReadAll(codec, State())
    {
      hide Scan;
      if readError.Some? {
        return Err(readError.value);
      }
      if path.bytes.None? {
        ScanNothing(codec);
        return Ok([]);
      }
      var events := ReadRecords(codec, path.bytes.value);
      r := Ok(events);
    }

    /** `write_records`, in the outcome where the write completes durably. */
    method WriteRecords(record: seq<byte>)
      modifies path
      ensures path.bytes == Some(FileBytes(old(path.bytes)) + record)
    {
      path.bytes := Some(FileBytes(path.bytes) + record);
    }

    method Append(event: SimEvent) returns (r: Result<seq<SimEvent>, SimError>)
      modifies this, path
      ensures Appended(State(), r) == WriteEvent(codec, old(State()), event)
    {
      var numbered := event.(id := nextEventId);
      match EncodeRecord(codec, [numbered]) {
        case Err(e) => return Err(e);
        case Ok(record) => WriteRecords(record);
      }
      nextEventId := WrapNext(nextEventId);
      lastTick := Some(event.tick);
      totalEvents := totalEvents + 1;
      r := Ok([numbered]);
    }

    method AppendAll(events: seq<SimEvent>) returns (r: Result<seq<SimEvent>, SimError>)
      modifies this, path
      ensures Appended(State(), r) == AppendBatch(codec, old(State()), events)
    {
      hide EncodeRecord;
      if events == [] {
        return Ok([]);
      }
      var persisted, next := AssignIds(events, nextEventId);
      match EncodeRecord(codec, persisted) {
        case Err(e) => return Err(e);
        case Ok(record) => WriteRecords(record);
      }
      nextEventId := next;
      lastTick := Some(persisted[|persisted| - 1].tick);
      totalEvents := totalEvents + |persisted|;
      r := Ok(persisted);
    }

    method TruncateTo(id: EventId) returns (error: Option<SimError>)
      modifies this, path
      ensures Truncated(State(), error) == TruncateAfter(codec, old(State()), id)
    {
      var all := ReadAllEvents();
      if all.Err? {
        return Some(all.error);
      }
      var keep := UpTo(all.value, id);
      path.bytes := None;
      nextEventId, lastTick, totalEvents := 1, None, 0;
      ghost var empty := State();
      for i := 0 to |keep|
        invariant Truncated(State(), None) == Rewrite(codec, empty, keep[..i])
      {
        assert keep[..i + 1][..i] == keep[..i];
        var written := Append(keep[i].(id := 0));
        if written.Err? {
          RewriteStops(codec, empty, keep, i + 1);
          return Some(written.error);
        }
      }
      assert keep[..|keep|] == keep;
      error := None;
    }
  }

  /** A rewrite that failed on a prefix failed there. */
  lemma {:induction false} RewriteStops(c: Codec, l: LogState, events: seq<SimEvent>, i: nat)
    requires i <= |events| && Rewrite(c, l, events[..i]).error.Some?
    ensures Rewrite(c, l, events) == Rewrite(c, l, events[..i])
    decreases |events| - i
  {
    if i == |events| {
      assert events[..i] == events;
    } else {
      assert events[..i + 1][..i] == events[..i];
      RewriteStops(c, l, events, i + 1);
    }
  }
}
