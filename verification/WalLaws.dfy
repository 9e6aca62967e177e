/** Laws of the log bytes: records decode, torn records are refused whatever the checksum
    function, scans are stable under growth and cutting, and repair loses nothing valid. */
module WalLaws {
  import opened SyTypes
  import opened SyApi
  import opened LittleEndian
  import opened Wal

  // ------------------------------------------------------------------------
  // One record
  // ------------------------------------------------------------------------

  /** Where the fields of a record lie. */
  lemma Layout(length: nat, id: nat, tick: nat, payload: seq<byte>, crc: seq<byte>, post: seq<byte>)
    requires |payload| == length && |crc| == 4
    ensures var t := Body(length, id, tick, payload) + crc + post;
      && |t| == HEADER + length + 4 + |post|
      && t[..4] == ToLE(WAL_MAGIC, 4) && t[4..6] == ToLE(WAL_VERSION, 2)
      && t[6..10] == ToLE(length, 4) && t[10..18] == ToLE(id, 8) && t[18..26] == ToLE(tick, 8)
      && t[HEADER..HEADER + length] == payload && t[HEADER + length..HEADER + length + 4] == crc
  {
    hide ToLE;
  }

  lemma FieldsDecode(length: nat, id: u64, tick: u64, crc: u32)
    requires length <= MAX_PAYLOAD
    ensures FromLE(ToLE(WAL_MAGIC, 4)) == WAL_MAGIC && FromLE(ToLE(WAL_VERSION, 2)) == WAL_VERSION
    ensures FromLE(ToLE(length, 4)) == length && FromLE(ToLE(crc, 4)) == crc
    ensures FromLE(ToLE(id, 8)) == id && FromLE(ToLE(tick, 8)) == tick
  {
    hide ToLE, FromLE;
    Widths();
    FromToLE(WAL_MAGIC, 4);
    FromToLE(WAL_VERSION, 2);
    FromToLE(length, 4);
    FromToLE(crc, 4);
    FromToLE(id, 8);
    FromToLE(tick, 8);
  }

  /** A written record decodes to its events, whatever follows it in the file. */
  lemma RecordDecodes(c: Codec, events: seq<SimEvent>, post: seq<byte>)
    requires c.Lawful() && EncodeRecord(c, events).Ok?
    ensures var record := EncodeRecord(c, events).value;
      ParseRecord(c, record + post) == Ok(Record(events, |record|))
  {
    hide ToLE, FromLE, Body;
    var last := events[|events| - 1];
    var payload := c.encode(events);
    var body := Body(|payload|, last.id, last.tick, payload);
    var crc := ToLE(c.crc(body), 4);
    Layout(|payload|, last.id, last.tick, payload, crc, post);
    FieldsDecode(|payload|, last.id, last.tick, c.crc(body));
    assert c.decode(c.encode(events)) == Some(events);
    BodySize(|payload|, last.id, last.tick, payload);
  }

  lemma BodySize(length: nat, id: nat, tick: nat, payload: seq<byte>)
    ensures |Body(length, id, tick, payload)| == HEADER + |payload|
  {
  }

  /** The bytes of a record of a batch: "1LAW", version one, payload length, the last event's id and
      tick, the payload, and the checksum of everything before it. */
  ghost predicate Formatted(c: Codec, r: seq<byte>, payload: seq<byte>, last: SimEvent) {
    && |r| == 30 + |payload| && |payload| <= 0x100_0000
    && r[..4] == [0x31, 0x4C, 0x41, 0x57] && r[4..6] == [1, 0]
    && r[6..10] == ToLE(|payload|, 4) && r[10..18] == ToLE(last.id, 8) && r[18..26] == ToLE(last.tick, 8)
    && r[26..|r| - 4] == payload && r[|r| - 4..] == ToLE(c.crc(r[..|r| - 4]), 4)
  }

  lemma MagicBytes()
    ensures ToLE(WAL_MAGIC, 4) == [0x31, 0x4C, 0x41, 0x57] && ToLE(WAL_VERSION, 2) == [1, 0]
  {
  }

  /** Writing: any nonempty batch of at most 16 MiB becomes exactly a formatted record. */
  lemma WrittenRecordLaw(c: Codec, events: seq<SimEvent>)
    ensures EncodeRecord(c, events).Ok? <==> events != [] && |c.encode(events)| <= 0x100_0000
    ensures EncodeRecord(c, events).Ok? ==>
      Formatted(c, EncodeRecord(c, events).value, c.encode(events), events[|events| - 1])
  {
    hide ToLE, Body;
    if EncodeRecord(c, events).Ok? {
      var last, payload := events[|events| - 1], c.encode(events);
      var body := Body(|payload|, last.id, last.tick, payload);
      var crc := ToLE(c.crc(body), 4);
      MagicBytes();
      BodySize(|payload|, last.id, last.tick, payload);
      Layout(|payload|, last.id, last.tick, payload, crc, []);
      var r := EncodeRecord(c, events).value;
      assert r == body + crc == body + crc + [];
      assert r[..|r| - 4] == body && r[|r| - 4..] == crc;
    }
  }

  /** Reading: a record is accepted exactly when the bytes are formatted and their payload decodes to
      a nonempty batch ending in the event of the header. */
  lemma AcceptedRecordLaw(c: Codec, t: seq<byte>, r: Record)
    ensures ParseRecord(c, t) == Ok(r) <==>
      && 30 <= r.size <= |t| && r.events != []
      && Formatted(c, t[..r.size], t[26..r.size - 4], r.events[|r.events| - 1])
      && c.decode(t[26..r.size - 4]) == Some(r.events)
  {
    hide ToLE, FromLE;
    if ParseRecord(c, t) == Ok(r) {
      AcceptedIsFormatted(c, t, r);
    }
    if 30 <= r.size <= |t| && r.events != [] && c.decode(t[26..r.size - 4]) == Some(r.events)
      && Formatted(c, t[..r.size], t[26..r.size - 4], r.events[|r.events| - 1])
    {
      FormattedIsAccepted(c, t, r);
    }
  }

  lemma AcceptedIsFormatted(c: Codec, t: seq<byte>, r: Record)
    requires ParseRecord(c, t) == Ok(r)
    ensures 30 <= r.size <= |t| && r.events != []
    ensures Formatted(c, t[..r.size], t[26..r.size - 4], r.events[|r.events| - 1])
    ensures c.decode(t[26..r.size - 4]) == Some(r.events)
  {
    hide ToLE, FromLE, Body;
    var n := r.size;
    SizeIsFields(c, t);
    MagicBytes();
    ToFromLE(t[..4]);
    ToFromLE(t[4..6]);
    ToFromLE(t[6..10]);
    ToFromLE(t[10..18]);
    ToFromLE(t[18..26]);
    ToFromLE(t[n - 4..n]);
    ChecksumCoversBytes(c, t);
    PrefixSlices(t, n);
  }

  lemma PrefixSlices(t: seq<byte>, n: nat)
    requires 30 <= n <= |t|
    ensures var r := t[..n];
      && r[..4] == t[..4] && r[4..6] == t[4..6] && r[6..10] == t[6..10] && r[10..18] == t[10..18]
      && r[18..26] == t[18..26] && r[26..n - 4] == t[26..n - 4] && r[..n - 4] == t[..n - 4]
      && r[n - 4..] == t[n - 4..n]
  {
  }

  lemma FormattedIsAccepted(c: Codec, t: seq<byte>, r: Record)
    requires 30 <= r.size <= |t| && r.events != []
    requires Formatted(c, t[..r.size], t[26..r.size - 4], r.events[|r.events| - 1])
    requires c.decode(t[26..r.size - 4]) == Some(r.events)
    ensures ParseRecord(c, t) == Ok(r)
  {
    hide ToLE, FromLE;
    var n, last := r.size, r.events[|r.events| - 1];
    var payload := t[26..n - 4];
    PrefixSlices(t, n);
    MagicBytes();
    FieldsDecode(|payload|, last.id, last.tick, c.crc(t[..n - 4]));
    SplitHeader(t, |payload|);
    assert t[..n - 4] == Body(|payload|, last.id, last.tick, payload);
    hide Body;
  }

  /** A proper prefix of a record is refused: its own length field asks for bytes that are not
      there. Nothing is assumed of the checksum. */
  lemma TornRecordRefused(c: Codec, events: seq<SimEvent>, k: nat)
    requires EncodeRecord(c, events).Ok? && k < |EncodeRecord(c, events).value|
    ensures ParseRecord(c, EncodeRecord(c, events).value[..k]).Err?
  {
    hide ToLE, FromLE, Body, ParsePayload;
    var last := events[|events| - 1];
    var payload := c.encode(events);
    var body := Body(|payload|, last.id, last.tick, payload);
    var crc := ToLE(c.crc(body), 4);
    var record := EncodeRecord(c, events).value;
    assert record == body + crc + [];
    Layout(|payload|, last.id, last.tick, payload, crc, []);
    FieldsDecode(|payload|, last.id, last.tick, c.crc(body));
    if k >= HEADER {
      assert record[..k][6..10] == record[6..10];
    }
  }

  /** The checksum is computed over a header written again from the decoded fields; for an accepted
      record that is the checksum of the very bytes in the file. */
  lemma ChecksumCoversBytes(c: Codec, t: seq<byte>)
    requires ParseRecord(c, t).Ok?
    ensures var n := ParseRecord(c, t).value.size; FromLE(t[n - 4..n]) == c.crc(t[..n - 4])
  {
    hide FromLE, ToLE;
    var length := FromLE(t[6..10]);
    ToFromLE(t[..4]);
    ToFromLE(t[4..6]);
    ToFromLE(t[6..10]);
    ToFromLE(t[10..18]);
    ToFromLE(t[18..26]);
    SizeIsFields(c, t);
    SplitHeader(t, length);
  }

  lemma SplitHeader(t: seq<byte>, length: nat)
    requires HEADER + length <= |t|
    ensures t[..HEADER + length]
         == t[..4] + t[4..6] + t[6..10] + t[10..18] + t[18..26] + t[HEADER..HEADER + length]
  {
  }

  /** Decoding a record looks only at its own bytes. */
  lemma RecordIsLocal(c: Codec, t: seq<byte>, t2: seq<byte>)
    requires ParseRecord(c, t).Ok?
    requires var n := ParseRecord(c, t).value.size; n <= |t2| && t2[..n] == t[..n]
    ensures ParseRecord(c, t2) == ParseRecord(c, t)
  {
    hide ToLE, FromLE, ParsePayload;
    var n := ParseRecord(c, t).value.size;
    SliceOfPrefix(t, t2, n, 0, 4);
    SliceOfPrefix(t, t2, n, 4, 6);
    SliceOfPrefix(t, t2, n, 6, 10);
    SliceOfPrefix(t, t2, n, 10, 18);
    SliceOfPrefix(t, t2, n, 18, 26);
    assert t[0..4] == t[..4] && t2[0..4] == t2[..4];
    var length := FromLE(t[6..10]);
    SizeIsFields(c, t);
    SliceOfPrefix(t, t2, n, HEADER, HEADER + length);
    SliceOfPrefix(t, t2, n, HEADER + length, HEADER + length + 4);
  }

  lemma SizeIsFields(c: Codec, t: seq<byte>)
    requires ParseRecord(c, t).Ok?
    ensures ParseRecord(c, t).value.size == HEADER + FromLE(t[6..10]) + 4
  {
    hide FromLE;
  }

  lemma SliceOfPrefix(t: seq<byte>, t2: seq<byte>, n: nat, i: nat, j: nat)
    requires i <= j <= n <= |t| && n <= |t2| && t2[..n] == t[..n]
    ensures t2[i..j] == t[i..j]
  {
    assert t[i..j] == t[..n][i..j];
    assert t2[i..j] == t2[..n][i..j];
  }

  /** A record accepted at an offset is still accepted after the file grows, or is cut at or
      after the record's end. */
  lemma RecordStable(c: Codec, f: seq<byte>, f2: seq<byte>, off: nat)
    requires off <= |f| && RecordAt(c, f, off).Ok?
    requires var end := off + RecordAt(c, f, off).value.size; end <= |f2| && f2[..end] == f[..end]
    ensures RecordAt(c, f2, off) == RecordAt(c, f, off)
  {
    hide ParseRecord;
    var n := RecordAt(c, f, off).value.size;
    assert f2[off..][..n] == f2[..off + n][off..];
    assert f[off..][..n] == f[..off + n][off..];
    RecordIsLocal(c, f[off..], f2[off..]);
  }

  // ------------------------------------------------------------------------
  // Scans
  // ------------------------------------------------------------------------

  /** Every byte belongs to a valid record. */
  predicate Clean(c: Codec, f: seq<byte>) {
    Scan(c, f).valid == |f|
  }

  lemma ScanHead(c: Codec, t: seq<byte>)
    requires t != [] && ParseRecord(c, t).Ok?
    ensures var r := ParseRecord(c, t).value; var rest := Scan(c, t[r.size..]);
      Scan(c, t) == Scanned(r.events + rest.events, r.size + rest.valid, rest.error)
  {
    hide ParseRecord;
  }

  /** Scanning past a clean file continues with whatever follows. */
  lemma {:induction false} ScanConcat(c: Codec, a: seq<byte>, b: seq<byte>)
    requires Clean(c, a)
    ensures var sa, sb := Scan(c, a), Scan(c, b);
      Scan(c, a + b) == Scanned(sa.events + sb.events, |a| + sb.valid, sb.error)
    decreases |a|
  {
    hide ParseRecord;
    if a == [] {
      assert a + b == b;
      assert [] + Scan(c, b).events == Scan(c, b).events;
    } else {
      var r := ParseRecord(c, a).value;
      assert (a + b)[..r.size] == a[..r.size];
      RecordIsLocal(c, a, a + b);
      assert (a + b)[r.size..] == a[r.size..] + b;
      ScanConcat(c, a[r.size..], b);
      ScanHead(c, a + b);
      var ra, rb := Scan(c, a[r.size..]).events, Scan(c, b).events;
      assert r.events + (ra + rb) == r.events + ra + rb;
    }
  }

  /** The valid prefix of any file is clean and holds the same events. */
  lemma {:induction false} ValidPrefixIsClean(c: Codec, f: seq<byte>)
    ensures var s := Scan(c, f); Scan(c, f[..s.valid]) == Scanned(s.events, s.valid, None)
    decreases |f|
  {
    hide ParseRecord;
    var s := Scan(c, f);
    if f == [] || ParseRecord(c, f).Err? {
    } else {
      var r := ParseRecord(c, f).value;
      ScanHead(c, f);
      ValidPrefixIsClean(c, f[r.size..]);
      var g := f[..s.valid];
      assert g[..r.size] == f[..r.size];
      RecordIsLocal(c, f, g);
      assert g[r.size..] == f[r.size..][..s.valid - r.size];
      ScanHead(c, g);
    }
  }

  lemma OneRecordScan(c: Codec, events: seq<SimEvent>)
    requires c.Lawful() && EncodeRecord(c, events).Ok?
    ensures var record := EncodeRecord(c, events).value;
      Scan(c, record) == Scanned(events, |record|, None)
  {
    hide ParseRecord, EncodeRecord;
    var record := EncodeRecord(c, events).value;
    RecordDecodes(c, events, []);
    assert record + [] == record;
    ScanHead(c, record);
    assert record[|record|..] == [];
    ScanNothing(c);
    assert events + [] == events;
  }

  /** Appending a record to a clean file appends its events to the scan. */
  lemma AppendedRecordScans(c: Codec, f: seq<byte>, events: seq<SimEvent>)
    requires c.Lawful() && Clean(c, f) && EncodeRecord(c, events).Ok?
    ensures var g := f + EncodeRecord(c, events).value;
      Clean(c, g) && Scan(c, g).events == Scan(c, f).events + events
  {
    hide ParseRecord, EncodeRecord, Scan;
    OneRecordScan(c, events);
    ScanConcat(c, f, EncodeRecord(c, events).value);
  }

  /** Torn-write safety: after any clean file, a proper prefix of a record adds no event and is
      cut off exactly by a repairing open; the next append decodes as if nothing had been torn. */
  lemma TornWriteIsRepaired(c: Codec, f: seq<byte>, torn: seq<SimEvent>, k: nat, next: seq<SimEvent>)
    requires c.Lawful() && Clean(c, f)
    requires EncodeRecord(c, torn).Ok? && k < |EncodeRecord(c, torn).value|
    requires EncodeRecord(c, next).Ok?
    ensures var g := f + EncodeRecord(c, torn).value[..k];
      var log := OpenLog(c, Some(g), Repair);
      && log == OpenLog(c, Some(f), Repair)
      && log.file == Some(f)
      && ReadAll(c, log) == Ok(Scan(c, f).events)
      && Scan(c, log.Bytes() + EncodeRecord(c, next).value).events == Scan(c, f).events + next
  {
    hide ParseRecord, EncodeRecord;
    var p := EncodeRecord(c, torn).value[..k];
    TornRecordRefused(c, torn, k);
    assert Scan(c, p).events == [] && Scan(c, p).valid == 0;
    ScanConcat(c, f, p);
    assert Scan(c, f).events + [] == Scan(c, f).events;
    assert (f + p)[..|f|] == f && f[..|f|] == f;
    AppendedRecordScans(c, f, next);
  }

  /** The bytes of a list of batches, each one record. */
  function Records(c: Codec, batches: seq<seq<SimEvent>>): seq<byte>
    requires forall b :: b in batches ==> EncodeRecord(c, b).Ok?
    decreases |batches|
  {
    if batches == [] then [] else
    Records(c, batches[..|batches| - 1]) + EncodeRecord(c, batches[|batches| - 1]).value
  }

  function Flatten(batches: seq<seq<SimEvent>>): seq<SimEvent>
    decreases |batches|
  {
    if batches == [] then [] else Flatten(batches[..|batches| - 1]) + batches[|batches| - 1]
  }

  /** Any list of encoded records is clean and reads back as its events in order. */
  lemma {:induction false} RecordsReadBack(c: Codec, batches: seq<seq<SimEvent>>)
    requires c.Lawful() && forall b :: b in batches ==> EncodeRecord(c, b).Ok?
    ensures Clean(c, Records(c, batches)) && Scan(c, Records(c, batches)).events == Flatten(batches)
    decreases |batches|
  {
    hide ParseRecord, EncodeRecord;
    if batches == [] {
    } else {
      RecordsReadBack(c, batches[..|batches| - 1]);
      hide Scan;
      AppendedRecordScans(c, Records(c, batches[..|batches| - 1]), batches[|batches| - 1]);
    }
  }

  // ------------------------------------------------------------------------
  // Opening
  // ------------------------------------------------------------------------

  /** Repair is idempotent: opening what a repairing open left behind gives the same log. */
  lemma RepairIsIdempotent(c: Codec, file: Option<seq<byte>>)
    ensures var log := OpenLog(c, file, Repair); OpenLog(c, log.file, Repair) == log
  {
    hide Scan;
    var f := FileBytes(file);
    ValidPrefixIsClean(c, f);
    if file.Some? {
      var g := f[..Scan(c, f).valid];
      assert g[..|g|] == g;
    }
  }

  /** What a repairing open announces is what reading gives back, for any bytes: count, last tick
      and last id; the id cursor misses only an event already holding the largest id, where the
      next id wraps. */
  lemma AnnouncedCursorIsTail(c: Codec, file: Option<seq<byte>>)
    ensures var log := OpenLog(c, file, Repair); var events := Scan(c, FileBytes(file)).events;
      && ReadAll(c, log) == Ok(events)
      && log.totalEvents == |events| && log.lastTick == TickOfLast(events)
      && (log.LastEventId() == LastIdOf(events) <==> LastIdOf(events) != U64_MAX)
  {
    hide Scan;
    var f := FileBytes(file);
    ValidPrefixIsClean(c, f);
    if file.None? {
      assert f[..Scan(c, f).valid] == f;
    }
  }

  /** The input on which the announced cursor is wrong: one event holding the largest id. */
  lemma LargestIdIsForgotten(c: Codec, e: SimEvent)
    requires c.Lawful() && e.id == U64_MAX && EncodeRecord(c, [e]).Ok?
    ensures var file := EncodeRecord(c, [e]).value; var log := OpenLog(c, Some(file), Repair);
      ReadAll(c, log) == Ok([e]) && log.LastEventId() == 0
  {
    hide Scan, EncodeRecord;
    var file := EncodeRecord(c, [e]).value;
    OneRecordScan(c, [e]);
    AnnouncedCursorIsTail(c, Some(file));
    assert file[..|file|] == file;
  }

  function LastIdOf(events: seq<SimEvent>): EventId {
    if events == [] then 0 else events[|events| - 1].id
  }

  /** A read-only open reads the same events as a repairing one exactly when there is no invalid
      tail; otherwise reading fails. Either way the file is untouched. */
  lemma ReadOnlyAgreesIffNoTail(c: Codec, file: Option<seq<byte>>)
    ensures var reader := OpenLog(c, file, ReadOnly); var writer := OpenLog(c, file, Repair);
      && reader.file == file
      && (ReadAll(c, reader) == ReadAll(c, writer) <==> Clean(c, FileBytes(file)))
      && (ReadAll(c, reader).Err? <==> !Clean(c, FileBytes(file)))
  {
    AnnouncedCursorIsTail(c, file);
  }
}
