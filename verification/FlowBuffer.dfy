/** The flow listener's buffer (internal/flows/listener.go): packets append rows, a full buffer or the ticker flushes
    them, and a failing INSERT drops the rest of its batch. */
module FlowBuffer {
  import opened Text
  import opened NetFlow

  const FLUSH_AT := 500

  datatype Row = Row(time: int, record: Record, exporter: Option<Ipv4>)

  /** A row as inserted: port 0 becomes NULL. */
  datatype Stored = Stored(time: int, src: Ipv4, dst: Ipv4, srcPort: Option<nat>, dstPort: Option<nat>, proto: nat,
                           bytes: nat, packets: nat, exporter: Option<Ipv4>)

  function NullInt(n: nat): Option<nat> { if n == 0 then None else Some(n) }

  function Insert(r: Row): Stored {
    Stored(r.time, r.record.src, r.record.dst, NullInt(r.record.srcPort), NullInt(r.record.dstPort), r.record.proto,
           r.record.bytes, r.record.packets, r.exporter)
  }

  function InsertAll(rows: seq<Row>): (ss: seq<Stored>)
    ensures |ss| == |rows| && forall i :: 0 <= i < |rows| ==> ss[i] == Insert(rows[i])
  {
    seq(|rows|, i requires 0 <= i < |rows| => Insert(rows[i]))
  }

  function BinaryVersion(pkt: seq<Byte>): nat { if |pkt| < 2 then 0 else Uint16(pkt[..2]) }

  /** What a packet decodes to; a packet that is refused decodes to nothing. */
  function Decoded(pkt: seq<Byte>): seq<Record> {
    if |pkt| >= 2 && BinaryVersion(pkt) == 5 && Parsed(pkt).Ok? then Parsed(pkt).records else []
  }

  function RowsOf(records: seq<Record>, now: int, exporter: Option<Ipv4>): (rows: seq<Row>)
    ensures |rows| == |records|
  {
    seq(|records|, i requires 0 <= i < |records| => Row(now, records[i], exporter))
  }

  // ---------- the buffer as a value ----------

  /** A flushed batch: the first kept rows were inserted, the others are lost. */
  datatype Batch = Batch(rows: seq<Row>, kept: nat)

  datatype Buffer = Buffer(pending: seq<Row>, table: seq<Stored>, batches: seq<Batch>)

  const EMPTY := Buffer([], [], [])

  /** failing is the first INSERT of the batch that fails, if one does. */
  function Kept(batch: seq<Row>, failing: Option<nat>): nat {
    if failing.Some? && failing.value < |batch| then failing.value else |batch|
  }

  function Flushed(b: Buffer, failing: Option<nat>): Buffer {
    if b.pending == [] then b
    else
      var kept := Kept(b.pending, failing);
      Buffer([], b.table + InsertAll(b.pending[..kept]), b.batches + [Batch(b.pending, kept)])
  }

  function Received(b: Buffer, rows: seq<Row>, failing: Option<nat>): Buffer {
    if rows == [] then b
    else
      var c := b.(pending := b.pending + rows);
      if |c.pending| >= FLUSH_AT then Flushed(c, failing) else c
  }

  function Handled(b: Buffer, pkt: seq<Byte>, now: int, exporter: Option<Ipv4>, failing: Option<nat>): Buffer {
    Received(b, RowsOf(Decoded(pkt), now, exporter), failing)
  }

  // ---------- the listener ----------

  class Listener {
    var pending: seq<Row>
    var table: seq<Stored>
    ghost var batches: seq<Batch>

    ghost function View(): Buffer
      reads this
    {
      Buffer(pending, table, batches)
    }

    constructor ()
      ensures View() == EMPTY
    {
      pending, table, batches := [], [], [];
    }

    method HandlePacket(pkt: seq<Byte>, now: int, exporter: Option<Ipv4>, failing: Option<nat>)
      modifies this
      ensures View() == Handled(old(View()), pkt, now, exporter, failing)
    {
      var r: Result;
      if |pkt| >= 2 && BinaryVersion(pkt) == 5 {
        r := ParseNetFlowV5(pkt);
      } else if |pkt| >= 2 && BinaryVersion(pkt) == 10 {
        r := ParsedIpfix(pkt);
      } else {
        return;
      }
      if r.Err? || |r.records| == 0 {
        return;
      }
      ghost var rows := RowsOf(r.records, now, exporter);
      for i := 0 to |r.records|
        invariant pending == old(pending) + rows[..i]
        invariant table == old(table) && batches == old(batches)
      {
        pending := pending + [Row(now, r.records[i], exporter)];
        assert rows[..i + 1] == rows[..i] + [rows[i]];
      }
      assert rows[..|rows|] == rows;
      if |pending| >= FLUSH_AT {
        Flush(failing);
      }
    }

    method Flush(failing: Option<nat>)
      modifies this
      ensures View() == Flushed(old(View()), failing)
    {
      var batch := pending;
      pending := [];
      if |batch| == 0 {
        return;
      }
      var i := 0;
      while i < |batch| && failing != Some(i)
        invariant 0 <= i <= |batch| && (failing.Some? && failing.value < |batch| ==> i <= failing.value)
        invariant table == old(table) + InsertAll(batch[..i])
        invariant pending == [] && batches == old(batches)
      {
        table := table + [Insert(batch[i])];
        assert InsertAll(batch[..i + 1]) == InsertAll(batch[..i]) + [Insert(batch[i])];
        i := i + 1;
      }
      batches := batches + [Batch(batch, i)];
    }
  }

  // ---------- every run ----------

  datatype Event =
    | Packet(pkt: seq<Byte>, now: int, exporter: Option<Ipv4>, failing: Option<nat>)
    | Tick(failing: Option<nat>)

  function Step(b: Buffer, e: Event): Buffer {
    match e
    case Packet(pkt, now, exporter, failing) => Handled(b, pkt, now, exporter, failing)
    case Tick(failing) => Flushed(b, failing)
  }

  function After(es: seq<Event>): Buffer {
    if es == [] then EMPTY else Step(After(es[..|es| - 1]), es[|es| - 1])
  }

  function RowsIn(e: Event): seq<Row> {
    if e.Packet? then RowsOf(Decoded(e.pkt), e.now, e.exporter) else []
  }

  /** All rows decoded from the packets, in order. */
  function AllRows(es: seq<Event>): seq<Row> {
    if es == [] then [] else AllRows(es[..|es| - 1]) + RowsIn(es[|es| - 1])
  }

  function Flat(batches: seq<Batch>): seq<Row> {
    if batches == [] then [] else Flat(batches[..|batches| - 1]) + batches[|batches| - 1].rows
  }

  function FlatKept(batches: seq<Batch>): seq<Row> {
    if batches == [] then []
    else
      var last := batches[|batches| - 1];
      FlatKept(batches[..|batches| - 1]) + last.rows[..if last.kept <= |last.rows| then last.kept else |last.rows|]
  }

  /** decoded is cut into the flushed batches and the pending rows; the table holds the kept prefix of each batch. */
  ghost predicate Accounted(b: Buffer, decoded: seq<Row>) {
    && decoded == Flat(b.batches) + b.pending
    && b.table == InsertAll(FlatKept(b.batches))
    && (forall i :: 0 <= i < |b.batches| ==> b.batches[i].kept <= |b.batches[i].rows|)
  }

  lemma InsertAllAppend(a: seq<Row>, b: seq<Row>)
    ensures InsertAll(a + b) == InsertAll(a) + InsertAll(b)
  {
  }

  lemma FlushAccounted(b: Buffer, decoded: seq<Row>, failing: Option<nat>)
    requires Accounted(b, decoded)
    ensures Accounted(Flushed(b, failing), decoded)
  {
    var c := Flushed(b, failing);
    if b.pending != [] {
      assert c.batches[..|b.batches|] == b.batches;
      assert Flat(c.batches) == Flat(b.batches) + b.pending;
      var kept := b.pending[..Kept(b.pending, failing)];
      assert FlatKept(c.batches) == FlatKept(b.batches) + kept;
      InsertAllAppend(FlatKept(b.batches), kept);
      assert Flat(c.batches) + [] == Flat(c.batches);
    }
  }

  lemma ReceivedAccounted(b: Buffer, decoded: seq<Row>, rows: seq<Row>, failing: Option<nat>)
    requires Accounted(b, decoded)
    ensures Accounted(Received(b, rows, failing), decoded + rows)
  {
    if rows == [] {
      assert decoded + rows == decoded;
    } else {
      var c := b.(pending := b.pending + rows);
      assert decoded + rows == Flat(c.batches) + c.pending;
      FlushAccounted(c, decoded + rows, failing);
    }
  }

  lemma StepAccounted(b: Buffer, decoded: seq<Row>, e: Event)
    requires Accounted(b, decoded)
    ensures Accounted(Step(b, e), decoded + RowsIn(e))
  {
    match e
    case Tick(failing) =>
      FlushAccounted(b, decoded, failing);
      assert decoded + [] == decoded;
    case Packet(pkt, now, exporter, failing) =>
      ReceivedAccounted(b, decoded, RowsOf(Decoded(pkt), now, exporter), failing);
  }

  /** In every run no decoded row is duplicated, reordered or forgotten: each is in the table, still pending, or in the
      lost suffix of a batch whose INSERT failed. */
  lemma {:induction false} RunAccounted(es: seq<Event>)
    ensures Accounted(After(es), AllRows(es))
  {
    if es == [] {
      assert InsertAll(FlatKept([])) == [];
    } else {
      RunAccounted(es[..|es| - 1]);
      StepAccounted(After(es[..|es| - 1]), AllRows(es[..|es| - 1]), es[|es| - 1]);
    }
  }

  /** After every event fewer than 500 rows are pending. */
  lemma {:induction false} PendingBounded(es: seq<Event>)
    ensures |After(es).pending| < FLUSH_AT
  {
    if es != [] { PendingBounded(es[..|es| - 1]); }
  }

  ghost predicate Whole(batches: seq<Batch>) {
    forall i :: 0 <= i < |batches| ==> batches[i].kept == |batches[i].rows|
  }

  lemma {:induction false} AllKept(batches: seq<Batch>)
    requires Whole(batches)
    ensures FlatKept(batches) == Flat(batches)
  {
    if batches != [] { AllKept(batches[..|batches| - 1]); }
  }

  lemma {:induction false} NoneFails(es: seq<Event>)
    requires forall e :: e in es ==> e.failing.None?
    ensures Whole(After(es).batches)
  {
    if es != [] {
      assert es[|es| - 1] in es;
      NoneFails(es[..|es| - 1]);
    }
  }

  /** When no INSERT fails, the table followed by the pending rows is exactly what was decoded, in order. */
  lemma NothingLost(es: seq<Event>)
    requires forall e :: e in es ==> e.failing.None?
    ensures After(es).table + InsertAll(After(es).pending) == InsertAll(AllRows(es))
  {
    NoneFails(es);
    WholeBatchesKeepAll(es);
  }

  /** So it is when every failure came after the last row of its batch. */
  lemma WholeBatchesKeepAll(es: seq<Event>)
    requires Whole(After(es).batches)
    ensures After(es).table + InsertAll(After(es).pending) == InsertAll(AllRows(es))
  {
    RunAccounted(es);
    AllKept(After(es).batches);
    var b := After(es);
    InsertAllAppend(Flat(b.batches), b.pending);
  }

  lemma {:induction false} TotalKept(batches: seq<Batch>)
    requires forall i :: 0 <= i < |batches| ==> batches[i].kept <= |batches[i].rows|
    ensures |Flat(batches)| - |FlatKept(batches)| == Lost(batches)
  {
    if batches != [] { TotalKept(batches[..|batches| - 1]); }
  }

  function Lost(batches: seq<Batch>): int {
    if batches == [] then 0
    else Lost(batches[..|batches| - 1]) + |batches[|batches| - 1].rows| - batches[|batches| - 1].kept
  }

  /** Rows decoded == rows in the table + rows pending + rows after the failing INSERT of their batch. */
  lemma RowsConserved(es: seq<Event>)
    ensures |AllRows(es)| == |After(es).table| + |After(es).pending| + Lost(After(es).batches)
  {
    RunAccounted(es);
    TotalKept(After(es).batches);
  }
}
