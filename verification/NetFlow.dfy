/** NetFlow v5 datagrams and the IPFIX header check (internal/flows/netflow_v5.go). */
module NetFlow {

  type Byte = n: int | 0 <= n < 0x100
  type U16 = n: int | 0 <= n < 0x1_0000
  type U32 = n: int | 0 <= n < 0x1_0000_0000

  datatype Ipv4 = Ipv4(a: Byte, b: Byte, c: Byte, d: Byte)

  datatype Record = Record(src: Ipv4, dst: Ipv4, srcPort: U16, dstPort: U16, proto: Byte, bytes: U32, packets: U32,
                           first: U32, last: U32)

  datatype Error = TooShort | WrongVersion(version: U16) | Truncated(want: nat, have: nat)

  datatype Result = Ok(records: seq<Record>) | Err(error: Error)

  const HEADER := 24
  const RECORD := 48

  // ---------- big-endian integers ----------

  function Uint16(b: seq<Byte>): U16
    requires |b| == 2
  {
    var hi: int := b[0];
    hi * 0x100 + b[1]
  }

  function Uint32(b: seq<Byte>): U32
    requires |b| == 4
  {
    var hi: int := Uint16(b[..2]);
    hi * 0x1_0000 + Uint16(b[2..])
  }

  function Put16(n: U16): (b: seq<Byte>)
    ensures |b| == 2 && Uint16(b) == n
  {
    [n / 0x100, n % 0x100]
  }

  function Put32(n: U32): (b: seq<Byte>)
    ensures |b| == 4 && Uint32(b) == n
  {
    var b := Put16(n / 0x1_0000) + Put16(n % 0x1_0000);
    assert b[..2] == Put16(n / 0x1_0000) && b[2..] == Put16(n % 0x1_0000);
    b
  }

  lemma Put16Back(b: seq<Byte>)
    requires |b| == 2
    ensures Put16(Uint16(b)) == b
  {
    assert Uint16(b) / 0x100 == b[0] && Uint16(b) % 0x100 == b[1];
  }

  lemma Put32Back(b: seq<Byte>)
    requires |b| == 4
    ensures Put32(Uint32(b)) == b
  {
    var hi, lo := Uint16(b[..2]), Uint16(b[2..]);
    assert Uint32(b) / 0x1_0000 == hi && Uint32(b) % 0x1_0000 == lo;
    Put16Back(b[..2]);
    Put16Back(b[2..]);
    assert b == b[..2] + b[2..];
  }

  // ---------- one record ----------

  /** The bytes of a record that the decoder skips: next hop and interface indices, padding and TCP flags, and the
      type of service, AS numbers and masks. */
  datatype Skipped = Skipped(route: seq<Byte>, flags: seq<Byte>, tail: seq<Byte>)

  predicate SkippedOk(f: Skipped) { |f.route| == 8 && |f.flags| == 2 && |f.tail| == 9 }

  function ReadIp(b: seq<Byte>): Ipv4
    requires |b| == 4
  {
    Ipv4(b[0], b[1], b[2], b[3])
  }

  function PutIp(ip: Ipv4): (b: seq<Byte>)
    ensures |b| == 4 && ReadIp(b) == ip
  {
    [ip.a, ip.b, ip.c, ip.d]
  }

  function ReadRecord(b: seq<Byte>): Record
    requires |b| == RECORD
  {
    Record(ReadIp(b[0..4]), ReadIp(b[4..8]), Uint16(b[32..34]), Uint16(b[34..36]), b[38],
           Uint32(b[20..24]), Uint32(b[16..20]), Uint32(b[24..28]), Uint32(b[28..32]))
  }

  function ReadSkipped(b: seq<Byte>): Skipped
    requires |b| == RECORD
  {
    Skipped(b[8..16], b[36..38], b[39..48])
  }

  /** The first 24 bytes of a record, and the others. */
  function PutHead(r: Record, f: Skipped): (b: seq<Byte>)
    requires SkippedOk(f)
    ensures |b| == 24
  {
    PutIp(r.src) + PutIp(r.dst) + f.route + Put32(r.packets) + Put32(r.bytes)
  }

  function PutTail(r: Record, f: Skipped): (b: seq<Byte>)
    requires SkippedOk(f)
    ensures |b| == 24
  {
    Put32(r.first) + Put32(r.last) + Put16(r.srcPort) + Put16(r.dstPort) + f.flags + [r.proto] + f.tail
  }

  function PutRecord(r: Record, f: Skipped): (b: seq<Byte>)
    requires SkippedOk(f)
    ensures |b| == RECORD
  {
    PutHead(r, f) + PutTail(r, f)
  }

  lemma SliceOfPrefix<X>(a: seq<X>, b: seq<X>, i: nat, j: nat)
    requires i <= j <= |a|
    ensures (a + b)[i..j] == a[i..j]
  {
  }

  lemma SliceOfSuffix<X>(a: seq<X>, b: seq<X>)
    ensures (a + b)[|a|..|a| + |b|] == b
  {
  }

  lemma SliceSplit<X>(s: seq<X>, i: nat, j: nat, k: nat)
    requires i <= j <= k <= |s|
    ensures s[i..k] == s[i..j] + s[j..k]
  {
  }

  lemma HeadSlices(r: Record, f: Skipped)
    requires SkippedOk(f)
    ensures var b := PutHead(r, f);
            && b[0..4] == PutIp(r.src) && b[4..8] == PutIp(r.dst) && b[8..16] == f.route
            && b[16..20] == Put32(r.packets) && b[20..24] == Put32(r.bytes)
  {
  }

  lemma TailSlices(r: Record, f: Skipped)
    requires SkippedOk(f)
    ensures var b := PutTail(r, f);
            && b[0..4] == Put32(r.first) && b[4..8] == Put32(r.last)
            && b[8..10] == Put16(r.srcPort) && b[10..12] == Put16(r.dstPort) && b[12..14] == f.flags
            && b[14] == r.proto && b[15..24] == f.tail
  {
  }

  lemma RecordSlices(h: seq<Byte>, t: seq<Byte>)
    requires |h| == 24 && |t| == 24
    ensures var b := h + t;
            && b[0..4] == h[0..4] && b[4..8] == h[4..8] && b[8..16] == h[8..16] && b[16..20] == h[16..20]
              && b[20..24] == h[20..24]
            && b[24..28] == t[0..4] && b[28..32] == t[4..8] && b[32..34] == t[8..10] && b[34..36] == t[10..12]
            && b[36..38] == t[12..14] && b[38] == t[14] && b[39..48] == t[15..24]
  {
  }

  lemma RecordRoundTrip(r: Record, f: Skipped)
    requires SkippedOk(f)
    ensures ReadRecord(PutRecord(r, f)) == r && ReadSkipped(PutRecord(r, f)) == f
  {
    HeadSlices(r, f);
    TailSlices(r, f);
    RecordSlices(PutHead(r, f), PutTail(r, f));
  }

  lemma HeadBytes(b: seq<Byte>)
    requires |b| == RECORD
    ensures PutHead(ReadRecord(b), ReadSkipped(b)) == b[0..24]
  {
    Put32Back(b[16..20]);
    Put32Back(b[20..24]);
    SliceSplit(b, 0, 4, 8);
    SliceSplit(b, 0, 8, 16);
    SliceSplit(b, 0, 16, 20);
    SliceSplit(b, 0, 20, 24);
    assert PutIp(ReadIp(b[0..4])) == b[0..4] && PutIp(ReadIp(b[4..8])) == b[4..8];
  }

  lemma TailBytes(b: seq<Byte>)
    requires |b| == RECORD
    ensures PutTail(ReadRecord(b), ReadSkipped(b)) == b[24..48]
  {
    Put32Back(b[24..28]);
    Put32Back(b[28..32]);
    Put16Back(b[32..34]);
    Put16Back(b[34..36]);
    SliceSplit(b, 24, 28, 32);
    SliceSplit(b, 24, 32, 34);
    SliceSplit(b, 24, 34, 36);
    SliceSplit(b, 24, 36, 38);
    SliceSplit(b, 24, 38, 39);
    SliceSplit(b, 24, 39, 48);
    assert b[38..39] == [b[38]];
  }

  lemma RecordBytes(b: seq<Byte>)
    requires |b| == RECORD
    ensures PutRecord(ReadRecord(b), ReadSkipped(b)) == b
  {
    HeadBytes(b);
    TailBytes(b);
    assert b == b[0..24] + b[24..48];
  }

  // ---------- one packet ----------

  function Slice(pkt: seq<Byte>, i: nat): seq<Byte>
    requires HEADER + RECORD * (i + 1) <= |pkt|
  {
    pkt[HEADER + RECORD * i..HEADER + RECORD * (i + 1)]
  }

  function ReadRecords(pkt: seq<Byte>, n: nat): (rs: seq<Record>)
    requires HEADER + RECORD * n <= |pkt|
    ensures |rs| == n
  {
    seq(n, i requires 0 <= i < n => ReadRecord(Slice(pkt, i)))
  }

  function Parsed(pkt: seq<Byte>): Result {
    if |pkt| < HEADER then Err(TooShort)
    else if Uint16(pkt[0..2]) != 5 then Err(WrongVersion(Uint16(pkt[0..2])))
    else
      var count := Uint16(pkt[2..4]);
      if |pkt| < HEADER + RECORD * count then Err(Truncated(HEADER + RECORD * count, |pkt|))
      else Ok(ReadRecords(pkt, count))
  }

  method ParseNetFlowV5(pkt: seq<Byte>) returns (r: Result)
    ensures r == Parsed(pkt)
  {
    if |pkt| < HEADER {
      return Err(TooShort);
    }
    var version := Uint16(pkt[0..2]);
    if version != 5 {
      return Err(WrongVersion(version));
    }
    var count := Uint16(pkt[2..4]);
    if count <= 0 {
      return Ok([]);
    }
    var need := HEADER + RECORD * count;
    if |pkt| < need {
      return Err(Truncated(need, |pkt|));
    }
    var out: seq<Record> := [];
    var off := HEADER;
    for i := 0 to count
      invariant off == HEADER + RECORD * i
      invariant out == ReadRecords(pkt, count)[..i]
    {
      var rec := pkt[off..off + RECORD];
      off := off + RECORD;
      assert rec == Slice(pkt, i);
      out := out + [Record(ReadIp(rec[0..4]), ReadIp(rec[4..8]), Uint16(rec[32..34]), Uint16(rec[34..36]), rec[38],
                           Uint32(rec[20..24]), Uint32(rec[16..20]), Uint32(rec[24..28]), Uint32(rec[28..32]))];
    }
    return Ok(out);
  }

  /** The IPFIX stub: a 16-byte header of version 10 (section 3.1 of RFC 7011) is accepted, its records are not read. */
  function ParsedIpfix(pkt: seq<Byte>): Result {
    if |pkt| < 16 then Err(TooShort)
    else if Uint16(pkt[0..2]) != 10 then Err(WrongVersion(Uint16(pkt[0..2])))
    else Ok([])
  }

  // ---------- the encoder ----------

  function PutRecords(rs: seq<Record>, fs: seq<Skipped>): (b: seq<Byte>)
    requires |rs| == |fs| && forall f :: f in fs ==> SkippedOk(f)
    ensures |b| == RECORD * |rs|
  {
    if rs == [] then [] else PutRecords(rs[..|rs| - 1], fs[..|fs| - 1]) + PutRecord(rs[|rs| - 1], fs[|fs| - 1])
  }

  /** rest is the part of the header that the decoder skips. */
  function Encode(rest: seq<Byte>, rs: seq<Record>, fs: seq<Skipped>): (b: seq<Byte>)
    requires |rest| == 20 && |rs| == |fs| < 0x1_0000 && forall f :: f in fs ==> SkippedOk(f)
    ensures |b| == HEADER + RECORD * |rs|
  {
    Put16(5) + Put16(|rs|) + rest + PutRecords(rs, fs)
  }

  lemma {:induction false} RecordInBody(rs: seq<Record>, fs: seq<Skipped>, i: nat)
    requires |rs| == |fs| && i < |rs| && forall f :: f in fs ==> SkippedOk(f)
    ensures PutRecords(rs, fs)[RECORD * i..RECORD * (i + 1)] == PutRecord(rs[i], fs[i])
  {
    var n := |rs| - 1;
    var before, last := PutRecords(rs[..n], fs[..n]), PutRecord(rs[n], fs[n]);
    assert PutRecords(rs, fs) == before + last;
    if i < n {
      RecordInBody(rs[..n], fs[..n], i);
      SliceOfPrefix(before, last, RECORD * i, RECORD * (i + 1));
    } else {
      SliceOfSuffix(before, last);
    }
  }

  lemma SliceOfBody(rest: seq<Byte>, rs: seq<Record>, fs: seq<Skipped>, trailing: seq<Byte>, i: nat)
    requires |rest| == 20 && |rs| == |fs| < 0x1_0000 && i < |rs| && forall f :: f in fs ==> SkippedOk(f)
    ensures Slice(Encode(rest, rs, fs) + trailing, i) == PutRecords(rs, fs)[RECORD * i..RECORD * (i + 1)]
  {
    var header, body := Put16(5) + Put16(|rs|) + rest, PutRecords(rs, fs);
    SliceOfPrefix(header + body, trailing, HEADER + RECORD * i, HEADER + RECORD * (i + 1));
    SliceShifted(header, body, RECORD * i, RECORD * (i + 1));
  }

  lemma SliceShifted<X>(a: seq<X>, b: seq<X>, i: nat, j: nat)
    requires i <= j <= |b|
    ensures (a + b)[|a| + i..|a| + j] == b[i..j]
  {
  }

  /** Decoding inverts encoding, for every list of records, whatever the skipped bytes and whatever follows. */
  lemma DecodeEncode(rest: seq<Byte>, rs: seq<Record>, fs: seq<Skipped>, trailing: seq<Byte>)
    requires |rest| == 20 && |rs| == |fs| < 0x1_0000 && forall f :: f in fs ==> SkippedOk(f)
    ensures Parsed(Encode(rest, rs, fs) + trailing) == Ok(rs)
  {
    var pkt := Encode(rest, rs, fs) + trailing;
    assert pkt[0..2] == Put16(5) && pkt[2..4] == Put16(|rs|);
    forall i | 0 <= i < |rs| ensures ReadRecords(pkt, |rs|)[i] == rs[i] {
      RecordInBody(rs, fs, i);
      SliceOfBody(rest, rs, fs, trailing, i);
      RecordRoundTrip(rs[i], fs[i]);
    }
  }

  function ReadAllSkipped(pkt: seq<Byte>, n: nat): (fs: seq<Skipped>)
    requires HEADER + RECORD * n <= |pkt|
    ensures |fs| == n && forall f :: f in fs ==> SkippedOk(f)
  {
    seq(n, i requires 0 <= i < n => ReadSkipped(Slice(pkt, i)))
  }

  lemma PutOneMore(rs: seq<Record>, fs: seq<Skipped>, r: Record, f: Skipped)
    requires |rs| == |fs| && SkippedOk(f) && forall g :: g in fs ==> SkippedOk(g)
    ensures PutRecords(rs + [r], fs + [f]) == PutRecords(rs, fs) + PutRecord(r, f)
  {
    assert (rs + [r])[..|rs|] == rs && (fs + [f])[..|fs|] == fs;
  }

  lemma ReadOneMore(pkt: seq<Byte>, n: nat)
    requires HEADER + RECORD * (n + 1) <= |pkt|
    ensures ReadRecords(pkt, n + 1) == ReadRecords(pkt, n) + [ReadRecord(Slice(pkt, n))]
    ensures ReadAllSkipped(pkt, n + 1) == ReadAllSkipped(pkt, n) + [ReadSkipped(Slice(pkt, n))]
  {
  }

  lemma AppendBytes(rs: seq<Record>, fs: seq<Skipped>, b: seq<Byte>)
    requires |rs| == |fs| && |b| == RECORD && forall g :: g in fs ==> SkippedOk(g)
    ensures PutRecords(rs + [ReadRecord(b)], fs + [ReadSkipped(b)]) == PutRecords(rs, fs) + b
  {
    RecordBytes(b);
    PutOneMore(rs, fs, ReadRecord(b), ReadSkipped(b));
  }

  lemma BodySplit(pkt: seq<Byte>, n: nat)
    requires n > 0 && HEADER + RECORD * n <= |pkt|
    ensures pkt[HEADER..HEADER + RECORD * n] == pkt[HEADER..HEADER + RECORD * (n - 1)] + Slice(pkt, n - 1)
  {
    SliceSplit(pkt, HEADER, HEADER + RECORD * (n - 1), HEADER + RECORD * n);
  }

  lemma {:induction false} BodyBytes(pkt: seq<Byte>, n: nat)
    requires HEADER + RECORD * n <= |pkt|
    ensures PutRecords(ReadRecords(pkt, n), ReadAllSkipped(pkt, n)) == pkt[HEADER..HEADER + RECORD * n]
  {
    if n > 0 {
      BodyBytes(pkt, n - 1);
      ReadOneMore(pkt, n - 1);
      AppendBytes(ReadRecords(pkt, n - 1), ReadAllSkipped(pkt, n - 1), Slice(pkt, n - 1));
      BodySplit(pkt, n);
    }
  }

  lemma FourParts<X>(s: seq<X>, i: nat, j: nat, k: nat, l: nat)
    requires i <= j <= k <= l <= |s|
    ensures s[..l] == s[0..i] + s[i..j] + s[j..k] + s[k..l]
  {
  }

  /** Every accepted packet is the encoding of the records decoded from it and the bytes skipped, followed by bytes
      that are ignored. */
  lemma EncodeDecode(pkt: seq<Byte>)
    requires Parsed(pkt).Ok?
    ensures var rs := Parsed(pkt).records;
            && HEADER + RECORD * |rs| <= |pkt| && |rs| < 0x1_0000
            && Encode(pkt[4..HEADER], rs, ReadAllSkipped(pkt, |rs|)) == pkt[..HEADER + RECORD * |rs|]
  {
    var n := Uint16(pkt[2..4]);
    BodyBytes(pkt, n);
    Put16Back(pkt[0..2]);
    Put16Back(pkt[2..4]);
    FourParts(pkt, 2, 4, HEADER, HEADER + RECORD * n);
  }

  /** Bytes beyond the announced records are ignored, and cutting into the records is an error, never a shorter list. */
  lemma PrefixOrError(pkt: seq<Byte>, n: nat)
    requires Parsed(pkt).Ok? && n <= |pkt|
    ensures n >= HEADER + RECORD * |Parsed(pkt).records| ==> Parsed(pkt[..n]) == Parsed(pkt)
    ensures n < HEADER + RECORD * |Parsed(pkt).records| ==> Parsed(pkt[..n]).Err?
  {
    var cut := pkt[..n];
    if n >= HEADER {
      assert cut[0..2] == pkt[0..2] && cut[2..4] == pkt[2..4];
      var count := Uint16(pkt[2..4]);
      if n >= HEADER + RECORD * count {
        forall i | 0 <= i < count ensures ReadRecords(cut, count)[i] == ReadRecords(pkt, count)[i] {
          assert Slice(cut, i) == Slice(pkt, i);
        }
      }
    }
  }
}
