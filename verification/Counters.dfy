/** Interface rates from 64-bit counters: computeRates and bpsDelta of the central poller
    (internal/poller/scheduler.go), which the collector repeats as applyRates (internal/collector/snmp_poller.go).
    Floating-point numbers are reals. */
module Counters {
  import opened Text

  const MODULUS: int := 0x1_0000_0000_0000_0000
  type U64 = n: int | 0 <= n < 0x1_0000_0000_0000_0000

  const SANITY_MAX_BPS: int := 10_000_000_000_000

  /** cur - prev on uint64. */
  function Delta(prev: U64, cur: U64): U64 { (cur - prev) % MODULUS }

  /** The exact rate. */
  function Rate(prev: U64, cur: U64, dt: real): real
    requires dt > 0.0
  {
    (Delta(prev, cur) as real) * 8.0 / dt
  }

  /** uint64(x): the fraction is dropped; beyond the range the result is whatever the platform yields. */
  function ToUint64(x: real, beyond: U64): U64
    requires x >= 0.0
  {
    if x < MODULUS as real then
      FloorInRange(x);
      x.Floor
    else beyond
  }

  lemma FloorInRange(x: real)
    requires 0.0 <= x < MODULUS as real
    ensures 0 <= x.Floor < MODULUS
  {
  }

  function BpsDelta(prev: U64, cur: U64, dt: real, beyond: U64): Option<U64>
    requires dt > 0.0
  {
    RatePositive(prev, cur, dt);
    var bps := ToUint64(Rate(prev, cur, dt), beyond);
    if bps > SANITY_MAX_BPS then None else Some(bps)
  }

  lemma QuotientPositive(x: real, dt: real)
    requires x >= 0.0 && dt > 0.0
    ensures x / dt >= 0.0
  {
  }

  lemma RatePositive(prev: U64, cur: U64, dt: real)
    requires dt > 0.0
    ensures Rate(prev, cur, dt) >= 0.0
  {
    QuotientPositive((Delta(prev, cur) as real) * 8.0, dt);
  }

  // ---------- deltas ----------

  lemma {:induction false} SameResidue(a: int, b: int, k: int)
    requires a == b + k * MODULUS
    ensures a % MODULUS == b % MODULUS
  {
  }

  /** A device counter holds the true total modulo 2^64. Across any number of wraps the delta is the true increment
      exactly when that increment is below 2^64. */
  lemma DeltaIsIncrement(before: nat, after: nat)
    requires before <= after
    ensures Delta(before % MODULUS, after % MODULUS) == (after - before) % MODULUS
    ensures Delta(before % MODULUS, after % MODULUS) == after - before <==> after - before < MODULUS
  {
    var k := after / MODULUS - before / MODULUS;
    assert after == (after / MODULUS) * MODULUS + after % MODULUS;
    assert before == (before / MODULUS) * MODULUS + before % MODULUS;
    assert after - before == (after % MODULUS - before % MODULUS) + k * MODULUS;
    SameResidue(after - before, after % MODULUS - before % MODULUS, k);
  }

  function SumOfDeltas(readings: seq<U64>): nat {
    if |readings| < 2 then 0
    else SumOfDeltas(readings[..|readings| - 1]) + Delta(readings[|readings| - 2], readings[|readings| - 1])
  }

  /** totals are the true totals behind the readings: they never fall, and never grow by 2^64 or more at once. */
  ghost predicate Tracks(totals: seq<nat>, readings: seq<U64>) {
    |totals| == |readings|
    && (forall i :: 0 <= i < |totals| ==> readings[i] == totals[i] % MODULUS)
    && (forall i :: 0 < i < |totals| ==> totals[i - 1] <= totals[i] < totals[i - 1] + MODULUS)
  }

  /** Over any run the deltas add up to the total growth. */
  lemma {:induction false} DeltasTelescope(totals: seq<nat>, readings: seq<U64>)
    requires Tracks(totals, readings) && totals != []
    ensures totals[0] + SumOfDeltas(readings) == totals[|totals| - 1]
  {
    var n := |totals|;
    if n > 1 {
      DeltasTelescope(totals[..n - 1], readings[..n - 1]);
      DeltaIsIncrement(totals[n - 2], totals[n - 1]);
    }
  }

  // ---------- the published rate ----------

  /** A published rate is at most 10 Tbit/s. It is the exact rate rounded down if and only if that rate fits in a
      uint64; inside that range nothing is published exactly when the rate is implausible. */
  lemma PublishedRate(prev: U64, cur: U64, dt: real, beyond: U64)
    requires dt > 0.0
    ensures var r, exact := BpsDelta(prev, cur, dt, beyond), Rate(prev, cur, dt);
            && (r.Some? ==> 0 <= r.value <= SANITY_MAX_BPS)
            && (r.Some? ==> (r.value == exact.Floor <==> exact < MODULUS as real))
            && (exact < MODULUS as real ==> (r.None? <==> exact.Floor > SANITY_MAX_BPS))
  {
    RatePositive(prev, cur, dt);
    var exact := Rate(prev, cur, dt);
    if exact >= MODULUS as real {
      assert exact.Floor >= MODULUS;
    }
  }

  lemma QuotientBelow(x: real, dt: real, bound: real)
    requires 0.0 <= x < bound && dt >= 8.0
    ensures x * 8.0 / dt < bound
  {
    var q := x * 8.0 / dt;
    QuotientPositive(x * 8.0, dt);
    assert q * dt == x * 8.0;
    ScaledAbove(q, dt);
  }

  lemma ScaledAbove(q: real, dt: real)
    requires q >= 0.0 && dt >= 8.0
    ensures q * dt >= q * 8.0
  {
    assert q * (dt - 8.0) >= 0.0;
    assert q * dt == q * (dt - 8.0) + q * 8.0;
  }

  /** With polls at least 8 seconds apart the rate always fits. */
  lemma FitsWhenSlow(prev: U64, cur: U64, dt: real)
    requires dt >= 8.0
    ensures Rate(prev, cur, dt) < MODULUS as real
  {
    QuotientBelow(Delta(prev, cur) as real, dt, MODULUS as real);
  }

  /** Below that it may not: one second after a reset to 0, a counter that stood at 2^63 has a rate of 2^66. Where the
      conversion yields 0, the idle rate 0 is published instead of nothing. */
  lemma ResetMayPublishZero()
    ensures Rate(0x8000_0000_0000_0000, 0, 1.0) >= MODULUS as real
    ensures BpsDelta(0x8000_0000_0000_0000, 0, 1.0, 0) == Some(0)
  {
    assert Delta(0x8000_0000_0000_0000, 0) == 0x8000_0000_0000_0000;
  }

  // ---------- the tracker ----------

  datatype Key = Key(appliance: string, index: int)

  /** The zero time is None. Times are nanoseconds. */
  datatype Reading = Reading(time: Option<int>, inOctets: U64, outOctets: U64,
                             inErrors: U64, outErrors: U64, inDiscards: U64, outDiscards: U64)

  datatype Interface = Interface(index: int, inOctets: U64, outOctets: U64, inErrors: U64, outErrors: U64,
                                 inDiscards: U64, outDiscards: U64, inBps: Option<U64>, outBps: Option<U64>)

  type Rates = map<Key, Reading>

  function Read(now: Option<int>, ifc: Interface): Reading {
    Reading(now, ifc.inOctets, ifc.outOctets, ifc.inErrors, ifc.outErrors, ifc.inDiscards, ifc.outDiscards)
  }

  function Store(rates: Rates, id: string, now: Option<int>, ifc: Interface): Rates {
    rates[Key(id, ifc.index) := Read(now, ifc)]
  }

  function StoreAll(rates: Rates, id: string, now: Option<int>, ifcs: seq<Interface>): Rates {
    if ifcs == [] then rates
    else Store(StoreAll(rates, id, now, ifcs[..|ifcs| - 1]), id, now, ifcs[|ifcs| - 1])
  }

  /** now.Sub(then).Seconds(); the zero time lies before every other. */
  function Elapsed(then_: Option<int>, now: Option<int>): real {
    if then_.Some? && now.Some? then (now.value - then_.value) as real / 1_000_000_000.0
    else 0.0
  }

  /** There is a reading to rate against, and time has passed since. */
  predicate Ratable(rates: Rates, key: Key, now: Option<int>) {
    key in rates && Elapsed(rates[key].time, now) > 0.0
  }

  /** Both octet counters against the previous reading: no rate on a first sighting, on a zero time or without
      time passing; an implausible rate leaves the field as it was. */
  function Rated(ifc: Interface, rates: Rates, id: string, now: Option<int>, beyond: U64): Interface {
    var key := Key(id, ifc.index);
    if !Ratable(rates, key, now) then ifc
    else
      var dt := Elapsed(rates[key].time, now);
      var inBps := BpsDelta(rates[key].inOctets, ifc.inOctets, dt, beyond);
      var outBps := BpsDelta(rates[key].outOctets, ifc.outOctets, dt, beyond);
      ifc.(inBps := if inBps.Some? then inBps else ifc.inBps, outBps := if outBps.Some? then outBps else ifc.outBps)
  }

  class RateTracker {
    var rates: Rates
    const beyond: U64

    constructor (beyond: U64)
      ensures rates == map[] && this.beyond == beyond
    {
      rates := map[];
      this.beyond := beyond;
    }

    /** The loop over a snapshot's interfaces: each is rated against the readings stored so far, which include those
        of the interfaces before it. */
    method ComputeRates(id: string, now: Option<int>, ifcs: array<Interface>)
      modifies this, ifcs
      ensures rates == StoreAll(old(rates), id, now, old(ifcs[..]))
      ensures forall i :: 0 <= i < ifcs.Length ==>
                ifcs[i] == Rated(old(ifcs[i]), StoreAll(old(rates), id, now, old(ifcs[..])[..i]), id, now, beyond)
    {
      ghost var before := ifcs[..];
      for i := 0 to ifcs.Length
        invariant rates == StoreAll(old(rates), id, now, before[..i])
        invariant forall j :: i <= j < ifcs.Length ==> ifcs[j] == before[j]
        invariant forall j :: 0 <= j < i ==>
                    ifcs[j] == Rated(before[j], StoreAll(old(rates), id, now, before[..j]), id, now, beyond)
      {
        RateOne(id, now, ifcs, i);
        assert before[..i + 1][..i] == before[..i];
      }
      assert before[..ifcs.Length] == before;
    }

    method RateOne(id: string, now: Option<int>, ifcs: array<Interface>, i: nat)
      requires i < ifcs.Length
      modifies this, ifcs
      ensures rates == Store(old(rates), id, now, old(ifcs[i]))
      ensures ifcs[..] == old(ifcs[..])[i := Rated(old(ifcs[i]), old(rates), id, now, beyond)]
    {
      var ifc := ifcs[i];
      var key := Key(id, ifc.index);
      var hadPrev := key in rates;
      var prev := if hadPrev then rates[key] else Reading(None, 0, 0, 0, 0, 0, 0);
      rates := rates[key := Read(now, ifc)];
      if !hadPrev || prev.time.None? {
        return;
      }
      var dt := Elapsed(prev.time, now);
      if dt <= 0.0 {
        return;
      }
      var inBps := BpsDelta(prev.inOctets, ifc.inOctets, dt, beyond);
      var outBps := BpsDelta(prev.outOctets, ifc.outOctets, dt, beyond);
      if inBps.Some? {
        ifc := ifc.(inBps := inBps);
      }
      if outBps.Some? {
        ifc := ifc.(outBps := outBps);
      }
      ifcs[i] := ifc;
    }
  }

  // ---------- what a snapshot publishes ----------

  predicate HasIndex(ifcs: seq<Interface>, index: int) { exists i :: 0 <= i < |ifcs| && ifcs[i].index == index }

  /** The reading under a key after a snapshot is that of its last interface with the index, if there is one. */
  lemma {:induction false} StoredLast(rates: Rates, id: string, now: Option<int>, ifcs: seq<Interface>, key: Key)
    ensures !(key.appliance == id && HasIndex(ifcs, key.index)) ==>
              (key in StoreAll(rates, id, now, ifcs) <==> key in rates)
              && (key in rates ==> StoreAll(rates, id, now, ifcs)[key] == rates[key])
    ensures key.appliance == id && HasIndex(ifcs, key.index) ==>
              key in StoreAll(rates, id, now, ifcs) && StoreAll(rates, id, now, ifcs)[key].time == now
  {
    if ifcs != [] {
      var before, last := ifcs[..|ifcs| - 1], ifcs[|ifcs| - 1];
      StoredLast(rates, id, now, before, key);
      assert HasIndex(ifcs, key.index) <==> HasIndex(before, key.index) || last.index == key.index by {
        if HasIndex(before, key.index) {
          var i :| 0 <= i < |before| && before[i].index == key.index;
          assert ifcs[i].index == key.index;
        }
        assert ifcs[|ifcs| - 1] == last;
      }
    }
  }

  /** In a snapshot without repeated indices every interface is rated against the previous snapshots only; a repeated
      index gets no rate, because no time has passed since its twin, nor does one on its first sighting or without
      time passing. */
  lemma RatedAgainstPast(rates: Rates, id: string, now: Option<int>, ifcs: seq<Interface>, i: nat, beyond: U64)
    requires i < |ifcs|
    ensures var r := Rated(ifcs[i], StoreAll(rates, id, now, ifcs[..i]), id, now, beyond);
            && (r == if HasIndex(ifcs[..i], ifcs[i].index) then ifcs[i] else Rated(ifcs[i], rates, id, now, beyond))
            && (!Ratable(rates, Key(id, ifcs[i].index), now) ==> r == ifcs[i])
  {
    StoredLast(rates, id, now, ifcs[..i], Key(id, ifcs[i].index));
  }

  // ---------- runs of snapshots ----------

  datatype Snapshot = Snapshot(id: string, now: Option<int>, ifcs: seq<Interface>)

  function AfterAll(snaps: seq<Snapshot>): Rates {
    if snaps == [] then map[]
    else
      var s := snaps[|snaps| - 1];
      StoreAll(AfterAll(snaps[..|snaps| - 1]), s.id, s.now, s.ifcs)
  }

  /** Every reading a snapshot contains for a key, in order. */
  function ReadingsIn(id: string, now: Option<int>, ifcs: seq<Interface>, key: Key): seq<Reading> {
    if ifcs == [] then []
    else
      var last := ifcs[|ifcs| - 1];
      ReadingsIn(id, now, ifcs[..|ifcs| - 1], key) + if Key(id, last.index) == key then [Read(now, last)] else []
  }

  function History(snaps: seq<Snapshot>, key: Key): seq<Reading> {
    if snaps == [] then []
    else
      var s := snaps[|snaps| - 1];
      History(snaps[..|snaps| - 1], key) + ReadingsIn(s.id, s.now, s.ifcs, key)
  }

  ghost predicate HoldsLast(rates: Rates, key: Key, h: seq<Reading>) {
    if h == [] then key !in rates else key in rates && rates[key] == h[|h| - 1]
  }

  lemma {:induction false} StoreHoldsLast(rates: Rates, h: seq<Reading>, id: string, now: Option<int>,
                                          ifcs: seq<Interface>, key: Key)
    requires HoldsLast(rates, key, h)
    ensures HoldsLast(StoreAll(rates, id, now, ifcs), key, h + ReadingsIn(id, now, ifcs, key))
  {
    if ifcs == [] {
      assert h + [] == h;
    } else {
      StoreHoldsLast(rates, h, id, now, ifcs[..|ifcs| - 1], key);
      var before := ReadingsIn(id, now, ifcs[..|ifcs| - 1], key);
      assert h + (before + [Read(now, ifcs[|ifcs| - 1])]) == (h + before) + [Read(now, ifcs[|ifcs| - 1])];
      assert h + (before + []) == h + before;
    }
  }

  /** After any run the stored reading of a key is the last one ever seen for it, so the next delta is taken from
      exactly there. */
  lemma {:induction false} TracksLastReading(snaps: seq<Snapshot>, key: Key)
    ensures HoldsLast(AfterAll(snaps), key, History(snaps, key))
  {
    if snaps != [] {
      var s := snaps[|snaps| - 1];
      TracksLastReading(snaps[..|snaps| - 1], key);
      StoreHoldsLast(AfterAll(snaps[..|snaps| - 1]), History(snaps[..|snaps| - 1], key), s.id, s.now, s.ifcs, key);
    }
  }

  // ---------- what the tracker's deltas add up to ----------

  datatype Direction = In | Out

  function Octets(r: Reading, d: Direction): U64 { if d.In? then r.inOctets else r.outOctets }

  function AllOctets(h: seq<Reading>, d: Direction): (r: seq<U64>)
    ensures |r| == |h|
  {
    seq(|h|, i requires 0 <= i < |h| => Octets(h[i], d))
  }

  /** The delta of a key's interface against the stored reading, among those that are rated or those that are not. */
  function DeltaOf(rates: Rates, id: string, now: Option<int>, ifc: Interface, key: Key, d: Direction,
                   rated: bool): nat {
    if Key(id, ifc.index) == key && key in rates && Ratable(rates, key, now) == rated
    then Delta(Octets(rates[key], d), Octets(Read(now, ifc), d)) else 0
  }

  /** Over a snapshot, each delta against the readings stored when its interface is reached. */
  function SnapshotDeltas(rates: Rates, id: string, now: Option<int>, ifcs: seq<Interface>, key: Key, d: Direction,
                          rated: bool): nat {
    if ifcs == [] then 0
    else
      var before := ifcs[..|ifcs| - 1];
      SnapshotDeltas(rates, id, now, before, key, d, rated)
      + DeltaOf(StoreAll(rates, id, now, before), id, now, ifcs[|ifcs| - 1], key, d, rated)
  }

  function RunDeltas(snaps: seq<Snapshot>, key: Key, d: Direction, rated: bool): nat {
    if snaps == [] then 0
    else
      var before, s := snaps[..|snaps| - 1], snaps[|snaps| - 1];
      RunDeltas(before, key, d, rated) + SnapshotDeltas(AfterAll(before), s.id, s.now, s.ifcs, key, d, rated)
  }

  /** The deltas of consecutive readings, where time passed between them or where it did not. */
  function PairDeltas(h: seq<Reading>, d: Direction, passed: bool): nat {
    if |h| < 2 then 0
    else
      var n := |h|;
      PairDeltas(h[..n - 1], d, passed)
      + if (Elapsed(h[n - 2].time, h[n - 1].time) > 0.0) == passed then Delta(Octets(h[n - 2], d), Octets(h[n - 1], d))
        else 0
  }

  lemma OneMorePair(rates: Rates, h: seq<Reading>, id: string, now: Option<int>, ifc: Interface, key: Key, d: Direction,
                    rated: bool)
    requires HoldsLast(rates, key, h) && Key(id, ifc.index) == key
    ensures PairDeltas(h + [Read(now, ifc)], d, rated)
            == PairDeltas(h, d, rated) + DeltaOf(rates, id, now, ifc, key, d, rated)
  {
    assert (h + [Read(now, ifc)])[..|h|] == h;
  }

  lemma {:induction false} SnapshotPairs(rates: Rates, h: seq<Reading>, id: string, now: Option<int>,
                                         ifcs: seq<Interface>, key: Key, d: Direction, rated: bool)
    requires HoldsLast(rates, key, h)
    ensures PairDeltas(h + ReadingsIn(id, now, ifcs, key), d, rated)
         == PairDeltas(h, d, rated) + SnapshotDeltas(rates, id, now, ifcs, key, d, rated)
  {
    if ifcs == [] {
      assert h + [] == h;
    } else {
      var before, last := ifcs[..|ifcs| - 1], ifcs[|ifcs| - 1];
      var seen := h + ReadingsIn(id, now, before, key);
      SnapshotPairs(rates, h, id, now, before, key, d, rated);
      StoreHoldsLast(rates, h, id, now, before, key);
      if Key(id, last.index) == key {
        OneMorePair(StoreAll(rates, id, now, before), seen, id, now, last, key, d, rated);
        assert h + ReadingsIn(id, now, ifcs, key) == seen + [Read(now, last)];
      } else {
        assert h + ReadingsIn(id, now, ifcs, key) == seen;
      }
    }
  }

  /** Over a run the tracker's deltas for a key are those of consecutive readings of that key. */
  lemma {:induction false} DeltasArePairs(snaps: seq<Snapshot>, key: Key, d: Direction, rated: bool)
    ensures RunDeltas(snaps, key, d, rated) == PairDeltas(History(snaps, key), d, rated)
  {
    if snaps != [] {
      var before, s := snaps[..|snaps| - 1], snaps[|snaps| - 1];
      DeltasArePairs(before, key, d, rated);
      TracksLastReading(before, key);
      SnapshotPairs(AfterAll(before), History(before, key), s.id, s.now, s.ifcs, key, d, rated);
    }
  }

  lemma {:induction false} PairsSum(h: seq<Reading>, d: Direction)
    ensures PairDeltas(h, d, true) + PairDeltas(h, d, false) == SumOfDeltas(AllOctets(h, d))
  {
    if |h| >= 2 {
      PairsSum(h[..|h| - 1], d);
      assert AllOctets(h, d)[..|h| - 1] == AllOctets(h[..|h| - 1], d);
    }
  }

  /** Every reading of the key is later than the one before. */
  predicate TimePasses(h: seq<Reading>) { forall i :: 0 < i < |h| ==> Elapsed(h[i - 1].time, h[i].time) > 0.0 }

  lemma {:induction false} NothingSkipped(h: seq<Reading>, d: Direction)
    requires TimePasses(h)
    ensures PairDeltas(h, d, false) == 0
  {
    if |h| >= 2 {
      assert forall i :: 0 <= i < |h| - 1 ==> h[..|h| - 1][i] == h[i];
      NothingSkipped(h[..|h| - 1], d);
    }
  }

  /** Over a run of snapshots the deltas behind a key's rates and those the tracker skips, because no time had passed,
      add up to the true growth of the counter; where time always passes the rated deltas alone do. */
  lemma RatesCountGrowth(snaps: seq<Snapshot>, key: Key, d: Direction, totals: seq<nat>)
    requires Tracks(totals, AllOctets(History(snaps, key), d)) && totals != []
    ensures totals[0] + RunDeltas(snaps, key, d, true) + RunDeltas(snaps, key, d, false) == totals[|totals| - 1]
    ensures TimePasses(History(snaps, key)) ==> totals[0] + RunDeltas(snaps, key, d, true) == totals[|totals| - 1]
  {
    var h := History(snaps, key);
    DeltasArePairs(snaps, key, d, true);
    DeltasArePairs(snaps, key, d, false);
    PairsSum(h, d);
    DeltasTelescope(totals, AllOctets(h, d));
    if TimePasses(h) { NothingSkipped(h, d); }
  }
}
