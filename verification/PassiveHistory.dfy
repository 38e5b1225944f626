/** Runs of merges on one site: the change feed against the inventory, misses against retirement. */
module PassiveHistory {
  import opened Text
  import opened PassiveSnmp

  /** The inventory and everything the merges ever wrote to the feed. */
  datatype World = World(inv: Inventory, feed: seq<Event>)

  const EMPTY := World(map[], [])

  ghost predicate Step(w: World, b: Batch, w': World) {
    exists es :: w'.feed == w.feed + es && Merged(w.inv, b, w'.inv, es)
  }

  ghost predicate IsRun(ws: seq<World>, bs: seq<Batch>) {
    |ws| == |bs| + 1 && ws[0] == EMPTY && forall i :: 0 <= i < |bs| ==> Step(ws[i], bs[i], ws[i + 1])
  }

  /** The run without its last merge, and that merge seen from one address. */
  lemma LastStep(ws: seq<World>, bs: seq<Batch>, ip: Ip)
    requires IsRun(ws, bs) && bs != []
    ensures IsRun(ws[..|bs|], bs[..|bs| - 1])
    ensures var w, b, w' := ws[|bs| - 1], bs[|bs| - 1], ws[|bs|];
            var r := EffectiveRetireAfter(b.retireAfter);
            && Lookup(w'.inv, ip) == MergeRow(Lookup(w.inv, ip), EntryOf(b, ip), r, b.now)
            && Of(w'.feed, ip) == Of(w.feed, ip) + MergeEvents(ip, Lookup(w.inv, ip), EntryOf(b, ip), r, b.now)
  {
    var w, b, w' := ws[|bs| - 1], bs[|bs| - 1], ws[|bs|];
    assert Step(w, b, w');
    var es :| w'.feed == w.feed + es && Merged(w.inv, b, w'.inv, es);
    OfConcat(w.feed, es, ip);
    assert forall i :: 0 <= i < |bs| - 1 ==> Step(ws[i], bs[i], ws[i + 1]);
  }

  // ---------- the result does not depend on the order the batch is walked in ----------

  lemma {:induction false} OfKeepsCount(es: seq<Event>, e: Event)
    ensures multiset(es)[e] == multiset(Of(es, e.ip))[e]
  {
    if es != [] {
      var front, last := es[..|es| - 1], es[|es| - 1];
      assert es == front + [last];
      OfKeepsCount(front, e);
    }
  }

  lemma SameRows(inv1: Inventory, inv2: Inventory)
    requires forall ip :: Lookup(inv1, ip) == Lookup(inv2, ip)
    ensures inv1 == inv2
  {
    assert forall ip :: ip in inv1 <==> Lookup(inv1, ip).Some?;
    assert forall ip :: ip in inv2 <==> Lookup(inv2, ip).Some?;
    assert forall ip :: ip in inv1 ==> inv1[ip] == Lookup(inv1, ip).value == Lookup(inv2, ip).value == inv2[ip];
  }

  lemma SameEvents(es1: seq<Event>, es2: seq<Event>)
    requires forall ip :: Of(es1, ip) == Of(es2, ip)
    ensures multiset(es1) == multiset(es2)
  {
    forall e ensures multiset(es1)[e] == multiset(es2)[e] {
      OfKeepsCount(es1, e);
      OfKeepsCount(es2, e);
      assert Of(es1, e.ip) == Of(es2, e.ip);
    }
  }

  /** Two walks over the same batch leave the same inventory and write the same events, up to their order. */
  lemma OrderIndependent(inv: Inventory, b: Batch, inv1: Inventory, es1: seq<Event>, inv2: Inventory, es2: seq<Event>)
    requires Merged(inv, b, inv1, es1) && Merged(inv, b, inv2, es2)
    ensures inv1 == inv2 && multiset(es1) == multiset(es2)
  {
    SameRows(inv1, inv2);
    SameEvents(es1, es2);
  }

  // ---------- replaying the feed ----------

  function StatusAfter(k: EventKind): Status { if k == RetiredNow then Retired else Active }

  /** Folding the feed from an empty inventory. */
  function Replay(es: seq<Event>): map<Ip, Status> {
    if es == [] then map[]
    else Replay(es[..|es| - 1])[es[|es| - 1].ip := StatusAfter(es[|es| - 1].kind)]
  }

  function LastStatus(es: seq<Event>): Option<Status> {
    if es == [] then None else Some(StatusAfter(es[|es| - 1].kind))
  }

  lemma {:induction false} ReplayByIp(es: seq<Event>, ip: Ip)
    ensures (if ip in Replay(es) then Some(Replay(es)[ip]) else None) == LastStatus(Of(es, ip))
  {
    if es != [] { ReplayByIp(es[..|es| - 1], ip); }
  }

  function StatusOf(r: Option<Row>): Option<Status> { if r.Some? then Some(r.value.status) else None }

  lemma LastStatusAppend(a: seq<Event>, b: seq<Event>)
    ensures LastStatus(a + b) == if b == [] then LastStatus(a) else LastStatus(b)
  {
    if b == [] { assert a + b == a; }
  }

  lemma EventsMoveStatus(ip: Ip, prev: Option<Row>, entry: Option<Device>, r: nat, now: int)
    requires r >= 1
    ensures var es := MergeEvents(ip, prev, entry, r, now);
            StatusOf(MergeRow(prev, entry, r, now)) == if es == [] then StatusOf(prev) else LastStatus(es)
  {
  }

  lemma {:induction false} FeedStatus(ws: seq<World>, bs: seq<Batch>, ip: Ip)
    requires IsRun(ws, bs)
    ensures LastStatus(Of(ws[|bs|].feed, ip)) == StatusOf(Lookup(ws[|bs|].inv, ip))
    decreases |bs|
  {
    if bs != [] {
      LastStep(ws, bs, ip);
      FeedStatus(ws[..|bs|], bs[..|bs| - 1], ip);
      var w, b := ws[|bs| - 1], bs[|bs| - 1];
      var r := EffectiveRetireAfter(b.retireAfter);
      EventsMoveStatus(ip, Lookup(w.inv, ip), EntryOf(b, ip), r, b.now);
      LastStatusAppend(Of(w.feed, ip), MergeEvents(ip, Lookup(w.inv, ip), EntryOf(b, ip), r, b.now));
    }
  }

  /** From an empty inventory, folding the untrimmed feed reproduces every row's status after every run. */
  lemma ReplayReproduces(ws: seq<World>, bs: seq<Batch>)
    requires IsRun(ws, bs)
    ensures Replay(ws[|bs|].feed) == map ip | ip in ws[|bs|].inv :: ws[|bs|].inv[ip].status
  {
    var w := ws[|bs|];
    var replayed := Replay(w.feed);
    forall ip ensures (ip in replayed <==> ip in w.inv) && (ip in w.inv ==> replayed[ip] == w.inv[ip].status) {
      ReplayByIp(w.feed, ip);
      FeedStatus(ws, bs, ip);
    }
  }

  // ---------- the event language of one address ----------

  datatype Phase = Unknown | Live | Gone

  /** added changed* (retired reactivated changed*)* retired? as the automaton of that expression. */
  function Move(p: Phase, k: EventKind): Option<Phase> {
    match p
    case Unknown => if k == Added then Some(Live) else None
    case Live => if k == Changed then Some(Live) else if k == RetiredNow then Some(Gone) else None
    case Gone => if k == Reactivated then Some(Live) else None
  }

  function EndPhase(es: seq<Event>): Option<Phase> {
    if es == [] then Some(Unknown)
    else
      var p := EndPhase(es[..|es| - 1]);
      if p.None? then None else Move(p.value, es[|es| - 1].kind)
  }

  function PhaseOf(r: Option<Row>): Phase {
    if r.None? then Unknown else if r.value.status == Active then Live else Gone
  }

  lemma EventsMovePhase(ip: Ip, prev: Option<Row>, entry: Option<Device>, r: nat, now: int)
    requires r >= 1
    ensures var es := MergeEvents(ip, prev, entry, r, now);
            Some(PhaseOf(MergeRow(prev, entry, r, now)))
            == if es == [] then Some(PhaseOf(prev)) else Move(PhaseOf(prev), es[0].kind)
  {
  }

  /** Per address the feed is a word of the event language, and its end is the row's phase. */
  lemma {:induction false} FeedLanguage(ws: seq<World>, bs: seq<Batch>, ip: Ip)
    requires IsRun(ws, bs)
    ensures EndPhase(Of(ws[|bs|].feed, ip)) == Some(PhaseOf(Lookup(ws[|bs|].inv, ip)))
    decreases |bs|
  {
    if bs != [] {
      LastStep(ws, bs, ip);
      FeedLanguage(ws[..|bs|], bs[..|bs| - 1], ip);
      var w, b := ws[|bs| - 1], bs[|bs| - 1];
      var r := EffectiveRetireAfter(b.retireAfter);
      EventsMovePhase(ip, Lookup(w.inv, ip), EntryOf(b, ip), r, b.now);
      var past, es := Of(w.feed, ip), MergeEvents(ip, Lookup(w.inv, ip), EntryOf(b, ip), r, b.now);
      if es == [] {
        assert past + es == past;
      } else {
        assert (past + es)[..|past + es| - 1] == past;
      }
    }
  }

  // ---------- misses and retirement ----------

  /** How many of the last merges in a row did not have the address. */
  function Absences(bs: seq<Batch>, ip: Ip): nat {
    if bs == [] || ip in bs[|bs| - 1].seen then 0 else 1 + Absences(bs[..|bs| - 1], ip)
  }

  predicate EverSeen(bs: seq<Batch>, ip: Ip) {
    exists i :: 0 <= i < |bs| && ip in bs[i].seen
  }

  lemma EverSeenStep(bs: seq<Batch>, ip: Ip)
    requires bs != []
    ensures EverSeen(bs, ip) <==> ip in bs[|bs| - 1].seen || EverSeen(bs[..|bs| - 1], ip)
  {
    if EverSeen(bs, ip) {
      var i :| 0 <= i < |bs| && ip in bs[i].seen;
      if i < |bs| - 1 { assert ip in bs[..|bs| - 1][i].seen; }
    }
    if EverSeen(bs[..|bs| - 1], ip) {
      var i :| 0 <= i < |bs| - 1 && ip in bs[..|bs| - 1][i].seen;
      assert ip in bs[i].seen;
    }
  }

  lemma MissesStep(prev: Option<Row>, entry: Option<Device>, r: nat, now: int)
    requires r >= 1
    ensures var row := MergeRow(prev, entry, r, now);
            && (row.Some? <==> prev.Some? || entry.Some?)
            && (row.Some? && row.value.status == Active ==>
                  row.value.misses < r && row.value.misses == if entry.Some? then 0 else prev.value.misses + 1)
            && (row.Some? && row.value.status == Active && entry.None? ==> prev.value.status == Active)
  {
  }

  lemma {:induction false} RowIffEverSeen(ws: seq<World>, bs: seq<Batch>, ip: Ip)
    requires IsRun(ws, bs)
    ensures Lookup(ws[|bs|].inv, ip).Some? <==> EverSeen(bs, ip)
    decreases |bs|
  {
    if bs != [] {
      LastStep(ws, bs, ip);
      EverSeenStep(bs, ip);
      RowIffEverSeen(ws[..|bs|], bs[..|bs| - 1], ip);
    }
  }

  /** The rows are exactly the addresses ever captured; an active row's miss count is its number of consecutive
      absences and is below the threshold of the last merge. */
  lemma {:induction false} MissesCountAbsences(ws: seq<World>, bs: seq<Batch>, ip: Ip)
    requires IsRun(ws, bs)
    ensures ip in ws[|bs|].inv <==> EverSeen(bs, ip)
    ensures ip in ws[|bs|].inv && ws[|bs|].inv[ip].status == Active ==>
              && ws[|bs|].inv[ip].misses == Absences(bs, ip)
              && (bs != [] ==> ws[|bs|].inv[ip].misses < EffectiveRetireAfter(bs[|bs| - 1].retireAfter))
    decreases |bs|
  {
    if bs != [] {
      LastStep(ws, bs, ip);
      MissesCountAbsences(ws[..|bs|], bs[..|bs| - 1], ip);
      var w, b := ws[|bs| - 1], bs[|bs| - 1];
      MissesStep(Lookup(w.inv, ip), EntryOf(b, ip), EffectiveRetireAfter(b.retireAfter), b.now);
    }
    RowIffEverSeen(ws, bs, ip);
  }

  /** With a constant threshold a row is retired exactly when it has been absent that many merges in a row. */
  lemma {:induction false} RetiredIffAbsent(ws: seq<World>, bs: seq<Batch>, ip: Ip, r: nat)
    requires IsRun(ws, bs) && ip in ws[|bs|].inv
    requires forall i :: 0 <= i < |bs| ==> EffectiveRetireAfter(bs[i].retireAfter) == r
    ensures ws[|bs|].inv[ip].status == Retired <==> Absences(bs, ip) >= r
    decreases |bs|
  {
    if bs != [] {
      LastStep(ws, bs, ip);
      assert Lookup(ws[|bs|].inv, ip).Some?;
      var b := bs[|bs| - 1];
      assert EffectiveRetireAfter(b.retireAfter) == r;
      if ip !in b.seen {
        RetiredIffAbsent(ws[..|bs|], bs[..|bs| - 1], ip, r);
        MissesCountAbsences(ws[..|bs|], bs[..|bs| - 1], ip);
      }
    }
  }

  lemma RetireEventIff(ip: Ip, prev: Option<Row>, entry: Option<Device>, r: nat, now: int)
    ensures var es := MergeEvents(ip, prev, entry, r, now);
            (es != [] && es[0].kind == RetiredNow)
            <==> entry.None? && prev.Some? && prev.value.status == Active && prev.value.misses + 1 >= r
  {
  }

  /** With a constant threshold r, a merge writes the retirement of an address exactly when it is the r-th
      consecutive one without it. */
  lemma RetiresOnRthMiss(ws: seq<World>, bs: seq<Batch>, ip: Ip, r: nat)
    requires IsRun(ws, bs) && bs != []
    requires forall i :: 0 <= i < |bs| ==> EffectiveRetireAfter(bs[i].retireAfter) == r
    ensures var w, w' := ws[|bs| - 1], ws[|bs|];
            (exists e :: Of(w'.feed, ip) == Of(w.feed, ip) + [e] && e.kind == RetiredNow)
            <==> EverSeen(bs, ip) && Absences(bs, ip) == r
  {
    LastStep(ws, bs, ip);
    EverSeenStep(bs, ip);
    var w, b, w' := ws[|bs| - 1], bs[|bs| - 1], ws[|bs|];
    assert EffectiveRetireAfter(b.retireAfter) == r;
    var front := bs[..|bs| - 1];
    MissesCountAbsences(ws[..|bs|], front, ip);
    if ip in w.inv { RetiredIffAbsent(ws[..|bs|], front, ip, r); }
    var es := MergeEvents(ip, Lookup(w.inv, ip), EntryOf(b, ip), r, b.now);
    AppendedEvent(Of(w.feed, ip), es);
    RetireEventIff(ip, Lookup(w.inv, ip), EntryOf(b, ip), r, b.now);
    if bs[..|bs| - 1] != [] && ip in w.inv && w.inv[ip].status == Active {
      assert w.inv[ip].misses < EffectiveRetireAfter(front[|front| - 1].retireAfter);
    }
    assert (es != [] && es[0].kind == RetiredNow) <==> EverSeen(bs, ip) && Absences(bs, ip) == r;
  }

  lemma AppendedEvent(past: seq<Event>, es: seq<Event>)
    requires |es| <= 1
    ensures (exists e :: past + es == past + [e] && e.kind == RetiredNow) <==> (es != [] && es[0].kind == RetiredNow)
  {
    forall e | past + es == past + [e] && e.kind == RetiredNow ensures es == [e] {
      assert (past + es)[|past|..] == es && (past + [e])[|past|..] == [e];
    }
    if es != [] { assert es == [es[0]]; }
  }

  // ---------- the stored fields ----------

  function Part(d: Device, i: nat): Field
    requires i < 7
  {
    if i == 0 then d.vendor else if i == 1 then d.typ else if i == 2 then d.subType else if i == 3 then d.sysDescr
    else if i == 4 then d.sysObjectId else if i == 5 then d.sysName else d.sysLocation
  }

  /** The last text captured for a field of an address. */
  function LastCaptured(bs: seq<Batch>, ip: Ip, i: nat): Field
    requires i < 7
  {
    if bs == [] then None
    else
      var b := bs[|bs| - 1];
      if ip in b.seen && Part(b.seen[ip], i).Some? then Part(b.seen[ip], i) else LastCaptured(bs[..|bs| - 1], ip, i)
  }

  lemma PartOfMergeRow(prev: Option<Row>, entry: Option<Device>, r: nat, now: int, i: nat)
    requires i < 7
    ensures var row := MergeRow(prev, entry, r, now);
            (if row.Some? then Part(row.value.info, i) else None)
            == if entry.Some? && Part(entry.value, i).Some? then Part(entry.value, i)
               else if prev.Some? then Part(prev.value.info, i) else None
  {
  }

  /** Every stored field is the last text captured for it, so a field that has a text keeps one. */
  lemma {:induction false} FieldsAreLastCaptured(ws: seq<World>, bs: seq<Batch>, ip: Ip, i: nat)
    requires IsRun(ws, bs) && i < 7
    ensures (if ip in ws[|bs|].inv then Part(ws[|bs|].inv[ip].info, i) else None) == LastCaptured(bs, ip, i)
    decreases |bs|
  {
    if bs != [] {
      LastStep(ws, bs, ip);
      FieldsAreLastCaptured(ws[..|bs|], bs[..|bs| - 1], ip, i);
      var w, b := ws[|bs| - 1], bs[|bs| - 1];
      PartOfMergeRow(Lookup(w.inv, ip), EntryOf(b, ip), EffectiveRetireAfter(b.retireAfter), b.now, i);
      assert Lookup(ws[|bs|].inv, ip).Some? <==> ip in ws[|bs|].inv;
    }
  }

  /** The times of the first and the last merge that had the address. */
  function FirstCapture(bs: seq<Batch>, ip: Ip): Option<int> {
    if bs == [] then None
    else
      var before := FirstCapture(bs[..|bs| - 1], ip);
      if before.None? && ip in bs[|bs| - 1].seen then Some(bs[|bs| - 1].now) else before
  }

  function LastCapture(bs: seq<Batch>, ip: Ip): Option<int> {
    if bs == [] then None
    else if ip in bs[|bs| - 1].seen then Some(bs[|bs| - 1].now)
    else LastCapture(bs[..|bs| - 1], ip)
  }

  /** A row's first-seen time is that of the first merge with the address and never moves; its last-seen time is that of
      the last one. */
  lemma {:induction false} SeenTimes(ws: seq<World>, bs: seq<Batch>, ip: Ip)
    requires IsRun(ws, bs)
    ensures var row := Lookup(ws[|bs|].inv, ip);
            && FirstCapture(bs, ip) == (if row.Some? then Some(row.value.firstSeen) else None)
            && LastCapture(bs, ip) == (if row.Some? then Some(row.value.lastSeen) else None)
    decreases |bs|
  {
    if bs != [] {
      LastStep(ws, bs, ip);
      SeenTimes(ws[..|bs|], bs[..|bs| - 1], ip);
    }
  }

  /** A change is reported exactly when the stored vendor, type or description of an already active row changes. */
  lemma ChangedIff(ip: Ip, prev: Option<Row>, entry: Option<Device>, r: nat, now: int)
    requires r >= 1
    ensures (exists e :: MergeEvents(ip, prev, entry, r, now) == [e] && e.kind == Changed)
       <==> (prev.Some? && prev.value.status == Active && entry.Some?
             && Described(MergeRow(prev, entry, r, now).value.info) != Described(prev.value.info))
  {
    var es := MergeEvents(ip, prev, entry, r, now);
    if es != [] { assert es == [es[0]]; }
  }
}
