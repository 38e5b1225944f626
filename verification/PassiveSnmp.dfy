/** Passive SNMP inventory of one site: one transaction folds a batch of devices into the inventory,
    counts misses, retires rows and writes a change feed (internal/api/handlers_passive_snmp.go). */
module PassiveSnmp {
  import opened Text

  type Ip = string

  /** A descriptive text. None is the empty text of a captured device and the NULL of a stored row: the
      statements turn one into the other with NULLIF and COALESCE. */
  type Field = Option<string>

  datatype Device = Device(vendor: Field, typ: Field, subType: Field, sysDescr: Field,
                           sysObjectId: Field, sysName: Field, sysLocation: Field)

  datatype Status = Active | Retired
  datatype Row = Row(info: Device, status: Status, firstSeen: int, lastSeen: int, misses: nat)
  type Inventory = map<Ip, Row>

  datatype EventKind = Added | Changed | RetiredNow | Reactivated
  datatype Event = Event(ip: Ip, kind: EventKind, time: int, before: Option<(Field, Field, Field)>,
                         after: Option<Device>)

  datatype Entry = Entry(ip: Ip, device: Device)

  /** The batch as the merge sees it: at most one device per address. */
  datatype Batch = Batch(seen: map<Ip, Device>, retireAfter: int, now: int)

  // ---------- the merge, address by address ----------

  /** retireAfter <= 0 in the request means 3. */
  function EffectiveRetireAfter(requested: int): (r: nat)
    ensures r >= 1
  {
    if requested <= 0 then 3 else requested
  }

  /** The map the batch is loaded into: a later entry replaces an earlier one. */
  function LastByIp(entries: seq<Entry>): map<Ip, Device> {
    if entries == [] then map[]
    else LastByIp(entries[..|entries| - 1])[entries[|entries| - 1].ip := entries[|entries| - 1].device]
  }

  function Coalesce(captured: Field, stored: Field): Field { if captured.Some? then captured else stored }

  function MergeInfo(d: Device, prior: Device): Device {
    Device(Coalesce(d.vendor, prior.vendor), Coalesce(d.typ, prior.typ), Coalesce(d.subType, prior.subType),
           Coalesce(d.sysDescr, prior.sysDescr), Coalesce(d.sysObjectId, prior.sysObjectId),
           Coalesce(d.sysName, prior.sysName), Coalesce(d.sysLocation, prior.sysLocation))
  }

  function Lookup(inv: Inventory, ip: Ip): Option<Row> { if ip in inv then Some(inv[ip]) else None }

  /** INSERT ... ON CONFLICT DO UPDATE */
  function Upsert(prev: Option<Row>, d: Device, now: int): Row {
    match prev
    case None => Row(d, Active, now, now, 0)
    case Some(r) => Row(MergeInfo(d, r.info), Active, r.firstSeen, now, 0)
  }

  function Described(info: Device): (Field, Field, Field) { (info.vendor, info.typ, info.sysDescr) }

  /** The event of an address that is in the batch. */
  function SeenEvents(ip: Ip, prev: Option<Row>, d: Device, now: int): seq<Event> {
    match prev
    case None => [Event(ip, Added, now, None, Some(d))]
    case Some(r) =>
      if r.status == Retired then [Event(ip, Reactivated, now, None, Some(d))]
      else if (d.vendor.Some? && d.vendor != r.info.vendor) || (d.typ.Some? && d.typ != r.info.typ)
              || (d.sysDescr.Some? && d.sysDescr != r.info.sysDescr)
      then [Event(ip, Changed, now, Some(Described(r.info)), Some(d))]
      else []
  }

  /** An active row that is not in the batch. */
  function Missed(r: Row, retireAfter: nat): Row {
    r.(misses := r.misses + 1, status := if r.misses + 1 >= retireAfter then Retired else Active)
  }

  /** The row of one address after a merge. */
  function MergeRow(prev: Option<Row>, entry: Option<Device>, retireAfter: nat, now: int): Option<Row> {
    if entry.Some? then Some(Upsert(prev, entry.value, now))
    else if prev.Some? && prev.value.status == Active then Some(Missed(prev.value, retireAfter))
    else prev
  }

  /** The events one merge writes for one address: at most one. */
  function MergeEvents(ip: Ip, prev: Option<Row>, entry: Option<Device>, retireAfter: nat, now: int): (es: seq<Event>)
    ensures |es| <= 1
    ensures forall e :: e in es ==> e.ip == ip && e.time == now
  {
    if entry.Some? then SeenEvents(ip, prev, entry.value, now)
    else if prev.Some? && prev.value.status == Active && Missed(prev.value, retireAfter).status == Retired
    then [Event(ip, RetiredNow, now, Some(Described(prev.value.info)), None)]
    else []
  }

  function EntryOf(b: Batch, ip: Ip): Option<Device> { if ip in b.seen then Some(b.seen[ip]) else None }

  /** The events of one address, in order. */
  function Of(es: seq<Event>, ip: Ip): seq<Event> {
    if es == [] then []
    else Of(es[..|es| - 1], ip) + (if es[|es| - 1].ip == ip then [es[|es| - 1]] else [])
  }

  /** inv' and the new events are, for every address, what the row, the batch entry and the threshold say. */
  ghost predicate Merged(inv: Inventory, b: Batch, inv': Inventory, es: seq<Event>) {
    var r := EffectiveRetireAfter(b.retireAfter);
    forall ip ::
      && Lookup(inv', ip) == MergeRow(Lookup(inv, ip), EntryOf(b, ip), r, b.now)
      && Of(es, ip) == MergeEvents(ip, Lookup(inv, ip), EntryOf(b, ip), r, b.now)
  }

  // ---------- the transaction ----------

  lemma {:induction false} OfConcat(a: seq<Event>, b: seq<Event>, ip: Ip)
    ensures Of(a + b, ip) == Of(a, ip) + Of(b, ip)
  {
    if b == [] {
      assert a + b == a;
    } else {
      assert (a + b)[..|a + b| - 1] == a + b[..|b| - 1];
      OfConcat(a, b[..|b| - 1], ip);
    }
  }

  lemma AppendTwice(a: seq<Event>, b: seq<Event>, c: seq<Event>)
    ensures a + b + c == a + (b + c)
  {
  }

  /** Each address has had exactly its own events written, in whatever order. */
  ghost predicate Wrote(es: seq<Event>, events: map<Ip, seq<Event>>) {
    forall ip :: Of(es, ip) == if ip in events then events[ip] else []
  }

  /** Every list of events is about its own address. */
  predicate OwnEvents(events: map<Ip, seq<Event>>) {
    forall ip :: ip in events ==> |events[ip]| <= 1 && forall e :: e in events[ip] ==> e.ip == ip
  }

  lemma SingleEvent(ip: Ip, es: seq<Event>, k: Ip)
    requires |es| <= 1 && forall e :: e in es ==> e.ip == ip
    ensures Of(es, k) == if k == ip then es else []
  {
    if es != [] { assert es[..0] == []; }
  }

  /** One more address done. */
  lemma WroteOne(es: seq<Event>, events: map<Ip, seq<Event>>, todo: set<Ip>, ip: Ip)
    requires Wrote(es, events - todo) && OwnEvents(events) && ip in todo && ip in events
    ensures Wrote(es + events[ip], events - (todo - {ip}))
  {
    forall k ensures Of(es + events[ip], k) == if k in events - (todo - {ip}) then (events - (todo - {ip}))[k] else [] {
      OfConcat(es, events[ip], k);
      SingleEvent(ip, events[ip], k);
    }
  }

  lemma ReplaceOne(inv: Inventory, rows: map<Ip, Row>, todo: set<Ip>, ip: Ip)
    requires ip in rows && ip in todo
    ensures (inv + (rows - todo))[ip := rows[ip]] == inv + (rows - (todo - {ip}))
    ensures Lookup(inv + (rows - todo), ip) == Lookup(inv, ip)
  {
  }

  function UpsertRows(inv: Inventory, seen: map<Ip, Device>, now: int): map<Ip, Row> {
    map ip | ip in seen :: Upsert(Lookup(inv, ip), seen[ip], now)
  }

  function SeenFeed(inv: Inventory, seen: map<Ip, Device>, now: int): (events: map<Ip, seq<Event>>)
    ensures OwnEvents(events)
  {
    map ip | ip in seen :: SeenEvents(ip, Lookup(inv, ip), seen[ip], now)
  }

  /** Active rows outside the batch, with one more miss. */
  function MissedRows(inv: Inventory, seen: map<Ip, Device>): map<Ip, Row> {
    map ip | ip in inv && inv[ip].status == Active && ip !in seen :: inv[ip].(misses := inv[ip].misses + 1)
  }

  function RetiredRows(inv: Inventory, retireAfter: nat): map<Ip, Row> {
    map ip | ip in inv && inv[ip].status == Active && inv[ip].misses >= retireAfter :: inv[ip].(status := Retired)
  }

  function RetireEvent(ip: Ip, r: Row, now: int): Event {
    Event(ip, RetiredNow, now, Some(Described(r.info)), None)
  }

  function RetiredFeed(inv: Inventory, retireAfter: nat, now: int): (events: map<Ip, seq<Event>>)
    ensures OwnEvents(events)
  {
    map ip | ip in RetiredRows(inv, retireAfter) :: [RetireEvent(ip, inv[ip], now)]
  }

  class SiteStore {
    var inventory: Inventory
    var feed: seq<Event>

    constructor ()
      ensures inventory == map[] && feed == []
    {
      inventory, feed := map[], [];
    }

    /** One pass of the loop over seen: read the prior row, upsert, write the event. */
    method See(ip: Ip, d: Device, now: int)
      modifies this
      ensures inventory == old(inventory)[ip := Upsert(Lookup(old(inventory), ip), d, now)]
      ensures feed == old(feed) + SeenEvents(ip, Lookup(old(inventory), ip), d, now)
    {
      var prev := Lookup(inventory, ip);
      inventory := inventory[ip := Upsert(prev, d, now)];
      match prev
      case None => feed := feed + [Event(ip, Added, now, None, Some(d))];
      case Some(r) =>
        if r.status == Retired {
          feed := feed + [Event(ip, Reactivated, now, None, Some(d))];
        } else if (d.vendor.Some? && d.vendor != r.info.vendor) || (d.typ.Some? && d.typ != r.info.typ)
                  || (d.sysDescr.Some? && d.sysDescr != r.info.sysDescr) {
          feed := feed + [Event(ip, Changed, now, Some(Described(r.info)), Some(d))];
        }
    }

    /** The addresses outside todo are done. */
    ghost predicate SeenSoFar(seen: map<Ip, Device>, todo: set<Ip>, now: int, inv: Inventory, feed0: seq<Event>,
                              es: seq<Event>)
      reads this
    {
      && inventory == inv + (UpsertRows(inv, seen, now) - todo)
      && feed == feed0 + es && Wrote(es, SeenFeed(inv, seen, now) - todo)
    }

    lemma NoneSeen(seen: map<Ip, Device>, now: int)
      ensures SeenSoFar(seen, seen.Keys, now, inventory, feed, [])
    {
    }

    lemma AllSeen(seen: map<Ip, Device>, now: int, inv: Inventory, feed0: seq<Event>, es: seq<Event>)
      requires SeenSoFar(seen, {}, now, inv, feed0, es)
      ensures inventory == inv + UpsertRows(inv, seen, now)
      ensures feed == feed0 + es && Wrote(es, SeenFeed(inv, seen, now))
    {
      var rows, events := UpsertRows(inv, seen, now), SeenFeed(inv, seen, now);
      assert rows - {} == rows && events - {} == events;
    }

    /** The next address of the loop: what is done grows by it. */
    method SeeNext(ip: Ip, seen: map<Ip, Device>, todo: set<Ip>, now: int, ghost inv: Inventory,
                   ghost feed0: seq<Event>, ghost es: seq<Event>)
      returns (ghost es': seq<Event>)
      requires ip in todo && todo <= seen.Keys && SeenSoFar(seen, todo, now, inv, feed0, es)
      modifies this
      ensures SeenSoFar(seen, todo - {ip}, now, inv, feed0, es')
    {
      ReplaceOne(inv, UpsertRows(inv, seen, now), todo, ip);
      WroteOne(es, SeenFeed(inv, seen, now), todo, ip);
      es' := es + SeenFeed(inv, seen, now)[ip];
      See(ip, seen[ip], now);
    }

    /** The loop over the batch map, in whatever order the map is walked. */
    method SeeAll(seen: map<Ip, Device>, now: int) returns (ghost es: seq<Event>)
      modifies this
      ensures inventory == old(inventory) + UpsertRows(old(inventory), seen, now)
      ensures feed == old(feed) + es && Wrote(es, SeenFeed(old(inventory), seen, now))
    {
      ghost var inv, feed0 := inventory, feed;
      var todo := seen.Keys;
      es := [];
      NoneSeen(seen, now);
      while todo != {}
        invariant todo <= seen.Keys && SeenSoFar(seen, todo, now, inv, feed0, es)
        decreases todo
      {
        var ip :| ip in todo;
        es := SeeNext(ip, seen, todo, now, inv, feed0, es);
        todo := todo - {ip};
      }
      AllSeen(seen, now, inv, feed0, es);
    }

    /** UPDATE ... SET miss_count = miss_count + 1 for the active rows outside the batch. */
    method CountMisses(seen: map<Ip, Device>)
      modifies this`inventory
      ensures inventory == old(inventory) + MissedRows(old(inventory), seen)
    {
      inventory := inventory + MissedRows(inventory, seen);
    }

    /** The rows at or over the threshold are read first; then one update and one event for each, in any order. */
    method RetireRows(retireAfter: nat, now: int) returns (ghost es: seq<Event>)
      modifies this
      ensures inventory == old(inventory) + RetiredRows(old(inventory), retireAfter)
      ensures feed == old(feed) + es && Wrote(es, RetiredFeed(old(inventory), retireAfter, now))
    {
      var retiring := RetiredRows(inventory, retireAfter).Keys;
      ghost var rows := RetiredRows(inventory, retireAfter);
      ghost var events := RetiredFeed(inventory, retireAfter, now);
      var todo := retiring;
      es := [];
      while todo != {}
        invariant todo <= retiring
        invariant inventory == old(inventory) + (rows - todo)
        invariant feed == old(feed) + es && Wrote(es, events - todo)
        decreases todo
      {
        var ip :| ip in todo;
        ReplaceOne(old(inventory), rows, todo, ip);
        WroteOne(es, events, todo, ip);
        feed := feed + [RetireEvent(ip, inventory[ip], now)];
        inventory := inventory[ip := inventory[ip].(status := Retired)];
        es := es + events[ip];
        todo := todo - {ip};
      }
      assert rows - todo == rows && events - todo == events;
    }

    /** The statements of the transaction. */
    method Statements(seen: map<Ip, Device>, requested: int, now: int)
      returns (ghost first: seq<Event>, ghost second: seq<Event>)
      modifies this
      ensures var b, inv := Batch(seen, requested, now), old(inventory);
              && inventory == AfterMerge(inv, b)
              && feed == old(feed) + (first + second)
              && Wrote(first, SeenFeed(inv, seen, now))
              && Wrote(second, RetiredFeed(Counted(inv, b), EffectiveRetireAfter(requested), now))
    {
      ghost var feed0 := feed;
      first := SeeAll(seen, now);
      CountMisses(seen);
      second := RetireRows(EffectiveRetireAfter(requested), now);
      AppendTwice(feed0, first, second);
    }

    /** The whole transaction. */
    method Merge(entries: seq<Entry>, requested: int, now: int) returns (ghost es: seq<Event>)
      modifies this
      ensures feed == old(feed) + es
      ensures Merged(old(inventory), Batch(LastByIp(entries), requested, now), inventory, es)
    {
      var seen := LoadBatch(entries);
      ghost var b, inv := Batch(seen, requested, now), inventory;
      ghost var first, second := Statements(seen, requested, now);
      es := first + second;
      MergeAgrees(inv, b, first, second);
      assert Merged(inv, b, inventory, es);
    }
  }

  /** for _, d := range req.Devices { seen[d.IP] = d } */
  method LoadBatch(entries: seq<Entry>) returns (seen: map<Ip, Device>)
    ensures seen == LastByIp(entries)
  {
    seen := map[];
    for k := 0 to |entries|
      invariant seen == LastByIp(entries[..k])
    {
      seen := seen[entries[k].ip := entries[k].device];
      assert entries[..k + 1][..k] == entries[..k];
    }
    assert entries[..|entries|] == entries;
  }

  function Upserted(inv: Inventory, b: Batch): Inventory { inv + UpsertRows(inv, b.seen, b.now) }

  function Counted(inv: Inventory, b: Batch): Inventory { Upserted(inv, b) + MissedRows(Upserted(inv, b), b.seen) }

  /** The inventory the statements leave. */
  function AfterMerge(inv: Inventory, b: Batch): Inventory {
    Counted(inv, b) + RetiredRows(Counted(inv, b), EffectiveRetireAfter(b.retireAfter))
  }

  /** A row in the batch is active with no misses, so it is never due. */
  lemma SeenAgrees(inv: Inventory, b: Batch, ip: Ip)
    requires ip in b.seen
    ensures Lookup(AfterMerge(inv, b), ip) == Some(Upsert(Lookup(inv, ip), b.seen[ip], b.now))
    ensures ip !in RetiredRows(Counted(inv, b), EffectiveRetireAfter(b.retireAfter))
  {
    var row := Upsert(Lookup(inv, ip), b.seen[ip], b.now);
    assert row.status == Active && row.misses == 0;
    assert Lookup(Counted(inv, b), ip) == Some(row);
  }

  lemma UnseenCounted(inv: Inventory, b: Batch, ip: Ip)
    requires ip !in b.seen
    ensures Lookup(Counted(inv, b), ip)
         == if ip in inv && inv[ip].status == Active then Some(inv[ip].(misses := inv[ip].misses + 1))
           else Lookup(inv, ip)
  {
    assert Lookup(Upserted(inv, b), ip) == Lookup(inv, ip);
  }

  lemma RetiredLookup(inv: Inventory, r: nat, ip: Ip)
    ensures ip in RetiredRows(inv, r) <==> ip in inv && inv[ip].status == Active && inv[ip].misses >= r
    ensures Lookup(inv + RetiredRows(inv, r), ip)
         == if ip in RetiredRows(inv, r) then Some(inv[ip].(status := Retired)) else Lookup(inv, ip)
  {
  }

  lemma UnseenAgrees(inv: Inventory, b: Batch, ip: Ip)
    requires ip !in b.seen
    ensures var r := EffectiveRetireAfter(b.retireAfter);
            && Lookup(AfterMerge(inv, b), ip) == MergeRow(Lookup(inv, ip), None, r, b.now)
            && (if ip in RetiredRows(Counted(inv, b), r) then [RetireEvent(ip, Counted(inv, b)[ip], b.now)] else [])
               == MergeEvents(ip, Lookup(inv, ip), None, r, b.now)
  {
    UnseenCounted(inv, b, ip);
    RetiredLookup(Counted(inv, b), EffectiveRetireAfter(b.retireAfter), ip);
  }

  /** The three statements together do what MergeRow and MergeEvents say. */
  lemma MergeAgrees(inv: Inventory, b: Batch, first: seq<Event>, second: seq<Event>)
    requires Wrote(first, SeenFeed(inv, b.seen, b.now))
    requires Wrote(second, RetiredFeed(Counted(inv, b), EffectiveRetireAfter(b.retireAfter), b.now))
    ensures Merged(inv, b, AfterMerge(inv, b), first + second)
  {
    var r := EffectiveRetireAfter(b.retireAfter);
    forall ip ensures Lookup(AfterMerge(inv, b), ip) == MergeRow(Lookup(inv, ip), EntryOf(b, ip), r, b.now)
                      && Of(first + second, ip) == MergeEvents(ip, Lookup(inv, ip), EntryOf(b, ip), r, b.now)
    {
      OfConcat(first, second, ip);
      if ip in b.seen { SeenAgrees(inv, b, ip); } else { UnseenAgrees(inv, b, ip); }
    }
  }
}
