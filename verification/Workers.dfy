/** Table-to-worker reconciliation: reconcile, startWorker and stopAllWorkers of the central poller
    (internal/poller/scheduler.go), and the reconcile closure of the collector (internal/collector/snmp_poller.go). */
module Workers {
  import opened Text
  import Versions

  type Id = string

  const SECOND: int := 1_000_000_000
  const FLOOR: int := 15 * SECOND
  const DEFAULT: int := 60 * SECOND

  /** One entry of the result set, or one target of the collector's list. A row whose Scan fails is Unreadable;
      opens says whether the sealed credentials can be opened. */
  datatype Row = Target(id: Id, seconds: int, opens: bool) | Unreadable

  /** cancelled are the contexts whose cancel function was called; running the goroutines that have not returned. */
  datatype Handle = Handle(context: nat, interval: int)
  datatype Worker = Worker(id: Id, interval: int)
  datatype Pool = Pool(workers: map<Id, Handle>, next: nat, cancelled: set<nat>, running: map<nat, Worker>)

  /** Who reconciles: the central scheduler opens credentials before it starts a worker, the collector does not. */
  datatype Owner = Central | Collector

  const EMPTY := Pool(map[], 0, {}, map[])

  /** time.Duration(seconds) * time.Second, in 64-bit arithmetic. */
  function Duration(seconds: int): int { Versions.Wrap64(seconds * SECOND) }

  function Interval(owner: Owner, seconds: int): int {
    if owner.Collector? && seconds <= 0 then DEFAULT
    else if Duration(seconds) < FLOOR then FLOOR
    else Duration(seconds)
  }

  // ---------- one reconcile ----------

  function Cancel(p: Pool, context: nat): Pool { p.(cancelled := p.cancelled + {context}) }

  function Start(owner: Owner, p: Pool, row: Row): Pool
    requires row.Target?
  {
    var interval := Interval(owner, row.seconds);
    var q := p.(workers := p.workers[row.id := Handle(p.next, interval)], next := p.next + 1);
    if owner.Collector? || row.opens then q.(running := q.running[p.next := Worker(row.id, interval)])
    else Cancel(q, p.next)
  }

  function See(owner: Owner, p: Pool, row: Row): Pool {
    if row.Unreadable? then p
    else if row.id !in p.workers then Start(owner, p, row)
    else if p.workers[row.id].interval == Interval(owner, row.seconds) then p
    else Start(owner, Cancel(p, p.workers[row.id].context), row)
  }

  function SeeAll(owner: Owner, p: Pool, rows: seq<Row>): Pool {
    if rows == [] then p else See(owner, SeeAll(owner, p, rows[..|rows| - 1]), rows[|rows| - 1])
  }

  function Seen(rows: seq<Row>): set<Id> { set r | r in rows && r.Target? :: r.id }

  /** Workers whose appliance was not seen are cancelled and forgotten. */
  function Sweep(p: Pool, seen: set<Id>): Pool {
    p.(workers := map id | id in p.workers && id in seen :: p.workers[id],
       cancelled := p.cancelled + set id | id in p.workers && id !in seen :: p.workers[id].context)
  }

  /** None is a failed query, which changes nothing. */
  function Reconciled(owner: Owner, p: Pool, result: Option<seq<Row>>): Pool {
    if result.None? then p else Sweep(SeeAll(owner, p, result.value), Seen(result.value))
  }

  // ---------- the loops ----------

  class Scheduler {
    const owner: Owner
    var workers: map<Id, Handle>
    var next: nat
    var cancelled: set<nat>
    var running: map<nat, Worker>

    ghost function View(): Pool
      reads this
    {
      Pool(workers, next, cancelled, running)
    }

    constructor (owner: Owner)
      ensures this.owner == owner && View() == EMPTY
    {
      this.owner := owner;
      workers, next, cancelled, running := map[], 0, {}, map[];
    }

    method StartWorker(row: Row)
      requires row.Target?
      modifies this
      ensures View() == Start(owner, old(View()), row)
    {
      var context := next;
      next := next + 1;
      var interval := Interval(owner, row.seconds);
      workers := workers[row.id := Handle(context, interval)];
      if owner.Central? && !row.opens {
        cancelled := cancelled + {context};
        return;
      }
      running := running[context := Worker(row.id, interval)];
    }

    method SeeRow(row: Row)
      modifies this
      ensures View() == See(owner, old(View()), row)
    {
      if row.Unreadable? {
        return;
      }
      if row.id in workers {
        if workers[row.id].interval == Interval(owner, row.seconds) {
          return;
        }
        cancelled := cancelled + {workers[row.id].context};
      }
      StartWorker(row);
    }

    method StopUnseen(seen: set<Id>)
      modifies this
      ensures View() == Sweep(old(View()), seen)
    {
      ghost var before := View();
      var todo := workers.Keys;
      while todo != {}
        invariant todo <= before.workers.Keys
        invariant next == before.next && running == before.running
        invariant workers == map id | id in before.workers && (id in todo || id in seen) :: before.workers[id]
        invariant cancelled == before.cancelled
                               + set id | id in before.workers && id !in todo && id !in seen ::
                                   before.workers[id].context
        decreases |todo|
      {
        var id :| id in todo;
        if id !in seen {
          cancelled := cancelled + {workers[id].context};
          workers := workers - {id};
        }
        todo := todo - {id};
      }
    }

    method Reconcile(result: Option<seq<Row>>)
      modifies this
      ensures View() == Reconciled(owner, old(View()), result)
    {
      if result.None? {
        return;
      }
      var rows := result.value;
      var seen: set<Id> := {};
      for k := 0 to |rows|
        invariant View() == SeeAll(owner, old(View()), rows[..k])
        invariant seen == Seen(rows[..k])
      {
        SeeRow(rows[k]);
        SeenStep(rows, k);
        if rows[k].Target? {
          seen := seen + {rows[k].id};
        }
        assert rows[..k + 1][..k] == rows[..k];
      }
      assert rows[..|rows|] == rows;
      StopUnseen(seen);
    }
  }

  lemma SeenStep(rows: seq<Row>, k: nat)
    requires k < |rows|
    ensures Seen(rows[..k + 1]) == Seen(rows[..k]) + if rows[k].Target? then {rows[k].id} else {}
  {
    assert rows[..k + 1] == rows[..k] + [rows[k]];
  }

  // ---------- every reachable pool ----------

  predicate Live(p: Pool, context: nat) { context in p.running && context !in p.cancelled }

  /** A goroutine that is not cancelled is the one its appliance's handle points to, with the handle's interval; a
      handle whose context is not cancelled has its goroutine. */
  ghost predicate Consistent(p: Pool) {
    && (forall c :: c in p.cancelled ==> c < p.next)
    && (forall c :: c in p.running ==> c < p.next)
    && (forall id :: id in p.workers ==> p.workers[id].context < p.next)
    && (forall c: nat :: Live(p, c) ==>
          var w := p.running[c]; w.id in p.workers && p.workers[w.id] == Handle(c, w.interval))
    && (forall id :: id in p.workers && p.workers[id].context !in p.cancelled ==>
          var h := p.workers[id]; h.context in p.running && p.running[h.context] == Worker(id, h.interval))
    && (forall id :: id in p.workers ==> p.workers[id].interval >= FLOOR)
  }

  /** Contexts are not shared, dead or alive. */
  ghost predicate OwnContexts(p: Pool) {
    forall a, b :: a in p.workers && b in p.workers && p.workers[a].context == p.workers[b].context ==> a == b
  }

  datatype Action = Reconcile(result: Option<seq<Row>>) | Return(context: nat) | StopAll

  /** A goroutine returns only after its context is cancelled. */
  predicate Next(owner: Owner, p: Pool, a: Action, q: Pool) {
    match a
    case Reconcile(result) => q == Reconciled(owner, p, result)
    case Return(c) => c in p.running && c in p.cancelled && q == p.(running := p.running - {c})
    case StopAll => q == Sweep(p, {})
  }

  ghost predicate Run(owner: Owner, ps: seq<Pool>, actions: seq<Action>) {
    |ps| == |actions| + 1 && ps[0] == EMPTY
    && forall i :: 0 <= i < |actions| ==> Next(owner, ps[i], actions[i], ps[i + 1])
  }

  /** No live goroutine for the appliance, everything else consistent. */
  ghost predicate Ready(p: Pool, id: Id) {
    && (forall c :: c in p.cancelled ==> c < p.next)
    && (forall c :: c in p.running ==> c < p.next)
    && (forall x :: x in p.workers ==> p.workers[x].context < p.next && p.workers[x].interval >= FLOOR)
    && (forall c: nat :: Live(p, c) ==>
          var w := p.running[c]; w.id != id && w.id in p.workers && p.workers[w.id] == Handle(c, w.interval))
    && (forall x :: x in p.workers && x != id && p.workers[x].context !in p.cancelled ==>
          var h := p.workers[x]; h.context in p.running && p.running[h.context] == Worker(x, h.interval))
    && OwnContexts(p)
  }

  lemma CancelReady(p: Pool, id: Id)
    requires Consistent(p) && OwnContexts(p) && id in p.workers
    ensures Ready(Cancel(p, p.workers[id].context), id)
  {
    var q := Cancel(p, p.workers[id].context);
    assert forall c: nat :: Live(q, c) ==> Live(p, c);
  }

  /** A new handle whose goroutine runs. */
  function Spawned(p: Pool, id: Id, interval: int): Pool {
    Pool(p.workers[id := Handle(p.next, interval)], p.next + 1, p.cancelled, p.running[p.next := Worker(id, interval)])
  }

  /** A new handle that is cancelled at once. */
  function Stillborn(p: Pool, id: Id, interval: int): Pool {
    Pool(p.workers[id := Handle(p.next, interval)], p.next + 1, p.cancelled + {p.next}, p.running)
  }

  lemma SpawnedKeeps(p: Pool, id: Id, interval: int)
    requires Ready(p, id) && interval >= FLOOR
    ensures Consistent(Spawned(p, id, interval)) && OwnContexts(Spawned(p, id, interval))
  {
    var r := Spawned(p, id, interval);
    assert forall c: nat :: Live(r, c) <==> Live(p, c) || c == p.next;
  }

  lemma StillbornKeeps(p: Pool, id: Id, interval: int)
    requires Ready(p, id) && interval >= FLOOR
    ensures Consistent(Stillborn(p, id, interval)) && OwnContexts(Stillborn(p, id, interval))
  {
    var r := Stillborn(p, id, interval);
    assert forall c: nat :: Live(r, c) <==> Live(p, c);
  }

  lemma StartKeeps(owner: Owner, p: Pool, row: Row)
    requires row.Target? && Ready(p, row.id)
    ensures Consistent(Start(owner, p, row)) && OwnContexts(Start(owner, p, row))
  {
    var interval := Interval(owner, row.seconds);
    SpawnedKeeps(p, row.id, interval);
    StillbornKeeps(p, row.id, interval);
    assert Start(owner, p, row)
        == if owner.Collector? || row.opens then Spawned(p, row.id, interval) else Stillborn(p, row.id, interval);
  }

  lemma {:induction false} SeeAllKeeps(owner: Owner, p: Pool, rows: seq<Row>)
    requires Consistent(p) && OwnContexts(p)
    ensures Consistent(SeeAll(owner, p, rows)) && OwnContexts(SeeAll(owner, p, rows))
  {
    if rows != [] {
      var q, row := SeeAll(owner, p, rows[..|rows| - 1]), rows[|rows| - 1];
      SeeAllKeeps(owner, p, rows[..|rows| - 1]);
      if row.Target? {
        if row.id !in q.workers {
          StartKeeps(owner, q, row);
        } else if q.workers[row.id].interval != Interval(owner, row.seconds) {
          CancelReady(q, row.id);
          StartKeeps(owner, Cancel(q, q.workers[row.id].context), row);
        }
      }
    }
  }

  lemma SweepKeeps(p: Pool, seen: set<Id>)
    requires Consistent(p) && OwnContexts(p)
    ensures Consistent(Sweep(p, seen)) && OwnContexts(Sweep(p, seen))
  {
    var q := Sweep(p, seen);
    forall c: nat | Live(q, c)
      ensures q.running[c].id in q.workers && q.workers[q.running[c].id] == Handle(c, q.running[c].interval)
    {
      assert Live(p, c);
    }
  }

  lemma NextKeeps(owner: Owner, p: Pool, a: Action, q: Pool)
    requires Consistent(p) && OwnContexts(p) && Next(owner, p, a, q)
    ensures Consistent(q) && OwnContexts(q)
  {
    match a
    case Reconcile(result) =>
      if result.Some? {
        SeeAllKeeps(owner, p, result.value);
        SweepKeeps(SeeAll(owner, p, result.value), Seen(result.value));
      }
    case Return(c) =>
      assert forall d: nat :: Live(q, d) <==> Live(p, d);
    case StopAll =>
      SweepKeeps(p, {});
  }

  lemma {:induction false} RunKeeps(owner: Owner, ps: seq<Pool>, actions: seq<Action>, k: nat)
    requires Run(owner, ps, actions) && k < |ps|
    ensures Consistent(ps[k]) && OwnContexts(ps[k])
  {
    if k > 0 {
      RunKeeps(owner, ps, actions, k - 1);
      NextKeeps(owner, ps[k - 1], actions[k - 1], ps[k]);
    }
  }

  /** At every moment of every run an appliance has at most one worker that is not cancelled, and it ticks at the
      interval of its handle, never below 15 seconds. */
  lemma AtMostOneWorker(owner: Owner, ps: seq<Pool>, actions: seq<Action>, k: nat, c: nat, d: nat)
    requires Run(owner, ps, actions) && k < |ps|
    requires Live(ps[k], c) && Live(ps[k], d) && ps[k].running[c].id == ps[k].running[d].id
    ensures c == d && ps[k].running[c].interval >= FLOOR
  {
    RunKeeps(owner, ps, actions, k);
  }

  // ---------- each appliance on its own ----------

  /** What the pool says about one appliance. */
  datatype Status = Absent | Has(interval: int, live: bool)

  function StatusOf(p: Pool, id: Id): Status {
    if id in p.workers then Has(p.workers[id].interval, p.workers[id].context !in p.cancelled) else Absent
  }

  /** One row for the appliance. */
  function Meet(owner: Owner, s: Status, row: Row): Status
    requires row.Target?
  {
    var interval := Interval(owner, row.seconds);
    if s.Has? && s.interval == interval then s else Has(interval, owner.Collector? || row.opens)
  }

  /** All rows for the appliance, in order; other rows do not matter. */
  function MeetAll(owner: Owner, s: Status, rows: seq<Row>, id: Id): Status {
    if rows == [] then s
    else
      var before, row := MeetAll(owner, s, rows[..|rows| - 1], id), rows[|rows| - 1];
      if row.Target? && row.id == id then Meet(owner, before, row) else before
  }

  lemma SeeStatus(owner: Owner, p: Pool, row: Row, id: Id)
    requires Consistent(p) && OwnContexts(p)
    ensures StatusOf(See(owner, p, row), id)
         == if row.Target? && row.id == id then Meet(owner, StatusOf(p, id), row) else StatusOf(p, id)
  {
  }

  lemma {:induction false} SeeAllStatus(owner: Owner, p: Pool, rows: seq<Row>, id: Id)
    requires Consistent(p) && OwnContexts(p)
    ensures StatusOf(SeeAll(owner, p, rows), id) == MeetAll(owner, StatusOf(p, id), rows, id)
  {
    if rows != [] {
      SeeAllStatus(owner, p, rows[..|rows| - 1], id);
      SeeAllKeeps(owner, p, rows[..|rows| - 1]);
      SeeStatus(owner, SeeAll(owner, p, rows[..|rows| - 1]), rows[|rows| - 1], id);
    }
  }

  /** Reconciling acts on every appliance separately: one that is not among the readable rows is dropped, any other
      depends only on its own former status and its own rows. */
  lemma ReconcilePerAppliance(owner: Owner, p: Pool, rows: seq<Row>, id: Id)
    requires Consistent(p) && OwnContexts(p)
    ensures StatusOf(Reconciled(owner, p, Some(rows)), id)
         == if id in Seen(rows) then MeetAll(owner, StatusOf(p, id), rows, id) else Absent
  {
    SeeAllStatus(owner, p, rows, id);
    SeeAllKeeps(owner, p, rows);
    var q := SeeAll(owner, p, rows);
    var r := Sweep(q, Seen(rows));
    if id in q.workers && id in Seen(rows) {
      assert q.workers[id].context in r.cancelled <==> q.workers[id].context in q.cancelled;
    }
  }

  lemma {:induction false} MetIsThere(owner: Owner, s: Status, rows: seq<Row>, id: Id)
    requires id in Seen(rows)
    ensures MeetAll(owner, s, rows, id).Has?
  {
    var row := rows[|rows| - 1];
    if !(row.Target? && row.id == id) {
      assert rows == rows[..|rows| - 1] + [row];
      MetIsThere(owner, s, rows[..|rows| - 1], id);
    }
  }

  lemma {:induction false} CollectorMeets(s: Status, rows: seq<Row>, id: Id)
    requires s.Has? ==> s.live
    ensures MeetAll(Collector, s, rows, id).Has? ==> MeetAll(Collector, s, rows, id).live
  {
    if rows != [] { CollectorMeets(s, rows[..|rows| - 1], id); }
  }

  ghost predicate AllLive(p: Pool) { forall id :: StatusOf(p, id).Has? ==> StatusOf(p, id).live }

  lemma CollectorNext(p: Pool, a: Action, q: Pool)
    requires Consistent(p) && OwnContexts(p) && AllLive(p) && Next(Collector, p, a, q)
    ensures AllLive(q)
  {
    match a
    case Reconcile(result) =>
      if result.Some? {
        forall id ensures StatusOf(q, id).Has? ==> StatusOf(q, id).live {
          ReconcilePerAppliance(Collector, p, result.value, id);
          CollectorMeets(StatusOf(p, id), result.value, id);
        }
      }
    case Return(c) =>
      forall id ensures StatusOf(q, id).Has? ==> StatusOf(q, id).live { assert StatusOf(q, id) == StatusOf(p, id); }
    case StopAll =>
  }

  lemma {:induction false} CollectorRun(ps: seq<Pool>, actions: seq<Action>, k: nat)
    requires Run(Collector, ps, actions) && k < |ps|
    ensures AllLive(ps[k])
  {
    if k > 0 {
      CollectorRun(ps, actions, k - 1);
      RunKeeps(Collector, ps, actions, k - 1);
      CollectorNext(ps[k - 1], actions[k - 1], ps[k]);
    }
  }

  /** After a successful reconcile of the collector, exactly the listed targets have a live worker. */
  lemma CollectorMatchesTargets(ps: seq<Pool>, actions: seq<Action>, k: nat, id: Id)
    requires Run(Collector, ps, actions) && k < |actions|
    requires actions[k].Reconcile? && actions[k].result.Some?
    ensures id in Seen(actions[k].result.value) <==> StatusOf(ps[k + 1], id).Has? && StatusOf(ps[k + 1], id).live
  {
    var rows := actions[k].result.value;
    RunKeeps(Collector, ps, actions, k);
    CollectorRun(ps, actions, k + 1);
    ReconcilePerAppliance(Collector, ps[k], rows, id);
    if id in Seen(rows) { MetIsThere(Collector, StatusOf(ps[k], id), rows, id); }
  }

  ghost predicate LiveWithin(p: Pool, ids: set<Id>) { forall c: nat :: Live(p, c) ==> p.running[c].id in ids }

  /** After a successful reconcile of the central scheduler the handles are exactly the readable rows, so live workers
      are among them. */
  lemma CentralWithinTable(ps: seq<Pool>, actions: seq<Action>, k: nat, id: Id)
    requires Run(Central, ps, actions) && k < |actions|
    requires actions[k].Reconcile? && actions[k].result.Some?
    ensures id in Seen(actions[k].result.value) <==> StatusOf(ps[k + 1], id).Has?
    ensures LiveWithin(ps[k + 1], Seen(actions[k].result.value))
  {
    var rows := actions[k].result.value;
    RunKeeps(Central, ps, actions, k);
    RunKeeps(Central, ps, actions, k + 1);
    forall x ensures x in Seen(rows) <==> StatusOf(ps[k + 1], x).Has? {
      ReconcilePerAppliance(Central, ps[k], rows, x);
      if x in Seen(rows) { MetIsThere(Central, StatusOf(ps[k], x), rows, x); }
    }
    var q := ps[k + 1];
    forall c: nat | Live(q, c) ensures q.running[c].id in Seen(rows) {
      assert StatusOf(q, q.running[c].id).Has?;
    }
  }

  // ---------- a worker whose credentials did not open ----------

  predicate SameInterval(rows: seq<Row>, id: Id, interval: int) {
    forall r :: r in rows && r.Target? && r.id == id ==> Interval(Central, r.seconds) == interval
  }

  lemma {:induction false} StillMet(s: Status, rows: seq<Row>, id: Id)
    requires s.Has? && SameInterval(rows, id, s.interval)
    ensures MeetAll(Central, s, rows, id) == s
  {
    if rows != [] {
      assert rows[|rows| - 1] in rows;
      assert forall r :: r in rows[..|rows| - 1] ==> r in rows;
      StillMet(s, rows[..|rows| - 1], id);
    }
  }

  /** A handle left by a credential failure is not retried by the next reconcile, nor by any later one: as long as the
      row stays listed with the same interval its status stays as it is, even once the credentials open. */
  lemma {:induction false} FailedWorkerStaysDead(ps: seq<Pool>, actions: seq<Action>, i: nat, j: nat, id: Id)
    requires Run(Central, ps, actions) && i <= j < |ps|
    requires StatusOf(ps[i], id).Has? && !StatusOf(ps[i], id).live
    requires forall k :: i <= k < j && actions[k].Reconcile? && actions[k].result.Some? ==>
               id in Seen(actions[k].result.value)
                 && SameInterval(actions[k].result.value, id, StatusOf(ps[i], id).interval)
    requires forall k :: i <= k < j ==> !actions[k].StopAll?
    ensures StatusOf(ps[j], id) == StatusOf(ps[i], id)
    decreases j
  {
    if i < j {
      FailedWorkerStaysDead(ps, actions, i, j - 1, id);
      RunKeeps(Central, ps, actions, j - 1);
      var a := actions[j - 1];
      if a.Reconcile? && a.result.Some? {
        ReconcilePerAppliance(Central, ps[j - 1], a.result.value, id);
        StillMet(StatusOf(ps[i], id), a.result.value, id);
      }
    }
  }

  /** Exactly when a reconcile over a table with one row per appliance leaves a live central worker: either it was live
      at this interval already, or it is started afresh (no handle, or another interval) and the credentials open. */
  lemma CentralLiveIff(p: Pool, rows: seq<Row>, k: nat)
    requires Consistent(p) && OwnContexts(p)
    requires k < |rows| && rows[k].Target?
    requires forall i :: 0 <= i < |rows| && i != k && rows[i].Target? ==> rows[i].id != rows[k].id
    ensures var before, after := StatusOf(p, rows[k].id), StatusOf(Reconciled(Central, p, Some(rows)), rows[k].id);
            var same := before.Has? && before.interval == Interval(Central, rows[k].seconds);
            after == Has(Interval(Central, rows[k].seconds), if same then before.live else rows[k].opens)
  {
    ReconcilePerAppliance(Central, p, rows, rows[k].id);
    OneRow(Central, StatusOf(p, rows[k].id), rows, k);
  }

  /** Such a run: the credentials do not open at the first reconcile and open at the second, which starts nothing. */
  lemma FailedWorkerIsNotRetried() returns (ps: seq<Pool>)
    ensures |ps| == 3
    ensures Run(Central, ps, [Reconcile(Some([Target("a", 60, false)])), Reconcile(Some([Target("a", 60, true)]))])
    ensures StatusOf(ps[1], "a") == StatusOf(ps[2], "a") == Has(60 * SECOND, false)
  {
    var closed, open := [Target("a", 60, false)], [Target("a", 60, true)];
    var p := Reconciled(Central, EMPTY, Some(closed));
    ps := [EMPTY, p, Reconciled(Central, p, Some(open))];
    IntervalFloor(Central, 60);
    CentralLiveIff(EMPTY, closed, 0);
    NextKeeps(Central, EMPTY, Reconcile(Some(closed)), p);
    CentralLiveIff(p, open, 0);
  }

  lemma {:induction false} OneRow(owner: Owner, s: Status, rows: seq<Row>, k: nat)
    requires k < |rows| && rows[k].Target?
    requires forall i :: 0 <= i < |rows| && i != k && rows[i].Target? ==> rows[i].id != rows[k].id
    ensures MeetAll(owner, s, rows, rows[k].id) == Meet(owner, s, rows[k])
  {
    var before := rows[..|rows| - 1];
    if k < |before| {
      OneRow(owner, s, before, k);
    } else {
      NoRow(owner, s, before, rows[k].id);
    }
  }

  lemma {:induction false} NoRow(owner: Owner, s: Status, rows: seq<Row>, id: Id)
    requires forall i :: 0 <= i < |rows| && rows[i].Target? ==> rows[i].id != id
    ensures MeetAll(owner, s, rows, id) == s
  {
    if rows != [] { NoRow(owner, s, rows[..|rows| - 1], id); }
  }

  /** Intervals are never below 15 seconds; within the range of time.Duration they are the requested seconds. */
  lemma IntervalFloor(owner: Owner, seconds: int)
    ensures Interval(owner, seconds) >= FLOOR
    ensures 15 <= seconds <= 9_223_372_036 ==> Interval(owner, seconds) == seconds * SECOND
  {
    if 15 <= seconds <= 9_223_372_036 {
      assert 0 <= seconds * SECOND < 0x8000_0000_0000_0000;
    }
  }
}
