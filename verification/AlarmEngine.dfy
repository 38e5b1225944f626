/** The alarm engine as it runs: pendingState objects updated in place, a rule list that is swapped, and
    statements on the alarms table. One handler call is proved equal to a fold over the rules, and that fold
    to an uninterrupted handler of AlarmProtocol. */
module AlarmEngine {
  import opened Text
  import opened AlarmCore
  import MiniExpr
  import P = AlarmProtocol

  // ---------- what one handler call does, as a function ----------

  /** The engine's hysteresis states and the alarms table. */
  datatype Memory = Memory(pending: map<string, Pending>, table: Table)

  function StateIn(pending: map<string, Pending>, key: string): Pending {
    if key in pending then pending[key] else NoPending
  }

  function OpenIfNone(t: Table, key: string, time: int): Table {
    if HasOpen(t, key) then t else Insert(t, key, time)
  }

  /** One pass of the rule loop: filters, predicate, hysteresis, window, then open or clear. */
  function RuleStep(rl: Rule, kind: Kind, m: Message, now: int, dbNow: int, mem: Memory): Memory {
    var truth := MiniExpr.Truth(rl.expr, m.env);
    if !Applies(rl, kind, m) || truth.Err? then mem
    else
      SampleStep(rl, DedupKey(rl.id, kind, m.target), Sample(now, truth.truth), dbNow, mem)
  }

  /** Hysteresis, window and action for one sample of one key. */
  function SampleStep(rl: Rule, key: string, smp: Sample, dbNow: int, mem: Memory): Memory {
    var p := Observe(StateIn(mem.pending, key), smp);
    Memory(mem.pending[key := p], Act(rl, p, smp, key, dbNow, mem.table))
  }

  /** Open or clear, once the window has passed. */
  function Act(rl: Rule, p: Pending, smp: Sample, key: string, dbNow: int, t: Table): Table
    requires if smp.truthy then p.truthySince.Some? else p.falsySince.Some?
  {
    if smp.truthy then
      if smp.time - p.truthySince.value < rl.forSeconds * SECOND then t else OpenIfNone(t, key, dbNow)
    else
      if smp.time - p.falsySince.value < rl.clearSeconds * SECOND then t else AutoClear(t, key, dbNow)
  }

  /** The rules before position n, in order. */
  function RulesStep(rules: seq<Rule>, n: nat, kind: Kind, m: Message, now: int, dbNow: int, mem: Memory): Memory
    requires n <= |rules|
  {
    if n == 0 then mem
    else RuleStep(rules[n - 1], kind, m, now, dbNow, RulesStep(rules, n - 1, kind, m, now, dbNow, mem))
  }

  // ---------- the rule table ----------

  /** A row of the rules query; readable says whether its Scan succeeds. An empty site is a global rule. */
  datatype RuleRow = RuleRow(id: RuleId, site: string, expr: string, forSeconds: nat, clearSeconds: nat,
                             targetKind: string, readable: bool)

  function RuleOf(row: RuleRow): Rule {
    Rule(row.id, if IsUuidText(row.site) then Some(row.site) else None, row.expr, row.forSeconds, row.clearSeconds,
         if row.targetKind == "" then "any" else row.targetKind)
  }

  /** The rules of the readable rows, in the order of the query. */
  function LoadRules(rows: seq<RuleRow>): seq<Rule> {
    if rows == [] then []
    else
      var last := rows[|rows| - 1];
      LoadRules(rows[..|rows| - 1]) + if last.readable then [RuleOf(last)] else []
  }

  /** Row ids are a primary key. */
  predicate DistinctRows(rows: seq<RuleRow>) {
    forall i, j :: 0 <= i < j < |rows| ==> rows[i].id != rows[j].id
  }

  lemma {:induction false} LoadedFrom(rows: seq<RuleRow>, i: nat) returns (k: nat)
    requires i < |LoadRules(rows)|
    ensures k < |rows| && rows[k].readable && LoadRules(rows)[i] == RuleOf(rows[k])
  {
    if i < |LoadRules(rows[..|rows| - 1])| { k := LoadedFrom(rows[..|rows| - 1], i); } else { k := |rows| - 1; }
  }

  lemma {:induction false} LoadedDistinct(rows: seq<RuleRow>)
    requires DistinctRows(rows)
    ensures DistinctIds(LoadRules(rows))
  {
    if rows != [] {
      var before, rules := rows[..|rows| - 1], LoadRules(rows);
      LoadedDistinct(before);
      forall i, j | 0 <= i < j < |rules| ensures rules[i].id != rules[j].id {
        if j == |LoadRules(before)| {
          var k := LoadedFrom(before, i);
          assert rules[j] == RuleOf(rows[|rows| - 1]);
        }
      }
    }
  }

  /** Refreshing the engine's rules is the protocol's refresh step: the rules of the readable rows, and nothing else
      changes, neither the hysteresis states nor a handler in progress. */
  lemma RefreshIsStep(s: P.State, rows: seq<RuleRow>)
    requires DistinctRows(rows)
    ensures P.Next(s, P.Refresh(LoadRules(rows))) == s.(rules := LoadRules(rows))
  {
    LoadedDistinct(rows);
  }

  // ---------- the objects ----------

  class AlarmsTable {
    var rows: map<nat, Alarm>
    var nextId: nat

    constructor ()
      ensures View() == Table(map[], 0)
    {
      rows, nextId := map[], 0;
    }

    function View(): Table reads this { Table(rows, nextId) }

    method CountOpen(key: string) returns (n: nat)
      ensures n > 0 <==> HasOpen(View(), key)
      ensures n == |set id | id in rows && IsOpen(View(), id, key)|
    {
      var open := set id | id in rows && IsOpen(View(), id, key);
      n := |open|;
      if HasOpen(View(), key) {
        var id :| id in rows && IsOpen(View(), id, key);
        assert id in open;
      } else {
        assert open == {};
      }
    }

    method InsertRow(key: string, dbNow: int) returns (id: nat)
      modifies this
      ensures View() == Insert(old(View()), key, dbNow) && id == old(nextId)
    {
      id := nextId;
      rows := rows[nextId := Alarm(key, dbNow, None, None)];
      nextId := nextId + 1;
    }

    /** UPDATE ... RETURNING id: no id when no row was open. */
    method AutoClearRows(key: string, dbNow: int) returns (id: Option<nat>)
      modifies this
      ensures View() == AutoClear(old(View()), key, dbNow)
      ensures id.None? <==> !HasOpen(old(View()), key)
      ensures id.Some? ==> IsOpen(old(View()), id.value, key)
    {
      id := None;
      if HasOpen(View(), key) {
        var i :| i in rows && IsOpen(View(), i, key);
        id := Some(i);
      }
      rows := AutoClear(View(), key, dbNow).rows;
    }

    /** Rows affected by the acknowledge statement. */
    method Acknowledge(id: nat, dbNow: int, user: string) returns (affected: nat)
      modifies this
      ensures View() == AlarmCore.Acknowledge(old(View()), id, dbNow, user)
      ensures affected == if id in old(rows) && old(rows)[id].clear.None? then 1 else 0
    {
      affected := 0;
      if id in rows && rows[id].clear.None? {
        if rows[id].ack.None? {
          rows := rows[id := rows[id].(ack := Some(Ack(dbNow, user)))];
        }
        affected := 1;
      }
    }

    /** Rows affected by the clear statement. */
    method ClearByHand(id: nat, dbNow: int, user: string) returns (affected: nat)
      modifies this
      ensures View() == ManualClear(old(View()), id, dbNow, user)
      ensures affected == if id in old(rows) && old(rows)[id].clear.None? then 1 else 0
    {
      affected := 0;
      if id in rows && rows[id].clear.None? {
        rows := rows[id := rows[id].(clear := Some(Clear(dbNow, Some(user))))];
        affected := 1;
      }
    }
  }

  class PendingState {
    var truthySince: Option<int>
    var falsySince: Option<int>

    constructor ()
      ensures View() == NoPending
    {
      truthySince, falsySince := None, None;
    }

    function View(): Pending reads this { Pending(truthySince, falsySince) }

    method Note(truthy: bool, now: int)
      modifies this
      ensures View() == Observe(old(View()), Sample(now, truthy))
    {
      if truthy {
        falsySince := None;
        if truthySince.None? {
          truthySince := Some(now);
        }
      } else {
        truthySince := None;
        if falsySince.None? {
          falsySince := Some(now);
        }
      }
    }
  }

  class Engine {
    const db: AlarmsTable
    var rules: seq<Rule>
    var pending: map<string, PendingState>

    /** No two keys share a pendingState. */
    ghost predicate Valid()
      reads this
    {
      forall k1, k2 :: k1 in pending && k2 in pending && k1 != k2 ==> pending[k1] != pending[k2]
    }

    function PendingView(): map<string, Pending>
      reads this, pending.Values
    {
      map k | k in pending :: pending[k].View()
    }

    function View(): Memory
      reads this, pending.Values, db
    {
      Memory(PendingView(), db.View())
    }

    constructor (table: AlarmsTable)
      ensures Valid() && db == table && rules == [] && pending == map[]
    {
      db := table;
      rules, pending := [], map[];
    }

    /** None is a failed query, which keeps the rules there are. The slice is swapped as a whole, so a handler in
        progress keeps the snapshot it took. */
    method RefreshRules(result: Option<seq<RuleRow>>)
      modifies this`rules
      ensures rules == if result.None? then old(rules) else LoadRules(result.value)
      ensures View() == old(View())
    {
      if result.None? {
        return;
      }
      var rows := result.value;
      var next: seq<Rule> := [];
      for k := 0 to |rows|
        invariant next == LoadRules(rows[..k]) && rules == old(rules)
      {
        assert rows[..k + 1][..k] == rows[..k];
        if !rows[k].readable {
          continue;
        }
        var kind := rows[k].targetKind;
        if kind == "" {
          kind := "any";
        }
        var site: Option<string> := None;
        if IsUuidText(rows[k].site) {
          site := Some(rows[k].site);
        }
        next := next + [Rule(rows[k].id, site, rows[k].expr, rows[k].forSeconds, rows[k].clearSeconds, kind)];
      }
      assert rows[..|rows|] == rows;
      rules := next;
    }

    /** The state of a key, created on first use. */
    method PendingFor(key: string) returns (st: PendingState)
      requires Valid()
      modifies this`pending
      ensures Valid() && key in pending && pending[key] == st
      ensures pending == old(pending)[key := st]
      ensures key in old(pending) ==> st == old(pending)[key]
      ensures key !in old(pending) ==> fresh(st)
      ensures st.View() == StateIn(old(PendingView()), key)
      ensures PendingView() == old(PendingView())[key := st.View()]
    {
      if key in pending {
        st := pending[key];
      } else {
        st := new PendingState();
        pending := pending[key := st];
      }
      assert forall k :: k in pending && k != key ==>
               k in old(PendingView()) && pending[k].View() == old(PendingView())[k];
    }

    method MaybeOpen(key: string, dbNow: int)
      modifies db
      ensures db.View() == OpenIfNone(old(db.View()), key, dbNow)
    {
      var n := db.CountOpen(key);
      if n > 0 {
        return;
      }
      var id := db.InsertRow(key, dbNow);
    }

    method MaybeAutoClear(key: string, dbNow: int)
      modifies db
      ensures db.View() == AutoClear(old(db.View()), key, dbNow)
    {
      var id := db.AutoClearRows(key, dbNow);
    }

    method NoteAt(key: string, truthy: bool, now: int)
      requires Valid() && key in pending
      modifies pending[key]
      ensures PendingView() == old(PendingView())[key := Observe(old(pending[key].View()), Sample(now, truthy))]
    {
      pending[key].Note(truthy, now);
      assert forall k :: k in pending && k != key ==> pending[k].View() == old(pending[k].View());
    }

    /** The in-place update of the key's state. */
    method Record(key: string, truthy: bool, now: int) returns (st: PendingState)
      requires Valid()
      modifies this`pending, pending.Values
      ensures Valid() && Grown(old(pending)) && key in pending && pending[key] == st
      ensures st.View() == Observe(StateIn(old(PendingView()), key), Sample(now, truthy))
      ensures PendingView() == old(PendingView())[key := st.View()]
    {
      st := PendingFor(key);
      NoteAt(key, truthy, now);
      assert PendingView()[key] == st.View();
    }

    /** The window test and the database action. */
    method Decide(rl: Rule, key: string, st: PendingState, truthy: bool, now: int, dbNow: int)
      requires if truthy then st.truthySince.Some? else st.falsySince.Some?
      modifies db
      ensures db.View() == Act(rl, st.View(), Sample(now, truthy), key, dbNow, old(db.View()))
    {
      if truthy {
        if now - st.truthySince.value < rl.forSeconds * SECOND {
          return;
        }
        MaybeOpen(key, dbNow);
      } else {
        if now - st.falsySince.value < rl.clearSeconds * SECOND {
          return;
        }
        MaybeAutoClear(key, dbNow);
      }
    }

    method JudgeSample(rl: Rule, key: string, truthy: bool, now: int, dbNow: int)
      requires Valid()
      modifies this`pending, pending.Values, db
      ensures Valid() && Grown(old(pending))
      ensures View() == SampleStep(rl, key, Sample(now, truthy), dbNow, old(View()))
    {
      var st := Record(key, truthy, now);
      label recorded:
      Decide(rl, key, st, truthy, now, dbNow);
      assert PendingView() == old@recorded(PendingView());
    }

    /** One pass of the rule loop. */
    method Judge(rl: Rule, kind: Kind, m: Message, now: int, dbNow: int)
      requires Valid()
      modifies this`pending, pending.Values, db
      ensures Valid() && Grown(old(pending))
      ensures View() == RuleStep(rl, kind, m, now, dbNow, old(View()))
    {
      if !Applies(rl, kind, m) {
        return;
      }
      var r := MiniExpr.EvalMini(rl.expr, m.env);
      if r.Err? {
        return;
      }
      JudgeSample(rl, DedupKey(rl.id, kind, m.target), r.truth, now, dbNow);
    }

    /** Every state that was there is still there; the others are new objects. */
    twostate predicate Grown(before: map<string, PendingState>)
      reads this
    {
      before.Keys <= pending.Keys
      && forall k :: k in pending ==> (k in before && pending[k] == before[k]) || (k !in before && fresh(pending[k]))
    }

    method Evaluate(m: Message, kind: Kind, now: int, dbNow: int)
      requires Valid()
      modifies this`pending, pending.Values, db
      ensures Valid()
      ensures View() == RulesStep(rules, |rules|, kind, m, now, dbNow, old(View()))
    {
      var snapshot := rules;
      for i := 0 to |snapshot|
        invariant Valid() && Grown(old(pending))
        invariant View() == RulesStep(snapshot, i, kind, m, now, dbNow, old(View()))
      {
        Judge(snapshot[i], kind, m, now, dbNow);
      }
    }
  }

  // ---------- an uninterrupted protocol handler does the same ----------

  function MemoryOf(s: P.State): Memory { Memory(s.pending, s.table) }

  function HandlerAction(t: P.Thread, k: Kind): P.Action
    requires t.Running?
  {
    match t.stage
    case Scanning => P.EvaluateRule(k)
    case Counting(_) => P.CountOpen(k)
    case Inserting(_) => P.InsertAlarm(k, true)
    case Clearing(_) => P.ClearAlarm(k)
  }

  /** The handler of k makes one step. */
  function Step(s: P.State, k: Kind): P.State
    requires P.ThreadOf(s, k).Running?
  {
    P.Next(s, HandlerAction(P.ThreadOf(s, k), k))
  }

  lemma StepIsRun(s: P.State, k: Kind, actions: seq<P.Action>)
    requires P.ThreadOf(P.Run(s, actions), k).Running?
    ensures P.Run(s, actions + [HandlerAction(P.ThreadOf(P.Run(s, actions), k), k)]) == Step(P.Run(s, actions), k)
  {
    P.RunAppend(s, actions, HandlerAction(P.ThreadOf(P.Run(s, actions), k), k));
  }

  /** The evaluation step: done with the rule, or about to act on it. */
  lemma EvaluatedRule(s: P.State, k: Kind)
    requires var t := P.ThreadOf(s, k); t.Running? && t.stage == P.Scanning && t.next < |t.rules|
    ensures var t, s' := P.ThreadOf(s, k), Step(s, k);
            var rl, truth := t.rules[t.next], MiniExpr.Truth(t.rules[t.next].expr, t.msg.env);
            var key := P.KeyOf(t, k);
            s'.clock == s.clock && s'.table == s.table
            && if !Applies(rl, k, t.msg) || truth.Err? then s'.pending == s.pending && P.ThreadOf(s', k) == P.Advance(t)
               else
                 var smp := Sample(t.now, truth.truth);
                 var p := Observe(StateIn(s.pending, key), smp);
                 var stage := P.StageAfter(p, rl, key, smp);
                 s'.pending == s.pending[key := p]
                 && P.ThreadOf(s', k) == if stage == P.Scanning then P.Advance(t) else t.(stage := stage)
  {
  }

  lemma OpenedOrNot(s: P.State, k: Kind) returns (s': P.State, steps: nat)
    requires var t := P.ThreadOf(s, k); t.Running? && t.stage.Counting? && t.next < |t.rules|
    ensures var t := P.ThreadOf(s, k);
            && s'.pending == s.pending && s'.clock == s.clock && P.ThreadOf(s', k) == P.Advance(t)
            && s'.table == OpenIfNone(s.table, t.stage.key, s.clock)
    ensures s' == if steps == 1 then Step(s, k) else Step(Step(s, k), k)
    ensures steps == 1 || (steps == 2 && P.ThreadOf(Step(s, k), k).Running?)
  {
    s', steps := Step(s, k), 1;
    if !HasOpen(s.table, P.ThreadOf(s, k).stage.key) {
      s', steps := Step(s', k), 2;
    }
  }

  lemma NothingToClear(t: Table, key: string, time: int)
    requires !HasOpen(t, key)
    ensures AutoClear(t, key, time) == t
  {
    assert AutoClear(t, key, time).rows == t.rows;
  }

  /** Count and insert, or the clearing update, without interruption. */
  lemma UninterruptedAction(s: P.State, k: Kind, actions: seq<P.Action>) returns (more: seq<P.Action>)
    requires var t := P.ThreadOf(P.Run(s, actions), k);
             t.Running? && (t.stage.Counting? || t.stage.Clearing?) && t.next < |t.rules|
    ensures var before, after := P.Run(s, actions), P.Run(s, more);
            var t := P.ThreadOf(before, k);
            && after.pending == before.pending && after.clock == before.clock && P.ThreadOf(after, k) == P.Advance(t)
            && after.table == if t.stage.Counting? then OpenIfNone(before.table, t.stage.key, before.clock)
                              else AutoClear(before.table, t.stage.key, before.clock)
  {
    var before := P.Run(s, actions);
    var t := P.ThreadOf(before, k);
    StepIsRun(s, k, actions);
    more := actions + [HandlerAction(t, k)];
    if t.stage.Counting? {
      var s', steps := OpenedOrNot(before, k);
      if steps == 2 {
        StepIsRun(s, k, more);
        more := more + [HandlerAction(P.ThreadOf(P.Run(s, more), k), k)];
      }
    } else if !HasOpen(before.table, t.stage.key) {
      NothingToClear(before.table, t.stage.key, before.clock);
    }
  }

  /** Running one rule of the handler without interruption is one RuleStep. */
  lemma UninterruptedRule(s: P.State, k: Kind, actions: seq<P.Action>) returns (more: seq<P.Action>)
    requires var t := P.ThreadOf(P.Run(s, actions), k); t.Running? && t.stage == P.Scanning && t.next < |t.rules|
    ensures var before, after := P.Run(s, actions), P.Run(s, more);
            var t := P.ThreadOf(before, k);
            && MemoryOf(after) == RuleStep(t.rules[t.next], k, t.msg, t.now, before.clock, MemoryOf(before))
            && P.ThreadOf(after, k) == P.Advance(t) && after.clock == before.clock
  {
    var before := P.Run(s, actions);
    EvaluatedRule(before, k);
    StepIsRun(s, k, actions);
    more := actions + [HandlerAction(P.ThreadOf(before, k), k)];
    if P.ThreadOf(P.Run(s, more), k).stage != P.Scanning {
      more := UninterruptedAction(s, k, more);
    }
  }

  /** A handler that is not interrupted leaves the hysteresis states and the table exactly as Evaluate does. */
  lemma {:induction false} UninterruptedHandler(s: P.State, k: Kind, m: Message, n: nat)
    returns (actions: seq<P.Action>)
    requires P.ThreadOf(s, k) == P.Idle && n <= |s.rules|
    ensures var s' := P.Run(s, actions);
            && MemoryOf(s') == RulesStep(s.rules, n, k, m, s.clock, s.clock, MemoryOf(s))
            && P.ThreadOf(s', k) == P.Running(s.clock, s.rules, m, n, P.Scanning) && s'.clock == s.clock
  {
    if n == 0 {
      actions := [P.Receive(k, m), P.ReadClock(k)];
      P.RunAppend(s, [], P.Receive(k, m));
      P.RunAppend(s, [P.Receive(k, m)], P.ReadClock(k));
      P.ReceivedAtOnce(s, k, m);
      assert [] + [P.Receive(k, m)] == [P.Receive(k, m)] && [P.Receive(k, m)] + [P.ReadClock(k)] == actions;
    } else {
      var front := UninterruptedHandler(s, k, m, n - 1);
      actions := UninterruptedRule(s, k, front);
    }
  }
}
