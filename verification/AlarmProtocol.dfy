/** Every interleaving of the alarm engine, one atomic step per SQL statement or in-memory update:
    three serial metric subscriptions, trap inserts, operator acknowledges and clears, rule refreshes,
    pruning and engine restarts. */
module AlarmProtocol {
  import opened Text
  import opened AlarmCore
  import MiniExpr

  // ---------- states ----------

  datatype Stage =
    | Scanning
    | Counting(key: string)
    | Inserting(key: string)
    | Clearing(key: string)

  /** One subscription's handler: its message and snapshot of the rules, then its reading of the clock and the rule it
      is at. */
  datatype Thread =
    | Idle
    | Loaded(rules: seq<Rule>, msg: Message)
    | Running(now: int, rules: seq<Rule>, msg: Message, next: nat, stage: Stage)

  /** hold is the for_seconds, or clear_for_seconds, of the rule that made the engine act. */
  datatype Event =
    | Opened(key: string, time: int, id: nat, hold: nat)
    | AutoCleared(key: string, time: int, hold: nat)
    | ManualCleared(key: string, time: int)

  /** clock is the common clock of engine and database; log and history are observers. */
  datatype State = State(
    clock: int,
    rules: seq<Rule>,
    pending: map<string, Pending>,
    table: Table,
    threads: map<Kind, Thread>,
    log: seq<Event>,
    history: map<string, seq<Sample>>)

  datatype Action =
    | Tick(nanos: nat)
    | Refresh(rules: seq<Rule>)
    | Receive(kind: Kind, msg: Message)
    | ReadClock(kind: Kind)
    | EvaluateRule(kind: Kind)
    | CountOpen(kind: Kind)
    | InsertAlarm(kind: Kind, succeeds: bool)
    | ClearAlarm(kind: Kind)
    | Trap(source: string, oid: string)
    | AckAlarm(id: nat, user: string)
    | ClearByHand(id: nat, user: string)
    | PruneRows(ids: set<nat>)
    | Restart

  function ThreadOf(s: State, k: Kind): Thread { if k in s.threads then s.threads[k] else Idle }

  function PendingOf(s: State, key: string): Pending { if key in s.pending then s.pending[key] else NoPending }

  function HistoryOf(s: State, key: string): seq<Sample> { if key in s.history then s.history[key] else [] }

  const INIT := State(0, [], map[], Table(map[], 0), map[], [], map[])

  // ---------- steps ----------

  /** time.Now() after the rules were taken. */
  function Start(t: Thread, now: int): Thread
    requires t.Loaded?
  {
    Running(now, t.rules, t.msg, 0, Scanning)
  }

  function Advance(t: Thread): Thread
    requires t.Running?
  {
    t.(next := t.next + 1, stage := Scanning)
  }

  function KeyOf(t: Thread, k: Kind): string
    requires t.Running? && t.next < |t.rules|
  {
    DedupKey(t.rules[t.next].id, k, t.msg.target)
  }

  /** The window test of evaluate, on the updated hysteresis state. */
  function StageAfter(p: Pending, rl: Rule, key: string, smp: Sample): Stage
    requires p == Observe(p, smp)
  {
    if smp.truthy then
      if smp.time - p.truthySince.value < rl.forSeconds * SECOND then Scanning else Counting(key)
    else
      if smp.time - p.falsySince.value < rl.clearSeconds * SECOND then Scanning else Clearing(key)
  }

  function EvaluateStep(s: State, k: Kind): State
    requires ThreadOf(s, k).Running? && ThreadOf(s, k).stage == Scanning
  {
    var t := ThreadOf(s, k);
    if t.next >= |t.rules| then s.(threads := s.threads[k := Idle])
    else
      var rl := t.rules[t.next];
      var truth := MiniExpr.Truth(rl.expr, t.msg.env);
      if !Applies(rl, k, t.msg) || truth.Err? then s.(threads := s.threads[k := Advance(t)])
      else
        var key := KeyOf(t, k);
        var smp := Sample(t.now, truth.truth);
        var p := Observe(PendingOf(s, key), smp);
        var stage := StageAfter(p, rl, key, smp);
        s.(pending := s.pending[key := p],
           history := s.history[key := HistoryOf(s, key) + [smp]],
           threads := s.threads[k := if stage == Scanning then Advance(t) else t.(stage := stage)])
  }

  function CountStep(s: State, k: Kind): State
    requires ThreadOf(s, k).Running? && ThreadOf(s, k).stage.Counting?
  {
    var t := ThreadOf(s, k);
    s.(threads := s.threads[k := if HasOpen(s.table, t.stage.key) then Advance(t)
                            else t.(stage := Inserting(t.stage.key))])
  }

  function InsertStep(s: State, k: Kind, succeeds: bool): State
    requires ThreadOf(s, k).Running? && ThreadOf(s, k).stage.Inserting? && ThreadOf(s, k).next < |ThreadOf(s, k).rules|
  {
    var t := ThreadOf(s, k);
    var after := s.(threads := s.threads[k := Advance(t)]);
    if !succeeds then after
    else after.(table := Insert(s.table, t.stage.key, s.clock),
                log := s.log + [Opened(t.stage.key, s.clock, s.table.nextId, t.rules[t.next].forSeconds)])
  }

  function ClearStep(s: State, k: Kind): State
    requires ThreadOf(s, k).Running? && ThreadOf(s, k).stage.Clearing? && ThreadOf(s, k).next < |ThreadOf(s, k).rules|
  {
    var t := ThreadOf(s, k);
    var after := s.(threads := s.threads[k := Advance(t)]);
    if !HasOpen(s.table, t.stage.key) then after
    else after.(table := AutoClear(s.table, t.stage.key, s.clock),
                log := s.log + [AutoCleared(t.stage.key, s.clock, t.rules[t.next].clearSeconds)])
  }

  /** INSERT ... WHERE NOT EXISTS: one statement. */
  function TrapStep(s: State, key: string): State {
    if HasOpen(s.table, key) then s
    else s.(table := Insert(s.table, key, s.clock), log := s.log + [Opened(key, s.clock, s.table.nextId, 0)])
  }

  function ClearByHandStep(s: State, id: nat, user: string): State {
    if id in s.table.rows && s.table.rows[id].clear.None? then
      s.(table := ManualClear(s.table, id, s.clock, user),
         log := s.log + [ManualCleared(s.table.rows[id].key, s.clock)])
    else s
  }

  /** An action that is not possible in a state leaves it unchanged, so every action list is a run. */
  function Next(s: State, a: Action): State {
    match a
    case Tick(n) => s.(clock := s.clock + n)
    case Refresh(rules) => if DistinctIds(rules) then s.(rules := rules) else s
    case Receive(k, msg) =>
      if ThreadOf(s, k).Idle? then s.(threads := s.threads[k := Loaded(s.rules, msg)]) else s
    case ReadClock(k) =>
      if ThreadOf(s, k).Loaded? then s.(threads := s.threads[k := Start(ThreadOf(s, k), s.clock)]) else s
    case EvaluateRule(k) =>
      if ThreadOf(s, k).Running? && ThreadOf(s, k).stage == Scanning then EvaluateStep(s, k) else s
    case CountOpen(k) =>
      if ThreadOf(s, k).Running? && ThreadOf(s, k).stage.Counting? then CountStep(s, k) else s
    case InsertAlarm(k, ok) =>
      if ThreadOf(s, k).Running? && ThreadOf(s, k).stage.Inserting? && ThreadOf(s, k).next < |ThreadOf(s, k).rules|
      then InsertStep(s, k, ok) else s
    case ClearAlarm(k) =>
      if ThreadOf(s, k).Running? && ThreadOf(s, k).stage.Clearing? && ThreadOf(s, k).next < |ThreadOf(s, k).rules|
      then ClearStep(s, k) else s
    case Trap(source, oid) => TrapStep(s, TrapKey(source, oid))
    case AckAlarm(id, user) => s.(table := Acknowledge(s.table, id, s.clock, user))
    case ClearByHand(id, user) => ClearByHandStep(s, id, user)
    case PruneRows(ids) => s.(table := Prune(s.table, ids))
    case Restart => s.(pending := map[], threads := map[], history := map[])
  }

  function Run(s: State, actions: seq<Action>): State {
    if actions == [] then s else Next(Run(s, actions[..|actions| - 1]), actions[|actions| - 1])
  }

  lemma RunAppend(s: State, actions: seq<Action>, a: Action)
    ensures Run(s, actions + [a]) == Next(Run(s, actions), a)
  {
    assert (actions + [a])[..|actions|] == actions;
  }

  /** With nothing in between, a message is received and the clock read at one moment. */
  lemma ReceivedAtOnce(s: State, k: Kind, msg: Message)
    requires ThreadOf(s, k) == Idle
    ensures Next(Next(s, Receive(k, msg)), ReadClock(k))
         == s.(threads := s.threads[k := Running(s.clock, s.rules, msg, 0, Scanning)])
  {
    assert s.threads[k := Loaded(s.rules, msg)][k := Running(s.clock, s.rules, msg, 0, Scanning)]
        == s.threads[k := Running(s.clock, s.rules, msg, 0, Scanning)];
  }

  // ---------- what the log says ----------

  /** The id of the alarm of this key that the log leaves open. */
  function OpenId(log: seq<Event>, key: string): Option<nat> {
    if log == [] then None
    else
      var e := log[|log| - 1];
      if e.key != key then OpenId(log[..|log| - 1], key)
      else if e.Opened? then Some(e.id) else None
  }

  ghost predicate OpenMatchesLog(t: Table, log: seq<Event>) {
    && (forall id: nat, key :: IsOpen(t, id, key) ==> OpenId(log, key) == Some(id))
    && (forall key :: OpenId(log, key).Some? ==> IsOpen(t, OpenId(log, key).value, key))
  }

  /** Openings and clearings of a key alternate, starting with an opening. */
  predicate Alternates(log: seq<Event>) {
    forall i :: 0 <= i < |log| ==> (log[i].Opened? <==> OpenId(log[..i], log[i].key).None?)
  }

  predicate IdsBelowNext(t: Table) {
    forall id :: id in t.rows ==> id < t.nextId
  }

  ghost predicate TableOk(t: Table, log: seq<Event>) {
    IdsBelowNext(t) && OpenMatchesLog(t, log) && Alternates(log)
  }

  predicate ThreadOk(t: Thread, k: Kind, table: Table, clock: int) {
    (!t.Idle? ==> DistinctIds(t.rules))
    && (t.Running? ==>
      && t.now <= clock
      && t.next <= |t.rules|
      && (!t.stage.Scanning? ==> t.next < |t.rules| && t.stage.key == KeyOf(t, k))
      && (t.stage.Inserting? ==> !HasOpen(table, t.stage.key)))
  }

  ghost predicate Safe(s: State) {
    && DistinctIds(s.rules)
    && TableOk(s.table, s.log)
    && forall k :: ThreadOk(ThreadOf(s, k), k, s.table, s.clock)
  }

  // ---------- the table steps keep table and log in agreement ----------

  lemma OpenIdAppend(log: seq<Event>, e: Event, key: string)
    ensures OpenId(log + [e], key) == if e.key != key then OpenId(log, key) else if e.Opened? then Some(e.id) else None
  {
    assert (log + [e])[..|log|] == log;
  }

  lemma AlternatesAppend(log: seq<Event>, e: Event)
    requires Alternates(log) && (e.Opened? <==> OpenId(log, e.key).None?)
    ensures Alternates(log + [e])
  {
    var l := log + [e];
    forall i | 0 <= i < |l| ensures l[i].Opened? <==> OpenId(l[..i], l[i].key).None? {
      if i < |log| {
        assert l[..i] == log[..i];
      } else {
        assert l[..i] == log;
      }
    }
  }

  lemma HasOpenIffLog(t: Table, log: seq<Event>, key: string)
    requires OpenMatchesLog(t, log)
    ensures HasOpen(t, key) <==> OpenId(log, key).Some?
  {
  }

  lemma InsertOk(t: Table, log: seq<Event>, key: string, time: int, hold: nat)
    requires TableOk(t, log) && !HasOpen(t, key)
    ensures TableOk(Insert(t, key, time), log + [Opened(key, time, t.nextId, hold)])
    ensures forall other :: other != key ==> (HasOpen(Insert(t, key, time), other) <==> HasOpen(t, other))
  {
    var e := Opened(key, time, t.nextId, hold);
    var t', l' := Insert(t, key, time), log + [e];
    HasOpenIffLog(t, log, key);
    AlternatesAppend(log, e);
    forall k ensures OpenId(l', k) == if k == key then Some(t.nextId) else OpenId(log, k) {
      OpenIdAppend(log, e, k);
    }
    assert forall id: nat, k :: IsOpen(t', id, k) <==> IsOpen(t, id, k) || (id == t.nextId && k == key);
    assert OpenMatchesLog(t', l');
    forall other | other != key ensures HasOpen(t', other) <==> HasOpen(t, other) {
      HasOpenIffLog(t, log, other);
      HasOpenIffLog(t', l', other);
    }
  }

  /** A clearing event for a key that had an open alarm, and a table in which no row of that key is open any more. */
  lemma ClearedOk(t: Table, log: seq<Event>, t': Table, e: Event)
    requires TableOk(t, log) && HasOpen(t, e.key) && !e.Opened?
    requires IdsBelowNext(t')
    requires forall id: nat, k :: IsOpen(t', id, k) <==> IsOpen(t, id, k) && k != e.key
    ensures TableOk(t', log + [e])
    ensures forall other :: HasOpen(t', other) ==> HasOpen(t, other)
  {
    var l' := log + [e];
    HasOpenIffLog(t, log, e.key);
    AlternatesAppend(log, e);
    forall k ensures OpenId(l', k) == if k == e.key then None else OpenId(log, k) {
      OpenIdAppend(log, e, k);
    }
  }

  /** Statements that open and close nothing. */
  lemma SameOpenOk(t: Table, log: seq<Event>, t': Table)
    requires TableOk(t, log) && IdsBelowNext(t')
    requires forall id: nat, k :: IsOpen(t', id, k) <==> IsOpen(t, id, k)
    ensures TableOk(t', log)
    ensures forall k :: HasOpen(t', k) <==> HasOpen(t, k)
  {
    forall k ensures HasOpen(t', k) <==> HasOpen(t, k) {
      HasOpenIffLog(t, log, k);
      HasOpenIffLog(t', log, k);
    }
  }

  // ---------- every step keeps Safe ----------

  /** Threads other than the stepping one are untouched when no key of theirs becomes open. */
  lemma OthersOk(s: State, s': State, k: Kind)
    requires forall j :: ThreadOk(ThreadOf(s, j), j, s.table, s.clock)
    requires s'.clock >= s.clock && forall j :: j != k ==> ThreadOf(s', j) == ThreadOf(s, j)
    requires forall key :: HasOpen(s'.table, key) && !HasOpen(s.table, key) ==>
             Owner(key) == None || Owner(key) == Some(k)
    ensures forall j :: j != k ==> ThreadOk(ThreadOf(s', j), j, s'.table, s'.clock)
  {
    forall j | j != k ensures ThreadOk(ThreadOf(s', j), j, s'.table, s'.clock) {
      var t := ThreadOf(s, j);
      if t.Running? && !t.stage.Scanning? {
        OwnerOfDedupKey(t.rules[t.next].id, j, t.msg.target);
      }
    }
  }

  lemma EvaluateSafe(s: State, k: Kind)
    requires Safe(s) && ThreadOf(s, k).Running? && ThreadOf(s, k).stage == Scanning
    ensures Safe(EvaluateStep(s, k))
  {
    OthersOk(s, EvaluateStep(s, k), k);
  }

  lemma CountSafe(s: State, k: Kind)
    requires Safe(s) && ThreadOf(s, k).Running? && ThreadOf(s, k).stage.Counting?
    ensures Safe(CountStep(s, k))
  {
    OthersOk(s, CountStep(s, k), k);
  }

  lemma InsertSafe(s: State, k: Kind, succeeds: bool)
    requires Safe(s) && ThreadOf(s, k).Running? && ThreadOf(s, k).stage.Inserting?
    ensures Safe(InsertStep(s, k, succeeds))
  {
    var t := ThreadOf(s, k);
    OwnerOfDedupKey(t.rules[t.next].id, k, t.msg.target);
    InsertOk(s.table, s.log, t.stage.key, s.clock, t.rules[t.next].forSeconds);
    OthersOk(s, InsertStep(s, k, succeeds), k);
  }

  lemma ClearSafe(s: State, k: Kind)
    requires Safe(s) && ThreadOf(s, k).Running? && ThreadOf(s, k).stage.Clearing?
    ensures Safe(ClearStep(s, k))
  {
    var t := ThreadOf(s, k);
    var key := t.stage.key;
    if HasOpen(s.table, key) {
      ClearedOk(s.table, s.log, AutoClear(s.table, key, s.clock),
                AutoCleared(key, s.clock, t.rules[t.next].clearSeconds));
    }
    OthersOk(s, ClearStep(s, k), k);
  }

  lemma TrapSafe(s: State, source: string, oid: string)
    requires Safe(s)
    ensures Safe(TrapStep(s, TrapKey(source, oid)))
  {
    var key := TrapKey(source, oid);
    if !HasOpen(s.table, key) {
      OwnerOfTrapKey(source, oid);
      InsertOk(s.table, s.log, key, s.clock, 0);
      NoThreadOk(s, TrapStep(s, key));
    }
  }

  /** All threads stay as they are. */
  lemma NoThreadOk(s: State, s': State)
    requires Safe(s) && s'.threads == s.threads && s'.clock >= s.clock
    requires forall key :: HasOpen(s'.table, key) && !HasOpen(s.table, key) ==> Owner(key) == None
    ensures forall j :: ThreadOk(ThreadOf(s', j), j, s'.table, s'.clock)
  {
    OthersOk(s, s', Appliance);
    OthersOk(s, s', Agent);
  }

  lemma ByHandSafe(s: State, id: nat, user: string)
    requires Safe(s)
    ensures Safe(ClearByHandStep(s, id, user))
  {
    if id in s.table.rows && s.table.rows[id].clear.None? {
      var key := s.table.rows[id].key;
      assert IsOpen(s.table, id, key);
      ClearedOk(s.table, s.log, ManualClear(s.table, id, s.clock, user), ManualCleared(key, s.clock));
      NoThreadOk(s, ClearByHandStep(s, id, user));
    }
  }

  lemma HandlerSafe(s: State, a: Action)
    requires Safe(s)
    requires a.Receive? || a.ReadClock? || a.EvaluateRule? || a.CountOpen? || a.InsertAlarm? || a.ClearAlarm?
    ensures Safe(Next(s, a))
  {
    var k := a.kind;
    var t := ThreadOf(s, k);
    match a
    case Receive(_, msg) => OthersOk(s, Next(s, a), k);
    case ReadClock(_) => OthersOk(s, Next(s, a), k);
    case EvaluateRule(_) => if t.Running? && t.stage == Scanning { EvaluateSafe(s, k); }
    case CountOpen(_) => if t.Running? && t.stage.Counting? { CountSafe(s, k); }
    case InsertAlarm(_, ok) => if t.Running? && t.stage.Inserting? { InsertSafe(s, k, ok); }
    case ClearAlarm(_) => if t.Running? && t.stage.Clearing? { ClearSafe(s, k); }
  }

  lemma NextSafe(s: State, a: Action)
    requires Safe(s)
    ensures Safe(Next(s, a))
  {
    match a
    case Tick(n) => NoThreadOk(s, Next(s, a));
    case Refresh(rules) => NoThreadOk(s, Next(s, a));
    case Trap(source, oid) => TrapSafe(s, source, oid);
    case AckAlarm(id, user) =>
      SameOpenOk(s.table, s.log, Acknowledge(s.table, id, s.clock, user));
      NoThreadOk(s, Next(s, a));
    case ClearByHand(id, user) => ByHandSafe(s, id, user);
    case PruneRows(ids) =>
      SameOpenOk(s.table, s.log, Prune(s.table, ids));
      NoThreadOk(s, Next(s, a));
    case Restart =>
    case _ => HandlerSafe(s, a);
  }

  lemma InitSafe()
    ensures Safe(INIT)
  {
  }

  lemma {:induction false} RunSafe(actions: seq<Action>)
    ensures Safe(Run(INIT, actions))
  {
    if actions == [] {
      InitSafe();
    } else {
      RunSafe(actions[..|actions| - 1]);
      NextSafe(Run(INIT, actions[..|actions| - 1]), actions[|actions| - 1]);
    }
  }

  /** In every interleaving, a dedup key has at most one alarm that is not cleared. */
  lemma AtMostOneOpen(actions: seq<Action>, key: string, i: nat, j: nat)
    requires IsOpen(Run(INIT, actions).table, i, key) && IsOpen(Run(INIT, actions).table, j, key)
    ensures i == j
  {
    RunSafe(actions);
  }
}
