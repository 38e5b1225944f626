/** What the alarms table and the hysteresis state have in common with their whole history, over every run. */
module AlarmLifecycle {
  import opened Text
  import opened AlarmCore
  import opened AlarmProtocol
  import opened AlarmDwell
  import MiniExpr

  // ---------- the life of a row ----------

  /** The first acknowledgement stays, and a cleared row never changes again. */
  predicate RowEvolves(r: Alarm, r': Alarm) {
    r'.key == r.key && r'.openedAt == r.openedAt
    && (r.ack.Some? ==> r'.ack == r.ack)
    && (r.clear.Some? ==> r' == r)
  }

  predicate Evolves(t: Table, t': Table) {
    && t.nextId <= t'.nextId
    && (forall id :: id in t.rows && id in t'.rows ==> RowEvolves(t.rows[id], t'.rows[id]))
    && (forall id :: id in t'.rows && id < t.nextId ==> id in t.rows)
  }

  lemma InsertEvolves(t: Table, key: string, time: int)
    requires IdsBelowNext(t)
    ensures Evolves(t, Insert(t, key, time))
  {
  }

  lemma StatementsEvolve(t: Table, key: string, time: int, id: nat, user: string, ids: set<nat>)
    ensures Evolves(t, AutoClear(t, key, time))
    ensures Evolves(t, Acknowledge(t, id, time, user))
    ensures Evolves(t, ManualClear(t, id, time, user))
    ensures Evolves(t, Prune(t, ids))
  {
  }

  lemma HandlerEvolves(s: State, a: Action)
    requires Safe(s) && (a.InsertAlarm? || a.ClearAlarm?)
    ensures Evolves(s.table, Next(s, a).table)
  {
    var t := ThreadOf(s, a.kind);
    if t.Running? && t.stage.Inserting? { InsertEvolves(s.table, t.stage.key, s.clock); }
    if t.Running? && t.stage.Clearing? { StatementsEvolve(s.table, t.stage.key, s.clock, 0, "", {}); }
  }

  lemma OperatorEvolves(s: State, a: Action)
    requires a.AckAlarm? || a.ClearByHand?
    ensures Evolves(s.table, Next(s, a).table)
  {
    StatementsEvolve(s.table, "", s.clock, a.id, a.user, {});
  }

  lemma StepEvolves(s: State, a: Action)
    requires Safe(s)
    ensures Evolves(s.table, Next(s, a).table)
  {
    if a.InsertAlarm? || a.ClearAlarm? {
      HandlerEvolves(s, a);
    } else if a.AckAlarm? || a.ClearByHand? {
      OperatorEvolves(s, a);
    } else if a.Trap? {
      InsertEvolves(s.table, TrapKey(a.source, a.oid), s.clock);
    } else if a.PruneRows? {
      StatementsEvolve(s.table, "", s.clock, 0, "", a.ids);
    } else {
      assert Next(s, a).table == s.table;
    }
  }

  lemma {:induction false} RunEvolves(s: State, actions: seq<Action>)
    requires Safe(s)
    ensures Safe(Run(s, actions)) && Evolves(s.table, Run(s, actions).table)
  {
    if actions != [] {
      var mid := Run(s, actions[..|actions| - 1]);
      RunEvolves(s, actions[..|actions| - 1]);
      NextSafe(mid, actions[|actions| - 1]);
      StepEvolves(mid, actions[|actions| - 1]);
      assert forall id :: id in s.table.rows ==> id < s.table.nextId <= mid.table.nextId;
    }
  }

  /** opened <= acked <= cleared <= now. */
  predicate RowInOrder(r: Alarm, clock: int) {
    && r.openedAt <= clock
    && (r.ack.Some? ==> r.openedAt <= r.ack.value.time <= clock)
    && (r.clear.Some? ==> r.openedAt <= r.clear.value.time <= clock)
    && (r.ack.Some? && r.clear.Some? ==> r.ack.value.time <= r.clear.value.time)
  }

  predicate RowsInOrder(t: Table, clock: int) {
    forall id :: id in t.rows ==> RowInOrder(t.rows[id], clock)
  }

  lemma StepInOrder(s: State, a: Action)
    requires RowsInOrder(s.table, s.clock)
    ensures RowsInOrder(Next(s, a).table, Next(s, a).clock)
  {
  }

  /** After any run and any continuation of it: a row keeps its first acknowledgement and its one clear,
      ids are not reused, and opening, acknowledgement and clear are in that order. */
  lemma {:induction false} RowLife(actions: seq<Action>, more: seq<Action>)
    ensures Evolves(Run(INIT, actions).table, Run(Run(INIT, actions), more).table)
    ensures RowsInOrder(Run(INIT, actions).table, Run(INIT, actions).clock)
  {
    RunSafe(actions);
    RunEvolves(Run(INIT, actions), more);
    if actions != [] {
      RowLife(actions[..|actions| - 1], []);
      StepInOrder(Run(INIT, actions[..|actions| - 1]), actions[|actions| - 1]);
    }
  }

  // ---------- the hysteresis state is a function of the samples ----------

  ghost predicate PendingMatchesHistory(s: State) {
    forall key :: PendingOf(s, key) == ObserveAll(HistoryOf(s, key))
  }

  lemma StepMatchesHistory(s: State, a: Action)
    requires PendingMatchesHistory(s)
    ensures PendingMatchesHistory(Next(s, a))
  {
    if a.EvaluateRule? && ThreadOf(s, a.kind).Running? && ThreadOf(s, a.kind).stage == Scanning {
      EvaluateMatchesHistory(s, a.kind);
    } else {
      var s' := Next(s, a);
      assert a.Restart? || (s'.pending == s.pending && s'.history == s.history);
      forall key ensures PendingOf(s', key) == ObserveAll(HistoryOf(s', key)) {
        assert PendingOf(s, key) == ObserveAll(HistoryOf(s, key));
      }
    }
  }

  lemma EvaluateMatchesHistory(s: State, k: Kind)
    requires PendingMatchesHistory(s) && ThreadOf(s, k).Running? && ThreadOf(s, k).stage == Scanning
    ensures PendingMatchesHistory(EvaluateStep(s, k))
  {
    var s' := EvaluateStep(s, k);
    forall key ensures PendingOf(s', key) == ObserveAll(HistoryOf(s', key)) {
      assert PendingOf(s, key) == ObserveAll(HistoryOf(s, key));
      var h' := HistoryOf(s', key);
      if h' != HistoryOf(s, key) {
        assert h'[..|h'| - 1] == HistoryOf(s, key);
      }
    }
  }

  lemma {:induction false} RunMatchesHistory(actions: seq<Action>)
    ensures PendingMatchesHistory(Run(INIT, actions))
  {
    if actions != [] {
      RunMatchesHistory(actions[..|actions| - 1]);
      StepMatchesHistory(Run(INIT, actions[..|actions| - 1]), actions[|actions| - 1]);
    }
  }

  /** A handler about to act has just recorded its own sample. */
  ghost predicate Sampled(s: State, k: Kind) {
    var t := ThreadOf(s, k);
    t.Running? && !t.stage.Scanning? ==>
      var h := HistoryOf(s, t.stage.key);
      h != [] && h[|h| - 1].time == t.now
  }

  /** The handler goes on with the same key, or with none; the samples of that key are the same. */
  predicate SameDuty(s: State, s': State, j: Kind) {
    var t, t' := ThreadOf(s, j), ThreadOf(s', j);
    t'.Running? && !t'.stage.Scanning? ==>
      && t.Running? && !t.stage.Scanning? && t'.stage.key == t.stage.key && t'.now == t.now
      && HistoryOf(s', t.stage.key) == HistoryOf(s, t.stage.key)
  }

  lemma DutySampled(s: State, s': State, j: Kind)
    requires Sampled(s, j) && SameDuty(s, s', j)
    ensures Sampled(s', j)
  {
  }

  lemma OwnSampled(s: State, k: Kind)
    requires ThreadOf(s, k).Running? && ThreadOf(s, k).stage == Scanning
    ensures Sampled(EvaluateStep(s, k), k)
  {
  }

  /** A handler of another subscription works on other keys. */
  lemma OtherDuty(s: State, k: Kind, j: Kind)
    requires Safe(s) && j != k && ThreadOf(s, k).Running? && ThreadOf(s, k).stage == Scanning
    ensures SameDuty(s, EvaluateStep(s, k), j)
  {
    var t, u, s' := ThreadOf(s, k), ThreadOf(s, j), EvaluateStep(s, k);
    assert ThreadOf(s', j) == u;
    if u.Running? && !u.stage.Scanning? {
      assert ThreadOk(u, j, s.table, s.clock);
      OwnerOfDedupKey(u.rules[u.next].id, j, u.msg.target);
      if t.next < |t.rules| {
        OwnerOfDedupKey(t.rules[t.next].id, k, t.msg.target);
        assert u.stage.key != KeyOf(t, k);
      }
      assert HistoryOf(s', u.stage.key) == HistoryOf(s, u.stage.key);
    }
  }

  predicate HandlerMove(a: Action) {
    a.Receive? || a.ReadClock? || a.CountOpen? || a.InsertAlarm? || a.ClearAlarm?
  }

  lemma ThreadDuty(s: State, s': State, k: Kind, t': Thread, j: Kind)
    requires s'.threads == s.threads[k := t'] && s'.history == s.history
    requires t'.Running? && !t'.stage.Scanning? ==>
               var t := ThreadOf(s, k);
               t.Running? && !t.stage.Scanning? && t'.stage.key == t.stage.key && t'.now == t.now
    ensures SameDuty(s, s', j)
  {
  }

  /** A handler's steps other than an evaluation give it no new key and record no sample. */
  lemma HandlerDuty(s: State, a: Action, j: Kind)
    requires HandlerMove(a)
    ensures SameDuty(s, Next(s, a), j)
  {
    var k := a.kind;
    var t := ThreadOf(s, k);
    match a
    case Receive(_, msg) => if t.Idle? { ThreadDuty(s, Next(s, a), k, Loaded(s.rules, msg), j); }
    case ReadClock(_) => if t.Loaded? { ThreadDuty(s, Next(s, a), k, Start(t, s.clock), j); }
    case CountOpen(_) =>
      if t.Running? && t.stage.Counting? {
        var t' := if HasOpen(s.table, t.stage.key) then Advance(t) else t.(stage := Inserting(t.stage.key));
        ThreadDuty(s, Next(s, a), k, t', j);
      }
    case InsertAlarm(_, _) =>
      if t.Running? && t.stage.Inserting? && t.next < |t.rules| { ThreadDuty(s, Next(s, a), k, Advance(t), j); }
    case ClearAlarm(_) =>
      if t.Running? && t.stage.Clearing? && t.next < |t.rules| { ThreadDuty(s, Next(s, a), k, Advance(t), j); }
  }

  lemma QuietDuty(s: State, a: Action, j: Kind)
    requires !HandlerMove(a) && !a.EvaluateRule?
    ensures SameDuty(s, Next(s, a), j)
  {
    assert a.Restart? || (Next(s, a).history == s.history && Next(s, a).threads == s.threads);
  }

  lemma NextSampled(s: State, a: Action, j: Kind)
    requires Safe(s) && Sampled(s, j)
    ensures Sampled(Next(s, a), j)
  {
    if !a.EvaluateRule? {
      if HandlerMove(a) { HandlerDuty(s, a, j); } else { QuietDuty(s, a, j); }
      DutySampled(s, Next(s, a), j);
    } else if ThreadOf(s, a.kind).Running? && ThreadOf(s, a.kind).stage == Scanning {
      if a.kind == j {
        OwnSampled(s, j);
      } else {
        OtherDuty(s, a.kind, j);
        DutySampled(s, Next(s, a), j);
      }
    }
  }

  lemma {:induction false} RunSampled(actions: seq<Action>, j: Kind)
    ensures Sampled(Run(INIT, actions), j)
  {
    if actions != [] {
      var front := actions[..|actions| - 1];
      RunSafe(front);
      RunSampled(front, j);
      NextSampled(Run(INIT, front), actions[|actions| - 1], j);
    }
  }

  /** The key's samples end in a run of equal values that spans hold seconds, from its first sample to its last. */
  ghost predicate HeldFor(h: seq<Sample>, truthy: bool, hold: nat) {
    h != [] && h[|h| - 1].truthy == truthy
    && exists i :: StartsLastRun(h, i) && h[i].time + hold * SECOND <= h[|h| - 1].time
  }

  lemma PendingHeld(h: seq<Sample>, hold: nat)
    requires h != []
    ensures var p, now := ObserveAll(h), h[|h| - 1].time;
            && (p.truthySince.Some? && p.truthySince.value + hold * SECOND <= now ==> HeldFor(h, true, hold))
            && (p.falsySince.Some? && p.falsySince.value + hold * SECOND <= now ==> HeldFor(h, false, hold))
  {
    var i := PendingIsLastRun(h);
  }

  /** The handler that acts: the samples of its key span the window. */
  lemma ActingIsHeld(s: State, k: Kind)
    requires Safe(s) && Timely(s) && PendingMatchesHistory(s) && Sampled(s, k)
    requires ThreadOf(s, k).Running? && !ThreadOf(s, k).stage.Scanning?
    ensures var t := ThreadOf(s, k);
            var h := HistoryOf(s, t.stage.key);
            && h != [] && h[|h| - 1].time <= s.clock
            && if t.stage.Clearing? then HeldFor(h, false, t.rules[t.next].clearSeconds)
               else HeldFor(h, true, t.rules[t.next].forSeconds)
  {
    var t := ThreadOf(s, k);
    assert WindowSeen(t, s) && ThreadOk(t, k, s.table, s.clock);
    var h := HistoryOf(s, t.stage.key);
    assert ObserveAll(h) == PendingOf(s, t.stage.key);
    PendingHeld(h, if t.stage.Clearing? then t.rules[t.next].clearSeconds else t.rules[t.next].forSeconds);
  }

  /** Only these steps log an event of the engine for a subscription's key. */
  lemma ActsWhen(s: State, a: Action)
    requires |Next(s, a).log| == |s.log| + 1
    requires ByEngine(Next(s, a).log[|s.log|]) && Owner(Next(s, a).log[|s.log|].key).Some?
    ensures a.InsertAlarm? || a.ClearAlarm?
    ensures var t, e := ThreadOf(s, a.kind), Next(s, a).log[|s.log|];
            && t.Running? && t.next < |t.rules| && e.time == s.clock
            && (t.stage.Inserting? || t.stage.Clearing?) && e.key == t.stage.key && (e.Opened? <==> t.stage.Inserting?)
            && e.hold == if e.Opened? then t.rules[t.next].forSeconds else t.rules[t.next].clearSeconds
  {
    if a.Trap? { OwnerOfTrapKey(a.source, a.oid); }
  }

  /** The engine logs an opening (a clear) only when the key's full sample history ends in a truthy (falsy)
      run as long as the rule's window; its last sample is not later than the event. */
  lemma TransitionNeedsWindow(actions: seq<Action>, a: Action)
    requires var s, s' := Run(INIT, actions), Next(Run(INIT, actions), a);
             |s'.log| == |s.log| + 1 && ByEngine(s'.log[|s.log|]) && Owner(s'.log[|s.log|].key).Some?
    ensures var s, s' := Run(INIT, actions), Next(Run(INIT, actions), a);
            var e := s'.log[|s.log|];
            var h := HistoryOf(s, e.key);
            HeldFor(h, e.Opened?, e.hold) && h[|h| - 1].time <= e.time
  {
    var s := Run(INIT, actions);
    RunTimely(actions);
    RunMatchesHistory(actions);
    ActsWhen(s, a);
    RunSampled(actions, a.kind);
    ActingIsHeld(s, a.kind);
  }

  // ---------- an operator clear is not delayed by the windows ----------

  const ALWAYS := Rule("00000000-0000-0000-0000-000000000000", None, "true", 1, 1, "any")
  const PING := Message("site", "x", map[])

  function AlwaysKey(): string { DedupKey(ALWAYS.id, Agent, "x") }

  /** An idle handler, the rule in force, and its predicate observed truthy since time 0. */
  ghost predicate Watching(s: State) {
    && s.rules == [ALWAYS] && ThreadOf(s, Agent) == Idle
    && PendingOf(s, AlwaysKey()) == Pending(Some(0), None)
    && !HasOpen(s.table, AlwaysKey())
  }

  lemma AlwaysTrue()
    ensures MiniExpr.Truth("true", map[]) == MiniExpr.Ok(true)
  {
    TrimSpaceBlank("", "true", "");
    assert "" + "true" + "" == "true";
  }

  lemma EvaluateAlways(s: State)
    requires ThreadOf(s, Agent).Running? && ThreadOf(s, Agent).stage == Scanning
    requires var t := ThreadOf(s, Agent); t.rules == [ALWAYS] && t.next == 0 && t.msg == PING
    requires PendingOf(s, AlwaysKey()).falsySince == None
    ensures var t, s' := ThreadOf(s, Agent), EvaluateStep(s, Agent);
            var p := Observe(PendingOf(s, AlwaysKey()), Sample(t.now, true));
            s'.pending == s.pending[AlwaysKey() := p]
            && s'.threads == s.threads[Agent := if t.now - p.truthySince.value < SECOND then Advance(t)
                                       else t.(stage := Counting(AlwaysKey()))]
            && s'.table == s.table && s'.log == s.log && s'.rules == s.rules && s'.clock == s.clock
  {
    AlwaysTrue();
  }

  /** A message arrives and the handler reads the clock. */
  lemma Received(actions: seq<Action>) returns (more: seq<Action>)
    requires ThreadOf(Run(INIT, actions), Agent) == Idle
    ensures var s := Run(INIT, actions);
            Run(INIT, more) == s.(threads := s.threads[Agent := Running(s.clock, s.rules, PING, 0, Scanning)])
  {
    RunAppend(INIT, actions, Receive(Agent, PING));
    more := actions + [Receive(Agent, PING)];
    RunAppend(INIT, more, ReadClock(Agent));
    more := more + [ReadClock(Agent)];
    ReceivedAtOnce(Run(INIT, actions), Agent, PING);
  }

  lemma Evaluated(actions: seq<Action>) returns (more: seq<Action>)
    requires Watching(Run(INIT, actions)) && Run(INIT, actions).clock == SECOND
    ensures var s, s' := Run(INIT, actions), Run(INIT, more);
            && s'.log == s.log && s'.table == s.table && s'.rules == s.rules && s'.clock == s.clock
            && PendingOf(s', AlwaysKey()) == Pending(Some(0), None)
            && ThreadOf(s', Agent) == Running(SECOND, [ALWAYS], PING, 0, Counting(AlwaysKey()))
  {
    more := Received(actions);
    EvaluateAlways(Run(INIT, more));
    RunAppend(INIT, more, EvaluateRule(Agent));
    more := more + [EvaluateRule(Agent)];
  }

  /** One message: received, evaluated, counted, inserted, done. */
  lemma OpensNow(actions: seq<Action>) returns (more: seq<Action>)
    requires Watching(Run(INIT, actions)) && Run(INIT, actions).clock == SECOND
    ensures var s, s' := Run(INIT, actions), Run(INIT, more);
            && s'.log == s.log + [Opened(AlwaysKey(), SECOND, s.table.nextId, 1)]
            && s'.table == Insert(s.table, AlwaysKey(), SECOND)
            && s'.rules == s.rules && s'.clock == s.clock && ThreadOf(s', Agent) == Idle
            && PendingOf(s', AlwaysKey()) == Pending(Some(0), None)
  {
    more := Evaluated(actions);
    RunAppend(INIT, more, CountOpen(Agent));
    RunAppend(INIT, more + [CountOpen(Agent)], InsertAlarm(Agent, true));
    RunAppend(INIT, more + [CountOpen(Agent)] + [InsertAlarm(Agent, true)], EvaluateRule(Agent));
    CountInsertDone(Run(INIT, more));
    more := more + [CountOpen(Agent)] + [InsertAlarm(Agent, true)] + [EvaluateRule(Agent)];
  }

  lemma CountInsertDone(s: State)
    requires ThreadOf(s, Agent) == Running(SECOND, [ALWAYS], PING, 0, Counting(AlwaysKey()))
             && !HasOpen(s.table, AlwaysKey())
    ensures var s' := Next(Next(Next(s, CountOpen(Agent)), InsertAlarm(Agent, true)), EvaluateRule(Agent));
            && s'.log == s.log + [Opened(AlwaysKey(), s.clock, s.table.nextId, 1)]
            && s'.table == Insert(s.table, AlwaysKey(), s.clock)
            && s'.rules == s.rules && s'.clock == s.clock && ThreadOf(s', Agent) == Idle && s'.pending == s.pending
  {
    var s1 := Next(s, CountOpen(Agent));
    assert ThreadOf(s1, Agent) == Running(SECOND, [ALWAYS], PING, 0, Inserting(AlwaysKey()));
    var s2 := Next(s1, InsertAlarm(Agent, true));
    assert ThreadOf(s2, Agent) == Running(SECOND, [ALWAYS], PING, 1, Scanning);
  }

  /** The operator clears the one open row. */
  lemma OperatorClears(s: State)
    requires s.table == Table(map[0 := Alarm(AlwaysKey(), SECOND, None, None)], 1) && s.clock == SECOND
    requires s.rules == [ALWAYS] && ThreadOf(s, Agent) == Idle && PendingOf(s, AlwaysKey()) == Pending(Some(0), None)
    ensures var s' := Next(s, ClearByHand(0, "op"));
            Watching(s') && s'.clock == SECOND && s'.table.nextId == 1
              && s'.log == s.log + [ManualCleared(AlwaysKey(), SECOND)]
  {
    var s' := Next(s, ClearByHand(0, "op"));
    assert s'.table.rows == map[0 := Alarm(AlwaysKey(), SECOND, None, Some(Clear(SECOND, Some("op"))))];
  }

  lemma WarmedUp() returns (actions: seq<Action>)
    ensures var s := Run(INIT, actions);
            Watching(s) && s.clock == SECOND && s.log == [] && s.table == Table(map[], 0)
  {
    actions := [Refresh([ALWAYS])];
    RunAppend(INIT, [], Refresh([ALWAYS]));
    assert [] + [Refresh([ALWAYS])] == actions;
    actions := Received(actions);
    EvaluateAlways(Run(INIT, actions));
    RunAppend(INIT, actions, EvaluateRule(Agent));
    actions := actions + [EvaluateRule(Agent)];
    RunAppend(INIT, actions, EvaluateRule(Agent));
    actions := actions + [EvaluateRule(Agent)];
    RunAppend(INIT, actions, Tick(SECOND));
    actions := actions + [Tick(SECOND)];
  }

  /** With an operator clear in between, a rule with a for window of one second opens twice at the same instant. */
  lemma ManualClearReopensAtOnce() returns (actions: seq<Action>)
    ensures Run(INIT, actions).log
         == [Opened(AlwaysKey(), SECOND, 0, 1), ManualCleared(AlwaysKey(), SECOND), Opened(AlwaysKey(), SECOND, 1, 1)]
  {
    actions := WarmedUp();
    actions := OpensNow(actions);
    OperatorClears(Run(INIT, actions));
    RunAppend(INIT, actions, ClearByHand(0, "op"));
    actions := OpensNow(actions + [ClearByHand(0, "op")]);
  }
}
