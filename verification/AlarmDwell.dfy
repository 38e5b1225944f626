/** How often an alarm can open: the for and clear windows, over every run of AlarmProtocol. */
module AlarmDwell {
  import opened Text
  import opened AlarmCore
  import opened AlarmProtocol
  import MiniExpr

  /** The engine's own events: operator clears are not delayed by any window. */
  predicate ByEngine(e: Event) { !e.ManualCleared? }

  predicate LogInTime(log: seq<Event>, clock: int) {
    (forall i :: 0 <= i < |log| ==> log[i].time <= clock)
    && (forall i, j :: 0 <= i < j < |log| ==> log[i].time <= log[j].time)
  }

  /** The hysteresis state of a key is younger than the transitions it has to outlast. */
  predicate PendingAfterLog(p: Pending, key: string, log: seq<Event>) {
    forall i :: 0 <= i < |log| && log[i].key == key ==>
      && (p.truthySince.Some? && log[i].AutoCleared? ==> log[i].time <= p.truthySince.value)
      && (p.falsySince.Some? && log[i].Opened? ==> log[i].time <= p.falsySince.value)
  }

  /** The rules a handler has still to visit have caused nothing since its message arrived. */
  predicate RestUntouched(t: Thread, k: Kind, log: seq<Event>) {
    t.Running? ==>
      forall i, j | 0 <= i < |log| && t.next <= j < |t.rules| && ByEngine(log[i]) ::
        log[i].key == DedupKey(t.rules[j].id, k, t.msg.target) ==> log[i].time <= t.now
  }

  /** A handler about to open or clear has seen the whole window. */
  predicate WindowSeen(t: Thread, s: State) {
    t.Running? && t.next < |t.rules| ==>
      && (t.stage.Counting? || t.stage.Inserting? ==>
            var p := PendingOf(s, t.stage.key);
            p.falsySince == None && p.truthySince.Some?
            && p.truthySince.value + t.rules[t.next].forSeconds * SECOND <= t.now)
      && (t.stage.Clearing? ==>
            var p := PendingOf(s, t.stage.key);
            p.truthySince == None && p.falsySince.Some?
            && p.falsySince.value + t.rules[t.next].clearSeconds * SECOND <= t.now)
  }

  /** b comes hold seconds or more after a, when one is an opening and the other an automatic clearing. */
  predicate Apart(a: Event, b: Event) {
    a.key == b.key && ((a.Opened? && b.AutoCleared?) || (a.AutoCleared? && b.Opened?)) ==>
      a.time + b.hold * SECOND <= b.time
  }

  predicate Spaced(log: seq<Event>) {
    forall i, j :: 0 <= i < j < |log| ==> Apart(log[i], log[j])
  }

  predicate OwnedPending(s: State) {
    forall key :: key in s.pending ==> Owner(key).Some?
  }

  ghost predicate Timely(s: State) {
    && LogInTime(s.log, s.clock)
    && OwnedPending(s)
    && Spaced(s.log)
    && (forall key :: PendingAfterLog(PendingOf(s, key), key, s.log))
    && (forall k :: RestUntouched(ThreadOf(s, k), k, s.log) && WindowSeen(ThreadOf(s, k), s))
  }

  // ---------- appending to the log ----------

  lemma AppendInTime(log: seq<Event>, e: Event, clock: int)
    requires LogInTime(log, clock) && e.time == clock
    ensures LogInTime(log + [e], clock)
  {
  }

  lemma AppendSpaced(log: seq<Event>, e: Event)
    requires Spaced(log) && forall i :: 0 <= i < |log| ==> Apart(log[i], e)
    ensures Spaced(log + [e])
  {
  }

  /** A handler of another subscription, or one past the rule in question, does not see the event. */
  lemma AppendUntouched(t: Thread, k: Kind, log: seq<Event>, e: Event)
    requires RestUntouched(t, k, log)
    requires ByEngine(e) && t.Running? ==> forall j :: t.next <= j < |t.rules| ==>
             e.key != DedupKey(t.rules[j].id, k, t.msg.target)
    ensures RestUntouched(t, k, log + [e])
  {
  }

  lemma OtherOwner(t: Thread, k: Kind, key: string)
    requires t.Running? && Owner(key) != Some(k)
    ensures forall j :: 0 <= j < |t.rules| ==> key != DedupKey(t.rules[j].id, k, t.msg.target)
  {
    forall j | 0 <= j < |t.rules| ensures key != DedupKey(t.rules[j].id, k, t.msg.target) {
      OwnerOfDedupKey(t.rules[j].id, k, t.msg.target);
    }
  }

  lemma LaterRules(t: Thread, k: Kind)
    requires t.Running? && t.next < |t.rules| && DistinctIds(t.rules)
    ensures forall j :: t.next < j < |t.rules| ==> KeyOf(t, k) != DedupKey(t.rules[j].id, k, t.msg.target)
  {
    forall j | t.next < j < |t.rules| ensures KeyOf(t, k) != DedupKey(t.rules[j].id, k, t.msg.target) {
      if KeyOf(t, k) == DedupKey(t.rules[j].id, k, t.msg.target) {
        DedupKeyInjective(t.rules[t.next].id, k, t.msg.target, t.rules[j].id, k, t.msg.target);
      }
    }
  }

  // ---------- every step keeps Timely ----------

  /** Another handler keeps what it has when the step's key is not its own. */
  lemma OthersTimely(s: State, s': State, k: Kind)
    requires Safe(s) && Timely(s)
    requires forall j :: j != k ==> ThreadOf(s', j) == ThreadOf(s, j)
    requires forall key :: Owner(key) != Some(k) ==> PendingOf(s', key) == PendingOf(s, key)
    requires s'.log == s.log || exists e: Event :: s'.log == s.log + [e] && (ByEngine(e) ==> Owner(e.key) == Some(k))
    ensures forall j :: j != k ==> RestUntouched(ThreadOf(s', j), j, s'.log) && WindowSeen(ThreadOf(s', j), s')
  {
    forall j | j != k ensures RestUntouched(ThreadOf(s', j), j, s'.log) && WindowSeen(ThreadOf(s', j), s') {
      var t := ThreadOf(s, j);
      if t.Running? {
        if s'.log != s.log {
          var e: Event :| s'.log == s.log + [e] && (ByEngine(e) ==> Owner(e.key) == Some(k));
          if ByEngine(e) { OtherOwner(t, j, e.key); }
          AppendUntouched(t, j, s.log, e);
        }
        if !t.stage.Scanning? {
          OwnerOfDedupKey(t.rules[t.next].id, j, t.msg.target);
        }
      }
    }
  }

  /** A step that changes one thread and nothing else. */
  lemma ThreadTimely(s: State, k: Kind, t: Thread)
    requires Safe(s) && Timely(s)
    requires RestUntouched(t, k, s.log) && WindowSeen(t, s)
    ensures Timely(s.(threads := s.threads[k := t]))
  {
    var s' := s.(threads := s.threads[k := t]);
    assert forall key :: PendingOf(s', key) == PendingOf(s, key);
    OthersTimely(s, s', k);
    assert WindowSeen(t, s');
  }

  lemma AdvanceUntouched(t: Thread, k: Kind, log: seq<Event>)
    requires t.Running? && RestUntouched(t, k, log)
    ensures RestUntouched(Advance(t), k, log)
  {
  }

  lemma ObservedAfterLog(p: Pending, smp: Sample, key: string, log: seq<Event>)
    requires PendingAfterLog(p, key, log)
    requires forall i :: 0 <= i < |log| && log[i].key == key && ByEngine(log[i]) ==> log[i].time <= smp.time
    ensures PendingAfterLog(Observe(p, smp), key, log)
  {
  }

  /** One successful evaluation: the hysteresis state of the handler's current key, and its stage. */
  lemma ObserveTimely(s: State, k: Kind, p: Pending, h: map<string, seq<Sample>>, t': Thread)
    requires Safe(s) && Timely(s)
    requires ThreadOf(s, k).Running? && ThreadOf(s, k).next < |ThreadOf(s, k).rules|
    requires var t := ThreadOf(s, k); PendingAfterLog(p, KeyOf(t, k), s.log)
    requires RestUntouched(t', k, s.log)
    requires var t := ThreadOf(s, k);
             WindowSeen(t', s.(pending := s.pending[KeyOf(t, k) := p], history := h, threads := s.threads[k := t']))
    ensures var t := ThreadOf(s, k);
            Timely(s.(pending := s.pending[KeyOf(t, k) := p], history := h, threads := s.threads[k := t']))
  {
    var t := ThreadOf(s, k);
    var key := KeyOf(t, k);
    var s' := s.(pending := s.pending[key := p], history := h, threads := s.threads[k := t']);
    OwnerOfDedupKey(t.rules[t.next].id, k, t.msg.target);
    assert forall other :: other != key ==> PendingOf(s', other) == PendingOf(s, other);
    forall other ensures PendingAfterLog(PendingOf(s', other), other, s'.log) {
      assert PendingAfterLog(PendingOf(s, other), other, s.log);
    }
    OthersTimely(s, s', k);
  }

  lemma EvaluateTimely(s: State, k: Kind)
    requires Safe(s) && Timely(s) && ThreadOf(s, k).Running? && ThreadOf(s, k).stage == Scanning
    ensures Timely(EvaluateStep(s, k))
  {
    var t := ThreadOf(s, k);
    assert RestUntouched(t, k, s.log);
    AdvanceUntouched(t, k, s.log);
    if t.next >= |t.rules| {
      ThreadTimely(s, k, Idle);
    } else {
      var rl := t.rules[t.next];
      var truth := MiniExpr.Truth(rl.expr, t.msg.env);
      if !Applies(rl, k, t.msg) || truth.Err? {
        ThreadTimely(s, k, Advance(t));
      } else {
        var key := KeyOf(t, k);
        var smp := Sample(t.now, truth.truth);
        var p := Observe(PendingOf(s, key), smp);
        var stage := StageAfter(p, rl, key, smp);
        assert PendingAfterLog(PendingOf(s, key), key, s.log);
        ObservedAfterLog(PendingOf(s, key), smp, key, s.log);
        var t' := if stage == Scanning then Advance(t) else t.(stage := stage);
        ObserveTimely(s, k, p, s.history[key := HistoryOf(s, key) + [smp]], t');
      }
    }
  }

  lemma CountTimely(s: State, k: Kind)
    requires Safe(s) && Timely(s) && ThreadOf(s, k).Running? && ThreadOf(s, k).stage.Counting?
    ensures Timely(CountStep(s, k))
  {
    var t := ThreadOf(s, k);
    assert WindowSeen(t, s) && RestUntouched(t, k, s.log);
    AdvanceUntouched(t, k, s.log);
    if HasOpen(s.table, t.stage.key) {
      ThreadTimely(s, k, Advance(t));
    } else {
      ThreadTimely(s, k, t.(stage := Inserting(t.stage.key)));
    }
  }

  /** The handler's own transition: it comes a full window after the opposite transitions of its key. */
  lemma LogOwnTransition(s: State, k: Kind, e: Event, s': State)
    requires Safe(s) && Timely(s)
    requires var t := ThreadOf(s, k);
             && t.Running? && !t.stage.Scanning? && e.key == t.stage.key && e.time == s.clock
             && ((e.Opened? && t.stage.Inserting? && e.hold == t.rules[t.next].forSeconds)
                 || (e.AutoCleared? && t.stage.Clearing? && e.hold == t.rules[t.next].clearSeconds))
             && s'.threads == s.threads[k := Advance(t)]
    requires s'.log == s.log + [e] && s'.pending == s.pending && s'.clock == s.clock
    ensures Timely(s')
  {
    var t := ThreadOf(s, k);
    var p := PendingOf(s, e.key);
    assert ThreadOk(t, k, s.table, s.clock) && WindowSeen(t, s) && RestUntouched(t, k, s.log);
    OwnerOfDedupKey(t.rules[t.next].id, k, t.msg.target);
    AppendInTime(s.log, e, s.clock);
    forall i | 0 <= i < |s.log| ensures Apart(s.log[i], e) {
      assert PendingAfterLog(p, e.key, s.log);
    }
    AppendSpaced(s.log, e);
    forall key ensures PendingAfterLog(PendingOf(s', key), key, s'.log) {
      assert PendingAfterLog(PendingOf(s, key), key, s.log);
    }
    LaterRules(t, k);
    AppendUntouched(Advance(t), k, s.log, e);
    OthersTimely(s, s', k);
  }

  lemma InsertTimely(s: State, k: Kind, succeeds: bool)
    requires Safe(s) && Timely(s) && ThreadOf(s, k).Running? && ThreadOf(s, k).stage.Inserting?
    ensures Timely(InsertStep(s, k, succeeds))
  {
    var t := ThreadOf(s, k);
    assert RestUntouched(t, k, s.log);
    if succeeds {
      LogOwnTransition(s, k, Opened(t.stage.key, s.clock, s.table.nextId, t.rules[t.next].forSeconds),
                       InsertStep(s, k, succeeds));
    } else {
      AdvanceUntouched(t, k, s.log);
      ThreadTimely(s, k, Advance(t));
    }
  }

  lemma ClearTimely(s: State, k: Kind)
    requires Safe(s) && Timely(s) && ThreadOf(s, k).Running? && ThreadOf(s, k).stage.Clearing?
    ensures Timely(ClearStep(s, k))
  {
    var t := ThreadOf(s, k);
    if HasOpen(s.table, t.stage.key) {
      LogOwnTransition(s, k, AutoCleared(t.stage.key, s.clock, t.rules[t.next].clearSeconds), ClearStep(s, k));
    } else {
      assert RestUntouched(t, k, s.log);
      AdvanceUntouched(t, k, s.log);
      ThreadTimely(s, k, Advance(t));
    }
  }

  /** Events of trap keys and of operators. */
  lemma LogForeign(s: State, e: Event, s': State)
    requires Safe(s) && Timely(s) && e.time == s.clock
    requires e.ManualCleared? || (e.Opened? && e.hold == 0 && Owner(e.key) == None)
    requires s' == s.(log := s.log + [e], table := s'.table)
    ensures Timely(s')
  {
    AppendInTime(s.log, e, s.clock);
    AppendSpaced(s.log, e);
    forall key ensures PendingAfterLog(PendingOf(s', key), key, s'.log) {
      assert PendingAfterLog(PendingOf(s, key), key, s.log);
    }
    forall k ensures RestUntouched(ThreadOf(s', k), k, s'.log) && WindowSeen(ThreadOf(s', k), s') {
      var t := ThreadOf(s, k);
      assert RestUntouched(t, k, s.log) && WindowSeen(t, s);
      if t.Running? && ByEngine(e) { OtherOwner(t, k, e.key); }
      AppendUntouched(t, k, s.log, e);
    }
  }

  lemma QuietTimely(s: State, s': State)
    requires Timely(s)
    requires s'.log == s.log && s'.pending == s.pending && s'.threads == s.threads && s'.clock >= s.clock
    ensures Timely(s')
  {
    forall key ensures PendingAfterLog(PendingOf(s', key), key, s'.log) {
      assert PendingAfterLog(PendingOf(s, key), key, s.log);
    }
    forall k ensures RestUntouched(ThreadOf(s', k), k, s'.log) && WindowSeen(ThreadOf(s', k), s') {
      assert RestUntouched(ThreadOf(s, k), k, s.log) && WindowSeen(ThreadOf(s, k), s);
    }
  }

  lemma ForeignTimely(s: State, a: Action)
    requires Safe(s) && Timely(s) && (a.Trap? || a.ClearByHand?)
    ensures Timely(Next(s, a))
  {
    match a
    case Trap(source, oid) =>
      var key := TrapKey(source, oid);
      OwnerOfTrapKey(source, oid);
      if !HasOpen(s.table, key) { LogForeign(s, Opened(key, s.clock, s.table.nextId, 0), Next(s, a)); }
    case ClearByHand(id, user) =>
      if id in s.table.rows && s.table.rows[id].clear.None? {
        LogForeign(s, ManualCleared(s.table.rows[id].key, s.clock), Next(s, a));
      }
  }

  lemma HandlerTimely(s: State, a: Action)
    requires Safe(s) && Timely(s)
    requires a.Receive? || a.ReadClock? || a.EvaluateRule? || a.CountOpen? || a.InsertAlarm? || a.ClearAlarm?
    ensures Timely(Next(s, a))
  {
    var k := a.kind;
    var t := ThreadOf(s, k);
    match a
    case Receive(_, msg) =>
      if t.Idle? { ThreadTimely(s, k, Loaded(s.rules, msg)); }
    case ReadClock(_) =>
      if t.Loaded? { ThreadTimely(s, k, Start(t, s.clock)); }
    case EvaluateRule(_) =>
      if t.Running? && t.stage == Scanning { EvaluateTimely(s, k); }
    case CountOpen(_) =>
      if t.Running? && t.stage.Counting? { CountTimely(s, k); }
    case InsertAlarm(_, ok) =>
      if t.Running? && t.stage.Inserting? && t.next < |t.rules| { InsertTimely(s, k, ok); }
    case ClearAlarm(_) =>
      if t.Running? && t.stage.Clearing? && t.next < |t.rules| { ClearTimely(s, k); }
  }

  lemma NextTimely(s: State, a: Action)
    requires Safe(s) && Timely(s)
    ensures Timely(Next(s, a))
  {
    if a.Tick? || a.Refresh? || a.AckAlarm? || a.PruneRows? {
      QuietTimely(s, Next(s, a));
    } else if a.Trap? || a.ClearByHand? {
      ForeignTimely(s, a);
    } else if a.Restart? {
      assert forall k :: ThreadOf(Next(s, a), k) == Idle;
      assert forall key :: PendingOf(Next(s, a), key) == NoPending;
    } else {
      HandlerTimely(s, a);
    }
  }

  lemma {:induction false} RunTimely(actions: seq<Action>)
    ensures Safe(Run(INIT, actions)) && Timely(Run(INIT, actions))
  {
    RunSafe(actions);
    if actions != [] {
      RunTimely(actions[..|actions| - 1]);
      NextTimely(Run(INIT, actions[..|actions| - 1]), actions[|actions| - 1]);
    }
  }

  // ---------- the distance between openings ----------

  /** Between an open log position and a closed one there is a clearing event, and the other way round. */
  lemma {:induction false} ChangeBetween(log: seq<Event>, key: string, from: nat, to: nat) returns (m: nat)
    requires from <= to <= |log|
    requires OpenId(log[..from], key).Some? != OpenId(log[..to], key).Some?
    ensures from <= m < to && log[m].key == key && (log[m].Opened? <==> OpenId(log[..to], key).Some?)
  {
    assert log[..to][..to - 1] == log[..to - 1];
    if log[to - 1].key == key {
      m := to - 1;
    } else {
      m := ChangeBetween(log, key, from, to - 1);
    }
  }

  lemma OpenIdAfter(log: seq<Event>, i: nat)
    requires i < |log|
    ensures OpenId(log[..i + 1], log[i].key).Some? <==> log[i].Opened?
  {
    assert log[..i + 1][..i] == log[..i];
  }

  /** What the theorems below use of a run's log. */
  predicate GoodLog(log: seq<Event>) {
    Alternates(log) && Spaced(log)
  }

  lemma RunLogGood(actions: seq<Action>)
    ensures GoodLog(Run(INIT, actions).log)
  {
    RunTimely(actions);
  }

  /** No operator clears this key between positions i and j. */
  predicate NoManualClear(log: seq<Event>, key: string, i: int, j: int) {
    forall x :: 0 <= i < x < j <= |log| && log[x].key == key ==> !log[x].ManualCleared?
  }

  /** Two openings of a key with no operator clear in between: an automatic clear lies between them,
      and they are at least its clear window plus the second opening's for window apart. */
  lemma DwellInLog(log: seq<Event>, i: nat, j: nat) returns (m: nat)
    requires GoodLog(log) && i < j < |log| && log[i].Opened? && log[j].Opened? && log[i].key == log[j].key
    requires NoManualClear(log, log[i].key, i, j)
    ensures i < m < j && log[m].AutoCleared? && log[m].key == log[i].key
    ensures log[i].time + (log[m].hold + log[j].hold) * SECOND <= log[j].time
  {
    OpenIdAfter(log, i);
    m := ChangeBetween(log, log[i].key, i + 1, j);
    assert Apart(log[i], log[m]) && Apart(log[m], log[j]);
  }

  /** Between two clears of a key there is an opening of it. */
  lemma OpeningBetweenClears(log: seq<Event>, m: nat, n: nat) returns (x: nat)
    requires GoodLog(log) && m < n < |log| && log[m].key == log[n].key && !log[m].Opened? && !log[n].Opened?
    ensures m < x < n && log[x].Opened? && log[x].key == log[m].key
  {
    OpenIdAfter(log, m);
    x := ChangeBetween(log, log[m].key, m + 1, n);
  }

  /** In every run, consecutive openings of a key without an operator clear in between are separated by exactly
      one event of the key, an automatic clear, and by its clear window plus the second opening's for window. */
  lemma Dwell(actions: seq<Action>, i: nat, j: nat) returns (m: nat)
    requires var log := Run(INIT, actions).log;
             i < j < |log| && log[i].Opened? && log[j].Opened? && log[i].key == log[j].key
             && NoManualClear(log, log[i].key, i, j)
             && forall x :: i < x < j && log[x].key == log[i].key ==> !log[x].Opened?
    ensures var log := Run(INIT, actions).log;
            && i < m < j && log[m].AutoCleared? && log[m].key == log[i].key
            && (forall n :: i < n < j && log[n].key == log[i].key ==> n == m)
            && log[i].time + (log[m].hold + log[j].hold) * SECOND <= log[j].time
  {
    RunLogGood(actions);
    var log := Run(INIT, actions).log;
    m := DwellInLog(log, i, j);
    forall n | i < n < j && log[n].key == log[i].key ensures n == m {
      if n != m {
        var x := OpeningBetweenClears(log, if n < m then n else m, if n < m then m else n);
        assert false;
      }
    }
  }

  /** Openings of key among the first n events, at times in [from, to]. */
  function Openings(log: seq<Event>, key: string, from: int, to: int): nat {
    if log == [] then 0
    else
      var e := log[|log| - 1];
      Openings(log[..|log| - 1], key, from, to) + (if OpeningIn(e, key, from, to) then 1 else 0)
  }

  /** No operator clears this key in the window. */
  predicate NoOperator(log: seq<Event>, key: string, from: int, to: int) {
    forall i :: 0 <= i < |log| && log[i].key == key && from <= log[i].time <= to ==> !log[i].ManualCleared?
  }

  /** The engine opened this key after f seconds at least, and cleared it after c seconds at least. */
  predicate HeldLong(log: seq<Event>, key: string, f: nat, c: nat) {
    forall i :: 0 <= i < |log| && log[i].key == key ==>
      (log[i].Opened? ==> log[i].hold >= f) && (log[i].AutoCleared? ==> log[i].hold >= c)
  }

  predicate OpeningIn(e: Event, key: string, from: int, to: int) {
    e.Opened? && e.key == key && from <= e.time <= to
  }

  /** Any two openings in the window are a cycle apart. */
  predicate Cyclic(log: seq<Event>, key: string, from: int, to: int, cycle: nat) {
    forall k, n :: 0 <= k < n < |log| && OpeningIn(log[k], key, from, to) && OpeningIn(log[n], key, from, to) ==>
      log[k].time + cycle <= log[n].time
  }

  /** The openings counted end at l, and each after the first took a full cycle. */
  lemma {:induction false} OpeningsSpread(log: seq<Event>, key: string, from: int, to: int, cycle: nat) returns (l: nat)
    requires Cyclic(log, key, from, to, cycle)
    requires Openings(log, key, from, to) > 0
    ensures l < |log| && OpeningIn(log[l], key, from, to)
    ensures CyclesFit(Openings(log, key, from, to) - 1, cycle, from, log[l].time)
    decreases |log|
  {
    var n := |log| - 1;
    var front, e := log[..n], log[n];
    var before := Openings(front, key, from, to);
    if !OpeningIn(e, key, from, to) {
      l := OpeningsSpread(front, key, from, to, cycle);
    } else if before == 0 {
      l := n;
    } else {
      var k := OpeningsSpread(front, key, from, to, cycle);
      l := n;
      assert log[k] == front[k];
      OneMoreCycle(before - 1, cycle, from, log[k].time, log[n].time);
    }
  }

  lemma CycleBetween(log: seq<Event>, k: nat, n: nat, key: string, f: nat, c: nat, from: int, to: int)
    requires GoodLog(log) && NoOperator(log, key, from, to) && HeldLong(log, key, f, c) && SortedTimes(log)
    requires k < n < |log| && log[k].Opened? && log[n].Opened? && log[k].key == log[n].key == key
    requires from <= log[k].time && log[n].time <= to
    ensures log[k].time + (f + c) * SECOND <= log[n].time
  {
    forall x | k < x < n && log[x].key == key ensures !log[x].ManualCleared? {
      assert log[k].time <= log[x].time <= log[n].time;
    }
    var m := DwellInLog(log, k, n);
    assert log[k].time <= log[m].time <= log[n].time;
  }

  /** n cycles fit between two times. */
  predicate CyclesFit(n: nat, cycle: nat, from: int, time: int) {
    from + n * cycle <= time
  }

  lemma OneMoreCycle(n: nat, cycle: nat, from: int, time: int, later: int)
    requires CyclesFit(n, cycle, from, time) && time + cycle <= later
    ensures CyclesFit(n + 1, cycle, from, later)
  {
    assert (n + 1) * cycle == n * cycle + cycle;
  }

  predicate SortedTimes(log: seq<Event>) {
    forall i, j :: 0 <= i < j < |log| ==> log[i].time <= log[j].time
  }

  lemma {:induction false} TimesMonotone(a: nat, b: nat, d: nat)
    requires a <= b
    ensures a * d <= b * d
    decreases b - a
  {
    if a < b {
      TimesMonotone(a, b - 1, d);
      assert b * d == (b - 1) * d + d;
    }
  }

  lemma Exceeds(q: nat, n: nat, d: nat, r: nat)
    requires r < d && n > q
    ensures n * d > q * d + r
  {
    TimesMonotone(q + 1, n, d);
    assert (q + 1) * d == q * d + d;
  }

  lemma CyclicLog(log: seq<Event>, key: string, f: nat, c: nat, from: int, to: int)
    requires GoodLog(log) && NoOperator(log, key, from, to) && HeldLong(log, key, f, c) && SortedTimes(log)
    ensures Cyclic(log, key, from, to, (f + c) * SECOND)
  {
    forall k, m | 0 <= k < m < |log| && OpeningIn(log[k], key, from, to) && OpeningIn(log[m], key, from, to)
      ensures log[k].time + (f + c) * SECOND <= log[m].time
    {
      CycleBetween(log, k, m, key, f, c, from, to);
    }
  }

  lemma CyclicBound(log: seq<Event>, key: string, from: int, to: int, cycle: nat)
    requires cycle > 0 && from <= to && Cyclic(log, key, from, to, cycle)
    ensures Openings(log, key, from, to) <= 1 + (to - from) / cycle
  {
    var n := Openings(log, key, from, to);
    if n > 0 {
      var l := OpeningsSpread(log, key, from, to, cycle);
      FitBound(n - 1, cycle, from, log[l].time, to);
    } else {
      FitBound(0, cycle, from, from, to);
    }
  }

  // ---------- the windows in the log are those of the rules in force ----------

  predicate WindowsAtLeast(rules: seq<Rule>, id: RuleId, f: nat, c: nat) {
    forall i :: 0 <= i < |rules| && rules[i].id == id ==> rules[i].forSeconds >= f && rules[i].clearSeconds >= c
  }

  /** Whenever the rules are refreshed the rule has a for window of f seconds and a clear window of c seconds, or
      longer ones. */
  predicate RuleHolds(actions: seq<Action>, id: RuleId, f: nat, c: nat) {
    forall i :: 0 <= i < |actions| && actions[i].Refresh? ==> WindowsAtLeast(actions[i].rules, id, f, c)
  }

  predicate ThreadHolds(t: Thread, id: RuleId, f: nat, c: nat) { t.Idle? || WindowsAtLeast(t.rules, id, f, c) }

  ghost predicate Holds(s: State, id: RuleId, key: string, f: nat, c: nat) {
    && WindowsAtLeast(s.rules, id, f, c) && HeldLong(s.log, key, f, c)
    && forall k :: ThreadHolds(ThreadOf(s, k), id, f, c)
  }

  /** The key of a rule that a handler is about to act on is that rule's. */
  lemma OwnKeyHolds(s: State, k: Kind, id: RuleId, kind: Kind, target: string, f: nat, c: nat)
    requires Safe(s) && Holds(s, id, DedupKey(id, kind, target), f, c)
    requires ThreadOf(s, k).Running? && !ThreadOf(s, k).stage.Scanning?
    ensures var t := ThreadOf(s, k);
            t.stage.key == DedupKey(id, kind, target) ==>
              t.rules[t.next].forSeconds >= f && t.rules[t.next].clearSeconds >= c
  {
    var t := ThreadOf(s, k);
    assert ThreadOk(t, k, s.table, s.clock) && ThreadHolds(t, id, f, c);
    if t.stage.key == DedupKey(id, kind, target) {
      DedupKeyInjective(t.rules[t.next].id, k, t.msg.target, id, kind, target);
    }
  }

  lemma LogHolds(s: State, a: Action, id: RuleId, kind: Kind, target: string, f: nat, c: nat)
    requires Safe(s) && Holds(s, id, DedupKey(id, kind, target), f, c)
    ensures HeldLong(Next(s, a).log, DedupKey(id, kind, target), f, c)
  {
    if a.InsertAlarm? || a.ClearAlarm? {
      var t := ThreadOf(s, a.kind);
      if t.Running? && !t.stage.Scanning? { OwnKeyHolds(s, a.kind, id, kind, target, f, c); }
    } else if a.Trap? {
      OwnerOfTrapKey(a.source, a.oid);
      OwnerOfDedupKey(id, kind, target);
    }
  }

  lemma RulesHold(s: State, a: Action, id: RuleId, key: string, f: nat, c: nat)
    requires Holds(s, id, key, f, c) && (a.Refresh? ==> WindowsAtLeast(a.rules, id, f, c))
    ensures WindowsAtLeast(Next(s, a).rules, id, f, c)
    ensures forall k :: ThreadHolds(ThreadOf(Next(s, a), k), id, f, c)
  {
    forall k ensures ThreadHolds(ThreadOf(Next(s, a), k), id, f, c) { assert ThreadHolds(ThreadOf(s, k), id, f, c); }
  }

  lemma NextHolds(s: State, a: Action, id: RuleId, kind: Kind, target: string, f: nat, c: nat)
    requires Safe(s) && Holds(s, id, DedupKey(id, kind, target), f, c)
    requires a.Refresh? ==> WindowsAtLeast(a.rules, id, f, c)
    ensures Holds(Next(s, a), id, DedupKey(id, kind, target), f, c)
  {
    LogHolds(s, a, id, kind, target, f, c);
    RulesHold(s, a, id, DedupKey(id, kind, target), f, c);
  }

  lemma {:induction false} RunHolds(actions: seq<Action>, id: RuleId, kind: Kind, target: string, f: nat, c: nat)
    requires RuleHolds(actions, id, f, c)
    ensures Holds(Run(INIT, actions), id, DedupKey(id, kind, target), f, c)
  {
    if actions != [] {
      var front := actions[..|actions| - 1];
      RunSafe(front);
      RunHolds(front, id, kind, target, f, c);
      NextHolds(Run(INIT, front), actions[|actions| - 1], id, kind, target, f, c);
    }
  }

  /** While a rule's windows are at least F and C, a span of length T in which no operator clears a target's key holds
      at most 1 + T/(F+C) openings of it, over every run. */
  lemma OpeningsBounded(actions: seq<Action>, id: RuleId, kind: Kind, target: string, f: nat, c: nat, from: int,
                        to: int)
    requires f + c > 0 && from <= to && RuleHolds(actions, id, f, c)
    requires NoOperator(Run(INIT, actions).log, DedupKey(id, kind, target), from, to)
    ensures Openings(Run(INIT, actions).log, DedupKey(id, kind, target), from, to)
         <= 1 + (to - from) / ((f + c) * SECOND)
  {
    var log, key := Run(INIT, actions).log, DedupKey(id, kind, target);
    RunTimely(actions);
    RunHolds(actions, id, kind, target, f, c);
    CyclicLog(log, key, f, c, from, to);
    CyclicBound(log, key, from, to, (f + c) * SECOND);
  }

  lemma FitBound(n: nat, cycle: nat, from: int, time: int, to: int)
    requires cycle > 0 && CyclesFit(n, cycle, from, time) && time <= to && from <= to
    ensures n <= (to - from) / cycle
  {
    var length := to - from;
    var q, r := length / cycle, length % cycle;
    assert length == q * cycle + r;
    if n > q { Exceeds(q, n, cycle, r); }
  }
}
