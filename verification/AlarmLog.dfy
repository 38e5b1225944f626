/** The alarms table and the log of openings and clears tell the same story, over every run. */
module AlarmLog {
  import opened Text
  import opened AlarmCore
  import opened AlarmProtocol

  predicate OpeningOf(e: Event, r: Alarm, id: nat) {
    e.Opened? && e.key == r.key && e.time == r.openedAt && e.id == id
  }

  /** The clear event of a row: automatic or by an operator, as the row says. */
  predicate ClearOf(e: Event, r: Alarm) {
    r.clear.Some? && !e.Opened? && e.key == r.key && e.time == r.clear.value.time
    && (e.AutoCleared? <==> r.clear.value.user.None?)
  }

  predicate NoneBetween(log: seq<Event>, key: string, i: int, j: int) {
    forall x :: 0 <= i < x < j <= |log| ==> log[x].key != key
  }

  /** The row's opening is at i; its clear is the next event of its key, or there is none while it is open. */
  ghost predicate ToldFrom(log: seq<Event>, r: Alarm, id: nat, i: nat) {
    i < |log| && OpeningOf(log[i], r, id)
    && if r.clear.None? then NoneBetween(log, r.key, i, |log|)
       else exists j: nat :: i < j < |log| && ClearOf(log[j], r) && NoneBetween(log, r.key, i, j)
  }

  ghost predicate Told(log: seq<Event>, r: Alarm, id: nat) { exists i: nat :: ToldFrom(log, r, id, i) }

  ghost predicate AllTold(t: Table, log: seq<Event>) { forall id :: id in t.rows ==> Told(log, t.rows[id], id) }

  /** An event of another key, or of a row that is already cleared, changes nothing in the story. */
  lemma StillTold(log: seq<Event>, e: Event, r: Alarm, id: nat)
    requires Told(log, r, id) && (e.key != r.key || r.clear.Some?)
    ensures Told(log + [e], r, id)
  {
    var i: nat :| ToldFrom(log, r, id, i);
    var l := log + [e];
    assert forall x :: 0 <= x < |log| ==> l[x] == log[x];
    if r.clear.Some? {
      var j: nat :| i < j < |log| && ClearOf(log[j], r) && NoneBetween(log, r.key, i, j);
      assert ClearOf(l[j], r) && NoneBetween(l, r.key, i, j);
    }
    assert ToldFrom(l, r, id, i);
  }

  lemma ClearTold(log: seq<Event>, e: Event, r: Alarm, r': Alarm, id: nat)
    requires Told(log, r, id) && r.clear.None? && r' == r.(clear := r'.clear) && ClearOf(e, r')
    ensures Told(log + [e], r', id)
  {
    var i: nat :| ToldFrom(log, r, id, i);
    var l := log + [e];
    assert forall x :: 0 <= x < |log| ==> l[x] == log[x];
    assert ClearOf(l[|log|], r') && NoneBetween(l, r'.key, i, |log|);
    assert ToldFrom(l, r', id, i);
  }

  lemma OpenTold(t: Table, log: seq<Event>, key: string, time: int, hold: nat)
    requires AllTold(t, log) && !HasOpen(t, key)
    ensures AllTold(Insert(t, key, time), log + [Opened(key, time, t.nextId, hold)])
  {
    var e, t' := Opened(key, time, t.nextId, hold), Insert(t, key, time);
    forall id | id in t'.rows ensures Told(log + [e], t'.rows[id], id) {
      if id == t.nextId {
        assert ToldFrom(log + [e], t'.rows[id], id, |log|);
      } else {
        assert IsOpen(t, id, key) ==> HasOpen(t, key);
        StillTold(log, e, t.rows[id], id);
      }
    }
  }

  lemma AutoTold(t: Table, log: seq<Event>, key: string, time: int, hold: nat)
    requires AllTold(t, log)
    ensures AllTold(AutoClear(t, key, time), log + [AutoCleared(key, time, hold)])
  {
    var e, t' := AutoCleared(key, time, hold), AutoClear(t, key, time);
    forall id | id in t'.rows ensures Told(log + [e], t'.rows[id], id) {
      if IsOpen(t, id, key) {
        ClearTold(log, e, t.rows[id], t'.rows[id], id);
      } else {
        StillTold(log, e, t.rows[id], id);
      }
    }
  }

  lemma ManualTold(t: Table, log: seq<Event>, id: nat, time: int, user: string)
    requires AllTold(t, log) && TableOk(t, log) && id in t.rows && t.rows[id].clear.None?
    ensures AllTold(ManualClear(t, id, time, user), log + [ManualCleared(t.rows[id].key, time)])
  {
    var e, t' := ManualCleared(t.rows[id].key, time), ManualClear(t, id, time, user);
    forall other | other in t'.rows ensures Told(log + [e], t'.rows[other], other) {
      if other == id {
        ClearTold(log, e, t.rows[id], t'.rows[id], id);
      } else {
        assert IsOpen(t, id, e.key);
        assert IsOpen(t, other, e.key) ==> other == id;
        StillTold(log, e, t.rows[other], other);
      }
    }
  }

  lemma QuietTold(t: Table, t': Table, log: seq<Event>)
    requires AllTold(t, log)
    requires forall id :: id in t'.rows ==> id in t.rows && t'.rows[id] == t.rows[id].(ack := t'.rows[id].ack)
    ensures AllTold(t', log)
  {
    forall id | id in t'.rows ensures Told(log, t'.rows[id], id) {
      var i: nat :| ToldFrom(log, t.rows[id], id, i);
      if t.rows[id].clear.Some? {
        var j: nat :| i < j < |log| && ClearOf(log[j], t.rows[id]) && NoneBetween(log, t.rows[id].key, i, j);
        assert ClearOf(log[j], t'.rows[id]);
      }
      assert ToldFrom(log, t'.rows[id], id, i);
    }
  }

  lemma InsertTold(s: State, k: Kind)
    requires Safe(s) && AllTold(s.table, s.log)
    requires var t := ThreadOf(s, k); t.Running? && t.stage.Inserting? && t.next < |t.rules|
    ensures var s' := InsertStep(s, k, true); AllTold(s'.table, s'.log)
  {
    var t := ThreadOf(s, k);
    assert ThreadOk(t, k, s.table, s.clock);
    OpenTold(s.table, s.log, t.stage.key, s.clock, t.rules[t.next].forSeconds);
  }

  lemma ClearingTold(s: State, k: Kind)
    requires AllTold(s.table, s.log)
    requires var t := ThreadOf(s, k); t.Running? && t.stage.Clearing? && t.next < |t.rules|
    ensures var s' := ClearStep(s, k); AllTold(s'.table, s'.log)
  {
    var t := ThreadOf(s, k);
    AutoTold(s.table, s.log, t.stage.key, s.clock, t.rules[t.next].clearSeconds);
  }

  /** Steps that log nothing change no more of a row than its acknowledgement. */
  lemma UnloggedRows(s: State, a: Action)
    requires Next(s, a).log == s.log
    ensures var t' := Next(s, a).table;
            forall id :: id in t'.rows ==>
              id in s.table.rows && t'.rows[id] == s.table.rows[id].(ack := t'.rows[id].ack)
  {
  }

  lemma StepTold(s: State, a: Action)
    requires Safe(s) && AllTold(s.table, s.log)
    ensures AllTold(Next(s, a).table, Next(s, a).log)
  {
    var s' := Next(s, a);
    if s'.log == s.log {
      UnloggedRows(s, a);
      QuietTold(s.table, s'.table, s.log);
    } else if a.InsertAlarm? {
      InsertTold(s, a.kind);
    } else if a.ClearAlarm? {
      ClearingTold(s, a.kind);
    } else if a.Trap? {
      OpenTold(s.table, s.log, TrapKey(a.source, a.oid), s.clock, 0);
    } else {
      ManualTold(s.table, s.log, a.id, s.clock, a.user);
    }
  }

  /** In every run each row of the table has its opening in the log under its id, key and time, and its clear, if it has
      one, is the next event of that key, at the row's clear time and by whom the row says. */
  lemma {:induction false} RowsAreTold(actions: seq<Action>)
    ensures AllTold(Run(INIT, actions).table, Run(INIT, actions).log)
  {
    if actions != [] {
      RowsAreTold(actions[..|actions| - 1]);
      RunSafe(actions[..|actions| - 1]);
      StepTold(Run(INIT, actions[..|actions| - 1]), actions[|actions| - 1]);
    }
  }
}
