/** Values the alarm engine works on: dedup keys, the hysteresis state of one key, and the alarms table. */
module AlarmCore {
  import opened Text
  import MiniExpr

  // ---------- dedup keys ----------

  datatype Kind = Appliance | Agent | Check

  function KindText(k: Kind): string {
    match k case Appliance => "appliance" case Agent => "agent" case Check => "check"
  }

  /** A rule id as uuid.UUID.String() writes it. */
  type RuleId = Uuid

  function DedupKey(rule: RuleId, kind: Kind, target: string): string {
    rule + ":" + KindText(kind) + ":" + target
  }

  function TrapKey(source: string, oid: string): string {
    "snmp-trap:" + source + ":" + oid
  }

  /** The subscription whose messages can produce this key, if any. */
  function Owner(key: string): Option<Kind> {
    if |key| < 37 || !IsUuidText(key[..36]) then None
    else if HasPrefix(key[36..], ":appliance:") then Some(Appliance)
    else if HasPrefix(key[36..], ":agent:") then Some(Agent)
    else if HasPrefix(key[36..], ":check:") then Some(Check)
    else None
  }

  lemma OwnerOfDedupKey(rule: RuleId, kind: Kind, target: string)
    ensures Owner(DedupKey(rule, kind, target)) == Some(kind)
  {
    var key := DedupKey(rule, kind, target);
    assert key[..36] == rule;
    var sep := ":" + KindText(kind) + ":";
    assert key[36..] == sep + target;
    assert key[36..][..|sep|] == sep;
    assert key[36..][1] == KindText(kind)[0] && key[36..][2] == KindText(kind)[1];
  }

  /** A trap key belongs to no metric subscription. */
  lemma OwnerOfTrapKey(source: string, oid: string)
    ensures Owner(TrapKey(source, oid)) == None
  {
    var key := TrapKey(source, oid);
    if |key| >= 37 {
      assert key[..36][0] == 's';
    }
  }

  /** Rule, target kind and target can be read back from the key. */
  lemma DedupKeyInjective(r1: RuleId, k1: Kind, t1: string, r2: RuleId, k2: Kind, t2: string)
    requires DedupKey(r1, k1, t1) == DedupKey(r2, k2, t2)
    ensures r1 == r2 && k1 == k2 && t1 == t2
  {
    OwnerOfDedupKey(r1, k1, t1);
    OwnerOfDedupKey(r2, k2, t2);
    var key := DedupKey(r1, k1, t1);
    assert key[..36] == r1 && key[..36] == r2;
    var n := 36 + |KindText(k1)| + 2;
    assert key[n..] == t1 && key[n..] == t2;
  }

  // ---------- rules and messages ----------

  datatype Rule = Rule(id: RuleId, site: Option<string>, expr: string, forSeconds: nat, clearSeconds: nat,
                       targetKind: string)
  datatype Message = Message(site: string, target: string, env: MiniExpr.Env)

  const SECOND: nat := 1_000_000_000

  /** The site and target-kind filters at the head of the rule loop. */
  predicate Applies(rl: Rule, kind: Kind, m: Message) {
    (rl.site.Some? ==> rl.site.value == m.site)
    && (rl.targetKind == "" || rl.targetKind == "any" || rl.targetKind == KindText(kind))
  }

  predicate DistinctIds(rules: seq<Rule>) {
    forall i, j :: 0 <= i < j < |rules| ==> rules[i].id != rules[j].id
  }

  // ---------- hysteresis of one key ----------

  /** pendingState: since when the predicate has been truthy, or falsy. None is the zero time. */
  datatype Pending = Pending(truthySince: Option<int>, falsySince: Option<int>)

  const NoPending := Pending(None, None)

  datatype Sample = Sample(time: int, truthy: bool)

  /** The field updates evaluate makes for one successfully evaluated sample. */
  function Observe(p: Pending, s: Sample): Pending {
    if s.truthy then Pending(if p.truthySince.None? then Some(s.time) else p.truthySince, None)
    else Pending(None, if p.falsySince.None? then Some(s.time) else p.falsySince)
  }

  function ObserveAll(h: seq<Sample>): Pending {
    if h == [] then NoPending else Observe(ObserveAll(h[..|h| - 1]), h[|h| - 1])
  }

  /** i starts the maximal suffix of samples that all have the last sample's value. */
  predicate StartsLastRun(h: seq<Sample>, i: int) {
    0 <= i < |h|
    && (forall j :: i <= j < |h| ==> h[j].truthy == h[|h| - 1].truthy)
    && (i > 0 ==> h[i - 1].truthy != h[|h| - 1].truthy)
  }

  /** The incremental state is the start of the last run of equal samples: exactly one field is set. */
  lemma {:induction false} PendingIsLastRun(h: seq<Sample>) returns (i: nat)
    requires h != []
    ensures StartsLastRun(h, i) && forall j :: StartsLastRun(h, j) ==> j == i
    ensures ObserveAll(h)
         == if h[|h| - 1].truthy then Pending(Some(h[i].time), None) else Pending(None, Some(h[i].time))
  {
    var g := h[..|h| - 1];
    if g == [] {
      i := 0;
    } else {
      i := PendingIsLastRun(g);
      if h[|h| - 1].truthy == g[|g| - 1].truthy {
        assert forall j :: i <= j < |g| ==> h[j] == g[j];
      } else {
        i := |h| - 1;
      }
    }
  }

  // ---------- the alarms table ----------

  datatype Ack = Ack(time: int, user: string)

  /** user is the operator of a manual clear; an automatic clear has none. */
  datatype Clear = Clear(time: int, user: Option<string>)
  datatype Alarm = Alarm(key: string, openedAt: int, ack: Option<Ack>, clear: Option<Clear>)

  /** Rows by id. Ids come from a sequence, so nextId is above every id ever used. */
  datatype Table = Table(rows: map<nat, Alarm>, nextId: nat)

  predicate IsOpen(t: Table, id: nat, key: string) {
    id in t.rows && t.rows[id].key == key && t.rows[id].clear.None?
  }

  /** SELECT COUNT(*) ... > 0 */
  predicate HasOpen(t: Table, key: string) {
    exists id :: id in t.rows && IsOpen(t, id, key)
  }

  function Insert(t: Table, key: string, time: int): Table {
    Table(t.rows[t.nextId := Alarm(key, time, None, None)], t.nextId + 1)
  }

  /** UPDATE alarms SET cleared_at = NOW(), auto_cleared = TRUE WHERE dedup_key = key AND cleared_at IS NULL */
  function AutoClear(t: Table, key: string, time: int): Table {
    t.(rows := map id | id in t.rows ::
      if IsOpen(t, id, key) then t.rows[id].(clear := Some(Clear(time, None))) else t.rows[id])
  }

  /** The acknowledge statement: only on an open row, and the first acknowledgement stays. */
  function Acknowledge(t: Table, id: nat, time: int, user: string): Table {
    if id in t.rows && t.rows[id].clear.None? then
      var row := t.rows[id];
      t.(rows := t.rows[id := row.(ack := if row.ack.None? then Some(Ack(time, user)) else row.ack)])
    else t
  }

  function ManualClear(t: Table, id: nat, time: int, user: string): Table {
    if id in t.rows && t.rows[id].clear.None? then
      t.(rows := t.rows[id := t.rows[id].(clear := Some(Clear(time, Some(user))))])
    else t
  }

  /** The retention job deletes cleared rows only. */
  function Prune(t: Table, ids: set<nat>): Table {
    t.(rows := map id | id in t.rows && !(id in ids && t.rows[id].clear.Some?) :: t.rows[id])
  }
}
