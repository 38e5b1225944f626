/** The stored side of compliance (internal/compliance/evaluator.go): Persist reconciles the open issue and
    vulnerability rows of one agent with what Evaluate wants, in one transaction. */
module ComplianceStore {
  import opened Text
  import opened Compliance

  // ---------- one table of open and cleared rows ----------

  datatype Row<P> = Row(agent: string, key: string, clearedAt: Option<int>, data: P)
  datatype Table<P> = Table(rows: map<nat, Row<P>>, nextId: nat)

  predicate IdsBelowNext<P>(t: Table<P>) { forall id :: id in t.rows ==> id < t.nextId }

  predicate OpenFor<P>(t: Table<P>, agent: string, id: nat) {
    id in t.rows && t.rows[id].agent == agent && t.rows[id].clearedAt.None?
  }

  ghost predicate HasOpen<P>(t: Table<P>, agent: string, key: string) {
    exists id: nat :: OpenFor(t, agent, id) && t.rows[id].key == key
  }

  ghost predicate OneOpenPerKey<P>(t: Table<P>, agent: string) {
    forall i: nat, j: nat :: OpenFor(t, agent, i) && OpenFor(t, agent, j) && t.rows[i].key == t.rows[j].key ==> i == j
  }

  /** A row is left alone, or it was open for the agent and is now cleared. */
  predicate RowStep<P(==)>(before: Row<P>, after: Row<P>, agent: string, now: int) {
    after == before || (before.agent == agent && before.clearedAt.None? && after == before.(clearedAt := Some(now)))
  }

  predicate NewRow<P(==)>(row: Row<P>, agent: string, want: map<string, P>, stored: P -> P) {
    row.key in want && row == Row(agent, row.key, None, stored(want[row.key]))
  }

  /** What reconciling leaves behind: exactly one open row per wanted key, kept rows untouched, a row inserted only
      where the key had none open. */
  ghost predicate Reconciled<P>(t0: Table<P>, t: Table<P>, agent: string, want: map<string, P>, now: int,
                                stored: P -> P) {
    && IdsBelowNext(t)
    && (forall id :: id in t0.rows ==> id in t.rows && RowStep(t0.rows[id], t.rows[id], agent, now))
    && (forall id :: id in t.rows && id !in t0.rows ==>
          NewRow(t.rows[id], agent, want, stored) && !HasOpen(t0, agent, t.rows[id].key))
    && OneOpenPerKey(t, agent)
    && (forall key :: HasOpen(t, agent, key) <==> key in want)
  }

  // ---------- the reconciliation loop ----------

  /** Open rows that have been looked at. */
  predicate Done<P>(t: Table<P>, agent: string, todo: set<nat>, id: nat) { OpenFor(t, agent, id) && id !in todo }

  ghost predicate DoneKey<P>(t: Table<P>, agent: string, todo: set<nat>, key: string) {
    exists id: nat :: Done(t, agent, todo, id) && t.rows[id].key == key
  }

  /** Rows only move from open to cleared, or are inserted for a wanted key that had no open row. */
  ghost predicate Moved<P>(t0: Table<P>, t: Table<P>, agent: string, want0: map<string, P>, now: int, stored: P -> P) {
    && IdsBelowNext(t0) && IdsBelowNext(t) && t0.nextId <= t.nextId
    && (forall id :: id in t0.rows ==> id in t.rows && RowStep(t0.rows[id], t.rows[id], agent, now))
    && (forall id :: id in t.rows && id !in t0.rows ==>
          NewRow(t.rows[id], agent, want0, stored) && !HasOpen(t0, agent, t.rows[id].key))
  }

  /** The rows of todo are still as they were; every other row that was open has had its key struck from want. */
  ghost predicate Remaining<P>(t0: Table<P>, t: Table<P>, agent: string, want: map<string, P>, todo: set<nat>) {
    && (forall id :: id in todo ==> OpenFor(t0, agent, id) && id in t.rows && t.rows[id] == t0.rows[id])
    && (forall id: nat :: OpenFor(t0, agent, id) && id !in todo ==> t0.rows[id].key !in want)
  }

  /** The keys struck from want are those of the rows done, one row each. */
  ghost predicate Settled<P>(t: Table<P>, agent: string, want0: map<string, P>, want: map<string, P>, todo: set<nat>) {
    && (forall key :: key in want ==> key in want0 && want[key] == want0[key])
    && (forall i: nat, j: nat ::
          (Done(t, agent, todo, i) && Done(t, agent, todo, j) && t.rows[i].key == t.rows[j].key) ==> i == j)
    && (forall key :: DoneKey(t, agent, todo, key) <==> key in want0 && key !in want)
  }

  lemma SettledSame<P>(t: Table<P>, t': Table<P>, agent: string, want0: map<string, P>, want: map<string, P>,
                       todo: set<nat>, todo': set<nat>)
    requires Settled(t, agent, want0, want, todo)
    requires forall i: nat :: Done(t', agent, todo', i) <==> Done(t, agent, todo, i)
    requires forall i: nat :: Done(t, agent, todo, i) ==> i in t'.rows && t'.rows[i].key == t.rows[i].key
    ensures Settled(t', agent, want0, want, todo')
  {
    forall key ensures DoneKey(t', agent, todo', key) <==> DoneKey(t, agent, todo, key) {
      if DoneKey(t, agent, todo, key) {
        var i: nat :| Done(t, agent, todo, i) && t.rows[i].key == key;
        assert Done(t', agent, todo', i);
      }
    }
  }

  lemma SettledMore<P>(t: Table<P>, t': Table<P>, agent: string, want0: map<string, P>, want: map<string, P>,
                       todo: set<nat>, todo': set<nat>, id: nat)
    requires Settled(t, agent, want0, want, todo)
    requires id in t'.rows && t'.rows[id].key in want && !Done(t, agent, todo, id)
    requires forall i: nat :: Done(t', agent, todo', i) <==> Done(t, agent, todo, i) || i == id
    requires forall i: nat :: Done(t, agent, todo, i) ==> i in t'.rows && t'.rows[i].key == t.rows[i].key
    ensures Settled(t', agent, want0, want - {t'.rows[id].key}, todo')
  {
    var k := t'.rows[id].key;
    assert !DoneKey(t, agent, todo, k);
    forall key ensures DoneKey(t', agent, todo', key) <==> DoneKey(t, agent, todo, key) || key == k {
      if DoneKey(t, agent, todo, key) {
        var i: nat :| Done(t, agent, todo, i) && t.rows[i].key == key;
        assert Done(t', agent, todo', i);
      }
      assert Done(t', agent, todo', id);
    }
  }

  ghost predicate Midway<P>(t0: Table<P>, t: Table<P>, agent: string, want0: map<string, P>, want: map<string, P>,
                            todo: set<nat>, now: int, stored: P -> P)
  {
    Moved(t0, t, agent, want0, now, stored) && Remaining(t0, t, agent, want, todo)
      && Settled(t, agent, want0, want, todo)
  }

  ghost predicate Touched<P>(t0: Table<P>, t: Table<P>, id: nat) {
    id in t.rows && (id !in t0.rows || t.rows[id] != t0.rows[id])
  }

  lemma MidwayStarts<P>(t: Table<P>, agent: string, want0: map<string, P>, todo: set<nat>, now: int, stored: P -> P)
    requires IdsBelowNext(t) && forall id: nat :: id in todo <==> OpenFor(t, agent, id)
    ensures Midway(t, t, agent, want0, want0, todo, now, stored)
  {
  }

  lemma KeepStep<P>(t0: Table<P>, t: Table<P>, agent: string, want0: map<string, P>, want: map<string, P>,
                    todo: set<nat>, now: int, stored: P -> P, id: nat)
    requires Midway(t0, t, agent, want0, want, todo, now, stored)
    requires id in todo && t.rows[id].key in want
    ensures Midway(t0, t, agent, want0, want - {t.rows[id].key}, todo - {id}, now, stored)
  {
    assert OpenFor(t, agent, id);
    SettledMore(t, t, agent, want0, want, todo, todo - {id}, id);
  }

  function Cleared<P>(t: Table<P>, id: nat, now: int): Table<P>
    requires id in t.rows
  {
    t.(rows := t.rows[id := t.rows[id].(clearedAt := Some(now))])
  }

  lemma ClearStep<P>(t0: Table<P>, t: Table<P>, agent: string, want0: map<string, P>, want: map<string, P>,
                     todo: set<nat>, now: int, stored: P -> P, id: nat)
    requires Midway(t0, t, agent, want0, want, todo, now, stored)
    requires id in todo && t.rows[id].key !in want
    ensures Midway(t0, Cleared(t, id, now), agent, want0, want, todo - {id}, now, stored)
    ensures Touched(t0, Cleared(t, id, now), id)
  {
    var t' := Cleared(t, id, now);
    assert forall i: nat :: Done(t', agent, todo - {id}, i) <==> Done(t, agent, todo, i);
    SettledSame(t, t', agent, want0, want, todo, todo - {id});
    assert Remaining(t0, t', agent, want, todo - {id});
    assert Moved(t0, t', agent, want0, now, stored);
  }

  function Inserted<P>(t: Table<P>, row: Row<P>): Table<P> { Table(t.rows[t.nextId := row], t.nextId + 1) }

  lemma InsertMoved<P>(t0: Table<P>, t: Table<P>, agent: string, want0: map<string, P>, now: int, stored: P -> P,
                       row: Row<P>)
    requires Moved(t0, t, agent, want0, now, stored)
    requires NewRow(row, agent, want0, stored) && !HasOpen(t0, agent, row.key)
    ensures Moved(t0, Inserted(t, row), agent, want0, now, stored)
  {
  }

  lemma InsertStep<P>(t0: Table<P>, t: Table<P>, agent: string, want0: map<string, P>, want: map<string, P>,
                      now: int, stored: P -> P, key: string)
    requires Midway(t0, t, agent, want0, want, {}, now, stored)
    requires key in want
    ensures !HasOpen(t, agent, key)
    ensures Midway(t0, Inserted(t, Row(agent, key, None, stored(want[key]))), agent, want0, want - {key}, {}, now,
                   stored)
    ensures Touched(t0, Inserted(t, Row(agent, key, None, stored(want[key]))), t.nextId)
  {
    var row := Row(agent, key, None, stored(want[key]));
    var t' := Inserted(t, row);
    assert !DoneKey(t, agent, {}, key);
    assert forall i: nat :: OpenFor(t, agent, i) ==> Done(t, agent, {}, i);
    assert forall i: nat :: Done(t', agent, {}, i) <==> Done(t, agent, {}, i) || i == t.nextId;
    SettledMore(t, t', agent, want0, want, {}, {}, t.nextId);
    InsertMoved(t0, t, agent, want0, now, stored, row);
    assert Remaining(t0, t', agent, want - {key}, {});
  }

  lemma MidwayEnds<P>(t0: Table<P>, t: Table<P>, agent: string, want0: map<string, P>, want: map<string, P>, now: int,
                      stored: P -> P)
    requires Midway(t0, t, agent, want0, want, {}, now, stored) && want.Keys == {}
    ensures Reconciled(t0, t, agent, want0, now, stored)
  {
    assert forall i: nat :: OpenFor(t, agent, i) <==> Done(t, agent, {}, i);
    forall key ensures HasOpen(t, agent, key) <==> DoneKey(t, agent, {}, key) {
    }
  }

  /** One INSERT for any key left over. */
  method InsertNext<P(==)>(ghost t0: Table<P>, t1: Table<P>, agent: string, ghost want0: map<string, P>,
                           want1: map<string, P>, ghost now: int, stored: P -> P)
    returns (t: Table<P>, want: map<string, P>)
    requires Midway(t0, t1, agent, want0, want1, {}, now, stored) && want1.Keys != {}
    ensures Midway(t0, t, agent, want0, want, {}, now, stored)
    ensures Touched(t0, t, t1.nextId) && |want.Keys| < |want1.Keys|
  {
    var key :| key in want1.Keys;
    InsertStep(t0, t1, agent, want0, want1, now, stored, key);
    t := Inserted(t1, Row(agent, key, None, stored(want1[key])));
    want := want1 - {key};
    assert want.Keys == want1.Keys - {key};
  }

  /** The second loop: one INSERT per key left over, in any order. */
  method InsertMissing<P(==)>(ghost t0: Table<P>, t1: Table<P>, agent: string, ghost want0: map<string, P>,
                              want1: map<string, P>, ghost now: int, stored: P -> P, changed1: bool,
                              ghost touched1: nat)
    returns (t: Table<P>, changed: bool)
    requires Midway(t0, t1, agent, want0, want1, {}, now, stored)
    requires if changed1 then Touched(t0, t1, touched1) else t1 == t0
    ensures Reconciled(t0, t, agent, want0, now, stored)
    ensures changed <==> t.rows != t0.rows
  {
    t, changed := t1, changed1;
    var want := want1;
    ghost var touched := touched1;
    while want.Keys != {}
      invariant Midway(t0, t, agent, want0, want, {}, now, stored)
      invariant if changed then Touched(t0, t, touched) else t == t0
      decreases |want.Keys|
    {
      touched := t.nextId;
      t, want := InsertNext(t0, t, agent, want0, want, now, stored);
      changed := true;
    }
    MidwayEnds(t0, t, agent, want0, want, now, stored);
  }

  predicate NoRowsFor<P>(t: Table<P>, agent: string) { forall id :: id in t.rows ==> t.rows[id].agent != agent }

  /** The two loops of Persist over one table. The open rows arrive in any order, and so do the keys left over. An
      INSERT never meets an open row of the same key, so the unique index on open rows accepts it; the foreign key
      refuses it when the agent has no row, and then nothing of the agent's can have been there. */
  method Reconcile<P(==)>(t0: Table<P>, agent: string, registered: bool, want0: map<string, P>, now: int,
                          stored: P -> P)
    returns (t: Table<P>, changed: bool, ok: bool)
    requires IdsBelowNext(t0) && (!registered ==> NoRowsFor(t0, agent))
    ensures ok <==> registered || want0.Keys == {}
    ensures ok ==> Reconciled(t0, t, agent, want0, now, stored) && (changed <==> t.rows != t0.rows)
  {
    t, changed, ok := t0, false, true;
    var want := want0;
    var todo := set id | id in t0.rows && OpenFor(t0, agent, id);
    MidwayStarts(t0, agent, want0, todo, now, stored);
    ghost var touched: nat := 0;
    while todo != {}
      invariant Midway(t0, t, agent, want0, want, todo, now, stored)
      invariant if changed then Touched(t0, t, touched) else t == t0
      invariant !registered ==> todo == {} && want == want0
      decreases |todo|
    {
      var id :| id in todo;
      if t.rows[id].key !in want {
        ClearStep(t0, t, agent, want0, want, todo, now, stored, id);
        t := Cleared(t, id, now);
        changed := true;
        touched := id;
      } else {
        KeepStep(t0, t, agent, want0, want, todo, now, stored, id);
        want := want - {t.rows[id].key};
      }
      todo := todo - {id};
    }
    if want.Keys != {} && !registered {
      ok := false;
      return;
    }
    t, changed := InsertMissing(t0, t, agent, want0, want, now, stored, changed, touched);
  }

  /** The only open row of a wanted key stays exactly as it was. */
  lemma OnlyRowIsKept<P>(t0: Table<P>, t: Table<P>, agent: string, want: map<string, P>, now: int, stored: P -> P,
                         id: nat)
    requires Reconciled(t0, t, agent, want, now, stored)
    requires OpenFor(t0, agent, id) && t0.rows[id].key in want
    requires forall j: nat :: OpenFor(t0, agent, j) && t0.rows[j].key == t0.rows[id].key ==> j == id
    ensures t.rows[id] == t0.rows[id]
  {
    var key := t0.rows[id].key;
    assert HasOpen(t, agent, key) && HasOpen(t0, agent, key);
    var j: nat :| OpenFor(t, agent, j) && t.rows[j].key == key;
    assert j in t0.rows && RowStep(t0.rows[j], t.rows[j], agent, now);
    assert OpenFor(t0, agent, j);
  }

  /** Rows of other agents, and rows already cleared, are never touched. */
  lemma OthersUntouched<P>(t0: Table<P>, t: Table<P>, agent: string, want: map<string, P>, now: int, stored: P -> P,
                           id: nat)
    requires Reconciled(t0, t, agent, want, now, stored)
    requires id in t0.rows && !OpenFor(t0, agent, id)
    ensures id in t.rows && t.rows[id] == t0.rows[id]
  {
    assert RowStep(t0.rows[id], t.rows[id], agent, now);
  }

  /** Reconciling again with the same wish changes no row. */
  lemma ReconcileTwice<P>(t0: Table<P>, t1: Table<P>, t2: Table<P>, agent: string, want: map<string, P>, now1: int,
                          now2: int, stored: P -> P)
    requires Reconciled(t0, t1, agent, want, now1, stored)
    requires Reconciled(t1, t2, agent, want, now2, stored)
    ensures t2.rows == t1.rows
  {
    forall id | id in t1.rows ensures id in t2.rows && t2.rows[id] == t1.rows[id] {
      if OpenFor(t1, agent, id) {
        assert HasOpen(t1, agent, t1.rows[id].key);
        OnlyRowIsKept(t1, t2, agent, want, now2, stored, id);
      } else {
        OthersUntouched(t1, t2, agent, want, now2, stored, id);
      }
    }
    forall id | id in t2.rows ensures id in t1.rows {
      assert id !in t1.rows ==> !HasOpen(t1, agent, t2.rows[id].key);
    }
  }

  // ---------- what Persist wants ----------

  function NormalizeSev(s: string): (r: string)
    ensures r in {"critical", "high", "medium", "low", "info"}
  {
    var l := ToLower(s);
    if l in {"critical", "high", "medium", "low", "info"} then l else if l == "important" then "high" else "info"
  }

  function StoredIssue(i: Issue): Issue { i.(severity := NormalizeSev(i.severity)) }
  function StoredVuln(v: Vuln): Vuln { v.(severity := NormalizeSev(v.severity)) }

  /** Of several issues with one code, the last is wanted. */
  function WantedIssues(issues: seq<Issue>): (want: map<string, Issue>)
    ensures forall code :: code in want <==> Coded(issues, code)
  {
    if issues == [] then map[]
    else
      CodedLast(issues);
      WantedIssues(Init(issues))[Last(issues).code := Last(issues)]
  }

  lemma CodedLast(issues: seq<Issue>)
    requires issues != []
    ensures forall code :: Coded(issues, code) <==> Coded(Init(issues), code) || Last(issues).code == code
  {
    forall code ensures Coded(issues, code) <==> Coded(Init(issues), code) || Last(issues).code == code {
      assert issues == Init(issues) + [Last(issues)];
      CodedAppend(Init(issues), [Last(issues)], code);
      if Last(issues).code == code { assert [Last(issues)][0].code == code; }
    }
  }

  function WantedVulns(vs: seq<Vuln>): (want: map<string, Vuln>)
    ensures forall id :: id in want <==> Listed(vs, id)
  {
    if vs == [] then map[]
    else
      ListedLast(vs);
      WantedVulns(Init(vs))[Last(vs).cve := Last(vs)]
  }

  lemma ListedLast(vs: seq<Vuln>)
    requires vs != []
    ensures forall id :: Listed(vs, id) <==> Listed(Init(vs), id) || Last(vs).cve == id
  {
    forall id ensures Listed(vs, id) <==> Listed(Init(vs), id) || Last(vs).cve == id { LastIsListed(vs, id); }
  }

  method WantIssues(issues: seq<Issue>) returns (want: map<string, Issue>)
    ensures want == WantedIssues(issues)
  {
    want := map[];
    for k := 0 to |issues|
      invariant want == WantedIssues(issues[..k])
    {
      PrefixStep(issues, k);
      want := want[issues[k].code := issues[k]];
    }
    assert issues[..|issues|] == issues;
  }

  method WantVulns(vs: seq<Vuln>) returns (want: map<string, Vuln>)
    ensures want == WantedVulns(vs)
  {
    want := map[];
    for k := 0 to |vs|
      invariant want == WantedVulns(vs[..k])
    {
      PrefixStep(vs, k);
      want := want[vs[k].cve := vs[k]];
    }
    assert vs[..|vs|] == vs;
  }

  // ---------- the store ----------

  /** The compliance columns of an agent row. */
  datatype AgentRow = AgentRow(score: int, severity: string, issueCount: nat, evaluatedAt: int)

  datatype Db = Db(issues: Table<Issue>, vulns: Table<Vuln>, agents: map<string, AgentRow>)

  datatype Event = Event(agent: string, severity: string, score: int, issueCount: nat)

  /** The foreign key: every row belongs to an agent that exists. */
  predicate References<P>(t: Table<P>, agents: map<string, AgentRow>) {
    forall id :: id in t.rows ==> t.rows[id].agent in agents
  }

  predicate Sound(db: Db) {
    IdsBelowNext(db.issues) && IdsBelowNext(db.vulns) && References(db.issues, db.agents)
      && References(db.vulns, db.agents)
  }

  function PreviousCount(db: Db, agent: string): nat {
    if agent in db.agents then db.agents[agent].issueCount else 0
  }

  /** What the foreign keys let through: rows are only inserted for an agent that exists. */
  predicate Acceptable(db: Db, agent: string, issues: seq<Issue>, vulns: seq<Vuln>) {
    agent in db.agents || (issues == [] && vulns == [])
  }

  /** One committed Persist: both tables reconciled, the agent's columns replaced if the row exists. */
  ghost predicate Persisted(db0: Db, db: Db, agent: string, row: AgentRow, issues: seq<Issue>, vulns: seq<Vuln>,
                            changed: bool)
  {
    && Acceptable(db0, agent, issues, vulns)
    && Reconciled(db0.issues, db.issues, agent, WantedIssues(issues), row.evaluatedAt, StoredIssue)
    && Reconciled(db0.vulns, db.vulns, agent, WantedVulns(vulns), row.evaluatedAt, StoredVuln)
    && db.agents == (if agent in db0.agents then db0.agents[agent := row] else db0.agents)
    && row.issueCount == |issues|
    && (changed <==> db.issues.rows != db0.issues.rows || db.vulns.rows != db0.vulns.rows
                     || PreviousCount(db0, agent) != |issues|)
  }

  lemma NothingWanted(issues: seq<Issue>, vulns: seq<Vuln>)
    ensures WantedIssues(issues).Keys == {} <==> issues == []
    ensures WantedVulns(vulns).Keys == {} <==> vulns == []
  {
    if issues != [] {
      assert Coded(issues, issues[0].code);
      assert issues[0].code in WantedIssues(issues).Keys;
    }
    if vulns != [] {
      assert Listed(vulns, vulns[0].cve);
      assert vulns[0].cve in WantedVulns(vulns).Keys;
    }
  }

  lemma ReferencesKept<P>(t0: Table<P>, t: Table<P>, agent: string, want: map<string, P>, now: int, stored: P -> P,
                          agents: map<string, AgentRow>)
    requires Reconciled(t0, t, agent, want, now, stored) && References(t0, agents)
    requires agent in agents || want.Keys == {}
    ensures References(t, agents)
  {
    forall id | id in t.rows ensures t.rows[id].agent in agents {
      if id in t0.rows {
        assert RowStep(t0.rows[id], t.rows[id], agent, now);
      } else {
        assert NewRow(t.rows[id], agent, want, stored);
      }
    }
  }

  /** What Evaluate returns. */
  ghost predicate EvaluatesTo(m: CveMap, sig: Signals, score: int, severity: string, issues: seq<Issue>,
                              vulns: seq<Vuln>) {
    issues == Issues(m, sig) && vulns == Firsts(VulnsOf(Findings(m, sig)))
    && score == Score(issues) && Worst(issues, severity)
  }

  /** One evaluation of a snapshot, persisted. */
  ghost predicate Evaluated(db0: Db, db: Db, m: CveMap, agent: string, sig: Signals, score: int, severity: string,
                            now: int, changed: bool)
  {
    && score == Score(Issues(m, sig)) && Worst(Issues(m, sig), severity)
    && Persisted(db0, db, agent, AgentRow(score, severity, |Issues(m, sig)|, now), Issues(m, sig),
                 Firsts(VulnsOf(Findings(m, sig))), changed)
  }

  function MapSev(s: string): string {
    if s == "critical" then "critical" else if s == "high" || s == "medium" then "warning" else "info"
  }

  ghost predicate SameCves(db: Db, agent: string) {
    forall id :: HasOpen(db.vulns, agent, id) <==> HasOpen(db.issues, agent, "cve:" + id)
  }

  method Assess(m: CveMap, sig: Signals) returns (score: int, severity: string, issues: seq<Issue>, vulns: seq<Vuln>)
    ensures EvaluatesTo(m, sig, score, severity, issues, vulns)
  {
    score, severity, issues, vulns := Evaluate(m, sig);
  }

  class Store {
    var issues: Table<Issue>
    var vulns: Table<Vuln>
    var agents: map<string, AgentRow>
    var events: seq<Event>

    ghost function View(): Db
      reads this
    {
      Db(issues, vulns, agents)
    }

    constructor (db: Db)
      ensures View() == db && events == []
    {
      issues, vulns, agents, events := db.issues, db.vulns, db.agents, [];
    }

    /** The transaction. It fails, and leaves everything as it was, when a foreign key refuses an INSERT or another
        statement or the commit fails; healthy says that none of the latter happens. */
    method Persist(agent: string, score: int, severity: string, wanted: seq<Issue>, found: seq<Vuln>, now: int,
                   healthy: bool)
      returns (changed: bool, ok: bool)
      requires Sound(View())
      modifies this
      ensures Sound(View()) && events == old(events)
      ensures ok <==> healthy && Acceptable(old(View()), agent, wanted, found)
      ensures if ok then Persisted(old(View()), View(), agent, AgentRow(score, severity, |wanted|, now), wanted, found,
                                   changed)
              else View() == old(View()) && !changed
    {
      changed, ok := false, false;
      var prevCount := 0;
      if agent in agents {
        prevCount := agents[agent].issueCount;
      }
      NothingWanted(wanted, found);
      var wantCodes := WantIssues(wanted);
      var issueTable, issuesChanged, issuesOk := Reconcile(issues, agent, agent in agents, wantCodes, now, StoredIssue);
      if !issuesOk {
        return;
      }
      var wantCves := WantVulns(found);
      var vulnTable, vulnsChanged, vulnsOk := Reconcile(vulns, agent, agent in agents, wantCves, now, StoredVuln);
      if !vulnsOk || !healthy {
        return;
      }
      ReferencesKept(issues, issueTable, agent, wantCodes, now, StoredIssue, agents);
      ReferencesKept(vulns, vulnTable, agent, wantCves, now, StoredVuln, agents);
      ok, changed := true, issuesChanged || vulnsChanged || prevCount != |wanted|;
      Commit(issueTable, vulnTable, agent, AgentRow(score, severity, |wanted|, now));
    }

    /** The tables become visible, with the UPDATE of the agent's columns, which affects no row if there is none. */
    method Commit(issueTable: Table<Issue>, vulnTable: Table<Vuln>, agent: string, row: AgentRow)
      modifies `issues, `vulns, `agents
      ensures issues == issueTable && vulns == vulnTable
      ensures agents == if agent in old(agents) then old(agents)[agent := row] else old(agents)
    {
      issues, vulns := issueTable, vulnTable;
      if agent in agents {
        agents := agents[agent := row];
      }
    }

    method EmitIf(changed: bool, event: Event)
      modifies `events
      ensures events == old(events) + if changed then [event] else []
    {
      if changed {
        events := events + [event];
      }
    }

    /** Persist, called with what Evaluate returned. */
    method PersistEvaluation(ghost m: CveMap, agent: string, ghost sig: Signals, score: int, severity: string,
                             wanted: seq<Issue>, found: seq<Vuln>, now: int, healthy: bool)
      returns (changed: bool, ok: bool)
      requires Sound(View())
      requires EvaluatesTo(m, sig, score, severity, wanted, found)
      modifies this
      ensures Sound(View()) && events == old(events)
      ensures ok <==> healthy && Acceptable(old(View()), agent, wanted, found)
      ensures if ok then Evaluated(old(View()), View(), m, agent, sig, score, severity, now, changed)
              && SameCves(View(), agent)
              else View() == old(View()) && !changed
    {
      changed, ok := Persist(agent, score, severity, wanted, found, now, healthy);
      if ok {
        OpenCvesMatchCodes(old(View()), View(), m, agent, sig, score, severity, now, changed);
      }
    }

    /** Evaluation, transaction, and an event exactly when something changed. */
    method EvaluateAndPersist(m: CveMap, agent: string, sig: Signals, now: int, healthy: bool)
      returns (score: int, severity: string, changed: bool, ok: bool)
      requires Sound(View())
      modifies this
      ensures Sound(View())
      ensures if ok then Evaluated(old(View()), View(), m, agent, sig, score, severity, now, changed)
              && SameCves(View(), agent)
              else View() == old(View()) && !changed
      ensures events == old(events)
                        + if changed then [Event(agent, MapSev(severity), score, |Issues(m, sig)|)] else []
    {
      var wanted: seq<Issue>;
      var found: seq<Vuln>;
      score, severity, wanted, found := Assess(m, sig);
      changed, ok := PersistEvaluation(m, agent, sig, score, severity, wanted, found, now, healthy);
      EmitIf(changed, Event(agent, MapSev(severity), score, |wanted|));
    }
  }

  // ---------- what holds of the store afterwards ----------

  /** After EvaluateAndPersist the open CVE ids are the open issue codes with "cve:" stripped. */
  lemma OpenCvesMatchCodes(db0: Db, db: Db, m: CveMap, agent: string, sig: Signals, score: int, severity: string,
                           now: int, changed: bool)
    requires Evaluated(db0, db, m, agent, sig, score, severity, now, changed)
    ensures SameCves(db, agent)
  {
    forall id ensures HasOpen(db.vulns, agent, id) <==> HasOpen(db.issues, agent, "cve:" + id) {
      VulnsMatchCodes(m, sig, id);
    }
  }

  /** A second identical committed Persist changes no row and never reports a change. */
  lemma SecondPersistQuiet(db0: Db, db1: Db, db2: Db, agent: string, row1: AgentRow, row2: AgentRow,
                           issues: seq<Issue>, vulns: seq<Vuln>, changed1: bool, changed2: bool)
    requires Persisted(db0, db1, agent, row1, issues, vulns, changed1)
    requires Persisted(db1, db2, agent, row2, issues, vulns, changed2)
    ensures db2.issues.rows == db1.issues.rows && db2.vulns.rows == db1.vulns.rows
    ensures !changed2
  {
    ReconcileTwice(db0.issues, db1.issues, db2.issues, agent, WantedIssues(issues), row1.evaluatedAt, row2.evaluatedAt,
                   StoredIssue);
    ReconcileTwice(db0.vulns, db1.vulns, db2.vulns, agent, WantedVulns(vulns), row1.evaluatedAt, row2.evaluatedAt,
                   StoredVuln);
  }

  /** Everything Evaluate raises satisfies the CHECK constraint on issue categories. */
  lemma CategoriesAllowed(m: CveMap, sig: Signals)
    ensures forall i :: i in Issues(m, sig) ==> i.category in {"patch", "misconfig", "vulnerability", "policy"}
  {
    assert forall i :: i in RebootIssue(sig) + PatchIssue(sig) ==> i.category in {"patch", "policy"};
    assert forall i :: i in IssuesOf(Findings(m, sig)) ==> i.category == "vulnerability";
    assert forall i :: i in PostureIssues(sig) ==> i.category in {"misconfig", "policy"};
  }
}
