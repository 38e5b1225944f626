/** Enrollment tokens under concurrent transactions: the row lock of SELECT ... FOR UPDATE, the checks, the
    increment, the upsert, commit or rollback, the JWT, and revocation. The agent and the collector handlers run
    this same protocol on their own tables. */
module Enrollment {
  import opened Text

  type TokenId = string
  type TxId = nat

  datatype Token = Token(site: string, maxUses: nat, used: int, expires: int, revoked: bool)

  datatype Reason = UnknownToken | Revoked | Expired | Exhausted | Broken

  /** Where one enroll request is. From Locked to Upserted it holds the row lock of its token. */
  datatype Stage =
    | Waiting
    | Locked(seen: Token)
    | Checked(seen: Token)
    | Counted(seen: Token, newUsed: int)
    | Upserted(seen: Token, newUsed: int)
    | Committed
    | Issued
    | Denied(reason: Reason)

  datatype Request = Request(token: TokenId, host: string, fingerprint: string, stage: Stage)

  datatype HostKey = HostKey(site: string, host: string)

  /** The enrolled host's row, keyed by (site, host name). */
  datatype Host = Host(id: nat, fingerprint: string)

  /** tokens and hosts are the committed tables; enrolled and issued are observers. */
  datatype State = State(
    now: int,
    tokens: map<TokenId, Token>,
    hosts: map<HostKey, Host>,
    nextHost: nat,
    locks: map<TokenId, TxId>,
    requests: map<TxId, Request>,
    enrolled: map<TokenId, set<TxId>>,
    issued: map<TokenId, set<TxId>>)

  datatype Action =
    | Tick(n: nat)
    | Begin(tx: TxId, token: TokenId, host: string, fingerprint: string)
    | Lock(tx: TxId)
    | Check(tx: TxId)
    | Increment(tx: TxId)
    | Upsert(tx: TxId)
    | Commit(tx: TxId)
    | Issue(tx: TxId)
    | Abort(tx: TxId)
    | Revoke(token: TokenId)
    | Mint(owner: Owner, token: TokenId, site: string, uses: int, ttlHours: int)

  // ---------- new tokens ----------

  /** Which of the two handlers creates the token: they differ in their limits and defaults. */
  datatype Owner = Agents | Collectors

  const HOUR: int := 3600 * 1_000_000_000

  function MostUses(o: Owner): nat { if o.Agents? then 100 else 50 }

  function DefaultTtl(o: Owner): int { if o.Agents? then 24 else 72 }

  /** The row of a new token, or None when the request is refused. */
  function NewToken(o: Owner, site: string, uses: int, ttlHours: int, now: int): (t: Option<Token>)
    ensures t.Some? ==> 1 <= t.value.maxUses <= MostUses(o) && t.value.used == 0 && !t.value.revoked
    ensures t.Some? ==> now < t.value.expires <= now + 30 * 24 * HOUR
  {
    var ttl := if ttlHours <= 0 then DefaultTtl(o) else ttlHours;
    var most := if uses <= 0 then 1 else uses;
    if ttl > 24 * 30 || most > MostUses(o) then None else Some(Token(site, most, 0, now + ttl * HOUR, false))
  }

  function Init(tokens: map<TokenId, Token>): State {
    State(0, tokens, map[], 0, map[], map[], map t | t in tokens :: {}, map t | t in tokens :: {})
  }

  predicate HoldsLock(st: Stage) { st.Locked? || st.Checked? || st.Counted? || st.Upserted? }

  function At(s: State, tx: TxId, stage: Stage): State
    requires tx in s.requests
  {
    s.(requests := s.requests[tx := s.requests[tx].(stage := stage)])
  }

  predicate In(s: State, tx: TxId) { tx in s.requests && s.requests[tx].token in s.tokens }

  /** The three tests on the locked row, in the handler's order. */
  function Verdict(t: Token, now: int): Option<Reason> {
    if t.revoked then Some(Revoked)
    else if now > t.expires then Some(Expired)
    else if t.used >= t.maxUses then Some(Exhausted)
    else None
  }

  function Release(s: State, tx: TxId, stage: Stage): State
    requires tx in s.requests
  {
    At(s, tx, stage).(locks := s.locks - {s.requests[tx].token})
  }

  /** SELECT ... FOR UPDATE: no row, or the row as last committed once nobody else holds it. */
  function LockStep(s: State, tx: TxId): State
    requires tx in s.requests
  {
    var token := s.requests[tx].token;
    if token !in s.tokens then At(s, tx, Denied(UnknownToken))
    else if token in s.locks then s
    else At(s, tx, Locked(s.tokens[token])).(locks := s.locks[token := tx])
  }

  function CheckStep(s: State, tx: TxId): State
    requires tx in s.requests && s.requests[tx].stage.Locked?
  {
    var seen := s.requests[tx].stage.seen;
    match Verdict(seen, s.now)
    case Some(reason) => Release(s, tx, Denied(reason))
    case None => At(s, tx, Checked(seen))
  }

  /** ON CONFLICT (site, host name): the row and its id stay, the fingerprint is replaced. */
  function PutHost(hosts: map<HostKey, Host>, nextHost: nat, key: HostKey, fingerprint: string)
    : (map<HostKey, Host>, nat)
  {
    if key in hosts then (hosts[key := hosts[key].(fingerprint := fingerprint)], nextHost)
    else (hosts[key := Host(nextHost, fingerprint)], nextHost + 1)
  }

  function UpsertHost(s: State, key: HostKey, fingerprint: string): State {
    var put := PutHost(s.hosts, s.nextHost, key, fingerprint);
    s.(hosts := put.0, nextHost := put.1)
  }

  /** The transaction's writes become visible and its lock goes. */
  function CommitStep(s: State, tx: TxId): State
    requires In(s, tx) && s.requests[tx].stage.Upserted? && s.requests[tx].token in s.enrolled
  {
    var r := s.requests[tx];
    var written := s.(tokens := s.tokens[r.token := s.tokens[r.token].(used := r.stage.newUsed)],
                      enrolled := s.enrolled[r.token := s.enrolled[r.token] + {tx}]);
    Release(UpsertHost(written, HostKey(r.stage.seen.site, r.host), r.fingerprint), tx, Committed)
  }

  /** An action that is not possible in a state leaves it unchanged. */
  function Next(s: State, a: Action): State {
    match a
    case Tick(n) => s.(now := s.now + n)
    case Begin(tx, token, host, fingerprint) =>
      if tx in s.requests then s else s.(requests := s.requests[tx := Request(token, host, fingerprint, Waiting)])
    case Lock(tx) => if tx in s.requests && s.requests[tx].stage == Waiting then LockStep(s, tx) else s
    case Check(tx) => if In(s, tx) && s.requests[tx].stage.Locked? then CheckStep(s, tx) else s
    case Increment(tx) =>
      if In(s, tx) && s.requests[tx].stage.Checked?
      then At(s, tx, Counted(s.requests[tx].stage.seen, s.tokens[s.requests[tx].token].used + 1)) else s
    case Upsert(tx) =>
      if In(s, tx) && s.requests[tx].stage.Counted?
      then At(s, tx, Upserted(s.requests[tx].stage.seen, s.requests[tx].stage.newUsed)) else s
    case Commit(tx) =>
      if In(s, tx) && s.requests[tx].stage.Upserted? && s.requests[tx].token in s.enrolled then CommitStep(s, tx) else s
    case Issue(tx) =>
      if In(s, tx) && s.requests[tx].stage == Committed && s.requests[tx].token in s.issued
      then At(s, tx, Issued).(issued := s.issued[s.requests[tx].token := s.issued[s.requests[tx].token] + {tx}]) else s
    case Abort(tx) =>
      if tx !in s.requests then s
      else if HoldsLock(s.requests[tx].stage) then Release(s, tx, Denied(Broken))
      else if s.requests[tx].stage == Waiting then At(s, tx, Denied(Broken)) else s
    case Revoke(token) =>
      if token in s.tokens && token !in s.locks && !s.tokens[token].revoked
      then s.(tokens := s.tokens[token := s.tokens[token].(revoked := true)]) else s
    case Mint(owner, token, site, uses, ttlHours) =>
      var row := NewToken(owner, site, uses, ttlHours, s.now);
      if token !in s.tokens && row.Some? then WithToken(s, token, row.value) else s
  }

  function WithToken(s: State, token: TokenId, row: Token): State {
    s.(tokens := s.tokens[token := row], enrolled := s.enrolled[token := {}], issued := s.issued[token := {}])
  }

  function Run(s: State, actions: seq<Action>): State {
    if actions == [] then s else Next(Run(s, actions[..|actions| - 1]), actions[|actions| - 1])
  }

  // ---------- the invariant ----------

  predicate LockOk(s: State, tx: TxId) {
    tx in s.requests ==>
      var r := s.requests[tx];
      && (HoldsLock(r.stage) <==> r.token in s.locks && s.locks[r.token] == tx)
      && (HoldsLock(r.stage) ==> r.token in s.tokens && r.stage.seen == s.tokens[r.token])
      && (HoldsLock(r.stage) && !r.stage.Locked? ==> !r.stage.seen.revoked && r.stage.seen.used < r.stage.seen.maxUses)
      && (r.stage.Counted? || r.stage.Upserted? ==> r.stage.newUsed == r.stage.seen.used + 1)
  }

  predicate CountsOk(s: State, token: TokenId) {
    if token !in s.tokens then token !in s.enrolled && token !in s.issued
    else
      && token in s.enrolled && token in s.issued
      && s.tokens[token].used == |s.enrolled[token]| <= s.tokens[token].maxUses
      && s.issued[token] <= s.enrolled[token]
      && (forall tx :: tx in s.enrolled[token] ==>
            tx in s.requests && (s.requests[tx].stage == Committed || s.requests[tx].stage == Issued))
  }

  predicate CommittedOk(s: State, tx: TxId) {
    tx in s.requests && (s.requests[tx].stage == Committed || s.requests[tx].stage == Issued) ==>
      s.requests[tx].token in s.enrolled && tx in s.enrolled[s.requests[tx].token]
  }

  ghost predicate Safe(s: State) {
    && (forall tx :: LockOk(s, tx) && CommittedOk(s, tx))
    && (forall token :: CountsOk(s, token))
    && (forall token :: token in s.locks ==> s.locks[token] in s.requests && s.requests[s.locks[token]].token == token)
  }

  predicate FreshTokens(tokens: map<TokenId, Token>) {
    forall t :: t in tokens ==> tokens[t].used == 0
  }

  /** Steps that touch neither the committed rows nor the observers. */
  lemma StageSafe(s: State, tx: TxId, s': State)
    requires Safe(s) && tx in s.requests && tx in s'.requests
    requires s' == s.(requests := s.requests[tx := s'.requests[tx]], locks := s'.locks)
    requires s'.requests[tx].token == s.requests[tx].token
    requires !s.requests[tx].stage.Committed? && !s.requests[tx].stage.Issued?
    requires !s'.requests[tx].stage.Committed? && !s'.requests[tx].stage.Issued?
    requires LockOk(s', tx)
    requires forall k :: k != s.requests[tx].token ==>
               (k in s'.locks <==> k in s.locks) && (k in s.locks ==> s'.locks[k] == s.locks[k])
    requires var k := s.requests[tx].token;
             s'.locks == s.locks || ((k in s.locks ==> s.locks[k] == tx) && (k in s'.locks ==> s'.locks[k] == tx))
    ensures Safe(s')
  {
    forall t ensures LockOk(s', t) && CommittedOk(s', t) {
      assert LockOk(s, t) && CommittedOk(s, t);
    }
    forall token ensures CountsOk(s', token) {
      assert CountsOk(s, token);
    }
  }

  lemma LockSafe(s: State, tx: TxId)
    requires Safe(s) && tx in s.requests && s.requests[tx].stage == Waiting
    ensures Safe(LockStep(s, tx))
  {
    assert LockOk(s, tx);
    StageSafe(s, tx, LockStep(s, tx));
  }

  /** Giving the lock back without having written anything. */
  lemma RollbackSafe(s: State, tx: TxId, reason: Reason)
    requires Safe(s) && tx in s.requests && (HoldsLock(s.requests[tx].stage) || s.requests[tx].stage == Waiting)
    ensures HoldsLock(s.requests[tx].stage) ==> Safe(Release(s, tx, Denied(reason)))
    ensures s.requests[tx].stage == Waiting ==> Safe(At(s, tx, Denied(reason)))
  {
    assert LockOk(s, tx);
    if HoldsLock(s.requests[tx].stage) {
      StageSafe(s, tx, Release(s, tx, Denied(reason)));
    } else {
      StageSafe(s, tx, At(s, tx, Denied(reason)));
    }
  }

  lemma CommitSafe(s: State, tx: TxId)
    requires Safe(s) && In(s, tx) && s.requests[tx].stage.Upserted? && s.requests[tx].token in s.enrolled
    ensures Safe(CommitStep(s, tx))
  {
    var s', r := CommitStep(s, tx), s.requests[tx];
    assert LockOk(s, tx) && CountsOk(s, r.token);
    assert tx !in s.enrolled[r.token];
    forall t ensures LockOk(s', t) && CommittedOk(s', t) {
      assert LockOk(s, t) && CommittedOk(s, t);
    }
    forall token ensures CountsOk(s', token) {
      assert CountsOk(s, token);
    }
  }

  lemma IssueSafe(s: State, tx: TxId)
    requires Safe(s) && In(s, tx) && s.requests[tx].stage == Committed && s.requests[tx].token in s.issued
    ensures Safe(Next(s, Issue(tx)))
  {
    var s' := Next(s, Issue(tx));
    assert CommittedOk(s, tx);
    forall t ensures LockOk(s', t) && CommittedOk(s', t) {
      assert LockOk(s, t) && CommittedOk(s, t);
    }
    forall token ensures CountsOk(s', token) {
      assert CountsOk(s, token);
    }
  }

  lemma BeginSafe(s: State, tx: TxId, token: TokenId, host: string, fingerprint: string)
    requires Safe(s) && tx !in s.requests
    ensures Safe(Next(s, Begin(tx, token, host, fingerprint)))
  {
    var s' := Next(s, Begin(tx, token, host, fingerprint));
    forall t ensures LockOk(s', t) && CommittedOk(s', t) {
      assert LockOk(s, t) && CommittedOk(s, t);
    }
    forall k ensures CountsOk(s', k) {
      assert CountsOk(s, k);
    }
  }

  lemma RevokeSafe(s: State, token: TokenId)
    requires Safe(s) && token in s.tokens && token !in s.locks
    ensures Safe(s.(tokens := s.tokens[token := s.tokens[token].(revoked := true)]))
  {
    var s' := s.(tokens := s.tokens[token := s.tokens[token].(revoked := true)]);
    forall t ensures LockOk(s', t) && CommittedOk(s', t) {
      assert LockOk(s, t) && CommittedOk(s, t);
    }
    forall k ensures CountsOk(s', k) {
      assert CountsOk(s, k);
    }
  }

  lemma MintSafe(s: State, token: TokenId, row: Token)
    requires Safe(s) && token !in s.tokens && row.used == 0
    ensures Safe(WithToken(s, token, row))
  {
    var s' := WithToken(s, token, row);
    assert CountsOk(s, token);
    forall t ensures LockOk(s', t) && CommittedOk(s', t) {
      assert LockOk(s, t) && CommittedOk(s, t);
    }
    forall k ensures CountsOk(s', k) {
      assert CountsOk(s, k);
    }
  }

  lemma TickSafe(s: State, n: nat)
    requires Safe(s)
    ensures Safe(s.(now := s.now + n))
  {
    var s' := s.(now := s.now + n);
    assert forall t :: LockOk(s, t) ==> LockOk(s', t);
    assert forall t :: CommittedOk(s, t) ==> CommittedOk(s', t);
    assert forall k :: CountsOk(s, k) ==> CountsOk(s', k);
  }

  lemma IncrementSafe(s: State, tx: TxId)
    requires Safe(s) && In(s, tx) && s.requests[tx].stage.Checked?
    ensures Safe(Next(s, Increment(tx)))
  {
    assert LockOk(s, tx);
    StageSafe(s, tx, Next(s, Increment(tx)));
  }

  lemma UpsertSafe(s: State, tx: TxId)
    requires Safe(s) && In(s, tx) && s.requests[tx].stage.Counted?
    ensures Safe(Next(s, Upsert(tx)))
  {
    assert LockOk(s, tx);
    StageSafe(s, tx, Next(s, Upsert(tx)));
  }

  lemma NextSafe(s: State, a: Action)
    requires Safe(s)
    ensures Safe(Next(s, a))
  {
    match a
    case Tick(n) => TickSafe(s, n);
    case Begin(tx, token, host, fingerprint) =>
      if tx !in s.requests { BeginSafe(s, tx, token, host, fingerprint); }
    case Lock(tx) =>
      if tx in s.requests && s.requests[tx].stage == Waiting { LockSafe(s, tx); }
    case Check(tx) =>
      if In(s, tx) && s.requests[tx].stage.Locked? { CheckSafe(s, tx); }
    case Increment(tx) =>
      if In(s, tx) && s.requests[tx].stage.Checked? { IncrementSafe(s, tx); }
    case Upsert(tx) =>
      if In(s, tx) && s.requests[tx].stage.Counted? { UpsertSafe(s, tx); }
    case Commit(tx) =>
      if In(s, tx) && s.requests[tx].stage.Upserted? && s.requests[tx].token in s.enrolled { CommitSafe(s, tx); }
    case Issue(tx) =>
      if In(s, tx) && s.requests[tx].stage == Committed && s.requests[tx].token in s.issued { IssueSafe(s, tx); }
    case Abort(tx) =>
      if tx in s.requests && (HoldsLock(s.requests[tx].stage) || s.requests[tx].stage == Waiting) {
        RollbackSafe(s, tx, Broken);
      }
    case Revoke(token) =>
      if token in s.tokens && token !in s.locks { RevokeSafe(s, token); }
    case Mint(owner, token, site, uses, ttlHours) =>
      var row := NewToken(owner, site, uses, ttlHours, s.now);
      if token !in s.tokens && row.Some? { MintSafe(s, token, row.value); }
  }

  lemma CheckSafe(s: State, tx: TxId)
    requires Safe(s) && In(s, tx) && s.requests[tx].stage.Locked?
    ensures Safe(CheckStep(s, tx))
  {
    assert LockOk(s, tx);
    match Verdict(s.requests[tx].stage.seen, s.now)
    case Some(reason) => RollbackSafe(s, tx, reason);
    case None => StageSafe(s, tx, CheckStep(s, tx));
  }

  lemma InitSafe(tokens: map<TokenId, Token>)
    requires FreshTokens(tokens)
    ensures Safe(Init(tokens))
  {
  }

  lemma {:induction false} RunSafe(s: State, actions: seq<Action>)
    requires Safe(s)
    ensures Safe(Run(s, actions))
  {
    if actions != [] {
      RunSafe(s, actions[..|actions| - 1]);
      NextSafe(Run(s, actions[..|actions| - 1]), actions[|actions| - 1]);
    }
  }

  lemma SubsetSize(a: set<TxId>, b: set<TxId>)
    requires a <= b
    ensures |a| <= |b|
  {
    if a != {} {
      var x :| x in a;
      SubsetSize(a - {x}, b - {x});
    }
  }

  // ---------- the theorems ----------

  /** In every interleaving of new tokens, enrolls, rollbacks and revokes, the used_count of every token there is, old
      or new, is its number of committed enrollments, never more than its max_uses, which never changes, and no more
      JWTs than that have been issued. */
  lemma TokenConservation(tokens: map<TokenId, Token>, actions: seq<Action>, more: seq<Action>, token: TokenId)
    requires FreshTokens(tokens) && token in Run(Init(tokens), actions).tokens
    ensures var s, s' := Run(Init(tokens), actions), Run(Run(Init(tokens), actions), more);
            && token in s'.tokens && token in s'.enrolled && token in s'.issued
            && s'.tokens[token].used == |s'.enrolled[token]|
            && s'.tokens[token].used <= s'.tokens[token].maxUses == s.tokens[token].maxUses
            && |s'.issued[token]| <= s'.tokens[token].used
  {
    InitSafe(tokens);
    RunSafe(Init(tokens), actions);
    var s := Run(Init(tokens), actions);
    RunSafe(s, more);
    TokensStay(s, more, token);
    var s' := Run(s, more);
    assert CountsOk(s', token);
    SubsetSize(s'.issued[token], s'.enrolled[token]);
  }

  lemma TokenStays(s: State, a: Action, token: TokenId)
    requires token in s.tokens
    ensures token in Next(s, a).tokens && Next(s, a).tokens[token].maxUses == s.tokens[token].maxUses
    ensures s.tokens[token].revoked ==> Next(s, a).tokens[token].revoked
  {
    if a.Commit? || a.Revoke? || a.Mint? {
    } else {
      assert Next(s, a).tokens == s.tokens;
    }
  }

  lemma {:induction false} TokensStay(s: State, actions: seq<Action>, token: TokenId)
    requires Safe(s) && token in s.tokens
    ensures token in Run(s, actions).tokens
    ensures Run(s, actions).tokens[token].maxUses == s.tokens[token].maxUses
    ensures s.tokens[token].revoked ==> Run(s, actions).tokens[token].revoked
  {
    if actions != [] {
      TokensStay(s, actions[..|actions| - 1], token);
      TokenStays(Run(s, actions[..|actions| - 1]), actions[|actions| - 1], token);
    }
  }

  /** One step after a committed revoke: nothing about the token changes any more. */
  lemma RevokedStep(s: State, a: Action, token: TokenId)
    requires Safe(s) && token in s.tokens && s.tokens[token].revoked && token in s.enrolled
    ensures token in Next(s, a).tokens && Next(s, a).tokens[token] == s.tokens[token]
    ensures token in Next(s, a).enrolled && Next(s, a).enrolled[token] == s.enrolled[token]
  {
    if a.Commit? { assert LockOk(s, a.tx); }
  }

  /** After a committed revoke no enrollment of the token commits, in any continuation: neither a request
      that gets the row lock afterwards nor one that was already in progress. */
  lemma {:induction false} NoEnrollAfterRevoke(s: State, actions: seq<Action>, token: TokenId)
    requires Safe(s) && token in s.tokens && s.tokens[token].revoked
    ensures token in s.enrolled && token in Run(s, actions).tokens && token in Run(s, actions).enrolled
    ensures Run(s, actions).tokens[token] == s.tokens[token]
    ensures Run(s, actions).enrolled[token] == s.enrolled[token]
  {
    assert CountsOk(s, token);
    if actions != [] {
      var mid := Run(s, actions[..|actions| - 1]);
      NoEnrollAfterRevoke(s, actions[..|actions| - 1], token);
      RunSafe(s, actions[..|actions| - 1]);
      RevokedStep(mid, actions[|actions| - 1], token);
    }
  }

  // ---------- the enrolled hosts ----------

  predicate HostsKept(s: State, s': State) {
    s.nextHost <= s'.nextHost && forall k :: k in s.hosts ==> k in s'.hosts && s'.hosts[k].id == s.hosts[k].id
  }

  predicate HostIdsDistinct(s: State) {
    (forall k :: k in s.hosts ==> s.hosts[k].id < s.nextHost)
    && forall j, k :: j in s.hosts && k in s.hosts && j != k ==> s.hosts[j].id != s.hosts[k].id
  }

  lemma UpsertHosts(s: State, key: HostKey, fingerprint: string)
    requires HostIdsDistinct(s)
    ensures HostsKept(s, UpsertHost(s, key, fingerprint)) && HostIdsDistinct(UpsertHost(s, key, fingerprint))
  {
  }

  lemma CommitHosts(s: State, tx: TxId)
    requires HostIdsDistinct(s) && In(s, tx) && s.requests[tx].stage.Upserted? && s.requests[tx].token in s.enrolled
    ensures HostsKept(s, CommitStep(s, tx)) && HostIdsDistinct(CommitStep(s, tx))
  {
    var r := s.requests[tx];
    var written := s.(tokens := s.tokens[r.token := s.tokens[r.token].(used := r.stage.newUsed)],
                      enrolled := s.enrolled[r.token := s.enrolled[r.token] + {tx}]);
    UpsertHosts(written, HostKey(r.stage.seen.site, r.host), r.fingerprint);
  }

  /** A commit counts one more use and records the host: under its site and name, with the request's fingerprint, the id
      it had or a new one; no other host and no other token changes. */
  lemma CommitRecordsHost(s: State, tx: TxId)
    requires Safe(s) && In(s, tx) && s.requests[tx].stage.Upserted?
    ensures var s', r := Next(s, Commit(tx)), s.requests[tx];
            var key := HostKey(s.tokens[r.token].site, r.host);
            && s'.tokens == s.tokens[r.token := s.tokens[r.token].(used := s.tokens[r.token].used + 1)]
            && s'.hosts == s.hosts[key := Host(if key in s.hosts then s.hosts[key].id else s.nextHost, r.fingerprint)]
            && s'.requests[tx].stage == Committed
  {
    assert LockOk(s, tx);
    assert CountsOk(s, s.requests[tx].token);
  }

  lemma StepHosts(s: State, a: Action)
    requires HostIdsDistinct(s)
    ensures HostsKept(s, Next(s, a)) && HostIdsDistinct(Next(s, a))
  {
    if a.Commit? && In(s, a.tx) && s.requests[a.tx].stage.Upserted? && s.requests[a.tx].token in s.enrolled {
      CommitHosts(s, a.tx);
    } else {
      QuietHosts(s, a);
    }
  }

  lemma QuietHosts(s: State, a: Action)
    requires !(a.Commit? && In(s, a.tx) && s.requests[a.tx].stage.Upserted? && s.requests[a.tx].token in s.enrolled)
    ensures Next(s, a).hosts == s.hosts && Next(s, a).nextHost == s.nextHost
  {
    match a
    case Lock(tx) => if tx in s.requests { assert LockStep(s, tx).hosts == s.hosts; }
    case Check(tx) => if In(s, tx) && s.requests[tx].stage.Locked? { assert CheckStep(s, tx).hosts == s.hosts; }
    case _ =>
  }

  /** Enrolling a host again keeps its row: one row per (site, host name), with the id it got first. */
  lemma {:induction false} HostsKeepIds(s: State, actions: seq<Action>)
    requires HostIdsDistinct(s)
    ensures HostsKept(s, Run(s, actions)) && HostIdsDistinct(Run(s, actions))
  {
    if actions != [] {
      HostsKeepIds(s, actions[..|actions| - 1]);
      StepHosts(Run(s, actions[..|actions| - 1]), actions[|actions| - 1]);
    }
  }

  // ---------- one handler call ----------

  datatype Tables = Tables(tokens: map<TokenId, Token>, hosts: map<HostKey, Host>, nextHost: nat)
  datatype Outcome = BadRequest | Refused(reason: Reason) | Created(site: string, hostId: nat)

  function TablesOf(s: State): Tables { Tables(s.tokens, s.hosts, s.nextHost) }

  function WithHost(t: Tables, key: HostKey, fingerprint: string): Tables {
    var put := PutHost(t.hosts, t.nextHost, key, fingerprint);
    t.(hosts := put.0, nextHost := put.1)
  }

  /** What an undisturbed enrollment does to the tables, and what it answers. */
  function EnrollAlone(t: Tables, token: TokenId, host: string, fingerprint: string, now: int): (Tables, Outcome) {
    if token !in t.tokens then (t, Refused(UnknownToken))
    else
      var row := t.tokens[token];
      match Verdict(row, now)
      case Some(reason) => (t, Refused(reason))
      case None =>
        var t' := WithHost(t.(tokens := t.tokens[token := row.(used := row.used + 1)]), HostKey(row.site, host),
                           fingerprint);
        (t', Created(row.site, t'.hosts[HostKey(row.site, host)].id))
  }

  /** Another row of the site has this fingerprint. */
  predicate OtherHas(hosts: map<HostKey, Host>, key: HostKey, fingerprint: string) {
    exists k :: k in hosts && k != key && k.site == key.site && hosts[k].fingerprint == fingerprint
  }

  predicate UniqueFingerprints(hosts: map<HostKey, Host>) {
    forall j, k :: j in hosts && k in hosts && j != k && j.site == k.site ==>
      hosts[j].fingerprint != hosts[k].fingerprint
  }

  /** An accepted enrollment makes a second row with one fingerprint if and only if another host name of the site
      already has it: the row is found by name, never by fingerprint. */
  lemma EnrollDuplicatesIff(t: Tables, token: TokenId, host: string, fingerprint: string, now: int)
    requires UniqueFingerprints(t.hosts) && EnrollAlone(t, token, host, fingerprint, now).1.Created?
    ensures var (t', outcome) := EnrollAlone(t, token, host, fingerprint, now);
            UniqueFingerprints(t'.hosts) <==> !OtherHas(t.hosts, HostKey(outcome.site, host), fingerprint)
  {
    var (t', outcome) := EnrollAlone(t, token, host, fingerprint, now);
    var key := HostKey(outcome.site, host);
    assert key in t'.hosts && t'.hosts[key].fingerprint == fingerprint;
    assert forall k :: k != key ==> (k in t'.hosts <==> k in t.hosts) && (k in t.hosts ==> t'.hosts[k] == t.hosts[k]);
    if k :| k in t.hosts && k != key && k.site == key.site && t.hosts[k].fingerprint == fingerprint {
      assert t'.hosts[k].fingerprint == t'.hosts[key].fingerprint;
    }
  }

  /** One machine that enrolls under a name and, renamed, under another leaves two rows. */
  lemma RenamedHostIsDuplicated()
    ensures var row := Token("s", 2, 0, 10, false);
            var t1 := EnrollAlone(Tables(map["t" := row], map[], 0), "t", "old", "fp", 1).0;
            var t2 := EnrollAlone(t1, "t", "new", "fp", 2).0;
            t2.hosts == map[HostKey("s", "old") := Host(0, "fp"), HostKey("s", "new") := Host(1, "fp")]
  {
  }

  class Server {
    var tokens: map<TokenId, Token>
    var hosts: map<HostKey, Host>
    var nextHost: nat

    constructor (table: map<TokenId, Token>)
      ensures View() == Tables(table, map[], 0)
    {
      tokens, hosts, nextHost := table, map[], 0;
    }

    function View(): Tables reads this { Tables(tokens, hosts, nextHost) }

    /** The handler: required fields, the locked row, the three tests, the increment, the upsert. */
    method Enroll(token: TokenId, host: string, fingerprint: string, now: int) returns (r: Outcome)
      modifies this
      ensures if token == "" || host == "" || fingerprint == "" then r == BadRequest && View() == old(View())
              else (View(), r) == EnrollAlone(old(View()), token, host, fingerprint, now)
    {
      if token == "" || host == "" || fingerprint == "" {
        return BadRequest;
      }
      if token !in tokens {
        return Refused(UnknownToken);
      }
      var row := tokens[token];
      if row.revoked {
        return Refused(Revoked);
      }
      if now > row.expires {
        return Refused(Expired);
      }
      if row.used >= row.maxUses {
        return Refused(Exhausted);
      }
      tokens := tokens[token := row.(used := row.used + 1)];
      var key := HostKey(row.site, host);
      if key in hosts {
        hosts := hosts[key := hosts[key].(fingerprint := fingerprint)];
      } else {
        hosts := hosts[key := Host(nextHost, fingerprint)];
        nextHost := nextHost + 1;
      }
      r := Created(row.site, hosts[key].id);
    }

    /** The handler that creates a token: defaults, limits, and the row, unless the unique index refuses it. */
    method CreateToken(owner: Owner, token: TokenId, site: string, uses: int, ttlHours: int, now: int)
      returns (created: bool)
      modifies this`tokens
      ensures var row := NewToken(owner, site, uses, ttlHours, now);
              && created == (row.Some? && token !in old(tokens))
              && tokens == if created then old(tokens)[token := row.value] else old(tokens)
    {
      var ttl := ttlHours;
      if ttl <= 0 {
        ttl := if owner.Agents? then 24 else 72;
      }
      if ttl > 24 * 30 {
        return false;
      }
      var most := uses;
      if most <= 0 {
        most := 1;
      }
      if most > (if owner.Agents? then 100 else 50) {
        return false;
      }
      if token in tokens {
        return false;
      }
      tokens := tokens[token := Token(site, most, 0, now + ttl * HOUR, false)];
      return true;
    }

    /** UPDATE ... SET revoked_at WHERE revoked_at IS NULL */
    method RevokeToken(token: TokenId) returns (affected: nat)
      modifies this`tokens
      ensures affected == if token in old(tokens) && !old(tokens)[token].revoked then 1 else 0
      ensures tokens == if affected == 1 then old(tokens)[token := old(tokens)[token].(revoked := true)]
              else old(tokens)
    {
      affected := 0;
      if token in tokens && !tokens[token].revoked {
        tokens := tokens[token := tokens[token].(revoked := true)];
        affected := 1;
      }
    }
  }

  /** The first half of a request: up to the checks. */
  function Admission(s: State, tx: TxId, token: TokenId, host: string, fingerprint: string): State {
    Next(Next(Next(s, Begin(tx, token, host, fingerprint)), Lock(tx)), Check(tx))
  }

  /** The second half: the writes. */
  function Writes(s: State, tx: TxId): State {
    Next(Next(Next(s, Increment(tx)), Upsert(tx)), Commit(tx))
  }

  lemma Admitted(s: State, tx: TxId, token: TokenId, host: string, fingerprint: string)
    requires tx !in s.requests && token !in s.locks
    ensures var s' := Admission(s, tx, token, host, fingerprint);
            && TablesOf(s') == TablesOf(s) && s'.enrolled == s.enrolled && tx in s'.requests
            && var r := s'.requests[tx];
               && r.token == token && r.host == host && r.fingerprint == fingerprint
               && r.stage == (if token !in s.tokens then Denied(UnknownToken)
                              else match Verdict(s.tokens[token], s.now)
                                   case Some(reason) => Denied(reason)
                                   case None => Checked(s.tokens[token]))
  {
    var s1 := Next(s, Begin(tx, token, host, fingerprint));
    var s2 := Next(s1, Lock(tx));
    assert token in s.tokens ==> s2 == At(s1, tx, Locked(s.tokens[token])).(locks := s1.locks[token := tx]);
  }

  lemma Written(s: State, tx: TxId)
    requires In(s, tx) && s.requests[tx].stage.Checked? && s.requests[tx].token in s.enrolled
    ensures var r := s.requests[tx];
            var row := s.tokens[r.token];
            TablesOf(Writes(s, tx))
            == WithHost(TablesOf(s).(tokens := s.tokens[r.token := row.(used := row.used + 1)]),
                        HostKey(r.stage.seen.site, r.host), r.fingerprint)
  {
    var r := s.requests[tx];
    var s1 := Next(s, Increment(tx));
    assert s1 == At(s, tx, Counted(r.stage.seen, s.tokens[r.token].used + 1));
    var s2 := Next(s1, Upsert(tx));
    assert s2.requests[tx].stage == Upserted(r.stage.seen, s.tokens[r.token].used + 1);
  }

  lemma NotWritten(s: State, tx: TxId)
    requires tx in s.requests && s.requests[tx].stage.Denied?
    ensures Writes(s, tx) == s
  {
  }

  /** A request whose steps nobody interleaves with does to the tables what the handler does. */
  lemma AloneIsEnroll(s: State, tx: TxId, token: TokenId, host: string, fingerprint: string)
    requires Safe(s) && tx !in s.requests && token !in s.locks
    ensures TablesOf(Writes(Admission(s, tx, token, host, fingerprint), tx))
         == EnrollAlone(TablesOf(s), token, host, fingerprint, s.now).0
  {
    Admitted(s, tx, token, host, fingerprint);
    assert CountsOk(s, token);
    if token in s.tokens && Verdict(s.tokens[token], s.now).None? {
      Written(Admission(s, tx, token, host, fingerprint), tx);
    } else {
      NotWritten(Admission(s, tx, token, host, fingerprint), tx);
    }
  }
}
