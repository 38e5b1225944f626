# ScanRay Sonar: a verified model of its reconcilers and protocols

This project models the stateful core of ScanRay Sonar, a network and endpoint monitor written in Go, and proves
properties of it in Dafny. `dafny verify dfyconfig.toml` checks everything.

| file | models |
|---|---|
| `Text.dfy` | Go string operations the other files use |
| `MiniExpr.dfy` | the alarm rule expression language: regular expression, evaluator, printer and meaning |
| `AlarmCore.dfy`, `AlarmProtocol.dfy` | dedup keys, hysteresis state and alarms table; every interleaving of the alarm engine with traps, operators, rule refreshes, retention and restarts |
| `AlarmDwell.dfy`, `AlarmLifecycle.dfy` | how fast alarms can reopen; the life of a row and the meaning of the hysteresis state over whole runs |
| `AlarmLog.dfy` | the alarms table against the log of openings and clears |
| `AlarmEngine.dfy` | the engine as written, with its objects, and its refinement of the protocol |
| `PassiveSnmp.dfy`, `PassiveHistory.dfy`, `FeedTrim.dfy` | the passive inventory merge and its change feed, one transaction and over every run; what the trim keeps |
| `Enrollment.dfy` | enrollment tokens under concurrent transactions with a row lock |
| `Versions.dfy`, `Compliance.dfy`, `ComplianceStore.dfy` | version order, posture evaluation, and the reconciliation of stored findings |
| `Workers.dfy`, `Semaphore.dfy`, `Counters.dfy` | poll workers, the shared 50-slot semaphore, and rates from 64-bit counters |
| `Topology.dfy`, `TopologyLinks.dfy`, `TopologyBuilder.dfy` | the topology graph, the WAN, VPN and tunnel links, and the producers that fill it |
| `NetFlow.dfy`, `FlowBuffer.dfy` | the NetFlow v5 decoder and the batch buffer behind it |
| `InsertionSort.dfy`, `HostGraph.dfy` | the hand-written sort and the per-host network graph |

A SQL statement is one atomic step on a map of rows. Time is a non-decreasing integer in nanoseconds. Walking a Go map
picks an arbitrary element each time. A message subscription is a serial thread. Where a value comes from outside (a
clock, a failing INSERT, credentials that open or not, the embedded CVE map, the result of an out-of-range conversion)
it is a parameter, and the theorems hold for every value of it.

Code that updates things in place is a class or a method proved against a function on values; the theorems about whole
runs are about those functions. The alarm engine and the enrollment handler exist twice, as the handler that runs alone
and as small steps that interleave, and `AlarmEngine.UninterruptedHandler` and `Enrollment.AloneIsEnroll` connect the two.

## Main results

- Alarms: at most one open alarm per key in every interleaving (`AlarmProtocol.AtMostOneOpen`), the dwell bound
  (`AlarmDwell.Dwell`, `AlarmDwell.OpeningsBounded`), the hysteresis state as a function of the whole sample history
  (`AlarmLifecycle.TransitionNeedsWindow`), the life of a row (`AlarmLifecycle.RowLife`, `AlarmLog.RowsAreTold`), and
  the engine's methods as a refinement of the protocol (`AlarmEngine.UninterruptedHandler`).
- Rule expressions: print, parse and evaluate (`MiniExpr.ParsePrint`, `MiniExpr.EvalPrinted`) and the exact limit of
  string literals (`MiniExpr.LiteralEvaluatesIff`).
- Passive inventory: order independence, feed replay, the event language, and retirement on exactly the R-th miss
  (`PassiveHistory`); exactly which entries are safe from the trim (`FeedTrim.SafeInRunIff`).
- Enrollment: token conservation, also for tokens created on the way, and no enrollment after a revoke (`Enrollment.TokenConservation`,
  `Enrollment.NoEnrollAfterRevoke`).
- Compliance: monotone score and severity (`Compliance.WorseNeverScoresHigher`), version order
  (`Versions.VersionOrder`), reconciliation from any table (`ComplianceStore.Reconcile`,
  `ComplianceStore.SecondPersistQuiet`), and transactions that fail on a foreign key (`ComplianceStore.Store.Persist`).
- Polling: worker safety (`Workers.AtMostOneWorker`, `Workers.ReconcilePerAppliance`), the semaphore
  (`Semaphore.NeverMoreThanFifty`, `Semaphore.ReleasedExactlyOnce`), counters (`Counters.PublishedRate`, `Counters.RatesCountGrowth`).
- Topology: well-formed responses (`TopologyBuilder.Build`), links as the join of their reports
  (`Topology.EdgeIsJoin`), and every other edge traced to its uplink, peer or tunnel (`TopologyBuilder.ResponseLinks`).
- Flows: the decoder inverts an encoder and is inverted by it (`NetFlow.DecodeEncode`, `NetFlow.EncodeDecode`); no row is
  duplicated, reordered or forgotten (`FlowBuffer.RunAccounted`).
- Host graph: totals are conserved (`HostGraph.TotalsConserved`) and the sort is a stable sort for every strict weak
  order (`InsertionSort.SortIsStable`).

## Where the code and its documentation differ

The model follows the code.

- `internal/poller/scheduler.go:196` logs that a worker whose credentials fail is retried by the next reconcile. The
  cancelled handle stays in the map with the same interval, so it is skipped (`Workers.FailedWorkerIsNotRetried`, `Workers.FailedWorkerStaysDead`); the exact
  condition for a live worker is `Workers.CentralLiveIff`.
- `internal/poller/scheduler.go:311-315` says implausible rates are dropped. A rate of 2^64 or more does not reach that
  test, because the conversion to uint64 is out of range first (`Counters.PublishedRate`, `Counters.ResetMayPublishZero`).
- `internal/alarms/miniexpr.go:10`: the number class contains the range from `+` to `e`, so letters, operators and
  punctuation match there and are refused later, when the number is parsed.
- `internal/alarms/miniexpr.go:54`: the empty string literal is treated as a missing one (`MiniExpr.EmptyLiteralFails`).
- `internal/api/handlers_agents.go:320-323` describes an upsert by fingerprint; the statement is keyed by site and host name,
  so a renamed machine gets a second row (`Enrollment.RenamedHostIsDuplicated`), exactly when another name has its fingerprint
  (`Enrollment.EnrollDuplicatesIff`).
- `internal/api/handlers_passive_snmp.go:99-100` says the feed keeps the most recent 500 entries. By time it does
  (`FeedTrim.TrimKeepsNewest`), but all entries of a merge have one time and the database picks among them: an entry is
  safe exactly when at most 500 are as new as it (`FeedTrim.SafeInRunIff`), and in a first capture of 501 devices none is
  (`FeedTrim.FirstCaptureLosesEntry`).
- `internal/api/handlers_agent_telemetry.go:1253-1254` promises a stable order of peers. The comparison ignores the direction,
  so an address with equally many connections both ways comes out in the order of the map walk; the order is stable exactly
  when there is no such address (`HostGraph.PeerOrderStableIff`).
- `internal/compliance/evaluator.go:21-30`: `minVersion` is part of the CVE map but is never compared.
- `internal/compliance/evaluator.go:323-330`: an open row that is kept is not updated, so its severity and detail stay
  those of the day it was inserted (`ComplianceStore.OnlyRowIsKept`).

## Model

| member | source | states |
|---|---|---|
| `MiniExpr.EvalMini` | internal/alarms/miniexpr.go:18-34 | the loop with early return computes `Truth`: trimmed text, the three literal texts, then the clauses in order up to the first that is false or fails |
| `MiniExpr.ParsePrint` | internal/alarms/miniexpr.go:10-28 | parsing the printed text of any clause list of the grammar gives exactly that list back, clause by clause |
| `MiniExpr.ParseFloatOfDecimal` | internal/alarms/miniexpr.go:68-71 | a plain decimal is read as the number it writes |
| `MiniExpr.EvalPrinted` | internal/alarms/miniexpr.go:18-73 | on every printed clause list whose string literals are non-empty and free of `"` and `&&` and whose numbers are plain decimals, the evaluator is left-to-right short-circuit conjunction, including which error comes first |
| `MiniExpr.LiteralEvaluatesIff` | internal/alarms/miniexpr.go:26-59 | against a string field a quote-free literal evaluates without an error if and only if it is non-empty and has no `&&`: the exact limit of the grammar |
| `MiniExpr.AmpersandLiteralFails` | internal/alarms/miniexpr.go:26-39 | a literal with `&&` in it is cut there and is always an unsupported clause |
| `MiniExpr.EmptyLiteralFails` | internal/alarms/miniexpr.go:54-67 | the empty literal `""` falls through to the numeric path and fails there |
| `AlarmCore.DedupKeyInjective` | internal/alarms/engine.go:305 | rule, target kind and target can be read back from a dedup key |
| `AlarmCore.OwnerOfDedupKey` | internal/alarms/engine.go:99-101 | the key of a metric alarm names the one subscription that can produce it |
| `AlarmCore.OwnerOfTrapKey` | internal/poller/traps.go:71 | no metric subscription can produce a trap key |
| `AlarmCore.PendingIsLastRun` | internal/alarms/engine.go:301-323 | the incremental hysteresis state is the time of the first sample of the maximal suffix of equal samples, with exactly one field set |
| `AlarmProtocol.NextSafe` | internal/alarms/engine.go:288-411 | every step of every actor keeps: one open row per key, log and table agree, openings and clears alternate, and no handler about to insert has an open row for its key |
| `AlarmProtocol.RunSafe` | internal/alarms/engine.go:81-103 | the same for every interleaving of the three subscriptions, traps, manual acks and clears, rule refreshes, pruning and restarts |
| `AlarmProtocol.AtMostOneOpen` | internal/alarms/engine.go:340-362 | in every interleaving at SQL-statement granularity a dedup key has at most one alarm with `cleared_at` NULL, although opening is a COUNT followed by an INSERT |
| `AlarmProtocol.TrapSafe` | internal/poller/traps.go:71-87 | a trap insert keeps that invariant for every handler in flight, because its key belongs to none of them |
| `AlarmProtocol.ByHandSafe` | internal/api/handlers_alarms_lifecycle.go:56-59 | a manual clear between the COUNT and the INSERT of a handler keeps it too |
| `AlarmDwell.NextTimely` | internal/alarms/engine.go:301-325 | every step keeps the timing invariant: a handler about to act has seen its whole window since the last event of its key |
| `AlarmDwell.RunTimely` | internal/alarms/engine.go:288-327 | the timing invariant holds in every run |
| `AlarmDwell.Dwell` | internal/alarms/engine.go:307-325 | in every run two consecutive openings of a key with no manual clear between them have exactly one event of the key between them, an automatic clear, and are at least its clear window plus the second for window apart; the windows are those of the rule snapshots that acted |
| `AlarmDwell.NextHolds` | internal/alarms/engine.go:288-325 | every step, with refreshes that give a rule windows of at least F and C, keeps: each opening and automatic clear of the rule's key was held at least that long, also by a handler still at an older snapshot |
| `AlarmDwell.OpeningsBounded` | internal/alarms/engine.go:288-325 | if every refresh in the run gives the rule windows of at least F and C, F + C > 0, a span of length T without a manual clear of a target's key holds at most 1 + T/(F+C) openings of it |
| `AlarmDwell.OpeningBetweenClears` | internal/alarms/engine.go:385-395 | between two clears of a key there is an opening of it |
| `AlarmLifecycle.RunMatchesHistory` | internal/alarms/engine.go:44-50 | in every run the state kept in memory for a key equals the fold of all its samples since the engine started |
| `AlarmLifecycle.TransitionNeedsWindow` | internal/alarms/engine.go:301-338 | the engine opens (clears) only when the full sample history of the key ends in a truthy (falsy) run that spans the window from its first sample to its last |
| `AlarmLifecycle.StepEvolves` | internal/api/handlers_alarms_lifecycle.go:24-59 | no step changes a cleared row, replaces an acknowledgement or reuses an id |
| `AlarmLifecycle.RowLife` | internal/api/handlers_alarms_lifecycle.go:24-59 | over every run and every continuation a row is cleared at most once, its first ack sticks, no row is acked after clearing, and opened <= acked <= cleared |
| `AlarmLifecycle.ManualClearReopensAtOnce` | internal/api/handlers_alarms_lifecycle.go:56-59 | why the dwell bound excludes manual clears: a run in which a rule with windows of one second opens twice at the same instant |
| `AlarmLog.RowsAreTold` | internal/alarms/engine.go:340-395 | in every run each row has its opening in the log under its id, key and time, and its clear is the next event of that key, at the row's clear time, automatic or by an operator as the row says |
| `AlarmLog.ManualTold` | internal/api/handlers_alarms_lifecycle.go:56-59 | a manual clear of one row leaves the story of every other row as it was |
| `AlarmEngine.Engine.Evaluate` | internal/alarms/engine.go:288-327 | the loop over a rule snapshot, with the in-place state per key and the open and clear statements, computes `RulesStep` on memory and table |
| `AlarmEngine.Engine.RefreshRules` | internal/alarms/engine.go:105-137 | the loop loads the readable rows in order and swaps the slice as a whole; a failed query keeps the rules; states and table do not change |
| `AlarmEngine.RefreshIsStep` | internal/alarms/engine.go:105-137 | refreshing is the protocol's refresh step |
| `AlarmEngine.Engine.PendingFor` | internal/alarms/engine.go:329-338 | the state object of a key is created on first use, shared with no other key, and no other state changes |
| `AlarmEngine.Engine.Record` | internal/alarms/engine.go:306-320 | the in-place update of one state changes that key only |
| `AlarmEngine.Engine.Decide` | internal/alarms/engine.go:312-325 | the window test and the statement it leads to |
| `AlarmEngine.Engine.MaybeOpen` | internal/alarms/engine.go:340-362 | COUNT then INSERT, uninterrupted, is insert-if-none-open |
| `AlarmEngine.Engine.MaybeAutoClear` | internal/alarms/engine.go:385-395 | the clearing UPDATE on the key |
| `AlarmEngine.AlarmsTable.Acknowledge` | internal/api/handlers_alarms_lifecycle.go:24-42 | the acknowledging UPDATE and the number of rows it affects |
| `AlarmEngine.AlarmsTable.ClearByHand` | internal/api/handlers_alarms_lifecycle.go:56-67 | the clearing UPDATE and the number of rows it affects |
| `AlarmEngine.UninterruptedRule` | internal/alarms/engine.go:294-326 | one pass of the loop is a sequence of protocol steps with the same effect |
| `AlarmEngine.UninterruptedHandler` | internal/alarms/engine.go:288-327 | a handler that is not interrupted takes the protocol to exactly the memory and table that `Evaluate` leaves: the method and the interleaved protocol are the same program |
| `PassiveSnmp.SiteStore.Merge` | internal/api/handlers_passive_snmp.go:101-252 | the transaction as written (loop over `seen` in any order, bulk miss update, retire loop in any order, feed inserts) gives every address the row and the events of a per-address function of old row, batch entry and threshold; the last duplicate in the batch wins |
| `PassiveSnmp.SiteStore.SeeAll` | internal/api/handlers_passive_snmp.go:113-179 | the upsert loop, for every order of the map walk |
| `PassiveSnmp.SiteStore.CountMisses` | internal/api/handlers_passive_snmp.go:183-191 | the bulk UPDATE of absent active rows |
| `PassiveSnmp.SiteStore.RetireRows` | internal/api/handlers_passive_snmp.go:193-238 | the retire loop, for every order of the rows |
| `PassiveSnmp.LoadBatch` | internal/api/handlers_passive_snmp.go:108-111 | the batch map keeps the last entry of an address |
| `PassiveSnmp.MergeAgrees` | internal/api/handlers_passive_snmp.go:113-238 | the three statements together are the per-address function; a row seen in the batch never retires in that merge |
| `PassiveHistory.OrderIndependent` | internal/api/handlers_passive_snmp.go:113-238 | all walks over the same batch leave the same inventory and the same multiset of events |
| `PassiveHistory.ReplayReproduces` | internal/api/handlers_passive_snmp.go:113-238 | from an empty inventory, folding the untrimmed feed reproduces every row's status after every run |
| `PassiveHistory.FeedLanguage` | internal/api/handlers_passive_snmp.go:157-179 | per address the events form `added changed* (retired reactivated changed*)* retired?`, and the word ends where the row stands |
| `PassiveHistory.MissesCountAbsences` | internal/api/handlers_passive_snmp.go:181-197 | rows are exactly the addresses ever captured; an active row's miss count is its number of consecutive absences and below the threshold of the last merge |
| `PassiveHistory.RetiredIffAbsent` | internal/api/handlers_passive_snmp.go:193-232 | with a constant threshold R a row is retired if and only if it has been absent R or more merges in a row |
| `PassiveHistory.RetiresOnRthMiss` | internal/api/handlers_passive_snmp.go:193-238 | with a constant threshold R the retire event is written on exactly the R-th consecutive miss |
| `PassiveHistory.FieldsAreLastCaptured` | internal/api/handlers_passive_snmp.go:138-148 | every stored field is the last text captured for it, so a non-empty field never becomes empty |
| `PassiveHistory.SeenTimes` | internal/api/handlers_passive_snmp.go:130-148 | a row's first-seen time is that of the first merge with the address and never moves; its last-seen time is that of the last |
| `PassiveHistory.ChangedIff` | internal/api/handlers_passive_snmp.go:168-178 | `changed` is written if and only if the stored vendor, type or description of an already active row really changes |
| `FeedTrim.TrimKeepsNewest` | internal/api/handlers_passive_snmp.go:240-249 | after every run with trimming nothing dropped is newer than anything kept, at most 500 entries are kept, and nothing is dropped while fewer are |
| `FeedTrim.SafeInTrimIff` | internal/api/handlers_passive_snmp.go:240-249 | one trim, whatever the database picks among equal times: a candidate is kept for certain if and only if at most 500 candidates are as new as it |
| `FeedTrim.SafeInRunIff` | internal/api/handlers_passive_snmp.go:240-249 | over every run: an entry is certain to be stored at the end if and only if at most 500 of all entries ever written are as new as it |
| `FeedTrim.FirstCaptureLosesEntry` | internal/api/handlers_passive_snmp.go:240-249 | in a first capture of any more than 500 different addresses, all written at one time, any of them can lose its only entry in that transaction |
| `FeedTrim.TrimKeepsLatest` | internal/api/handlers_passive_snmp.go:240-249 | an address with an older entry in the trimmed feed has its latest one too, and the latest tells the row's status |
| `FeedTrim.DistinctTimesKeepLatest` | internal/api/handlers_passive_snmp.go:240-249 | when no two merges have the same time, an address with any entry in the trimmed feed has its latest one |
| `Enrollment.NextSafe` | internal/api/handlers_agents.go:285-356 | every step of every transaction, a revoke and a new token keep the token invariant |
| `Enrollment.TokenConservation` | internal/api/handlers_agents.go:285-356 | in every interleaving of new tokens, concurrent enrolls, rollbacks and revokes, for every token there is, `used_count` equals the committed enrollments and never exceeds `max_uses`, which never changes, and issued JWTs never exceed `used_count` |
| `Enrollment.NewToken` | internal/api/handlers_agents.go:67-78 | a new token has between 1 and the limit of uses, none used, and expires after now and within 30 days |
| `Enrollment.Server.CreateToken` | internal/api/handlers_agents.go:67-107 | the handler that creates a token: defaults, limits, and the row |
| `Enrollment.MintSafe` | internal/api/handlers_collectors.go:72-105 | a new token keeps the invariant while other enrollments are in progress |
| `Enrollment.NoEnrollAfterRevoke` | internal/api/handlers_agents.go:217-226 | after a committed revoke no enrollment of the token commits any more, in any continuation, and the row does not change |
| `Enrollment.CommitRecordsHost` | internal/api/handlers_agents.go:314-350 | a commit counts exactly one more use and records the host under its site and name with the new fingerprint; no other row changes |
| `Enrollment.HostsKeepIds` | internal/api/handlers_agents.go:324-338 | enrolling a host again keeps its row: one row per (site, host name), with the id it got first |
| `Enrollment.EnrollDuplicatesIff` | internal/api/handlers_agents.go:320-338 | an accepted enrollment leaves two rows of a site with one fingerprint if and only if another host name of the site already had it |
| `Enrollment.RenamedHostIsDuplicated` | internal/api/handlers_agents.go:320-338 | one machine that enrolls under two names leaves two rows |
| `Enrollment.Server.Enroll` | internal/api/handlers_agents.go:255-350 | one handler call: the required fields, the locked row, the three tests in order, the increment and the upsert |
| `Enrollment.Server.RevokeToken` | internal/api/handlers_agents.go:217-226 | the revoking UPDATE and the number of rows it affects |
| `Enrollment.AloneIsEnroll` | internal/api/handlers_agents.go:255-350 | a request with which nothing interleaves takes the protocol to the tables that the handler call leaves |
| `Enrollment.RevokeSafe` | internal/api/handlers_collectors.go:270-279 | a revoke keeps the invariant; the collector handlers run this same protocol on their own tables |
| `Enrollment.CommitSafe` | internal/api/handlers_collectors.go:333-390 | the commit of the increment and the upsert keeps the invariant |
| `Versions.PrintedVersion` | internal/compliance/evaluator.go:267-286 | a dotted list of numbers that fit in an int64 is read back exactly |
| `Versions.ParseVer` | internal/compliance/evaluator.go:267-286 | the two nested loops compute the components, with 64-bit wrap-around |
| `Versions.VersionLTE` | internal/compliance/evaluator.go:242-265 | the comparison loop decides the lexicographic order of the zero-padded components |
| `Versions.VersionOrder` | internal/compliance/evaluator.go:242-265 | `versionLTE` is a total preorder on all texts, and two texts are equivalent if and only if their padded components agree |
| `Compliance.Evaluate` | internal/compliance/evaluator.go:90-201 | the issues, the deduplicated vulnerabilities, the score max(0, 100 - penalties) and a severity that is that of the first issue of maximal rank |
| `Compliance.SeverityOf` | internal/compliance/evaluator.go:191-199 | the severity loop finds the first issue of maximal rank, or `info` |
| `Compliance.WorstIsMaxRank` | internal/compliance/evaluator.go:191-199 | the returned severity has the highest rank of all issues |
| `Compliance.ScoreOf` | internal/compliance/evaluator.go:173-190 | the penalty loop |
| `Compliance.HasCriticalPatch` | internal/compliance/evaluator.go:203-211 | true if and only if some patch is critical or important |
| `Compliance.DedupeVulns` | internal/compliance/evaluator.go:228-239 | the loop with the seen set keeps the first record of each id |
| `Compliance.DedupeKeepsFirsts` | internal/compliance/evaluator.go:228-239 | the result has no id twice, the same ids, and the first record of each |
| `Compliance.VulnsMatchCodes` | internal/compliance/evaluator.go:114-147 | the reported CVE ids are exactly the issue codes that start with `cve:`, stripped of it |
| `Compliance.WorseNeverScoresHigher` | internal/compliance/evaluator.go:90-201 | more patches or apps in any order, a higher missing-patch count, more bad signals: the score never rises and the highest severity rank never falls |
| `Compliance.UpgradeNeverScoresLower` | internal/compliance/evaluator.go:132-147 | replacing an installed app by a version that compares at least as high never lowers the score and never raises the rank of the severity |
| `ComplianceStore.Reconcile` | internal/compliance/evaluator.go:304-341 | from any table, for any order of open rows and of left-over keys: exactly one open row per wanted key and no other open rows, rows only cleared or kept, inserts only for keys with no open row (so the unique index accepts them), `changed` if and only if a row changed; it fails if and only if something is wanted for an agent that has no row |
| `ComplianceStore.OnlyRowIsKept` | internal/compliance/evaluator.go:323-330 | the only open row of a wanted key stays exactly as it was |
| `ComplianceStore.OthersUntouched` | internal/compliance/evaluator.go:323-341 | rows of other agents and rows already cleared are never touched |
| `ComplianceStore.ReconcileTwice` | internal/compliance/evaluator.go:304-341 | reconciling again with the same wish changes no row |
| `ComplianceStore.SecondPersistQuiet` | internal/compliance/evaluator.go:290-402 | a second identical committed `Persist` changes no row and never returns `changed` |
| `ComplianceStore.OpenCvesMatchCodes` | internal/compliance/evaluator.go:416-421 | after `EvaluateAndPersist` the open CVE ids are the open issue codes with `cve:` stripped |
| `ComplianceStore.Store.Persist` | internal/compliance/evaluator.go:290-402 | the whole transaction: exactly when it commits, both tables reconciled, the agent columns replaced and the exact value of `changed`; otherwise everything as it was |
| `ComplianceStore.Store.EvaluateAndPersist` | internal/compliance/evaluator.go:416-430 | evaluation, transaction and the event that is emitted exactly when something changed; nothing when the transaction fails |
| `ComplianceStore.ReferencesKept` | internal/db/migrations/0027_agent_dex_platform.up.sql:220-249 | what is stored always belongs to an agent that exists |
| `ComplianceStore.NormalizeSev` | internal/compliance/evaluator.go:404-413 | every stored severity satisfies the CHECK constraint |
| `ComplianceStore.CategoriesAllowed` | internal/db/migrations/0027_agent_dex_platform.up.sql:220-231 | every category Evaluate produces satisfies the CHECK constraint |
| `Workers.Scheduler.Reconcile` | internal/poller/scheduler.go:129-186 | the loops over rows and workers compute `Reconciled`; a failed query changes nothing, an unreadable row counts as not seen |
| `Workers.Scheduler.StartWorker` | internal/poller/scheduler.go:188-204 | a new context and handle; on the central side the goroutine starts only if the credentials open |
| `Workers.NextKeeps` | internal/poller/scheduler.go:129-204 | every reconcile, return of a goroutine and shutdown keeps: live goroutines are exactly those their handles point to |
| `Workers.AtMostOneWorker` | internal/poller/scheduler.go:159-174 | in every run an appliance has at most one worker that is not cancelled, at an interval of at least 15 seconds |
| `Workers.ReconcilePerAppliance` | internal/poller/scheduler.go:129-186 | reconciling acts on every appliance separately: its status depends on its former status and its own rows only |
| `Workers.CentralWithinTable` | internal/poller/scheduler.go:143-186 | after a successful reconcile the handles are exactly the readable rows and every live worker is among them |
| `Workers.CentralLiveIff` | internal/poller/scheduler.go:159-204 | exactly when a reconcile leaves a live central worker: live before at this interval, or started afresh with credentials that open |
| `Workers.FailedWorkerStaysDead` | internal/poller/scheduler.go:167-201 | a worker whose credentials failed is not retried as long as its row stays listed with the same interval, in any number of reconciles |
| `Workers.FailedWorkerIsNotRetried` | internal/poller/scheduler.go:167-201 | a run that gets there: the credentials do not open at the first reconcile and open at the second, and no worker runs |
| `Workers.CollectorMatchesTargets` | internal/collector/snmp_poller.go:82-143 | after a successful reconcile the live workers of the collector are exactly its target list |
| `Workers.IntervalFloor` | internal/collector/snmp_poller.go:71-80 | intervals are never below 15 seconds, in 64-bit arithmetic, and are the requested seconds within range |
| `Semaphore.NextBalanced` | internal/poller/scheduler.go:232-267 | every step of a poll or check keeps: the tokens in the channel are the tasks that have sent one and not received it back |
| `Semaphore.NeverMoreThanFifty` | internal/poller/scheduler.go:39-39 | polls and checks together never hold more than 50 slots |
| `Semaphore.ReleasedExactlyOnce` | internal/poller/scheduler.go:238-243 | with the send, the deferring, the return and the deferred receive as separate steps: in every run a function that has returned sent and received equally often, at most once |
| `Semaphore.NeverReleasedEarly` | internal/poller/scheduler.go:243-267 | while it works it has sent once and not received |
| `Semaphore.ReleaseNeverBlocks` | internal/poller/checks.go:107-112 | whenever a deferred receive is due its step is possible |
| `Semaphore.NoSlotLeaks` | internal/poller/checks.go:107-112 | when every function is waiting or has returned, all slots are free |
| `Semaphore.TakeBlockedIff` | internal/poller/scheduler.go:238-242 | a waiting task can take a slot if and only if fewer than 50 are held |
| `Counters.DeltaIsIncrement` | internal/poller/scheduler.go:359-359 | `cur - prev` on uint64 is the true increment across wraps if and only if that increment is below 2^64 |
| `Counters.DeltasTelescope` | internal/poller/scheduler.go:359-359 | over any run of readings the deltas add up to the total growth |
| `Counters.PublishedRate` | internal/poller/scheduler.go:356-366 | a published rate is at most 10^13, and is the exact rate rounded down if and only if that rate fits in a uint64; inside that range nothing is published exactly when it is implausible |
| `Counters.FitsWhenSlow` | internal/collector/snmp_poller.go:318-326 | with polls at least 8 seconds apart the rate always fits |
| `Counters.ResetMayPublishZero` | internal/poller/scheduler.go:356-366 | below 8 seconds it may not: a reset from 2^63 within one second publishes 0 where the out-of-range conversion yields 0 |
| `Counters.RateTracker.ComputeRates` | internal/poller/scheduler.go:316-354 | the in-place loop over a snapshot: every interface is rated against the readings stored before it, and the stored readings are those of the snapshot |
| `Counters.RatedAgainstPast` | internal/collector/snmp_poller.go:285-315 | no rate on a first sighting or without time passing; a repeated index in one snapshot gets none |
| `Counters.TracksLastReading` | internal/collector/snmp_poller.go:285-298 | after any run of snapshots the stored reading of a key is the last one ever seen for it |
| `Counters.DeltasArePairs` | internal/poller/scheduler.go:316-354 | over a run of snapshots the deltas the tracker takes for a key, rated or skipped, are those of that key's consecutive readings |
| `Counters.RatesCountGrowth` | internal/poller/scheduler.go:316-354 | over a run of snapshots the rated and the skipped deltas of a key add up to the true growth of its counter; where time always passes the rated ones alone do |
| `Topology.KeyIsPair` | internal/api/handlers_topology.go:272-276 | an edge key names the unordered pair of endpoints |
| `Topology.ReportedKeeps` | internal/api/handlers_topology.go:246-333 | `addEdge` keeps a graph well formed for every report |
| `Topology.MergeKeeps` | internal/api/handlers_topology.go:277-295 | a repeated report keeps it well formed |
| `Topology.UtilizationIsPercent` | internal/api/handlers_topology.go:427-452 | a utilization that is set lies in (0, 100] |
| `Topology.EdgeIsJoin` | internal/api/handlers_topology.go:277-305 | for every sequence of reports a link exists if and only if some report lands on it, its protocol is the join of its reports and `OperUp` is their disjunction |
| `Topology.EdgeEnds` | internal/api/handlers_topology.go:284-303 | an edge runs the way its first report says, and each end carries the first non-empty port named for it |
| `Topology.OrderDoesNotMatter` | internal/api/handlers_topology.go:277-305 | report sequences with the same reports, in any order and multiplicity, agree on every link's presence, protocol and state |
| `TopologyBuilder.Builder.AddEdge` | internal/api/handlers_topology.go:246-333 | the closure updates edges and foreign nodes as `Reported` says and keeps the invariant |
| `TopologyBuilder.Builder.MergeInto` | internal/api/handlers_topology.go:277-294 | the field updates on an edge that is already there |
| `TopologyBuilder.Builder.PutForeign` | internal/api/handlers_topology.go:310-332 | a foreign node is created by the report that creates its edge, or gets the phone tag |
| `TopologyBuilder.Builder.ResolvePeer` | internal/api/handlers_topology_extend.go:223-261 | exact name, else any soft match in any map order, else a foreign node that is created once |
| `TopologyBuilder.Builder.PutVpnEdge` | internal/api/handlers_topology_extend.go:263-286 | no edge from a node to itself; a repeated peer can only bring the edge up |
| `TopologyBuilder.Builder.AddUplinks` | internal/api/handlers_topology_extend.go:176-196 | the uplinks in order, those without an interface name skipped, each with its state |
| `TopologyBuilder.Builder.AddPeers` | internal/api/handlers_topology_extend.go:200-220 | the peers in order, each resolved by exact name, soft match or as a foreign node; unnamed ones and the appliance itself are skipped |
| `TopologyBuilder.Builder.AddTunnelStub` | internal/api/handlers_topology_extend.go:289-329 | the first tunnel that is up gives one edge, unless that edge exists |
| `TopologyBuilder.Builder.AddCandidates` | internal/api/handlers_topology_extend.go:108-163 | neighbor rows and ports in order, repeats of a key skipped |
| `TopologyBuilder.UplinkKeeps` | internal/api/handlers_topology_extend.go:176-196 | an uplink edge, also one that overwrites another, keeps the graph well formed |
| `TopologyBuilder.VpnKeeps` | internal/api/handlers_topology_extend.go:263-286 | resolving a peer and putting its edge together keep the graph well formed |
| `TopologyBuilder.BuildGraph` | internal/api/handlers_topology.go:335-384 | over all snapshots: a well-formed graph, the L2 edges those of the reports in order, and the other edges those of the uplinks, peers and tunnels in order |
| `TopologyBuilder.ResponseWellFormed` | internal/api/handlers_topology.go:386-399 | node ids are unique, every endpoint is a node, every foreign or cloud node has an edge, at most one L2 edge per unordered pair, utilization in (0, 100] |
| `TopologyBuilder.ResponseL2` | internal/api/handlers_topology.go:397-399 | the L2 edges of the response are exactly the links the reports name, each the join of its reports |
| `TopologyBuilder.ResponseL3` | internal/api/handlers_topology_extend.go:176-329 | every uplink, peer and tunnel call has its edge in the response, and every other edge that is not L2 has its call |
| `TopologyLinks.CallsAreNamed` | internal/api/handlers_topology_extend.go:166-329 | the calls are exactly what the snapshots name: each comes from an uplink, a peer or a tunnel with the state it reports, and each of those has its call, unless a peer is the appliance itself |
| `TopologyLinks.LinkState` | internal/api/handlers_topology_extend.go:176-329 | an uplink's edge is that of the last uplink of the appliance with its interface name, a peer's edge runs as first named and is up if and only if some call on it is, a tunnel's edge is up |
| `TopologyBuilder.ResponseLinks` | internal/api/handlers_topology_extend.go:166-329 | in the response of any snapshots: every uplink, named peer and tunnel has its edge in that state, and every edge that is not L2 comes from one of them |
| `TopologyBuilder.SortedResponse` | internal/api/handlers_topology.go:400-407 | sorting keeps the response well formed, its L2 edges the join of the reports and its other edges those of the calls |
| `TopologyBuilder.Build` | internal/api/handlers_topology.go:144-409 | for every set of snapshots, from rows to response: well formed, every appliance a node, L2 edges the join of the reports, all other edges those of the uplinks, peers and tunnels, nodes in strictly ascending order of ids, edges ordered by their ends |
| `NetFlow.ParseNetFlowV5` | internal/flows/netflow_v5.go:27-77 | the decoding loop, with its three errors |
| `NetFlow.DecodeEncode` | internal/flows/netflow_v5.go:27-77 | decoding inverts encoding for every record list, whatever the skipped bytes and whatever follows |
| `NetFlow.EncodeDecode` | internal/flows/netflow_v5.go:27-77 | every accepted packet is the encoding of what was decoded, followed by ignored bytes |
| `NetFlow.PrefixOrError` | internal/flows/netflow_v5.go:41-44 | trailing bytes are ignored, and a packet cut inside its records is an error, never a shorter list |
| `FlowBuffer.Listener.HandlePacket` | internal/flows/listener.go:82-114 | version dispatch, decode, append, flush at 500 |
| `FlowBuffer.Listener.Flush` | internal/flows/listener.go:123-145 | the batch is swapped out and inserted up to the first failure |
| `FlowBuffer.RunAccounted` | internal/flows/listener.go:82-145 | in every run the decoded rows are the flushed batches followed by the pending rows, and the table holds the kept prefix of each batch |
| `FlowBuffer.NothingLost` | internal/flows/listener.go:82-145 | in every run of packets and ticks without a failing insert the table followed by the pending rows is exactly what was decoded, in order |
| `FlowBuffer.RowsConserved` | internal/flows/listener.go:133-143 | decoded rows = rows in the table + pending rows + rows from a failed insert to the end of its batch |
| `FlowBuffer.PendingBounded` | internal/flows/listener.go:109-113 | after every event fewer than 500 rows are pending |
| `InsertionSort.SortFunc` | internal/api/handlers_agent_telemetry.go:1332-1338 | the adjacent-swap loops compute the sorted sequence in place |
| `InsertionSort.SortIsStable` | internal/api/handlers_agent_telemetry.go:1329-1338 | for any strict weak order the result is an ordered permutation that keeps tied elements in their order |
| `InsertionSort.ApartPermuted` | internal/api/handlers_topology.go:400-407 | a property of all pairs of positions survives any permutation |
| `HostGraph.OrdersAreStrictWeak` | internal/api/handlers_agent_telemetry.go:1310-1327 | the three comparisons used are strict weak orders |
| `HostGraph.Aggregate` | internal/api/handlers_agent_telemetry.go:1178-1244 | the nested in-place aggregation: one object per address and direction, each equal to the fold of its conversations |
| `HostGraph.NetPeer.Add` | internal/api/handlers_agent_telemetry.go:1210-1240 | one conversation merged into a peer |
| `HostGraph.NetworkGraph` | internal/api/handlers_agent_telemetry.go:1178-1261 | every peer once, in order, with sorted processes, the distinct process names sorted, and totals that add up to the counts of all conversations with a remote address |
| `HostGraph.PeerTotals` | internal/api/handlers_agent_telemetry.go:1212-1227 | a peer's total is the sum over its conversations and equals the sum of its process counts; each process is listed once |
| `HostGraph.ProcessesExact` | internal/api/handlers_agent_telemetry.go:1212-1226 | each listed count is the total of that process's conversations with the peer, and a process not listed has none |
| `HostGraph.PortsExact` | internal/api/handlers_agent_telemetry.go:1228-1240 | the ports are the positive remote ports of the peer's conversations, each once |
| `HostGraph.TotalsConserved` | internal/api/handlers_agent_telemetry.go:1180-1252 | the totals of all peers add up to the counts of all conversations that have a remote address |
| `HostGraph.ResponseOrdered` | internal/api/handlers_agent_telemetry.go:1250-1255 | peers and their processes come in order, and totals equal process counts after sorting |
| `HostGraph.PeerOrderStableIff` | internal/api/handlers_agent_telemetry.go:1245-1254 | the peer list is a function of the conversations, whatever the order of the map walk, if and only if no address has equally many connections in two directions |
| `HostGraph.BothDirectionsTie` | internal/api/handlers_agent_telemetry.go:1317-1324 | one conversation out to an address and one in from it with the same count are such a case |
| `HostGraph.NamesStable` | internal/api/handlers_agent_telemetry.go:1256-1260 | the process names always come in the same order |

## Left out

- HTTP, JSON, NATS delivery, websockets, SNMP and other probes, GeoIP and every other external library: inputs are values.
- Notification dispatch, audit records and alarm system events: best-effort side effects after the modelled steps.
- List and report handlers, settings, password hashing, JWT contents, roles and encryption: they would add only easy members.
- Severity, title, body and last value of alarms, and `summarizeTrapVars`: no modelled branch reads them.
- The COUNT of `maybeOpen` succeeds; the code ignores its error and would then insert.
- One engine process is running and one trap handler at a time; two engines or two trap handlers could each insert for one key.
- One clock serves the engine and the database.
- The query behind a rule refresh: any list of rows with distinct ids. The site of a rule is the text of a UUID column.
- String folding and upper-casing are those of ASCII letters; other characters are kept as they are.
- Floating-point rounding, infinities and range errors: numbers are exact reals.
- `ParseFloat` is modelled for decimal texts with an optional exponent; hexadecimal, underscore, `inf` and `nan` texts are refused by the model.
- The payload of feed events is the captured device and the three compared fields rather than their JSON text.
- Addresses are compared as given; two spellings of one address are two addresses.
- The trimmed feed is modelled as any set of 500 positions that the order by time allows; row ids and cascading deletes are not. Merges of one site do not overlap, and the clock does not go back between them.
- A failing statement inside the passive merge rolls the whole transaction back; those failures are not modelled.
- Two `Persist` calls for one agent at the same time: the unique index may refuse one insert, which is one of the failures that `healthy` stands for.
- Deleting agents, sites and, with a site, its tokens.
- A commit that fails after it took effect: an aborted enrollment has no effect in the model.
- Two transactions upserting the same host from different tokens: the upsert takes effect at commit, so waiting on the host row is not modelled.
- Enrollment stores id and fingerprint of a host; operating system, versions and timestamps are not.
- Worker goroutines are modelled by their context, interval and return; what a poll does inside is in `Semaphore` and `Counters`.
- Ticker delivery and fairness: nothing is said about when a waiting poll gets its slot.
- Error, discard and vendor counters are stored with a reading but no rate is computed from them, as in the code.
- Status, port counts, vendor, model and last-seen time of topology nodes: they are copied, no modelled branch reads them.
- The order of topology edges with the same ends: `sort.Slice` does not promise one, and the comparison ignores the family.
- Topology edges are values in the map rather than shared pointers; no edge is reachable from two keys in the code.
- `LinkKind.medium` of an edge reported more than once depends on the order of reports; nothing is claimed about it.
- GeoIP fields and `isPrivateIP` of a peer: they do not affect aggregation or order.
- Sums of connection counts do not wrap: they are unbounded integers.
- IPFIX records: the code reads the header only, and so does the model.
- Locks inside the flow listener: packets and flushes come from one goroutine.
- The encoder in `NetFlow` is not part of the repository; it is the reference that the decoder is compared with.
- `Check` selection by `runDueChecks` and agent check lists: only the slot protocol of `executeCheck` is modelled.
