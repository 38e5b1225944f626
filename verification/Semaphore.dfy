/** The slot semaphore shared by device polls and synthetic checks: pollOnce (internal/poller/scheduler.go) and
    executeCheck (internal/poller/checks.go). A buffered channel holds one token per slot in use. Sending the token,
    registering the deferred receive, returning and running what was deferred are separate steps. */
module Semaphore {
  const MAX_PARALLEL_POLLS: nat := 50

  type TaskId = nat

  datatype Kind = Poll | Check

  /** Where a task is in its function. */
  datatype Stage =
    | Waiting        // in the select
    | Sent           // the token is in the channel, the receive is not deferred yet
    | Validating     // poll: is the management address an address
    | Dialing        // poll
    | Collecting     // poll: collect and compute rates
    | Resolving      // check: its credential
    | Probing        // check
    | Persisting
    | Publishing     // poll
    | Returning      // the function is left: deferred calls run
    | Gone

  /** deferred counts the receives still registered; sent and received are what the task did to the channel. */
  datatype Task = Task(kind: Kind, stage: Stage, deferred: nat, sent: nat, received: nat)

  /** tokens is the number of elements in the channel. */
  datatype State = State(tokens: nat, tasks: map<TaskId, Task>)

  datatype Action =
    | Arrive(id: TaskId, kind: Kind)
    | Send(id: TaskId)             // the select takes the channel
    | Expire(id: TaskId)           // the select takes the ended context
    | Defer(id: TaskId)
    | Advance(id: TaskId)          // the stage succeeds
    | Fail(id: TaskId)             // the stage fails
    | Receive(id: TaskId)          // one deferred receive runs
    | Leave(id: TaskId)            // nothing is deferred any more

  predicate Working(st: Stage) {
    st.Validating? || st.Dialing? || st.Collecting? || st.Resolving? || st.Probing? || st.Persisting? || st.Publishing?
  }

  function First(kind: Kind): Stage { if kind.Poll? then Validating else Resolving }

  /** The stage after a success. */
  function After(kind: Kind, st: Stage): Stage {
    match st
    case Validating => Dialing
    case Dialing => Collecting
    case Collecting => Persisting
    case Resolving => Probing
    case Probing => Persisting
    case Persisting => if kind.Poll? then Publishing else Returning
    case _ => Returning
  }

  /** The stage after a failure: a check whose credential does not resolve still writes a result row. */
  function AfterFailure(st: Stage): Stage { if st.Resolving? then Persisting else Returning }

  /** Collecting and probing report errors as data, they do not return early. */
  predicate CanFail(st: Stage) { st.Validating? || st.Dialing? || st.Resolving? || st.Persisting? || st.Publishing? }

  /** The task's own part of a step. */
  predicate TaskStep(t: Task, a: Action, t': Task) {
    match a
    case Arrive(_, _) => false
    case Send(_) => t.stage.Waiting? && t' == t.(stage := Sent, sent := t.sent + 1)
    case Expire(_) => t.stage.Waiting? && t' == t.(stage := Returning)
    case Defer(_) => t.stage.Sent? && t' == t.(stage := First(t.kind), deferred := t.deferred + 1)
    case Advance(_) => Working(t.stage) && t' == t.(stage := After(t.kind, t.stage))
    case Fail(_) => CanFail(t.stage) && t' == t.(stage := AfterFailure(t.stage))
    case Receive(_) =>
      t.stage.Returning? && t.deferred > 0 && t' == t.(deferred := t.deferred - 1, received := t.received + 1)
    case Leave(_) => t.stage.Returning? && t.deferred == 0 && t' == t.(stage := Gone)
  }

  /** The channel's part: a send needs room, a receive needs a token, other steps leave it alone. */
  predicate ChannelStep(tokens: nat, a: Action, tokens': nat) {
    match a
    case Send(_) => tokens < MAX_PARALLEL_POLLS && tokens' == tokens + 1
    case Receive(_) => tokens > 0 && tokens' == tokens - 1
    case _ => tokens' == tokens
  }

  predicate Next(s: State, a: Action, s': State) {
    ChannelStep(s.tokens, a, s'.tokens)
    && if a.Arrive? then a.id !in s.tasks && s'.tasks == s.tasks[a.id := Task(a.kind, Waiting, 0, 0, 0)]
       else a.id in s.tasks && a.id in s'.tasks && TaskStep(s.tasks[a.id], a, s'.tasks[a.id])
            && s'.tasks == s.tasks[a.id := s'.tasks[a.id]]
  }

  ghost predicate Run(ss: seq<State>, actions: seq<Action>) {
    |ss| == |actions| + 1 && ss[0] == State(0, map[])
    && forall i :: 0 <= i < |actions| ==> Next(ss[i], actions[i], ss[i + 1])
  }

  // ---------- the invariant ----------

  /** A task sends at most once and takes back at most what it sent; the receive is registered from the first working
      stage on and runs after the function is left. */
  predicate TaskOk(t: Task) {
    && t.received <= t.sent <= 1
    && t.deferred == (if t.stage.Sent? then 0 else t.sent - t.received)
    && (t.stage.Waiting? ==> t.sent == 0)
    && (t.stage.Sent? || Working(t.stage) ==> t.sent == 1 && t.received == 0)
    && (t.stage.Gone? ==> t.sent == t.received)
  }

  /** A task holds a slot from the send to the receive. */
  predicate Holds(t: Task) { t.sent > t.received }

  function Holders(s: State): set<TaskId> { set id | id in s.tasks && Holds(s.tasks[id]) }

  /** The tokens in the channel are the slots held. */
  ghost predicate Balanced(s: State) {
    && s.tokens == |Holders(s)| <= MAX_PARALLEL_POLLS
    && forall id :: id in s.tasks ==> TaskOk(s.tasks[id])
  }

  lemma TaskStepOk(t: Task, a: Action, t': Task)
    requires TaskOk(t) && TaskStep(t, a, t')
    ensures TaskOk(t')
    ensures Holds(t') == if a.Send? then true else if a.Receive? then false else Holds(t)
    ensures a.Send? ==> !Holds(t)
    ensures a.Receive? ==> Holds(t)
  {
  }

  lemma HoldersAfter(s: State, s': State, id: TaskId, t: Task)
    requires s'.tasks == s.tasks[id := t]
    ensures Holders(s') == if Holds(t) then Holders(s) + {id} else Holders(s) - {id}
  {
  }

  lemma TasksOkAfter(s: State, s': State, id: TaskId, t: Task)
    requires (forall i :: i in s.tasks ==> TaskOk(s.tasks[i])) && TaskOk(t) && s'.tasks == s.tasks[id := t]
    ensures forall i :: i in s'.tasks ==> TaskOk(s'.tasks[i])
  {
  }

  /** Only a send and a receive move the channel, each together with the task that holds the slot. */
  lemma ChannelFollows(held: set<TaskId>, held': set<TaskId>, id: TaskId, tokens: nat, a: Action, tokens': nat)
    requires tokens == |held| <= MAX_PARALLEL_POLLS && ChannelStep(tokens, a, tokens')
    requires if a.Send? then id !in held && held' == held + {id}
             else if a.Receive? then id in held && held' == held - {id}
             else held' == held
    ensures tokens' == |held'| <= MAX_PARALLEL_POLLS
  {
  }

  lemma NextBalanced(s: State, a: Action, s': State)
    requires Balanced(s) && Next(s, a, s')
    ensures Balanced(s')
  {
    var t' := if a.Arrive? then Task(a.kind, Waiting, 0, 0, 0) else s'.tasks[a.id];
    if !a.Arrive? { TaskStepOk(s.tasks[a.id], a, t'); }
    HoldersAfter(s, s', a.id, t');
    TasksOkAfter(s, s', a.id, t');
    ChannelFollows(Holders(s), Holders(s'), a.id, s.tokens, a, s'.tokens);
  }

  lemma {:induction false} RunBalanced(ss: seq<State>, actions: seq<Action>, k: nat)
    requires Run(ss, actions) && k < |ss|
    ensures Balanced(ss[k])
  {
    if k == 0 {
      assert Holders(ss[0]) == {};
    } else {
      RunBalanced(ss, actions, k - 1);
      NextBalanced(ss[k - 1], actions[k - 1], ss[k]);
    }
  }

  // ---------- the theorems ----------

  /** Polls and checks together never hold more than 50 slots, and the channel holds exactly their tokens. */
  lemma NeverMoreThanFifty(ss: seq<State>, actions: seq<Action>, k: nat)
    requires Run(ss, actions) && k < |ss|
    ensures |Holders(ss[k])| <= 50 && ss[k].tokens == |Holders(ss[k])|
  {
    RunBalanced(ss, actions, k);
  }

  /** How often a task sends to, and receives from, the channel in a list of actions. */
  function Sends(actions: seq<Action>, id: TaskId): nat {
    if actions == [] then 0
    else Sends(actions[..|actions| - 1], id) + if actions[|actions| - 1] == Send(id) then 1 else 0
  }

  function Receives(actions: seq<Action>, id: TaskId): nat {
    if actions == [] then 0
    else Receives(actions[..|actions| - 1], id) + if actions[|actions| - 1] == Receive(id) then 1 else 0
  }

  lemma {:induction false} CountsMatch(ss: seq<State>, actions: seq<Action>, k: nat, id: TaskId)
    requires Run(ss, actions) && k < |ss|
    ensures var t := if id in ss[k].tasks then ss[k].tasks[id] else Task(Poll, Waiting, 0, 0, 0);
            Sends(actions[..k], id) == t.sent && Receives(actions[..k], id) == t.received
  {
    if k > 0 {
      CountsMatch(ss, actions, k - 1, id);
      assert actions[..k][..k - 1] == actions[..k - 1];
      assert Next(ss[k - 1], actions[k - 1], ss[k]);
    }
  }

  /** In every run, a function that has returned sent to the channel and received from it equally often: once each if
      it got its slot, never if it gave up waiting. */
  lemma ReleasedExactlyOnce(ss: seq<State>, actions: seq<Action>, k: nat, id: TaskId)
    requires Run(ss, actions) && k < |ss| && id in ss[k].tasks && ss[k].tasks[id].stage.Gone?
    ensures Sends(actions[..k], id) == Receives(actions[..k], id) <= 1
  {
    RunBalanced(ss, actions, k);
    CountsMatch(ss, actions, k, id);
  }

  /** Wherever it is, a task has received at most as often as it sent. */
  lemma NeverReleasedEarly(ss: seq<State>, actions: seq<Action>, k: nat, id: TaskId)
    requires Run(ss, actions) && k < |ss| && id in ss[k].tasks && Working(ss[k].tasks[id].stage)
    ensures Sends(actions[..k], id) == 1 && Receives(actions[..k], id) == 0
  {
    RunBalanced(ss, actions, k);
    CountsMatch(ss, actions, k, id);
  }

  /** The deferred receive never blocks: whenever one is due there is a token, so the step is possible. */
  lemma ReleaseNeverBlocks(ss: seq<State>, actions: seq<Action>, k: nat, id: TaskId)
    requires Run(ss, actions) && k < |ss| && id in ss[k].tasks
    requires ss[k].tasks[id].stage.Returning? && ss[k].tasks[id].deferred > 0
    ensures exists s' :: Next(ss[k], Receive(id), s')
  {
    RunBalanced(ss, actions, k);
    var s, t := ss[k], ss[k].tasks[id];
    assert TaskOk(t) && id in Holders(s);
    assert s.tokens > 0;
    var t' := t.(deferred := t.deferred - 1, received := t.received + 1);
    assert Next(s, Receive(id), State(s.tokens - 1, s.tasks[id := t']));
  }

  /** No slot leaks: once every function has returned, all 50 slots are free again. */
  lemma NoSlotLeaks(ss: seq<State>, actions: seq<Action>, k: nat)
    requires Run(ss, actions) && k < |ss|
    requires forall id :: id in ss[k].tasks ==> ss[k].tasks[id].stage.Waiting? || ss[k].tasks[id].stage.Gone?
    ensures ss[k].tokens == 0
  {
    RunBalanced(ss, actions, k);
    assert forall id :: id in ss[k].tasks ==> TaskOk(ss[k].tasks[id]);
    assert Holders(ss[k]) == {};
  }

  /** A waiting task is refused only while 50 other tasks hold slots. */
  lemma TakeBlockedIff(ss: seq<State>, actions: seq<Action>, k: nat, id: TaskId)
    requires Run(ss, actions) && k < |ss| && id in ss[k].tasks && ss[k].tasks[id].stage.Waiting?
    ensures (exists s' :: Next(ss[k], Send(id), s')) <==> |Holders(ss[k])| < 50
  {
    RunBalanced(ss, actions, k);
    var s, t := ss[k], ss[k].tasks[id];
    if s.tokens < MAX_PARALLEL_POLLS {
      assert Next(s, Send(id), State(s.tokens + 1, s.tasks[id := t.(stage := Sent, sent := t.sent + 1)]));
    }
  }
}
