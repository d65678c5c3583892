/** A running deployment: the table, the broker, and the place every component is at. The
    components' code changes the table and the broker through their clients and then records
    the step; everything that happens in between is the work of the others.
 */
module Deployment {
  import opened Domain
  import opened Statements
  import opened Protocol
  import opened Repository
  import opened Structure

  // The component whose code is running: a consumer handler, a publishing task, or a caller
  // that keeps nothing between its statements.
  datatype Self = HandlerSelf(tag: nat) | TaskSelf(task: nat) | Caller

  // Steps that only the component itself takes. The broker may take its delivery back, and
  // anything else may happen, without it.
  predicate Own(a: Action, self: Self) {
    match self
    case Caller => false
    case HandlerSelf(tag) =>
      match a {
        case Fetch(t, _) => t == tag
        case Crash(t) => t == tag
        case Drain(t) => t == tag
        case Claim(t, _, _) => t == tag
        case Release(t, _, _) => t == tag
        case Send(t, _) => t == tag
        case RecordSent(t, _, _, _, _) => t == tag
        case RecordRetry(t, _, _, _) => t == tag
        case RecordFailure(t, _, _, _) => t == tag
        case PublishRetry(t, _) => t == tag
        case PublishDeadLetter(t, _) => t == tag
        case Settle(t) => t == tag
        case _ => false
      }
    case TaskSelf(task) =>
      match a {
        case InsertDrafts(t, _, _) => t == task
        case MarkQueued(t, _) => t == task
        case SweepDue(t, _, _) => t == task
        case SweepStale(t, _, _) => t == task
        case SweepProcessing(t, _, _) => t == task
        case Touch(t, _, _) => t == task
        case Publish(t, _) => t == task
        case DropTask(t) => t == task
        case _ => false
      }
  }

  // The component's own steps within a run.
  function OwnSteps(run: seq<Action>, self: Self): seq<Action> {
    if run == [] then []
    else OwnSteps(run[..|run| - 1], self) + (if Own(run[|run| - 1], self) then [run[|run| - 1]] else [])
  }

  lemma {:induction false} OwnStepsConcat(first: seq<Action>, second: seq<Action>, self: Self)
    ensures OwnSteps(first + second, self) == OwnSteps(first, self) + OwnSteps(second, self)
  {
    if second == [] {
      assert first + second == first;
    } else {
      var init := second[..|second| - 1];
      assert (first + second)[..|first + second| - 1] == first + init;
      OwnStepsConcat(first, init, self);
    }
  }

  lemma OwnStepsSnoc(run: seq<Action>, a: Action)
    ensures forall self :: OwnSteps(run + [a], self) == OwnSteps(run, self) + (if Own(a, self) then [a] else [])
  {
    assert (run + [a])[..|run + [a]| - 1] == run;
  }

  // Where a component is, apart from whether the broker still waits for its delivery.
  predicate SamePlace(s: State, s': State, self: Self) {
    match self
    case Caller => true
    case HandlerSelf(tag) =>
      && (tag in s.handlers <==> tag in s'.handlers)
      && (tag in s.handlers ==>
          s'.handlers[tag].pc == s.handlers[tag].pc && s'.handlers[tag].message == s.handlers[tag].message)
    case TaskSelf(task) =>
      (task in s.tasks <==> task in s'.tasks) && (task in s.tasks ==> s'.tasks[task] == s.tasks[task])
  }

  lemma OthersLeaveHandler(s: State, a: Action, tag: nat)
    requires !Own(a, HandlerSelf(tag))
    ensures SamePlace(s, Next(s, a), HandlerSelf(tag))
  {
    if WorkerAction(a) && tag in s.handlers { WorkersMindTheirOwn(s, a, tag); }
  }

  lemma OthersLeaveTask(s: State, a: Action, task: nat)
    requires !Own(a, TaskSelf(task))
    ensures SamePlace(s, Next(s, a), TaskSelf(task))
  {
  }

  lemma OthersStep(s: State, a: Action, self: Self)
    requires !Own(a, self)
    ensures SamePlace(s, Next(s, a), self)
  {
    match self
    case Caller =>
    case HandlerSelf(tag) => OthersLeaveHandler(s, a, tag);
    case TaskSelf(task) => OthersLeaveTask(s, a, task);
  }

  lemma {:induction false} OthersRun(s: State, run: seq<Action>, self: Self)
    requires OwnSteps(run, self) == []
    ensures SamePlace(s, Exec(s, run), self)
  {
    if run != [] {
      OthersRun(s, run[..|run| - 1], self);
      OthersStep(Exec(s, run[..|run| - 1]), run[|run| - 1], self);
    }
  }

  class Cluster {
    const repo: NotificationRepository
    const publisher: Publisher
    const maxAttempts: int
    const staleAfter: Time
    var lives: map<Id, Life>
    var handlers: map<nat, Handler>
    var tasks: map<nat, Task>
    var log: seq<Action>

    function View(): State
      reads this, repo, publisher
    {
      State(maxAttempts, staleAfter, repo.rows, lives, publisher.broker, handlers, tasks)
    }

    // What has happened so far is a run of the protocol.
    predicate Valid()
      reads this, repo, publisher
    {
      View() == Exec(Init(maxAttempts, staleAfter), log)
    }

    constructor (maxAttempts: int, staleAfter: Time)
      ensures Valid() && log == [] && fresh(repo) && fresh(publisher)
    {
      this.maxAttempts, this.staleAfter := maxAttempts, staleAfter;
      repo := new NotificationRepository();
      publisher := new Publisher();
      lives, handlers, tasks, log := map[], map[], map[], [];
    }

    // Any number of steps of any other components.
    method Others(self: Self)
      requires Valid()
      modifies this, repo, publisher
      ensures Valid() && old(log) <= log && OwnSteps(log, self) == OwnSteps(old(log), self)
      ensures SamePlace(old(View()), View(), self)
      ensures View() == Exec(old(View()), log[|old(log)|..])
    {
      var run: seq<Action> := *;
      if OwnSteps(run, self) != [] { run := []; }
      ghost var s0 := Init(maxAttempts, staleAfter);
      ExecConcat(s0, log, run);
      OwnStepsConcat(log, run, self);
      OthersRun(View(), run, self);
      var s := Exec(View(), run);
      ConfigurationStays(View(), run);
      repo.rows := s.rows;
      publisher.broker := s.broker;
      lives, handlers, tasks := s.lives, s.handlers, s.tasks;
      assert (log + run)[|log|..] == run;
      log := log + run;
    }

    // Called right after the component's code has acted on the table or the broker: what it
    // did must be exactly what the protocol's step does.
    method Record(before: State, a: Action)
      requires before == Exec(Init(maxAttempts, staleAfter), log)
      requires repo.rows == Next(before, a).rows && publisher.broker == Next(before, a).broker
      modifies this
      ensures View() == Next(before, a) && log == old(log) + [a] && Valid()
      ensures forall self :: OwnSteps(log, self) == OwnSteps(old(log), self) + (if Own(a, self) then [a] else [])
    {
      var s := Next(before, a);
      OwnStepsSnoc(log, a);
      ExecSnoc(Init(maxAttempts, staleAfter), log, a);
      ConfigurationStays(Init(maxAttempts, staleAfter), log + [a]);
      lives, handlers, tasks := s.lives, s.handlers, s.tasks;
      log := log + [a];
    }
  }

  // The deployment, and the table, at the moment of step i.
  ghost function StateAt(d: Cluster, i: nat): State
    requires i <= |d.log|
    reads d
  {
    Exec(Init(d.maxAttempts, d.staleAfter), d.log[..i])
  }

  ghost function RowsAt(d: Cluster, i: nat): Rows
    requires i <= |d.log|
    reads d
  {
    StateAt(d, i).rows
  }

  // Step k of the run publishes this message for the task: it is the next one the task owes.
  ghost predicate PublishesAt(s0: State, log: seq<Action>, k: nat, task: nat, m: Message, receipt: Receipt) {
    && k < |log| && log[k] == Publish(task, receipt)
    && var s := Exec(s0, log[..k]);
       task in s.tasks && s.tasks[task].todo != [] && s.tasks[task].todo[0] == m
  }

  // What such a step puts into the work queues is that message, unless the broker refuses it.
  lemma PublishEnqueues(s0: State, log: seq<Action>, k: nat, task: nat, m: Message, receipt: Receipt)
    requires PublishesAt(s0, log, k, task, m, receipt)
    ensures log[k] == Publish(task, receipt)
    ensures var before, after := Exec(s0, log[..k]).broker, Exec(s0, log[..k + 1]).broker;
            after == before.(work := before.work + if receipt == Refused then multiset{} else multiset{m})
  {
    ExecPrefix(s0, log, k);
  }

  lemma PublishesLast(s0: State, log: seq<Action>, task: nat, m: Message, receipt: Receipt)
    requires var s := Exec(s0, log); task in s.tasks && s.tasks[task].todo != [] && s.tasks[task].todo[0] == m
    ensures PublishesAt(s0, log + [Publish(task, receipt)], |log|, task, m, receipt)
  {
    assert (log + [Publish(task, receipt)])[..|log|] == log;
  }

  lemma StillPublishes(s0: State, log: seq<Action>, more: seq<Action>, k: nat, task: nat, m: Message, receipt: Receipt)
    requires PublishesAt(s0, log, k, task, m, receipt) && log <= more
    ensures PublishesAt(s0, more, k, task, m, receipt)
  {
    assert more[..k] == log[..k] && more[k] == log[k];
  }

  // The first messages were published at these steps, one after the other.
  ghost predicate Published(s0: State, log: seq<Action>, sent: seq<nat>, task: nat, messages: seq<Message>,
        receipts: nat -> Receipt)
  {
    && |sent| <= |messages| && (forall i, j :: 0 <= i < j < |sent| ==> sent[i] < sent[j])
    && forall i :: 0 <= i < |sent| ==> PublishesAt(s0, log, sent[i], task, messages[i], receipts(i))
  }

  lemma StillPublished(s0: State, log: seq<Action>, more: seq<Action>, sent: seq<nat>, task: nat,
        messages: seq<Message>, receipts: nat -> Receipt)
    requires Published(s0, log, sent, task, messages, receipts) && log <= more
    ensures Published(s0, more, sent, task, messages, receipts)
  {
    forall i | 0 <= i < |sent| ensures PublishesAt(s0, more, sent[i], task, messages[i], receipts(i)) {
      StillPublishes(s0, log, more, sent[i], task, messages[i], receipts(i));
    }
  }

  lemma OneMorePublished(s0: State, log: seq<Action>, more: seq<Action>, sent: seq<nat>, at: nat, task: nat,
        messages: seq<Message>, receipts: nat -> Receipt)
    requires Published(s0, log, sent, task, messages, receipts) && log <= more
    requires |log| <= at && |sent| < |messages|
    requires PublishesAt(s0, more, at, task, messages[|sent|], receipts(|sent|))
    ensures Published(s0, more, sent + [at], task, messages, receipts)
  {
    StillPublished(s0, log, more, sent, task, messages, receipts);
    forall i | 0 <= i < |sent| ensures sent[i] < at {
      assert PublishesAt(s0, log, sent[i], task, messages[i], receipts(i));
    }
  }

  // A step keeps its place in the log, and what came before it.
  lemma SamePrefix(log: seq<Action>, more: seq<Action>, i: nat)
    requires log <= more && i <= |log|
    ensures more[..i] == log[..i] && (i < |log| ==> more[i] == log[i])
  {
  }
}
