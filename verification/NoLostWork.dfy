/** Whether accepted work can get lost. Pending, scheduled, queued and processing rows are
    found again by a sweep; a retrying row depends on a message, and this module says exactly
    when it still has one.
 */
module NoLostWork {
  import opened Domain
  import opened Statements
  import opened Protocol
  import opened Structure
  import opened Invariant
  import opened Lifecycle

  predicate Names(todo: seq<Message>, id: Id) {
    exists i :: 0 <= i < |todo| && todo[i].id == id
  }

  // A delivery that will come back to the queue, or a handler that still owes a retry publish.
  predicate Carries(h: Handler, id: Id) {
    && h.message.id == id
    && (h.pc.RetryMarked? || (h.attached && (h.pc.Fetched? || h.pc == Settling(true))))
  }

  ghost predicate Live(s: State, id: Id) {
    || (exists m :: m in s.broker.work && m.id == id)
    || (exists p :: p in s.broker.tiers && p.message.id == id)
    || (exists tag :: tag in s.handlers && Carries(s.handlers[tag], id))
    || (exists task :: Republishes(s, task, id))
  }

  // The ways in which a retrying row can lose its message: a recovery republish that is refused
  // or cut off, and a handler whose delivery the broker has already taken back failing to
  // publish, or to hand back, what it has just moved to retrying.
  datatype Loss = RefusedRepublish | CutOffRepublish | RefusedRetry | CrashedRetry | DetachedRelease | UnconfirmedMark

  predicate Detached(s: State, tag: nat, id: Id) {
    WorksOn(s, tag, id) && !s.handlers[tag].attached
  }

  predicate Republishes(s: State, task: nat, id: Id) {
    task in s.tasks && s.tasks[task].kind.Recovered? && Names(s.tasks[task].todo, id)
  }

  predicate Loses(loss: Loss, s: State, a: Action, id: Id) {
    match loss
    case RefusedRepublish =>
      a.Publish? && a.receipt.Refused? && Republishes(s, a.task, id)
        && s.tasks[a.task].todo[0].id == id
    case CutOffRepublish => a.DropTask? && Republishes(s, a.task, id)
    case RefusedRetry =>
      a.PublishRetry? && Detached(s, a.tag, id) && s.handlers[a.tag].pc.RetryMarked?
        && a.receipt.Refused?
    case CrashedRetry => a.Crash? && Detached(s, a.tag, id) && s.handlers[a.tag].pc.RetryMarked?
    case DetachedRelease => a.Release? && Detached(s, a.tag, id) && Occurs(ReleaseEvent, s, a, id)
    case UnconfirmedMark => a.RecordRetry? && Detached(s, a.tag, id) && Occurs(RetryEvent, s, a, id) && a.io.LostReply?
  }

  ghost predicate LossStep(s: State, a: Action, id: Id) {
    exists loss: Loss :: Loses(loss, s, a, id)
  }

  ghost predicate Lossless(s: State, run: seq<Action>, id: Id) {
    forall i :: 0 <= i < |run| ==> !LossStep(Exec(s, run[..i]), run[i], id)
  }

  ghost predicate Kept(s: State, id: Id) {
    id in s.rows && s.rows[id].status == Retrying ==> Live(s, id)
  }

  // ---- the handler that acts on the row ------------------------------------------------

  lemma ClaimKeepsMessage(s: State, tag: nat, now: Time, io: Io, id: Id)
    requires WorksOn(s, tag, id) && id in s.rows && Carries(s.handlers[tag], id)
    requires var s' := DoClaim(s, tag, now, io); s'.rows[id].status == Retrying
    ensures Live(DoClaim(s, tag, now, io), id)
  {
    var s' := DoClaim(s, tag, now, io);
    GuardsAreLegal(s.rows[id].status);
    assert Carries(s'.handlers[tag], id);
  }

  lemma ReleaseKeepsMessage(s: State, a: Action, id: Id)
    requires a.Release? && WorksOn(s, a.tag, id) && id in s.rows && s.rows[id].status != Retrying
    requires !LossStep(s, a, id) && Next(s, a).rows[id].status == Retrying
    ensures Live(Next(s, a), id)
  {
    assert !Loses(DetachedRelease, s, a, id);
    assert Carries(Next(s, a).handlers[a.tag], id);
  }

  lemma RecordRetryKeepsMessage(s: State, a: Action, id: Id)
    requires a.RecordRetry? && WorksOn(s, a.tag, id) && id in s.rows && s.rows[id].status != Retrying
    requires !LossStep(s, a, id) && Next(s, a).rows[id].status == Retrying
    ensures Live(Next(s, a), id)
  {
    assert !Loses(UnconfirmedMark, s, a, id);
    assert Carries(Next(s, a).handlers[a.tag], id);
  }

  lemma PublishRetryKeepsMessage(s: State, a: Action, id: Id)
    requires a.PublishRetry? && WorksOn(s, a.tag, id) && Carries(s.handlers[a.tag], id) && !LossStep(s, a, id)
    ensures Live(Next(s, a), id)
  {
    var h, s' := s.handlers[a.tag], Next(s, a);
    assert !Loses(RefusedRetry, s, a, id);
    if h.pc.RetryMarked? && !a.receipt.Refused? {
      assert Parked(TierForAttempt(h.pc.t.k), Message(h.pc.t.channel, id)) in s'.broker.tiers;
    } else {
      assert Carries(s'.handlers[a.tag], id);
    }
  }

  // A row only enters retrying by a release, a marked retry or a recovery.
  lemma RetryingEntries(s: State, a: Action, id: Id)
    requires id in s.rows && s.rows[id].status != Retrying
    requires id in Next(s, a).rows && Next(s, a).rows[id].status == Retrying
    ensures a.SweepProcessing? || ((a.Release? || a.RecordRetry?) && WorksOn(s, a.tag, id))
  {
    if TableAction(a) {
      TableRetryingEntries(s, a, id);
    } else if !WorkerAction(a) {
      OnlyTheseWrite(s, a);
    }
  }

  lemma TableRetryingEntries(s: State, a: Action, id: Id)
    requires TableAction(a) && id in s.rows && s.rows[id].status != Retrying && id in Next(s, a).rows
    requires Next(s, a).rows[id].status == Retrying
    ensures a.SweepProcessing?
  {
    if a.InsertDrafts? && Insertable(s.rows, a.drafts) { DraftRowsAt(a.drafts); }
  }

  // ---- what a step leaves alone --------------------------------------------------------------

  lemma OnlyTheseEnqueue(s: State, a: Action)
    requires !a.Publish? && !BrokerAction(a)
    ensures Next(s, a).broker.work == s.broker.work
  {
  }

  lemma ReturnsOnlyAdd(s: State, a: Action, m: Message)
    requires BrokerAction(a) && m in s.broker.work && !(a.Fetch? && a.message == m)
    ensures m in Next(s, a).broker.work
  {
  }

  lemma QueueOnlyShrinksByFetch(s: State, a: Action, m: Message)
    requires m in s.broker.work && !(a.Fetch? && a.message == m)
    ensures m in Next(s, a).broker.work
  {
    if BrokerAction(a) {
      ReturnsOnlyAdd(s, a, m);
    } else if !a.Publish? {
      OnlyTheseEnqueue(s, a);
    }
  }

  lemma UntouchedHandler(s: State, a: Action, tag: nat)
    requires tag in s.handlers && tag in Next(s, a).handlers && !(WorkerAction(a) && a.tag == tag)
    ensures var h, h' := s.handlers[tag], Next(s, a).handlers[tag];
            h'.message == h.message && h'.pc == h.pc && (h'.attached ==> h.attached)
  {
  }

  lemma FetchedHandler(s: State, a: Action, tag: nat)
    requires tag !in s.handlers && tag in Next(s, a).handlers
    ensures Next(s, a).handlers[tag].message in s.broker.work
  {
  }

  lemma WorkersKeepTheirMessage(s: State, a: Action)
    requires WorkerAction(a) && a.tag in s.handlers && a.tag in Next(s, a).handlers
    ensures Next(s, a).handlers[a.tag].message == s.handlers[a.tag].message
  {
  }

  // A task's list of messages only ever loses its first one.
  lemma TodosOnlyShrink(s: State, a: Action, task: nat)
    requires task in s.tasks && task in Next(s, a).tasks
    ensures var todo, todo' := s.tasks[task].todo, Next(s, a).tasks[task].todo;
            todo' == todo || (todo != [] && todo' == todo[1..])
  {
  }

  lemma NamesShrink(todo: seq<Message>, id: Id)
    requires !Names(todo, id)
    ensures todo != [] ==> todo[0].id != id && !Names(todo[1..], id)
  {
    forall i | 0 <= i < |todo| ensures todo[i].id != id {}
  }

  lemma {:induction false} PendingMessagesName(drafts: seq<Draft>, id: Id)
    requires forall d :: d in drafts ==> d.id != id
    ensures !Names(PendingMessages(drafts), id)
  {
    if drafts != [] { PendingMessagesName(drafts[1..], id); }
  }

  // A new task publishes for rows that are inserted, or that its sweep found.
  lemma NewTodos(s: State, a: Action, task: nat, id: Id)
    requires task !in s.tasks && task in Next(s, a).tasks && id in s.rows
    requires a.SweepDue? || a.SweepProcessing? || a.SweepStale? ==> id !in a.ids
    ensures !Names(Next(s, a).tasks[task].todo, id)
  {
    if a.InsertDrafts? { PendingMessagesName(a.drafts, id); }
  }

  // ---- each kind of support survives, or is replaced -------------------------------------

  lemma TiersOnlyShrinkByExpiry(s: State, a: Action, p: Parked)
    requires p in s.broker.tiers && !(a.Expire? && a.parked == p)
    ensures p in Next(s, a).broker.tiers
  {
  }

  lemma WorkSurvives(s: State, a: Action, m: Message)
    requires m in s.broker.work
    ensures Live(Next(s, a), m.id)
  {
    if !(a.Fetch? && a.message == m) {
      QueueOnlyShrinksByFetch(s, a, m);
    } else if a.tag !in s.handlers {
      assert Carries(Next(s, a).handlers[a.tag], m.id);
    }
  }

  lemma ParkedSurvives(s: State, a: Action, p: Parked)
    requires p in s.broker.tiers
    ensures Live(Next(s, a), p.message.id)
  {
    if a.Expire? && a.parked == p {
      assert p.message in Next(s, a).broker.work;
    } else {
      TiersOnlyShrinkByExpiry(s, a, p);
    }
  }

  lemma OtherHandlersStay(s: State, a: Action, tag: nat)
    requires tag in s.handlers
    requires (WorkerAction(a) || a.Fetch? || a.Detach? || a.Crash? || a.Drain? || a.Settle?) ==>
               a.tag != tag || a.Fetch?
    ensures tag in Next(s, a).handlers && Next(s, a).handlers[tag] == s.handlers[tag]
  {
    if WorkerAction(a) { WorkersMindTheirOwn(s, a, tag); }
  }

  lemma ReturnedSurvives(s: State, a: Action, id: Id)
    requires a.Detach? || a.Crash? || a.Drain? || a.Settle?
    requires a.tag in s.handlers && Carries(s.handlers[a.tag], id) && !LossStep(s, a, id)
    ensures Live(Next(s, a), id)
  {
    var h, s' := s.handlers[a.tag], Next(s, a);
    assert !Loses(CrashedRetry, s, a, id);
    if s' != s && h.attached && !(h.pc == Settling(false)) {
      if a.tag in s'.handlers && s'.handlers[a.tag] == h { assert Carries(s'.handlers[a.tag], id); }
      else { assert h.message in s'.broker.work; }
    } else {
      assert Carries(s'.handlers[a.tag], id);
    }
  }

  lemma HandlerSurvives(s: State, a: Action, tag: nat, id: Id)
    requires tag in s.handlers && Carries(s.handlers[tag], id) && !LossStep(s, a, id)
    requires id in s.rows && s.rows[id].status == Retrying && Next(s, a).rows[id].status == Retrying
    ensures Live(Next(s, a), id)
  {
    if (WorkerAction(a) || a.Detach? || a.Crash? || a.Drain? || a.Settle?) && a.tag == tag {
      if a.Claim? { ClaimKeepsMessage(s, tag, a.now, a.io, id); }
      else if a.PublishRetry? { PublishRetryKeepsMessage(s, a, id); }
      else if a.Detach? || a.Crash? || a.Drain? || a.Settle? { ReturnedSurvives(s, a, id); }
      else { assert Carries(Next(s, a).handlers[tag], id); }
    } else {
      OtherHandlersStay(s, a, tag);
      assert Carries(Next(s, a).handlers[tag], id);
    }
  }

  lemma TaskSurvives(s: State, a: Action, task: nat, id: Id)
    requires Republishes(s, task, id) && !LossStep(s, a, id)
    ensures Live(Next(s, a), id)
  {
    var t, s' := s.tasks[task], Next(s, a);
    assert !Loses(RefusedRepublish, s, a, id) && !Loses(CutOffRepublish, s, a, id);
    var i :| 0 <= i < |t.todo| && t.todo[i].id == id;
    if a.Publish? && a.task == task {
      if i == 0 {
        assert t.todo[0] in s'.broker.work;
      } else {
        assert s'.tasks[task].todo[i - 1] == t.todo[i];
        assert Republishes(s', task, id);
      }
    } else {
      assert Republishes(s', task, id);
    }
  }

  lemma StepKeepsWork(s: State, a: Action, id: Id)
    requires Shape(s) && Kept(s, id) && !LossStep(s, a, id)
    ensures Kept(Next(s, a), id)
  {
    var s' := Next(s, a);
    if id in s'.rows && s'.rows[id].status == Retrying {
      if id in s.rows && s.rows[id].status == Retrying {
        if m :| m in s.broker.work && m.id == id { WorkSurvives(s, a, m); }
        else if p :| p in s.broker.tiers && p.message.id == id { ParkedSurvives(s, a, p); }
        else if tag :| tag in s.handlers && Carries(s.handlers[tag], id) { HandlerSurvives(s, a, tag, id); }
        else {
          var task :| Republishes(s, task, id);
          TaskSurvives(s, a, task, id);
        }
      } else {
        RetryingIsEntered(s, a, id);
      }
    }
  }

  lemma NewRowsAreNotRetrying(s: State, a: Action, id: Id)
    requires id !in s.rows && id in Next(s, a).rows
    ensures Next(s, a).rows[id].status in {Pending, Scheduled}
  {
    if TableAction(a) {
      if a.InsertDrafts? { DraftRowsAt(a.drafts); }
    } else if !WorkerAction(a) {
      OnlyTheseWrite(s, a);
    }
  }

  lemma RetryingIsEntered(s: State, a: Action, id: Id)
    requires Shape(s) && !LossStep(s, a, id)
    requires id in s.rows ==> s.rows[id].status != Retrying
    requires id in Next(s, a).rows && Next(s, a).rows[id].status == Retrying
    ensures Live(Next(s, a), id)
  {
    if id !in s.rows {
      NewRowsAreNotRetrying(s, a, id);
    } else {
      RetryingEntries(s, a, id);
      if a.Release? {
        ReleaseKeepsMessage(s, a, id);
      } else if a.RecordRetry? {
        RecordRetryKeepsMessage(s, a, id);
      } else {
        RecoveryOwesMessage(s, a, id);
      }
    }
  }

  lemma RecoveryOwesMessage(s: State, a: Action, id: Id)
    requires a.SweepProcessing? && id in s.rows && s.rows[id].status != Retrying
    requires id in Next(s, a).rows && Next(s, a).rows[id].status == Retrying
    ensures Live(Next(s, a), id)
  {
    var i :| 0 <= i < |a.ids| && a.ids[i] == id;
    assert Next(s, a).tasks[a.task].todo[i].id == id;
    assert Republishes(Next(s, a), a.task, id);
  }

  lemma {:induction false} KeptWhileLossless(maxAttempts: int, staleAfter: Time, run: seq<Action>, id: Id)
    requires Lossless(Init(maxAttempts, staleAfter), run, id)
    ensures Kept(Exec(Init(maxAttempts, staleAfter), run), id)
  {
    if run != [] {
      var init, s0 := run[..|run| - 1], Init(maxAttempts, staleAfter);
      forall i | 0 <= i < |init| ensures !LossStep(Exec(s0, init[..i]), init[i], id) {
        assert init[..i] == run[..i];
      }
      KeptWhileLossless(maxAttempts, staleAfter, init, id);
      RunInv(maxAttempts, staleAfter, init);
      StepKeepsWork(Exec(s0, init), run[|run| - 1], id);
    }
  }

  lemma OnlyTheseLose(loss: Loss, s: State, a: Action, id: Id)
    requires Loses(loss, s, a, id)
    ensures || (a.Publish? && a.receipt == Refused && a.task in s.tasks && s.tasks[a.task].kind.Recovered?
                && s.tasks[a.task].todo != [] && s.tasks[a.task].todo[0].id == id)
            || (a.DropTask? && a.task in s.tasks && s.tasks[a.task].kind.Recovered?
                && exists m :: m in s.tasks[a.task].todo && m.id == id)
            || ((a.PublishRetry? || a.Crash? || a.Release? || a.RecordRetry?) && Detached(s, a.tag, id)
                && if a.PublishRetry? then s.handlers[a.tag].pc.RetryMarked? && a.receipt == Refused
                   else if a.Crash? then s.handlers[a.tag].pc.RetryMarked?
                   else
                     && id in s.rows && s.rows[id].status == Processing
                     && id in Next(s, a).rows && Next(s, a).rows[id].status == Retrying
                     && (a.RecordRetry? ==> a.io == LostReply))
  {
  }

  lemma StillAround(s: State, id: Id)
    requires Live(s, id)
    ensures || (exists m :: m in s.broker.work && m.id == id)
            || (exists p :: p in s.broker.tiers && p.message.id == id)
            || (exists tag :: tag in s.handlers && s.handlers[tag].message.id == id
                  && (s.handlers[tag].pc.RetryMarked?
                      || (s.handlers[tag].attached && s.handlers[tag].pc in {Fetched, Settling(true)})))
            || (exists task :: task in s.tasks && s.tasks[task].kind.Recovered?
                  && exists m :: m in s.tasks[task].todo && m.id == id)
  {
    if task :| Republishes(s, task, id) {
      var i :| 0 <= i < |s.tasks[task].todo| && s.tasks[task].todo[i].id == id;
      assert s.tasks[task].todo[i] in s.tasks[task].todo;
    }
    if tag :| tag in s.handlers && Carries(s.handlers[tag], id) { assert s.handlers[tag].message.id == id; }
  }

  /** No lost work. Take any run in which no recovery republish of the notification is refused or
      cut off, and no handler whose delivery the broker has taken back has its retry publish
      refused, crashes while it owes that publish, or moves the row to retrying by a release or by
      a mark whose reply is lost; any crashes, redeliveries, reconnects and refused publishes
      besides. Then a row that reads retrying still has a queued or parked message, a delivery that
      will be returned, or a step that owes one. */
  lemma RetryingRowsHaveAMessage(maxAttempts: int, staleAfter: Time, run: seq<Action>, id: Id)
    requires forall i :: 0 <= i < |run| ==>
               var s, a := Exec(Init(maxAttempts, staleAfter), run[..i]), run[i];
               && !(a.Publish? && a.receipt == Refused && a.task in s.tasks && s.tasks[a.task].kind.Recovered?
                    && s.tasks[a.task].todo != [] && s.tasks[a.task].todo[0].id == id)
               && !(a.DropTask? && a.task in s.tasks && s.tasks[a.task].kind.Recovered?
                    && exists m :: m in s.tasks[a.task].todo && m.id == id)
               && !((a.PublishRetry? || a.Crash? || a.Release? || a.RecordRetry?)
                    && a.tag in s.handlers && s.handlers[a.tag].message.id == id && !s.handlers[a.tag].attached
                    && if a.PublishRetry? then s.handlers[a.tag].pc.RetryMarked? && a.receipt == Refused
                       else if a.Crash? then s.handlers[a.tag].pc.RetryMarked?
                       else
                         && id in s.rows && s.rows[id].status == Processing
                         && id in Next(s, a).rows && Next(s, a).rows[id].status == Retrying
                         && (a.RecordRetry? ==> a.io == LostReply))
    ensures var s := Exec(Init(maxAttempts, staleAfter), run);
            id in s.rows && s.rows[id].status == Retrying ==>
              || (exists m :: m in s.broker.work && m.id == id)
              || (exists p :: p in s.broker.tiers && p.message.id == id)
              || (exists tag :: tag in s.handlers && s.handlers[tag].message.id == id
                    && (s.handlers[tag].pc.RetryMarked?
                        || (s.handlers[tag].attached && s.handlers[tag].pc in {Fetched, Settling(true)})))
              || (exists task :: task in s.tasks && s.tasks[task].kind.Recovered?
                    && exists m :: m in s.tasks[task].todo && m.id == id)
  {
    var s0 := Init(maxAttempts, staleAfter);
    forall i | 0 <= i < |run| ensures !LossStep(Exec(s0, run[..i]), run[i], id) {
      if loss: Loss :| Loses(loss, Exec(s0, run[..i]), run[i], id) {
        OnlyTheseLose(loss, Exec(s0, run[..i]), run[i], id);
      }
    }
    KeptWhileLossless(maxAttempts, staleAfter, run, id);
    var s := Exec(s0, run);
    if id in s.rows && s.rows[id].status == Retrying { StillAround(s, id); }
  }
}
