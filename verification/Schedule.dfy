/** A notification created for a later time stays out of the queue, unclaimed and unsent,
    until a scheduler sweep at which the database clock has reached that time.
 */
module Schedule {
  import opened Domain
  import opened Statements
  import opened Protocol
  import opened Structure
  import opened Ledger
  import opened Invariant
  import opened Bounds
  import opened Lifecycle
  import opened NoLostWork

  // No queue, tier, handler or task has anything for this notification.
  ghost predicate Unheard(s: State, id: Id) {
    && (forall m :: m in s.broker.work ==> m.id != id)
    && (forall p :: p in s.broker.tiers ==> p.message.id != id)
    && (forall tag :: tag in s.handlers ==> s.handlers[tag].message.id != id)
    && (forall task :: task in s.tasks ==> !Names(s.tasks[task].todo, id))
  }

  ghost predicate Sealed(s: State, id: Id) {
    id in s.rows && s.rows[id].scheduledAt.Some? && s.rows[id].status in {Scheduled, Cancelled} && Unheard(s, id)
  }

  // A due sweep that takes this row.
  predicate Opens(s: State, a: Action, id: Id) {
    a.SweepDue? && a.task !in s.tasks && DueSweep(s.rows, a.ids, a.now, s.staleAfter) && id in a.ids
  }

  lemma WorkersSkipUnclaimable(s: State, a: Action, id: Id)
    requires WorkerAction(a) && id in s.rows && s.rows[id].status in {Scheduled, Cancelled}
    ensures id in Next(s, a).rows && Next(s, a).rows[id] == s.rows[id]
  {
    GuardsAreLegal(s.rows[id].status);
  }

  lemma SealedRowStays(s: State, a: Action, id: Id)
    requires Sealed(s, id) && !Opens(s, a, id)
    ensures id in Next(s, a).rows
    ensures var n, n' := s.rows[id], Next(s, a).rows[id];
            n'.scheduledAt == n.scheduledAt && n'.status in {Scheduled, Cancelled}
  {
    if WorkerAction(a) {
      WorkersSkipUnclaimable(s, a, id);
    } else if TableAction(a) {
      TableLeavesSealed(s, a, id);
    } else {
      OnlyTheseWrite(s, a);
    }
  }

  lemma TableLeavesSealed(s: State, a: Action, id: Id)
    requires TableAction(a) && id in s.rows && s.rows[id].scheduledAt.Some?
               && s.rows[id].status in {Scheduled, Cancelled}
    requires !Opens(s, a, id)
    ensures id in Next(s, a).rows
    ensures var n, n' := s.rows[id], Next(s, a).rows[id];
            n'.scheduledAt == n.scheduledAt && n'.status in {Scheduled, Cancelled}
  {
    if a.InsertDrafts? && Insertable(s.rows, a.drafts) { DraftRowsAt(a.drafts); }
  }

  lemma UnheardWorkStays(s: State, a: Action, id: Id)
    requires Unheard(s, id)
    ensures forall m :: m in Next(s, a).broker.work ==> m.id != id
  {
    if a.Publish? && a.task in s.tasks && s.tasks[a.task].todo != [] {
      assert !Names(s.tasks[a.task].todo, id);
      assert s.tasks[a.task].todo[0].id != id;
    }
  }

  lemma UnheardTiersStay(s: State, a: Action, id: Id)
    requires Unheard(s, id)
    ensures forall p :: p in Next(s, a).broker.tiers ==> p.message.id != id
  {
  }

  lemma UnheardHandlersStay(s: State, a: Action, id: Id)
    requires Unheard(s, id)
    ensures forall tag :: tag in Next(s, a).handlers ==> Next(s, a).handlers[tag].message.id != id
  {
    forall tag | tag in Next(s, a).handlers ensures Next(s, a).handlers[tag].message.id != id {
      UnheardHandlerStays(s, a, id, tag);
    }
  }

  lemma UnheardHandlerStays(s: State, a: Action, id: Id, tag: nat)
    requires Unheard(s, id) && tag in Next(s, a).handlers
    ensures Next(s, a).handlers[tag].message.id != id
  {
    if tag !in s.handlers {
      FetchedHandler(s, a, tag);
    } else if WorkerAction(a) && a.tag == tag {
      WorkersKeepTheirMessage(s, a);
    } else {
      UntouchedHandler(s, a, tag);
    }
  }

  lemma UnheardTasksStay(s: State, a: Action, id: Id, task: nat)
    requires Sealed(s, id) && !Opens(s, a, id)
    requires task in Next(s, a).tasks
    ensures !Names(Next(s, a).tasks[task].todo, id)
  {
    if task in s.tasks {
      TodosOnlyShrink(s, a, task);
      NamesShrink(s.tasks[task].todo, id);
    } else {
      NewTodos(s, a, task, id);
    }
  }

  // A row inserted with a schedule time starts sealed.
  lemma {:induction false} ScheduledDraftsAreNotPublished(drafts: seq<Draft>, id: Id)
    requires forall d :: d in drafts && d.id == id ==> d.notification.status != Pending
    ensures !Names(PendingMessages(drafts), id)
  {
    if drafts != [] { ScheduledDraftsAreNotPublished(drafts[1..], id); }
  }

  lemma OnlyInsertsAdd(s: State, a: Action, id: Id)
    requires id !in s.rows && id in Next(s, a).rows
    ensures a.InsertDrafts? && Insertable(s.rows, a.drafts) && Initial(Next(s, a).rows[id])
    ensures forall d :: d in a.drafts && d.id == id ==> d.notification == Next(s, a).rows[id]
  {
    if TableAction(a) {
      if a.InsertDrafts? { DraftRowsAt(a.drafts); }
    } else if !WorkerAction(a) {
      OnlyTheseWrite(s, a);
    }
  }

  lemma UnknownIsUnheard(s: State, id: Id)
    requires Shape(s) && id !in s.rows
    ensures Unheard(s, id)
  {
    forall task | task in s.tasks ensures !Names(s.tasks[task].todo, id) {
      var todo := s.tasks[task].todo;
      assert TodoOk(s.rows, todo);
      forall i | 0 <= i < |todo| ensures todo[i].id != id { assert todo[i] in todo; }
    }
    forall tag | tag in s.handlers ensures s.handlers[tag].message.id != id {
      assert HandlerOk(s.rows, s.lives, s.handlers[tag]);
    }
  }

  lemma NewRowIsSealed(s: State, a: Action, id: Id)
    requires Shape(s) && id !in s.rows && id in Next(s, a).rows && Next(s, a).rows[id].scheduledAt.Some?
    ensures Sealed(Next(s, a), id)
  {
    OnlyInsertsAdd(s, a, id);
    NewRowIsUnheard(s, a, id);
  }

  lemma NewRowIsUnheard(s: State, a: Action, id: Id)
    requires Shape(s) && id !in s.rows && id in Next(s, a).rows && Next(s, a).rows[id].scheduledAt.Some?
    ensures Unheard(Next(s, a), id)
  {
    OnlyInsertsAdd(s, a, id);
    UnknownIsUnheard(s, id);
    ScheduledDraftsAreNotPublished(a.drafts, id);
    UnheardWorkStays(s, a, id);
    UnheardTiersStay(s, a, id);
    UnheardHandlersStay(s, a, id);
  }

  lemma StaysSealed(s: State, a: Action, id: Id)
    requires Sealed(s, id) && !Opens(s, a, id)
    ensures Sealed(Next(s, a), id)
  {
    SealedRowStays(s, a, id);
    UnheardWorkStays(s, a, id);
    UnheardTiersStay(s, a, id);
    UnheardHandlersStay(s, a, id);
    forall task | task in Next(s, a).tasks { UnheardTasksStay(s, a, id, task); }
  }

  // Step i of the run takes the row out of its sealed state.
  ghost predicate OpensAt(s0: State, run: seq<Action>, i: nat, id: Id) {
    && i < |run| && Sealed(Exec(s0, run[..i]), id) && Opens(Exec(s0, run[..i]), run[i], id)
    && Times(ClaimEvent, s0, run[..i], id) == 0 && Times(SendEvent, s0, run[..i], id) == 0
  }

  lemma SealedIsUntouched(maxAttempts: int, staleAfter: Time, run: seq<Action>, id: Id)
    requires Sealed(Exec(Init(maxAttempts, staleAfter), run), id)
    ensures Times(ClaimEvent, Init(maxAttempts, staleAfter), run, id) == 0
    ensures Times(SendEvent, Init(maxAttempts, staleAfter), run, id) == 0
  {
    var s := Exec(Init(maxAttempts, staleAfter), run);
    RunInv(maxAttempts, staleAfter, run);
    LedgerCountsTheRun(maxAttempts, staleAfter, run, id, ClaimEvent);
    LedgerCountsTheRun(maxAttempts, staleAfter, run, id, SendEvent);
    assert RowOk(s.rows[id], LifeOf(s.lives, id), s.maxAttempts);
  }

  lemma {:induction false} SealedOrOpened(maxAttempts: int, staleAfter: Time, run: seq<Action>, id: Id)
    requires var s := Exec(Init(maxAttempts, staleAfter), run); id in s.rows && s.rows[id].scheduledAt.Some?
    ensures var s0 := Init(maxAttempts, staleAfter); var s := Exec(s0, run);
            || (Sealed(s, id) && Times(ClaimEvent, s0, run, id) == 0 && Times(SendEvent, s0, run, id) == 0)
            || (exists i :: OpensAt(s0, run, i, id))
  {
    var s0 := Init(maxAttempts, staleAfter);
    var init, a := run[..|run| - 1], run[|run| - 1];
    var before := Exec(s0, init);
    if id !in before.rows {
      RunInv(maxAttempts, staleAfter, init);
      NewRowIsSealed(before, a, id);
      SealedIsUntouched(maxAttempts, staleAfter, run, id);
    } else {
      EveryWriteIsLegal(before, a, id);
      SealedOrOpened(maxAttempts, staleAfter, init, id);
      if i: nat :| OpensAt(s0, init, i, id) {
        OpenedBefore(s0, run, i, id);
      } else if Opens(before, a, id) {
        assert OpensAt(s0, run, |init|, id);
      } else {
        StaysSealed(before, a, id);
        SealedIsUntouched(maxAttempts, staleAfter, run, id);
      }
    }
  }

  lemma OpenedBefore(s0: State, run: seq<Action>, i: nat, id: Id)
    requires run != [] && OpensAt(s0, run[..|run| - 1], i, id)
    ensures OpensAt(s0, run, i, id)
  {
    assert run[..|run| - 1][..i] == run[..i];
  }

  lemma OpensQueues(s: State, a: Action, id: Id)
    requires Sealed(s, id) && Opens(s, a, id)
    ensures id in Next(s, a).rows && Next(s, a).rows[id].status == Queued
  {
  }

  lemma OpenedQueues(s0: State, run: seq<Action>, i: nat, id: Id)
    requires OpensAt(s0, run, i, id)
    ensures id in Exec(s0, run[..i + 1]).rows && Exec(s0, run[..i + 1]).rows[id].status == Queued
  {
    ExecPrefix(s0, run, i);
    OpensQueues(Exec(s0, run[..i]), run[i], id);
  }

  lemma OpenedInTime(s0: State, run: seq<Action>, i: nat, id: Id)
    requires OpensAt(s0, run, i, id) && id in Exec(s0, run).rows && Exec(s0, run).rows[id].scheduledAt.Some?
    ensures run[i].SweepDue? && id in run[i].ids && Exec(s0, run).rows[id].scheduledAt.value <= run[i].now
    ensures id in Exec(s0, run[..i]).rows && Exec(s0, run[..i]).rows[id].status == Scheduled
    ensures id in Exec(s0, run[..i + 1]).rows && Exec(s0, run[..i + 1]).rows[id].status == Queued
    ensures Unheard(Exec(s0, run[..i]), id)
  {
    var s := Exec(s0, run[..i]);
    assert run == run[..i] + run[i..];
    ExecConcat(s0, run[..i], run[i..]);
    TerminalIsFinal(s, run[i..], id);
    OpenedQueues(s0, run, i, id);
  }

  /** No early delivery: after any run, a row with a schedule time is either still scheduled or
      cancelled, was never claimed or sent, and no queue, tier, handler or task has anything for
      it; or some step of the run was a due sweep that took it with the database clock at or past
      that time, and until that step there had been no message, claim or Send for it. */
  lemma NoEarlyDelivery(maxAttempts: int, staleAfter: Time, run: seq<Action>, id: Id)
    requires var s := Exec(Init(maxAttempts, staleAfter), run); id in s.rows && s.rows[id].scheduledAt.Some?
    ensures var s0 := Init(maxAttempts, staleAfter); var s := Exec(s0, run);
            || (Unheard(s, id) && s.rows[id].status in {Scheduled, Cancelled}
                && Times(ClaimEvent, s0, run, id) == 0 && Times(SendEvent, s0, run, id) == 0)
            || (exists i :: 0 <= i < |run| && run[i].SweepDue? && id in run[i].ids
                  && s.rows[id].scheduledAt.value <= run[i].now
                  && id in Exec(s0, run[..i]).rows && Exec(s0, run[..i]).rows[id].status == Scheduled
                  && id in Exec(s0, run[..i + 1]).rows && Exec(s0, run[..i + 1]).rows[id].status == Queued
                  && Unheard(Exec(s0, run[..i]), id)
                  && Times(ClaimEvent, s0, run[..i], id) == 0 && Times(SendEvent, s0, run[..i], id) == 0)
  {
    var s0 := Init(maxAttempts, staleAfter);
    SealedOrOpened(maxAttempts, staleAfter, run, id);
    if i: nat :| OpensAt(s0, run, i, id) { OpenedInTime(s0, run, i, id); }
  }

  // How often the run moves the row into queued, by whichever scheduler or producer.
  function TimesQueued(s: State, run: seq<Action>, id: Id): nat {
    if run == [] then 0
    else
      var before := Exec(s, run[..|run| - 1]);
      var after := Exec(s, run);
      TimesQueued(s, run[..|run| - 1], id)
        + One(id in after.rows && after.rows[id].status == Queued && id in before.rows
            && before.rows[id].status != Queued)
  }

  /** However many schedulers sweep at once, a row enters the queue at most once. */
  lemma {:induction false} QueuedOnce(maxAttempts: int, staleAfter: Time, run: seq<Action>, id: Id)
    ensures var s := Exec(Init(maxAttempts, staleAfter), run);
            TimesQueued(Init(maxAttempts, staleAfter), run, id)
              <= if id in s.rows && Rank(s.rows[id].status) > 0 then 1 else 0
  {
    if run != [] {
      var init := run[..|run| - 1];
      var before := Exec(Init(maxAttempts, staleAfter), init);
      QueuedOnce(maxAttempts, staleAfter, init, id);
      if id in before.rows { EveryWriteIsLegal(before, run[|run| - 1], id); }
    }
  }
}
