/** Every row of every reachable state satisfies the row invariant, whatever the
    interleaving of workers, schedulers, producers, cancels, crashes and redeliveries.
 */
module Invariant {
  import opened Domain
  import opened Statements
  import opened Protocol
  import opened Structure
  import opened Ledger

  ghost predicate RowsOk(s: State) {
    forall id :: id in s.rows ==> RowOk(s.rows[id], LifeOf(s.lives, id), s.maxAttempts)
  }

  ghost predicate Inv(s: State) {
    Shape(s) && RowsOk(s)
  }

  // A handler's step rewrites its own claim's ledger entry and at most its own row.
  lemma TicketRowsOk(s: State, s': State, tag: nat, n': Notification, phase: Phase)
    requires Inv(s) && tag in s.handlers && HasTicket(s.handlers[tag].pc)
    requires var id, k := s.handlers[tag].message.id, s.handlers[tag].pc.t.k; var n := s.rows[id];
             && PhaseStep(LifeOf(s.lives, id).ledger[k - 1], phase, k, s.maxAttempts, n.status, n'.status)
             && n'.attempts == n.attempts && n'.scheduledAt == n.scheduledAt
             && (n'.status == Sent <==> n'.sentAt.Some?) && (n'.status == Sent <==> n'.providerMessageId.Some?)
             && s'.maxAttempts == s.maxAttempts && s'.lives == Mark(s.lives, id, k, phase)
             && (s'.rows == s.rows[id := n'] || (n' == n && s'.rows == s.rows))
    ensures RowsOk(s')
  {
    OwnClaim(s, tag);
    assert s.rows[s.handlers[tag].message.id := s.rows[s.handlers[tag].message.id]] == s.rows;
    OutcomeRowOk(s, s', s.handlers[tag].message.id, s.handlers[tag].pc.t.k, n', phase);
  }

  // A write to one row that also writes the entry of one of its claims.
  lemma OutcomeRowOk(s: State, s': State, id: Id, k: nat, n': Notification, phase: Phase)
    requires RowsOk(s) && id in s.rows && 1 <= k <= |LifeOf(s.lives, id).ledger|
    requires PhaseStep(LifeOf(s.lives, id).ledger[k - 1], phase, k, s.maxAttempts, s.rows[id].status, n'.status)
    requires n'.attempts == s.rows[id].attempts && n'.scheduledAt == s.rows[id].scheduledAt
    requires (n'.status == Sent <==> n'.sentAt.Some?) && (n'.status == Sent <==> n'.providerMessageId.Some?)
    requires s'.maxAttempts == s.maxAttempts && s'.lives == Mark(s.lives, id, k, phase) && s'.rows == s.rows[id := n']
    ensures RowsOk(s')
  {
    assert LifeOf(s'.lives, id) == SetPhase(LifeOf(s.lives, id), k, phase);
    PhaseStepOk(s.rows[id], LifeOf(s.lives, id), s.maxAttempts, k, phase, n');
    OneRowChanged(s, s', id);
  }

  // All rows but one stay as they are, with their ledgers, and that one is fine.
  lemma OneRowChanged(s: State, s': State, id: Id)
    requires RowsOk(s) && s'.maxAttempts == s.maxAttempts
    requires forall other :: other in s'.rows && other != id ==>
               other in s.rows && s'.rows[other] == s.rows[other] && LifeOf(s'.lives, other) == LifeOf(s.lives, other)
    requires id in s'.rows ==> RowOk(s'.rows[id], LifeOf(s'.lives, id), s'.maxAttempts)
    ensures RowsOk(s')
  {
    forall other | other in s'.rows ensures RowOk(s'.rows[other], LifeOf(s'.lives, other), s'.maxAttempts) {
      if other != id { assert RowOk(s.rows[other], LifeOf(s.lives, other), s.maxAttempts); }
    }
  }

  // What a handler with a claim can rely on: its row, and its own ledger entry.
  lemma OwnClaim(s: State, tag: nat)
    requires Inv(s) && tag in s.handlers
    ensures s.handlers[tag].message.id in s.rows
    ensures var h := s.handlers[tag]; HasTicket(h.pc) ==>
              && 1 <= h.pc.t.k <= |LifeOf(s.lives, h.message.id).ledger|
              && Matches(h.pc, LifeOf(s.lives, h.message.id).ledger[h.pc.t.k - 1])
    ensures var n := s.rows[s.handlers[tag].message.id];
            (n.status == Sent <==> n.sentAt.Some?) && (n.status == Sent <==> n.providerMessageId.Some?)
  {
    assert HandlerOk(s.rows, s.lives, s.handlers[tag]);
    assert RowOk(s.rows[s.handlers[tag].message.id], LifeOf(s.lives, s.handlers[tag].message.id), s.maxAttempts);
  }

  lemma ClaimedRowsOk(s: State, s': State, id: Id, now: Time)
    requires RowsOk(s) && id in s.rows && s.rows[id].status in {Pending, Queued, Retrying}
    requires s'.maxAttempts == s.maxAttempts
    requires s'.rows == s.rows[id := ClaimedRow(s.rows[id], now)] && s'.lives == NewClaim(s.lives, id)
    ensures RowsOk(s')
  {
    ClaimOk(s.rows[id], LifeOf(s.lives, id), s.maxAttempts, now);
    OneRowChanged(s, s', id);
  }

  lemma ClaimRowsOk(s: State, tag: nat, now: Time, io: Io)
    requires RowsOk(s)
    ensures RowsOk(DoClaim(s, tag, now, io))
  {
    if tag in s.handlers && s.handlers[tag].pc.Fetched? && !io.NotRun?
       && Guarded(s.rows, s.handlers[tag].message.id, AllowedInto(Processing))
    {
      var id := s.handlers[tag].message.id;
      AllowedIntoIsExact(s.rows[id].status, Processing);
      ClaimedRowsOk(s, DoClaim(s, tag, now, io), id, now);
    } else {
      RowsOnly(s, DoClaim(s, tag, now, io));
    }
  }

  lemma ReleaseRowsOk(s: State, tag: nat, now: Time, io: Io)
    requires Inv(s)
    ensures RowsOk(DoRelease(s, tag, now, io))
  {
    if tag in s.handlers && s.handlers[tag].pc.Claimed? {
      var s', id := DoRelease(s, tag, now, io), s.handlers[tag].message.id;
      OwnClaim(s, tag);
      if !io.NotRun? && Held(s.rows, id) {
        TicketRowsOk(s, s', tag, OutcomeRow(s.rows[id], Retrying, INTERRUPTED, now), Released);
      } else {
        TicketRowsOk(s, s', tag, s.rows[id], Dropped);
      }
    }
  }

  lemma SendRowsOk(s: State, tag: nat, result: SendResult)
    requires Inv(s)
    ensures RowsOk(DoSend(s, tag, result))
  {
    if tag in s.handlers && s.handlers[tag].pc.Claimed? {
      OwnClaim(s, tag);
      TicketRowsOk(s, DoSend(s, tag, result), tag, s.rows[s.handlers[tag].message.id],
                   if result.Success? then Delivered(true) else Faulted(result.Retryable?));
    }
  }

  lemma RecordSentRowsOk(s: State, tag: nat, providerId: string, sentAt: Time, now: Time, io: Io)
    requires Inv(s)
    ensures RowsOk(DoRecordSent(s, tag, providerId, sentAt, now, io))
  {
    if tag in s.handlers && s.handlers[tag].pc.SendOk? {
      var s', n := DoRecordSent(s, tag, providerId, sentAt, now, io), s.rows[s.handlers[tag].message.id];
      OwnClaim(s, tag);
      if !io.NotRun? && n.status == Processing {
        TicketRowsOk(s, s', tag, SentRow(n, providerId, sentAt, now), Delivered(false));
      } else {
        TicketRowsOk(s, s', tag, n, Delivered(false));
      }
    }
  }

  // A failed send whose outcome write does not take effect.
  lemma SpentRowsOk(s: State, s': State, tag: nat)
    requires Inv(s) && tag in s.handlers && s.handlers[tag].pc.SendFailed?
    requires s'.rows == s.rows && s'.maxAttempts == s.maxAttempts
    requires s'.lives == Mark(s.lives, s.handlers[tag].message.id, s.handlers[tag].pc.t.k, Spent)
    ensures RowsOk(s')
  {
    OwnClaim(s, tag);
    TicketRowsOk(s, s', tag, s.rows[s.handlers[tag].message.id], Spent);
  }

  // ... and one whose outcome write does.
  lemma FailedRowsOk(s: State, s': State, tag: nat, to: Status, error: string, now: Time, phase: Phase)
    requires Inv(s) && tag in s.handlers && s.handlers[tag].pc.SendFailed? && Held(s.rows, s.handlers[tag].message.id)
    requires if to == Retrying then phase == Retried && s.handlers[tag].pc.t.k < s.maxAttempts
             else to == Failed && phase == Buried(!s.handlers[tag].pc.retryable) && !RetryAllowed(s, s.handlers[tag].pc)
    requires s'.rows == RecordOutcome(s.rows, s.handlers[tag].message.id, to, error, now)
               && s'.maxAttempts == s.maxAttempts
    requires s'.lives == Mark(s.lives, s.handlers[tag].message.id, s.handlers[tag].pc.t.k, phase)
    ensures RowsOk(s')
  {
    OwnClaim(s, tag);
    TicketRowsOk(s, s', tag, OutcomeRow(s.rows[s.handlers[tag].message.id], to, error, now), phase);
  }

  lemma RecordRetryRowsOk(s: State, tag: nat, error: string, now: Time, io: Io)
    requires Inv(s)
    ensures RowsOk(DoRecordRetry(s, tag, error, now, io))
  {
    if tag in s.handlers && s.handlers[tag].pc.SendFailed? && RetryAllowed(s, s.handlers[tag].pc) {
      if !io.NotRun? && Held(s.rows, s.handlers[tag].message.id) {
        FailedRowsOk(s, DoRecordRetry(s, tag, error, now, io), tag, Retrying, error, now, Retried);
      } else {
        SpentRowsOk(s, DoRecordRetry(s, tag, error, now, io), tag);
      }
    }
  }

  lemma RecordFailureRowsOk(s: State, tag: nat, error: string, now: Time, io: Io)
    requires Inv(s)
    ensures RowsOk(DoRecordFailure(s, tag, error, now, io))
  {
    if tag in s.handlers && s.handlers[tag].pc.SendFailed? && !RetryAllowed(s, s.handlers[tag].pc) {
      if !io.NotRun? && Held(s.rows, s.handlers[tag].message.id) {
        FailedRowsOk(s, DoRecordFailure(s, tag, error, now, io), tag, Failed, error, now,
            Buried(!s.handlers[tag].pc.retryable));
      } else {
        SpentRowsOk(s, DoRecordFailure(s, tag, error, now, io), tag);
      }
    }
  }

  lemma PublishRetryRowsOk(s: State, tag: nat, receipt: Receipt)
    requires Inv(s)
    ensures RowsOk(DoPublishRetry(s, tag, receipt))
  {
    if tag in s.handlers && s.handlers[tag].pc.RetryMarked? && !receipt.Refused? {
      OwnClaim(s, tag);
      TicketRowsOk(s, DoPublishRetry(s, tag, receipt), tag, s.rows[s.handlers[tag].message.id], Tiered);
    }
  }

  lemma DeadLetterRowsOk(s: State, tag: nat, receipt: Receipt)
    requires Inv(s)
    ensures RowsOk(DoPublishDeadLetter(s, tag, receipt))
  {
    if tag in s.handlers && s.handlers[tag].pc.FailMarked? && !receipt.Refused? {
      OwnClaim(s, tag);
      TicketRowsOk(s, DoPublishDeadLetter(s, tag, receipt), tag, s.rows[s.handlers[tag].message.id],
                   DeadLettered(!s.handlers[tag].pc.retryable));
    }
  }

  lemma WorkerRowsOk(s: State, a: Action)
    requires Inv(s) && WorkerAction(a)
    ensures RowsOk(Next(s, a))
  {
    if a.Claim? || a.Release? || a.Send? { DeliveryRowsOk(s, a); } else { OutcomeRowsOk(s, a); }
  }

  lemma DeliveryRowsOk(s: State, a: Action)
    requires Inv(s) && (a.Claim? || a.Release? || a.Send?)
    ensures RowsOk(Next(s, a))
  {
    match a
    case Claim(tag, now, io) => ClaimRowsOk(s, tag, now, io);
    case Release(tag, now, io) => ReleaseRowsOk(s, tag, now, io);
    case Send(tag, result) => SendRowsOk(s, tag, result);
  }

  lemma OutcomeRowsOk(s: State, a: Action)
    requires Inv(s) && WorkerAction(a) && !(a.Claim? || a.Release? || a.Send?)
    ensures RowsOk(Next(s, a))
  {
    match a
    case RecordSent(tag, providerId, sentAt, now, io) => RecordSentRowsOk(s, tag, providerId, sentAt, now, io);
    case RecordRetry(tag, error, now, io) => RecordRetryRowsOk(s, tag, error, now, io);
    case RecordFailure(tag, error, now, io) => RecordFailureRowsOk(s, tag, error, now, io);
    case PublishRetry(tag, receipt) => PublishRetryRowsOk(s, tag, receipt);
    case PublishDeadLetter(tag, receipt) => DeadLetterRowsOk(s, tag, receipt);
  }

  // Cancels, queued marks and touches: the row at id before and after.
  lemma UnclaimedRowOk(s: State, id: Id, n': Notification, now: Time)
    requires RowsOk(s) && id in s.rows
    requires var n := s.rows[id];
             || n' == n || n' == n.(updatedAt := now)
             || (n.status in {Pending, Scheduled, Queued}
                 && (n' == WithStatus(n, Queued, now) || n' == WithStatus(n, Cancelled, now)))
    ensures RowOk(n', LifeOf(s.lives, id), s.maxAttempts)
  {
    var n := s.rows[id];
    if n.status in {Pending, Scheduled, Queued} && n' == WithStatus(n, n'.status, now)
       && n'.status in {Queued, Cancelled}
    {
      UnclaimedWriteOk(n, LifeOf(s.lives, id), s.maxAttempts, n'.status, now);
    }
  }

  lemma UnclaimedRowsOk(s: State, rows': Rows, now: Time)
    requires RowsOk(s) && rows'.Keys == s.rows.Keys
    requires forall id :: id in s.rows ==>
               var n, n' := s.rows[id], rows'[id];
               || n' == n || n' == n.(updatedAt := now)
               || (n.status in {Pending, Scheduled, Queued}
                   && (n' == WithStatus(n, Queued, now) || n' == WithStatus(n, Cancelled, now)))
    ensures RowsOk(s.(rows := rows'))
  {
    forall id | id in rows' ensures RowOk(rows'[id], LifeOf(s.lives, id), s.maxAttempts) {
      UnclaimedRowOk(s, id, rows'[id], now);
    }
  }

  lemma InsertRowsOk(s: State, task: nat, drafts: seq<Draft>, io: Io)
    requires Inv(s)
    ensures RowsOk(DoInsert(s, task, drafts, io))
  {
    if !(task in s.tasks || io.NotRun? || !Insertable(s.rows, drafts)) {
      DraftRowsAt(drafts);
      var s' := DoInsert(s, task, drafts, io);
      forall id | id in s'.rows ensures RowOk(s'.rows[id], LifeOf(s'.lives, id), s.maxAttempts) {
        if id !in s.rows { NewRowOk(s'.rows[id], s.maxAttempts); }
      }
    }
  }

  lemma SweepProcessingRowsOk(s: State, task: nat, ids: seq<Id>, now: Time)
    requires Inv(s)
    ensures RowsOk(DoSweepProcessing(s, task, ids, now))
  {
    if task !in s.tasks && ProcessingSweep(s.rows, ids, now, s.staleAfter) {
      var s' := DoSweepProcessing(s, task, ids, now);
      forall id | id in s'.rows ensures RowOk(s'.rows[id], LifeOf(s'.lives, id), s.maxAttempts) {
        if id in ids { RecoveryOk(s.rows[id], LifeOf(s.lives, id), s.maxAttempts, now); }
      }
    }
  }

  lemma CancelRowsOk(s: State, id: Id, now: Time)
    requires RowsOk(s)
    ensures RowsOk(s.(rows := UpdateStatus(s.rows, id, Cancelled, AllowedInto(Cancelled), now)))
  {
    if id in s.rows { AllowedIntoIsExact(s.rows[id].status, Cancelled); }
    UnclaimedRowsOk(s, UpdateStatus(s.rows, id, Cancelled, AllowedInto(Cancelled), now), now);
  }

  lemma MarkQueuedRowsOk(s: State, task: nat, now: Time)
    requires Inv(s)
    ensures RowsOk(DoMarkQueued(s, task, now))
  {
    if task in s.tasks { UnclaimedRowsOk(s, MarkQueuedBulk(s.rows, s.tasks[task].confirmed, now), now); }
  }

  lemma SweepDueRowsOk(s: State, task: nat, ids: seq<Id>, now: Time)
    requires Inv(s)
    ensures RowsOk(DoSweepDue(s, task, ids, now))
  {
    if DueSweep(s.rows, ids, now, s.staleAfter) { UnclaimedRowsOk(s, ClaimDueForQueue(s.rows, ids, now), now); }
  }

  lemma RowsOnly(s: State, s': State)
    requires RowsOk(s) && s'.rows == s.rows && s'.lives == s.lives && s'.maxAttempts == s.maxAttempts
    ensures RowsOk(s')
  {
  }

  predicate TableAction(a: Action) {
    a.InsertDrafts? || a.Cancel? || a.Touch? || a.MarkQueued? || a.SweepDue? || a.SweepProcessing?
  }

  lemma TableRowsOk(s: State, a: Action)
    requires Inv(s) && TableAction(a)
    ensures RowsOk(Next(s, a))
  {
    match a
    case InsertDrafts(task, drafts, io) => InsertRowsOk(s, task, drafts, io);
    case Cancel(id, now) => CancelRowsOk(s, id, now);
    case Touch(_, id, now) => UnclaimedRowsOk(s, TouchQueued(s.rows, id, now), now);
    case MarkQueued(task, now) => MarkQueuedRowsOk(s, task, now);
    case SweepDue(task, ids, now) => SweepDueRowsOk(s, task, ids, now);
    case SweepProcessing(task, ids, now) => SweepProcessingRowsOk(s, task, ids, now);
  }

  // No other action touches a row or a ledger.
  lemma OnlyTheseWrite(s: State, a: Action)
    requires !TableAction(a) && !WorkerAction(a)
    ensures Next(s, a).rows == s.rows && Next(s, a).lives == s.lives
    ensures Next(s, a).maxAttempts == s.maxAttempts
  {
  }

  lemma NextInv(s: State, a: Action)
    requires Inv(s)
    ensures Inv(Next(s, a))
  {
    NextKeeps(s, a);
    if TableAction(a) {
      TableRowsOk(s, a);
    } else if WorkerAction(a) {
      WorkerRowsOk(s, a);
    } else {
      OnlyTheseWrite(s, a);
      RowsOnly(s, Next(s, a));
    }
  }

  /** The invariant holds throughout every run, from an empty deployment on. */
  lemma {:induction false} RunInv(maxAttempts: int, staleAfter: Time, run: seq<Action>)
    ensures Inv(Exec(Init(maxAttempts, staleAfter), run))
  {
    if run != [] {
      RunInv(maxAttempts, staleAfter, run[..|run| - 1]);
      NextInv(Exec(Init(maxAttempts, staleAfter), run[..|run| - 1]), run[|run| - 1]);
    }
  }
}
