/** The life of one notification over a whole run: every write by every component is a legal
    step of the status machine, terminal statuses are final, a cancelled notification is never
    sent, a claim has one owner, and the processing/retrying cycle cannot go on for ever.
 */
module Lifecycle {
  import opened Domain
  import opened Statements
  import opened Protocol
  import opened Structure
  import opened Ledger
  import opened Invariant
  import opened Bounds

  // What one step of the deployment may do to a stored row.
  ghost predicate RowStep(n: Notification, n': Notification) {
    && ((n'.status == n.status && n'.attempts == n.attempts)
        || (CanTransition(n.status, n'.status) && n'.attempts == n.attempts + One(n'.status == Processing)
            && (n.status == Retrying ==> n'.status == Processing)))
    && SameIdentity(n, n')
  }

  // The columns that no statement writes after the insert.
  predicate SameIdentity(n: Notification, n': Notification) {
    && n'.batchId == n.batchId && n'.recipient == n.recipient && n'.channel == n.channel && n'.content == n.content
    && n'.idempotencyKey == n.idempotencyKey && n'.scheduledAt == n.scheduledAt && n'.createdAt == n.createdAt
  }

  lemma GuardsAreLegal(status: Status)
    ensures status in AllowedInto(Processing) <==> status in {Pending, Queued, Retrying}
    ensures status in AllowedInto(Cancelled) <==> status in {Pending, Scheduled, Queued}
    ensures forall to :: to in {Sent, Retrying, Failed} ==> CanTransition(Processing, to)
    ensures CanTransition(Pending, Queued) && CanTransition(Scheduled, Queued)
  {
    AllowedIntoIsExact(status, Processing);
    AllowedIntoIsExact(status, Cancelled);
    assert Transitions(Processing) == [Sent, Retrying, Failed];
    assert Transitions(Pending)[0] == Queued && Transitions(Scheduled)[0] == Queued;
  }

  // What a whole statement may do to the table.
  ghost predicate RowsStep(rows: Rows, rows': Rows) {
    forall id :: id in rows ==> id in rows' && RowStep(rows[id], rows'[id])
  }

  lemma ClaimRowsStep(rows: Rows, id: Id, now: Time)
    ensures RowsStep(rows, ClaimForProcessing(rows, id, AllowedInto(Processing), now))
  {
    if id in rows { AllowedIntoIsExact(rows[id].status, Processing); }
  }

  lemma OutcomeRowsStep(rows: Rows, id: Id, to: Status, error: string, now: Time)
    requires to in {Retrying, Failed}
    ensures RowsStep(rows, RecordOutcome(rows, id, to, error, now))
  {
    GuardsAreLegal(Processing);
  }

  lemma SentRowsStep(rows: Rows, id: Id, providerId: string, sentAt: Time, now: Time)
    ensures RowsStep(rows, MarkSent(rows, id, providerId, sentAt, now))
  {
    GuardsAreLegal(Processing);
  }

  // The statement of a worker's step, if it has one, as it leaves the table.
  function WorkerStatement(rows: Rows, a: Action, id: Id): Rows
    requires WorkerAction(a)
  {
    match a
    case Claim(_, now, _) => ClaimForProcessing(rows, id, AllowedInto(Processing), now)
    case Release(_, now, _) => RecordOutcome(rows, id, Retrying, INTERRUPTED, now)
    case RecordSent(_, providerId, sentAt, now, _) => MarkSent(rows, id, providerId, sentAt, now)
    case RecordRetry(_, error, now, _) => RecordOutcome(rows, id, Retrying, error, now)
    case RecordFailure(_, error, now, _) => RecordOutcome(rows, id, Failed, error, now)
    case Send(_, _) => rows
    case PublishRetry(_, _) => rows
    case PublishDeadLetter(_, _) => rows
  }

  lemma WorkersRunTheirStatement(s: State, a: Action)
    requires WorkerAction(a)
    ensures Next(s, a).rows == s.rows ||
            (a.tag in s.handlers && Next(s, a).rows == WorkerStatement(s.rows, a, s.handlers[a.tag].message.id))
  {
  }

  lemma WorkerStatementStep(rows: Rows, a: Action, id: Id)
    requires WorkerAction(a)
    ensures RowsStep(rows, WorkerStatement(rows, a, id))
  {
    match a
    case Claim(_, now, _) => ClaimRowsStep(rows, id, now);
    case Release(_, now, _) => OutcomeRowsStep(rows, id, Retrying, INTERRUPTED, now);
    case RecordSent(_, providerId, sentAt, now, _) => SentRowsStep(rows, id, providerId, sentAt, now);
    case RecordRetry(_, error, now, _) => OutcomeRowsStep(rows, id, Retrying, error, now);
    case RecordFailure(_, error, now, _) => OutcomeRowsStep(rows, id, Failed, error, now);
    case Send(_, _) =>
    case PublishRetry(_, _) =>
    case PublishDeadLetter(_, _) =>
  }

  lemma WorkerRowsStep(s: State, a: Action)
    requires WorkerAction(a)
    ensures RowsStep(s.rows, Next(s, a).rows)
  {
    WorkersRunTheirStatement(s, a);
    if a.tag in s.handlers { WorkerStatementStep(s.rows, a, s.handlers[a.tag].message.id); }
  }

  lemma InsertRowsStep(rows: Rows, drafts: seq<Draft>)
    ensures RowsStep(rows, Insert(rows, drafts))
  {
    if Insertable(rows, drafts) { DraftRowsAt(drafts); }
  }

  lemma DueRowsStep(rows: Rows, ids: seq<Id>, now: Time, staleAfter: Time)
    requires DueSweep(rows, ids, now, staleAfter)
    ensures RowsStep(rows, ClaimDueForQueue(rows, ids, now))
  {
    GuardsAreLegal(Queued);
  }

  lemma RecoveredRowsStep(rows: Rows, ids: seq<Id>, now: Time, staleAfter: Time)
    requires ProcessingSweep(rows, ids, now, staleAfter)
    ensures RowsStep(rows, RecoverStaleProcessing(rows, ids, now))
  {
    GuardsAreLegal(Processing);
  }

  lemma CancelRowsStep(rows: Rows, id: Id, now: Time)
    ensures RowsStep(rows, UpdateStatus(rows, id, Cancelled, AllowedInto(Cancelled), now))
  {
    if id in rows { AllowedIntoIsExact(rows[id].status, Cancelled); }
  }

  lemma QueuedRowsStep(rows: Rows, ids: seq<Id>, now: Time)
    ensures RowsStep(rows, MarkQueuedBulk(rows, ids, now))
  {
    GuardsAreLegal(Queued);
  }

  lemma TableRowsStep(s: State, a: Action)
    requires TableAction(a)
    ensures RowsStep(s.rows, Next(s, a).rows)
  {
    match a
    case InsertDrafts(_, drafts, _) => InsertRowsStep(s.rows, drafts);
    case Cancel(id, now) => CancelRowsStep(s.rows, id, now);
    case Touch(_, id, now) =>
    case MarkQueued(task, now) => if task in s.tasks { QueuedRowsStep(s.rows, s.tasks[task].confirmed, now); }
    case SweepDue(_, ids, now) =>
      if DueSweep(s.rows, ids, now, s.staleAfter) { DueRowsStep(s.rows, ids, now, s.staleAfter); }
    case SweepProcessing(_, ids, now) =>
      if ProcessingSweep(s.rows, ids, now, s.staleAfter) { RecoveredRowsStep(s.rows, ids, now, s.staleAfter); }
  }

  /** Refinement: in any state, any action of any component leaves a row's status alone or
      moves it one step that the status machine allows; a row is never removed, its identity
      columns never change, and its claim counter moves exactly when it is claimed. */
  lemma EveryWriteIsLegal(s: State, a: Action, id: Id)
    requires id in s.rows
    ensures id in Next(s, a).rows && RowStep(s.rows[id], Next(s, a).rows[id])
    ensures var n, n' := s.rows[id], Next(s, a).rows[id];
            || (n'.status == n.status && n'.attempts == n.attempts)
            || (n.status in {Pending, Queued, Retrying} && n'.status == Processing && n'.attempts == n.attempts + 1)
            || (n.status in {Pending, Scheduled} && n'.status == Queued && n'.attempts == n.attempts)
            || (n.status in {Pending, Scheduled, Queued} && n'.status == Cancelled && n'.attempts == n.attempts)
            || (n.status == Processing && n'.status in {Sent, Retrying, Failed} && n'.attempts == n.attempts)
  {
    GuardsAreLegal(s.rows[id].status);
    if WorkerAction(a) {
      WorkerRowsStep(s, a);
    } else if TableAction(a) {
      TableRowsStep(s, a);
    } else {
      OnlyTheseWrite(s, a);
    }
  }

  /** Sent, failed and cancelled are final over whole runs, and identity columns are immutable. */
  lemma {:induction false} TerminalIsFinal(s: State, run: seq<Action>, id: Id)
    requires id in s.rows
    ensures id in Exec(s, run).rows
    ensures var n, n' := s.rows[id], Exec(s, run).rows[id];
            && n'.batchId == n.batchId && n'.recipient == n.recipient && n'.channel == n.channel
            && n'.content == n.content && n'.idempotencyKey == n.idempotencyKey
            && n'.scheduledAt == n.scheduledAt && n'.createdAt == n.createdAt
            && n'.attempts >= n.attempts
            && (n.status in {Sent, Failed, Cancelled} ==> n'.status == n.status && n'.attempts == n.attempts)
  {
    if run != [] {
      TerminalIsFinal(s, run[..|run| - 1], id);
      EveryWriteIsLegal(Exec(s, run[..|run| - 1]), run[|run| - 1], id);
    }
  }

  lemma RowColumns(n: Notification, l: Life, maxAttempts: int)
    requires RowOk(n, l, maxAttempts)
    ensures (n.sentAt.Some? <==> n.status == Sent) && (n.providerMessageId.Some? <==> n.status == Sent)
    ensures n.status == Sent ==> Count(Successes, l.ledger) >= 1
    ensures n.status == Failed ==> n.attempts >= maxAttempts || HasCondemned(l.ledger)
  {
    if n.status == Failed {
      var i := SomeEntry(Failures, l.ledger);
      assert l.ledger[i].permanent ==> Condemned(l.ledger[i]);
    }
  }

  // A handler's Send for the notification is refused for good.
  predicate RefusedForGood(s: State, a: Action, id: Id) {
    a.Send? && a.result.Permanent? && WorksOn(s, a.tag, id) && s.handlers[a.tag].pc.Claimed?
  }

  // The entries of a claim whose Send was refused for good.
  predicate Condemned(p: Phase) {
    p == Faulted(false) || p == Buried(true) || p == DeadLettered(true)
  }

  predicate HasCondemned(ledger: seq<Phase>) {
    exists i :: 0 <= i < |ledger| && Condemned(ledger[i])
  }

  lemma CondemnedWrite(s: State, a: Action, id: Id)
    requires WorkerAction(a) && WorksOn(s, a.tag, id) && HandlerOk(s.rows, s.lives, s.handlers[a.tag])
    requires Entry(s, a).Some? && Condemned(Entry(s, a).value)
    ensures HasCondemned(LifeOf(s.lives, id).ledger) || RefusedForGood(s, a, id)
  {
    var h := s.handlers[a.tag];
    assert HasTicket(h.pc) && Matches(h.pc, LifeOf(s.lives, id).ledger[h.pc.t.k - 1]);
  }

  lemma WrittenCondemned(l: Life, pc: Pc, entry: Option<Phase>)
    requires HasCondemned(Written(l, pc, entry).ledger)
    ensures HasCondemned(l.ledger) || (entry.Some? && Condemned(entry.value))
  {
    var ledger := Written(l, pc, entry).ledger;
    var i :| 0 <= i < |ledger| && Condemned(ledger[i]);
    assert (i < |l.ledger| && ledger[i] == l.ledger[i]) || (entry.Some? && ledger[i] == entry.value);
  }

  lemma CondemnedByWorker(s: State, a: Action, id: Id)
    requires WorkerAction(a) && WorksOn(s, a.tag, id) && HandlerOk(s.rows, s.lives, s.handlers[a.tag])
    requires HasCondemned(LifeOf(Next(s, a).lives, id).ledger)
    ensures HasCondemned(LifeOf(s.lives, id).ledger) || RefusedForGood(s, a, id)
  {
    LifeAfterWork(s, a, id);
    WrittenCondemned(LifeOf(s.lives, id), s.handlers[a.tag].pc, Entry(s, a));
    if Entry(s, a).Some? && Condemned(Entry(s, a).value) { CondemnedWrite(s, a, id); }
  }

  lemma CondemnedStep(s: State, a: Action, id: Id)
    requires LedgersOk(s.rows, s.lives) && HandlersOk(s.rows, s.lives, s.handlers)
    requires HasCondemned(LifeOf(Next(s, a).lives, id).ledger)
    ensures HasCondemned(LifeOf(s.lives, id).ledger) || RefusedForGood(s, a, id)
  {
    if !WorkerAction(a) {
      LifeAfterOthers(s, a, id);
    } else if !WorksOn(s, a.tag, id) {
      IdleCounts(s, a, id, SendEvent);
    } else {
      CondemnedByWorker(s, a, id);
    }
  }

  ghost predicate RefusedAt(s0: State, run: seq<Action>, i: nat, id: Id) {
    i < |run| && RefusedForGood(Exec(s0, run[..i]), run[i], id)
  }

  lemma RefusedBefore(s0: State, run: seq<Action>, n: nat, i: nat, id: Id)
    requires n <= |run| && RefusedAt(s0, run[..n], i, id)
    ensures RefusedAt(s0, run, i, id)
  {
    assert run[..n][..i] == run[..i];
  }

  lemma {:induction false} CondemnedWasRefused(maxAttempts: int, staleAfter: Time, run: seq<Action>, id: Id)
    requires HasCondemned(LifeOf(Exec(Init(maxAttempts, staleAfter), run).lives, id).ledger)
    ensures exists i: nat :: RefusedAt(Init(maxAttempts, staleAfter), run, i, id)
  {
    var s0 := Init(maxAttempts, staleAfter);
    if run != [] {
      var n := |run| - 1;
      RunInv(maxAttempts, staleAfter, run[..n]);
      CondemnedStep(Exec(s0, run[..n]), run[n], id);
      if RefusedForGood(Exec(s0, run[..n]), run[n], id) {
        assert RefusedAt(s0, run, n, id);
      } else {
        CondemnedWasRefused(maxAttempts, staleAfter, run[..n], id);
        var i: nat :| RefusedAt(s0, run[..n], i, id);
        RefusedBefore(s0, run, n, i, id);
      }
    }
  }

  /** What the terminal columns mean in every reachable state: sent_at and provider_message_id
      are set exactly on sent rows, a sent row had a successful Send, the attempts column counts
      the claims, and for a failed row a Send was refused for good or no attempts are left. */
  lemma TerminalColumns(maxAttempts: int, staleAfter: Time, run: seq<Action>, id: Id)
    requires id in Exec(Init(maxAttempts, staleAfter), run).rows
    ensures var s := Init(maxAttempts, staleAfter); var n := Exec(s, run).rows[id];
            && (n.sentAt.Some? <==> n.status == Sent) && (n.providerMessageId.Some? <==> n.status == Sent)
            && (n.status == Sent ==> Times(SuccessEvent, s, run, id) >= 1)
            && n.attempts == Times(ClaimEvent, s, run, id)
    ensures var s := Init(maxAttempts, staleAfter); var n := Exec(s, run).rows[id];
            n.status == Failed && n.attempts < maxAttempts ==>
              exists i: nat :: i < |run| && run[i].Send? && run[i].result == Permanent
                && var h := Exec(s, run[..i]).handlers;
                   run[i].tag in h && h[run[i].tag].message.id == id && h[run[i].tag].pc.Claimed?
  {
    var s := Exec(Init(maxAttempts, staleAfter), run);
    RunInv(maxAttempts, staleAfter, run);
    ConfigurationStays(Init(maxAttempts, staleAfter), run);
    LedgerCountsTheRun(maxAttempts, staleAfter, run, id, SuccessEvent);
    LedgerCountsTheRun(maxAttempts, staleAfter, run, id, ClaimEvent);
    RowColumns(s.rows[id], LifeOf(s.lives, id), maxAttempts);
    if s.rows[id].status == Failed && s.rows[id].attempts < maxAttempts {
      CondemnedWasRefused(maxAttempts, staleAfter, run, id);
    }
  }

  lemma {:induction false} SomeEntry(c: Class, ledger: seq<Phase>) returns (i: nat)
    requires Count(c, ledger) >= 1
    ensures i < |ledger| && In(c, ledger[i])
  {
    if In(c, ledger[|ledger| - 1]) { i := |ledger| - 1; }
    else { i := SomeEntry(c, ledger[..|ledger| - 1]); }
  }

  // ---- cancel -----------------------------------------------------------------------

  lemma {:induction false} TimesConcat(e: Event, s: State, first: seq<Action>, second: seq<Action>, id: Id)
    ensures Times(e, s, first + second, id) == Times(e, s, first, id) + Times(e, Exec(s, first), second, id)
  {
    if second == [] {
      assert first + second == first;
    } else {
      var init := second[..|second| - 1];
      assert (first + second)[..|first + second| - 1] == first + init;
      TimesConcat(e, s, first, init, id);
      ExecConcat(s, first, init);
    }
  }

  /** Cancel is final both ways: once a row reads cancelled, no Send was made for it before
      and none will be made after, and no claim ever succeeds, whatever messages or handlers
      are around. */
  lemma CancelledIsNeverSent(maxAttempts: int, staleAfter: Time, before: seq<Action>, after: seq<Action>, id: Id)
    requires var s := Exec(Init(maxAttempts, staleAfter), before); id in s.rows && s.rows[id].status == Cancelled
    ensures var s := Init(maxAttempts, staleAfter);
            && id in Exec(s, before + after).rows && Exec(s, before + after).rows[id].status == Cancelled
            && Times(SendEvent, s, before + after, id) == 0 && Times(ClaimEvent, s, before + after, id) == 0
  {
    var s0 := Init(maxAttempts, staleAfter);
    var s, whole := Exec(s0, before), before + after;
    ExecConcat(s0, before, after);
    TerminalIsFinal(s, after, id);
    RunInv(maxAttempts, staleAfter, whole);
    LedgerCountsTheRun(maxAttempts, staleAfter, whole, id, SendEvent);
    LedgerCountsTheRun(maxAttempts, staleAfter, whole, id, ClaimEvent);
    assert RowOk(Exec(s0, whole).rows[id], LifeOf(Exec(s0, whole).lives, id), Exec(s0, whole).maxAttempts);
  }

  /** The cancel statement takes effect exactly on rows that were never claimed. */
  lemma CancelTakesUnclaimedRows(maxAttempts: int, staleAfter: Time, run: seq<Action>, id: Id, now: Time)
    requires id in Exec(Init(maxAttempts, staleAfter), run).rows
    ensures var s := Exec(Init(maxAttempts, staleAfter), run);
            Next(s, Cancel(id, now)).rows[id].status == Cancelled <==> s.rows[id].attempts == 0
  {
    var s := Exec(Init(maxAttempts, staleAfter), run);
    RunInv(maxAttempts, staleAfter, run);
    assert RowOk(s.rows[id], LifeOf(s.lives, id), s.maxAttempts);
    GuardsAreLegal(s.rows[id].status);
  }

  // ---- ownership ----------------------------------------------------------------------

  // A handler that has claimed a row and has not yet tried to write the outcome.
  predicate HoldsClaim(s: State, tag: nat, id: Id) {
    WorksOn(s, tag, id) && (s.handlers[tag].pc.Claimed? || s.handlers[tag].pc.SendOk? || s.handlers[tag].pc.SendFailed?)
  }

  /** Without a recovery of the row, a claim has one owner: the row still reads processing
      with the owner's attempt number, and no other handler holds a claim on it. */
  lemma ExclusiveOwnership(maxAttempts: int, staleAfter: Time, run: seq<Action>, id: Id, tag: nat)
    requires Times(RecoveryEvent, Init(maxAttempts, staleAfter), run, id) == 0
    requires HoldsClaim(Exec(Init(maxAttempts, staleAfter), run), tag, id)
    ensures var s := Exec(Init(maxAttempts, staleAfter), run);
            && Held(s.rows, id) && s.rows[id].attempts == s.handlers[tag].pc.t.k
            && forall other :: HoldsClaim(s, other, id) ==> other == tag
  {
    RunInv(maxAttempts, staleAfter, run);
    LedgerCountsTheRun(maxAttempts, staleAfter, run, id, RecoveryEvent);
    OneOwner(Exec(Init(maxAttempts, staleAfter), run), id, tag);
  }

  lemma LatestClaim(s: State, id: Id, tag: nat)
    requires Inv(s) && LifeOf(s.lives, id).recoveries == 0 && HoldsClaim(s, tag, id)
    ensures Held(s.rows, id) && s.rows[id].attempts == s.handlers[tag].pc.t.k
  {
    OwnClaim(s, tag);
    assert RowOk(s.rows[id], LifeOf(s.lives, id), s.maxAttempts);
    assert Unsettled(LifeOf(s.lives, id).ledger[s.handlers[tag].pc.t.k - 1]);
  }

  lemma OneOwner(s: State, id: Id, tag: nat)
    requires Inv(s) && LifeOf(s.lives, id).recoveries == 0 && HoldsClaim(s, tag, id)
    ensures Held(s.rows, id) && s.rows[id].attempts == s.handlers[tag].pc.t.k
    ensures forall other :: HoldsClaim(s, other, id) ==> other == tag
  {
    LatestClaim(s, id, tag);
    forall other | HoldsClaim(s, other, id) ensures other == tag {
      LatestClaim(s, id, other);
      assert other == tag || !Clash(s.handlers[other], s.handlers[tag]);
    }
  }

  /** So the three "changed status concurrently" branches need a recovery: without one, an
      outcome write that the database runs and acknowledges always takes effect. */
  lemma OutcomeWritesTakeEffect(maxAttempts: int, staleAfter: Time, run: seq<Action>, id: Id, a: Action)
    requires Times(RecoveryEvent, Init(maxAttempts, staleAfter), run, id) == 0
    requires var s := Exec(Init(maxAttempts, staleAfter), run);
             && (a.RecordSent? || a.RecordRetry? || a.RecordFailure?) && a.io.Done? && HoldsClaim(s, a.tag, id)
             && Next(s, a) != s
    ensures var s := Exec(Init(maxAttempts, staleAfter), run);
            && id in Next(s, a).rows
            && Next(s, a).rows[id].status
                == (if a.RecordSent? then Sent else if a.RecordRetry? then Retrying else Failed)
  {
    ExclusiveOwnership(maxAttempts, staleAfter, run, id, a.tag);
  }

  // ---- finite life ----------------------------------------------------------------------

  // How many status changes a row with this status and claim count can be past.
  function Spentness(status: Status, attempts: nat): nat {
    match status
    case Pending => 0
    case Scheduled => 0
    case Queued => 1
    case Processing => 2 * attempts
    case Retrying => 2 * attempts + 1
    case Sent => 2 * attempts + 1
    case Failed => 2 * attempts + 1
    case Cancelled => 2
  }

  lemma RowStepSpends(n: Notification, n': Notification)
    requires RowStep(n, n') && (n.attempts == 0 <==> Untouched(n.status))
    ensures Spentness(n.status, n.attempts) + One(n.status != n'.status) <= Spentness(n'.status, n'.attempts)
  {
  }

  lemma {:induction false} ChangesAreSpent(maxAttempts: int, staleAfter: Time, run: seq<Action>, id: Id)
    ensures var s := Init(maxAttempts, staleAfter); var s' := Exec(s, run);
            Times(StatusEvent, s, run, id)
              <= if id in s'.rows then Spentness(s'.rows[id].status, s'.rows[id].attempts) else 0
  {
    if run != [] {
      var init, a := run[..|run| - 1], run[|run| - 1];
      var s := Exec(Init(maxAttempts, staleAfter), init);
      ChangesAreSpent(maxAttempts, staleAfter, init, id);
      if id in s.rows {
        RunInv(maxAttempts, staleAfter, init);
        assert RowOk(s.rows[id], LifeOf(s.lives, id), s.maxAttempts);
        EveryWriteIsLegal(s, a, id);
        RowStepSpends(s.rows[id], Next(s, a).rows[id]);
      }
    }
  }

  /** Finite life: despite the processing/retrying cycle, a row changes status at most
      1 + 2 (max(1, maxAttempts) + recoveries + releases) times. */
  lemma FiniteLife(maxAttempts: int, staleAfter: Time, run: seq<Action>, id: Id)
    ensures var s := Init(maxAttempts, staleAfter);
            Times(StatusEvent, s, run, id)
              <= 1 + 2 * (Limit(maxAttempts) + Times(RecoveryEvent, s, run, id) + Times(ReleaseEvent, s, run, id))
  {
    ChangesAreSpent(maxAttempts, staleAfter, run, id);
    BoundedEffort(maxAttempts, staleAfter, run, id);
    if id in Exec(Init(maxAttempts, staleAfter), run).rows {
      TerminalColumns(maxAttempts, staleAfter, run, id);
    }
  }
}
