/** The ways in which accepted work is lost, each one real: for every kind of loss step, a run
    that ends with it and leaves its notification stranded for ever.
 */
module Losses {
  import opened Domain
  import opened Statements
  import opened Protocol
  import opened Structure
  import opened Ledger
  import opened Invariant
  import opened Bounds
  import opened Lifecycle
  import opened NoLostWork
  import opened Recoverability
  import opened Clock

  // ---- a loss step strands a row that has nothing else ------------------------------------------

  // The handler that the step is a step of.
  predicate ActsOn(a: Action, tag: nat) {
    (a.PublishRetry? || a.Crash? || a.Release? || a.RecordRetry?) && a.tag == tag
  }

  // What the step leaves of the publishes that a task still owes.
  function TodoAfter(s: State, a: Action, task: nat): seq<Message>
    requires task in s.tasks
  {
    if a.DropTask? && a.task == task then []
    else if a.Publish? && a.task == task && s.tasks[task].todo != [] then s.tasks[task].todo[1..]
    else s.tasks[task].todo
  }

  // Apart from what the step itself uses up, nothing concerns the row.
  ghost predicate NothingElse(s: State, a: Action, id: Id) {
    && (forall m :: m in s.broker.work ==> m.id != id)
    && (forall p :: p in s.broker.tiers ==> p.message.id != id)
    && (forall tag :: tag in s.handlers && CanRevive(s.handlers[tag], id) ==> ActsOn(a, tag))
    && (forall task :: task in s.tasks ==> !Names(TodoAfter(s, a, task), id))
  }

  lemma TaskLossStrands(loss: Loss, s: State, a: Action, id: Id)
    requires loss.RefusedRepublish? || loss.CutOffRepublish?
    requires Loses(loss, s, a, id) && NothingElse(s, a, id)
    requires id in Next(s, a).rows && Next(s, a).rows[id].status == Retrying
    ensures Stranded(Next(s, a), id)
  {
    forall task | task in Next(s, a).tasks ensures !Names(Next(s, a).tasks[task].todo, id) {
      assert Next(s, a).tasks[task].todo == TodoAfter(s, a, task);
    }
  }

  lemma HandlerLossStrands(loss: Loss, s: State, a: Action, id: Id)
    requires !loss.RefusedRepublish? && !loss.CutOffRepublish?
    requires Loses(loss, s, a, id) && NothingElse(s, a, id)
    requires id in Next(s, a).rows && Next(s, a).rows[id].status == Retrying
    ensures Stranded(Next(s, a), id)
  {
    var s' := Next(s, a);
    LossTouchesOneHandler(loss, s, a, id);
    forall task | task in s'.tasks ensures !Names(s'.tasks[task].todo, id) {
      assert s.tasks[task].todo == TodoAfter(s, a, task);
    }
  }

  lemma LossTouchesOneHandler(loss: Loss, s: State, a: Action, id: Id)
    requires !loss.RefusedRepublish? && !loss.CutOffRepublish? && Loses(loss, s, a, id)
    ensures var s' := Next(s, a);
            && s'.broker == s.broker && s'.tasks == s.tasks
            && (forall tag :: tag in s'.handlers && tag != a.tag ==>
                tag in s.handlers && s'.handlers[tag] == s.handlers[tag])
            && (a.tag in s'.handlers ==> !CanRevive(s'.handlers[a.tag], id))
  {
  }

  // What concerns the row apart from what the step uses up still does after it.
  lemma LossSparesOthers(loss: Loss, s: State, a: Action, id: Id)
    requires Loses(loss, s, a, id)
    ensures var s' := Next(s, a);
            && s'.broker.work == s.broker.work && s'.broker.tiers == s.broker.tiers
            && (forall tag :: tag in s.handlers && !ActsOn(a, tag) ==>
                  tag in s'.handlers && s'.handlers[tag] == s.handlers[tag])
            && (forall task :: task in s.tasks && TodoAfter(s, a, task) != [] ==>
                  task in s'.tasks && s'.tasks[task].todo == TodoAfter(s, a, task))
  {
  }

  lemma StrandedBySteps(loss: Loss, s: State, a: Action, id: Id)
    requires Loses(loss, s, a, id) && Stranded(Next(s, a), id)
    ensures NothingElse(s, a, id)
  {
    LossSparesOthers(loss, s, a, id);
    forall task | task in s.tasks ensures !Names(TodoAfter(s, a, task), id) {
      if TodoAfter(s, a, task) != [] { assert !Names(Next(s, a).tasks[task].todo, id); }
    }
  }

  /** A loss step on a row that reads retrying after it strands the row if and only if nothing
      else is around for it. */
  lemma LossStrands(loss: Loss, s: State, a: Action, id: Id)
    requires Loses(loss, s, a, id)
    requires id in Next(s, a).rows && Next(s, a).rows[id].status == Retrying
    ensures Stranded(Next(s, a), id) <==> NothingElse(s, a, id)
  {
    if Stranded(Next(s, a), id) { StrandedBySteps(loss, s, a, id); }
    if NothingElse(s, a, id) {
      if loss.RefusedRepublish? || loss.CutOffRepublish? {
        TaskLossStrands(loss, s, a, id);
      } else {
        HandlerLossStrands(loss, s, a, id);
      }
    }
  }

  // ---- a run to lose work in ---------------------------------------------------------------------

  const SOME_ROW := Notification(None, "+905551234567", Sms, "hello", Pending, None, None, 0, None, None, 0, 0, None)
  const SOME_MESSAGE := Message(Sms, 7)

  // A row is claimed by a handler whose channel the broker then closes; the redelivered
  // message finds the row processing and is dropped.
  const ORPHANING: seq<Action> := [
    InsertDrafts(0, [Draft(7, SOME_ROW)], Done), Publish(0, Confirmed), Fetch(0, SOME_MESSAGE), Claim(0, 0, Done),
    Detach(0), Fetch(1, SOME_MESSAGE), Claim(1, 0, Done), Settle(1)]

  // The deployment after the first i of these actions.
  function Stage(i: nat, maxAttempts: int, staleAfter: Time): State
    requires i <= |ORPHANING|
  {
    var fetched := Handler(SOME_MESSAGE, true, Fetched);
    var owner := Handler(SOME_MESSAGE, i < 5, Claimed(Ticket(1, Sms)));
    State(maxAttempts, staleAfter,
          if i == 0 then map[] else map[7 := if i < 4 then SOME_ROW else ClaimedRow(SOME_ROW, 0)],
          if i < 4 then map[] else map[7 := Life([Open], 0)],
          Broker(if i == 2 || i == 5 then multiset{SOME_MESSAGE} else multiset{}, multiset{}, multiset{}),
          if i < 3 then map[] else if i == 3 then map[0 := fetched] else if i < 6 || i == 8 then map[0 := owner]
          else map[0 := owner, 1 := if i == 6 then fetched else Handler(SOME_MESSAGE, true, Settling(false))],
          if i == 0
          then map[]
          else map[0 := if i == 1 then Task(Created, [SOME_MESSAGE], []) else Task(Created, [], [7])])
  }

  lemma InsertStage(maxAttempts: int, staleAfter: Time)
    ensures Next(Stage(0, maxAttempts, staleAfter), ORPHANING[0]) == Stage(1, maxAttempts, staleAfter)
  {
    var d := Draft(7, SOME_ROW);
    DraftRowsAt([d]);
    assert DraftRows([d]) == map[7 := SOME_ROW] && PendingMessages([d]) == [SOME_MESSAGE];
  }

  lemma PublishStage(maxAttempts: int, staleAfter: Time)
    ensures Next(Stage(1, maxAttempts, staleAfter), ORPHANING[1]) == Stage(2, maxAttempts, staleAfter)
  {
    var s := Stage(1, maxAttempts, staleAfter);
    assert s.tasks[0].todo[1..] == [] && s.tasks[0].confirmed + [7] == [7];
    assert s.broker.work + multiset{SOME_MESSAGE} == multiset{SOME_MESSAGE};
  }

  lemma FetchStage(maxAttempts: int, staleAfter: Time)
    ensures Next(Stage(2, maxAttempts, staleAfter), ORPHANING[2]) == Stage(3, maxAttempts, staleAfter)
  {
  }

  lemma ClaimStage(maxAttempts: int, staleAfter: Time)
    ensures Next(Stage(3, maxAttempts, staleAfter), ORPHANING[3]) == Stage(4, maxAttempts, staleAfter)
  {
    GuardsAreLegal(Pending);
    assert BLANK.ledger + [Open] == [Open];
    assert NewClaim(map[], 7) == map[7 := Life([Open], 0)];
    var s := Stage(3, maxAttempts, staleAfter);
    assert ClaimForProcessing(s.rows, 7, AllowedInto(Processing), 0) == map[7 := ClaimedRow(SOME_ROW, 0)];
  }

  lemma RedeliveryStages(maxAttempts: int, staleAfter: Time)
    ensures forall i :: i in {4, 5} ==>
              Next(Stage(i, maxAttempts, staleAfter), ORPHANING[i]) == Stage(i + 1, maxAttempts, staleAfter)
  {
  }

  lemma DropStages(maxAttempts: int, staleAfter: Time)
    ensures forall i :: i in {6, 7} ==>
              Next(Stage(i, maxAttempts, staleAfter), ORPHANING[i]) == Stage(i + 1, maxAttempts, staleAfter)
  {
    RejectStage(maxAttempts, staleAfter);
    SettleStage(maxAttempts, staleAfter);
  }

  lemma RejectStage(maxAttempts: int, staleAfter: Time)
    ensures Next(Stage(6, maxAttempts, staleAfter), ORPHANING[6]) == Stage(7, maxAttempts, staleAfter)
  {
    GuardsAreLegal(Processing);
  }

  lemma SettleStage(maxAttempts: int, staleAfter: Time)
    ensures Next(Stage(7, maxAttempts, staleAfter), ORPHANING[7]) == Stage(8, maxAttempts, staleAfter)
  {
  }

  lemma {:induction false} Staged(i: nat, maxAttempts: int, staleAfter: Time)
    requires i <= |ORPHANING|
    ensures Exec(Init(maxAttempts, staleAfter), ORPHANING[..i]) == Stage(i, maxAttempts, staleAfter)
  {
    if i > 0 {
      Staged(i - 1, maxAttempts, staleAfter);
      ExecPrefix(Init(maxAttempts, staleAfter), ORPHANING, i - 1);
      InsertStage(maxAttempts, staleAfter);
      PublishStage(maxAttempts, staleAfter);
      FetchStage(maxAttempts, staleAfter);
      ClaimStage(maxAttempts, staleAfter);
      RedeliveryStages(maxAttempts, staleAfter);
      DropStages(maxAttempts, staleAfter);
    }
  }

  // ---- every kind of loss happens -------------------------------------------------------------------

  // After the run the row is not stranded; the step is a loss of this kind, and strands it. Only
  // the two losses of a republish involve a recovery. The clock starts at zero.
  ghost predicate Happens(loss: Loss, maxAttempts: int, staleAfter: Time, run: seq<Action>, a: Action, id: Id) {
    var s0 := Init(maxAttempts, staleAfter);
    && Loses(loss, Exec(s0, run), a, id) && !Stranded(Exec(s0, run), id) && Stranded(Exec(s0, run + [a]), id)
    && (loss.RefusedRepublish? || loss.CutOffRepublish? || Times(RecoveryEvent, s0, run + [a], id) == 0)
    && InTime(0, run + [a])
  }

  // The losses of a row that has been marked for a retry.
  predicate NeedsRetry(loss: Loss) {
    loss.RefusedRetry? || loss.CrashedRetry? || loss.UnconfirmedMark?
  }

  lemma Happened(loss: Loss, maxAttempts: int, staleAfter: Time, run: seq<Action>, a: Action, id: Id)
    requires var s := Exec(Init(maxAttempts, staleAfter), run);
             && Loses(loss, s, a, id) && !Stranded(s, id) && NothingElse(s, a, id)
             && id in Next(s, a).rows && Next(s, a).rows[id].status == Retrying
             && (LifeOf(Next(s, a).lives, id).recoveries == 0 || loss.RefusedRepublish? || loss.CutOffRepublish?)
    requires InTime(0, run + [a])
    ensures Happens(loss, maxAttempts, staleAfter, run, a, id)
  {
    var s0 := Init(maxAttempts, staleAfter);
    LossStrands(loss, Exec(s0, run), a, id);
    ExecSnoc(s0, run, a);
    LedgerCountsTheRun(maxAttempts, staleAfter, run + [a], id, RecoveryEvent);
  }

  lemma Orphaned(maxAttempts: int, staleAfter: Time)
    ensures Exec(Init(maxAttempts, staleAfter), ORPHANING) == Stage(8, maxAttempts, staleAfter)
  {
    Staged(8, maxAttempts, staleAfter);
    assert ORPHANING[..8] == ORPHANING;
  }

  // So far nothing has happened later than at time zero.
  predicate AtStart(run: seq<Action>) {
    forall i :: 0 <= i < |run| && Timed(run[i]) ==> run[i].now == 0
  }

  lemma OrphaningAtStart()
    ensures AtStart(ORPHANING)
  {
  }

  lemma FromStart(run: seq<Action>, a: Action)
    requires AtStart(run) && TimeAfter(0, a) >= 0
    ensures InTime(0, run + [a]) && (TimeAfter(0, a) == 0 ==> AtStart(run + [a]))
  {
  }

  lemma ReleaseLoses(maxAttempts: int, staleAfter: Time)
    ensures var s, a := Stage(8, maxAttempts, staleAfter), Release(0, 0, Done);
            && Loses(DetachedRelease, s, a, 7) && NothingElse(s, a, 7) && !Stranded(s, 7) && 7 in Next(s, a).rows
            && Next(s, a).rows[7].status == Retrying && LifeOf(Next(s, a).lives, 7).recoveries == 0
  {
  }

  lemma ReleaseHappens(maxAttempts: int, staleAfter: Time)
    ensures exists run, a :: Happens(DetachedRelease, maxAttempts, staleAfter, run, a, 7)
  {
    Orphaned(maxAttempts, staleAfter);
    ReleaseLoses(maxAttempts, staleAfter);
    OrphaningAtStart();
    FromStart(ORPHANING, Release(0, 0, Done));
    Happened(DetachedRelease, maxAttempts, staleAfter, ORPHANING, Release(0, 0, Done), 7);
  }

  // The row has been recovered, and its republish is still owed.
  lemma Recovered(maxAttempts: int, staleAfter: Time) returns (run: seq<Action>, s: State)
    ensures s == Exec(Init(maxAttempts, staleAfter), run)
    ensures InTime(0, run)
    ensures s.rows.Keys == {7} && s.rows[7].status == Retrying && s.handlers == map[] && s.broker == Init(0, 0).broker
    ensures s.tasks.Keys == {0, 1} && s.tasks[0].todo == []
              && s.tasks[1] == Task(TaskKind.Recovered, [SOME_MESSAGE], [])
  {
    var s0 := Init(maxAttempts, staleAfter);
    var now := Later(0, staleAfter);
    Orphaned(maxAttempts, staleAfter);
    ExecSnoc(s0, ORPHANING, Crash(0));
    var r1 := ORPHANING + [Crash(0)];
    assert Exec(s0, r1).handlers == map[];
    run := r1 + [SweepProcessing(1, [7], now)];
    OrphaningAtStart();
    FromStart(ORPHANING, Crash(0));
    FromStart(r1, SweepProcessing(1, [7], now));
    ExecSnoc(s0, r1, SweepProcessing(1, [7], now));
    s := Exec(s0, run);
  }

  lemma OwedRepublishLost(s: State, loss: Loss, a: Action)
    requires s.rows.Keys == {7} && s.rows[7].status == Retrying && s.handlers == map[] && s.broker == Init(0, 0).broker
    requires s.tasks.Keys == {0, 1} && s.tasks[0].todo == []
               && s.tasks[1] == Task(TaskKind.Recovered, [SOME_MESSAGE], [])
    requires (loss.RefusedRepublish? && a == Publish(1, Refused)) || (loss.CutOffRepublish? && a == DropTask(1))
    ensures Loses(loss, s, a, 7) && NothingElse(s, a, 7) && !Stranded(s, 7)
    ensures 7 in Next(s, a).rows && Next(s, a).rows[7].status == Retrying
  {
    assert s.tasks[1].todo[0].id == 7 && Names(s.tasks[1].todo, 7);
    assert TodoAfter(s, a, 1) == [];
  }

  lemma RepublishLossHappens(maxAttempts: int, staleAfter: Time)
    ensures exists run, a :: Happens(RefusedRepublish, maxAttempts, staleAfter, run, a, 7)
  {
    var run, s := Recovered(maxAttempts, staleAfter);
    OwedRepublishLost(s, RefusedRepublish, Publish(1, Refused));
    Happened(RefusedRepublish, maxAttempts, staleAfter, run, Publish(1, Refused), 7);
  }

  lemma CutOffHappens(maxAttempts: int, staleAfter: Time)
    ensures exists run, a :: Happens(CutOffRepublish, maxAttempts, staleAfter, run, a, 7)
  {
    var run, s := Recovered(maxAttempts, staleAfter);
    OwedRepublishLost(s, CutOffRepublish, DropTask(1));
    Happened(CutOffRepublish, maxAttempts, staleAfter, run, DropTask(1), 7);
  }

  // The detached handler's send has failed and may be retried.
  function FailedStage(maxAttempts: int, staleAfter: Time): State {
    var s := Stage(8, maxAttempts, staleAfter);
    s.(lives := map[7 := Life([Faulted(true)], 0)],
       handlers := map[0 := Handler(SOME_MESSAGE, false, SendFailed(Ticket(1, Sms), true))])
  }

  lemma SendFailsDetached(maxAttempts: int, staleAfter: Time)
    ensures Next(Stage(8, maxAttempts, staleAfter), Send(0, Retryable)) == FailedStage(maxAttempts, staleAfter)
  {
    assert [Open][0 := Faulted(true)] == [Faulted(true)];
    assert Mark(map[7 := Life([Open], 0)], 7, 1, Faulted(true)) == map[7 := Life([Faulted(true)], 0)];
  }

  lemma SendFailedDetached(maxAttempts: int, staleAfter: Time)
    ensures Exec(Init(maxAttempts, staleAfter), ORPHANING + [Send(0, Retryable)])
              == FailedStage(maxAttempts, staleAfter)
  {
    Orphaned(maxAttempts, staleAfter);
    ExecSnoc(Init(maxAttempts, staleAfter), ORPHANING, Send(0, Retryable));
    SendFailsDetached(maxAttempts, staleAfter);
  }

  lemma UnconfirmedMarkHappens(maxAttempts: int, staleAfter: Time)
    requires maxAttempts > 1
    ensures exists run, a :: Happens(UnconfirmedMark, maxAttempts, staleAfter, run, a, 7)
  {
    SendFailedDetached(maxAttempts, staleAfter);
    UnconfirmedMarkLoses(maxAttempts, staleAfter);
    OrphaningAtStart();
    FromStart(ORPHANING, Send(0, Retryable));
    FromStart(ORPHANING + [Send(0, Retryable)], RecordRetry(0, "503", 0, LostReply));
    Happened(UnconfirmedMark, maxAttempts, staleAfter,
             ORPHANING + [Send(0, Retryable)], RecordRetry(0, "503", 0, LostReply), 7);
  }

  lemma UnconfirmedMarkLoses(maxAttempts: int, staleAfter: Time)
    requires maxAttempts > 1
    ensures var s := FailedStage(maxAttempts, staleAfter); var a := RecordRetry(0, "503", 0, LostReply);
            && Loses(UnconfirmedMark, s, a, 7) && NothingElse(s, a, 7) && !Stranded(s, 7) && 7 in Next(s, a).rows
            && Next(s, a).rows[7].status == Retrying && LifeOf(Next(s, a).lives, 7).recoveries == 0
  {
  }

  // It has been marked for a retry, whose publish is still owed.
  ghost predicate OwesRetry(s: State) {
    && s.rows.Keys == {7} && s.rows[7].status == Retrying && s.broker == Init(0, 0).broker
    && s.handlers == map[0 := Handler(SOME_MESSAGE, false, RetryMarked(Ticket(1, Sms)))]
    && s.tasks.Keys == {0} && s.tasks[0].todo == [] && LifeOf(s.lives, 7).recoveries == 0
  }

  lemma MarksRetryDetached(maxAttempts: int, staleAfter: Time)
    requires maxAttempts > 1
    ensures OwesRetry(Next(FailedStage(maxAttempts, staleAfter), RecordRetry(0, "503", 0, Done)))
  {
  }

  lemma RetryMarkedDetached(maxAttempts: int, staleAfter: Time) returns (run: seq<Action>)
    requires maxAttempts > 1
    ensures OwesRetry(Exec(Init(maxAttempts, staleAfter), run)) && InTime(0, run)
  {
    var r1 := ORPHANING + [Send(0, Retryable)];
    SendFailedDetached(maxAttempts, staleAfter);
    MarksRetryDetached(maxAttempts, staleAfter);
    run := r1 + [RecordRetry(0, "503", 0, Done)];
    OrphaningAtStart();
    FromStart(ORPHANING, Send(0, Retryable));
    FromStart(r1, RecordRetry(0, "503", 0, Done));
    ExecSnoc(Init(maxAttempts, staleAfter), r1, RecordRetry(0, "503", 0, Done));
  }

  lemma OwedRetryLost(s: State, loss: Loss, a: Action)
    requires OwesRetry(s)
    requires (loss.RefusedRetry? && a == PublishRetry(0, Refused)) || (loss.CrashedRetry? && a == Crash(0))
    ensures Loses(loss, s, a, 7) && NothingElse(s, a, 7) && !Stranded(s, 7) && 7 in Next(s, a).rows
    ensures Next(s, a).rows[7].status == Retrying && LifeOf(Next(s, a).lives, 7).recoveries == 0
  {
    assert CanRevive(s.handlers[0], 7);
  }

  lemma RefusedRetryHappens(maxAttempts: int, staleAfter: Time)
    requires maxAttempts > 1
    ensures exists run, a :: Happens(RefusedRetry, maxAttempts, staleAfter, run, a, 7)
  {
    var run := RetryMarkedDetached(maxAttempts, staleAfter);
    OwedRetryLost(Exec(Init(maxAttempts, staleAfter), run), RefusedRetry, PublishRetry(0, Refused));
    Happened(RefusedRetry, maxAttempts, staleAfter, run, PublishRetry(0, Refused), 7);
  }

  lemma CrashedRetryHappens(maxAttempts: int, staleAfter: Time)
    requires maxAttempts > 1
    ensures exists run, a :: Happens(CrashedRetry, maxAttempts, staleAfter, run, a, 7)
  {
    var run := RetryMarkedDetached(maxAttempts, staleAfter);
    OwedRetryLost(Exec(Init(maxAttempts, staleAfter), run), CrashedRetry, Crash(0));
    Happened(CrashedRetry, maxAttempts, staleAfter, run, Crash(0), 7);
  }

  // A row is marked for a retry only with attempts left.
  lemma RetryMarksAreAllowed(s: State, h: Handler)
    requires HandlerOk(s.rows, s.lives, h) && h.pc.RetryMarked?
    requires PolicyKept(s.rows[h.message.id], LifeOf(s.lives, h.message.id), s.maxAttempts)
    ensures s.maxAttempts > 1
  {
    assert In(Retries, LifeOf(s.lives, h.message.id).ledger[h.pc.t.k - 1]);
  }

  lemma MarksAreAllowed(s: State, a: Action, id: Id)
    requires Loses(UnconfirmedMark, s, a, id) && HandlerOk(s.rows, s.lives, s.handlers[a.tag])
    ensures s.maxAttempts > 1
  {
  }

  lemma RetriesNeedAttempts(loss: Loss, maxAttempts: int, staleAfter: Time, run: seq<Action>, a: Action, id: Id)
    requires NeedsRetry(loss) && Loses(loss, Exec(Init(maxAttempts, staleAfter), run), a, id)
    ensures maxAttempts > 1
  {
    var s := Exec(Init(maxAttempts, staleAfter), run);
    RunInv(maxAttempts, staleAfter, run);
    ConfigurationStays(Init(maxAttempts, staleAfter), run);
    assert HandlerOk(s.rows, s.lives, s.handlers[a.tag]);
    if loss.UnconfirmedMark? {
      MarksAreAllowed(s, a, id);
    } else {
      assert RowOk(s.rows[id], LifeOf(s.lives, id), s.maxAttempts);
      RetryMarksAreAllowed(s, s.handlers[a.tag]);
    }
  }

  /** Each kind of loss really happens, for every configuration: at the end of some run, on a
      clock that never runs backwards, a step of this kind strands a row that was not stranded
      before it. Those that follow a retry mark happen exactly when a retry is possible at all, and
      only the two losses of a republish involve a recovery. */
  lemma EveryLossIsReal(loss: Loss, maxAttempts: int, staleAfter: Time) returns (run: seq<Action>, a: Action)
    ensures loss in {RefusedRepublish, CutOffRepublish, DetachedRelease} || maxAttempts > 1 ==>
              var s0 := Init(maxAttempts, staleAfter);
              && Loses(loss, Exec(s0, run), a, 7) && !Stranded(Exec(s0, run), 7) && Stranded(Exec(s0, run + [a]), 7)
              && (loss in {RefusedRepublish, CutOffRepublish} || Times(RecoveryEvent, s0, run + [a], 7) == 0)
              && InTime(0, run + [a])
    ensures loss in {RefusedRetry, CrashedRetry, UnconfirmedMark} && maxAttempts <= 1 ==>
              forall more, b, id :: !Loses(loss, Exec(Init(maxAttempts, staleAfter), more), b, id)
  {
    if loss in {RefusedRetry, CrashedRetry, UnconfirmedMark} && maxAttempts <= 1 {
      forall more, b, id ensures !Loses(loss, Exec(Init(maxAttempts, staleAfter), more), b, id) {
        if Loses(loss, Exec(Init(maxAttempts, staleAfter), more), b, id) {
          RetriesNeedAttempts(loss, maxAttempts, staleAfter, more, b, id);
        }
      }
      run, a := [], DropTask(0);
    } else {
      match loss {
        case RefusedRepublish => RepublishLossHappens(maxAttempts, staleAfter);
        case CutOffRepublish => CutOffHappens(maxAttempts, staleAfter);
        case DetachedRelease => ReleaseHappens(maxAttempts, staleAfter);
        case UnconfirmedMark => UnconfirmedMarkHappens(maxAttempts, staleAfter);
        case RefusedRetry => RefusedRetryHappens(maxAttempts, staleAfter);
        case CrashedRetry => CrashedRetryHappens(maxAttempts, staleAfter);
      }
      run, a :| Happens(loss, maxAttempts, staleAfter, run, a, 7);
    }
  }
}
