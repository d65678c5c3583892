/** How old a row is when a sweep takes it, in the times that the steps of a run read from the
    database clock. A sweep must not take what another component is still working on.
 */
module Ages {
  import opened Domain
  import opened Statements
  import opened Protocol
  import opened Structure
  import opened Invariant
  import opened Clock

  // ---- what a write leaves behind --------------------------------------------------------------

  lemma WorkersStamp(s: State, a: Action, id: Id)
    requires WorkerAction(a) && id in s.rows
    ensures id in Next(s, a).rows
    ensures Next(s, a).rows[id] == s.rows[id] || (Timed(a) && Next(s, a).rows[id].updatedAt == a.now)
  {
  }

  lemma ProducersStamp(s: State, a: Action, id: Id)
    requires TableAction(a) && !WorkerAction(a) && id in s.rows
    ensures id in Next(s, a).rows
    ensures Next(s, a).rows[id] == s.rows[id] || (Timed(a) && Next(s, a).rows[id].updatedAt == a.now)
  {
    if a.InsertDrafts? && Insertable(s.rows, a.drafts) { DraftRowsAt(a.drafts); }
  }

  // Every statement that changes a row stamps it with its own time.
  lemma WritesStamp(s: State, a: Action, id: Id)
    requires id in s.rows
    ensures id in Next(s, a).rows
    ensures Next(s, a).rows[id] == s.rows[id] || (Timed(a) && Next(s, a).rows[id].updatedAt == a.now)
  {
    if WorkerAction(a) {
      WorkersStamp(s, a, id);
    } else if TableAction(a) {
      ProducersStamp(s, a, id);
    } else {
      OnlyTheseWrite(s, a);
    }
  }

  // The row was last written at or after time t, and stays so while the clock runs on.
  lemma {:induction false} StampsOnlyGrow(s0: State, run: seq<Action>, i: nat, j: nat, id: Id, t: Time)
    requires i <= j <= |run| && id in Exec(s0, run[..i]).rows && t <= Exec(s0, run[..i]).rows[id].updatedAt
    requires forall k :: i <= k < j && Timed(run[k]) ==> t <= run[k].now
    ensures id in Exec(s0, run[..j]).rows && t <= Exec(s0, run[..j]).rows[id].updatedAt
  {
    if i < j {
      StampsOnlyGrow(s0, run, i, j - 1, id, t);
      ExecPrefix(s0, run, j - 1);
      WritesStamp(Exec(s0, run[..j - 1]), run[j - 1], id);
    }
  }

  // ---- the sweeps ------------------------------------------------------------------------------

  // The step is a recovery or a republish sweep, and it takes the row.
  ghost predicate TakesStale(s: State, a: Action, id: Id) {
    && (a.SweepProcessing? || a.SweepStale?) && a.task !in s.tasks && id in a.ids
    && (if a.SweepProcessing? then ProcessingSweep(s.rows, a.ids, a.now, s.staleAfter)
        else QueuedSweep(s.rows, a.ids, a.now, s.staleAfter))
  }

  lemma StampedLongAgo(s0: State, since: Time, run: seq<Action>, i: nat, j: nat, id: Id)
    requires InTime(since, run) && i < j < |run| && Timed(run[i])
    requires id in Exec(s0, run[..i + 1]).rows && Exec(s0, run[..i + 1]).rows[id].updatedAt == run[i].now
    requires TakesStale(Exec(s0, run[..j]), run[j], id)
    ensures run[j].now - run[i].now > s0.staleAfter
  {
    StampsOnlyGrow(s0, run, i + 1, j, id, run[i].now);
    ConfigurationStays(s0, run[..j]);
  }

  lemma ClaimStamps(s: State, a: Action, id: Id)
    requires Occurs(ClaimEvent, s, a, id)
    ensures Timed(a) && id in Next(s, a).rows && Next(s, a).rows[id].updatedAt == a.now
  {
  }

  lemma RecoveryTakes(s: State, a: Action, id: Id)
    requires Occurs(RecoveryEvent, s, a, id)
    ensures TakesStale(s, a, id)
  {
  }

  /** A row that was claimed is not recovered until more than staleAfter later: while the clock
      does not run backwards, no sweep takes the row of a handler that has had it for less. */
  lemma RecoveryIsLate(s0: State, since: Time, run: seq<Action>, i: nat, j: nat, id: Id)
    requires InTime(since, run) && i < j < |run|
    requires Occurs(ClaimEvent, Exec(s0, run[..i]), run[i], id)
    requires Occurs(RecoveryEvent, Exec(s0, run[..j]), run[j], id)
    ensures run[j].now - run[i].now > s0.staleAfter
  {
    ExecPrefix(s0, run, i);
    ClaimStamps(Exec(s0, run[..i]), run[i], id);
    RecoveryTakes(Exec(s0, run[..j]), run[j], id);
    StampedLongAgo(s0, since, run, i, j, id);
  }

  /** More generally neither the recovery nor the republish sweep takes a row within staleAfter
      of any write to it, whoever made it. */
  lemma SweepsLeaveFreshRows(s0: State, since: Time, run: seq<Action>, i: nat, j: nat, id: Id)
    requires InTime(since, run) && i < j < |run| && Timed(run[i]) && id in Exec(s0, run[..i]).rows
    requires id in Exec(s0, run[..i + 1]).rows ==>
               Exec(s0, run[..i + 1]).rows[id] != Exec(s0, run[..i]).rows[id]
    requires TakesStale(Exec(s0, run[..j]), run[j], id)
    ensures run[j].now - run[i].now > s0.staleAfter
  {
    ExecPrefix(s0, run, i);
    WritesStamp(Exec(s0, run[..i]), run[i], id);
    StampedLongAgo(s0, since, run, i, j, id);
  }

  /** And the due sweep leaves a pending row alone until more than staleAfter after its creation:
      its own request may still be publishing it. */
  lemma PendingIsLate(s: State, a: Action, id: Id)
    requires a.SweepDue? && id in s.rows && s.rows[id].status == Pending
    requires id in Next(s, a).rows && Next(s, a).rows[id].status != Pending
    ensures Next(s, a).rows[id].status == Queued && a.now - s.rows[id].createdAt > s.staleAfter
  {
  }
}
