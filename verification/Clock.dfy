/** The database clock. Runs in general put no condition on it; the runs that are shown to
    exist keep to a clock that never runs backwards.
 */
module Clock {
  import opened Domain
  import opened Protocol

  // A statement that reads the clock.
  predicate Timed(a: Action) {
    || a.Cancel? || a.MarkQueued? || a.SweepDue? || a.SweepStale? || a.SweepProcessing? || a.Touch?
    || a.Claim? || a.Release? || a.RecordSent? || a.RecordRetry? || a.RecordFailure?
  }

  // No step before `since`, and none before an earlier one.
  predicate InTime(since: Time, run: seq<Action>) {
    && (forall i :: 0 <= i < |run| && Timed(run[i]) ==> since <= run[i].now)
    && (forall i, j :: 0 <= i < j < |run| && Timed(run[i]) && Timed(run[j]) ==> run[i].now <= run[j].now)
  }

  function TimeAfter(since: Time, a: Action): Time {
    if Timed(a) then a.now else since
  }

  lemma InTimeFrom(since: Time, a: Action, run: seq<Action>)
    requires since <= TimeAfter(since, a) && InTime(TimeAfter(since, a), run)
    ensures InTime(since, [a] + run)
  {
    var all := [a] + run;
    assert forall i :: 0 < i < |all| ==> all[i] == run[i - 1];
  }

  function Latest(a: Time, b: Time): Time {
    if a < b then b else a
  }

  lemma Later(t: Time, staleAfter: Time) returns (now: Time)
    ensures t <= now && t < now - staleAfter
  {
    now := if staleAfter < 0 then t else t + staleAfter + 1;
  }
}
