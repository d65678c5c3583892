/** One row together with the ledger of its claims. The counting argument behind the
    delivery bounds lives here: every claim of a row spends the row's single permission to
    be claimed, and only a failed send, a release or a recovery gives one back.
 */
module Ledger {
  import opened Domain
  import opened Statements
  import opened Protocol

  // ---- counting ledger entries ------------------------------------------------

  datatype Class =
    | AnyEntry | Sends | Successes | Releases | Retries | Token | Failures | DeadLetters | Parks

  predicate In(c: Class, p: Phase) {
    match c
    case AnyEntry => true
    case Sends => !(p.Open? || p.Dropped? || p.Released?)
    case Successes => p.Delivered?
    case Releases => p.Released?
    case Retries => p.Retried? || p.Tiered?
    case Token => p.Open? || p.Delivered? || p.Faulted?
    case Failures => p.Buried? || p.DeadLettered?
    case DeadLetters => p.DeadLettered?
    case Parks => p.Tiered?
  }

  // Entries of the first |ledger| claims in class c; the entry at index i is claim i + 1.
  function Count(c: Class, ledger: seq<Phase>): nat {
    if ledger == [] then 0
    else Count(c, ledger[..|ledger| - 1]) + (if In(c, ledger[|ledger| - 1]) then 1 else 0)
  }

  function One(b: bool): nat { if b then 1 else 0 }

  lemma CountAppend(c: Class, ledger: seq<Phase>, p: Phase)
    ensures Count(c, ledger + [p]) == Count(c, ledger) + One(In(c, p))
  {
    assert (ledger + [p])[..|ledger + [p]| - 1] == ledger;
  }

  lemma {:induction false} CountSet(c: Class, ledger: seq<Phase>, i: nat, p: Phase)
    requires i < |ledger|
    ensures Count(c, ledger[i := p]) + One(In(c, ledger[i])) == Count(c, ledger) + One(In(c, p))
  {
    var last := |ledger| - 1;
    if i == last {
      assert ledger[i := p][..last] == ledger[..last];
    } else {
      assert ledger[i := p][..last] == ledger[..last][i := p];
      CountSet(c, ledger[..last], i, p);
    }
  }

  lemma {:induction false} CountAtLeast(c: Class, ledger: seq<Phase>, i: nat)
    requires i < |ledger| && In(c, ledger[i])
    ensures Count(c, ledger) >= 1
  {
    if i < |ledger| - 1 { CountAtLeast(c, ledger[..|ledger| - 1], i); }
  }

  // A class met only by claims numbered below m has fewer than m entries.
  lemma {:induction false} CountBelow(c: Class, ledger: seq<Phase>, m: int)
    requires forall i :: 0 <= i < |ledger| && In(c, ledger[i]) ==> i + 1 < m
    ensures Count(c, ledger) <= (if m <= 1 then 0 else m - 1) && Count(c, ledger) <= |ledger|
  {
    if ledger != [] { CountBelow(c, ledger[..|ledger| - 1], m); }
  }

  lemma {:induction false} CountZero(c: Class, ledger: seq<Phase>)
    requires Count(c, ledger) == 0
    ensures forall i :: 0 <= i < |ledger| ==> !In(c, ledger[i])
  {
    forall i | 0 <= i < |ledger| ensures !In(c, ledger[i]) {
      if In(c, ledger[i]) { CountAtLeast(c, ledger, i); }
    }
  }

  // No claim both sends and is released, and a success is a send.
  lemma {:induction false} CountDisjoint(ledger: seq<Phase>)
    ensures Count(Sends, ledger) + Count(Releases, ledger) <= |ledger|
    ensures Count(Successes, ledger) <= Count(Sends, ledger)
    ensures Count(Successes, ledger) <= Count(Token, ledger)
    ensures Count(DeadLetters, ledger) <= Count(Failures, ledger)
  {
    if ledger != [] { CountDisjoint(ledger[..|ledger| - 1]); }
  }

  // ---- the invariant of one row -------------------------------------------------

  // Whether the row itself still carries the permission to be claimed.
  predicate Avail(status: Status) {
    status.Pending? || status.Scheduled? || status.Queued? || status.Retrying?
  }

  // A claim whose handler has not yet attempted to write an outcome.
  predicate Unsettled(p: Phase) {
    p.Open? || p.Faulted? || p == Delivered(true)
  }

  ghost predicate Balanced(n: Notification, l: Life) {
    && |l.ledger| == n.attempts
    && (n.attempts == 0 <==> Untouched(n.status))
    && One(Avail(n.status)) + Count(Token, l.ledger) <= 1 + l.recoveries
    && n.attempts + One(n.status == Retrying)
         == One(n.attempts > 0) + l.recoveries + Count(Releases, l.ledger) + Count(Retries, l.ledger)
  }

  ghost predicate PolicyKept(n: Notification, l: Life, maxAttempts: int) {
    && (forall i :: 0 <= i < |l.ledger| && In(Retries, l.ledger[i]) ==> i + 1 < maxAttempts)
    && (forall i :: 0 <= i < |l.ledger| && In(Failures, l.ledger[i])
          ==> l.ledger[i].permanent || i + 1 >= maxAttempts)
  }

  ghost predicate Final(n: Notification, l: Life) {
    && Count(Failures, l.ledger) == One(n.status == Failed)
    && (n.status == Sent <==> n.sentAt.Some?) && (n.status == Sent <==> n.providerMessageId.Some?)
    && (n.status == Sent ==> Count(Successes, l.ledger) >= 1)
    && (n.status == Scheduled ==> n.scheduledAt.Some?)
  }

  // Without recoveries the only unsettled claim is the latest, and the row is still its.
  ghost predicate Owned(n: Notification, l: Life) {
    l.recoveries == 0 ==>
      forall i :: 0 <= i < |l.ledger| && Unsettled(l.ledger[i]) ==> n.status == Processing && i == |l.ledger| - 1
  }

  ghost predicate RowOk(n: Notification, l: Life, maxAttempts: int) {
    Balanced(n, l) && PolicyKept(n, l, maxAttempts) && Final(n, l) && Owned(n, l)
  }

  // ---- what each write does to a row --------------------------------------------

  lemma NewRowOk(n: Notification, maxAttempts: int)
    requires Initial(n)
    ensures RowOk(n, BLANK, maxAttempts)
  {
  }

  // Cancel, the queued marks and a touch act on rows that were never claimed.
  lemma UnclaimedWriteOk(n: Notification, l: Life, maxAttempts: int, to: Status, now: Time)
    requires RowOk(n, l, maxAttempts)
    requires n.status in {Pending, Scheduled, Queued} && to in {Queued, Cancelled}
    ensures RowOk(WithStatus(n, to, now), l, maxAttempts)
  {
  }

  lemma ClaimOk(n: Notification, l: Life, maxAttempts: int, now: Time)
    requires RowOk(n, l, maxAttempts) && n.status in {Pending, Queued, Retrying}
    ensures RowOk(ClaimedRow(n, now), l.(ledger := l.ledger + [Open]), maxAttempts)
  {
    forall c | c in {Token, Releases, Retries, Failures, Successes} {
      CountAppend(c, l.ledger, Open);
    }
    if l.recoveries == 0 { CountZero(Token, l.ledger); }
  }

  lemma RecoveryOk(n: Notification, l: Life, maxAttempts: int, now: Time)
    requires RowOk(n, l, maxAttempts) && n.status == Processing
    ensures RowOk(OutcomeRow(n, Retrying, RECOVERED, now), l.(recoveries := l.recoveries + 1), maxAttempts)
  {
  }

  // How a phase may change, given what the same statement did to the row.
  predicate PhaseStep(before: Phase, after: Phase, k: nat, maxAttempts: int, from: Status, to: Status) {
    match after
    case Delivered(open) =>
      if open
      then before.Open? && to == from
      else before == Delivered(true) && (to == from || (from == Processing && to == Sent))
    case Faulted(_) => before.Open? && to == from
    case Dropped => before.Open? && to == from
    case Released => before.Open? && from == Processing && to == Retrying
    case Spent => before.Faulted? && to == from
    case Retried => before.Faulted? && k < maxAttempts && from == Processing && to == Retrying
    case Buried(permanent) => before.Faulted? && (permanent || k >= maxAttempts) && from == Processing && to == Failed
    case Tiered => before.Retried? && to == from
    case DeadLettered(permanent) => before == Buried(permanent) && to == from
    case Open => false
  }

  // A permission to claim comes only from giving up a token, and a return to retrying is booked.
  lemma PhaseStepSpends(before: Phase, after: Phase, k: nat, maxAttempts: int, from: Status, to: Status)
    requires PhaseStep(before, after, k, maxAttempts, from, to)
    ensures One(In(Token, after)) + One(Avail(to)) <= One(In(Token, before)) + One(Avail(from))
    ensures One(to == Retrying) + One(In(Releases, before)) + One(In(Retries, before))
              == One(from == Retrying) + One(In(Releases, after)) + One(In(Retries, after))
    ensures Untouched(to) <==> Untouched(from)
  {
  }

  lemma PhaseStepBalanced(n: Notification, l: Life, maxAttempts: int, k: nat, after: Phase, n': Notification)
    requires Balanced(n, l) && 1 <= k <= |l.ledger| && n'.attempts == n.attempts
    requires PhaseStep(l.ledger[k - 1], after, k, maxAttempts, n.status, n'.status)
    ensures Balanced(n', SetPhase(l, k, after))
  {
    PhaseStepSpends(l.ledger[k - 1], after, k, maxAttempts, n.status, n'.status);
    CountSet(Token, l.ledger, k - 1, after);
    CountSet(Releases, l.ledger, k - 1, after);
    CountSet(Retries, l.ledger, k - 1, after);
  }

  lemma PhaseStepFinal(n: Notification, l: Life, maxAttempts: int, k: nat, after: Phase, n': Notification)
    requires Final(n, l) && 1 <= k <= |l.ledger| && n'.scheduledAt == n.scheduledAt
    requires PhaseStep(l.ledger[k - 1], after, k, maxAttempts, n.status, n'.status)
    requires n'.status == Sent <==> n'.sentAt.Some?
    requires n'.status == Sent <==> n'.providerMessageId.Some?
    ensures Final(n', SetPhase(l, k, after))
  {
    CountSet(Failures, l.ledger, k - 1, after);
    CountSet(Successes, l.ledger, k - 1, after);
    if after.Delivered? { CountAtLeast(Successes, SetPhase(l, k, after).ledger, k - 1); }
  }

  lemma PhaseStepOk(n: Notification, l: Life, maxAttempts: int, k: nat, after: Phase, n': Notification)
    requires RowOk(n, l, maxAttempts) && 1 <= k <= |l.ledger|
    requires PhaseStep(l.ledger[k - 1], after, k, maxAttempts, n.status, n'.status)
    requires n'.attempts == n.attempts && n'.scheduledAt == n.scheduledAt
    requires n'.status == Sent <==> n'.sentAt.Some?
    requires n'.status == Sent <==> n'.providerMessageId.Some?
    ensures RowOk(n', SetPhase(l, k, after), maxAttempts)
  {
    PhaseStepBalanced(n, l, maxAttempts, k, after, n');
    PhaseStepFinal(n, l, maxAttempts, k, after, n');
  }

  // ---- consequences ---------------------------------------------------------------

  function Limit(maxAttempts: int): nat { if maxAttempts < 1 then 1 else maxAttempts }

  lemma RowBounds(n: Notification, l: Life, maxAttempts: int)
    requires RowOk(n, l, maxAttempts)
    ensures Count(Successes, l.ledger) <= 1 + l.recoveries
    ensures n.attempts <= Limit(maxAttempts) + l.recoveries + Count(Releases, l.ledger)
    ensures Count(Sends, l.ledger) <= Limit(maxAttempts) + l.recoveries
    ensures Count(Retries, l.ledger) <= Limit(maxAttempts) - 1
  {
    CountDisjoint(l.ledger);
    CountBelow(Retries, l.ledger, maxAttempts);
  }
}
