/** The SQL statements on the notifications table, each as one atomic function from
    table to table. A row either passes the statement's guard and is rewritten, or is
    left exactly as it was.
 */
module Statements {
  import opened Domain

  type Rows = map<Id, Notification>

  // How many rows one scheduler statement may touch.
  const CLAIM_BATCH_LIMIT := 100

  // ---- guards -------------------------------------------------------------

  predicate Guarded(rows: Rows, id: Id, from: set<Status>) {
    id in rows && rows[id].status in from
  }

  predicate Held(rows: Rows, id: Id) {
    id in rows && rows[id].status == Processing
  }

  predicate Due(n: Notification, now: Time, staleAfter: Time) {
    || (n.status == Scheduled && n.scheduledAt.Some? && n.scheduledAt.value <= now)
    || (n.status == Pending && n.createdAt < now - staleAfter)
  }

  predicate StaleQueued(n: Notification, now: Time, staleAfter: Time) {
    n.status == Queued && n.updatedAt < now - staleAfter
  }

  predicate StaleProcessing(n: Notification, now: Time, staleAfter: Time) {
    n.status == Processing && n.updatedAt < now - staleAfter
  }

  // ---- what one row becomes -----------------------------------------------

  function WithStatus(n: Notification, to: Status, now: Time): Notification {
    n.(status := to, updatedAt := now)
  }

  function ClaimedRow(n: Notification, now: Time): Notification {
    n.(status := Processing, attempts := n.attempts + 1, updatedAt := now)
  }

  function OutcomeRow(n: Notification, to: Status, error: string, now: Time): Notification {
    n.(status := to, lastError := Some(error), updatedAt := now)
  }

  function SentRow(n: Notification, providerId: string, sentAt: Time, now: Time): Notification {
    n.(status := Sent, providerMessageId := Some(providerId), sentAt := Some(sentAt), updatedAt := now)
  }

  const RECOVERED := "recovered from stale processing"
  const INTERRUPTED := "delivery interrupted before send"

  // ---- single-row statements ----------------------------------------------

  function UpdateStatus(rows: Rows, id: Id, to: Status, from: set<Status>, now: Time): Rows {
    if Guarded(rows, id, from) then rows[id := WithStatus(rows[id], to, now)] else rows
  }

  function ClaimForProcessing(rows: Rows, id: Id, from: set<Status>, now: Time): Rows {
    if Guarded(rows, id, from) then rows[id := ClaimedRow(rows[id], now)] else rows
  }

  function RecordOutcome(rows: Rows, id: Id, to: Status, error: string, now: Time): Rows {
    if Held(rows, id) then rows[id := OutcomeRow(rows[id], to, error, now)] else rows
  }

  function MarkSent(rows: Rows, id: Id, providerId: string, sentAt: Time, now: Time): Rows {
    if Held(rows, id) then rows[id := SentRow(rows[id], providerId, sentAt, now)] else rows
  }

  function TouchQueued(rows: Rows, id: Id, now: Time): Rows {
    if id in rows && rows[id].status == Queued then rows[id := rows[id].(updatedAt := now)] else rows
  }

  // ---- bulk statements ----------------------------------------------------

  function MarkQueuedBulk(rows: Rows, ids: seq<Id>, now: Time): Rows {
    map id | id in rows ::
      if id in ids && rows[id].status == Pending then WithStatus(rows[id], Queued, now) else rows[id]
  }

  function ClaimDueForQueue(rows: Rows, ids: seq<Id>, now: Time): Rows {
    map id | id in rows :: if id in ids then WithStatus(rows[id], Queued, now) else rows[id]
  }

  function RecoverStaleProcessing(rows: Rows, ids: seq<Id>, now: Time): Rows {
    map id | id in rows :: if id in ids then OutcomeRow(rows[id], Retrying, RECOVERED, now) else rows[id]
  }

  predicate Distinct<T(==)>(s: seq<T>) {
    forall i, j :: 0 <= i < j < |s| ==> s[i] != s[j]
  }

  lemma {:induction false} DistinctFits<T>(s: seq<T>, all: set<T>)
    requires Distinct(s) && forall x :: x in s ==> x in all
    ensures |s| <= |all|
  {
    if s != [] {
      var init, last := s[..|s| - 1], s[|s| - 1];
      assert last in s;
      DistinctFits(init, all - {last});
    }
  }

  // ---- the sweeps' choice of rows -------------------------------------------

  datatype SortKey = CreatedAt | UpdatedAt

  function TimeOf(n: Notification, key: SortKey): Time {
    if key.CreatedAt? then n.createdAt else n.updatedAt
  }

  // ORDER BY the key LIMIT n over a set of rows: ties in any order.
  predicate FirstRows(rows: Rows, among: set<Id>, key: SortKey, n: nat, ids: seq<Id>)
    requires among <= rows.Keys
  {
    && |ids| <= n && Distinct(ids) && (forall id :: id in ids ==> id in among)
    && (forall i, j :: 0 <= i < j < |ids| ==> TimeOf(rows[ids[i]], key) <= TimeOf(rows[ids[j]], key))
    && (forall id :: id in among && id !in ids ==>
          |ids| == n && forall i :: 0 <= i < n ==> TimeOf(rows[ids[i]], key) <= TimeOf(rows[id], key))
  }

  function DueRows(rows: Rows, now: Time, staleAfter: Time): set<Id> {
    set id | id in rows && Due(rows[id], now, staleAfter)
  }

  function StaleQueuedRows(rows: Rows, now: Time, staleAfter: Time): set<Id> {
    set id | id in rows && StaleQueued(rows[id], now, staleAfter)
  }

  function StaleProcessingRows(rows: Rows, now: Time, staleAfter: Time): set<Id> {
    set id | id in rows && StaleProcessing(rows[id], now, staleAfter)
  }

  // The two sweeps that write skip the rows that others have locked: any eligible rows, without
  // repetition, at most the limit.
  predicate DueSweep(rows: Rows, ids: seq<Id>, now: Time, staleAfter: Time) {
    |ids| <= CLAIM_BATCH_LIMIT && Distinct(ids)
    && forall id :: id in ids ==> id in rows && Due(rows[id], now, staleAfter)
  }

  predicate ProcessingSweep(rows: Rows, ids: seq<Id>, now: Time, staleAfter: Time) {
    |ids| <= CLAIM_BATCH_LIMIT && Distinct(ids)
    && forall id :: id in ids ==> id in rows && StaleProcessing(rows[id], now, staleAfter)
  }

  // The one that only reads returns the oldest.
  predicate QueuedSweep(rows: Rows, ids: seq<Id>, now: Time, staleAfter: Time) {
    FirstRows(rows, StaleQueuedRows(rows, now, staleAfter), UpdatedAt, CLAIM_BATCH_LIMIT, ids)
  }

  // ---- inserts ------------------------------------------------------------

  datatype Draft = Draft(id: Id, notification: Notification)

  // Column defaults and the pending-or-scheduled start of a new row.
  predicate Initial(n: Notification) {
    && n.attempts == 0 && n.lastError.None? && n.providerMessageId.None? && n.sentAt.None?
    && n.status == (if n.scheduledAt.Some? then Scheduled else Pending)
  }

  predicate KeyTaken(rows: Rows, key: string) {
    exists id :: id in rows && rows[id].idempotencyKey == Some(key)
  }

  // The primary key and the partial unique index on idempotency_key.
  predicate Insertable(rows: Rows, drafts: seq<Draft>) {
    && (forall d :: d in drafts ==> d.id !in rows && Initial(d.notification))
    && (forall i, j :: 0 <= i < j < |drafts| ==> drafts[i].id != drafts[j].id)
    && (forall d :: d in drafts && d.notification.idempotencyKey.Some?
          ==> !KeyTaken(rows, d.notification.idempotencyKey.value))
    && (forall i, j :: 0 <= i < j < |drafts| && drafts[i].notification.idempotencyKey.Some?
          ==> drafts[i].notification.idempotencyKey != drafts[j].notification.idempotencyKey)
  }

  function DraftRows(drafts: seq<Draft>): Rows {
    if drafts == [] then map[]
    else DraftRows(drafts[..|drafts| - 1])[drafts[|drafts| - 1].id := drafts[|drafts| - 1].notification]
  }

  // All or nothing.
  function Insert(rows: Rows, drafts: seq<Draft>): Rows {
    if Insertable(rows, drafts) then rows + DraftRows(drafts) else rows
  }

  lemma {:induction false} DraftRowsAt(drafts: seq<Draft>)
    requires forall i, j :: 0 <= i < j < |drafts| ==> drafts[i].id != drafts[j].id
    ensures forall id :: id in DraftRows(drafts) <==> exists d :: d in drafts && d.id == id
    ensures forall d :: d in drafts ==> d.id in DraftRows(drafts) && DraftRows(drafts)[d.id] == d.notification
  {
    if drafts != [] {
      var init, last := drafts[..|drafts| - 1], drafts[|drafts| - 1];
      assert forall i :: 0 <= i < |init| ==> init[i] == drafts[i];
      DraftRowsAt(init);
      assert forall d :: d in drafts <==> d in init || d == last;
    }
  }
}
