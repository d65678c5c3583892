/** The persistence and broker clients: the mutable table and queues, and the methods the
    components call on them. Each call also takes what the connection does to it.
 */
module Repository {
  import opened Domain
  import opened Protocol
  import opened Sweeps
  import S = Statements

  datatype Error = NotFound | InvalidTransition | DuplicateKey | Infrastructure

  datatype Try<+T> = Ok(value: T) | Err(error: Error)

  function FromSeq(statuses: seq<Status>): set<Status> { set s | s in statuses }

  // A batch statement over nothing is answered without the database.
  function Reaching<T>(items: seq<T>, io: Io): Io {
    if items == [] then Done else io
  }

  // No clash of primary keys, within the batch or with the table; and none of idempotency keys.
  predicate IdsFresh(rows: S.Rows, ds: seq<S.Draft>) {
    && (forall d :: d in ds ==> d.id !in rows && S.Initial(d.notification))
    && (forall i, j :: 0 <= i < j < |ds| ==> ds[i].id != ds[j].id)
  }

  predicate KeysFresh(rows: S.Rows, ds: seq<S.Draft>) {
    && (forall d :: d in ds && d.notification.idempotencyKey.Some?
          ==> !S.KeyTaken(rows, d.notification.idempotencyKey.value))
    && (forall i, j :: 0 <= i < j < |ds| && ds[i].notification.idempotencyKey.Some?
          ==> ds[i].notification.idempotencyKey != ds[j].notification.idempotencyKey)
  }

  class NotificationRepository {
    var rows: S.Rows

    constructor ()
      ensures rows == map[]
    {
      rows := map[];
    }

    method Create(d: S.Draft, io: Io) returns (r: Try<()>)
      modifies this
      ensures rows == if io.NotRun? then old(rows) else S.Insert(old(rows), [d])
      ensures r.Ok? <==> io.Done? && S.Insertable(old(rows), [d])
      ensures var n, before := d.notification, old(rows);
              var initial := n.attempts == 0 && n.lastError == n.providerMessageId == None && n.sentAt == None
                             && n.status == if n.scheduledAt == None then Pending else Scheduled;
              var fits := d.id !in before && initial && (n.idempotencyKey.Some? ==>
                            forall id :: id in before ==> before[id].idempotencyKey != n.idempotencyKey);
              && rows == (if !io.NotRun? && fits then before[d.id := n] else before)
              && (r.Ok? <==> io.Done? && fits)
              && (r == Err(DuplicateKey) <==> io.Done? && d.id !in before && initial && !fits)
    {
      if io.NotRun? { return Err(Infrastructure); }
      var fits := S.Insertable(rows, [d]);
      var unique := d.id !in rows && S.Initial(d.notification);
      S.DraftRowsAt([d]);
      assert S.DraftRows([d]) == map[d.id := d.notification];
      rows := S.Insert(rows, [d]);
      if io.LostReply? { return Err(Infrastructure); }
      r := if fits then Ok(()) else if unique then Err(DuplicateKey) else Err(Infrastructure);
    }

    // One transaction: every row or none. A refusal names the idempotency key if that is the
    // only clash; with clashes of both kinds it names either.
    method CreateBatch(ds: seq<S.Draft>, io: Io) returns (r: Try<()>)
      modifies this
      ensures rows == if Reaching(ds, io).NotRun? then old(rows) else S.Insert(old(rows), ds)
      ensures !io.NotRun? && S.Insertable(old(rows), ds) ==>
                && (forall id :: id in rows <==> id in old(rows) || exists d :: d in ds && d.id == id)
                && (forall id :: id in old(rows) ==> rows[id] == old(rows)[id])
                && (forall d :: d in ds ==> rows[d.id] == d.notification)
      ensures io.NotRun? || !S.Insertable(old(rows), ds) ==> rows == old(rows)
      ensures r.Ok? <==> (ds == [] || io.Done?) && S.Insertable(old(rows), ds)
      ensures io.Done? && r.Err? ==>
                && ((forall d :: d in ds ==> d.id !in old(rows) && S.Initial(d.notification))
                    && (forall i, j :: 0 <= i < j < |ds| ==> ds[i].id != ds[j].id)
                    ==> r.error == DuplicateKey)
                && ((forall d :: d in ds && d.notification.idempotencyKey.Some? ==>
                       forall id :: id in old(rows) ==>
                         old(rows)[id].idempotencyKey != d.notification.idempotencyKey)
                    && (forall i, j :: 0 <= i < j < |ds| && ds[i].notification.idempotencyKey.Some? ==>
                          ds[i].notification.idempotencyKey != ds[j].notification.idempotencyKey)
                    ==> r.error == Infrastructure)
    {
      if ds == [] {
        assert rows + S.DraftRows(ds) == rows;
        return Ok(());
      }
      if io.NotRun? { return Err(Infrastructure); }
      var fits, idsFresh, keysFresh := S.Insertable(rows, ds), IdsFresh(rows, ds), KeysFresh(rows, ds);
      var namesKey: bool := *;
      if fits { S.DraftRowsAt(ds); }
      rows := S.Insert(rows, ds);
      if io.LostReply? { return Err(Infrastructure); }
      r := if fits then Ok(())
           else if idsFresh || (!keysFresh && namesKey) then Err(DuplicateKey)
           else Err(Infrastructure);
    }

    method MarkQueuedBulk(ids: seq<Id>, now: Time, io: Io) returns (r: Try<()>)
      modifies this
      ensures rows == if Reaching(ids, io).NotRun? then old(rows) else S.MarkQueuedBulk(old(rows), ids, now)
      ensures rows.Keys == old(rows).Keys && forall id :: id in rows ==>
                rows[id] == if !io.NotRun? && id in ids && old(rows)[id].status == Pending
                            then old(rows)[id].(status := Queued, updatedAt := now) else old(rows)[id]
      ensures r.Ok? <==> ids == [] || io.Done?
    {
      if ids == [] {
        assert S.MarkQueuedBulk(rows, ids, now) == rows;
        return Ok(());
      }
      if io.NotRun? { return Err(Infrastructure); }
      rows := S.MarkQueuedBulk(rows, ids, now);
      r := if io.LostReply? then Err(Infrastructure) else Ok(());
    }

    method GetById(id: Id, io: Io) returns (r: Try<Notification>)
      ensures r == if !io.Done? then Err(Infrastructure) else if id in rows then Ok(rows[id]) else Err(NotFound)
    {
      r := if !io.Done? then Err(Infrastructure) else if id in rows then Ok(rows[id]) else Err(NotFound);
    }

    method GetByIdempotencyKey(key: string, io: Io) returns (r: Try<Id>)
      ensures r.Ok? ==> r.value in rows && rows[r.value].idempotencyKey == Some(key)
      ensures r == Err(NotFound) ==> !S.KeyTaken(rows, key)
      ensures r.Ok? || r == Err(NotFound) <==> io.Done?
    {
      if !io.Done? { return Err(Infrastructure); }
      if S.KeyTaken(rows, key) {
        var id :| id in rows && rows[id].idempotencyKey == Some(key);
        r := Ok(id);
      } else {
        r := Err(NotFound);
      }
    }

    method UpdateStatus(id: Id, to: Status, allowedFrom: seq<Status>, now: Time, io: Io) returns (r: Try<()>)
      modifies this
      ensures rows == if io.NotRun? then old(rows) else S.UpdateStatus(old(rows), id, to, FromSeq(allowedFrom), now)
      ensures var passes := id in old(rows) && old(rows)[id].status in allowedFrom;
              && rows == (if !io.NotRun? && passes
                          then old(rows)[id := old(rows)[id].(status := to, updatedAt := now)]
                          else old(rows))
              && r == if !io.Done? then Err(Infrastructure) else if passes then Ok(())
                      else if id in old(rows) then Err(InvalidTransition) else Err(NotFound)
    {
      if io.NotRun? { return Err(Infrastructure); }
      var passes := id in rows && rows[id].status in allowedFrom;
      if passes { rows := rows[id := S.WithStatus(rows[id], to, now)]; }
      if io.LostReply? { return Err(Infrastructure); }
      r := if passes then Ok(()) else if id in rows then Err(InvalidTransition) else Err(NotFound);
    }

    method ClaimForProcessing(id: Id, allowedFrom: seq<Status>, now: Time, io: Io) returns (r: Try<Notification>)
      modifies this
      ensures rows == if io.NotRun? then old(rows) else S.ClaimForProcessing(old(rows), id, FromSeq(allowedFrom), now)
      ensures var n := if id in old(rows) then Some(old(rows)[id]) else None;
              var passes := n.Some? && n.value.status in allowedFrom;
              && rows == (if !io.NotRun? && passes
                          then old(rows)[id := n.value.(status := Processing, attempts := n.value.attempts + 1,
                                                        updatedAt := now)]
                          else old(rows))
              && r == if !io.Done? then Err(Infrastructure) else if passes then Ok(rows[id])
                      else if n.Some? then Err(InvalidTransition) else Err(NotFound)
    {
      if io.NotRun? { return Err(Infrastructure); }
      var passes := id in rows && rows[id].status in allowedFrom;
      if passes { rows := rows[id := S.ClaimedRow(rows[id], now)]; }
      if io.LostReply? { return Err(Infrastructure); }
      r := if passes then Ok(rows[id]) else if id in rows then Err(InvalidTransition) else Err(NotFound);
    }

    method RecordOutcome(id: Id, to: Status, error: string, now: Time, io: Io) returns (r: Try<()>)
      modifies this
      ensures rows == if io.NotRun? then old(rows) else S.RecordOutcome(old(rows), id, to, error, now)
      ensures var held := id in old(rows) && old(rows)[id].status == Processing;
              && rows == (if !io.NotRun? && held
                          then old(rows)[id := old(rows)[id].(status := to, lastError := Some(error), updatedAt := now)]
                          else old(rows))
              && r == if !io.Done? then Err(Infrastructure) else if held then Ok(()) else Err(InvalidTransition)
    {
      if io.NotRun? { return Err(Infrastructure); }
      var passes := id in rows && rows[id].status == Processing;
      if passes { rows := rows[id := S.OutcomeRow(rows[id], to, error, now)]; }
      r := if io.LostReply? then Err(Infrastructure) else if passes then Ok(()) else Err(InvalidTransition);
    }

    method MarkRetrying(id: Id, error: string, now: Time, io: Io) returns (r: Try<()>)
      modifies this
      ensures rows == if io.NotRun? then old(rows) else S.RecordOutcome(old(rows), id, Retrying, error, now)
      ensures var held := id in old(rows) && old(rows)[id].status == Processing;
              && rows == (if !io.NotRun? && held
                          then old(rows)[id := old(rows)[id].(status := Retrying, lastError := Some(error),
                                                             updatedAt := now)]
                          else old(rows))
              && r == if !io.Done? then Err(Infrastructure) else if held then Ok(()) else Err(InvalidTransition)
    {
      r := RecordOutcome(id, Retrying, error, now, io);
    }

    method MarkFailed(id: Id, error: string, now: Time, io: Io) returns (r: Try<()>)
      modifies this
      ensures rows == if io.NotRun? then old(rows) else S.RecordOutcome(old(rows), id, Failed, error, now)
      ensures var held := id in old(rows) && old(rows)[id].status == Processing;
              && rows == (if !io.NotRun? && held
                          then old(rows)[id := old(rows)[id].(status := Failed, lastError := Some(error),
                                                             updatedAt := now)]
                          else old(rows))
              && r == if !io.Done? then Err(Infrastructure) else if held then Ok(()) else Err(InvalidTransition)
    {
      r := RecordOutcome(id, Failed, error, now, io);
    }

    method MarkSent(id: Id, providerId: string, sentAt: Time, now: Time, io: Io) returns (r: Try<()>)
      modifies this
      ensures rows == if io.NotRun? then old(rows) else S.MarkSent(old(rows), id, providerId, sentAt, now)
      ensures var held := id in old(rows) && old(rows)[id].status == Processing;
              && rows == (if !io.NotRun? && held
                          then old(rows)[id := old(rows)[id].(status := Sent, providerMessageId := Some(providerId),
                                                             sentAt := Some(sentAt), updatedAt := now)]
                          else old(rows))
              && r == if !io.Done? then Err(Infrastructure) else if held then Ok(()) else Err(InvalidTransition)
    {
      if io.NotRun? { return Err(Infrastructure); }
      var passes := id in rows && rows[id].status == Processing;
      if passes { rows := rows[id := S.SentRow(rows[id], providerId, sentAt, now)]; }
      r := if io.LostReply? then Err(Infrastructure) else if passes then Ok(()) else Err(InvalidTransition);
    }

    method TouchQueued(id: Id, now: Time, io: Io)
      modifies this
      ensures rows == if io.NotRun? then old(rows) else S.TouchQueued(old(rows), id, now)
      ensures rows == if !io.NotRun? && id in old(rows) && old(rows)[id].status == Queued
                      then old(rows)[id := old(rows)[id].(updatedAt := now)] else old(rows)
    {
      if !io.NotRun? && id in rows && rows[id].status == Queued { rows := rows[id := rows[id].(updatedAt := now)]; }
    }

    // The sweeps that write take some of the eligible rows: row locks held by others decide
    // which. The caller gets them only if the reply arrives.
    method ClaimDueForQueue(now: Time, staleAfter: Time, io: Io) returns (ids: seq<Id>)
      modifies this
      ensures S.DueSweep(old(rows), ids, now, staleAfter)
      ensures rows == S.ClaimDueForQueue(old(rows), ids, now)
      ensures io.NotRun? ==> rows == old(rows)
      ensures |ids| <= 100 && forall id :: id in ids ==>
                && id in old(rows)
                && var n := old(rows)[id];
                   || (n.status == Scheduled && n.scheduledAt.Some? && n.scheduledAt.value <= now)
                   || (n.status == Pending && now - n.createdAt > staleAfter)
      ensures rows.Keys == old(rows).Keys && forall id :: id in rows ==>
                rows[id] == if id in ids then old(rows)[id].(status := Queued, updatedAt := now) else old(rows)[id]
    {
      ids := *;
      if io.NotRun? || !S.DueSweep(rows, ids, now, staleAfter) { ids := []; }
      rows := S.ClaimDueForQueue(rows, ids, now);
    }

    // A plain query: the oldest ones, however others lock.
    method ListStaleQueued(now: Time, staleAfter: Time, io: Io) returns (r: Try<seq<Id>>)
      ensures r.Ok? <==> io.Done?
      ensures r.Ok? ==> S.QueuedSweep(rows, r.value, now, staleAfter)
      ensures r.Ok? ==>
                && |r.value| <= 100
                && (forall id :: id in r.value ==>
                      id in rows && rows[id].status == Queued && now - rows[id].updatedAt > staleAfter)
                && (forall i, j :: 0 <= i < j < |r.value| ==> rows[r.value[i]].updatedAt <= rows[r.value[j]].updatedAt)
                && (forall id :: id in rows && rows[id].status == Queued && now - rows[id].updatedAt > staleAfter ==>
                      id in r.value
                      || (|r.value| == 100
                          && forall i :: 0 <= i < 100 ==> rows[r.value[i]].updatedAt <= rows[id].updatedAt))
    {
      if !io.Done? { return Err(Infrastructure); }
      var left, ids := S.StaleQueuedRows(rows, now, staleAfter), [];
      while left != {} && |ids| < S.CLAIM_BATCH_LIMIT
        invariant left <= rows.Keys && |ids| <= S.CLAIM_BATCH_LIMIT && S.Distinct(ids)
        invariant forall id :: id in S.StaleQueuedRows(rows, now, staleAfter) <==> id in left || id in ids
        invariant forall id :: id in ids ==> id !in left
        invariant forall i, j :: 0 <= i < j < |ids| ==> rows[ids[i]].updatedAt <= rows[ids[j]].updatedAt
        invariant forall i, id :: 0 <= i < |ids| && id in left ==> rows[ids[i]].updatedAt <= rows[id].updatedAt
        decreases |left|
      {
        ghost var _ := OldestExists(rows, left, S.SortKey.UpdatedAt);
        var next :| next in left && forall id :: id in left ==> rows[next].updatedAt <= rows[id].updatedAt;
        ids, left := ids + [next], left - {next};
      }
      r := Ok(ids);
    }

    method RecoverStaleProcessing(now: Time, staleAfter: Time, io: Io) returns (ids: seq<Id>)
      modifies this
      ensures S.ProcessingSweep(old(rows), ids, now, staleAfter)
      ensures rows == S.RecoverStaleProcessing(old(rows), ids, now)
      ensures io.NotRun? ==> rows == old(rows)
      ensures |ids| <= 100 && forall id :: id in ids ==>
                id in old(rows) && old(rows)[id].status == Processing && now - old(rows)[id].updatedAt > staleAfter
      ensures rows.Keys == old(rows).Keys && forall id :: id in rows ==>
                rows[id] == if id in ids
                            then old(rows)[id].(status := Retrying, updatedAt := now,
                                                lastError := Some("recovered from stale processing"))
                            else old(rows)[id]
    {
      ids := *;
      if io.NotRun? || !S.ProcessingSweep(rows, ids, now, staleAfter) { ids := []; }
      rows := S.RecoverStaleProcessing(rows, ids, now);
    }
  }

  class Publisher {
    var broker: Broker

    constructor ()
      ensures broker == Broker(multiset{}, multiset{}, multiset{})
    {
      broker := Broker(multiset{}, multiset{}, multiset{});
    }

    method PublishCreated(m: Message, receipt: Receipt) returns (ok: bool)
      modifies this
      ensures broker == if receipt.Refused? then old(broker)
                        else old(broker).(work := old(broker).work + multiset{m})
      ensures ok == receipt.Confirmed?
    {
      if !receipt.Refused? { broker := Enqueue(broker, m); }
      ok := receipt.Confirmed?;
    }

    method PublishRetry(m: Message, attempt: int, receipt: Receipt) returns (ok: bool)
      modifies this
      ensures broker.work == old(broker).work && broker.dead == old(broker).dead
      ensures broker.tiers == if receipt.Refused? then old(broker).tiers
                              else
                                old(broker).tiers
                                + multiset{Parked(if attempt <= 1 then 0 else if attempt == 2 then 1 else 2, m)}
      ensures ok == receipt.Confirmed?
    {
      var tier := TierForAttempt(attempt);
      if !receipt.Refused? { broker := Park(broker, Parked(tier, m)); }
      ok := receipt.Confirmed?;
    }

    method PublishDeadLetter(id: Id, receipt: Receipt) returns (ok: bool)
      modifies this
      ensures broker == if receipt.Refused? then old(broker)
                        else old(broker).(dead := old(broker).dead + multiset{id})
      ensures ok == receipt.Confirmed?
    {
      if !receipt.Refused? { broker := Bury(broker, id); }
      ok := receipt.Confirmed?;
    }

    // Nack with requeue: the broker puts back a delivery it still counts as outstanding.
    method Requeue(m: Message, outstanding: bool)
      modifies this
      ensures broker == if outstanding then old(broker).(work := old(broker).work + multiset{m}) else old(broker)
    {
      if outstanding { broker := Enqueue(broker, m); }
    }
  }
}
