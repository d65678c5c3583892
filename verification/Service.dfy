/** The API's create and cancel, statement by statement, with any other components acting in
    between.
 */
module Service {
  import opened Domain
  import S = Statements
  import opened Protocol
  import opened Repository
  import opened Deployment
  import opened Creation
  import opened Scheduler
  import opened Idempotency
  import opened Lifecycle

  datatype CreateResult = Fresh(id: Id, status: Status) | Replay(id: Id) | Invalid | Unavailable

  // What the database and the broker answer to one create.
  datatype Replies = Replies(insertIo: Io, lookupIo: Io, receipt: Receipt, markIo: Io, dbNow: Time)

  lemma QueuedMarkIsBulkMark(rows: S.Rows, id: Id, now: Time)
    ensures S.UpdateStatus(rows, id, Queued, {Pending}, now) == S.MarkQueuedBulk(rows, [id], now)
  {
  }

  method MarkQueuedAfterPublish(d: Cluster, task: nat, id: Id, now: Time, io: Io) returns (queued: bool)
    requires d.Valid() && Owes(d, task, TaskKind.Created, []) && d.tasks[task].confirmed == [id]
    modifies d, d.repo
    ensures d.Valid() && task !in d.tasks
    ensures var a := if io.NotRun? then DropTask(task) else MarkQueued(task, now);
            d.log == old(d.log) + [a] && OwnSteps(d.log, TaskSelf(task)) == OwnSteps(old(d.log), TaskSelf(task)) + [a]
    ensures queued <==> io.Done? && id in old(d.repo.rows) && old(d.repo.rows)[id].status == Pending
    ensures queued ==> id in d.repo.rows && d.repo.rows[id].status == Queued
  {
    var before := d.View();
    var marked := d.repo.UpdateStatus(id, Queued, [Pending], now, io);
    assert FromSeq([Pending]) == {Pending};
    QueuedMarkIsBulkMark(before.rows, id, now);
    d.Record(before, if io.NotRun? then DropTask(task) else MarkQueued(task, now));
    queued := marked.Ok?;
  }

  // At the moment of step i the row is still pending.
  ghost predicate PendingAt(d: Cluster, id: Id, i: nat)
    requires i <= |d.log|
    reads d
  {
    id in RowsAt(d, i) && RowsAt(d, i)[id].status == Pending
  }

  // The one message of an immediate notification was published, at this step.
  ghost predicate SentOnce(s0: State, log: seq<Action>, sent: seq<nat>, task: nat, m: Message, receipt: Receipt) {
    |sent| == 1 && forall i :: 0 <= i < |sent| ==> PublishesAt(s0, log, sent[i], task, m, receipt)
  }

  lemma StillSent(s0: State, log: seq<Action>, more: seq<Action>, sent: seq<nat>, task: nat, m: Message,
        receipt: Receipt)
    requires SentOnce(s0, log, sent, task, m, receipt) && log <= more
    ensures SentOnce(s0, more, sent, task, m, receipt)
  {
    forall i | 0 <= i < |sent| ensures PublishesAt(s0, more, sent[i], task, m, receipt) {
      StillPublishes(s0, log, more, sent[i], task, m, receipt);
    }
  }

  method PublishFirst(d: Cluster, task: nat, ghost m: Message, receipt: Receipt)
    returns (published: bool, ghost sent: seq<nat>)
    requires d.Valid() && Owes(d, task, TaskKind.Created, [m]) && d.tasks[task].confirmed == []
    modifies d, d.repo, d.publisher
    ensures d.Valid() && old(d.log) <= d.log && published == receipt.Confirmed?
    ensures Owes(d, task, TaskKind.Created, []) && (published ==> d.tasks[task].confirmed == [m.id])
    ensures OwnSteps(d.log, TaskSelf(task)) == OwnSteps(old(d.log), TaskSelf(task)) + [Publish(task, receipt)]
    ensures SentOnce(Init(d.maxAttempts, d.staleAfter), d.log, sent, task, m, receipt) && |old(d.log)| <= sent[0]
  {
    d.Others(TaskSelf(task));
    sent := [|d.log|];
    published := PublishNext(d, task, TaskKind.Created, [m], receipt);
  }

  // The mark if the publish was confirmed, and otherwise nothing more.
  method MarkIfPublished(d: Cluster, task: nat, id: Id, published: bool, now: Time, io: Io)
    returns (queued: bool, ghost last: nat)
    requires d.Valid() && Owes(d, task, TaskKind.Created, []) && (published ==> d.tasks[task].confirmed == [id])
    modifies d, d.repo, d.publisher
    ensures d.Valid() && old(d.log) <= d.log && task !in d.tasks
    ensures |old(d.log)| <= last < |d.log|
    ensures d.log[last] == if published && !io.NotRun? then MarkQueued(task, now) else DropTask(task)
    ensures queued <==> published && io.Done? && PendingAt(d, id, last)
    ensures queued ==> id in d.repo.rows && d.repo.rows[id].status == Queued
    ensures OwnSteps(d.log, TaskSelf(task)) == OwnSteps(old(d.log), TaskSelf(task))
              + [if published && !io.NotRun? then MarkQueued(task, now) else DropTask(task)]
  {
    if !published {
      last := |d.log|;
      Finish(d, task);
      return false, last;
    }
    d.Others(TaskSelf(task));
    ghost var log := d.log;
    last := |log|;
    queued := MarkQueuedAfterPublish(d, task, id, now, io);
    assert d.log[..last] == log;
  }

  /** Publish, then record the queued mark; the returned status is queued if and only if both
      took effect, and a failed publish leaves the row pending for the sweep. */
  method PublishForDelivery(d: Cluster, task: nat, id: Id, ghost m: Message, w: Replies)
    returns (status: Status, ghost sent: seq<nat>, ghost last: nat)
    requires d.Valid() && Owes(d, task, TaskKind.Created, [m]) && d.tasks[task].confirmed == [] && m.id == id
    modifies d, d.repo, d.publisher
    ensures d.Valid() && old(d.log) <= d.log && task !in d.tasks
    ensures SentOnce(Init(d.maxAttempts, d.staleAfter), d.log, sent, task, m, w.receipt) && |old(d.log)| <= sent[0]
    ensures |old(d.log)| <= last < |d.log| && status in {Pending, Queued}
    ensures status == Queued <==> w.receipt.Confirmed? && w.markIo.Done? && PendingAt(d, id, last)
    ensures status == Queued ==> d.log[last] == MarkQueued(task, w.dbNow)
    ensures status == Queued ==> id in d.repo.rows && d.repo.rows[id].status == Queued
    ensures OwnSteps(d.log, TaskSelf(task)) == OwnSteps(old(d.log), TaskSelf(task)) + [Publish(task, w.receipt)]
              + [if w.receipt.Confirmed? && !w.markIo.NotRun? then MarkQueued(task, w.dbNow) else DropTask(task)]
  {
    var published;
    published, sent := PublishFirst(d, task, m, w.receipt);
    ghost var log := d.log;
    var queued;
    queued, last := MarkIfPublished(d, task, id, published, w.dbNow, w.markIo);
    StillSent(Init(d.maxAttempts, d.staleAfter), log, d.log, sent, task, m, w.receipt);
    status := if queued then Queued else Pending;
  }

  // The row would violate the unique index on the idempotency key.
  predicate Duplicates(rows: S.Rows, draft: S.Draft) {
    draft.id !in rows && draft.notification.idempotencyKey.Some?
        && S.KeyTaken(rows, draft.notification.idempotencyKey.value)
  }

  method InsertRow(d: Cluster, task: nat, draft: S.Draft, io: Io) returns (r: Try<()>)
    requires d.Valid() && task !in d.tasks && S.Initial(draft.notification)
    modifies d, d.repo
    ensures d.Valid() && d.log == old(d.log) + [InsertDrafts(task, [draft], io)]
    ensures OwnSteps(d.log, TaskSelf(task)) == OwnSteps(old(d.log), TaskSelf(task)) + [InsertDrafts(task, [draft], io)]
    ensures r.Ok? <==> io.Done? && S.Insertable(old(d.repo.rows), [draft])
    ensures r.Ok? ==> Owes(d, task, TaskKind.Created, PendingMessages([draft])) && d.tasks[task].confirmed == []
    ensures r.Err? ==> task !in d.tasks
    ensures r == Err(DuplicateKey) <==> io.Done? && Duplicates(old(d.repo.rows), draft)
  {
    var before := d.View();
    r := d.repo.Create(draft, io);
    d.Record(before, InsertDrafts(task, [draft], io));
  }

  // What the answer to a create says: fresh if and only if the insert went through, a replay
  // if and only if the key was taken and could be looked up.
  ghost predicate CreatedAs(s0: State, log: seq<Action>, task: nat, draft: S.Draft, w: Replies, r: CreateResult,
        i: nat, j: nat)
  {
    && i < |log| && log[i] == InsertDrafts(task, [draft], w.insertIo)
    && (r.Fresh? <==> w.insertIo.Done? && S.Insertable(Exec(s0, log[..i]).rows, [draft]))
    && (r.Replay? <==> w.insertIo.Done? && Duplicates(Exec(s0, log[..i]).rows, draft) && w.lookupIo.Done?)
    && (r.Fresh? ==> r.id == draft.id)
    && ((r.Fresh? || r.Replay?) && draft.notification.idempotencyKey.Some? ==>
          Answers(s0, log, i, j, draft, if r.Fresh? then Reply.Created(draft.id) else Replayed(r.id)))
  }

  // The answer, written out on the tables of the insert and of the lookup.
  lemma AnswerOf(s0: State, log: seq<Action>, task: nat, draft: S.Draft, w: Replies, r: CreateResult, i: nat, j: nat)
    requires CreatedAs(s0, log, task, draft, w, r, i, j) && S.Initial(draft.notification)
    ensures var rows, key := Exec(s0, log[..i]).rows, draft.notification.idempotencyKey;
            var taken := key.Some? && exists x :: x in rows && rows[x].idempotencyKey == key;
            && (r.Fresh? <==> w.insertIo == Done && draft.id !in rows && !taken)
            && (r.Replay? <==> w.insertIo == Done && draft.id !in rows && taken && w.lookupIo == Done)
            && (r.Fresh? ==> r.id == draft.id)
    ensures r.Replay? ==>
              && i <= j <= |log| && r.id in Exec(s0, log[..j]).rows
              && Exec(s0, log[..j]).rows[r.id].idempotencyKey == draft.notification.idempotencyKey
  {
  }

  // The status of the answer for an immediate notification, published once: queued if and
  // only if the broker confirmed and the mark found the row still pending.
  ghost predicate AnsweredAfter(d: Cluster, task: nat, draft: S.Draft, w: Replies, status: Status,
        sent: seq<nat>, last: nat)
    reads d, d.repo
  {
    && last < |d.log|
    && SentOnce(Init(d.maxAttempts, d.staleAfter), d.log, sent, task,
                Message(draft.notification.channel, draft.id), w.receipt)
    && status in {Pending, Queued}
    && (status == Queued <==> w.receipt.Confirmed? && w.markIo.Done? && PendingAt(d, draft.id, last))
    && (status == Queued ==>
          && d.log[last] == MarkQueued(task, w.dbNow)
          && draft.id in d.repo.rows && d.repo.rows[draft.id].status == Queued)
  }

  /** Create validates, inserts, and publishes immediate notifications: once the insert has gone
      through, a message for the notification's channel, and then the queued mark if it was
      confirmed. A scheduled one is not published. A duplicate key is answered with the
      notification that holds it; a successful answer is one of the two replies for which
      creation is idempotent. */
  method Create(d: Cluster, task: nat, id: Id, input: CreateInput, content: Option<string>, valid: Notification -> bool,
        now: Time, w: Replies)
    returns (r: CreateResult, ghost i: nat, ghost j: nat, ghost sent: seq<nat>, ghost last: nat)
    requires d.Valid() && task !in d.tasks
    modifies d, d.repo, d.publisher
    ensures d.Valid() && old(d.log) <= d.log && task !in d.tasks
    ensures r.Invalid? <==> content.None? || !valid(NewNotification(input, content.value, now, None))
    ensures r.Invalid? ==> d.log == old(d.log)
    ensures !r.Invalid? ==>
              var draft := S.Draft(id, NewNotification(input, content.value, now, None));
              && i < |d.log| && d.log[i] == InsertDrafts(task, [draft], w.insertIo)
              && ((r.Fresh? || r.Replay?) && input.idempotencyKey.Some? ==>
                    Answers(Init(d.maxAttempts, d.staleAfter), d.log, i, j, draft,
                            if r.Fresh? then Reply.Created(id) else Replayed(r.id)))
              && (!r.Fresh? ==>
                    OwnSteps(d.log, TaskSelf(task))
                      == OwnSteps(old(d.log), TaskSelf(task)) + [InsertDrafts(task, [draft], w.insertIo)])
    ensures !r.Invalid? ==>
              var rows, key := RowsAt(d, i), input.idempotencyKey;
              var taken := key.Some? && exists x :: x in rows && rows[x].idempotencyKey == key;
              && (r.Fresh? <==> w.insertIo == Done && id !in rows && !taken)
              && (r.Replay? <==> w.insertIo == Done && id !in rows && taken && w.lookupIo == Done)
              && (r.Fresh? ==> r.id == id)
    ensures r.Replay? ==>
              && i <= j <= |d.log| && r.id in RowsAt(d, j)
              && RowsAt(d, j)[r.id].idempotencyKey == input.idempotencyKey
    ensures r.Fresh? && input.scheduledAt.Some? ==>
              var draft := S.Draft(id, NewNotification(input, content.value, now, None));
              && r.status == Scheduled
              && OwnSteps(d.log, TaskSelf(task)) == OwnSteps(old(d.log), TaskSelf(task))
                   + [InsertDrafts(task, [draft], w.insertIo), DropTask(task)]
    ensures r.Fresh? && input.scheduledAt.None? ==>
              var draft := S.Draft(id, NewNotification(input, content.value, now, None));
              && |sent| == 1 && i < sent[0]
              && PublishesAt(Init(d.maxAttempts, d.staleAfter), d.log, sent[0], task, Message(input.channel, id),
                             w.receipt)
              && last < |d.log|
              && (r.status == Queued <==> w.receipt == Confirmed && w.markIo == Done && PendingAt(d, id, last))
              && (r.status != Queued ==> r.status == Pending)
              && (r.status == Queued ==>
                    && d.log[last] == MarkQueued(task, w.dbNow)
                    && id in d.repo.rows && d.repo.rows[id].status == Queued)
              && OwnSteps(d.log, TaskSelf(task)) == OwnSteps(old(d.log), TaskSelf(task))
                   + [InsertDrafts(task, [draft], w.insertIo), Publish(task, w.receipt),
                      if w.receipt == Confirmed && w.markIo != NotRun then MarkQueued(task, w.dbNow)
                      else DropTask(task)]
  {
    i, j, sent, last := 0, 0, [], 0;
    if content.None? { return Invalid, i, j, sent, last; }
    var notification := NewNotification(input, content.value, now, None);
    if !valid(notification) { return Invalid, i, j, sent, last; }
    r, i, j, sent, last := Persist(d, task, S.Draft(id, notification), w);
  }

  // Where the log says the insert was made.
  lemma InsertedAt(s0: State, log: seq<Action>, task: nat, draft: S.Draft)
    requires task !in Exec(s0, log).tasks && S.Insertable(Exec(s0, log).rows, [draft])
    ensures forall more: seq<Action> :: log + [InsertDrafts(task, [draft], Done)] <= more ==>
              InsertsAt(s0, more, |log|, draft)
  {
    forall more: seq<Action> | log + [InsertDrafts(task, [draft], Done)] <= more
      ensures InsertsAt(s0, more, |log|, draft)
    {
      assert more[..|log|] == log;
      assert more[|log|] == (log + [InsertDrafts(task, [draft], Done)])[|log|];
    }
  }

  // A duplicate key is answered with the notification that holds it.
  method ReplayExisting(d: Cluster, task: nat, ghost i: nat, draft: S.Draft, w: Replies)
    returns (r: CreateResult, ghost j: nat)
    requires d.Valid() && task !in d.tasks && draft.notification.idempotencyKey.Some? && i <= |d.log|
    requires S.KeyTaken(Exec(Init(d.maxAttempts, d.staleAfter), d.log[..i]).rows,
               draft.notification.idempotencyKey.value)
    modifies d, d.repo, d.publisher
    ensures d.Valid() && old(d.log) <= d.log && task !in d.tasks
    ensures r == Unavailable || r.Replay?
    ensures OwnSteps(d.log, TaskSelf(task)) == OwnSteps(old(d.log), TaskSelf(task))
    ensures r.Replay? <==> w.lookupIo.Done?
    ensures r.Replay? ==> Answers(Init(d.maxAttempts, d.staleAfter), d.log, i, j, draft, Replayed(r.id))
  {
    d.Others(TaskSelf(task));
    var existing := d.repo.GetByIdempotencyKey(draft.notification.idempotencyKey.value, w.lookupIo);
    assert d.log[..i] == old(d.log)[..i] && d.log[..|d.log|] == d.log;
    j := |d.log|;
    ReplayNeverMisses(Init(d.maxAttempts, d.staleAfter), d.log, i, j, draft.notification.idempotencyKey.value);
    r := if existing.Ok? then Replay(existing.value) else Unavailable;
  }

  method PublishFresh(d: Cluster, task: nat, draft: S.Draft, w: Replies)
    returns (r: CreateResult, ghost sent: seq<nat>, ghost last: nat)
    requires d.Valid() && Owes(d, task, TaskKind.Created, PendingMessages([draft])) && d.tasks[task].confirmed == []
    modifies d, d.repo, d.publisher
    ensures d.Valid() && old(d.log) <= d.log && task !in d.tasks
    ensures r.Fresh? && r.id == draft.id
    ensures draft.notification.status != Pending ==>
              && r.status == draft.notification.status
              && OwnSteps(d.log, TaskSelf(task)) == OwnSteps(old(d.log), TaskSelf(task)) + [DropTask(task)]
    ensures draft.notification.status == Pending ==>
              && AnsweredAfter(d, task, draft, w, r.status, sent, last) && |old(d.log)| <= sent[0]
              && OwnSteps(d.log, TaskSelf(task)) == OwnSteps(old(d.log), TaskSelf(task)) + [Publish(task, w.receipt)]
                   + [if w.receipt.Confirmed? && !w.markIo.NotRun? then MarkQueued(task, w.dbNow) else DropTask(task)]
  {
    sent, last := [], 0;
    if draft.notification.status == Pending {
      ghost var m := Message(draft.notification.channel, draft.id);
      assert [draft][1..] == [];
      assert PendingMessages([draft]) == [m];
      var status;
      status, sent, last := PublishForDelivery(d, task, draft.id, m, w);
      return Fresh(draft.id, status), sent, last;
    }
    Finish(d, task);
    r := Fresh(draft.id, draft.notification.status);
  }

  // The insert, and where the log has it.
  method StoreRow(d: Cluster, task: nat, draft: S.Draft, w: Replies) returns (r: Try<()>, ghost i: nat)
    requires d.Valid() && task !in d.tasks && S.Initial(draft.notification)
    modifies d, d.repo, d.publisher
    ensures d.Valid() && old(d.log) <= d.log
    ensures i + 1 == |d.log| && d.log[i] == InsertDrafts(task, [draft], w.insertIo)
    ensures OwnSteps(d.log, TaskSelf(task))
              == OwnSteps(old(d.log), TaskSelf(task)) + [InsertDrafts(task, [draft], w.insertIo)]
    ensures r.Ok? <==> w.insertIo.Done? && S.Insertable(RowsAt(d, i), [draft])
    ensures r == Err(DuplicateKey) <==> w.insertIo.Done? && Duplicates(RowsAt(d, i), draft)
    ensures r.Ok? ==> Owes(d, task, TaskKind.Created, PendingMessages([draft])) && d.tasks[task].confirmed == []
    ensures r.Ok? ==> forall more :: d.log <= more ==> InsertsAt(Init(d.maxAttempts, d.staleAfter), more, i, draft)
    ensures r.Err? ==> task !in d.tasks
  {
    d.Others(TaskSelf(task));
    ghost var before := d.log;
    i := |before|;
    r := InsertRow(d, task, draft, w.insertIo);
    assert d.log[..i] == before;
    if r.Ok? { InsertedAt(Init(d.maxAttempts, d.staleAfter), before, task, draft); }
  }

  method Persist(d: Cluster, task: nat, draft: S.Draft, w: Replies)
    returns (r: CreateResult, ghost i: nat, ghost j: nat, ghost sent: seq<nat>, ghost last: nat)
    requires d.Valid() && task !in d.tasks && S.Initial(draft.notification)
    modifies d, d.repo, d.publisher
    ensures d.Valid() && old(d.log) <= d.log && task !in d.tasks
    ensures r != Invalid && i < |d.log| && d.log[i] == InsertDrafts(task, [draft], w.insertIo)
    ensures (r.Fresh? || r.Replay?) && draft.notification.idempotencyKey.Some? ==>
              Answers(Init(d.maxAttempts, d.staleAfter), d.log, i, j, draft,
                      if r.Fresh? then Reply.Created(draft.id) else Replayed(r.id))
    ensures var rows, key := RowsAt(d, i), draft.notification.idempotencyKey;
            var taken := key.Some? && exists x :: x in rows && rows[x].idempotencyKey == key;
            && (r.Fresh? <==> w.insertIo == Done && draft.id !in rows && !taken)
            && (r.Replay? <==> w.insertIo == Done && draft.id !in rows && taken && w.lookupIo == Done)
            && (r.Fresh? ==> r.id == draft.id)
    ensures r.Replay? ==>
              && i <= j <= |d.log| && r.id in RowsAt(d, j)
              && RowsAt(d, j)[r.id].idempotencyKey == draft.notification.idempotencyKey
    ensures var before, insert := OwnSteps(old(d.log), TaskSelf(task)), InsertDrafts(task, [draft], w.insertIo);
            && (!r.Fresh? ==> OwnSteps(d.log, TaskSelf(task)) == before + [insert])
            && (r.Fresh? && draft.notification.status != Pending ==>
                  && r.status == draft.notification.status
                  && OwnSteps(d.log, TaskSelf(task)) == before + [insert] + [DropTask(task)])
            && (r.Fresh? && draft.notification.status == Pending ==>
                  && AnsweredAfter(d, task, draft, w, r.status, sent, last) && i < sent[0]
                  && OwnSteps(d.log, TaskSelf(task)) == before + [insert] + [Publish(task, w.receipt)]
                       + [if w.receipt.Confirmed? && !w.markIo.NotRun? then MarkQueued(task, w.dbNow)
                          else DropTask(task)])
  {
    var inserted;
    inserted, i := StoreRow(d, task, draft, w);
    j, sent, last := i, [], 0;
    ghost var log := d.log;
    if inserted.Ok? {
      r, sent, last := PublishFresh(d, task, draft, w);
    } else if inserted == Err(DuplicateKey) && draft.notification.idempotencyKey.Some? {
      r, j := ReplayExisting(d, task, i, draft, w);
    } else {
      r := Unavailable;
    }
    SamePrefix(log, d.log, i);
    AnswerOf(Init(d.maxAttempts, d.staleAfter), d.log, task, draft, w, r, i, j);
  }

  // ---- cancel -------------------------------------------------------------------------------

  // What the guarded update says about the row as it was.
  function CancelAnswer(rows: S.Rows, id: Id, io: Io): Try<()> {
    if !io.Done? then Err(Infrastructure)
    else if id !in rows then Err(NotFound)
    else if rows[id].status in {Pending, Scheduled, Queued} then Ok(())
    else Err(InvalidTransition)
  }

  method CancelRow(d: Cluster, id: Id, now: Time, io: Io) returns (r: Try<()>)
    requires d.Valid()
    modifies d, d.repo
    ensures d.Valid() && d.log == old(d.log) + (if io.NotRun? then [] else [Cancel(id, now)])
    ensures r == CancelAnswer(old(d.repo.rows), id, io)
    ensures r.Ok? ==> id in d.repo.rows && d.repo.rows[id].status == Cancelled
  {
    var allowed := CancellableStatuses();
    var before := d.View();
    r := d.repo.UpdateStatus(id, Cancelled, allowed, now, io);
    assert FromSeq(allowed) == set from | from in allowed;
    if !io.NotRun? { d.Record(before, Action.Cancel(id, now)); }
  }

  // However much happens meanwhile, a cancelled row is still there and cancelled.
  method ReadBack(d: Cluster, id: Id, io: Io) returns (r: Try<Notification>)
    requires d.Valid() && id in d.repo.rows && d.repo.rows[id].status == Cancelled
    modifies d, d.repo, d.publisher
    ensures d.Valid() && old(d.log) <= d.log && id in d.repo.rows && d.repo.rows[id].status == Cancelled
    ensures r == if io.Done? then Ok(d.repo.rows[id]) else Err(Infrastructure)
  {
    ghost var s := d.View();
    d.Others(Caller);
    TerminalIsFinal(s, d.log[|old(d.log)|..], id);
    r := d.repo.GetById(id, io);
  }

  method CancelAtSomePoint(d: Cluster, id: Id, now: Time, io: Io) returns (r: Try<()>, ghost i: nat)
    requires d.Valid()
    modifies d, d.repo, d.publisher
    ensures d.Valid() && old(d.log) <= d.log && |old(d.log)| <= i <= |d.log|
    ensures d.log[i..] == if io.NotRun? then [] else [Cancel(id, now)]
    ensures r == CancelAnswer(RowsAt(d, i), id, io)
    ensures r.Ok? ==> id in d.repo.rows && d.repo.rows[id].status == Cancelled
  {
    d.Others(Caller);
    i := |d.log|;
    ghost var log := d.log;
    r := CancelRow(d, id, now, io);
    assert d.log[..i] == log && log[..i] == log;
  }

  lemma NeverSentFrom(d: Cluster, id: Id)
    requires d.Valid() && id in d.repo.rows && d.repo.rows[id].status == Cancelled
    ensures forall more: seq<Action> :: Times(SendEvent, Init(d.maxAttempts, d.staleAfter), d.log + more, id) == 0
  {
    forall more: seq<Action> ensures Times(SendEvent, Init(d.maxAttempts, d.staleAfter), d.log + more, id) == 0 {
      CancelledIsNeverSent(d.maxAttempts, d.staleAfter, d.log, more, id);
    }
  }

  /** The cancel statement runs at some step i and decides by the row as it was then. If it
      takes effect, the cancelled notification is read back however much happens in between,
      and no Send was ever made for it or ever will be, whatever follows. */
  method CancelNotification(d: Cluster, id: Id, now: Time, io: Io, readIo: Io)
    returns (r: Try<Notification>, ghost i: nat)
    requires d.Valid()
    modifies d, d.repo, d.publisher
    ensures d.Valid() && old(d.log) <= d.log && |old(d.log)| <= i <= |d.log|
    ensures !io.NotRun? ==> i < |d.log| && d.log[i] == Cancel(id, now)
    ensures io != Done ==> r == Err(Infrastructure)
    ensures io == Done && id !in RowsAt(d, i) ==> r == Err(NotFound)
    ensures io == Done && id in RowsAt(d, i) && RowsAt(d, i)[id].status !in {Pending, Scheduled, Queued} ==>
              r == Err(InvalidTransition)
    ensures io == Done && id in RowsAt(d, i) && RowsAt(d, i)[id].status in {Pending, Scheduled, Queued} ==>
              && id in d.repo.rows && d.repo.rows[id].status == Cancelled
              && r == (if readIo == Done then Ok(d.repo.rows[id]) else Err(Infrastructure))
              && forall more: seq<Action> :: Times(SendEvent, Init(d.maxAttempts, d.staleAfter), d.log + more, id) == 0
  {
    var cancelled;
    cancelled, i := CancelAtSomePoint(d, id, now, io);
    if cancelled.Err? { return Err(cancelled.error), i; }
    ghost var log := d.log;
    assert log[i..][0] == log[i];
    r := ReadBack(d, id, readIo);
    SamePrefix(log, d.log, i);
    NeverSentFrom(d, id);
  }
}
