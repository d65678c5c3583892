/** Batch creation against a running deployment: insert, then publish, then mark, with any
    other components acting in between.
 */
module BatchService {
  import opened Domain
  import S = Statements
  import opened Protocol
  import opened Repository
  import opened Deployment
  import opened Scheduler
  import opened Batch

  // The ids of the first n messages that the broker confirmed, in order.
  function ConfirmedIds(messages: seq<Message>, receipts: nat -> Receipt, n: nat): seq<Id>
    requires n <= |messages|
  {
    if n == 0 then []
    else ConfirmedIds(messages, receipts, n - 1) + (if receipts(n - 1).Confirmed? then [messages[n - 1].id] else [])
  }

  /** The confirmed ids are an order-preserving subsequence of the published ones, and all of
      those that the broker confirmed. */
  lemma {:induction false} ConfirmedAreASubsequence(messages: seq<Message>, receipts: nat -> Receipt, n: nat)
    returns (at: seq<nat>)
    requires n <= |messages|
    ensures |at| == |ConfirmedIds(messages, receipts, n)| == Confirms(receipts, n)
    ensures forall k :: 0 <= k < |at| ==>
              at[k] < n && receipts(at[k]).Confirmed? && messages[at[k]].id == ConfirmedIds(messages, receipts, n)[k]
    ensures forall k, l :: 0 <= k < l < |at| ==> at[k] < at[l]
  {
    if n == 0 {
      at := [];
    } else {
      at := ConfirmedAreASubsequence(messages, receipts, n - 1);
      if receipts(n - 1).Confirmed? { at := at + [n - 1]; }
    }
  }

  // Whether one of the first n messages has this id and was confirmed.
  ghost predicate WasConfirmed(messages: seq<Message>, receipts: nat -> Receipt, n: nat, id: Id)
    requires n <= |messages|
  {
    exists k :: 0 <= k < n && receipts(k) == Confirmed && messages[k].id == id
  }

  lemma {:induction false} ConfirmedAre(messages: seq<Message>, receipts: nat -> Receipt, n: nat)
    requires n <= |messages|
    ensures forall id :: id in ConfirmedIds(messages, receipts, n) <==> WasConfirmed(messages, receipts, n, id)
  {
    if n > 0 {
      ConfirmedAre(messages, receipts, n - 1);
      forall id | WasConfirmed(messages, receipts, n, id) ensures id in ConfirmedIds(messages, receipts, n) {
        var k :| 0 <= k < n && receipts(k) == Confirmed && messages[k].id == id;
        assert k == n - 1 || WasConfirmed(messages, receipts, n - 1, id);
      }
    }
  }

  // The task has still to publish the messages from i on, and knows which before were confirmed.
  ghost predicate InBurst(d: Cluster, task: nat, messages: seq<Message>, receipts: nat -> Receipt, i: nat)
    requires i <= |messages|
    reads d
  {
    && Owes(d, task, TaskKind.Created, messages[i..])
    && d.tasks[task].confirmed == ConfirmedIds(messages, receipts, i)
  }

  method BurstTurn(d: Cluster, task: nat, ghost messages: seq<Message>, receipts: nat -> Receipt, i: nat)
    returns (ghost at: nat)
    requires i < |messages| && d.Valid() && InBurst(d, task, messages, receipts, i)
    modifies d, d.repo, d.publisher
    ensures d.Valid() && old(d.log) <= d.log && InBurst(d, task, messages, receipts, i + 1)
    ensures OwnSteps(d.log, TaskSelf(task)) == OwnSteps(old(d.log), TaskSelf(task)) + [Publish(task, receipts(i))]
    ensures |old(d.log)| <= at
    ensures PublishesAt(Init(d.maxAttempts, d.staleAfter), d.log, at, task, messages[i], receipts(i))
  {
    var ok;
    ok, at := PublishTurn(d, task, TaskKind.Created, messages[i..], receipts(i));
    assert messages[i..][1..] == messages[i + 1..];
  }

  // The burst so far: what is in flight, and where the log has each publish.
  ghost predicate BurstSoFar(s0: State, log: seq<Action>, before: seq<Action>, task: nat, messages: seq<Message>,
        receipts: nat -> Receipt, inFlight: seq<Id>, sent: seq<nat>, from: nat)
  {
    && |inFlight| == |sent| <= |messages|
    && (forall j :: 0 <= j < |inFlight| ==> inFlight[j] == messages[j].id)
    && SoFar(s0, log, before, task, messages, receipts, |sent|, Confirms(receipts, |sent|), sent)
    && (sent != [] ==> from <= sent[0])
  }

  lemma OneMoreInFlight(s0: State, log: seq<Action>, more: seq<Action>, before: seq<Action>, task: nat,
        messages: seq<Message>, receipts: nat -> Receipt, inFlight: seq<Id>, sent: seq<nat>, from: nat, at: nat)
    requires BurstSoFar(s0, log, before, task, messages, receipts, inFlight, sent, from)
    requires |sent| < |messages| && log <= more && from <= |log| <= at
    requires OwnSteps(more, TaskSelf(task)) == OwnSteps(log, TaskSelf(task)) + [Publish(task, receipts(|sent|))]
    requires PublishesAt(s0, more, at, task, messages[|sent|], receipts(|sent|))
    ensures BurstSoFar(s0, more, before, task, messages, receipts, inFlight + [messages[|sent|].id], sent + [at], from)
  {
    OneMoreRow(s0, log, more, before, task, messages, receipts, |sent|, Confirms(receipts, |sent|), sent, at);
  }

  method PublishBurst(d: Cluster, task: nat, messages: seq<Message>, receipts: nat -> Receipt, broken: nat)
    returns (inFlight: seq<Id>, ghost sent: seq<nat>)
    requires d.Valid() && Owes(d, task, TaskKind.Created, messages) && d.tasks[task].confirmed == []
    modifies d, d.repo, d.publisher
    ensures d.Valid() && old(d.log) <= d.log && task in d.tasks && d.tasks[task].kind == TaskKind.Created
    ensures |inFlight| == |sent| == if broken < |messages| then broken else |messages|
    ensures forall j :: 0 <= j < |inFlight| ==> inFlight[j] == messages[j].id
    ensures d.tasks[task].confirmed == ConfirmedIds(messages, receipts, |sent|)
    ensures OwnSteps(d.log, TaskSelf(task))
              == OwnSteps(old(d.log), TaskSelf(task)) + Publishes(task, receipts, |sent|)
    ensures Published(Init(d.maxAttempts, d.staleAfter), d.log, sent, task, messages, receipts)
    ensures sent != [] ==> |old(d.log)| <= sent[0]
  {
    ghost var s0, before := Init(d.maxAttempts, d.staleAfter), OwnSteps(d.log, TaskSelf(task));
    inFlight, sent := [], [];
    var i: nat := 0;
    while i < |messages| && i != broken
      invariant i <= |messages| && i <= broken && |sent| == i
      invariant d.Valid() && old(d.log) <= d.log && InBurst(d, task, messages, receipts, i)
      invariant BurstSoFar(s0, d.log, before, task, messages, receipts, inFlight, sent, |old(d.log)|)
    {
      ghost var log := d.log;
      ghost var at := BurstTurn(d, task, messages, receipts, i);
      OneMoreInFlight(s0, log, d.log, before, task, messages, receipts, inFlight, sent, |old(d.log)|, at);
      inFlight, sent := inFlight + [messages[i].id], sent + [at];
      i := i + 1;
    }
  }

  method CollectConfirms(ghost messages: seq<Message>, inFlight: seq<Id>, receipts: nat -> Receipt)
    returns (confirmed: seq<Id>)
    requires |inFlight| <= |messages| && forall j :: 0 <= j < |inFlight| ==> inFlight[j] == messages[j].id
    ensures confirmed == ConfirmedIds(messages, receipts, |inFlight|)
    ensures forall id :: id in confirmed <==> WasConfirmed(messages, receipts, |inFlight|, id)
  {
    confirmed := [];
    for j := 0 to |inFlight|
      invariant confirmed == ConfirmedIds(messages, receipts, j)
    {
      if receipts(j).Confirmed? { confirmed := confirmed + [inFlight[j]]; }
    }
    ConfirmedAre(messages, receipts, |inFlight|);
  }

  /** Publish until the channel fails, then collect the confirms: what is returned is exactly
      what was confirmed to this publisher, in request order. */
  method PublishCreatedAll(d: Cluster, task: nat, messages: seq<Message>, receipts: nat -> Receipt, broken: nat)
    returns (confirmed: seq<Id>, ghost sent: seq<nat>)
    requires d.Valid() && Owes(d, task, TaskKind.Created, messages) && d.tasks[task].confirmed == []
    modifies d, d.repo, d.publisher
    ensures d.Valid() && old(d.log) <= d.log && task in d.tasks && d.tasks[task].kind == TaskKind.Created
    ensures |sent| == if broken < |messages| then broken else |messages|
    ensures confirmed == ConfirmedIds(messages, receipts, |sent|) == d.tasks[task].confirmed
    ensures forall id :: id in confirmed <==> WasConfirmed(messages, receipts, |sent|, id)
    ensures OwnSteps(d.log, TaskSelf(task))
              == OwnSteps(old(d.log), TaskSelf(task)) + Publishes(task, receipts, |sent|)
    ensures Published(Init(d.maxAttempts, d.staleAfter), d.log, sent, task, messages, receipts)
    ensures sent != [] ==> |old(d.log)| <= sent[0]
  {
    var inFlight;
    inFlight, sent := PublishBurst(d, task, messages, receipts, broken);
    confirmed := CollectConfirms(messages, inFlight, receipts);
  }

  // ---- the whole batch ------------------------------------------------------------------------------

  lemma {:induction false} PendingSnoc(ds: seq<S.Draft>, last: S.Draft)
    ensures PendingMessages(ds + [last]) == PendingMessages(ds) + PendingMessages([last])
  {
    if ds == [] {
      assert ds + [last] == [last];
    } else {
      assert (ds + [last])[1..] == ds[1..] + [last];
      PendingSnoc(ds[1..], last);
    }
  }

  // What item i adds to the burst.
  function Burst(q: Request, stored: map<string, Id>, valid: Notification -> bool, i: nat): seq<Message>
    requires WellFormed(q) && i < |q.inputs|
  {
    if IsAccepted(q, stored, valid, i) && q.inputs[i].scheduledAt.None?
    then [Message(q.inputs[i].channel, q.ids[i])]
    else []
  }

  lemma BurstStep(q: Request, stored: map<string, Id>, valid: Notification -> bool, i: nat)
    requires WellFormed(q) && i < |q.inputs|
    ensures PendingMessages(AcceptedDrafts(q, stored, valid, i + 1))
              == PendingMessages(AcceptedDrafts(q, stored, valid, i)) + Burst(q, stored, valid, i)
  {
    if IsAccepted(q, stored, valid, i) {
      PendingSnoc(AcceptedDrafts(q, stored, valid, i), DraftOf(q, i));
      assert [DraftOf(q, i)][1..] == [];
    } else {
      assert AcceptedDrafts(q, stored, valid, i + 1) == AcceptedDrafts(q, stored, valid, i);
    }
  }

  // These are the classifications of all the items.
  ghost predicate AllClassified(q: Request, stored: map<string, Id>, valid: Notification -> bool, rs: seq<ItemResult>)
    requires WellFormed(q)
  {
    |rs| == |q.inputs|
    && forall i {:trigger Classified(q, stored, valid, i, rs[i])} :: 0 <= i < |q.inputs| ==>
         Classified(q, stored, valid, i, rs[i])
  }

  /** The accepted items that have to be published now, read off the results in order, are the
      pending rows among those inserted. */
  method ToPublish(q: Request, stored: map<string, Id>, valid: Notification -> bool, results: array<ItemResult>)
    returns (messages: seq<Message>)
    requires WellFormed(q) && results.Length == |q.inputs|
    requires AllClassified(q, stored, valid, results[..])
    ensures messages == PendingMessages(AcceptedDrafts(q, stored, valid, |q.inputs|))
  {
    messages := [];
    for i := 0 to results.Length
      invariant messages == PendingMessages(AcceptedDrafts(q, stored, valid, i))
    {
      BurstStep(q, stored, valid, i);
      assert Classified(q, stored, valid, i, results[..][i]);
      if results[i].status == Accepted && results[i].notification.value.notification.status == Pending {
        messages := messages
            + [Message(results[i].notification.value.notification.channel, results[i].notification.value.id)];
      }
    }
  }

  // These are the items to publish among the first n, in request order, each as a message for
  // its channel.
  ghost predicate Immediate(q: Request, stored: map<string, Id>, valid: Notification -> bool, n: nat,
        items: seq<nat>, messages: seq<Message>)
    requires WellFormed(q) && n <= |q.inputs|
  {
    && (forall i :: i in items <==> 0 <= i < n && IsAccepted(q, stored, valid, i) && q.inputs[i].scheduledAt == None)
    && (forall k, l :: 0 <= k < l < |items| ==> items[k] < items[l])
    && |messages| == |items|
    && (forall k :: 0 <= k < |items| ==>
          items[k] < n && messages[k] == Message(q.inputs[items[k]].channel, q.ids[items[k]]))
  }

  lemma OneMoreItem(q: Request, stored: map<string, Id>, valid: Notification -> bool, n: nat, before: seq<nat>)
    returns (items: seq<nat>)
    requires WellFormed(q) && n < |q.inputs|
    requires Immediate(q, stored, valid, n, before, PendingMessages(AcceptedDrafts(q, stored, valid, n)))
    ensures Immediate(q, stored, valid, n + 1, items, PendingMessages(AcceptedDrafts(q, stored, valid, n + 1)))
  {
    BurstStep(q, stored, valid, n);
    if IsAccepted(q, stored, valid, n) && q.inputs[n].scheduledAt.None? {
      items := before + [n];
    } else {
      items := before;
    }
  }

  lemma {:induction false} BurstItems(q: Request, stored: map<string, Id>, valid: Notification -> bool, n: nat)
    returns (items: seq<nat>)
    requires WellFormed(q) && n <= |q.inputs|
    ensures Immediate(q, stored, valid, n, items, PendingMessages(AcceptedDrafts(q, stored, valid, n)))
  {
    if n == 0 {
      items := [];
    } else {
      var before := BurstItems(q, stored, valid, n - 1);
      items := OneMoreItem(q, stored, valid, n - 1, before);
    }
  }

  /** The confirmed items, and only they, are reported as queued; nothing else changes. */
  method ReportQueued(results: array<ItemResult>, confirmed: seq<Id>)
    modifies results
    ensures forall i :: 0 <= i < results.Length ==>
              var before, after := old(results[i]), results[i];
              && after.index == before.index && after.status == before.status && after.existingId == before.existingId
              && after.notification
                   == if before.notification.Some? && before.notification.value.id in confirmed
                      then Some(before.notification.value.(notification :=
                                  before.notification.value.notification.(status := Queued)))
                      else before.notification
  {
    for i := 0 to results.Length
      invariant forall j :: i <= j < results.Length ==> results[j] == old(results[j])
      invariant forall j :: 0 <= j < i ==> ReportedFrom(old(results[j]), results[j], confirmed)
    {
      if results[i].notification.Some? && results[i].notification.value.id in confirmed {
        var draft := results[i].notification.value;
        results[i] := results[i].(notification :=
            Some(draft.(notification := draft.notification.(status := Queued))));
      }
    }
  }

  // What a report makes of one item's classification.
  ghost predicate ReportedFrom(before: ItemResult, after: ItemResult, confirmed: seq<Id>) {
    && after.index == before.index && after.status == before.status && after.existingId == before.existingId
    && after.notification
         == if before.notification.Some? && before.notification.value.id in confirmed
            then Some(before.notification.value.(notification :=
                        before.notification.value.notification.(status := Queued)))
            else before.notification
  }

  method InsertAll(d: Cluster, task: nat, ds: seq<S.Draft>, io: Io) returns (ok: bool)
    requires d.Valid() && task !in d.tasks
    modifies d, d.repo
    ensures d.Valid() && d.log == old(d.log) + [InsertDrafts(task, ds, Reaching(ds, io))]
    ensures OwnSteps(d.log, TaskSelf(task))
              == OwnSteps(old(d.log), TaskSelf(task)) + [InsertDrafts(task, ds, Reaching(ds, io))]
    ensures ok <==> Reaching(ds, io).Done? && S.Insertable(old(d.repo.rows), ds)
    ensures ok ==> Owes(d, task, TaskKind.Created, PendingMessages(ds)) && d.tasks[task].confirmed == []
    ensures !ok ==> task !in d.tasks
  {
    var before := d.View();
    var r := d.repo.CreateBatch(ds, io);
    d.Record(before, InsertDrafts(task, ds, Reaching(ds, io)));
    ok := r.Ok?;
  }

  // What the database and the broker answer to one batch.
  datatype BatchReplies = BatchReplies(insertIo: Io, receipts: nat -> Receipt, broken: nat, markIo: Io, dbNow: Time)

  // The last step of a batch that was inserted.
  function MarkStep(task: nat, confirmed: seq<Id>, w: BatchReplies): Action {
    if Reaching(confirmed, w.markIo).NotRun? then DropTask(task) else MarkQueued(task, w.dbNow)
  }

  method MarkAllQueued(d: Cluster, task: nat, confirmed: seq<Id>, w: BatchReplies) returns (marked: bool)
    requires d.Valid() && task in d.tasks && d.tasks[task].kind == TaskKind.Created
               && d.tasks[task].confirmed == confirmed
    modifies d, d.repo
    ensures d.Valid() && task !in d.tasks && (marked <==> Reaching(confirmed, w.markIo).Done?)
    ensures var a := MarkStep(task, confirmed, w);
            d.log == old(d.log) + [a] && OwnSteps(d.log, TaskSelf(task)) == OwnSteps(old(d.log), TaskSelf(task)) + [a]
  {
    var before := d.View();
    var r := d.repo.MarkQueuedBulk(confirmed, w.dbNow, w.markIo);
    d.Record(before, MarkStep(task, confirmed, w));
    marked := r.Ok?;
  }

  // The messages before the channel broke were published at these steps, none before step from.
  ghost predicate BurstSent(s0: State, log: seq<Action>, task: nat, messages: seq<Message>, w: BatchReplies,
        sent: seq<nat>, from: nat)
  {
    && |sent| == (if w.broken < |messages| then w.broken else |messages|)
    && Published(s0, log, sent, task, messages, w.receipts) && (sent != [] ==> from <= sent[0])
  }

  // The ids that the answer reports as queued, and the mark that decided it.
  ghost predicate BurstMarked(messages: seq<Message>, w: BatchReplies, n: nat, queued: seq<Id>, task: nat, mark: Action)
    requires n <= |messages|
  {
    && (forall id :: id in queued <==> w.markIo == Done && WasConfirmed(messages, w.receipts, n, id))
    && mark == if w.markIo == NotRun && exists k :: 0 <= k < n && w.receipts(k) == Confirmed
               then DropTask(task) else MarkQueued(task, w.dbNow)
  }

  lemma MarkedAsConfirmed(messages: seq<Message>, w: BatchReplies, n: nat, task: nat, confirmed: seq<Id>)
    requires n <= |messages|
    requires forall id :: id in confirmed <==> WasConfirmed(messages, w.receipts, n, id)
    ensures BurstMarked(messages, w, n, if Reaching(confirmed, w.markIo).Done? then confirmed else [], task,
                        MarkStep(task, confirmed, w))
  {
    assert forall k :: 0 <= k < n && w.receipts(k) == Confirmed ==>
        WasConfirmed(messages, w.receipts, n, messages[k].id);
    if confirmed != [] { assert WasConfirmed(messages, w.receipts, n, confirmed[0]); }
  }

  // The part of batch creation that runs once the insert has committed.
  method PublishAccepted(d: Cluster, task: nat, messages: seq<Message>, w: BatchReplies)
    returns (queued: seq<Id>, ghost sent: seq<nat>, ghost mark: Action)
    requires d.Valid() && Owes(d, task, TaskKind.Created, messages) && d.tasks[task].confirmed == []
    modifies d, d.repo, d.publisher
    ensures d.Valid() && old(d.log) <= d.log && task !in d.tasks
    ensures BurstSent(Init(d.maxAttempts, d.staleAfter), d.log, task, messages, w, sent, |old(d.log)|)
    ensures BurstMarked(messages, w, |sent|, queued, task, mark)
    ensures OwnSteps(d.log, TaskSelf(task))
              == OwnSteps(old(d.log), TaskSelf(task)) + Publishes(task, w.receipts, |sent|) + [mark]
  {
    var confirmed;
    confirmed, sent := PublishCreatedAll(d, task, messages, w.receipts, w.broken);
    ghost var log := d.log;
    d.Others(TaskSelf(task));
    var marked := MarkAllQueued(d, task, confirmed, w);
    queued := if marked then confirmed else [];
    mark := MarkStep(task, confirmed, w);
    MarkedAsConfirmed(messages, w, |sent|, task, confirmed);
    StillPublished(Init(d.maxAttempts, d.staleAfter), log, d.log, sent, task, messages, w.receipts);
  }

  method LookUp(d: Cluster, task: nat, q: Request) returns (stored: map<string, Id>, ghost at: nat)
    requires d.Valid() && task !in d.tasks
    modifies d, d.repo, d.publisher
    ensures d.Valid() && old(d.log) <= d.log && task !in d.tasks
    ensures OwnSteps(d.log, TaskSelf(task)) == OwnSteps(old(d.log), TaskSelf(task))
    ensures |old(d.log)| <= at <= |d.log| && LookedUp(RowsAt(d, at), q.inputs, stored)
  {
    d.Others(TaskSelf(task));
    stored := ExistingKeysFor(q.inputs, d.repo.rows);
    at := |d.log|;
    ghost var log := d.log;
    assert log[..at] == log;
    d.Others(TaskSelf(task));
    SamePrefix(log, d.log, at);
  }

  // The classification, by the keys that the table held at some earlier step.
  method LookUpAndClassify(d: Cluster, task: nat, q: Request, valid: Notification -> bool)
    returns (results: array<ItemResult>, toInsert: seq<S.Draft>, stored: map<string, Id>, ghost at: nat,
             ghost rows: S.Rows)
    requires d.Valid() && task !in d.tasks && WellFormed(q)
    modifies d, d.repo, d.publisher
    ensures d.Valid() && old(d.log) <= d.log && task !in d.tasks
    ensures OwnSteps(d.log, TaskSelf(task)) == OwnSteps(old(d.log), TaskSelf(task))
    ensures |old(d.log)| <= at <= |d.log| && rows == RowsAt(d, at)
    ensures forall key :: key in stored <==>
              && (exists id :: id in rows && rows[id].idempotencyKey == Some(key))
              && (exists i :: 0 <= i < |q.inputs| && q.inputs[i].idempotencyKey == Some(key))
    ensures forall key :: key in stored ==> stored[key] in rows && rows[stored[key]].idempotencyKey == Some(key)
    ensures fresh(results) && results.Length == |q.inputs| && AllClassified(q, stored, valid, results[..])
    ensures toInsert == AcceptedDrafts(q, stored, valid, |q.inputs|)
  {
    stored, at := LookUp(d, task, q);
    rows := RowsAt(d, at);
    var accepted, rejected;
    results, toInsert, accepted, rejected := Classify(q, stored, valid);
  }

  // The insert, and once it has committed the publishes and the mark.
  method InsertAndPublish(d: Cluster, task: nat, q: Request, stored: map<string, Id>, valid: Notification -> bool,
        results: array<ItemResult>, toInsert: seq<S.Draft>, w: BatchReplies)
    returns (ok: bool, queued: seq<Id>, ghost sent: seq<nat>, ghost mark: Action, ghost at: nat)
    requires d.Valid() && task !in d.tasks && WellFormed(q) && results.Length == |q.inputs|
    requires AllClassified(q, stored, valid, results[..])
    requires toInsert == AcceptedDrafts(q, stored, valid, |q.inputs|)
    modifies d, d.repo, d.publisher
    ensures d.Valid() && old(d.log) <= d.log && task !in d.tasks
    ensures at == |old(d.log)| < |d.log|
    ensures d.log[at] == InsertDrafts(task, toInsert, if toInsert == [] then Done else w.insertIo)
    ensures ok <==> (toInsert == [] || w.insertIo == Done) && S.Insertable(RowsAt(d, at), toInsert)
    ensures ok ==>
              && BurstSent(Init(d.maxAttempts, d.staleAfter), d.log, task, PendingMessages(toInsert), w, sent, at + 1)
              && BurstMarked(PendingMessages(toInsert), w, |sent|, queued, task, mark)
    ensures !ok ==> sent == [] && queued == []
    ensures OwnSteps(d.log, TaskSelf(task)) == OwnSteps(old(d.log), TaskSelf(task)) + [d.log[at]]
              + if ok then Publishes(task, w.receipts, |sent|) + [mark] else []
  {
    queued, sent, mark, at := [], [], DropTask(task), |d.log|;
    ok := InsertAll(d, task, toInsert, w.insertIo);
    ghost var log := d.log;
    assert log[..at] == old(d.log);
    if ok {
      var messages := ToPublish(q, stored, valid, results);
      queued, sent, mark := PublishAccepted(d, task, messages, w);
    }
    SamePrefix(log, d.log, at);
  }

  // Which items are reported as queued, item by item.
  lemma QueuedItem(q: Request, stored: map<string, Id>, valid: Notification -> bool, items: seq<nat>,
        messages: seq<Message>, w: BatchReplies, n: nat, queued: seq<Id>, k: nat, c: ItemResult, r: ItemResult)
    requires WellFormed(q) && Immediate(q, stored, valid, |q.inputs|, items, messages) && n <= |items| && k < |items|
    requires Classified(q, stored, valid, items[k], c) && ReportedFrom(c, r, queued)
    requires forall id :: id in queued <==> w.markIo == Done && WasConfirmed(messages, w.receipts, n, id)
    ensures c.notification.Some?
    ensures r.notification == Some(c.notification.value.(notification := c.notification.value.notification.(status :=
                if k < n && w.receipts(k) == Confirmed && w.markIo == Done then Queued else Pending)))
  {
    assert items[k] in items;
    var id := q.ids[items[k]];
    if WasConfirmed(messages, w.receipts, n, id) {
      var l :| 0 <= l < n && w.receipts(l) == Confirmed && messages[l].id == id;
      assert items[l] in items;
    }
  }

  lemma NotQueuedItem(q: Request, stored: map<string, Id>, valid: Notification -> bool, items: seq<nat>,
        messages: seq<Message>, w: BatchReplies, n: nat, queued: seq<Id>, i: nat, c: ItemResult, r: ItemResult)
    requires WellFormed(q) && Immediate(q, stored, valid, |q.inputs|, items, messages) && n <= |items|
    requires i < |q.inputs| && i !in items
    requires Classified(q, stored, valid, i, c) && ReportedFrom(c, r, queued)
    requires forall id :: id in queued <==> w.markIo == Done && WasConfirmed(messages, w.receipts, n, id)
    ensures r.notification == c.notification
  {
    forall l | 0 <= l < n ensures messages[l].id != q.ids[i] {
      assert items[l] in items;
      assert items[l] < i || i < items[l];
    }
    assert !WasConfirmed(messages, w.receipts, n, q.ids[i]);
  }

  // The answer's results: the classification, with queued for the confirmed items of a mark
  // that succeeded.
  ghost predicate Reports(items: seq<nat>, classified: seq<ItemResult>, results: seq<ItemResult>, w: BatchReplies,
        n: nat)
  {
    && |results| == |classified|
    && (forall i :: 0 <= i < |classified| ==>
          && results[i].index == classified[i].index && results[i].status == classified[i].status
          && results[i].existingId == classified[i].existingId
          && (i !in items ==> results[i].notification == classified[i].notification))
    && (forall k :: 0 <= k < |items| && items[k] < |classified| ==>
          var c := classified[items[k]].notification;
          && c.Some?
          && results[items[k]].notification == Some(c.value.(notification := c.value.notification.(status :=
                 if k < n && w.receipts(k) == Confirmed && w.markIo == Done then Queued else Pending))))
  }

  lemma ReportsAre(q: Request, stored: map<string, Id>, valid: Notification -> bool, items: seq<nat>,
        messages: seq<Message>, w: BatchReplies, n: nat, queued: seq<Id>, classified: seq<ItemResult>,
        results: seq<ItemResult>)
    requires WellFormed(q) && Immediate(q, stored, valid, |q.inputs|, items, messages) && n <= |items|
    requires |results| == |q.inputs| && AllClassified(q, stored, valid, classified)
    requires forall i :: 0 <= i < |q.inputs| ==> ReportedFrom(classified[i], results[i], queued)
    requires forall id :: id in queued <==> w.markIo == Done && WasConfirmed(messages, w.receipts, n, id)
    ensures Reports(items, classified, results, w, n)
  {
    assert forall i :: 0 <= i < |q.inputs| ==> Classified(q, stored, valid, i, classified[i]);
    forall i | 0 <= i < |q.inputs| && i !in items ensures results[i].notification == classified[i].notification {
      NotQueuedItem(q, stored, valid, items, messages, w, n, queued, i, classified[i], results[i]);
    }
    forall k | 0 <= k < |items|
      ensures classified[items[k]].notification.Some?
      ensures results[items[k]].notification == Some(classified[items[k]].notification.value.(notification :=
                  classified[items[k]].notification.value.notification.(status :=
                      if k < n && w.receipts(k) == Confirmed && w.markIo == Done then Queued else Pending)))
    {
      QueuedItem(q, stored, valid, items, messages, w, n, queued, k, classified[items[k]], results[items[k]]);
    }
  }

  method ReportBatch(ghost q: Request, ghost stored: map<string, Id>, ghost valid: Notification -> bool,
        ghost items: seq<nat>, ghost messages: seq<Message>, ghost w: BatchReplies, ghost n: nat, queued: seq<Id>,
        results: array<ItemResult>)
    requires WellFormed(q) && Immediate(q, stored, valid, |q.inputs|, items, messages) && n <= |items|
    requires results.Length == |q.inputs|
    requires AllClassified(q, stored, valid, results[..])
    requires forall id :: id in queued <==> w.markIo == Done && WasConfirmed(messages, w.receipts, n, id)
    modifies results
    ensures Reports(items, old(results[..]), results[..], w, n)
  {
    ReportQueued(results, queued);
    ReportsAre(q, stored, valid, items, messages, w, n, queued, old(results[..]), results[..]);
  }

  lemma SentItems(s0: State, log: seq<Action>, task: nat, q: Request, stored: map<string, Id>,
        valid: Notification -> bool, items: seq<nat>, messages: seq<Message>, w: BatchReplies, sent: seq<nat>,
        from: nat)
    requires WellFormed(q) && Immediate(q, stored, valid, |q.inputs|, items, messages)
    requires BurstSent(s0, log, task, messages, w, sent, from)
    ensures forall k, l :: 0 <= k < l < |sent| ==> sent[k] < sent[l]
    ensures forall k :: 0 <= k < |sent| ==>
              && from <= sent[k]
              && PublishesAt(s0, log, sent[k], task, Message(q.inputs[items[k]].channel, q.ids[items[k]]),
                             w.receipts(k))
  {
    assert forall k :: 0 <= k < |sent| ==> k == 0 || sent[0] < sent[k];
  }

  lemma ItemsAre(q: Request, stored: map<string, Id>, valid: Notification -> bool, items: seq<nat>,
        messages: seq<Message>, classified: seq<ItemResult>)
    requires WellFormed(q) && Immediate(q, stored, valid, |q.inputs|, items, messages)
    requires AllClassified(q, stored, valid, classified)
    ensures forall i :: i in items <==>
              0 <= i < |q.inputs| && classified[i].status == Accepted && q.inputs[i].scheduledAt == None
    ensures forall k :: 0 <= k < |items| ==> items[k] < |q.inputs|
    ensures forall k, l :: 0 <= k < l < |items| ==> items[k] < items[l]
  {
    assert forall i :: 0 <= i < |q.inputs| ==> Classified(q, stored, valid, i, classified[i]);
  }

  // Insert, publish, mark and report, once the items are classified.
  method CreateClassified(d: Cluster, task: nat, q: Request, stored: map<string, Id>, valid: Notification -> bool,
        results: array<ItemResult>, toInsert: seq<S.Draft>, w: BatchReplies)
    returns (ok: bool, ghost items: seq<nat>, ghost sent: seq<nat>, ghost at: nat)
    requires d.Valid() && task !in d.tasks && WellFormed(q) && results.Length == |q.inputs|
    requires AllClassified(q, stored, valid, results[..])
    requires toInsert == AcceptedDrafts(q, stored, valid, |q.inputs|)
    modifies d, d.repo, d.publisher, results
    ensures d.Valid() && old(d.log) <= d.log && task !in d.tasks
    ensures at == |old(d.log)| < |d.log|
    ensures d.log[at] == InsertDrafts(task, toInsert, if toInsert == [] then Done else w.insertIo)
    ensures ok <==> (toInsert == [] || w.insertIo == Done) && S.Insertable(RowsAt(d, at), toInsert)
    ensures forall i :: i in items <==>
              0 <= i < |q.inputs| && old(results[..])[i].status == Accepted && q.inputs[i].scheduledAt == None
    ensures forall k :: 0 <= k < |items| ==> items[k] < |q.inputs|
    ensures forall k, l :: 0 <= k < l < |items| ==> items[k] < items[l]
    ensures |sent| == if !ok then 0 else if w.broken < |items| then w.broken else |items|
    ensures forall k, l :: 0 <= k < l < |sent| ==> sent[k] < sent[l]
    ensures forall k :: 0 <= k < |sent| ==>
              && at < sent[k]
              && PublishesAt(Init(d.maxAttempts, d.staleAfter), d.log, sent[k], task,
                             Message(q.inputs[items[k]].channel, q.ids[items[k]]), w.receipts(k))
    ensures OwnSteps(d.log, TaskSelf(task)) == OwnSteps(old(d.log), TaskSelf(task)) + [d.log[at]]
              + if !ok then [] else
                  Publishes(task, w.receipts, |sent|)
                  + [if w.markIo == NotRun && exists k :: 0 <= k < |sent| && w.receipts(k) == Confirmed
                     then DropTask(task) else MarkQueued(task, w.dbNow)]
    ensures Reports(items, old(results[..]), results[..], w, |sent|)
  {
    items := BurstItems(q, stored, valid, |q.inputs|);
    ItemsAre(q, stored, valid, items, PendingMessages(toInsert), results[..]);
    var queued;
    ghost var mark;
    ok, queued, sent, mark, at := InsertAndPublish(d, task, q, stored, valid, results, toInsert, w);
    if ok {
      SentItems(Init(d.maxAttempts, d.staleAfter), d.log, task, q, stored, valid, items, PendingMessages(toInsert), w,
                sent, at + 1);
    }
    ReportBatch(q, stored, valid, items, PendingMessages(toInsert), w, |sent|, queued, results);
  }

  /** Partial success against the running deployment. Nothing is published before the insert
      has committed, and a refused insert publishes nothing. The accepted items that are not
      scheduled are published in request order until the channel breaks. The results are the
      classification, with queued for those of them that the broker confirmed when the bulk
      mark succeeded. */
  method CreateBatch(d: Cluster, task: nat, q: Request, valid: Notification -> bool, w: BatchReplies)
    returns (ok: bool, results: array<ItemResult>, ghost stored: map<string, Id>, ghost classified: seq<ItemResult>,
             ghost items: seq<nat>, ghost sent: seq<nat>, ghost lookedUpAt: nat, ghost insertedAt: nat,
             ghost rows: S.Rows)
    requires d.Valid() && task !in d.tasks && WellFormed(q)
    modifies d, d.repo, d.publisher
    ensures d.Valid() && old(d.log) <= d.log && task !in d.tasks
    ensures |old(d.log)| <= lookedUpAt <= insertedAt < |d.log| && rows == RowsAt(d, lookedUpAt)
    ensures forall key :: key in stored <==>
              && (exists id :: id in rows && rows[id].idempotencyKey == Some(key))
              && (exists i :: 0 <= i < |q.inputs| && q.inputs[i].idempotencyKey == Some(key))
    ensures forall key :: key in stored ==> stored[key] in rows && rows[stored[key]].idempotencyKey == Some(key)
    ensures |classified| == |q.inputs| == results.Length && AllClassified(q, stored, valid, classified)
    ensures forall i :: i in items <==>
              0 <= i < |q.inputs| && classified[i].status == Accepted && q.inputs[i].scheduledAt == None
    ensures forall k :: 0 <= k < |items| ==> items[k] < |q.inputs|
    ensures forall k, l :: 0 <= k < l < |items| ==> items[k] < items[l]
    ensures var ds := AcceptedDrafts(q, stored, valid, |q.inputs|);
            && d.log[insertedAt] == InsertDrafts(task, ds, if ds == [] then Done else w.insertIo)
            && (ok <==> (ds == [] || w.insertIo == Done) && S.Insertable(RowsAt(d, insertedAt), ds))
    ensures |sent| == if !ok then 0 else if w.broken < |items| then w.broken else |items|
    ensures forall k, l :: 0 <= k < l < |sent| ==> sent[k] < sent[l]
    ensures forall k :: 0 <= k < |sent| ==>
              && insertedAt < sent[k]
              && PublishesAt(Init(d.maxAttempts, d.staleAfter), d.log, sent[k], task,
                             Message(q.inputs[items[k]].channel, q.ids[items[k]]), w.receipts(k))
    ensures OwnSteps(d.log, TaskSelf(task)) == OwnSteps(old(d.log), TaskSelf(task)) + [d.log[insertedAt]]
              + if !ok then [] else
                  Publishes(task, w.receipts, |sent|)
                  + [if w.markIo == NotRun && exists k :: 0 <= k < |sent| && w.receipts(k) == Confirmed
                     then DropTask(task) else MarkQueued(task, w.dbNow)]
    ensures forall i :: 0 <= i < |q.inputs| ==>
              && results[i].index == classified[i].index && results[i].status == classified[i].status
              && results[i].existingId == classified[i].existingId
              && (i !in items ==> results[i].notification == classified[i].notification)
    ensures forall k :: 0 <= k < |items| ==>
              var c := classified[items[k]].notification;
              && c.Some?
              && results[items[k]].notification == Some(c.value.(notification := c.value.notification.(status :=
                     if k < |sent| && w.receipts(k) == Confirmed && w.markIo == Done then Queued else Pending)))
  {
    var toInsert, existing;
    results, toInsert, existing, lookedUpAt, rows := LookUpAndClassify(d, task, q, valid);
    stored, classified := existing, results[..];
    ghost var log := d.log;
    ok, items, sent, insertedAt := CreateClassified(d, task, q, existing, valid, results, toInsert, w);
    SamePrefix(log, d.log, lookedUpAt);
  }
}
