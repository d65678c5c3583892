/** The scheduler's three sweeps, statement by statement, with any other components acting in
    between. Each sweep publishes every row it took, once and in order, and nothing else.
 */
module Scheduler {
  import opened Domain
  import S = Statements
  import opened Protocol
  import opened Deployment

  // The publishes of a sweep that took n rows, with the receipt of each.
  function Publishes(task: nat, receipts: nat -> Receipt, n: nat): seq<Action> {
    if n == 0 then [] else Publishes(task, receipts, n - 1) + [Publish(task, receipts(n - 1))]
  }

  lemma OneMorePublish(before: seq<Action>, task: nat, receipts: nat -> Receipt, i: nat)
    ensures before + Publishes(task, receipts, i) + [Publish(task, receipts(i))]
              == before + Publishes(task, receipts, i + 1)
  {
  }

  function Confirms(receipts: nat -> Receipt, n: nat): nat {
    if n == 0 then 0 else Confirms(receipts, n - 1) + (if receipts(n - 1).Confirmed? then 1 else 0)
  }

  lemma OneMoreConfirm(receipts: nat -> Receipt, i: nat)
    ensures Confirms(receipts, i + 1) == Confirms(receipts, i) + if receipts(i).Confirmed? then 1 else 0
  {
  }

  lemma {:induction false} PublishesAre(task: nat, receipts: nat -> Receipt, n: nat)
    ensures |Publishes(task, receipts, n)| == n
    ensures forall i :: 0 <= i < n ==> Publishes(task, receipts, n)[i] == Publish(task, receipts(i))
  {
    if n > 0 { PublishesAre(task, receipts, n - 1); }
  }

  // The count is that of the confirmed receipts.
  lemma {:induction false} ConfirmsAre(receipts: nat -> Receipt, n: nat)
    ensures Confirms(receipts, n) == |set i | 0 <= i < n && receipts(i) == Confirmed|
  {
    var confirmed := set i | 0 <= i < n && receipts(i) == Confirmed;
    if n == 0 {
      assert confirmed == {};
    } else {
      ConfirmsAre(receipts, n - 1);
      var earlier := set i | 0 <= i < n - 1 && receipts(i) == Confirmed;
      if receipts(n - 1) == Confirmed {
        assert confirmed == earlier + {n - 1};
      } else {
        assert confirmed == earlier;
      }
    }
  }

  // A task that has still to publish these messages.
  predicate Owes(d: Cluster, task: nat, kind: TaskKind, todo: seq<Message>)
    reads d
  {
    task in d.tasks && d.tasks[task].kind == kind && d.tasks[task].todo == todo
  }

  method PublishNext(d: Cluster, task: nat, ghost kind: TaskKind, ghost todo: seq<Message>, receipt: Receipt)
    returns (ok: bool)
    requires d.Valid() && Owes(d, task, kind, todo) && todo != []
    modifies d, d.publisher
    ensures d.Valid() && d.log == old(d.log) + [Publish(task, receipt)]
    ensures OwnSteps(d.log, TaskSelf(task)) == OwnSteps(old(d.log), TaskSelf(task)) + [Publish(task, receipt)]
    ensures Owes(d, task, kind, todo[1..]) && ok == receipt.Confirmed?
    ensures d.tasks[task].confirmed == old(d.tasks[task].confirmed) + (if ok then [todo[0].id] else [])
    ensures PublishesAt(Init(d.maxAttempts, d.staleAfter), d.log, |old(d.log)|, task, todo[0], receipt)
  {
    var before := d.View();
    PublishesLast(Init(d.maxAttempts, d.staleAfter), d.log, task, todo[0], receipt);
    ok := d.publisher.PublishCreated(d.tasks[task].todo[0], receipt);
    d.Record(before, Publish(task, receipt));
  }

  // One turn of a publishing loop.
  method PublishTurn(d: Cluster, task: nat, ghost kind: TaskKind, ghost todo: seq<Message>, receipt: Receipt)
    returns (ok: bool, ghost at: nat)
    requires d.Valid() && Owes(d, task, kind, todo) && todo != []
    modifies d, d.repo, d.publisher
    ensures |old(d.log)| <= at && PublishesAt(Init(d.maxAttempts, d.staleAfter), d.log, at, task, todo[0], receipt)
    ensures d.Valid() && old(d.log) <= d.log && Owes(d, task, kind, todo[1..]) && ok == receipt.Confirmed?
    ensures d.tasks[task].confirmed == old(d.tasks[task].confirmed) + (if ok then [todo[0].id] else [])
    ensures OwnSteps(d.log, TaskSelf(task)) == OwnSteps(old(d.log), TaskSelf(task)) + [Publish(task, receipt)]
  {
    d.Others(TaskSelf(task));
    at := |d.log|;
    ok := PublishNext(d, task, kind, todo, receipt);
  }

  method PublishRow(d: Cluster, task: nat, ghost kind: TaskKind, ghost claimed: seq<Message>, i: nat, receipt: Receipt)
    returns (ok: bool, ghost at: nat)
    requires i < |claimed| && d.Valid() && Owes(d, task, kind, claimed[i..])
    modifies d, d.repo, d.publisher
    ensures d.Valid() && old(d.log) <= d.log && Owes(d, task, kind, claimed[i + 1..]) && ok == receipt.Confirmed?
    ensures OwnSteps(d.log, TaskSelf(task)) == OwnSteps(old(d.log), TaskSelf(task)) + [Publish(task, receipt)]
    ensures |old(d.log)| <= at && PublishesAt(Init(d.maxAttempts, d.staleAfter), d.log, at, task, claimed[i], receipt)
  {
    ok, at := PublishTurn(d, task, kind, claimed[i..], receipt);
    assert claimed[i..][1..] == claimed[i + 1..];
  }

  method Finish(d: Cluster, task: nat)
    requires d.Valid()
    modifies d
    ensures d.Valid() && d.log == old(d.log) + [DropTask(task)] && task !in d.tasks
    ensures OwnSteps(d.log, TaskSelf(task)) == OwnSteps(old(d.log), TaskSelf(task)) + [DropTask(task)]
  {
    d.Record(d.View(), DropTask(task));
  }

  // What the loop below has done for the first i rows.
  ghost predicate SoFar(s0: State, log: seq<Action>, before: seq<Action>, task: nat, claimed: seq<Message>,
        receipts: nat -> Receipt, i: nat, published: nat, sent: seq<nat>)
  {
    && OwnSteps(log, TaskSelf(task)) == before + Publishes(task, receipts, i)
    && published == Confirms(receipts, i)
    && |sent| == i && Published(s0, log, sent, task, claimed, receipts)
  }

  lemma OneMoreRow(s0: State, log: seq<Action>, more: seq<Action>, before: seq<Action>, task: nat,
        claimed: seq<Message>, receipts: nat -> Receipt, i: nat, published: nat, sent: seq<nat>, at: nat)
    requires i < |claimed| && log <= more && |log| <= at
    requires SoFar(s0, log, before, task, claimed, receipts, i, published, sent)
    requires OwnSteps(more, TaskSelf(task)) == OwnSteps(log, TaskSelf(task)) + [Publish(task, receipts(i))]
    requires PublishesAt(s0, more, at, task, claimed[i], receipts(i))
    ensures SoFar(s0, more, before, task, claimed, receipts, i + 1,
                  published + if receipts(i).Confirmed? then 1 else 0, sent + [at])
  {
    OneMorePublished(s0, log, more, sent, at, task, claimed, receipts);
    OneMorePublish(before, task, receipts, i);
    OneMoreConfirm(receipts, i);
  }

  // The loop shared by the due and recovery sweeps: one publish per row, failures skipped.
  method PublishAll(d: Cluster, task: nat, ghost kind: TaskKind, claimed: seq<Message>, receipts: nat -> Receipt)
    returns (published: nat, ghost sent: seq<nat>)
    requires d.Valid() && Owes(d, task, kind, claimed)
    modifies d, d.repo, d.publisher
    ensures d.Valid() && old(d.log) <= d.log && Owes(d, task, kind, [])
    ensures OwnSteps(d.log, TaskSelf(task))
              == OwnSteps(old(d.log), TaskSelf(task)) + Publishes(task, receipts, |claimed|)
    ensures published == Confirms(receipts, |claimed|)
    ensures |sent| == |claimed| && Published(Init(d.maxAttempts, d.staleAfter), d.log, sent, task, claimed, receipts)
  {
    ghost var before := OwnSteps(d.log, TaskSelf(task));
    published, sent := 0, [];
    var i := 0;
    while i < |claimed|
      invariant 0 <= i <= |claimed|
      invariant d.Valid() && old(d.log) <= d.log && Owes(d, task, kind, claimed[i..])
      invariant SoFar(Init(d.maxAttempts, d.staleAfter), d.log, before, task, claimed, receipts, i, published, sent)
    {
      ghost var log, at := d.log, 0;
      var ok;
      ok, at := PublishRow(d, task, kind, claimed, i, receipts(i));
      OneMoreRow(Init(d.maxAttempts, d.staleAfter), log, d.log, before, task, claimed, receipts, i, published, sent,
                 at);
      if ok { published := published + 1; }
      sent := sent + [at];
      i := i + 1;
    }
    assert claimed[i..] == [];
  }

  // Each row that a sweep took was published at one of these steps, in order, as a message for its
  // channel.
  lemma SentAre(s0: State, log: seq<Action>, more: seq<Action>, rows: S.Rows, task: nat, messages: seq<Message>,
        ids: seq<Id>, receipts: nat -> Receipt, sent: seq<nat>)
    requires Published(s0, log, sent, task, messages, receipts) && log <= more
    requires |messages| == |ids| && forall id :: id in ids ==> id in rows
    requires forall i :: 0 <= i < |ids| ==> messages[i] == Message(rows[ids[i]].channel, ids[i])
    ensures |sent| <= |ids| && forall i, j :: 0 <= i < j < |sent| ==> sent[i] < sent[j]
    ensures forall i :: 0 <= i < |sent| ==>
              && ids[i] in rows
              && PublishesAt(s0, more, sent[i], task, Message(rows[ids[i]].channel, ids[i]), receipts(i))
  {
    StillPublished(s0, log, more, sent, task, messages, receipts);
  }

  method ClaimDue(d: Cluster, task: nat, now: Time, io: Io) returns (claimed: seq<Message>, ghost ids: seq<Id>)
    requires d.Valid() && task !in d.tasks
    modifies d, d.repo
    ensures d.Valid() && d.log == old(d.log) + [SweepDue(task, ids, now)] && Owes(d, task, DueSwept, claimed)
    ensures OwnSteps(d.log, TaskSelf(task)) == OwnSteps(old(d.log), TaskSelf(task)) + [SweepDue(task, ids, now)]
    ensures S.DueSweep(old(d.repo.rows), ids, now, d.staleAfter)
    ensures |claimed| == |ids|
    ensures forall i :: 0 <= i < |ids| ==> claimed[i] == Message(old(d.repo.rows)[ids[i]].channel, ids[i])
  {
    var before := d.View();
    var found := d.repo.ClaimDueForQueue(now, d.staleAfter, io);
    d.Record(before, SweepDue(task, found, now));
    ids := found;
    claimed := MessagesFor(before.rows, found);
  }

  /** Scheduled rows that are due, and pending rows whose publish was lost, are moved to queued
      and each is published once. */
  method QueueDue(d: Cluster, task: nat, now: Time, io: Io, receipts: nat -> Receipt)
    returns (published: nat, ghost ids: seq<Id>, ghost at: nat, ghost sent: seq<nat>, ghost rows: S.Rows)
    requires d.Valid() && task !in d.tasks
    modifies d, d.repo, d.publisher
    ensures d.Valid() && old(d.log) <= d.log && task !in d.tasks
    ensures OwnSteps(d.log, TaskSelf(task))
              == OwnSteps(old(d.log), TaskSelf(task)) + [SweepDue(task, ids, now)]
                 + (if io.Done? then Publishes(task, receipts, |ids|) else []) + [DropTask(task)]
    ensures published == if io.Done? then |set i | 0 <= i < |ids| && receipts(i) == Confirmed| else 0
    ensures |sent| == if io.Done? then |ids| else 0
    ensures |old(d.log)| <= at < |d.log| && d.log[at] == SweepDue(task, ids, now) && rows == RowsAt(d, at)
    ensures |ids| <= 100 && S.Distinct(ids) && forall id :: id in ids ==>
              && id in rows
              && var n := rows[id];
                 || (n.status == Scheduled && n.scheduledAt.Some? && n.scheduledAt.value <= now)
                 || (n.status == Pending && now - n.createdAt > d.staleAfter)
    ensures forall i, j :: 0 <= i < j < |sent| ==> sent[i] < sent[j]
    ensures forall i :: 0 <= i < |sent| ==>
              && ids[i] in rows
              && PublishesAt(Init(d.maxAttempts, d.staleAfter), d.log, sent[i], task,
                             Message(rows[ids[i]].channel, ids[i]), receipts(i))
  {
    d.Others(TaskSelf(task));
    var claimed;
    at := |d.log|;
    ghost var before := d.log;
    rows := d.repo.rows;
    claimed, ids := ClaimDue(d, task, now, io);
    ghost var log := d.log;
    assert log[..at] == before;
    if !io.Done? {
      Finish(d, task);
      SamePrefix(log, d.log, at);
      return 0, ids, at, [], rows;
    }
    published, sent := PublishAll(d, task, DueSwept, claimed, receipts);
    ConfirmsAre(receipts, |ids|);
    ghost var sofar := d.log;
    Finish(d, task);
    SamePrefix(log, d.log, at);
    SentAre(Init(d.maxAttempts, d.staleAfter), sofar, d.log, rows, task, claimed, ids, receipts, sent);
  }

  method Recover(d: Cluster, task: nat, now: Time, io: Io) returns (recovered: seq<Message>, ghost ids: seq<Id>)
    requires d.Valid() && task !in d.tasks
    modifies d, d.repo
    ensures d.Valid() && d.log == old(d.log) + [SweepProcessing(task, ids, now)] && Owes(d, task, Recovered, recovered)
    ensures OwnSteps(d.log, TaskSelf(task)) == OwnSteps(old(d.log), TaskSelf(task)) + [SweepProcessing(task, ids, now)]
    ensures S.ProcessingSweep(old(d.repo.rows), ids, now, d.staleAfter)
    ensures |recovered| == |ids|
    ensures forall i :: 0 <= i < |ids| ==> recovered[i] == Message(old(d.repo.rows)[ids[i]].channel, ids[i])
  {
    var before := d.View();
    var found := d.repo.RecoverStaleProcessing(now, d.staleAfter, io);
    d.Record(before, SweepProcessing(task, found, now));
    ids := found;
    recovered := MessagesFor(before.rows, found);
  }

  // After whatever the others did before it: the statement, on the table of step at.
  method RecoverNow(d: Cluster, task: nat, now: Time, io: Io)
    returns (recovered: seq<Message>, ghost ids: seq<Id>, ghost at: nat)
    requires d.Valid() && task !in d.tasks
    modifies d, d.repo, d.publisher
    ensures d.Valid() && old(d.log) <= d.log && Owes(d, task, Recovered, recovered) && |recovered| == |ids|
    ensures |old(d.log)| <= at == |d.log| - 1 && d.log[at] == SweepProcessing(task, ids, now)
              && S.ProcessingSweep(RowsAt(d, at), ids, now, d.staleAfter)
    ensures forall i :: 0 <= i < |ids| ==> recovered[i] == Message(RowsAt(d, at)[ids[i]].channel, ids[i])
    ensures OwnSteps(d.log, TaskSelf(task)) == OwnSteps(old(d.log), TaskSelf(task)) + [SweepProcessing(task, ids, now)]
  {
    d.Others(TaskSelf(task));
    at := |d.log|;
    ghost var before := d.log;
    recovered, ids := Recover(d, task, now, io);
    assert d.log[..at] == before;
  }

  /** Rows stranded in processing go back to retrying, and each is republished once. */
  method RecoverStaleProcessing(d: Cluster, task: nat, now: Time, io: Io, receipts: nat -> Receipt)
    returns (ghost ids: seq<Id>, ghost at: nat, ghost sent: seq<nat>, ghost rows: S.Rows)
    requires d.Valid() && task !in d.tasks
    modifies d, d.repo, d.publisher
    ensures d.Valid() && old(d.log) <= d.log && task !in d.tasks
    ensures OwnSteps(d.log, TaskSelf(task))
              == OwnSteps(old(d.log), TaskSelf(task)) + [SweepProcessing(task, ids, now)]
                 + (if io.Done? then Publishes(task, receipts, |ids|) else []) + [DropTask(task)]
    ensures |sent| == if io.Done? then |ids| else 0
    ensures |old(d.log)| <= at < |d.log| && d.log[at] == SweepProcessing(task, ids, now) && rows == RowsAt(d, at)
    ensures |ids| <= 100 && S.Distinct(ids) && forall id :: id in ids ==>
              && id in rows
              && var n := rows[id];
                 n.status == Processing && now - n.updatedAt > d.staleAfter
    ensures forall i, j :: 0 <= i < j < |sent| ==> sent[i] < sent[j]
    ensures forall i :: 0 <= i < |sent| ==>
              && ids[i] in rows
              && PublishesAt(Init(d.maxAttempts, d.staleAfter), d.log, sent[i], task,
                             Message(rows[ids[i]].channel, ids[i]), receipts(i))
  {
    var recovered;
    recovered, ids, at := RecoverNow(d, task, now, io);
    ghost var log := d.log;
    sent, rows := [], RowsAt(d, at);
    if io.Done? {
      var published;
      published, sent := PublishAll(d, task, Recovered, recovered, receipts);
    }
    ghost var sofar := d.log;
    Finish(d, task);
    SamePrefix(log, d.log, at);
    SentAre(Init(d.maxAttempts, d.staleAfter), sofar, d.log, rows, task, recovered, ids, receipts, sent);
  }

  // Queued rows, long untouched, those untouched for longest first.
  ghost predicate LongestUntouched(rows: S.Rows, ids: seq<Id>, now: Time, staleAfter: Time) {
    && |ids| <= 100 && S.Distinct(ids)
    && (forall id :: id in ids ==> id in rows && rows[id].status == Queued && now - rows[id].updatedAt > staleAfter)
    && (forall i, j :: 0 <= i < j < |ids| ==> rows[ids[i]].updatedAt <= rows[ids[j]].updatedAt)
    && (forall id :: id in rows && rows[id].status == Queued && now - rows[id].updatedAt > staleAfter && id !in ids ==>
          |ids| == 100 && forall i :: 0 <= i < 100 ==> rows[ids[i]].updatedAt <= rows[id].updatedAt)
  }

  // After whatever the others did before it: the query, answered on the table of step at.
  method ListStaleNow(d: Cluster, task: nat, now: Time, io: Io)
    returns (r: Option<seq<Message>>, ghost ids: seq<Id>, ghost at: nat, ghost rows: S.Rows)
    requires d.Valid() && task !in d.tasks
    modifies d, d.repo, d.publisher
    ensures d.Valid() && old(d.log) <= d.log && (r.Some? <==> io.Done?)
    ensures r.None? ==> task !in d.tasks && OwnSteps(d.log, TaskSelf(task)) == OwnSteps(old(d.log), TaskSelf(task))
    ensures r.Some? ==>
              && |old(d.log)| <= at == |d.log| - 1 && d.log[at] == SweepStale(task, ids, now)
              && rows == RowsAt(d, at) && LongestUntouched(rows, ids, now, d.staleAfter)
              && Owes(d, task, StaleSwept, r.value)
              && OwnSteps(d.log, TaskSelf(task))
                   == OwnSteps(old(d.log), TaskSelf(task)) + [SweepStale(task, ids, now)]
              && |r.value| == |ids|
              && (forall i :: 0 <= i < |ids| ==> r.value[i] == Message(rows[ids[i]].channel, ids[i]))
  {
    d.Others(TaskSelf(task));
    at := |d.log|;
    ghost var before := d.log;
    rows := d.repo.rows;
    r, ids := ListStale(d, task, now, io);
    assert r.Some? ==> d.log[..at] == before;
  }

  method ListStale(d: Cluster, task: nat, now: Time, io: Io) returns (r: Option<seq<Message>>, ghost ids: seq<Id>)
    requires d.Valid() && task !in d.tasks
    modifies d
    ensures d.Valid() && (r.Some? <==> io.Done?)
    ensures r.None? ==> d.log == old(d.log) && task !in d.tasks
    ensures r.Some? ==>
              && d.log == old(d.log) + [SweepStale(task, ids, now)] && Owes(d, task, StaleSwept, r.value)
              && OwnSteps(d.log, TaskSelf(task))
                   == OwnSteps(old(d.log), TaskSelf(task)) + [SweepStale(task, ids, now)]
              && LongestUntouched(old(d.repo.rows), ids, now, d.staleAfter) && |r.value| == |ids|
              && (forall i :: 0 <= i < |ids| ==> r.value[i] == Message(old(d.repo.rows)[ids[i]].channel, ids[i]))
  {
    var before := d.View();
    var found := d.repo.ListStaleQueued(now, d.staleAfter, io);
    if found.Err? { return None, []; }
    d.Record(before, SweepStale(task, found.value, now));
    return Some(MessagesFor(before.rows, found.value)), found.value;
  }

  // The steps of republishing the first n rows: each is published, and touched if the broker
  // confirmed and the statement ran.
  function Republishes(task: nat, ids: seq<Id>, now: Time, receipts: nat -> Receipt, touches: nat -> Io,
        n: nat): seq<Action>
    requires n <= |ids|
  {
    if n == 0 then []
    else
      Republishes(task, ids, now, receipts, touches, n - 1)
      + [Publish(task, receipts(n - 1))]
      + (if receipts(n - 1) == Confirmed && touches(n - 1) != NotRun then [Touch(task, ids[n - 1], now)] else [])
  }

  lemma OneMoreRepublish(before: seq<Action>, task: nat, ids: seq<Id>, now: Time, receipts: nat -> Receipt,
        touches: nat -> Io, i: nat)
    requires i < |ids|
    ensures Republishes(task, ids, now, receipts, touches, 0) == []
    ensures before + Republishes(task, ids, now, receipts, touches, i) + [Publish(task, receipts(i))]
              + (if receipts(i) == Confirmed && touches(i) != NotRun then [Touch(task, ids[i], now)] else [])
              == before + Republishes(task, ids, now, receipts, touches, i + 1)
  {
  }

  method TouchRow(d: Cluster, task: nat, id: Id, now: Time, io: Io)
    requires d.Valid()
    modifies d, d.repo
    ensures d.Valid() && d.tasks == old(d.tasks)
    ensures d.repo.rows == if io != NotRun && id in old(d.repo.rows) && old(d.repo.rows)[id].status == Queued
                           then old(d.repo.rows)[id := old(d.repo.rows)[id].(updatedAt := now)] else old(d.repo.rows)
    ensures var steps := if io.NotRun? then [] else [Touch(task, id, now)];
            d.log == old(d.log) + steps
                && OwnSteps(d.log, TaskSelf(task)) == OwnSteps(old(d.log), TaskSelf(task)) + steps
  {
    var before := d.View();
    d.repo.TouchQueued(id, now, io);
    if !io.NotRun? { d.Record(before, Touch(task, id, now)); }
  }

  /** A republished row is touched once the broker has confirmed, and not otherwise. */
  method RepublishTurn(d: Cluster, task: nat, todo: seq<Message>, now: Time, receipt: Receipt, touch: Io)
    returns (ghost at: nat)
    requires d.Valid() && Owes(d, task, StaleSwept, todo) && todo != []
    modifies d, d.repo, d.publisher
    ensures d.Valid() && old(d.log) <= d.log && Owes(d, task, StaleSwept, todo[1..])
    ensures OwnSteps(d.log, TaskSelf(task)) == OwnSteps(old(d.log), TaskSelf(task)) + [Publish(task, receipt)]
              + (if receipt == Confirmed && touch != NotRun then [Touch(task, todo[0].id, now)] else [])
    ensures |old(d.log)| <= at && PublishesAt(Init(d.maxAttempts, d.staleAfter), d.log, at, task, todo[0], receipt)
  {
    var ok;
    ok, at := PublishTurn(d, task, StaleSwept, todo, receipt);
    ghost var log := d.log;
    if ok {
      d.Others(TaskSelf(task));
      TouchRow(d, task, todo[0].id, now, touch);
    }
    StillPublishes(Init(d.maxAttempts, d.staleAfter), log, d.log, at, task, todo[0], receipt);
  }

  method RepublishRow(d: Cluster, task: nat, stale: seq<Message>, i: nat, ghost id: Id, now: Time, receipt: Receipt,
        touch: Io)
    returns (ghost at: nat)
    requires i < |stale| && stale[i].id == id && d.Valid() && Owes(d, task, StaleSwept, stale[i..])
    modifies d, d.repo, d.publisher
    ensures d.Valid() && old(d.log) <= d.log && Owes(d, task, StaleSwept, stale[i + 1..])
    ensures OwnSteps(d.log, TaskSelf(task)) == OwnSteps(old(d.log), TaskSelf(task)) + [Publish(task, receipt)]
              + (if receipt == Confirmed && touch != NotRun then [Touch(task, id, now)] else [])
    ensures |old(d.log)| <= at && PublishesAt(Init(d.maxAttempts, d.staleAfter), d.log, at, task, stale[i], receipt)
  {
    at := RepublishTurn(d, task, stale[i..], now, receipt, touch);
    assert stale[i..][1..] == stale[i + 1..];
  }

  method RepublishAll(d: Cluster, task: nat, stale: seq<Message>, ghost ids: seq<Id>, now: Time,
        receipts: nat -> Receipt, touches: nat -> Io)
    returns (ghost sent: seq<nat>)
    requires d.Valid() && Owes(d, task, StaleSwept, stale)
    requires |stale| == |ids| && forall i :: 0 <= i < |ids| ==> stale[i].id == ids[i]
    modifies d, d.repo, d.publisher
    ensures d.Valid() && old(d.log) <= d.log && Owes(d, task, StaleSwept, [])
    ensures OwnSteps(d.log, TaskSelf(task))
              == OwnSteps(old(d.log), TaskSelf(task)) + Republishes(task, ids, now, receipts, touches, |ids|)
    ensures |sent| == |stale| && Published(Init(d.maxAttempts, d.staleAfter), d.log, sent, task, stale, receipts)
  {
    sent := [];
    ghost var before := OwnSteps(d.log, TaskSelf(task));
    var i := 0;
    while i < |stale|
      invariant 0 <= i <= |stale|
      invariant d.Valid() && old(d.log) <= d.log && Owes(d, task, StaleSwept, stale[i..])
      invariant OwnSteps(d.log, TaskSelf(task)) == before + Republishes(task, ids, now, receipts, touches, i)
      invariant |sent| == i && Published(Init(d.maxAttempts, d.staleAfter), d.log, sent, task, stale, receipts)
    {
      ghost var log := d.log;
      ghost var at := RepublishRow(d, task, stale, i, ids[i], now, receipts(i), touches(i));
      OneMorePublished(Init(d.maxAttempts, d.staleAfter), log, d.log, sent, at, task, stale, receipts);
      sent := sent + [at];
      OneMoreRepublish(before, task, ids, now, receipts, touches, i);
      i := i + 1;
    }
    assert stale[i..] == [];
  }

  method RepublishListed(d: Cluster, task: nat, stale: seq<Message>, ghost ids: seq<Id>, now: Time,
        receipts: nat -> Receipt, touches: nat -> Io)
    returns (ghost sent: seq<nat>)
    requires d.Valid() && Owes(d, task, StaleSwept, stale)
    requires |stale| == |ids| && forall i :: 0 <= i < |ids| ==> stale[i].id == ids[i]
    modifies d, d.repo, d.publisher
    ensures d.Valid() && old(d.log) <= d.log && task !in d.tasks
    ensures OwnSteps(d.log, TaskSelf(task))
              == OwnSteps(old(d.log), TaskSelf(task)) + Republishes(task, ids, now, receipts, touches, |ids|)
                 + [DropTask(task)]
    ensures |sent| == |stale| && Published(Init(d.maxAttempts, d.staleAfter), d.log, sent, task, stale, receipts)
  {
    sent := RepublishAll(d, task, stale, ids, now, receipts, touches);
    ghost var log := d.log;
    Finish(d, task);
    StillPublished(Init(d.maxAttempts, d.staleAfter), log, d.log, sent, task, stale, receipts);
  }

  lemma WholeSweep(before: seq<Action>, task: nat, ids: seq<Id>, now: Time, receipts: nat -> Receipt,
        touches: nat -> Io)
    ensures before + [SweepStale(task, ids, now)] + Republishes(task, ids, now, receipts, touches, |ids|)
              + [DropTask(task)]
              == before + ([SweepStale(task, ids, now)] + Republishes(task, ids, now, receipts, touches, |ids|)
                           + [DropTask(task)])
  {
  }

  /** The queued rows untouched for longest are republished once each, oldest first, and touched
      exactly when the broker confirmed; the rows themselves stay queued. */
  method RepublishStale(d: Cluster, task: nat, now: Time, io: Io, receipts: nat -> Receipt, touches: nat -> Io)
    returns (ghost ids: seq<Id>, ghost at: nat, ghost sent: seq<nat>, ghost rows: S.Rows)
    requires d.Valid() && task !in d.tasks
    modifies d, d.repo, d.publisher
    ensures d.Valid() && old(d.log) <= d.log && task !in d.tasks
    ensures |sent| == (if io.Done? then |ids| else 0)
    ensures OwnSteps(d.log, TaskSelf(task))
              == OwnSteps(old(d.log), TaskSelf(task))
                 + if !io.Done? then [] else
                     [SweepStale(task, ids, now)] + Republishes(task, ids, now, receipts, touches, |ids|)
                     + [DropTask(task)]
    ensures io.Done? ==>
              && |old(d.log)| <= at < |d.log| && d.log[at] == SweepStale(task, ids, now) && rows == RowsAt(d, at)
              && |ids| <= 100 && S.Distinct(ids)
              && (forall id :: id in ids ==>
                    && id in rows
                    && var n := rows[id];
                       n.status == Queued && now - n.updatedAt > d.staleAfter)
              && (forall i, j :: 0 <= i < j < |ids| ==> rows[ids[i]].updatedAt <= rows[ids[j]].updatedAt)
              && (forall id :: id in rows && rows[id].status == Queued && now - rows[id].updatedAt > d.staleAfter
                               && id !in ids ==>
                    |ids| == 100 && forall i :: 0 <= i < 100 ==> rows[ids[i]].updatedAt <= rows[id].updatedAt)
    ensures forall i, j :: 0 <= i < j < |sent| ==> sent[i] < sent[j]
    ensures forall i :: 0 <= i < |sent| ==>
              && ids[i] in rows
              && PublishesAt(Init(d.maxAttempts, d.staleAfter), d.log, sent[i], task,
                             Message(rows[ids[i]].channel, ids[i]), receipts(i))
  {
    var stale;
    stale, ids, at, rows := ListStaleNow(d, task, now, io);
    sent := [];
    if stale.None? { return; }
    ghost var log := d.log;
    sent := RepublishListed(d, task, stale.value, ids, now, receipts, touches);
    WholeSweep(old(OwnSteps(d.log, TaskSelf(task))), task, ids, now, receipts, touches);
    SamePrefix(log, d.log, at);
    SentAre(Init(d.maxAttempts, d.staleAfter), d.log, d.log, rows, task, stale.value, ids, receipts, sent);
  }
}
