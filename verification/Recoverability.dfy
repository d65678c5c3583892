/** Which open notifications can still be delivered. A row is stranded when it reads retrying
    and nothing in the deployment can ever produce a message for it again; every other open
    row of every reachable state has a continuation that delivers it.
 */
module Recoverability {
  import opened Domain
  import opened Statements
  import opened Protocol
  import opened Structure
  import opened Ledger
  import opened Invariant
  import opened Lifecycle
  import opened NoLostWork
  import opened Sweeps
  import opened Clock

  // A handler from which the queue, a tier or the row itself can still get a message.
  predicate CanRevive(h: Handler, id: Id) {
    h.message.id == id && (h.attached || h.pc.Fetched? || h.pc.RetryMarked?)
  }

  ghost predicate Stranded(s: State, id: Id) {
    && id in s.rows && s.rows[id].status == Retrying
    && (forall m :: m in s.broker.work ==> m.id != id)
    && (forall p :: p in s.broker.tiers ==> p.message.id != id)
    && (forall tag :: tag in s.handlers ==> !CanRevive(s.handlers[tag], id))
    && (forall task :: task in s.tasks ==> !Names(s.tasks[task].todo, id))
  }

  // ---- a stranded row stays stranded -------------------------------------------------------

  lemma StrandedRowHeld(s: State, a: Action, id: Id)
    requires Stranded(s, id) && !TableAction(a)
    ensures id in Next(s, a).rows && Next(s, a).rows[id] == s.rows[id]
  {
    if !WorkerAction(a) { OnlyTheseWrite(s, a); }
  }

  lemma StrandedRowStays(s: State, a: Action, id: Id)
    requires Stranded(s, id)
    ensures id in Next(s, a).rows && Next(s, a).rows[id] == s.rows[id]
  {
    GuardsAreLegal(s.rows[id].status);
    if !TableAction(a) {
      StrandedRowHeld(s, a, id);
    } else if a.InsertDrafts? && Insertable(s.rows, a.drafts) {
      DraftRowsAt(a.drafts);
    }
  }

  lemma StrandedReturns(s: State, a: Action, id: Id)
    requires Stranded(s, id) && BrokerAction(a)
    ensures forall m :: m in Next(s, a).broker.work ==> m.id != id
  {
    if !a.Fetch? && !a.Expire? && a.tag in s.handlers { assert !CanRevive(s.handlers[a.tag], id); }
  }

  lemma StrandedWorkStays(s: State, a: Action, id: Id)
    requires Stranded(s, id)
    ensures forall m :: m in Next(s, a).broker.work ==> m.id != id
  {
    if BrokerAction(a) {
      StrandedReturns(s, a, id);
    } else if !a.Publish? {
      OnlyTheseEnqueue(s, a);
    } else if a.task in s.tasks && s.tasks[a.task].todo != [] {
      assert !Names(s.tasks[a.task].todo, id);
      assert s.tasks[a.task].todo[0].id != id;
    }
  }

  lemma StrandedTiersStay(s: State, a: Action, id: Id)
    requires Stranded(s, id)
    ensures forall p :: p in Next(s, a).broker.tiers ==> p.message.id != id
  {
    if a.PublishRetry? && a.tag in s.handlers { assert !CanRevive(s.handlers[a.tag], id); }
  }

  lemma StrandedWorkerStays(s: State, a: Action, id: Id)
    requires Stranded(s, id) && WorkerAction(a) && a.tag in s.handlers && a.tag in Next(s, a).handlers
    ensures !CanRevive(Next(s, a).handlers[a.tag], id)
  {
    assert !CanRevive(s.handlers[a.tag], id);
  }

  lemma StrandedHandlersStay(s: State, a: Action, id: Id, tag: nat)
    requires Stranded(s, id) && tag in Next(s, a).handlers
    ensures !CanRevive(Next(s, a).handlers[tag], id)
  {
    if WorkerAction(a) && a.tag == tag {
      StrandedWorkerStays(s, a, id);
    } else if tag in s.handlers {
      assert !CanRevive(s.handlers[tag], id);
      UntouchedHandler(s, a, tag);
    } else {
      FetchedHandler(s, a, tag);
    }
  }

  lemma StrandedTasksStay(s: State, a: Action, id: Id, task: nat)
    requires Stranded(s, id) && task in Next(s, a).tasks
    ensures !Names(Next(s, a).tasks[task].todo, id)
  {
    if task in s.tasks {
      TodosOnlyShrink(s, a, task);
      NamesShrink(s.tasks[task].todo, id);
    } else {
      NewTodos(s, a, task, id);
    }
  }

  /** Stranded is for ever: in no continuation is the row ever claimed again, or changed. */
  lemma {:induction false} StrandedForever(s: State, run: seq<Action>, id: Id)
    requires Stranded(s, id)
    ensures Stranded(Exec(s, run), id) && Exec(s, run).rows[id] == s.rows[id]
  {
    if run != [] {
      var init, a := run[..|run| - 1], run[|run| - 1];
      StrandedForever(s, init, id);
      var t := Exec(s, init);
      StrandedRowStays(t, a, id);
      StrandedWorkStays(t, a, id);
      StrandedTiersStay(t, a, id);
      forall tag | tag in Next(t, a).handlers { StrandedHandlersStay(t, a, id, tag); }
      forall task | task in Next(t, a).tasks { StrandedTasksStay(t, a, id, task); }
    }
  }

  // ---- every other open row can be delivered --------------------------------------------------

  ghost predicate CanBeSent(s: State, id: Id, since: Time) {
    exists run :: Reaches(s, run, id, since)
  }

  // A sweep finds no row locked.
  predicate Unlocked(s: State, a: Action) {
    match a
    case SweepDue(_, ids, now) =>
      FirstRows(s.rows, DueRows(s.rows, now, s.staleAfter), CreatedAt, CLAIM_BATCH_LIMIT, ids)
    case SweepProcessing(_, ids, now) =>
      FirstRows(s.rows, StaleProcessingRows(s.rows, now, s.staleAfter), UpdatedAt, CLAIM_BATCH_LIMIT, ids)
    case _ => true
  }

  // A continuation in which a Send is made for the notification and the row ends up sent, and
  // in which every sweep takes its rows strictly in order and the clock, which reads `since` at
  // its start, never runs backwards.
  ghost predicate Reaches(s: State, run: seq<Action>, id: Id, since: Time) {
    && id in Exec(s, run).rows && Exec(s, run).rows[id].status == Sent && Times(SendEvent, s, run, id) > 0
    && (forall i :: 0 <= i < |run| ==> Unlocked(Exec(s, run[..i]), run[i]))
    && InTime(since, run)
  }

  lemma UnlockedFromHere(s: State, a: Action, run: seq<Action>, i: nat)
    requires Unlocked(s, a) && i <= |run|
    requires i > 0 ==> Unlocked(Exec(Next(s, a), run[..i - 1]), run[i - 1])
    ensures Unlocked(Exec(s, ([a] + run)[..i]), ([a] + run)[i])
  {
    if i == 0 {
      assert ([a] + run)[..i] == [];
    } else {
      assert ([a] + run)[..i] == [a] + run[..i - 1];
      ExecOne(s, a);
      ExecConcat(s, [a], run[..i - 1]);
    }
  }

  lemma AfterStep(s: State, a: Action, id: Id, since: Time)
    requires Unlocked(s, a) && since <= TimeAfter(since, a) && CanBeSent(Next(s, a), id, TimeAfter(since, a))
    ensures CanBeSent(s, id, since)
  {
    var run :| Reaches(Next(s, a), run, id, TimeAfter(since, a));
    InTimeFrom(since, a, run);
    forall i | 0 <= i < |[a] + run| ensures Unlocked(Exec(s, ([a] + run)[..i]), ([a] + run)[i]) {
      UnlockedFromHere(s, a, run, i);
    }
    ExecOne(s, a);
    ExecConcat(s, [a], run);
    TimesConcat(SendEvent, s, [a], run, id);
    assert Reaches(s, [a] + run, id, since);
  }

  lemma {:induction false} FreshKey<T>(m: map<nat, T>) returns (k: nat)
    ensures k !in m
  {
    k := AboveAll(m.Keys);
  }

  lemma {:induction false} AboveAll(keys: set<nat>) returns (k: nat)
    ensures forall x :: x in keys ==> x < k
    decreases |keys|
  {
    if keys == {} {
      k := 0;
    } else {
      var x :| x in keys;
      var below := AboveAll(keys - {x});
      assert forall y :: y in keys ==> y == x || y in keys - {x};
      k := if below > x then below else x + 1;
    }
  }

  lemma TimesOne(e: Event, s: State, a: Action, id: Id)
    ensures Times(e, s, [a], id) == One(Occurs(e, s, a, id))
  {
    assert [a][..0] == [];
  }

  // A handler whose row is still processing sends it and records the outcome.
  lemma SentFromClaim(s: State, tag: nat, id: Id, since: Time)
    requires WorksOn(s, tag, id) && s.handlers[tag].pc.Claimed? && Held(s.rows, id)
    ensures CanBeSent(s, id, since)
  {
    var send, record := Send(tag, Success), RecordSent(tag, "", since, since, Done);
    ExecOne(s, send);
    ExecOne(Next(s, send), record);
    ExecConcat(s, [send], [record]);
    TimesOne(SendEvent, s, send, id);
    TimesConcat(SendEvent, s, [send], [record], id);
    assert Reaches(s, [send] + [record], id, since);
  }

  ghost predicate Claimable(s: State, id: Id) {
    id in s.rows && s.rows[id].status in {Pending, Queued, Retrying}
  }

  lemma SentFromFetched(s: State, tag: nat, id: Id, since: Time)
    requires WorksOn(s, tag, id) && s.handlers[tag].pc.Fetched? && Claimable(s, id)
    ensures CanBeSent(s, id, since)
  {
    GuardsAreLegal(s.rows[id].status);
    SentFromClaim(Next(s, Claim(tag, since, Done)), tag, id, since);
    AfterStep(s, Claim(tag, since, Done), id, since);
  }

  lemma SentFromQueue(s: State, m: Message, since: Time)
    requires m in s.broker.work && Claimable(s, m.id)
    ensures CanBeSent(s, m.id, since)
  {
    var tag := FreshKey(s.handlers);
    SentFromFetched(Next(s, Fetch(tag, m)), tag, m.id, since);
    AfterStep(s, Fetch(tag, m), m.id, since);
  }

  lemma SentFromTier(s: State, p: Parked, since: Time)
    requires p in s.broker.tiers && Claimable(s, p.message.id)
    ensures CanBeSent(s, p.message.id, since)
  {
    SentFromQueue(Next(s, Expire(p)), p.message, since);
    AfterStep(s, Expire(p), p.message.id, since);
  }

  lemma SentFromHandler(s: State, tag: nat, id: Id, since: Time)
    requires tag in s.handlers && CanRevive(s.handlers[tag], id) && Claimable(s, id)
    ensures CanBeSent(s, id, since)
  {
    var h := s.handlers[tag];
    if h.attached {
      SentFromQueue(Next(s, Crash(tag)), h.message, since);
      AfterStep(s, Crash(tag), id, since);
    } else if h.pc.Fetched? {
      SentFromFetched(s, tag, id, since);
    } else {
      var a := PublishRetry(tag, Confirmed);
      SentFromTier(Next(s, a), Parked(TierForAttempt(h.pc.t.k), Message(h.pc.t.channel, id)), since);
      AfterStep(s, a, id, since);
    }
  }

  lemma {:induction false} SentFromTask(s: State, task: nat, i: nat, id: Id, since: Time)
    requires task in s.tasks && i < |s.tasks[task].todo| && s.tasks[task].todo[i].id == id && Claimable(s, id)
    ensures CanBeSent(s, id, since)
    decreases i
  {
    var a := Publish(task, Confirmed);
    if i == 0 {
      SentFromQueue(Next(s, a), s.tasks[task].todo[0], since);
    } else {
      SentFromTask(Next(s, a), task, i - 1, id, since);
    }
    AfterStep(s, a, id, since);
  }

  // The queued rows that the sweep takes before this one.
  function Before(rows: Rows, id: Id): set<Id>
    requires id in rows
  {
    set x | x in rows && rows[x].status == Queued && rows[x].updatedAt < rows[id].updatedAt
  }

  lemma TouchedGoesLast(rows: Rows, id: Id, first: Id, now: Time)
    requires id in rows && rows[id].status == Queued && rows[id].updatedAt <= now && first in Before(rows, id)
    ensures var rows' := TouchQueued(rows, first, now);
            id in rows' && rows'[id] == rows[id] && Before(rows', id) == Before(rows, id) - {first}
  {
  }

  lemma SweepFrom(s: State, id: Id, first: Id, now: Time, since: Time) returns (s': State, task: nat)
    requires Oldest(s.rows, StaleQueuedRows(s.rows, now, s.staleAfter), UpdatedAt, first) && since <= now
    ensures s'.rows == s.rows && task in s'.tasks && s'.tasks[task].todo != [] && s'.tasks[task].todo[0].id == first
    ensures CanBeSent(s', id, now) ==> CanBeSent(s, id, since)
  {
    task := FreshKey(s.tasks);
    var ids := FirstRowsFrom(s.rows, StaleQueuedRows(s.rows, now, s.staleAfter), UpdatedAt, CLAIM_BATCH_LIMIT, first);
    s' := Next(s, SweepStale(task, ids, now));
    if CanBeSent(s', id, now) { AfterStep(s, SweepStale(task, ids, now), id, since); }
  }

  lemma PublishFirst(s: State, id: Id, task: nat, now: Time) returns (s': State)
    requires task in s.tasks
    ensures s'.rows == s.rows && (CanBeSent(s', id, now) ==> CanBeSent(s, id, now))
  {
    s' := Next(s, Publish(task, Confirmed));
    if CanBeSent(s', id, now) { AfterStep(s, Publish(task, Confirmed), id, now); }
  }

  // A sweep publishes and touches the row untouched for longest, which takes its turn after
  // this one from then on.
  lemma OneGoesFirst(s: State, id: Id, first: Id, now: Time, since: Time) returns (s': State)
    requires id in s.rows && s.rows[id].status == Queued && s.rows[id].updatedAt <= now && since <= now
    requires Oldest(s.rows, StaleQueuedRows(s.rows, now, s.staleAfter), UpdatedAt, first) && first in Before(s.rows, id)
    ensures id in s'.rows && s'.rows[id] == s.rows[id] && Before(s'.rows, id) == Before(s.rows, id) - {first}
    ensures CanBeSent(s', id, now) ==> CanBeSent(s, id, since)
  {
    var s1, task := SweepFrom(s, id, first, now, since);
    var s2 := PublishFirst(s1, id, task, now);
    s' := Next(s2, Touch(task, first, now));
    TouchedGoesLast(s.rows, id, first, now);
    if CanBeSent(s', id, now) { AfterStep(s2, Touch(task, first, now), id, now); }
  }

  // A queued row gets its turn in the sweep, after those untouched for longer.
  lemma {:induction false} SentFromQueued(s: State, id: Id, since: Time)
    requires id in s.rows && s.rows[id].status == Queued
    ensures CanBeSent(s, id, since)
    decreases |Before(s.rows, id)|
  {
    var now := Later(Latest(since, s.rows[id].updatedAt), s.staleAfter);
    var stale := StaleQueuedRows(s.rows, now, s.staleAfter);
    if Before(s.rows, id) == {} {
      var task := FreshKey(s.tasks);
      assert forall x :: x in stale ==> x !in Before(s.rows, id);
      var ids := FirstRowsFrom(s.rows, stale, UpdatedAt, CLAIM_BATCH_LIMIT, id);
      SentFromTask(Next(s, SweepStale(task, ids, now)), task, 0, id, now);
      AfterStep(s, SweepStale(task, ids, now), id, since);
    } else {
      var first := OldestExists(s.rows, stale, UpdatedAt);
      var older :| older in Before(s.rows, id);
      assert older in stale;
      var s' := OneGoesFirst(s, id, first, now, since);
      SentFromQueued(s', id, now);
    }
  }

  lemma TakenIsSent(s: State, a: Action, id: Id, since: Time)
    requires Unlocked(s, a) && (a.SweepDue? || a.SweepProcessing?) && a.task !in s.tasks && id in a.ids
    requires since <= a.now
    ensures CanBeSent(s, id, since)
  {
    var i :| 0 <= i < |a.ids| && a.ids[i] == id;
    SentFromTask(Next(s, a), a.task, i, id, a.now);
    AfterStep(s, a, id, since);
  }

  // A due row is taken by this sweep or, with fewer rows due, by a later one.
  lemma {:induction false} SentFromDue(s: State, id: Id, now: Time, since: Time)
    requires id in DueRows(s.rows, now, s.staleAfter) && since <= now
    ensures CanBeSent(s, id, since)
    decreases |DueRows(s.rows, now, s.staleAfter)|
  {
    var due := DueRows(s.rows, now, s.staleAfter);
    var ids := SomeFirstRows(s.rows, due, CreatedAt, CLAIM_BATCH_LIMIT);
    var task := FreshKey(s.tasks);
    var a := SweepDue(task, ids, now);
    if id in ids {
      TakenIsSent(s, a, id, since);
    } else {
      var due' := DueRows(Next(s, a).rows, now, s.staleAfter);
      assert ids[0] in due && ids[0] !in due' && due' <= due;
      SmallerSet(due', due, ids[0]);
      SentFromDue(Next(s, a), id, now, now);
      AfterStep(s, a, id, since);
    }
  }

  // The same for the recovery sweep.
  lemma {:induction false} SentFromProcessing(s: State, id: Id, now: Time, since: Time)
    requires id in StaleProcessingRows(s.rows, now, s.staleAfter) && since <= now
    ensures CanBeSent(s, id, since)
    decreases |StaleProcessingRows(s.rows, now, s.staleAfter)|
  {
    var stale := StaleProcessingRows(s.rows, now, s.staleAfter);
    var ids := SomeFirstRows(s.rows, stale, UpdatedAt, CLAIM_BATCH_LIMIT);
    var task := FreshKey(s.tasks);
    var a := SweepProcessing(task, ids, now);
    if id in ids {
      TakenIsSent(s, a, id, since);
    } else {
      var stale' := StaleProcessingRows(Next(s, a).rows, now, s.staleAfter);
      assert ids[0] in stale && ids[0] !in stale' && stale' <= stale;
      SmallerSet(stale', stale, ids[0]);
      SentFromProcessing(Next(s, a), id, now, now);
      AfterStep(s, a, id, since);
    }
  }

  lemma SmallerSet(a: set<Id>, b: set<Id>, x: Id)
    requires a <= b && x in b && x !in a
    ensures |a| < |b|
  {
    assert |b - a| == |b| - |a| && x in b - a;
  }

  // Pending and scheduled rows are published, and queued and processing rows republished, by a
  // sweep once enough time passes.
  lemma SentFromSweep(s: State, id: Id, since: Time)
    requires id in s.rows && s.rows[id].status in {Pending, Scheduled, Queued, Processing}
    requires s.rows[id].status == Scheduled ==> s.rows[id].scheduledAt.Some?
    ensures CanBeSent(s, id, since)
  {
    var n := s.rows[id];
    if n.status == Queued {
      SentFromQueued(s, id, since);
    } else if n.status == Processing {
      var now := Later(Latest(since, n.updatedAt), s.staleAfter);
      SentFromProcessing(s, id, now, since);
    } else {
      var due := if n.status == Pending then n.createdAt else n.scheduledAt.value;
      var now := Later(Latest(since, due), s.staleAfter);
      SentFromDue(s, id, now, since);
    }
  }

  lemma SentUnlessStranded(s: State, id: Id, since: Time)
    requires id in s.rows && s.rows[id].status == Retrying && !Stranded(s, id)
    ensures CanBeSent(s, id, since)
  {
    if m :| m in s.broker.work && m.id == id { SentFromQueue(s, m, since); }
    else if p :| p in s.broker.tiers && p.message.id == id { SentFromTier(s, p, since); }
    else if tag :| tag in s.handlers && CanRevive(s.handlers[tag], id) { SentFromHandler(s, tag, id, since); }
    else {
      var task :| task in s.tasks && Names(s.tasks[task].todo, id);
      var i :| 0 <= i < |s.tasks[task].todo| && s.tasks[task].todo[i].id == id;
      SentFromTask(s, task, i, id, since);
    }
  }

  /** The exact dividing line: an open row of a reachable state can still be sent and recorded
      as sent if and only if it is not stranded, whatever time it is and whatever other rows the
      sweeps have to take before it. */
  lemma DeliverableUnlessStranded(maxAttempts: int, staleAfter: Time, run: seq<Action>, id: Id, since: Time)
    requires var s := Exec(Init(maxAttempts, staleAfter), run); id in s.rows && !Terminal(s.rows[id].status)
    ensures var s := Exec(Init(maxAttempts, staleAfter), run); CanBeSent(s, id, since) <==> !Stranded(s, id)
  {
    var s := Exec(Init(maxAttempts, staleAfter), run);
    if Stranded(s, id) {
      forall more ensures !Reaches(s, more, id, since) { StrandedForever(s, more, id); }
    } else if s.rows[id].status == Retrying {
      SentUnlessStranded(s, id, since);
    } else {
      RunInv(maxAttempts, staleAfter, run);
      assert RowOk(s.rows[id], LifeOf(s.lives, id), s.maxAttempts);
      SentFromSweep(s, id, since);
    }
  }

  /** A row is stranded only after a loss step of its own: over any lossless run no row is. */
  lemma LosslessRunsStrandNothing(maxAttempts: int, staleAfter: Time, run: seq<Action>, id: Id)
    requires Lossless(Init(maxAttempts, staleAfter), run, id)
    ensures !Stranded(Exec(Init(maxAttempts, staleAfter), run), id)
  {
    var s := Exec(Init(maxAttempts, staleAfter), run);
    KeptWhileLossless(maxAttempts, staleAfter, run, id);
  }

  // ---- later sends ------------------------------------------------------------------------------

  // A handler that has claimed the row and not yet called Send, whatever the row reads by now.
  ghost predicate AboutToSend(s: State, id: Id) {
    exists tag :: WorksOn(s, tag, id) && s.handlers[tag].pc.Claimed?
  }

  // No Send is made for the row now, and none can come about.
  ghost predicate Quiet(s: State, id: Id) {
    id in s.rows && (Terminal(s.rows[id].status) || Stranded(s, id)) && !AboutToSend(s, id)
  }

  lemma FetchedUnclaimed(s: State, a: Action, tag: nat)
    requires tag !in s.handlers && tag in Next(s, a).handlers
    ensures Next(s, a).handlers[tag].pc.Fetched?
  {
  }

  lemma OnlyClaimsPrepareSends(s: State, a: Action, tag: nat, id: Id)
    requires WorksOn(Next(s, a), tag, id) && Next(s, a).handlers[tag].pc.Claimed?
    requires !(WorksOn(s, tag, id) && s.handlers[tag].pc.Claimed?)
    ensures a.Claim? && a.tag == tag && WorksOn(s, tag, id) && s.handlers[tag].pc.Fetched?
    ensures Guarded(s.rows, id, AllowedInto(Processing))
  {
    if tag !in s.handlers {
      FetchedUnclaimed(s, a, tag);
    } else if WorkerAction(a) && a.tag == tag {
      WorkersKeepTheirMessage(s, a);
    } else {
      UntouchedHandler(s, a, tag);
    }
  }

  lemma QuietStays(s: State, a: Action, id: Id)
    requires Quiet(s, id)
    ensures Quiet(Next(s, a), id) && !Occurs(SendEvent, s, a, id)
  {
    GuardsAreLegal(s.rows[id].status);
    EveryWriteIsLegal(s, a, id);
    ExecOne(s, a);
    if Stranded(s, id) { StrandedForever(s, [a], id); }
    if tag :| WorksOn(Next(s, a), tag, id) && Next(s, a).handlers[tag].pc.Claimed? {
      OnlyClaimsPrepareSends(s, a, tag, id);
      assert s.rows[id].status in {Pending, Queued, Retrying} && CanRevive(s.handlers[tag], id);
      assert false;
    }
  }

  lemma {:induction false} QuietForever(s: State, run: seq<Action>, id: Id)
    requires Quiet(s, id)
    ensures Quiet(Exec(s, run), id) && Times(SendEvent, s, run, id) == 0
  {
    if run != [] {
      QuietForever(s, run[..|run| - 1], id);
      QuietStays(Exec(s, run[..|run| - 1]), run[|run| - 1], id);
    }
  }

  lemma ClaimedCanSend(s: State, tag: nat, id: Id, since: Time)
    requires WorksOn(s, tag, id) && s.handlers[tag].pc.Claimed?
    ensures exists more :: InTime(since, more) && Times(SendEvent, s, more, id) > 0
  {
    TimesOne(SendEvent, s, Send(tag, Success), id);
    assert InTime(since, [Send(tag, Success)]);
  }

  lemma DeliverableIsSent(s: State, id: Id, since: Time)
    requires CanBeSent(s, id, since)
    ensures exists more :: InTime(since, more) && Times(SendEvent, s, more, id) > 0
  {
    var more :| Reaches(s, more, id, since);
  }

  /** When exactly a Send can still be made for a notification: it is open and not stranded, or
      some handler has claimed it and not yet sent it, which no status and no recovery undoes. */
  lemma SendsLaterIff(maxAttempts: int, staleAfter: Time, run: seq<Action>, id: Id, since: Time)
    requires id in Exec(Init(maxAttempts, staleAfter), run).rows
    ensures var s := Exec(Init(maxAttempts, staleAfter), run);
            (exists more :: InTime(since, more) && Times(SendEvent, s, more, id) > 0) <==>
            (!Terminal(s.rows[id].status) && !Stranded(s, id)) || AboutToSend(s, id)
  {
    var s := Exec(Init(maxAttempts, staleAfter), run);
    if tag :| WorksOn(s, tag, id) && s.handlers[tag].pc.Claimed? {
      ClaimedCanSend(s, tag, id, since);
    } else if !Terminal(s.rows[id].status) && !Stranded(s, id) {
      DeliverableUnlessStranded(maxAttempts, staleAfter, run, id, since);
      DeliverableIsSent(s, id, since);
    } else {
      forall more ensures Times(SendEvent, s, more, id) == 0 { QuietForever(s, more, id); }
    }
  }
}
