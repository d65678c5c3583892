/** The worker's code for one delivery, statement by statement, with any number of other
    components acting between any two statements. Every execution is a run of the protocol,
    and its contract lists the steps taken, in order, for each course it can take.
 */
module Worker {
  import opened Domain
  import S = Statements
  import opened Protocol
  import opened Repository
  import opened Deployment

  // What the database, the limiter, the provider and the broker answer to one delivery.
  datatype Answers = Answers(
    now: Time,
    claimIo: Io,
    interrupted: bool,
    result: SendResult,
    error: string,
    providerId: string,
    sentAt: Time,
    writeIo: Io,
    receipt: Receipt)

  // Whether the claim took the row, as which attempt, which step of the run wrote the outcome,
  // and whether that write took effect and was acknowledged.
  datatype Course = Rejected | Took(attempt: nat, wrote: nat, held: bool)

  predicate At(d: Cluster, tag: nat, id: Id, pc: Pc)
    reads d
  {
    tag in d.handlers && d.handlers[tag].message.id == id && d.handlers[tag].pc == pc
  }

  // ---- one statement each -----------------------------------------------------------------

  method ClaimStatement(repo: NotificationRepository, id: Id, w: Answers) returns (r: Try<Notification>)
    modifies repo
    ensures repo.rows == if w.claimIo.NotRun? then old(repo.rows)
                         else S.ClaimForProcessing(old(repo.rows), id, AllowedInto(Processing), w.now)
    ensures var n := if id in old(repo.rows) then Some(old(repo.rows)[id]) else None;
            var passes := n.Some? && n.value.status in {Pending, Queued, Retrying};
            && repo.rows == (if w.claimIo != NotRun && passes
                             then old(repo.rows)[id := n.value.(status := Processing, updatedAt := w.now,
                                                                attempts := n.value.attempts + 1)]
                             else old(repo.rows))
            && r == if w.claimIo != Done then Err(Infrastructure) else if passes then Ok(repo.rows[id])
                    else if n.Some? then Err(InvalidTransition) else Err(NotFound)
  {
    var allowed := StatusesAllowedInto(Processing);
    assert FromSeq(allowed) == AllowedInto(Processing);
    assert forall from :: from in allowed <==> from in {Pending, Queued, Retrying};
    r := repo.ClaimForProcessing(id, allowed, w.now, w.claimIo);
  }

  method ClaimRow(d: Cluster, tag: nat, id: Id, w: Answers) returns (r: Try<Notification>)
    requires d.Valid() && At(d, tag, id, Fetched)
    modifies d, d.repo
    ensures d.Valid() && d.log == old(d.log) + [Claim(tag, w.now, w.claimIo)]
    ensures OwnSteps(d.log, HandlerSelf(tag)) == OwnSteps(old(d.log), HandlerSelf(tag)) + [Claim(tag, w.now, w.claimIo)]
    ensures At(d, tag, id,
               if r.Ok?
               then Claimed(Ticket(r.value.attempts, r.value.channel))
               else Settling(r.error == Infrastructure))
    ensures r == Err(Infrastructure) <==> !w.claimIo.Done?
    ensures r.Ok? <==> w.claimIo.Done? && id in old(d.repo.rows)
                         && old(d.repo.rows)[id].status in {Pending, Queued, Retrying}
    ensures r.Ok? ==> r.value.attempts == old(d.repo.rows)[id].attempts + 1
    ensures d.repo.rows == if w.claimIo != NotRun && id in old(d.repo.rows)
                              && old(d.repo.rows)[id].status in {Pending, Queued, Retrying}
                           then old(d.repo.rows)[id := old(d.repo.rows)[id].(status := Processing, updatedAt := w.now,
                                  attempts := old(d.repo.rows)[id].attempts + 1)]
                           else old(d.repo.rows)
  {
    var before := d.View();
    r := ClaimStatement(d.repo, id, w);
    d.Record(before, Claim(tag, w.now, w.claimIo));
  }

  // The claim, and the wait for the rate limiter that follows it.
  method TakeRow(d: Cluster, tag: nat, id: Id, w: Answers) returns (r: Try<Notification>, ghost at: nat)
    requires d.Valid() && At(d, tag, id, Fetched)
    modifies d, d.repo, d.publisher
    ensures d.Valid() && old(d.log) <= d.log
    ensures OwnSteps(d.log, HandlerSelf(tag)) == OwnSteps(old(d.log), HandlerSelf(tag)) + [Claim(tag, w.now, w.claimIo)]
    ensures At(d, tag, id,
               if r.Ok?
               then Claimed(Ticket(r.value.attempts, r.value.channel))
               else Settling(r.error == Infrastructure))
    ensures r == Err(Infrastructure) <==> !w.claimIo.Done?
    ensures |old(d.log)| <= at < |d.log| && d.log[at] == Claim(tag, w.now, w.claimIo)
    ensures r.Ok? <==> w.claimIo.Done? && id in RowsAt(d, at)
                         && RowsAt(d, at)[id].status in {Pending, Queued, Retrying}
    ensures r.Ok? ==> r.value.attempts == RowsAt(d, at)[id].attempts + 1
  {
    d.Others(HandlerSelf(tag));
    ghost var before := d.log;
    at := |before|;
    r := ClaimRow(d, tag, id, w);
    ghost var log := d.log;
    assert log[..at] == before;
    d.Others(HandlerSelf(tag));
    SamePrefix(log, d.log, at);
  }

  method ReleaseRow(d: Cluster, tag: nat, id: Id, ghost t: Ticket, w: Answers)
    requires d.Valid() && At(d, tag, id, Claimed(t))
    modifies d, d.repo
    ensures d.Valid() && d.log == old(d.log) + [Release(tag, w.now, w.writeIo)]
    ensures OwnSteps(d.log, HandlerSelf(tag))
              == OwnSteps(old(d.log), HandlerSelf(tag)) + [Release(tag, w.now, w.writeIo)]
    ensures At(d, tag, id, Settling(true))
    ensures d.repo.rows == if w.writeIo != NotRun && id in old(d.repo.rows)
                              && old(d.repo.rows)[id].status == Processing
                           then old(d.repo.rows)[id := old(d.repo.rows)[id].(status := Retrying, updatedAt := w.now,
                                  lastError := Some("delivery interrupted before send"))]
                           else old(d.repo.rows)
  {
    var before := d.View();
    var _ := d.repo.MarkRetrying(id, S.INTERRUPTED, w.now, w.writeIo);
    d.Record(before, Release(tag, w.now, w.writeIo));
  }

  method CallProvider(d: Cluster, tag: nat, id: Id, ghost t: Ticket, w: Answers)
    requires d.Valid() && At(d, tag, id, Claimed(t))
    modifies d
    ensures d.Valid() && d.log == old(d.log) + [Send(tag, w.result)]
    ensures OwnSteps(d.log, HandlerSelf(tag)) == OwnSteps(old(d.log), HandlerSelf(tag)) + [Send(tag, w.result)]
    ensures At(d, tag, id, if w.result.Success? then SendOk(t) else SendFailed(t, w.result.Retryable?))
  {
    d.Record(d.View(), Send(tag, w.result));
  }

  method RecordSuccess(d: Cluster, tag: nat, id: Id, ghost t: Ticket, w: Answers) returns (r: Try<()>)
    requires d.Valid() && At(d, tag, id, SendOk(t))
    modifies d, d.repo
    ensures var a := RecordSent(tag, w.providerId, w.sentAt, w.now, w.writeIo);
            d.Valid() && d.log == old(d.log) + [a]
                && OwnSteps(d.log, HandlerSelf(tag)) == OwnSteps(old(d.log), HandlerSelf(tag)) + [a]
    ensures r == Err(Infrastructure) <==> !w.writeIo.Done?
    ensures r.Ok? <==> w.writeIo.Done? && id in old(d.repo.rows) && old(d.repo.rows)[id].status == Processing
    ensures At(d, tag, id, Settling(r == Err(Infrastructure)))
    ensures d.repo.rows == if w.writeIo != NotRun && id in old(d.repo.rows)
                              && old(d.repo.rows)[id].status == Processing
                           then old(d.repo.rows)[id := old(d.repo.rows)[id].(status := Sent, updatedAt := w.now,
                                  providerMessageId := Some(w.providerId), sentAt := Some(w.sentAt))]
                           else old(d.repo.rows)
  {
    var before := d.View();
    r := d.repo.MarkSent(id, w.providerId, w.sentAt, w.now, w.writeIo);
    d.Record(before, RecordSent(tag, w.providerId, w.sentAt, w.now, w.writeIo));
  }

  method MarkForRetry(d: Cluster, tag: nat, id: Id, ghost t: Ticket, w: Answers) returns (r: Try<()>)
    requires d.Valid() && At(d, tag, id, SendFailed(t, true)) && t.k < d.maxAttempts
    modifies d, d.repo
    ensures var a := RecordRetry(tag, w.error, w.now, w.writeIo);
            d.Valid() && d.log == old(d.log) + [a]
                && OwnSteps(d.log, HandlerSelf(tag)) == OwnSteps(old(d.log), HandlerSelf(tag)) + [a]
    ensures r == Err(Infrastructure) <==> !w.writeIo.Done?
    ensures r.Ok? <==> w.writeIo.Done? && id in old(d.repo.rows) && old(d.repo.rows)[id].status == Processing
    ensures At(d, tag, id, if r.Ok? then RetryMarked(t) else Settling(r.error == Infrastructure))
    ensures d.repo.rows == if w.writeIo != NotRun && id in old(d.repo.rows)
                              && old(d.repo.rows)[id].status == Processing
                           then old(d.repo.rows)[id := old(d.repo.rows)[id].(status := Retrying, updatedAt := w.now,
                                  lastError := Some(w.error))]
                           else old(d.repo.rows)
  {
    var before := d.View();
    r := d.repo.MarkRetrying(id, w.error, w.now, w.writeIo);
    d.Record(before, RecordRetry(tag, w.error, w.now, w.writeIo));
  }

  method MarkAsFailed(d: Cluster, tag: nat, id: Id, ghost t: Ticket, ghost retryable: bool, w: Answers)
    returns (r: Try<()>)
    requires d.Valid() && At(d, tag, id, SendFailed(t, retryable)) && !(retryable && t.k < d.maxAttempts)
    modifies d, d.repo
    ensures var a := RecordFailure(tag, w.error, w.now, w.writeIo);
            d.Valid() && d.log == old(d.log) + [a]
                && OwnSteps(d.log, HandlerSelf(tag)) == OwnSteps(old(d.log), HandlerSelf(tag)) + [a]
    ensures r == Err(Infrastructure) <==> !w.writeIo.Done?
    ensures r.Ok? <==> w.writeIo.Done? && id in old(d.repo.rows) && old(d.repo.rows)[id].status == Processing
    ensures At(d, tag, id, if r.Ok? then FailMarked(t, retryable) else Settling(r.error == Infrastructure))
    ensures d.repo.rows == if w.writeIo != NotRun && id in old(d.repo.rows)
                              && old(d.repo.rows)[id].status == Processing
                           then old(d.repo.rows)[id := old(d.repo.rows)[id].(status := Failed, updatedAt := w.now,
                                  lastError := Some(w.error))]
                           else old(d.repo.rows)
  {
    var before := d.View();
    r := d.repo.MarkFailed(id, w.error, w.now, w.writeIo);
    d.Record(before, RecordFailure(tag, w.error, w.now, w.writeIo));
  }

  method ScheduleRetry(d: Cluster, tag: nat, id: Id, claimed: Notification, w: Answers) returns (ok: bool)
    requires d.Valid() && At(d, tag, id, RetryMarked(Ticket(claimed.attempts, claimed.channel)))
    modifies d, d.publisher
    ensures d.Valid() && d.log == old(d.log) + [PublishRetry(tag, w.receipt)]
    ensures OwnSteps(d.log, HandlerSelf(tag)) == OwnSteps(old(d.log), HandlerSelf(tag)) + [PublishRetry(tag, w.receipt)]
    ensures ok == w.receipt.Confirmed? && At(d, tag, id, Settling(!ok))
    ensures d.publisher.broker == if w.receipt == Refused then old(d.publisher.broker) else
              old(d.publisher.broker).(tiers := old(d.publisher.broker).tiers + multiset{
                Parked(if claimed.attempts <= 1 then 0 else if claimed.attempts == 2 then 1 else 2,
                       Message(claimed.channel, id))})
  {
    var before := d.View();
    ok := d.publisher.PublishRetry(Message(claimed.channel, id), claimed.attempts, w.receipt);
    d.Record(before, PublishRetry(tag, w.receipt));
  }

  method DeadLetter(d: Cluster, tag: nat, id: Id, ghost t: Ticket, ghost retryable: bool, w: Answers)
    requires d.Valid() && At(d, tag, id, FailMarked(t, retryable))
    modifies d, d.publisher
    ensures d.Valid() && d.log == old(d.log) + [PublishDeadLetter(tag, w.receipt)]
    ensures OwnSteps(d.log, HandlerSelf(tag))
              == OwnSteps(old(d.log), HandlerSelf(tag)) + [PublishDeadLetter(tag, w.receipt)]
    ensures At(d, tag, id, Settling(false))
    ensures d.publisher.broker == if w.receipt == Refused then old(d.publisher.broker) else
              old(d.publisher.broker).(dead := old(d.publisher.broker).dead + multiset{id})
  {
    var before := d.View();
    var _ := d.publisher.PublishDeadLetter(id, w.receipt);
    d.Record(before, PublishDeadLetter(tag, w.receipt));
  }

  // The provider call, and the time until its outcome is written.
  method SendClaimed(d: Cluster, tag: nat, id: Id, ghost t: Ticket, w: Answers)
    requires d.Valid() && At(d, tag, id, Claimed(t))
    modifies d, d.repo, d.publisher
    ensures d.Valid() && old(d.log) <= d.log
    ensures OwnSteps(d.log, HandlerSelf(tag)) == OwnSteps(old(d.log), HandlerSelf(tag)) + [Send(tag, w.result)]
    ensures At(d, tag, id, if w.result.Success? then SendOk(t) else SendFailed(t, w.result.Retryable?))
  {
    CallProvider(d, tag, id, t, w);
    d.Others(HandlerSelf(tag));
  }

  // ---- the worker ---------------------------------------------------------------------------

  /** A failed send is marked for a retry if it may be retried and attempts are left, and failed
      otherwise. The mark comes first; only if it took effect is the retry message or the dead
      letter published. The message is needed again after a write that was not acknowledged, or
      a retry message that was not confirmed. */
  method HandleSendFailure(d: Cluster, tag: nat, id: Id, claimed: Notification, w: Answers)
    returns (failed: bool, ghost held: bool, ghost steps: seq<Action>)
    requires d.Valid() && At(d, tag, id, SendFailed(Ticket(claimed.attempts, claimed.channel), w.result.Retryable?))
    requires !w.result.Success?
    modifies d, d.repo, d.publisher
    ensures d.Valid() && old(d.log) <= d.log && At(d, tag, id, Settling(failed))
    ensures OwnSteps(d.log, HandlerSelf(tag)) == OwnSteps(old(d.log), HandlerSelf(tag)) + steps
    ensures w.result.Retryable? && claimed.attempts < d.maxAttempts ==>
              && steps == [RecordRetry(tag, w.error, w.now, w.writeIo)]
                   + (if held then [PublishRetry(tag, w.receipt)] else [])
              && (failed <==> !w.writeIo.Done? || (held && !w.receipt.Confirmed?))
    ensures !(w.result.Retryable? && claimed.attempts < d.maxAttempts) ==>
              && steps == [RecordFailure(tag, w.error, w.now, w.writeIo)]
                   + (if held then [PublishDeadLetter(tag, w.receipt)] else [])
              && (failed <==> !w.writeIo.Done?)
    ensures held <==> w.writeIo.Done? && id in old(d.repo.rows) && old(d.repo.rows)[id].status == Processing
    ensures |old(d.log)| < |d.log| && steps != [] && d.log[|old(d.log)|] == steps[0]
  {
    if w.result.Retryable? && claimed.attempts < d.maxAttempts {
      failed, held, steps := RetryLater(d, tag, id, claimed, w);
    } else {
      failed, held, steps := GiveUp(d, tag, id, claimed, w);
    }
  }

  method RetryLater(d: Cluster, tag: nat, id: Id, claimed: Notification, w: Answers)
    returns (failed: bool, ghost held: bool, ghost steps: seq<Action>)
    requires d.Valid() && At(d, tag, id, SendFailed(Ticket(claimed.attempts, claimed.channel), true))
    requires claimed.attempts < d.maxAttempts
    modifies d, d.repo, d.publisher
    ensures d.Valid() && old(d.log) <= d.log && At(d, tag, id, Settling(failed))
    ensures OwnSteps(d.log, HandlerSelf(tag)) == OwnSteps(old(d.log), HandlerSelf(tag)) + steps
    ensures failed <==> !w.writeIo.Done? || (held && !w.receipt.Confirmed?)
    ensures steps == [RecordRetry(tag, w.error, w.now, w.writeIo)]
                   + (if held then [PublishRetry(tag, w.receipt)] else [])
    ensures held <==> w.writeIo.Done? && id in old(d.repo.rows) && old(d.repo.rows)[id].status == Processing
    ensures |old(d.log)| < |d.log| && d.log[|old(d.log)|] == steps[0]
  {
    var marked := MarkForRetry(d, tag, id, Ticket(claimed.attempts, claimed.channel), w);
    held := marked.Ok?;
    steps := [RecordRetry(tag, w.error, w.now, w.writeIo)];
    if marked.Err? { return marked.error == Infrastructure, held, steps; }
    d.Others(HandlerSelf(tag));
    var scheduled := ScheduleRetry(d, tag, id, claimed, w);
    failed := !scheduled;
    steps := steps + [PublishRetry(tag, w.receipt)];
  }

  method GiveUp(d: Cluster, tag: nat, id: Id, claimed: Notification, w: Answers)
    returns (failed: bool, ghost held: bool, ghost steps: seq<Action>)
    requires d.Valid() && At(d, tag, id, SendFailed(Ticket(claimed.attempts, claimed.channel), w.result.Retryable?))
    requires !(w.result.Retryable? && claimed.attempts < d.maxAttempts)
    modifies d, d.repo, d.publisher
    ensures d.Valid() && old(d.log) <= d.log && At(d, tag, id, Settling(failed))
    ensures OwnSteps(d.log, HandlerSelf(tag)) == OwnSteps(old(d.log), HandlerSelf(tag)) + steps
    ensures failed <==> !w.writeIo.Done?
    ensures steps == [RecordFailure(tag, w.error, w.now, w.writeIo)]
              + (if held then [PublishDeadLetter(tag, w.receipt)] else [])
    ensures held <==> w.writeIo.Done? && id in old(d.repo.rows) && old(d.repo.rows)[id].status == Processing
    ensures |old(d.log)| < |d.log| && d.log[|old(d.log)|] == steps[0]
  {
    ghost var t := Ticket(claimed.attempts, claimed.channel);
    var marked := MarkAsFailed(d, tag, id, t, w.result.Retryable?, w);
    held := marked.Ok?;
    steps := [RecordFailure(tag, w.error, w.now, w.writeIo)];
    if marked.Err? { return marked.error == Infrastructure, held, steps; }
    d.Others(HandlerSelf(tag));
    DeadLetter(d, tag, id, t, w.result.Retryable?, w);
    failed := false;
    steps := steps + [PublishDeadLetter(tag, w.receipt)];
  }

  /** One consumed message. If the claim does not take the row nothing else is done. If the wait
      for the rate limiter is interrupted nothing is sent: the row is released and the message
      comes back. Otherwise the provider is called exactly once, before the outcome is written,
      and a failed call is handled as above. An error is returned exactly when the message is
      needed again. */
  method ProcessNotification(d: Cluster, tag: nat, id: Id, w: Answers)
    returns (failed: bool, ghost c: Course, ghost steps: seq<Action>, ghost at: nat)
    requires d.Valid() && At(d, tag, id, Fetched)
    modifies d, d.repo, d.publisher
    ensures d.Valid() && old(d.log) <= d.log && At(d, tag, id, Settling(failed))
    ensures OwnSteps(d.log, HandlerSelf(tag))
              == OwnSteps(old(d.log), HandlerSelf(tag)) + [Claim(tag, w.now, w.claimIo)]
                 + (if c.Rejected? || w.interrupted then [] else [Send(tag, w.result)]) + steps
    ensures |old(d.log)| <= at < |d.log| && d.log[at] == Claim(tag, w.now, w.claimIo)
    ensures c.Took? <==> w.claimIo.Done? && id in RowsAt(d, at)
                           && RowsAt(d, at)[id].status in {Pending, Queued, Retrying}
    ensures c.Took? ==> c.attempt == RowsAt(d, at)[id].attempts + 1
    ensures c.Took? && !w.interrupted ==>
              && at < c.wrote < |d.log| && steps != [] && d.log[c.wrote] == steps[0]
              && (c.held <==> w.writeIo.Done? && id in RowsAt(d, c.wrote)
                              && RowsAt(d, c.wrote)[id].status == Processing)
    ensures c.Rejected? ==> steps == [] && (failed <==> !w.claimIo.Done?)
    ensures c.Took? && w.interrupted ==> failed && steps == [Release(tag, w.now, w.writeIo)]
    ensures c.Took? && !w.interrupted && w.result.Success? ==>
              && steps == [RecordSent(tag, w.providerId, w.sentAt, w.now, w.writeIo)]
              && (failed <==> !w.writeIo.Done?)
    ensures c.Took? && !w.interrupted && w.result.Retryable? && c.attempt < d.maxAttempts ==>
              && steps == [RecordRetry(tag, w.error, w.now, w.writeIo)]
                   + (if c.held then [PublishRetry(tag, w.receipt)] else [])
              && (failed <==> !w.writeIo.Done? || (c.held && !w.receipt.Confirmed?))
    ensures c.Took? && !w.interrupted && !w.result.Success? && !(w.result.Retryable? && c.attempt < d.maxAttempts) ==>
              && steps == [RecordFailure(tag, w.error, w.now, w.writeIo)]
                   + (if c.held then [PublishDeadLetter(tag, w.receipt)] else [])
              && (failed <==> !w.writeIo.Done?)
  {
    var claim;
    claim, at := TakeRow(d, tag, id, w);
    if claim.Err? {
      return claim.error == Infrastructure, Rejected, [], at;
    }
    ghost var log := d.log;
    failed, c, steps := DeliverClaimed(d, tag, id, claim.value, w);
    SamePrefix(log, d.log, at);
  }

  // The wait for the rate limiter, and what follows it.
  method DeliverClaimed(d: Cluster, tag: nat, id: Id, claimed: Notification, w: Answers)
    returns (failed: bool, ghost c: Course, ghost steps: seq<Action>)
    requires d.Valid() && At(d, tag, id, Claimed(Ticket(claimed.attempts, claimed.channel)))
    modifies d, d.repo, d.publisher
    ensures d.Valid() && old(d.log) <= d.log && At(d, tag, id, Settling(failed))
    ensures OwnSteps(d.log, HandlerSelf(tag)) == OwnSteps(old(d.log), HandlerSelf(tag))
              + (if w.interrupted then [] else [Send(tag, w.result)]) + steps
    ensures c.Took? && c.attempt == claimed.attempts
    ensures !w.interrupted ==>
              && |old(d.log)| <= c.wrote < |d.log| && steps != [] && d.log[c.wrote] == steps[0]
              && (c.held <==> w.writeIo.Done? && id in RowsAt(d, c.wrote)
                              && RowsAt(d, c.wrote)[id].status == Processing)
    ensures w.interrupted ==> failed && steps == [Release(tag, w.now, w.writeIo)]
    ensures !w.interrupted && w.result.Success? ==>
              && steps == [RecordSent(tag, w.providerId, w.sentAt, w.now, w.writeIo)]
              && (failed <==> !w.writeIo.Done?)
    ensures !w.interrupted && w.result.Retryable? && claimed.attempts < d.maxAttempts ==>
              && steps == [RecordRetry(tag, w.error, w.now, w.writeIo)]
                   + (if c.held then [PublishRetry(tag, w.receipt)] else [])
              && (failed <==> !w.writeIo.Done? || (c.held && !w.receipt.Confirmed?))
    ensures !w.interrupted && !w.result.Success? && !(w.result.Retryable? && claimed.attempts < d.maxAttempts) ==>
              && steps == [RecordFailure(tag, w.error, w.now, w.writeIo)]
                   + (if c.held then [PublishDeadLetter(tag, w.receipt)] else [])
              && (failed <==> !w.writeIo.Done?)
  {
    if w.interrupted {
      ReleaseRow(d, tag, id, Ticket(claimed.attempts, claimed.channel), w);
      return true, Took(claimed.attempts, 0, false), [Release(tag, w.now, w.writeIo)];
    }
    failed, c, steps := Deliver(d, tag, id, claimed, w);
  }

  // What follows the provider call.
  method RecordOutcome(d: Cluster, tag: nat, id: Id, claimed: Notification, w: Answers)
    returns (failed: bool, ghost held: bool, ghost steps: seq<Action>)
    requires d.Valid()
    requires At(d, tag, id,
                if w.result.Success? then SendOk(Ticket(claimed.attempts, claimed.channel))
                else SendFailed(Ticket(claimed.attempts, claimed.channel), w.result.Retryable?))
    modifies d, d.repo, d.publisher
    ensures d.Valid() && old(d.log) <= d.log && At(d, tag, id, Settling(failed))
    ensures OwnSteps(d.log, HandlerSelf(tag)) == OwnSteps(old(d.log), HandlerSelf(tag)) + steps
    ensures held <==> w.writeIo.Done? && id in old(d.repo.rows) && old(d.repo.rows)[id].status == Processing
    ensures |old(d.log)| < |d.log| && steps != [] && d.log[|old(d.log)|] == steps[0]
    ensures w.result.Success? ==>
              && steps == [RecordSent(tag, w.providerId, w.sentAt, w.now, w.writeIo)]
              && (failed <==> !w.writeIo.Done?)
    ensures w.result.Retryable? && claimed.attempts < d.maxAttempts ==>
              && steps == [RecordRetry(tag, w.error, w.now, w.writeIo)]
                   + (if held then [PublishRetry(tag, w.receipt)] else [])
              && (failed <==> !w.writeIo.Done? || (held && !w.receipt.Confirmed?))
    ensures !w.result.Success? && !(w.result.Retryable? && claimed.attempts < d.maxAttempts) ==>
              && steps == [RecordFailure(tag, w.error, w.now, w.writeIo)]
                   + (if held then [PublishDeadLetter(tag, w.receipt)] else [])
              && (failed <==> !w.writeIo.Done?)
  {
    if w.result.Success? {
      var sent := RecordSuccess(d, tag, id, Ticket(claimed.attempts, claimed.channel), w);
      return sent == Err(Infrastructure), sent.Ok?, [RecordSent(tag, w.providerId, w.sentAt, w.now, w.writeIo)];
    }
    failed, held, steps := HandleSendFailure(d, tag, id, claimed, w);
  }

  method Deliver(d: Cluster, tag: nat, id: Id, claimed: Notification, w: Answers)
    returns (failed: bool, ghost c: Course, ghost steps: seq<Action>)
    requires d.Valid() && At(d, tag, id, Claimed(Ticket(claimed.attempts, claimed.channel)))
    modifies d, d.repo, d.publisher
    ensures d.Valid() && old(d.log) <= d.log && At(d, tag, id, Settling(failed))
    ensures OwnSteps(d.log, HandlerSelf(tag))
              == OwnSteps(old(d.log), HandlerSelf(tag)) + [Send(tag, w.result)] + steps
    ensures c.Took? && c.attempt == claimed.attempts
    ensures |old(d.log)| <= c.wrote < |d.log| && steps != [] && d.log[c.wrote] == steps[0]
    ensures c.held <==> w.writeIo.Done? && id in RowsAt(d, c.wrote) && RowsAt(d, c.wrote)[id].status == Processing
    ensures w.result.Success? ==>
              && steps == [RecordSent(tag, w.providerId, w.sentAt, w.now, w.writeIo)]
              && (failed <==> !w.writeIo.Done?)
    ensures w.result.Retryable? && claimed.attempts < d.maxAttempts ==>
              && steps == [RecordRetry(tag, w.error, w.now, w.writeIo)]
                   + (if c.held then [PublishRetry(tag, w.receipt)] else [])
              && (failed <==> !w.writeIo.Done? || (c.held && !w.receipt.Confirmed?))
    ensures !w.result.Success? && !(w.result.Retryable? && claimed.attempts < d.maxAttempts) ==>
              && steps == [RecordFailure(tag, w.error, w.now, w.writeIo)]
                   + (if c.held then [PublishDeadLetter(tag, w.receipt)] else [])
              && (failed <==> !w.writeIo.Done?)
  {
    SendClaimed(d, tag, id, Ticket(claimed.attempts, claimed.channel), w);
    ghost var log, held := d.log, false;
    failed, held, steps := RecordOutcome(d, tag, id, claimed, w);
    assert d.log[..|log|] == log;
    c := Took(claimed.attempts, |log|, held);
  }

  /** The message is settled once, after everything else: put back exactly when processing
      failed, if the broker still counts it as outstanding, and acknowledged otherwise. */
  method HandleDelivery(d: Cluster, tag: nat, id: Id, w: Answers)
    returns (failed: bool, ghost c: Course, ghost steps: seq<Action>, ghost at: nat)
    requires d.Valid() && At(d, tag, id, Fetched)
    modifies d, d.repo, d.publisher
    ensures d.Valid() && old(d.log) <= d.log && tag !in d.handlers && d.log != []
    ensures OwnSteps(d.log, HandlerSelf(tag))
              == OwnSteps(old(d.log), HandlerSelf(tag)) + [Claim(tag, w.now, w.claimIo)]
                 + (if c.Rejected? || w.interrupted then [] else [Send(tag, w.result)]) + steps + [Settle(tag)]
    ensures var s := StateAt(d, |d.log| - 1);
            && d.log[|d.log| - 1] == Settle(tag) && WorksOn(s, tag, id)
            && d.publisher.broker == if failed && s.handlers[tag].attached
                                     then s.broker.(work := s.broker.work + multiset{s.handlers[tag].message})
                                     else s.broker
    ensures |old(d.log)| <= at < |d.log| && d.log[at] == Claim(tag, w.now, w.claimIo)
    ensures c.Took? <==> w.claimIo.Done? && id in RowsAt(d, at)
                           && RowsAt(d, at)[id].status in {Pending, Queued, Retrying}
    ensures c.Took? ==> c.attempt == RowsAt(d, at)[id].attempts + 1
    ensures c.Took? && !w.interrupted ==>
              && at < c.wrote < |d.log| && steps != [] && d.log[c.wrote] == steps[0]
              && (c.held <==> w.writeIo.Done? && id in RowsAt(d, c.wrote)
                              && RowsAt(d, c.wrote)[id].status == Processing)
    ensures w.claimIo.Done? && c.Rejected? ==> !failed
    ensures !w.claimIo.Done? || (c.Took? && (w.interrupted || !w.writeIo.Done?)) ==> failed
    ensures c.Took? && !w.interrupted && w.writeIo.Done? ==>
              (failed <==> w.result.Retryable? && c.attempt < d.maxAttempts && c.held && !w.receipt.Confirmed?)
    ensures steps == if c.Rejected? then []
                     else if w.interrupted then [Release(tag, w.now, w.writeIo)]
                     else if w.result.Success? then
                       [RecordSent(tag, w.providerId, w.sentAt, w.now, w.writeIo)]
                     else if w.result.Retryable? && c.attempt < d.maxAttempts then
                       [RecordRetry(tag, w.error, w.now, w.writeIo)]
                       + (if c.held then [PublishRetry(tag, w.receipt)] else [])
                     else
                       [RecordFailure(tag, w.error, w.now, w.writeIo)]
                       + (if c.held then [PublishDeadLetter(tag, w.receipt)] else [])
  {
    failed, c, steps, at := ProcessNotification(d, tag, id, w);
    ghost var processed := d.log;
    d.Others(HandlerSelf(tag));
    ghost var log := d.log;
    SettleDelivery(d, tag, id, failed);
    assert d.log[..|d.log| - 1] == log;
    SamePrefix(processed, d.log, at);
    if c.Took? && !w.interrupted { SamePrefix(processed, d.log, c.wrote); }
  }

  method SettleDelivery(d: Cluster, tag: nat, id: Id, requeue: bool)
    requires d.Valid() && At(d, tag, id, Settling(requeue))
    modifies d, d.publisher
    ensures d.Valid() && d.log == old(d.log) + [Settle(tag)] && tag !in d.handlers
    ensures OwnSteps(d.log, HandlerSelf(tag)) == OwnSteps(old(d.log), HandlerSelf(tag)) + [Settle(tag)]
    ensures d.publisher.broker == var b, h := old(d.publisher.broker), old(d.handlers[tag]);
                                  if requeue && h.attached then b.(work := b.work + multiset{h.message}) else b
  {
    var before := d.View();
    if requeue { d.publisher.Requeue(d.handlers[tag].message, d.handlers[tag].attached); }
    d.Record(before, Settle(tag));
  }
}
