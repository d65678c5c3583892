/** The delivery protocol: the table, the broker, every consumer handler and every
    publishing task, and one total step function. An action that is not possible in a
    state leaves the state unchanged, so a run is an arbitrary sequence of actions.
 */
module Protocol {
  import opened Domain
  import opened Statements

  // ---- broker ---------------------------------------------------------------

  // A queue message carries the notification identity; its channel is the routing key
  // and so names the work queue that holds it.
  datatype Message = Message(channel: Channel, id: Id)

  datatype Parked = Parked(tier: nat, message: Message)

  datatype Broker = Broker(work: multiset<Message>, tiers: multiset<Parked>, dead: multiset<Id>)

  datatype RetryTier = RetryTier(name: string, ttl: nat)

  const RETRY_TIERS: seq<RetryTier> := [
    RetryTier("notifications.retry.5s", 5),
    RetryTier("notifications.retry.30s", 30),
    RetryTier("notifications.retry.120s", 120)]

  function TierForAttempt(attempt: int): (index: nat)
    ensures index < |RETRY_TIERS|
  {
    var index := attempt - 1;
    if index < 0 then 0 else if index >= |RETRY_TIERS| then |RETRY_TIERS| - 1 else index
  }

  function Enqueue(b: Broker, m: Message): Broker { b.(work := b.work + multiset{m}) }
  function Dequeue(b: Broker, m: Message): Broker { b.(work := b.work - multiset{m}) }
  function Park(b: Broker, p: Parked): Broker { b.(tiers := b.tiers + multiset{p}) }
  function Bury(b: Broker, id: Id): Broker { b.(dead := b.dead + multiset{id}) }

  // ---- what may happen to a request -----------------------------------------

  // A statement commits and is acknowledged, commits but reports an error, or does not run.
  datatype Io = Done | LostReply | NotRun

  // A publish is confirmed, is accepted but reports an error, or is not accepted.
  datatype Receipt = Confirmed | Unconfirmed | Refused

  datatype SendResult = Success | Retryable | Permanent

  // ---- consumer handlers ------------------------------------------------------

  // The part of the claimed row a handler acts on: which claim it is, and the channel.
  datatype Ticket = Ticket(k: nat, channel: Channel)

  datatype Pc =
    | Fetched
    | Claimed(t: Ticket)
    | SendOk(t: Ticket)
    | SendFailed(t: Ticket, retryable: bool)
    | RetryMarked(t: Ticket)
    | FailMarked(t: Ticket, retryable: bool)
    | Settling(requeue: bool)

  // `attached` says whether the broker still counts this delivery as outstanding. A broker
  // that takes a delivery back (its channel closed) does not stop the handler.
  datatype Handler = Handler(message: Message, attached: bool, pc: Pc)

  // ---- publishing tasks -------------------------------------------------------

  datatype TaskKind = Created | DueSwept | StaleSwept | Recovered

  datatype Task = Task(kind: TaskKind, todo: seq<Message>, confirmed: seq<Id>)

  // ---- history ----------------------------------------------------------------

  // What became of one claim.
  datatype Phase =
    | Open                      // claimed, nothing further recorded
    | Dropped                   // release attempted, row not moved
    | Released                  // released back to retrying before any send
    | Delivered(open: bool)     // Send returned success; open until the outcome write is attempted
    | Faulted(retryable: bool)  // Send returned an error, outcome not yet written
    | Spent                     // send failed, outcome write did not move the row
    | Retried                   // send failed, row marked retrying
    | Tiered                    // ... and the retry message accepted by the broker
    | Buried(permanent: bool)   // send failed, row marked failed
    | DeadLettered(permanent: bool)

  // One entry per claim, in claim order, and the number of stale-processing recoveries.
  datatype Life = Life(ledger: seq<Phase>, recoveries: nat)

  const BLANK := Life([], 0)

  // ---- state --------------------------------------------------------------------

  datatype State = State(
    maxAttempts: int,
    staleAfter: Time,
    rows: Rows,
    lives: map<Id, Life>,
    broker: Broker,
    handlers: map<nat, Handler>,
    tasks: map<nat, Task>)

  function Init(maxAttempts: int, staleAfter: Time): State {
    State(maxAttempts, staleAfter, map[], map[], Broker(multiset{}, multiset{}, multiset{}), map[], map[])
  }

  predicate SameConfig(s: State, s': State) {
    s'.maxAttempts == s.maxAttempts && s'.staleAfter == s.staleAfter
  }

  function LifeOf(lives: map<Id, Life>, id: Id): Life {
    if id in lives then lives[id] else BLANK
  }

  function NewClaim(lives: map<Id, Life>, id: Id): map<Id, Life> {
    lives[id := LifeOf(lives, id).(ledger := LifeOf(lives, id).ledger + [Open])]
  }

  function SetPhase(life: Life, k: nat, phase: Phase): Life {
    if 1 <= k <= |life.ledger| then life.(ledger := life.ledger[k - 1 := phase]) else life
  }

  function Mark(lives: map<Id, Life>, id: Id, k: nat, phase: Phase): map<Id, Life> {
    lives[id := SetPhase(LifeOf(lives, id), k, phase)]
  }

  // ---- actions --------------------------------------------------------------------

  datatype Action =
    // API
    | InsertDrafts(task: nat, drafts: seq<Draft>, io: Io)
    | Cancel(id: Id, now: Time)
    | MarkQueued(task: nat, now: Time)
    // scheduler
    | SweepDue(task: nat, ids: seq<Id>, now: Time)
    | SweepStale(task: nat, ids: seq<Id>, now: Time)
    | SweepProcessing(task: nat, ids: seq<Id>, now: Time)
    | Touch(task: nat, id: Id, now: Time)
    // any publishing task
    | Publish(task: nat, receipt: Receipt)
    | DropTask(task: nat)
    // broker
    | Fetch(tag: nat, message: Message)
    | Expire(parked: Parked)
    | Detach(tag: nat)
    | Crash(tag: nat)
    // worker
    | Drain(tag: nat)
    | Claim(tag: nat, now: Time, io: Io)
    | Release(tag: nat, now: Time, io: Io)
    | Send(tag: nat, result: SendResult)
    | RecordSent(tag: nat, providerId: string, sentAt: Time, now: Time, io: Io)
    | RecordRetry(tag: nat, error: string, now: Time, io: Io)
    | RecordFailure(tag: nat, error: string, now: Time, io: Io)
    | PublishRetry(tag: nat, receipt: Receipt)
    | PublishDeadLetter(tag: nat, receipt: Receipt)
    | Settle(tag: nat)

  // ---- producers --------------------------------------------------------------------

  function PendingMessages(drafts: seq<Draft>): seq<Message> {
    if drafts == [] then []
    else
      var rest := PendingMessages(drafts[1..]);
      var d := drafts[0];
      if d.notification.status == Pending then [Message(d.notification.channel, d.id)] + rest else rest
  }

  function DoInsert(s: State, task: nat, drafts: seq<Draft>, io: Io): (s': State)
    ensures SameConfig(s, s')
  {
    if task in s.tasks || io.NotRun? || !Insertable(s.rows, drafts) then s
    else s.(rows := Insert(s.rows, drafts),
            tasks := if io.Done? then s.tasks[task := Task(Created, PendingMessages(drafts), [])] else s.tasks)
  }

  function DoMarkQueued(s: State, task: nat, now: Time): (s': State)
    ensures SameConfig(s, s')
  {
    if task !in s.tasks || !s.tasks[task].kind.Created? then s
    else s.(rows := MarkQueuedBulk(s.rows, s.tasks[task].confirmed, now), tasks := s.tasks - {task})
  }

  function MessagesFor(rows: Rows, ids: seq<Id>): (ms: seq<Message>)
    requires forall id :: id in ids ==> id in rows
    ensures |ms| == |ids|
    ensures forall i :: 0 <= i < |ids| ==> ms[i] == Message(rows[ids[i]].channel, ids[i])
  {
    seq(|ids|, i requires 0 <= i < |ids| => Message(rows[ids[i]].channel, ids[i]))
  }

  function DoSweepDue(s: State, task: nat, ids: seq<Id>, now: Time): (s': State)
    ensures SameConfig(s, s')
  {
    if task in s.tasks || !DueSweep(s.rows, ids, now, s.staleAfter) then s
    else s.(rows := ClaimDueForQueue(s.rows, ids, now),
            tasks := s.tasks[task := Task(DueSwept, MessagesFor(s.rows, ids), [])])
  }

  function DoSweepStale(s: State, task: nat, ids: seq<Id>, now: Time): (s': State)
    ensures SameConfig(s, s')
  {
    if task in s.tasks || !QueuedSweep(s.rows, ids, now, s.staleAfter) then s
    else s.(tasks := s.tasks[task := Task(StaleSwept, MessagesFor(s.rows, ids), [])])
  }

  function Recoveries(rows: Rows, lives: map<Id, Life>, ids: seq<Id>): map<Id, Life> {
    map id | id in rows ::
      if id in ids then LifeOf(lives, id).(recoveries := LifeOf(lives, id).recoveries + 1) else LifeOf(lives, id)
  }

  function DoSweepProcessing(s: State, task: nat, ids: seq<Id>, now: Time): (s': State)
    ensures SameConfig(s, s')
  {
    if task in s.tasks || !ProcessingSweep(s.rows, ids, now, s.staleAfter) then s
    else s.(rows := RecoverStaleProcessing(s.rows, ids, now),
            lives := Recoveries(s.rows, s.lives, ids),
            tasks := s.tasks[task := Task(Recovered, MessagesFor(s.rows, ids), [])])
  }

  function DoPublish(s: State, task: nat, receipt: Receipt): (s': State)
    ensures SameConfig(s, s')
  {
    if task !in s.tasks || s.tasks[task].todo == [] then s
    else
      var t := s.tasks[task];
      s.(broker := if receipt.Refused? then s.broker else Enqueue(s.broker, t.todo[0]),
         tasks := s.tasks[task := t.(todo := t.todo[1..],
                                     confirmed := if receipt.Confirmed?
                                                  then t.confirmed + [t.todo[0].id]
                                                  else t.confirmed)])
  }

  // ---- broker-side steps ----------------------------------------------------------------

  function DoFetch(s: State, tag: nat, m: Message): (s': State)
    ensures SameConfig(s, s')
  {
    if tag in s.handlers || m !in s.broker.work then s
    else s.(broker := Dequeue(s.broker, m), handlers := s.handlers[tag := Handler(m, true, Fetched)])
  }

  // A tier queue dead-letters an expired message to the direct exchange under its own routing key.
  function DoExpire(s: State, p: Parked): (s': State)
    ensures SameConfig(s, s')
  {
    if p !in s.broker.tiers then s
    else s.(broker := Enqueue(s.broker.(tiers := s.broker.tiers - multiset{p}), p.message))
  }

  function Returned(broker: Broker, h: Handler): Broker {
    if h.attached then Enqueue(broker, h.message) else broker
  }

  function DoDetach(s: State, tag: nat): (s': State)
    ensures SameConfig(s, s')
  {
    if tag !in s.handlers then s
    else s.(broker := Returned(s.broker, s.handlers[tag]),
            handlers := s.handlers[tag := s.handlers[tag].(attached := false)])
  }

  function DoCrash(s: State, tag: nat): (s': State)
    ensures SameConfig(s, s')
  {
    if tag !in s.handlers then s
    else s.(broker := Returned(s.broker, s.handlers[tag]), handlers := s.handlers - {tag})
  }

  function DoDrain(s: State, tag: nat): (s': State)
    ensures SameConfig(s, s')
  {
    if tag !in s.handlers || !s.handlers[tag].pc.Fetched? then s else DoCrash(s, tag)
  }

  function DoSettle(s: State, tag: nat): (s': State)
    ensures SameConfig(s, s')
  {
    if tag !in s.handlers || !s.handlers[tag].pc.Settling? then s
    else if s.handlers[tag].pc.requeue then DoCrash(s, tag)
    else s.(handlers := s.handlers - {tag})
  }

  // ---- worker steps ---------------------------------------------------------------------

  function Advance(s: State, tag: nat, pc: Pc): State
    requires tag in s.handlers
  {
    s.(handlers := s.handlers[tag := s.handlers[tag].(pc := pc)])
  }

  function DoClaim(s: State, tag: nat, now: Time, io: Io): (s': State)
    ensures SameConfig(s, s')
  {
    if tag !in s.handlers || !s.handlers[tag].pc.Fetched? then s
    else
      var id := s.handlers[tag].message.id;
      if io.NotRun? then Advance(s, tag, Settling(true))
      else if !Guarded(s.rows, id, AllowedInto(Processing)) then Advance(s, tag, Settling(io.LostReply?))
      else
        var rows := ClaimForProcessing(s.rows, id, AllowedInto(Processing), now);
        var w := s.(rows := rows, lives := NewClaim(s.lives, id));
        Advance(w, tag, if io.Done? then Claimed(Ticket(rows[id].attempts, rows[id].channel)) else Settling(true))
  }

  function DoRelease(s: State, tag: nat, now: Time, io: Io): (s': State)
    ensures SameConfig(s, s')
  {
    if tag !in s.handlers || !s.handlers[tag].pc.Claimed? then s
    else
      var id, k := s.handlers[tag].message.id, s.handlers[tag].pc.t.k;
      var moves := !io.NotRun? && Held(s.rows, id);
      var w := s.(rows := if moves then RecordOutcome(s.rows, id, Retrying, INTERRUPTED, now) else s.rows,
                   lives := Mark(s.lives, id, k, if moves then Released else Dropped));
      Advance(w, tag, Settling(true))
  }

  function DoSend(s: State, tag: nat, result: SendResult): (s': State)
    ensures SameConfig(s, s')
  {
    if tag !in s.handlers || !s.handlers[tag].pc.Claimed? then s
    else
      var id, t := s.handlers[tag].message.id, s.handlers[tag].pc.t;
      match result
      case Success => Advance(s.(lives := Mark(s.lives, id, t.k, Delivered(true))), tag, SendOk(t))
      case Retryable => Advance(s.(lives := Mark(s.lives, id, t.k, Faulted(true))), tag, SendFailed(t, true))
      case Permanent => Advance(s.(lives := Mark(s.lives, id, t.k, Faulted(false))), tag, SendFailed(t, false))
  }

  function DoRecordSent(s: State, tag: nat, providerId: string, sentAt: Time, now: Time, io: Io): (s': State)
    ensures SameConfig(s, s')
  {
    if tag !in s.handlers || !s.handlers[tag].pc.SendOk? then s
    else
      var id, k := s.handlers[tag].message.id, s.handlers[tag].pc.t.k;
      var w := s.(rows := if io.NotRun? then s.rows else MarkSent(s.rows, id, providerId, sentAt, now),
                   lives := Mark(s.lives, id, k, Delivered(false)));
      Advance(w, tag, Settling(!io.Done?))
  }

  predicate RetryAllowed(s: State, pc: Pc)
    requires pc.SendFailed?
  {
    pc.retryable && pc.t.k < s.maxAttempts
  }

  function DoRecordRetry(s: State, tag: nat, error: string, now: Time, io: Io): (s': State)
    ensures SameConfig(s, s')
  {
    if tag !in s.handlers || !s.handlers[tag].pc.SendFailed? || !RetryAllowed(s, s.handlers[tag].pc) then s
    else
      var id, t := s.handlers[tag].message.id, s.handlers[tag].pc.t;
      var moves := !io.NotRun? && Held(s.rows, id);
      var w := s.(rows := if moves then RecordOutcome(s.rows, id, Retrying, error, now) else s.rows,
                   lives := Mark(s.lives, id, t.k, if moves then Retried else Spent));
      Advance(w, tag, if !io.Done? then Settling(true) else if moves then RetryMarked(t) else Settling(false))
  }

  function DoRecordFailure(s: State, tag: nat, error: string, now: Time, io: Io): (s': State)
    ensures SameConfig(s, s')
  {
    if tag !in s.handlers || !s.handlers[tag].pc.SendFailed? || RetryAllowed(s, s.handlers[tag].pc) then s
    else
      var id, t := s.handlers[tag].message.id, s.handlers[tag].pc.t;
      var moves := !io.NotRun? && Held(s.rows, id);
      var w := s.(rows := if moves then RecordOutcome(s.rows, id, Failed, error, now) else s.rows,
                   lives := Mark(s.lives, id, t.k, if moves then Buried(!s.handlers[tag].pc.retryable) else Spent));
      Advance(w, tag,
              if !io.Done? then Settling(true)
              else if moves then FailMarked(t, s.handlers[tag].pc.retryable)
              else Settling(false))
  }

  function DoPublishRetry(s: State, tag: nat, receipt: Receipt): (s': State)
    ensures SameConfig(s, s')
  {
    if tag !in s.handlers || !s.handlers[tag].pc.RetryMarked? then s
    else
      var id, t := s.handlers[tag].message.id, s.handlers[tag].pc.t;
      var w := if receipt.Refused? then s
                else s.(broker := Park(s.broker, Parked(TierForAttempt(t.k), Message(t.channel, id))),
                        lives := Mark(s.lives, id, t.k, Tiered));
      Advance(w, tag, Settling(!receipt.Confirmed?))
  }

  function DoPublishDeadLetter(s: State, tag: nat, receipt: Receipt): (s': State)
    ensures SameConfig(s, s')
  {
    if tag !in s.handlers || !s.handlers[tag].pc.FailMarked? then s
    else
      var id, k := s.handlers[tag].message.id, s.handlers[tag].pc.t.k;
      var w := if receipt.Refused? then s
                else s.(broker := Bury(s.broker, id),
                        lives := Mark(s.lives, id, k, DeadLettered(!s.handlers[tag].pc.retryable)));
      Advance(w, tag, Settling(false))
  }

  // ---- one step, and whole runs ---------------------------------------------------------

  function Next(s: State, a: Action): (s': State)
    ensures SameConfig(s, s')
  {
    match a
    case InsertDrafts(task, drafts, io) => DoInsert(s, task, drafts, io)
    case Cancel(id, now) => s.(rows := UpdateStatus(s.rows, id, Cancelled, AllowedInto(Cancelled), now))
    case MarkQueued(task, now) => DoMarkQueued(s, task, now)
    case SweepDue(task, ids, now) => DoSweepDue(s, task, ids, now)
    case SweepStale(task, ids, now) => DoSweepStale(s, task, ids, now)
    case SweepProcessing(task, ids, now) => DoSweepProcessing(s, task, ids, now)
    case Touch(_, id, now) => s.(rows := TouchQueued(s.rows, id, now))
    case Publish(task, receipt) => DoPublish(s, task, receipt)
    case DropTask(task) => s.(tasks := s.tasks - {task})
    case Fetch(tag, m) => DoFetch(s, tag, m)
    case Expire(p) => DoExpire(s, p)
    case Detach(tag) => DoDetach(s, tag)
    case Crash(tag) => DoCrash(s, tag)
    case Drain(tag) => DoDrain(s, tag)
    case Claim(tag, now, io) => DoClaim(s, tag, now, io)
    case Release(tag, now, io) => DoRelease(s, tag, now, io)
    case Send(tag, result) => DoSend(s, tag, result)
    case RecordSent(tag, providerId, sentAt, now, io) => DoRecordSent(s, tag, providerId, sentAt, now, io)
    case RecordRetry(tag, error, now, io) => DoRecordRetry(s, tag, error, now, io)
    case RecordFailure(tag, error, now, io) => DoRecordFailure(s, tag, error, now, io)
    case PublishRetry(tag, receipt) => DoPublishRetry(s, tag, receipt)
    case PublishDeadLetter(tag, receipt) => DoPublishDeadLetter(s, tag, receipt)
    case Settle(tag) => DoSettle(s, tag)
  }

  function Exec(s: State, run: seq<Action>): State {
    if run == [] then s else Next(Exec(s, run[..|run| - 1]), run[|run| - 1])
  }

  lemma {:induction false} ExecConcat(s: State, first: seq<Action>, second: seq<Action>)
    ensures Exec(s, first + second) == Exec(Exec(s, first), second)
  {
    if second == [] {
      assert first + second == first;
    } else {
      var init := second[..|second| - 1];
      ExecConcat(s, first, init);
      assert (first + second)[..|first + second| - 1] == first + init;
    }
  }

  lemma ExecOne(s: State, a: Action)
    ensures Exec(s, [a]) == Next(s, a)
  {
    assert [a][..0] == [];
  }

  lemma ExecPrefix(s: State, run: seq<Action>, i: nat)
    requires i < |run|
    ensures Exec(s, run[..i + 1]) == Next(Exec(s, run[..i]), run[i])
  {
    assert run[..i + 1][..i] == run[..i];
  }

  lemma ExecSnoc(s: State, run: seq<Action>, a: Action)
    ensures Exec(s, run + [a]) == Next(Exec(s, run), a)
  {
    assert (run + [a])[..|run + [a]| - 1] == run;
  }

  lemma {:induction false} ConfigurationStays(s: State, run: seq<Action>)
    ensures SameConfig(s, Exec(s, run))
  {
    if run != [] { ConfigurationStays(s, run[..|run| - 1]); }
  }

  // ---- what an observer of a run can count, for one notification --------------------------

  datatype Event =
    | ClaimEvent      // a claim statement that took the row
    | SendEvent       // a Send call
    | SuccessEvent    // a Send call that returned success
    | RecoveryEvent   // a stale-processing recovery that hit the row
    | ReleaseEvent    // an interrupted delivery that moved the row back to retrying
    | RetryEvent      // a send failure that moved the row to retrying
    | ParkEvent       // a retry message accepted by a tier
    | StatusEvent     // any change of the stored status

  predicate WorksOn(s: State, tag: nat, id: Id) {
    tag in s.handlers && s.handlers[tag].message.id == id
  }

  predicate Occurs(e: Event, s: State, a: Action, id: Id) {
    match e
    case ClaimEvent =>
      && a.Claim? && WorksOn(s, a.tag, id) && s.handlers[a.tag].pc.Fetched?
      && !a.io.NotRun? && Guarded(s.rows, id, AllowedInto(Processing))
    case SendEvent => a.Send? && WorksOn(s, a.tag, id) && s.handlers[a.tag].pc.Claimed?
    case SuccessEvent => a.Send? && WorksOn(s, a.tag, id) && s.handlers[a.tag].pc.Claimed? && a.result.Success?
    case RecoveryEvent =>
      && a.SweepProcessing? && a.task !in s.tasks && id in a.ids
      && ProcessingSweep(s.rows, a.ids, a.now, s.staleAfter)
    case ReleaseEvent =>
      a.Release? && WorksOn(s, a.tag, id) && s.handlers[a.tag].pc.Claimed? && !a.io.NotRun? && Held(s.rows, id)
    case RetryEvent =>
      && a.RecordRetry? && WorksOn(s, a.tag, id) && s.handlers[a.tag].pc.SendFailed?
      && RetryAllowed(s, s.handlers[a.tag].pc) && !a.io.NotRun? && Held(s.rows, id)
    case ParkEvent =>
      a.PublishRetry? && WorksOn(s, a.tag, id) && s.handlers[a.tag].pc.RetryMarked? && !a.receipt.Refused?
    case StatusEvent =>
      id in s.rows && id in Next(s, a).rows && Next(s, a).rows[id].status != s.rows[id].status
  }

  function Times(e: Event, s: State, run: seq<Action>, id: Id): nat {
    if run == [] then 0
    else
      var init := run[..|run| - 1];
      Times(e, s, init, id) + (if Occurs(e, Exec(s, init), run[|run| - 1], id) then 1 else 0)
  }
}
