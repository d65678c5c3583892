/** What the pieces of a deployment have to do with each other: every message names a row
    of its own channel, every handler that claimed a row owns that claim's ledger entry,
    and no claim is owned twice.
 */
module Structure {
  import opened Domain
  import opened Statements
  import opened Protocol

  type Lives = map<Id, Life>
  type Handlers = map<nat, Handler>
  type Tasks = map<nat, Task>

  // A message names an existing row, and sits under that row's own channel.
  predicate Routed(rows: Rows, m: Message) {
    m.id in rows && rows[m.id].channel == m.channel
  }

  predicate HasTicket(pc: Pc) {
    !pc.Fetched? && !pc.Settling?
  }

  // The ledger entry that a handler at this point of the code must own.
  predicate Matches(pc: Pc, phase: Phase) {
    match pc
    case Claimed(_) => phase == Open
    case SendOk(_) => phase == Delivered(true)
    case SendFailed(_, retryable) => phase == Faulted(retryable)
    case RetryMarked(_) => phase == Retried
    case FailMarked(_, retryable) => phase == Buried(!retryable)
    case Fetched => false
    case Settling(_) => false
  }

  predicate HandlerOk(rows: Rows, lives: Lives, h: Handler) {
    && Routed(rows, h.message)
    && (HasTicket(h.pc) ==>
          && h.pc.t.channel == h.message.channel
          && 1 <= h.pc.t.k <= |LifeOf(lives, h.message.id).ledger|
          && Matches(h.pc, LifeOf(lives, h.message.id).ledger[h.pc.t.k - 1]))
  }

  ghost predicate HandlersOk(rows: Rows, lives: Lives, handlers: Handlers) {
    forall tag :: tag in handlers ==> HandlerOk(rows, lives, handlers[tag])
  }

  // Two handlers holding the same claim of the same row.
  predicate Clash(g: Handler, h: Handler) {
    g.message.id == h.message.id && HasTicket(g.pc) && HasTicket(h.pc) && g.pc.t.k == h.pc.t.k
  }

  ghost predicate Separate(handlers: Handlers) {
    forall i, j :: i in handlers && j in handlers && i != j ==> !Clash(handlers[i], handlers[j])
  }

  ghost predicate TodoOk(rows: Rows, todo: seq<Message>) {
    forall m :: m in todo ==> Routed(rows, m)
  }

  ghost predicate MessagesOk(rows: Rows, broker: Broker, tasks: Tasks) {
    && (forall m :: m in broker.work ==> Routed(rows, m))
    && (forall p :: p in broker.tiers ==> Routed(rows, p.message) && p.tier < |RETRY_TIERS|)
    && (forall task :: task in tasks ==> TodoOk(rows, tasks[task].todo))
  }

  // Each claim has one ledger entry.
  ghost predicate LedgersOk(rows: Rows, lives: Lives) {
    && lives.Keys <= rows.Keys
    && forall id :: id in rows ==> |LifeOf(lives, id).ledger| == rows[id].attempts
  }

  ghost predicate Shape(s: State) {
    && LedgersOk(s.rows, s.lives)
    && HandlersOk(s.rows, s.lives, s.handlers)
    && Separate(s.handlers)
    && MessagesOk(s.rows, s.broker, s.tasks)
  }

  // ---- frames ---------------------------------------------------------------------

  // Rows survive with their channels, ledgers unchanged.
  ghost predicate Extends(rows: Rows, lives: Lives, rows': Rows, lives': Lives) {
    && (forall id :: id in rows ==> id in rows' && rows'[id].channel == rows[id].channel)
    && (forall id :: id in rows ==> LifeOf(lives', id).ledger == LifeOf(lives, id).ledger)
  }

  lemma ExtendsKeeps(rows: Rows, lives: Lives, rows': Rows, lives': Lives, handlers: Handlers, broker: Broker,
        tasks: Tasks)
    requires Extends(rows, lives, rows', lives')
    requires HandlersOk(rows, lives, handlers) && MessagesOk(rows, broker, tasks)
    ensures HandlersOk(rows', lives', handlers) && MessagesOk(rows', broker, tasks)
  {
    forall task | task in tasks ensures TodoOk(rows', tasks[task].todo) {
      assert TodoOk(rows, tasks[task].todo);
    }
    forall tag | tag in handlers ensures HandlerOk(rows', lives', handlers[tag]) {
      assert HandlerOk(rows, lives, handlers[tag]);
    }
  }

  // ---- one handler ------------------------------------------------------------------

  lemma OwnEntry(rows: Rows, lives: Lives, handlers: Handlers, tag: nat, n': Notification, phase: Phase, pc': Pc)
    requires HandlersOk(rows, lives, handlers) && Separate(handlers)
    requires tag in handlers && HasTicket(handlers[tag].pc)
    requires n'.channel == rows[handlers[tag].message.id].channel
    requires HasTicket(pc') ==> pc'.t == handlers[tag].pc.t && Matches(pc', phase)
    ensures var id, k := handlers[tag].message.id, handlers[tag].pc.t.k;
            var handlers' := handlers[tag := handlers[tag].(pc := pc')];
            HandlersOk(rows[id := n'], Mark(lives, id, k, phase), handlers') && Separate(handlers')
  {
    var h := handlers[tag];
    var id, k := h.message.id, h.pc.t.k;
    var handlers' := handlers[tag := h.(pc := pc')];
    assert HandlerOk(rows, lives, h);
    forall other | other in handlers' ensures HandlerOk(rows[id := n'], Mark(lives, id, k, phase), handlers'[other]) {
      if other != tag {
        assert HandlerOk(rows, lives, handlers[other]) && !Clash(handlers[other], h);
      }
    }
    forall i, j | i in handlers' && j in handlers' && i != j ensures !Clash(handlers'[i], handlers'[j]) {
      assert !Clash(handlers[i], handlers[j]);
    }
  }

  // A handler that owns a claim moves on, writing its ledger entry and maybe the row.
  lemma TicketStep(s: State, tag: nat, n': Notification, phase: Phase, pc': Pc)
    requires Shape(s) && tag in s.handlers && HasTicket(s.handlers[tag].pc)
    requires var n := s.rows[s.handlers[tag].message.id]; n'.channel == n.channel && n'.attempts == n.attempts
    requires HasTicket(pc') ==> pc'.t == s.handlers[tag].pc.t && Matches(pc', phase)
    ensures var id, k := s.handlers[tag].message.id, s.handlers[tag].pc.t.k;
            Shape(Advance(s.(rows := s.rows[id := n'], lives := Mark(s.lives, id, k, phase)), tag, pc'))
  {
    var id, k := s.handlers[tag].message.id, s.handlers[tag].pc.t.k;
    assert HandlerOk(s.rows, s.lives, s.handlers[tag]);
    OwnEntry(s.rows, s.lives, s.handlers, tag, n', phase, pc');
    MessagesFrame(s.rows, s.rows[id := n'], s.broker, s.tasks);
  }

  // The same when the row stays as it is.
  lemma PhaseOnly(s: State, tag: nat, phase: Phase, pc': Pc)
    requires Shape(s) && tag in s.handlers && HasTicket(s.handlers[tag].pc)
    requires HasTicket(pc') ==> pc'.t == s.handlers[tag].pc.t && Matches(pc', phase)
    ensures var id, k := s.handlers[tag].message.id, s.handlers[tag].pc.t.k;
            Shape(Advance(s.(lives := Mark(s.lives, id, k, phase)), tag, pc'))
  {
    var id := s.handlers[tag].message.id;
    assert HandlerOk(s.rows, s.lives, s.handlers[tag]);
    assert s.rows[id := s.rows[id]] == s.rows;
    TicketStep(s, tag, s.rows[id], phase, pc');
  }

  lemma MessagesFrame(rows: Rows, rows': Rows, broker: Broker, tasks: Tasks)
    requires MessagesOk(rows, broker, tasks)
    requires forall id :: id in rows ==> id in rows' && rows'[id].channel == rows[id].channel
    ensures MessagesOk(rows', broker, tasks)
  {
    forall task | task in tasks ensures TodoOk(rows', tasks[task].todo) {
      assert TodoOk(rows, tasks[task].todo);
    }
  }

  lemma SettlingStep(s: State, tag: nat, requeue: bool)
    requires Shape(s) && tag in s.handlers
    ensures Shape(Advance(s, tag, Settling(requeue)))
  {
    var s' := Advance(s, tag, Settling(requeue));
    assert HandlerOk(s.rows, s.lives, s.handlers[tag]);
    forall i, j | i in s'.handlers && j in s'.handlers && i != j ensures !Clash(s'.handlers[i], s'.handlers[j]) {
      assert !Clash(s.handlers[i], s.handlers[j]);
    }
  }

  lemma ClaimStep(s: State, tag: nat, now: Time, pc': Pc)
    requires Shape(s) && tag in s.handlers && s.handlers[tag].pc.Fetched?
    requires var n := s.rows[s.handlers[tag].message.id];
             pc'.Settling? || pc' == Claimed(Ticket(n.attempts + 1, n.channel))
    ensures var id := s.handlers[tag].message.id;
            Shape(Advance(s.(rows := s.rows[id := ClaimedRow(s.rows[id], now)], lives := NewClaim(s.lives, id)),
                          tag, pc'))
  {
    var id := s.handlers[tag].message.id;
    var s' := Advance(s.(rows := s.rows[id := ClaimedRow(s.rows[id], now)], lives := NewClaim(s.lives, id)), tag, pc');
    assert HandlerOk(s.rows, s.lives, s.handlers[tag]);
    forall other | other in s'.handlers ensures HandlerOk(s'.rows, s'.lives, s'.handlers[other]) {
      assert HandlerOk(s.rows, s.lives, s.handlers[other]);
    }
    NewestClaim(s, tag, pc');
    MessagesFrame(s.rows, s'.rows, s.broker, s.tasks);
  }

  // The claim just made is newer than any that another handler holds.
  lemma NewestClaim(s: State, tag: nat, pc': Pc)
    requires LedgersOk(s.rows, s.lives) && HandlersOk(s.rows, s.lives, s.handlers) && Separate(s.handlers)
    requires tag in s.handlers && HandlerOk(s.rows, s.lives, s.handlers[tag])
    requires pc'.Settling? || (pc'.Claimed? && pc'.t.k == s.rows[s.handlers[tag].message.id].attempts + 1)
    ensures Separate(s.handlers[tag := s.handlers[tag].(pc := pc')])
  {
    var handlers' := s.handlers[tag := s.handlers[tag].(pc := pc')];
    forall i, j | i in handlers' && j in handlers' && i != j ensures !Clash(handlers'[i], handlers'[j]) {
      assert HandlerOk(s.rows, s.lives, s.handlers[i]) && HandlerOk(s.rows, s.lives, s.handlers[j]);
      assert !Clash(s.handlers[i], s.handlers[j]);
    }
  }

  lemma ClaimKeeps(s: State, tag: nat, now: Time, io: Io)
    requires Shape(s)
    ensures Shape(DoClaim(s, tag, now, io))
  {
    if tag in s.handlers && s.handlers[tag].pc.Fetched? {
      assert HandlerOk(s.rows, s.lives, s.handlers[tag]);
      var n := s.rows[s.handlers[tag].message.id];
      SettlingStep(s, tag, io.NotRun? || io.LostReply?);
      ClaimStep(s, tag, now, if io.Done? then Claimed(Ticket(n.attempts + 1, n.channel)) else Settling(true));
    }
  }

  lemma ReleaseKeeps(s: State, tag: nat, now: Time, io: Io)
    requires Shape(s)
    ensures Shape(DoRelease(s, tag, now, io))
  {
    if tag in s.handlers && s.handlers[tag].pc.Claimed? {
      assert HandlerOk(s.rows, s.lives, s.handlers[tag]);
      var n := s.rows[s.handlers[tag].message.id];
      if !io.NotRun? && n.status == Processing {
        TicketStep(s, tag, OutcomeRow(n, Retrying, INTERRUPTED, now), Released, Settling(true));
      } else {
        PhaseOnly(s, tag, Dropped, Settling(true));
      }
    }
  }

  lemma SendKeeps(s: State, tag: nat, result: SendResult)
    requires Shape(s)
    ensures Shape(DoSend(s, tag, result))
  {
    if tag in s.handlers && s.handlers[tag].pc.Claimed? {
      assert HandlerOk(s.rows, s.lives, s.handlers[tag]);
      var t := s.handlers[tag].pc.t;
      match result
      case Success => PhaseOnly(s, tag, Delivered(true), SendOk(t));
      case Retryable => PhaseOnly(s, tag, Faulted(true), SendFailed(t, true));
      case Permanent => PhaseOnly(s, tag, Faulted(false), SendFailed(t, false));
    }
  }

  lemma RecordSentKeeps(s: State, tag: nat, providerId: string, sentAt: Time, now: Time, io: Io)
    requires Shape(s)
    ensures Shape(DoRecordSent(s, tag, providerId, sentAt, now, io))
  {
    if tag in s.handlers && s.handlers[tag].pc.SendOk? {
      assert HandlerOk(s.rows, s.lives, s.handlers[tag]);
      var n := s.rows[s.handlers[tag].message.id];
      if !io.NotRun? && n.status == Processing {
        TicketStep(s, tag, SentRow(n, providerId, sentAt, now), Delivered(false), Settling(!io.Done?));
      } else {
        PhaseOnly(s, tag, Delivered(false), Settling(!io.Done?));
      }
    }
  }

  lemma RecordRetryKeeps(s: State, tag: nat, error: string, now: Time, io: Io)
    requires Shape(s)
    ensures Shape(DoRecordRetry(s, tag, error, now, io))
  {
    if tag in s.handlers && s.handlers[tag].pc.SendFailed? {
      assert HandlerOk(s.rows, s.lives, s.handlers[tag]);
      var n, t := s.rows[s.handlers[tag].message.id], s.handlers[tag].pc.t;
      if !io.NotRun? && n.status == Processing {
        TicketStep(s, tag, OutcomeRow(n, Retrying, error, now), Retried,
                   if io.Done? then RetryMarked(t) else Settling(true));
      } else {
        PhaseOnly(s, tag, Spent, Settling(!io.Done?));
      }
    }
  }

  lemma RecordFailureKeeps(s: State, tag: nat, error: string, now: Time, io: Io)
    requires Shape(s)
    ensures Shape(DoRecordFailure(s, tag, error, now, io))
  {
    if tag in s.handlers && s.handlers[tag].pc.SendFailed? {
      assert HandlerOk(s.rows, s.lives, s.handlers[tag]);
      var n, pc := s.rows[s.handlers[tag].message.id], s.handlers[tag].pc;
      if !io.NotRun? && Held(s.rows, s.handlers[tag].message.id) {
        TicketStep(s, tag, OutcomeRow(n, Failed, error, now), Buried(!pc.retryable),
                   if io.Done? then FailMarked(pc.t, pc.retryable) else Settling(true));
      } else {
        PhaseOnly(s, tag, Spent, Settling(!io.Done?));
      }
    }
  }

  lemma PublishRetryKeeps(s: State, tag: nat, receipt: Receipt)
    requires Shape(s)
    ensures Shape(DoPublishRetry(s, tag, receipt))
  {
    if tag in s.handlers && s.handlers[tag].pc.RetryMarked? {
      assert HandlerOk(s.rows, s.lives, s.handlers[tag]);
      SettlingStep(s, tag, true);
      PhaseOnly(s, tag, Tiered, Settling(!receipt.Confirmed?));
    }
  }

  lemma BrokerFrame(s: State, broker': Broker)
    requires Shape(s) && MessagesOk(s.rows, broker', s.tasks)
    ensures Shape(s.(broker := broker'))
  {
  }

  lemma PublishDeadLetterKeeps(s: State, tag: nat, receipt: Receipt)
    requires Shape(s)
    ensures Shape(DoPublishDeadLetter(s, tag, receipt))
  {
    if tag in s.handlers && s.handlers[tag].pc.FailMarked? {
      if receipt.Refused? {
        SettlingStep(s, tag, false);
      } else {
        var id := s.handlers[tag].message.id;
        var s1 := s.(broker := Bury(s.broker, id));
        BrokerFrame(s, s1.broker);
        PhaseOnly(s1, tag, DeadLettered(!s.handlers[tag].pc.retryable), Settling(false));
      }
    }
  }

  // ---- broker -----------------------------------------------------------------------

  // A handler goes away, or is cut off from the broker; its message may return to the queue.
  lemma ReturnKeeps(s: State, tag: nat, broker': Broker)
    requires Shape(s) && tag in s.handlers
    requires broker' == s.broker || broker' == Enqueue(s.broker, s.handlers[tag].message)
    ensures Shape(s.(broker := broker', handlers := s.handlers - {tag}))
    ensures Shape(s.(broker := broker', handlers := s.handlers[tag := s.handlers[tag].(attached := false)]))
  {
    assert HandlerOk(s.rows, s.lives, s.handlers[tag]);
    BrokerFrame(s, broker');
    CutOffKeeps(s.(broker := broker'), tag);
  }

  lemma CutOffKeeps(s: State, tag: nat)
    requires Shape(s) && tag in s.handlers
    ensures Shape(s.(handlers := s.handlers - {tag}))
    ensures Shape(s.(handlers := s.handlers[tag := s.handlers[tag].(attached := false)]))
  {
    assert HandlerOk(s.rows, s.lives, s.handlers[tag]);
    forall i, j | i in s.handlers && j in s.handlers && i != j
      ensures !Clash(s.handlers[i].(attached := false), s.handlers[j])
      ensures !Clash(s.handlers[i], s.handlers[j].(attached := false))
    {
      assert !Clash(s.handlers[i], s.handlers[j]);
    }
  }

  lemma FetchKeeps(s: State, tag: nat, m: Message)
    requires Shape(s)
    ensures Shape(DoFetch(s, tag, m))
  {
    if tag !in s.handlers && m in s.broker.work {
      var s' := DoFetch(s, tag, m);
      forall i, j | i in s'.handlers && j in s'.handlers && i != j ensures !Clash(s'.handlers[i], s'.handlers[j]) {
        if i in s.handlers && j in s.handlers { assert !Clash(s.handlers[i], s.handlers[j]); }
      }
    }
  }

  lemma CrashKeeps(s: State, tag: nat)
    requires Shape(s)
    ensures Shape(DoCrash(s, tag)) && Shape(DoDetach(s, tag)) && Shape(DoSettle(s, tag))
  {
    if tag in s.handlers {
      ReturnKeeps(s, tag, Returned(s.broker, s.handlers[tag]));
      ReturnKeeps(s, tag, s.broker);
      assert s.(broker := s.broker) == s;
    }
  }

  lemma ExpireKeeps(s: State, p: Parked)
    requires Shape(s)
    ensures Shape(DoExpire(s, p))
  {
  }

  // ---- statements over the table and publishing tasks ----------------------------------

  lemma {:induction false} PendingMessagesRouted(drafts: seq<Draft>, rows: Rows)
    requires forall d :: d in drafts ==> Routed(rows, Message(d.notification.channel, d.id))
    ensures TodoOk(rows, PendingMessages(drafts))
  {
    if drafts != [] { PendingMessagesRouted(drafts[1..], rows); }
  }

  // A step that changes rows, tasks and the queue, but no handler and no ledger.
  lemma TableStep(s: State, s': State)
    requires Shape(s) && s'.handlers == s.handlers && s'.broker.tiers == s.broker.tiers
    requires s'.lives.Keys <= s'.rows.Keys && Extends(s.rows, s.lives, s'.rows, s'.lives)
    requires forall id :: id in s'.rows ==> |LifeOf(s'.lives, id).ledger| == s'.rows[id].attempts
    requires forall task :: task in s'.tasks ==>
               (task in s.tasks && s'.tasks[task] == s.tasks[task]) || TodoOk(s'.rows, s'.tasks[task].todo)
    requires forall m :: m in s'.broker.work ==> m in s.broker.work || Routed(s'.rows, m)
    ensures Shape(s')
  {
    ExtendsKeeps(s.rows, s.lives, s'.rows, s'.lives, s.handlers, s.broker, s.tasks);
  }

  lemma InsertKeeps(s: State, task: nat, drafts: seq<Draft>, io: Io)
    requires Shape(s)
    ensures Shape(DoInsert(s, task, drafts, io))
  {
    if !(task in s.tasks || io.NotRun? || !Insertable(s.rows, drafts)) {
      DraftRowsAt(drafts);
      var s' := DoInsert(s, task, drafts, io);
      PendingMessagesRouted(drafts, s'.rows);
      TableStep(s, s');
    }
  }

  lemma SweepDueKeeps(s: State, task: nat, ids: seq<Id>, now: Time)
    requires Shape(s)
    ensures Shape(DoSweepDue(s, task, ids, now))
  {
    if task !in s.tasks && DueSweep(s.rows, ids, now, s.staleAfter) {
      assert TodoOk(s.rows, MessagesFor(s.rows, ids));
      TableStep(s, DoSweepDue(s, task, ids, now));
    }
  }

  lemma SweepStaleKeeps(s: State, task: nat, ids: seq<Id>, now: Time)
    requires Shape(s)
    ensures Shape(DoSweepStale(s, task, ids, now))
  {
    if task !in s.tasks && QueuedSweep(s.rows, ids, now, s.staleAfter) {
      assert TodoOk(s.rows, MessagesFor(s.rows, ids));
      TableStep(s, DoSweepStale(s, task, ids, now));
    }
  }

  lemma SweepProcessingKeeps(s: State, task: nat, ids: seq<Id>, now: Time)
    requires Shape(s)
    ensures Shape(DoSweepProcessing(s, task, ids, now))
  {
    if task !in s.tasks && ProcessingSweep(s.rows, ids, now, s.staleAfter) {
      assert TodoOk(s.rows, MessagesFor(s.rows, ids));
      var rows', lives' := RecoverStaleProcessing(s.rows, ids, now), Recoveries(s.rows, s.lives, ids);
      RecoveryExtends(s.rows, s.lives, ids, now);
      var s1 := s.(rows := rows', lives := lives');
      TableStep(s, s1);
      TaskStartKeeps(s1, task, Task(TaskKind.Recovered, MessagesFor(s.rows, ids), []));
    }
  }

  lemma RecoveryExtends(rows: Rows, lives: Lives, ids: seq<Id>, now: Time)
    requires LedgersOk(rows, lives)
    ensures var rows', lives' := RecoverStaleProcessing(rows, ids, now), Recoveries(rows, lives, ids);
            Extends(rows, lives, rows', lives') && LedgersOk(rows', lives')
  {
  }

  lemma TaskStartKeeps(s: State, task: nat, t: Task)
    requires Shape(s) && TodoOk(s.rows, t.todo)
    ensures Shape(s.(tasks := s.tasks[task := t]))
  {
    TableStep(s, s.(tasks := s.tasks[task := t]));
  }

  lemma PublishKeeps(s: State, task: nat, receipt: Receipt)
    requires Shape(s)
    ensures Shape(DoPublish(s, task, receipt))
  {
    if task in s.tasks && s.tasks[task].todo != [] {
      var todo := s.tasks[task].todo;
      assert TodoOk(s.rows, todo) && todo[0] in todo;
      assert TodoOk(s.rows, todo[1..]);
      TableStep(s, DoPublish(s, task, receipt));
    }
  }

  lemma RowWriteKeeps(s: State, rows': Rows)
    requires Shape(s)
    requires forall id :: id in s.rows ==> id in rows' && rows'[id].channel == s.rows[id].channel
    requires forall id :: id in rows' ==> id in s.rows && rows'[id].attempts == s.rows[id].attempts
    ensures Shape(s.(rows := rows'))
  {
    TableStep(s, s.(rows := rows'));
  }

  lemma TaskEndKeeps(s: State, task: nat)
    requires Shape(s)
    ensures Shape(s.(tasks := s.tasks - {task}))
  {
    TableStep(s, s.(tasks := s.tasks - {task}));
  }

  lemma MarkQueuedKeeps(s: State, task: nat, now: Time)
    requires Shape(s)
    ensures Shape(DoMarkQueued(s, task, now))
  {
    if task in s.tasks && s.tasks[task].kind.Created? {
      var rows' := MarkQueuedBulk(s.rows, s.tasks[task].confirmed, now);
      RowWriteKeeps(s, rows');
      TaskEndKeeps(s.(rows := rows'), task);
    }
  }

  predicate WorkerAction(a: Action) {
    || a.Claim? || a.Release? || a.Send? || a.RecordSent? || a.RecordRetry? || a.RecordFailure?
    || a.PublishRetry? || a.PublishDeadLetter?
  }

  lemma WorkerKeeps(s: State, a: Action)
    requires Shape(s) && WorkerAction(a)
    ensures Shape(Next(s, a))
  {
    if a.Claim? || a.Release? || a.Send? { DeliveryKeeps(s, a); } else { OutcomeKeeps(s, a); }
  }

  lemma DeliveryKeeps(s: State, a: Action)
    requires Shape(s) && (a.Claim? || a.Release? || a.Send?)
    ensures Shape(Next(s, a))
  {
    match a
    case Claim(tag, now, io) => ClaimKeeps(s, tag, now, io);
    case Release(tag, now, io) => ReleaseKeeps(s, tag, now, io);
    case Send(tag, result) => SendKeeps(s, tag, result);
  }

  lemma OutcomeKeeps(s: State, a: Action)
    requires Shape(s) && WorkerAction(a) && !(a.Claim? || a.Release? || a.Send?)
    ensures Shape(Next(s, a))
  {
    match a
    case RecordSent(tag, providerId, sentAt, now, io) => RecordSentKeeps(s, tag, providerId, sentAt, now, io);
    case RecordRetry(tag, error, now, io) => RecordRetryKeeps(s, tag, error, now, io);
    case RecordFailure(tag, error, now, io) => RecordFailureKeeps(s, tag, error, now, io);
    case PublishRetry(tag, receipt) => PublishRetryKeeps(s, tag, receipt);
    case PublishDeadLetter(tag, receipt) => PublishDeadLetterKeeps(s, tag, receipt);
  }

  predicate BrokerAction(a: Action) {
    a.Fetch? || a.Expire? || a.Detach? || a.Crash? || a.Drain? || a.Settle?
  }

  lemma BrokerKeeps(s: State, a: Action)
    requires Shape(s) && BrokerAction(a)
    ensures Shape(Next(s, a))
  {
    match a
    case Fetch(tag, m) => FetchKeeps(s, tag, m);
    case Expire(p) => ExpireKeeps(s, p);
    case Detach(_) => HandlerEndKeeps(s, a);
    case Crash(_) => HandlerEndKeeps(s, a);
    case Drain(_) => HandlerEndKeeps(s, a);
    case Settle(_) => HandlerEndKeeps(s, a);
  }

  lemma HandlerEndKeeps(s: State, a: Action)
    requires Shape(s) && (a.Detach? || a.Crash? || a.Drain? || a.Settle?)
    ensures Shape(Next(s, a))
  {
    CrashKeeps(s, a.tag);
  }

  lemma ProducerKeeps(s: State, a: Action)
    requires Shape(s) && !BrokerAction(a) && !WorkerAction(a)
    ensures Shape(Next(s, a))
  {
    match a
    case InsertDrafts(task, drafts, io) => InsertKeeps(s, task, drafts, io);
    case Cancel(id, now) => RowWriteKeeps(s, UpdateStatus(s.rows, id, Cancelled, AllowedInto(Cancelled), now));
    case Touch(_, id, now) => RowWriteKeeps(s, TouchQueued(s.rows, id, now));
    case MarkQueued(task, now) => MarkQueuedKeeps(s, task, now);
    case DropTask(task) => TaskEndKeeps(s, task);
    case Publish(task, receipt) => PublishKeeps(s, task, receipt);
    case SweepDue(task, ids, now) => SweepDueKeeps(s, task, ids, now);
    case SweepStale(task, ids, now) => SweepStaleKeeps(s, task, ids, now);
    case SweepProcessing(task, ids, now) => SweepProcessingKeeps(s, task, ids, now);
  }

  lemma NextKeeps(s: State, a: Action)
    requires Shape(s)
    ensures Shape(Next(s, a))
  {
    if BrokerAction(a) {
      BrokerKeeps(s, a);
    } else if WorkerAction(a) {
      WorkerKeeps(s, a);
    } else {
      ProducerKeeps(s, a);
    }
  }

  lemma WorkersMindTheirOwn(s: State, a: Action, tag: nat)
    requires WorkerAction(a) && tag in s.handlers && a.tag != tag
    ensures tag in Next(s, a).handlers && Next(s, a).handlers[tag] == s.handlers[tag]
  {
  }
}
