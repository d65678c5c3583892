/** Messages are conserved: whatever crashes, redeliveries, expiries and requeues a run has, the
    copies of a message that are around and those that were acknowledged are together exactly
    those that the broker accepted. The same for dead letters.
 */
module Conservation {
  import opened Domain
  import opened Protocol
  import opened Structure
  import opened Ledger

  // The deliveries of a message that the broker still waits for.
  function Outstanding(handlers: map<nat, Handler>, m: Message): set<nat> {
    set tag | tag in handlers && handlers[tag].attached && handlers[tag].message == m
  }

  // Where a message can be: in a work queue, in one of the three tiers, or with a handler.
  function Copies(s: State, m: Message): nat {
    s.broker.work[m]
    + s.broker.tiers[Parked(0, m)] + s.broker.tiers[Parked(1, m)] + s.broker.tiers[Parked(2, m)]
    + |Outstanding(s.handlers, m)|
  }

  // The broker accepts one more copy, for a work queue or a tier.
  predicate Accepts(s: State, a: Action, m: Message) {
    || (a.Publish? && !a.receipt.Refused? && a.task in s.tasks && s.tasks[a.task].todo != []
        && s.tasks[a.task].todo[0] == m)
    || (a.PublishRetry? && !a.receipt.Refused? && a.tag in s.handlers && s.handlers[a.tag].pc.RetryMarked?
        && Message(s.handlers[a.tag].pc.t.channel, s.handlers[a.tag].message.id) == m)
  }

  // A delivery that the broker waits for is acknowledged.
  predicate Acknowledges(s: State, a: Action, m: Message) {
    && a.Settle? && a.tag in s.handlers && s.handlers[a.tag].pc == Settling(false)
    && s.handlers[a.tag].attached && s.handlers[a.tag].message == m
  }

  predicate Buries(s: State, a: Action, id: Id) {
    && a.PublishDeadLetter? && !a.receipt.Refused? && WorksOn(s, a.tag, id) && s.handlers[a.tag].pc.FailMarked?
  }

  function Accepted(s: State, run: seq<Action>, m: Message): nat {
    if run == [] then 0
    else
      var init := run[..|run| - 1];
      Accepted(s, init, m) + One(Accepts(Exec(s, init), run[|run| - 1], m))
  }

  function Acknowledged(s: State, run: seq<Action>, m: Message): nat {
    if run == [] then 0
    else
      var init := run[..|run| - 1];
      Acknowledged(s, init, m) + One(Acknowledges(Exec(s, init), run[|run| - 1], m))
  }

  function Buried(s: State, run: seq<Action>, id: Id): nat {
    if run == [] then 0
    else
      var init := run[..|run| - 1];
      Buried(s, init, id) + One(Buries(Exec(s, init), run[|run| - 1], id))
  }

  // ---- handlers come and go --------------------------------------------------------------------

  lemma HandlerGone(handlers: map<nat, Handler>, tag: nat, m: Message)
    requires tag in handlers
    ensures |Outstanding(handlers - {tag}, m)| + One(handlers[tag].attached && handlers[tag].message == m)
              == |Outstanding(handlers, m)|
  {
    assert Outstanding(handlers - {tag}, m) == Outstanding(handlers, m) - {tag};
  }

  lemma HandlerAdded(handlers: map<nat, Handler>, tag: nat, h: Handler, m: Message)
    requires tag !in handlers
    ensures |Outstanding(handlers[tag := h], m)| == |Outstanding(handlers, m)| + One(h.attached && h.message == m)
  {
    if h.attached && h.message == m {
      assert Outstanding(handlers[tag := h], m) == Outstanding(handlers, m) + {tag};
    } else {
      assert Outstanding(handlers[tag := h], m) == Outstanding(handlers, m);
    }
  }

  lemma HandlerSet(handlers: map<nat, Handler>, tag: nat, h: Handler, m: Message)
    ensures |Outstanding(handlers[tag := h], m)|
              + One(tag in handlers && handlers[tag].attached && handlers[tag].message == m)
              == |Outstanding(handlers, m)| + One(h.attached && h.message == m)
  {
    if tag in handlers {
      HandlerGone(handlers, tag, m);
    } else {
      assert handlers - {tag} == handlers;
    }
    HandlerAdded(handlers - {tag}, tag, h, m);
    assert (handlers - {tag})[tag := h] == handlers[tag := h];
  }

  // ---- one step ----------------------------------------------------------------------------------

  ghost predicate Balances(s: State, a: Action, m: Message) {
    Copies(Next(s, a), m) + One(Acknowledges(s, a, m)) == Copies(s, m) + One(Accepts(s, a, m))
  }

  ghost predicate ThreeTiers(s: State) {
    forall p :: p in s.broker.tiers ==> p.tier < 3
  }

  lemma ProducersBalance(s: State, a: Action, m: Message)
    requires !WorkerAction(a) && !BrokerAction(a)
    ensures Balances(s, a, m) && (ThreeTiers(s) ==> ThreeTiers(Next(s, a)))
  {
  }

  lemma FetchBalances(s: State, tag: nat, other: Message, m: Message)
    ensures Balances(s, Fetch(tag, other), m)
  {
    HandlerSet(s.handlers, tag, Handler(other, true, Fetched), m);
  }

  lemma ExpireBalances(s: State, p: Parked, m: Message)
    requires ThreeTiers(s)
    ensures Balances(s, Expire(p), m) && ThreeTiers(Next(s, Expire(p)))
  {
    if p in s.broker.tiers {
      OneParkedLess(s.broker.tiers, p, m);
      assert Next(s, Expire(p)).broker.tiers == s.broker.tiers - multiset{p};
      assert Next(s, Expire(p)).broker.work == s.broker.work + multiset{p.message};
    }
  }

  lemma OneParkedLess(tiers: multiset<Parked>, p: Parked, m: Message)
    requires p in tiers && p.tier < 3
    ensures var rest := tiers - multiset{p};
            rest[Parked(0, m)] + rest[Parked(1, m)] + rest[Parked(2, m)] + One(p.message == m)
              == tiers[Parked(0, m)] + tiers[Parked(1, m)] + tiers[Parked(2, m)]
  {
    assert p == Parked(p.tier, p.message);
  }

  lemma DetachBalances(s: State, tag: nat, m: Message)
    ensures Balances(s, Detach(tag), m)
  {
    if tag in s.handlers { HandlerSet(s.handlers, tag, s.handlers[tag].(attached := false), m); }
  }

  lemma CrashBalances(s: State, tag: nat, m: Message)
    ensures Balances(s, Crash(tag), m) && Balances(s, Drain(tag), m)
  {
    if tag in s.handlers { HandlerGone(s.handlers, tag, m); }
  }

  lemma SettleBalances(s: State, tag: nat, m: Message)
    ensures Balances(s, Settle(tag), m)
  {
    if tag in s.handlers { HandlerGone(s.handlers, tag, m); }
  }

  lemma ReturnsBalance(s: State, a: Action, m: Message)
    requires a.Detach? || a.Crash? || a.Drain? || a.Settle?
    ensures Balances(s, a, m)
  {
    match a
    case Detach(tag) => DetachBalances(s, tag, m);
    case Crash(tag) => CrashBalances(s, tag, m);
    case Drain(tag) => CrashBalances(s, tag, m);
    case Settle(tag) => SettleBalances(s, tag, m);
  }

  lemma WorkersBalance(s: State, a: Action, m: Message)
    requires WorkerAction(a)
    ensures Balances(s, a, m) && (ThreeTiers(s) ==> ThreeTiers(Next(s, a)))
  {
    WorkersKeepDeliveries(s, a, m);
    if a.PublishRetry? {
      ParkBalances(s, a.tag, a.receipt, m);
    } else {
      OnlyRetriesPark(s, a);
    }
  }

  lemma WorkersKeepDeliveries(s: State, a: Action, m: Message)
    requires WorkerAction(a)
    ensures Outstanding(Next(s, a).handlers, m) == Outstanding(s.handlers, m)
  {
    WorkersAddNoHandler(s, a);
    forall tag | tag in s.handlers
      ensures tag in Outstanding(Next(s, a).handlers, m) <==> tag in Outstanding(s.handlers, m)
    {
      if tag == a.tag { WorkersKeepTheirDelivery(s, a); } else { WorkersMindTheirOwn(s, a, tag); }
    }
  }

  lemma WorkersAddNoHandler(s: State, a: Action)
    requires WorkerAction(a)
    ensures Next(s, a).handlers.Keys == s.handlers.Keys
  {
  }

  lemma WorkersKeepTheirDelivery(s: State, a: Action)
    requires WorkerAction(a) && a.tag in s.handlers && a.tag in Next(s, a).handlers
    ensures Next(s, a).handlers[a.tag].message == s.handlers[a.tag].message
    ensures Next(s, a).handlers[a.tag].attached == s.handlers[a.tag].attached
  {
  }

  lemma OnlyRetriesPark(s: State, a: Action)
    requires WorkerAction(a) && !a.PublishRetry?
    ensures Next(s, a).broker.work == s.broker.work && Next(s, a).broker.tiers == s.broker.tiers
  {
  }

  lemma ParkBalances(s: State, tag: nat, receipt: Receipt, m: Message)
    requires Outstanding(Next(s, PublishRetry(tag, receipt)).handlers, m) == Outstanding(s.handlers, m)
    ensures Balances(s, PublishRetry(tag, receipt), m)
    ensures ThreeTiers(s) ==> ThreeTiers(Next(s, PublishRetry(tag, receipt)))
  {
  }

  lemma StepBalances(s: State, a: Action, m: Message)
    requires ThreeTiers(s)
    ensures Balances(s, a, m) && ThreeTiers(Next(s, a))
  {
    if WorkerAction(a) {
      WorkersBalance(s, a, m);
    } else if a.Fetch? {
      FetchBalances(s, a.tag, a.message, m);
    } else if a.Expire? {
      ExpireBalances(s, a.parked, m);
    } else if BrokerAction(a) {
      ReturnsBalance(s, a, m);
    } else {
      ProducersBalance(s, a, m);
    }
  }

  /** Over any run, the copies of a message that are around, and those that were acknowledged, are
      together exactly those that the broker accepted: a crash, a lost channel, a requeue or an
      expiry loses none and adds none. */
  lemma {:induction false} MessagesAreConserved(maxAttempts: int, staleAfter: Time, run: seq<Action>, m: Message)
    ensures var s0 := Init(maxAttempts, staleAfter);
            && Copies(Exec(s0, run), m) + Acknowledged(s0, run, m) == Accepted(s0, run, m)
            && ThreeTiers(Exec(s0, run))
  {
    if run != [] {
      var init := run[..|run| - 1];
      MessagesAreConserved(maxAttempts, staleAfter, init, m);
      StepBalances(Exec(Init(maxAttempts, staleAfter), init), run[|run| - 1], m);
    }
  }

  lemma StepBuries(s: State, a: Action, id: Id)
    ensures Next(s, a).broker.dead[id] == s.broker.dead[id] + One(Buries(s, a, id))
  {
  }

  /** And there are as many dead letters as the broker accepted. */
  lemma {:induction false} DeadLettersAreConserved(maxAttempts: int, staleAfter: Time, run: seq<Action>, id: Id)
    ensures var s0 := Init(maxAttempts, staleAfter); Exec(s0, run).broker.dead[id] == Buried(s0, run, id)
  {
    if run != [] {
      var init := run[..|run| - 1];
      DeadLettersAreConserved(maxAttempts, staleAfter, init, id);
      StepBuries(Exec(Init(maxAttempts, staleAfter), init), run[|run| - 1], id);
    }
  }
}
