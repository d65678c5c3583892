/** One supervised subscription: the pool of handlers that share its deliveries channel, and
    the supervisor that cancels it on pause or shutdown. Every interleaving is a sequence of
    steps; a step that is not possible leaves the state unchanged.
 */
module Consumer {
  import opened Domain

  // Delivery tags are unique on a channel. The body either names a notification or does not parse.
  datatype Delivery = Delivery(tag: nat, notificationId: Option<Id>)

  datatype Settlement = Ack | Requeue | Drop

  datatype Settled = Settled(delivery: Delivery, how: Settlement)

  // A handler has taken a delivery and not yet looked at the draining flag, or is inside
  // handleDelivery, or has left its loop.
  datatype Handler = Idle | Holding(delivery: Delivery) | Handling(delivery: Delivery) | Exited

  datatype Supervisor = Watching | Waiting | Returned(failed: bool)

  datatype Pool = Pool(
    buffered: seq<Delivery>,
    open: bool,
    draining: bool,
    cancelRequested: bool,
    handlers: seq<Handler>,
    supervisor: Supervisor,
    // what the broker has seen: deliveries pushed, taken by a handler, and settled, in order
    pushed: seq<Delivery>,
    taken: seq<Delivery>,
    settled: seq<Settled>)

  function Start(concurrency: nat): Pool {
    Pool([], true, false, false, seq(concurrency, _ => Idle), Watching, [], [], [])
  }

  datatype Step =
    | Push(delivery: Delivery)
    | Close                      // after the cancel, or by the broker at any time
    | Take(h: nat)
    | CheckDraining(h: nat)
    | Finish(h: nat, ok: bool)   // processNotification returned nil, or an error
    | Leave(h: nat)
    | RequestCancel              // pause or shutdown noticed
    | NoticePoolDone
    | Return

  predicate PoolDone(s: Pool) {
    forall h :: 0 <= h < |s.handlers| ==> s.handlers[h].Exited?
  }

  function SettleNow(s: Pool, h: nat, how: Settlement): Pool
    requires h < |s.handlers| && (s.handlers[h].Holding? || s.handlers[h].Handling?)
  {
    s.(handlers := s.handlers[h := Idle], settled := s.settled + [Settled(s.handlers[h].delivery, how)])
  }

  // How handleDelivery settles.
  function Verdict(d: Delivery, ok: bool): Settlement {
    if d.notificationId.None? then Drop else if ok then Ack else Requeue
  }

  function Next(s: Pool, step: Step): Pool {
    match step
    case Push(d) =>
      if s.open && (forall e :: e in s.pushed ==> e.tag != d.tag)
      then s.(buffered := s.buffered + [d], pushed := s.pushed + [d]) else s
    case Close => s.(open := false)
    case Take(h) =>
      if h < |s.handlers| && s.handlers[h].Idle? && s.buffered != []
      then s.(handlers := s.handlers[h := Holding(s.buffered[0])],
              buffered := s.buffered[1..],
              taken := s.taken + [s.buffered[0]])
      else s
    case CheckDraining(h) =>
      if h < |s.handlers| && s.handlers[h].Holding?
      then if s.draining
           then SettleNow(s, h, Requeue)
           else s.(handlers := s.handlers[h := Handling(s.handlers[h].delivery)])
      else s
    case Finish(h, ok) =>
      if h < |s.handlers| && s.handlers[h].Handling? then SettleNow(s, h, Verdict(s.handlers[h].delivery, ok)) else s
    case Leave(h) =>
      if h < |s.handlers| && s.handlers[h].Idle? && s.buffered == [] && !s.open
      then s.(handlers := s.handlers[h := Exited])
      else s
    case RequestCancel =>
      if s.supervisor.Watching? then s.(cancelRequested := true, draining := true, supervisor := Waiting) else s
    case NoticePoolDone =>
      if s.supervisor.Watching? && PoolDone(s) then s.(supervisor := Waiting) else s
    case Return =>
      if s.supervisor.Waiting? && PoolDone(s) then s.(supervisor := Returned(!s.cancelRequested)) else s
  }

  function Exec(s: Pool, run: seq<Step>): Pool {
    if run == [] then s else Next(Exec(s, run[..|run| - 1]), run[|run| - 1])
  }

  // ---- conservation --------------------------------------------------------------------------

  predicate Holds(h: Handler, d: Delivery) { (h.Holding? || h.Handling?) && h.delivery == d }

  // How many handlers have the delivery in hand.
  function InHand(handlers: seq<Handler>, d: Delivery): nat {
    if handlers == [] then 0
    else InHand(handlers[..|handlers| - 1], d) + if Holds(handlers[|handlers| - 1], d) then 1 else 0
  }

  function Occurrences(ds: seq<Delivery>, d: Delivery): nat {
    if ds == [] then 0 else Occurrences(ds[..|ds| - 1], d) + if ds[|ds| - 1] == d then 1 else 0
  }

  // The settle calls made for a delivery.
  function SettleCalls(settled: seq<Settled>, d: Delivery): nat {
    if settled == [] then 0
    else SettleCalls(settled[..|settled| - 1], d) + if settled[|settled| - 1].delivery == d then 1 else 0
  }

  lemma {:induction false} InHandUpdate(handlers: seq<Handler>, h: nat, to: Handler, d: Delivery)
    requires h < |handlers|
    ensures InHand(handlers[h := to], d) + (if Holds(handlers[h], d) then 1 else 0)
              == InHand(handlers, d) + if Holds(to, d) then 1 else 0
  {
    var n := |handlers| - 1;
    if h < n {
      InHandUpdate(handlers[..n], h, to, d);
      assert handlers[h := to][..n] == handlers[..n][h := to];
    } else {
      assert handlers[h := to][..n] == handlers[..n];
    }
  }

  ghost predicate TagsDistinct(ds: seq<Delivery>) {
    forall i, j :: 0 <= i < j < |ds| ==> ds[i].tag != ds[j].tag
  }

  // Deliveries reach the handlers in the order in which they were pushed.
  ghost predicate InOrder(s: Pool) {
    TagsDistinct(s.pushed) && s.pushed == s.taken + s.buffered
  }

  // A delivery that was taken is in one handler's hands or has been settled.
  ghost predicate Conserved(s: Pool, d: Delivery) {
    Occurrences(s.taken, d) == SettleCalls(s.settled, d) + InHand(s.handlers, d)
  }

  ghost predicate Supervised(s: Pool) {
    && (s.cancelRequested <==> s.draining)
    && (s.supervisor.Watching? ==> !s.cancelRequested)
    && (s.supervisor.Returned? ==> PoolDone(s) && s.supervisor.failed == !s.cancelRequested)
    && (s.supervisor.Waiting? && !s.cancelRequested ==> PoolDone(s))
    && (forall h :: 0 <= h < |s.handlers| && s.handlers[h].Exited? ==> !s.open && s.buffered == [])
  }

  lemma StepKeepsOrder(s: Pool, step: Step)
    requires InOrder(s)
    ensures InOrder(Next(s, step))
  {
    if step.Take? && s.buffered != [] { assert s.buffered == [s.buffered[0]] + s.buffered[1..]; }
  }

  lemma SettleConserves(s: Pool, h: nat, how: Settlement, d: Delivery)
    requires Conserved(s, d) && h < |s.handlers| && (s.handlers[h].Holding? || s.handlers[h].Handling?)
    ensures Conserved(SettleNow(s, h, how), d)
  {
    InHandUpdate(s.handlers, h, Idle, d);
    assert (s.settled + [Settled(s.handlers[h].delivery, how)])[..|s.settled|] == s.settled;
  }

  lemma TakeConserves(s: Pool, h: nat, d: Delivery)
    requires Conserved(s, d)
    ensures Conserved(Next(s, Take(h)), d)
  {
    if h < |s.handlers| && s.handlers[h].Idle? && s.buffered != [] {
      InHandUpdate(s.handlers, h, Holding(s.buffered[0]), d);
      assert (s.taken + [s.buffered[0]])[..|s.taken|] == s.taken;
    }
  }

  lemma StepConserves(s: Pool, step: Step, d: Delivery)
    requires Conserved(s, d)
    ensures Conserved(Next(s, step), d)
  {
    match step
    case Take(h) => TakeConserves(s, h, d);
    case CheckDraining(h) =>
      if h < |s.handlers| && s.handlers[h].Holding? {
        if s.draining {
          SettleConserves(s, h, Requeue, d);
        } else {
          InHandUpdate(s.handlers, h, Handling(s.handlers[h].delivery), d);
        }
      }
    case Finish(h, ok) =>
      if h < |s.handlers| && s.handlers[h].Handling? { SettleConserves(s, h, Verdict(s.handlers[h].delivery, ok), d); }
    case Leave(h) =>
      if h < |s.handlers| && s.handlers[h].Idle? { InHandUpdate(s.handlers, h, Exited, d); }
    case Push(e) =>
    case Close =>
    case RequestCancel =>
    case NoticePoolDone =>
    case Return =>
  }

  lemma StepSupervised(s: Pool, step: Step)
    requires Supervised(s)
    ensures Supervised(Next(s, step)) && |Next(s, step).handlers| == |s.handlers|
  {
  }

  lemma {:induction false} NothingInIdleHands(handlers: seq<Handler>, d: Delivery)
    requires forall h :: 0 <= h < |handlers| ==> handlers[h].Idle? || handlers[h].Exited?
    ensures InHand(handlers, d) == 0
  {
    if handlers != [] { NothingInIdleHands(handlers[..|handlers| - 1], d); }
  }

  lemma {:induction false} Reachable(concurrency: nat, run: seq<Step>, d: Delivery)
    ensures var s := Exec(Start(concurrency), run);
            InOrder(s) && Conserved(s, d) && Supervised(s) && |s.handlers| == concurrency
  {
    if run == [] {
      NothingInIdleHands(Start(concurrency).handlers, d);
    } else {
      var s, last := Exec(Start(concurrency), run[..|run| - 1]), run[|run| - 1];
      Reachable(concurrency, run[..|run| - 1], d);
      StepKeepsOrder(s, last);
      StepConserves(s, last, d);
      StepSupervised(s, last);
    }
  }

  lemma {:induction false} OnceInDistinct(ds: seq<Delivery>, d: Delivery)
    requires TagsDistinct(ds)
    ensures Occurrences(ds, d) == if d in ds then 1 else 0
  {
    if ds != [] {
      var init, last := ds[..|ds| - 1], ds[|ds| - 1];
      OnceInDistinct(init, d);
      assert ds == init + [last];
    }
  }

  lemma TakenAreDistinct(s: Pool)
    requires InOrder(s)
    ensures TagsDistinct(s.taken)
  {
    forall i, j | 0 <= i < j < |s.taken| ensures s.taken[i].tag != s.taken[j].tag {
      assert s.pushed[i] == s.taken[i] && s.pushed[j] == s.taken[j];
    }
  }

  /** When the subscription returns, every delivery handed to the pool has had exactly one
      settle call, and with a handler at all that is every delivery the broker pushed. At any
      earlier moment none has had more than one. */
  lemma DrainConserves(concurrency: nat, run: seq<Step>, d: Delivery)
    ensures var s := Exec(Start(concurrency), run);
            && SettleCalls(s.settled, d) <= 1 && (SettleCalls(s.settled, d) == 1 ==> d in s.taken)
            && (s.supervisor.Returned? ==> (SettleCalls(s.settled, d) == 1 <==> d in s.taken))
            && (s.supervisor.Returned? && concurrency > 0 ==> s.taken == s.pushed)
  {
    var s := Exec(Start(concurrency), run);
    Reachable(concurrency, run, d);
    TakenAreDistinct(s);
    OnceInDistinct(s.taken, d);
    if s.supervisor.Returned? {
      NothingInIdleHands(s.handlers, d);
      if concurrency > 0 { assert s.handlers[0].Exited?; }
    }
  }

  // ---- what is acknowledged --------------------------------------------------------------------

  // A settle call: the drain's requeue, or the end of handleDelivery.
  predicate SettlesNow(s: Pool, step: Step, d: Delivery, how: Settlement) {
    || (step.CheckDraining? && step.h < |s.handlers| && s.handlers[step.h] == Holding(d) && s.draining
        && how == Requeue)
    || (step.Finish? && step.h < |s.handlers| && s.handlers[step.h] == Handling(d) && how == Verdict(d, step.ok))
  }

  // The i-th step of the run is this settle call for the delivery.
  ghost predicate SettlesAt(s0: Pool, run: seq<Step>, i: nat, d: Delivery, how: Settlement) {
    && i < |run|
    && SettlesNow(Exec(s0, run[..i]), run[i], d, how)
  }

  lemma AckedIff(s0: Pool, run: seq<Step>, d: Delivery)
    requires s0.settled == []
    ensures Settled(d, Ack) in Exec(s0, run).settled <==>
              && d.notificationId.Some?
              && exists i: nat :: i < |run| && run[i].Finish? && run[i].ok && run[i].h < |Exec(s0, run[..i]).handlers|
                   && Exec(s0, run[..i]).handlers[run[i].h] == Handling(d)
  {
    SettledByAStep(s0, run, d, Ack);
    if i: nat :| SettlesAt(s0, run, i, d, Ack) { assert run[i].Finish? && run[i].ok; }
    if i: nat :| i < |run| && run[i].Finish? && run[i].ok && run[i].h < |Exec(s0, run[..i]).handlers|
                 && Exec(s0, run[..i]).handlers[run[i].h] == Handling(d)
    {
      assert SettlesAt(s0, run, i, d, Verdict(d, true));
    }
  }

  lemma DroppedIff(s0: Pool, run: seq<Step>, d: Delivery)
    requires s0.settled == []
    ensures Settled(d, Drop) in Exec(s0, run).settled <==>
              && d.notificationId.None?
              && exists i: nat :: i < |run| && run[i].Finish? && run[i].h < |Exec(s0, run[..i]).handlers|
                   && Exec(s0, run[..i]).handlers[run[i].h] == Handling(d)
  {
    SettledByAStep(s0, run, d, Drop);
    if i: nat :| SettlesAt(s0, run, i, d, Drop) { assert run[i].Finish?; }
    if i: nat :| i < |run| && run[i].Finish? && run[i].h < |Exec(s0, run[..i]).handlers|
                 && Exec(s0, run[..i]).handlers[run[i].h] == Handling(d)
    {
      assert SettlesAt(s0, run, i, d, Verdict(d, run[i].ok));
    }
  }

  lemma RequeuedIff(s0: Pool, run: seq<Step>, d: Delivery)
    requires s0.settled == []
    ensures Settled(d, Requeue) in Exec(s0, run).settled <==>
              || (d.notificationId.Some? &&
                 exists i: nat :: i < |run| && run[i].Finish? && !run[i].ok && run[i].h < |Exec(s0, run[..i]).handlers|
                   && Exec(s0, run[..i]).handlers[run[i].h] == Handling(d))
              || (exists i: nat :: i < |run| && run[i].CheckDraining? && Exec(s0, run[..i]).draining
                   && run[i].h < |Exec(s0, run[..i]).handlers| && Exec(s0, run[..i]).handlers[run[i].h] == Holding(d))
  {
    SettledByAStep(s0, run, d, Requeue);
    if i: nat :| SettlesAt(s0, run, i, d, Requeue) {
      assert run[i].CheckDraining? || (run[i].Finish? && !run[i].ok);
    }
    if i: nat :| i < |run| && run[i].Finish? && !run[i].ok && run[i].h < |Exec(s0, run[..i]).handlers|
                 && Exec(s0, run[..i]).handlers[run[i].h] == Handling(d)
    {
      assert SettlesAt(s0, run, i, d, Verdict(d, false));
    }
    if i: nat :| i < |run| && run[i].CheckDraining? && Exec(s0, run[..i]).draining
                 && run[i].h < |Exec(s0, run[..i]).handlers| && Exec(s0, run[..i]).handlers[run[i].h] == Holding(d)
    {
      assert SettlesAt(s0, run, i, d, Requeue);
    }
  }

  /** A delivery is acknowledged if and only if processing it returned nil, dropped if and only
      if it was handled and its body does not parse, and requeued if and only if processing it
      failed or the pool was draining before a handler began with it. */
  lemma SettledAsDecided(s0: Pool, run: seq<Step>, d: Delivery)
    requires s0.settled == []
    ensures Settled(d, Ack) in Exec(s0, run).settled <==>
              && d.notificationId.Some?
              && exists i: nat :: i < |run| && run[i].Finish? && run[i].ok && run[i].h < |Exec(s0, run[..i]).handlers|
                   && Exec(s0, run[..i]).handlers[run[i].h] == Handling(d)
    ensures Settled(d, Drop) in Exec(s0, run).settled <==>
              && d.notificationId.None?
              && exists i: nat :: i < |run| && run[i].Finish? && run[i].h < |Exec(s0, run[..i]).handlers|
                   && Exec(s0, run[..i]).handlers[run[i].h] == Handling(d)
    ensures Settled(d, Requeue) in Exec(s0, run).settled <==>
              || (d.notificationId.Some? &&
                 exists i: nat :: i < |run| && run[i].Finish? && !run[i].ok && run[i].h < |Exec(s0, run[..i]).handlers|
                   && Exec(s0, run[..i]).handlers[run[i].h] == Handling(d))
              || (exists i: nat :: i < |run| && run[i].CheckDraining? && Exec(s0, run[..i]).draining
                   && run[i].h < |Exec(s0, run[..i]).handlers| && Exec(s0, run[..i]).handlers[run[i].h] == Holding(d))
  {
    AckedIff(s0, run, d);
    DroppedIff(s0, run, d);
    RequeuedIff(s0, run, d);
  }

  lemma {:induction false} SettledByAStep(s0: Pool, run: seq<Step>, d: Delivery, how: Settlement)
    requires s0.settled == []
    ensures Settled(d, how) in Exec(s0, run).settled <==> exists i :: SettlesAt(s0, run, i, d, how)
  {
    if run != [] {
      var n := |run| - 1;
      SettledByAStep(s0, run[..n], d, how);
      LastStepSettles(Exec(s0, run[..n]), run[n], d, how);
      forall i | 0 <= i < n ensures SettlesAt(s0, run, i, d, how) <==> SettlesAt(s0, run[..n], i, d, how) {
        assert run[..n][..i] == run[..i];
      }
      assert forall i :: SettlesAt(s0, run, i, d, how) ==> i == n || SettlesAt(s0, run[..n], i, d, how);
      assert forall i :: SettlesAt(s0, run[..n], i, d, how) ==> SettlesAt(s0, run, i, d, how);
      assert SettlesNow(Exec(s0, run[..n]), run[n], d, how) <==> SettlesAt(s0, run, n, d, how);
    }
  }

  lemma LastStepSettles(s: Pool, step: Step, d: Delivery, how: Settlement)
    ensures Settled(d, how) in Next(s, step).settled <==> Settled(d, how) in s.settled || SettlesNow(s, step, d, how)
  {
  }

  // Not yet looked at by handleDelivery.
  ghost predicate Unhandled(s: Pool, d: Delivery) {
    (forall h :: 0 <= h < |s.handlers| ==> s.handlers[h] != Handling(d))
        && forall how :: Settled(d, how) in s.settled ==> how == Requeue
  }

  lemma UnhandledStep(s: Pool, step: Step, d: Delivery)
    requires s.draining && Unhandled(s, d)
    ensures Next(s, step).draining && Unhandled(Next(s, step), d)
  {
    forall how | Settled(d, how) in Next(s, step).settled ensures how == Requeue { LastStepSettles(s, step, d, how); }
  }

  /** From the moment draining is set, a delivery that handleDelivery has not begun with can
      only be requeued, whatever happens after. */
  lemma {:induction false} DrainingOnlyRequeues(s: Pool, run: seq<Step>, d: Delivery)
    requires s.draining && Unhandled(s, d)
    ensures Exec(s, run).draining && Unhandled(Exec(s, run), d)
  {
    if run != [] {
      DrainingOnlyRequeues(s, run[..|run| - 1], d);
      UnhandledStep(Exec(s, run[..|run| - 1]), run[|run| - 1], d);
    }
  }

  // ---- how it returns -----------------------------------------------------------------------------

  // The supervisor noticed a pause or a shutdown while it was watching.
  ghost predicate CancelsAt(s0: Pool, run: seq<Step>, i: nat) {
    i < |run| && run[i].RequestCancel? && Exec(s0, run[..i]).supervisor.Watching?
  }

  lemma {:induction false} CancelledIff(concurrency: nat, run: seq<Step>)
    ensures Exec(Start(concurrency), run).cancelRequested <==> exists i :: CancelsAt(Start(concurrency), run, i)
  {
    var s0 := Start(concurrency);
    if run != [] {
      var n := |run| - 1;
      CancelledIff(concurrency, run[..n]);
      forall i | 0 <= i < n ensures CancelsAt(s0, run, i) <==> CancelsAt(s0, run[..n], i) {
        assert run[..n][..i] == run[..i];
      }
      assert forall i :: CancelsAt(s0, run, i) ==> i == n || CancelsAt(s0, run[..n], i);
      assert forall i :: CancelsAt(s0, run[..n], i) ==> CancelsAt(s0, run, i);
      assert CancelsAt(s0, run, n) <==> run[n].RequestCancel? && Exec(s0, run[..n]).supervisor.Watching?;
    }
  }

  /** The subscription reports an error exactly when nobody asked for its cancellation: the
      broker closed the deliveries underneath it. */
  lemma FailsIffNotCancelled(concurrency: nat, run: seq<Step>)
    requires Exec(Start(concurrency), run).supervisor.Returned?
    ensures Exec(Start(concurrency), run).supervisor.failed <==> !exists i :: CancelsAt(Start(concurrency), run, i)
  {
    Reachable(concurrency, run, Delivery(0, None));
    CancelledIff(concurrency, run);
  }

  // ---- it does return ---------------------------------------------------------------------------------

  function Effort(h: Handler): nat {
    match h
    case Idle => 1
    case Holding(_) => 3
    case Handling(_) => 2
    case Exited => 0
  }

  function PoolEffort(handlers: seq<Handler>): nat {
    if handlers == [] then 0 else PoolEffort(handlers[..|handlers| - 1]) + Effort(handlers[|handlers| - 1])
  }

  // An upper bound on the steps left once the deliveries channel is closed.
  function Left(s: Pool): nat {
    3 * |s.buffered| + PoolEffort(s.handlers)
        + match s.supervisor case Watching => 2 case Waiting => 1 case Returned(_) => 0
  }

  lemma {:induction false} EffortUpdate(handlers: seq<Handler>, h: nat, to: Handler)
    requires h < |handlers|
    ensures PoolEffort(handlers[h := to]) == PoolEffort(handlers) - Effort(handlers[h]) + Effort(to)
  {
    var n := |handlers| - 1;
    if h < n {
      EffortUpdate(handlers[..n], h, to);
      assert handlers[h := to][..n] == handlers[..n][h := to];
    } else {
      assert handlers[h := to][..n] == handlers[..n];
    }
  }

  /** Once the channel is closed, every step that changes anything uses up some of what is
      left, so there can be only finitely many. */
  lemma ClosedPoolsRunDown(s: Pool, step: Step)
    requires !s.open && Next(s, step) != s
    ensures !Next(s, step).open && Left(Next(s, step)) < Left(s)
  {
    match step
    case Take(h) => EffortUpdate(s.handlers, h, Holding(s.buffered[0]));
    case CheckDraining(h) =>
      EffortUpdate(s.handlers, h, Idle);
      EffortUpdate(s.handlers, h, Handling(s.handlers[h].delivery));
    case Finish(h, ok) => EffortUpdate(s.handlers, h, Idle);
    case Leave(h) => EffortUpdate(s.handlers, h, Exited);
    case Push(d) =>
    case Close =>
    case RequestCancel =>
    case NoticePoolDone =>
    case Return =>
  }

  /** And until it has returned there is always such a step: a closed subscription never gets
      stuck. */
  lemma ClosedPoolsMove(s: Pool)
    requires !s.open && !s.supervisor.Returned?
    ensures exists step :: Next(s, step) != s
  {
    if PoolDone(s) {
      if s.supervisor.Watching? {
        assert Next(s, NoticePoolDone).supervisor.Waiting?;
      } else {
        assert Next(s, Return).supervisor.Returned?;
      }
    } else {
      var h :| 0 <= h < |s.handlers| && !s.handlers[h].Exited?;
      match s.handlers[h]
      case Holding(d) =>
        assert Next(s, CheckDraining(h)).handlers[h] != s.handlers[h];
      case Handling(d) =>
        assert Next(s, Finish(h, true)).handlers[h] != s.handlers[h];
      case Idle =>
        if s.buffered == [] {
          assert Next(s, Leave(h)).handlers[h] != s.handlers[h];
        } else {
          assert Next(s, Take(h)).handlers[h] != s.handlers[h];
        }
    }
  }
}
