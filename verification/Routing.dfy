/** Where messages are and how many there can be: routing keys survive every hop, retries
    use up a bounded delay, and a dead letter stands for a failed row.
 */
module Routing {
  import opened Domain
  import opened Protocol
  import opened Structure
  import opened Ledger
  import opened Invariant
  import opened Bounds

  /** Whatever tier hops, requeues, redeliveries and republishes a message has been through, it
      names an existing row and sits in, or will return to, the work queue of that row's channel. */
  lemma MessagesAreRouted(maxAttempts: int, staleAfter: Time, run: seq<Action>, m: Message)
    requires var s := Exec(Init(maxAttempts, staleAfter), run);
             || m in s.broker.work
             || (exists p :: p in s.broker.tiers && p.message == m)
             || (exists tag :: tag in s.handlers && s.handlers[tag].message == m)
             || (exists task :: task in s.tasks && m in s.tasks[task].todo)
    ensures var s := Exec(Init(maxAttempts, staleAfter), run); m.id in s.rows && s.rows[m.id].channel == m.channel
  {
    var s := Exec(Init(maxAttempts, staleAfter), run);
    RunInv(maxAttempts, staleAfter, run);
    if tag :| tag in s.handlers && s.handlers[tag].message == m { assert HandlerOk(s.rows, s.lives, s.handlers[tag]); }
    if task :| task in s.tasks && m in s.tasks[task].todo { assert TodoOk(s.rows, s.tasks[task].todo); }
  }

  // ---- delays -------------------------------------------------------------------------

  function DelayOf(attempt: int): nat { RETRY_TIERS[TierForAttempt(attempt)].ttl }

  // The delays of attempts 1 to n together.
  function Delays(n: nat): nat { if n == 0 then 0 else Delays(n - 1) + DelayOf(n) }

  function DelaySpent(ledger: seq<Phase>): nat {
    if ledger == [] then 0
    else DelaySpent(ledger[..|ledger| - 1]) + (if ledger[|ledger| - 1].Tiered? then DelayOf(|ledger|) else 0)
  }

  lemma DelayAppend(ledger: seq<Phase>)
    ensures DelaySpent(ledger + [Open]) == DelaySpent(ledger)
  {
    assert (ledger + [Open])[..|ledger + [Open]| - 1] == ledger;
  }

  lemma {:induction false} DelaySet(ledger: seq<Phase>, i: nat, p: Phase)
    requires i < |ledger| && !ledger[i].Tiered?
    ensures DelaySpent(ledger[i := p]) == DelaySpent(ledger) + (if p.Tiered? then DelayOf(i + 1) else 0)
  {
    var last := |ledger| - 1;
    if i == last {
      assert ledger[i := p][..last] == ledger[..last];
    } else {
      assert ledger[i := p][..last] == ledger[..last][i := p];
      DelaySet(ledger[..last], i, p);
    }
  }

  lemma {:induction false} DelayBound(ledger: seq<Phase>, maxAttempts: int)
    requires forall i :: 0 <= i < |ledger| && ledger[i].Tiered? ==> i + 1 < maxAttempts
    ensures DelaySpent(ledger) <= Delays(Limit(maxAttempts) - 1)
    ensures DelaySpent(ledger) <= Delays(|ledger|)
  {
    if ledger != [] {
      var n := |ledger|;
      DelayBound(ledger[..n - 1], maxAttempts);
      if ledger[n - 1].Tiered? { DelaysGrow(n, Limit(maxAttempts) - 1); }
    }
  }

  lemma {:induction false} DelaysGrow(m: nat, n: nat)
    requires m <= n
    ensures Delays(m) <= Delays(n)
  {
    if m < n { DelaysGrow(m, n - 1); }
  }

  // The delay of the tier messages that a run gets accepted for one notification.
  function DelayParked(s: State, run: seq<Action>, id: Id): nat {
    if run == [] then 0
    else
      var init, a := run[..|run| - 1], run[|run| - 1];
      DelayParked(s, init, id)
          + (if Occurs(ParkEvent, Exec(s, init), a, id) then DelayOf(Exec(s, init).handlers[a.tag].pc.t.k) else 0)
  }

  lemma WrittenDelays(l: Life, k: nat, p: Phase)
    requires 1 <= k <= |l.ledger| && Follows(l.ledger[k - 1], p)
    ensures DelaySpent(SetPhase(l, k, p).ledger) == DelaySpent(l.ledger) + (if p.Tiered? then DelayOf(k) else 0)
  {
    DelaySet(l.ledger, k - 1, p);
  }

  lemma WorkDelays(s: State, a: Action, id: Id)
    requires WorkerAction(a) && WorksOn(s, a.tag, id) && HandlerOk(s.rows, s.lives, s.handlers[a.tag])
    ensures DelaySpent(LifeOf(Next(s, a).lives, id).ledger)
              == DelaySpent(LifeOf(s.lives, id).ledger)
                  + (if Entry(s, a) == Some(Tiered) then DelayOf(s.handlers[a.tag].pc.t.k) else 0)
  {
    var l := LifeOf(s.lives, id);
    LifeAfterWork(s, a, id);
    EntryFollows(s, a);
    if Entry(s, a).Some? {
      if Entry(s, a).value.Open? {
        DelayAppend(l.ledger);
      } else {
        WrittenDelays(l, s.handlers[a.tag].pc.t.k, Entry(s, a).value);
      }
    }
  }

  lemma StepDelays(s: State, a: Action, id: Id)
    requires LedgersOk(s.rows, s.lives) && HandlersOk(s.rows, s.lives, s.handlers)
    ensures DelaySpent(LifeOf(Next(s, a).lives, id).ledger)
              == DelaySpent(LifeOf(s.lives, id).ledger)
                  + (if Occurs(ParkEvent, s, a, id) then DelayOf(s.handlers[a.tag].pc.t.k) else 0)
  {
    if !WorkerAction(a) {
      LifeAfterOthers(s, a, id);
    } else if !WorksOn(s, a.tag, id) {
      IdleCounts(s, a, id, ParkEvent);
    } else {
      EntryIsEvent(s, a, ParkEvent);
      WorkDelays(s, a, id);
    }
  }

  lemma {:induction false} RunDelays(maxAttempts: int, staleAfter: Time, run: seq<Action>, id: Id)
    ensures DelayParked(Init(maxAttempts, staleAfter), run, id)
              == DelaySpent(LifeOf(Exec(Init(maxAttempts, staleAfter), run).lives, id).ledger)
  {
    if run != [] {
      var init := run[..|run| - 1];
      RunDelays(maxAttempts, staleAfter, init, id);
      RunInv(maxAttempts, staleAfter, init);
      StepDelays(Exec(Init(maxAttempts, staleAfter), init), run[|run| - 1], id);
    }
  }

  /** Over any run, one notification gets at most maxAttempts - 1 tier messages, and the time
      they spend parked is at most the tier delays of attempts 1 to maxAttempts - 1, each once. */
  lemma RetryDelayIsBounded(maxAttempts: int, staleAfter: Time, run: seq<Action>, id: Id)
    ensures Times(ParkEvent, Init(maxAttempts, staleAfter), run, id) <= Limit(maxAttempts) - 1
    ensures DelayParked(Init(maxAttempts, staleAfter), run, id) <= Delays(Limit(maxAttempts) - 1)
  {
    var s0 := Init(maxAttempts, staleAfter);
    var s := Exec(s0, run);
    RunInv(maxAttempts, staleAfter, run);
    ConfigurationStays(s0, run);
    RunDelays(maxAttempts, staleAfter, run, id);
    LedgerCountsTheRun(maxAttempts, staleAfter, run, id, ParkEvent);
    if id in s.rows { assert RowOk(s.rows[id], LifeOf(s.lives, id), s.maxAttempts); }
    LedgerDelays(LifeOf(s.lives, id).ledger, maxAttempts);
  }

  lemma LedgerDelays(ledger: seq<Phase>, maxAttempts: int)
    requires forall i :: 0 <= i < |ledger| && In(Retries, ledger[i]) ==> i + 1 < maxAttempts
    ensures Count(Parks, ledger) <= Limit(maxAttempts) - 1 && DelaySpent(ledger) <= Delays(Limit(maxAttempts) - 1)
  {
    assert forall i :: 0 <= i < |ledger| && ledger[i].Tiered? ==> In(Retries, ledger[i]);
    CountBelow(Parks, ledger, maxAttempts);
    DelayBound(ledger, maxAttempts);
  }

  // ---- dead letters -------------------------------------------------------------------------

  predicate DeadLettersNow(s: State, a: Action, id: Id) {
    a.PublishDeadLetter? && WorksOn(s, a.tag, id) && s.handlers[a.tag].pc.FailMarked? && !a.receipt.Refused?
  }

  // Only an accepted dead letter adds one.
  lemma DeadAfter(s: State, a: Action, id: Id)
    ensures Next(s, a).broker.dead[id] == s.broker.dead[id] + One(DeadLettersNow(s, a, id))
  {
  }

  lemma DeadEntry(s: State, a: Action)
    requires WorkerAction(a) && a.tag in s.handlers
    ensures (Entry(s, a).Some? && Entry(s, a).value.DeadLettered?) <==>
              DeadLettersNow(s, a, s.handlers[a.tag].message.id)
  {
  }

  lemma WrittenDeadLetters(l: Life, pc: Pc, entry: Option<Phase>)
    requires entry.Some? && !entry.value.Open? ==>
               HasTicket(pc) && 1 <= pc.t.k <= |l.ledger| && Follows(l.ledger[pc.t.k - 1], entry.value)
    ensures Count(DeadLetters, Written(l, pc, entry).ledger)
              == Count(DeadLetters, l.ledger) + One(entry.Some? && entry.value.DeadLettered?)
  {
    if entry.Some? {
      if entry.value.Open? {
        CountAppend(DeadLetters, l.ledger, Open);
      } else {
        CountSet(DeadLetters, l.ledger, pc.t.k - 1, entry.value);
      }
    }
  }

  lemma WorkDeadLetters(s: State, a: Action, id: Id)
    requires WorkerAction(a) && WorksOn(s, a.tag, id) && HandlerOk(s.rows, s.lives, s.handlers[a.tag])
    ensures Count(DeadLetters, LifeOf(Next(s, a).lives, id).ledger)
              == Count(DeadLetters, LifeOf(s.lives, id).ledger) + One(DeadLettersNow(s, a, id))
  {
    LifeAfterWork(s, a, id);
    EntryFollows(s, a);
    DeadEntry(s, a);
    WrittenDeadLetters(LifeOf(s.lives, id), s.handlers[a.tag].pc, Entry(s, a));
  }

  lemma StepDeadLetters(s: State, a: Action, id: Id)
    requires LedgersOk(s.rows, s.lives) && HandlersOk(s.rows, s.lives, s.handlers)
    ensures Count(DeadLetters, LifeOf(Next(s, a).lives, id).ledger)
              == Count(DeadLetters, LifeOf(s.lives, id).ledger) + One(DeadLettersNow(s, a, id))
  {
    if !WorkerAction(a) {
      LifeAfterOthers(s, a, id);
    } else if !WorksOn(s, a.tag, id) {
      IdleCounts(s, a, id, ParkEvent);
    } else {
      WorkDeadLetters(s, a, id);
    }
  }

  // The dead letters for a notification are those of its ledger.
  lemma {:induction false} DeadLettersAreKept(maxAttempts: int, staleAfter: Time, run: seq<Action>, id: Id)
    ensures var s := Exec(Init(maxAttempts, staleAfter), run);
            s.broker.dead[id] == Count(DeadLetters, LifeOf(s.lives, id).ledger)
  {
    if run != [] {
      var init, a := run[..|run| - 1], run[|run| - 1];
      var s := Exec(Init(maxAttempts, staleAfter), init);
      DeadLettersAreKept(maxAttempts, staleAfter, init, id);
      RunInv(maxAttempts, staleAfter, init);
      StepDeadLetters(s, a, id);
      DeadAfter(s, a, id);
    }
  }

  /** A dead letter implies a failed row, and there is at most one per row. */
  lemma DeadLettersAreFailedRows(maxAttempts: int, staleAfter: Time, run: seq<Action>, id: Id)
    ensures var s := Exec(Init(maxAttempts, staleAfter), run);
            && s.broker.dead[id] <= 1
            && (id in s.broker.dead ==> id in s.rows && s.rows[id].status == Failed)
  {
    var s := Exec(Init(maxAttempts, staleAfter), run);
    RunInv(maxAttempts, staleAfter, run);
    DeadLettersAreKept(maxAttempts, staleAfter, run, id);
    CountDisjoint(LifeOf(s.lives, id).ledger);
    if id in s.rows { assert RowOk(s.rows[id], LifeOf(s.lives, id), s.maxAttempts); }
  }
}
