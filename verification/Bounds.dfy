/** How often one notification can be claimed, sent, delivered and moved, over any run:
    the events of the run are counted by the claim ledger, and the ledger is bounded.
 */
module Bounds {
  import opened Domain
  import opened Statements
  import opened Protocol
  import opened Structure
  import opened Ledger
  import opened Invariant

  // What the ledger of a row says about the number of events so far.
  function Measure(e: Event, l: Life): nat {
    match e
    case ClaimEvent => |l.ledger|
    case SendEvent => Count(Sends, l.ledger)
    case SuccessEvent => Count(Successes, l.ledger)
    case RecoveryEvent => l.recoveries
    case ReleaseEvent => Count(Releases, l.ledger)
    case RetryEvent => Count(Retries, l.ledger)
    case ParkEvent => Count(Parks, l.ledger)
    case StatusEvent => 0
  }

  // The ledger entry a handler's action writes: a fresh Open entry for a claim, a new
  // phase for the handler's own claim otherwise.
  function Entry(s: State, a: Action): Option<Phase>
    requires WorkerAction(a) && a.tag in s.handlers
  {
    var h := s.handlers[a.tag];
    var moves := Held(s.rows, h.message.id);
    match a
    case Claim(_, _, io) =>
      if h.pc.Fetched? && !io.NotRun? && Guarded(s.rows, h.message.id, AllowedInto(Processing))
      then Some(Open)
      else None
    case Release(_, _, io) =>
      if h.pc.Claimed? then Some(if !io.NotRun? && moves then Released else Dropped) else None
    case Send(_, result) =>
      if h.pc.Claimed? then Some(if result.Success? then Delivered(true) else Faulted(result.Retryable?)) else None
    case RecordSent(_, _, _, _, _) => if h.pc.SendOk? then Some(Delivered(false)) else None
    case RecordRetry(_, _, _, io) =>
      if h.pc.SendFailed? && RetryAllowed(s, h.pc) then Some(if !io.NotRun? && moves then Retried else Spent) else None
    case RecordFailure(_, _, _, io) =>
      if h.pc.SendFailed? && !RetryAllowed(s, h.pc)
      then Some(if !io.NotRun? && moves then Buried(!h.pc.retryable) else Spent)
      else None
    case PublishRetry(_, receipt) => if h.pc.RetryMarked? && !receipt.Refused? then Some(Tiered) else None
    case PublishDeadLetter(_, receipt) =>
      if h.pc.FailMarked? && !receipt.Refused? then Some(DeadLettered(!h.pc.retryable)) else None
  }

  function Written(l: Life, pc: Pc, entry: Option<Phase>): Life {
    match entry
    case None => l
    case Some(p) =>
      if p.Open? then l.(ledger := l.ledger + [Open]) else if HasTicket(pc) then SetPhase(l, pc.t.k, p) else l
  }

  lemma LifeAfterWrite(s: State, a: Action)
    requires WorkerAction(a) && a.tag in s.handlers && !a.Claim? && !a.PublishRetry? && !a.PublishDeadLetter?
    ensures var h := s.handlers[a.tag];
            Next(s, a).lives
              == match Entry(s, a) case None => s.lives case Some(p) => Mark(s.lives, h.message.id, h.pc.t.k, p)
  {
  }

  lemma LifeAfterWork(s: State, a: Action, id: Id)
    requires WorkerAction(a) && a.tag in s.handlers
    ensures LifeOf(Next(s, a).lives, id)
              == if s.handlers[a.tag].message.id == id
                  then Written(LifeOf(s.lives, id), s.handlers[a.tag].pc, Entry(s, a))
                 else LifeOf(s.lives, id)
  {
    if !a.Claim? && !a.PublishRetry? && !a.PublishDeadLetter? { LifeAfterWrite(s, a); }
  }

  // Which of its events a handler's action is can be read off the entry it writes.
  lemma EntryIsEvent(s: State, a: Action, e: Event)
    requires WorkerAction(a) && a.tag in s.handlers && e !in {StatusEvent, RecoveryEvent}
    ensures Occurs(e, s, a, s.handlers[a.tag].message.id) <==>
            match e
            case ClaimEvent => Entry(s, a) == Some(Open)
            case SendEvent => Entry(s, a).Some? && (Entry(s, a).value == Delivered(true) || Entry(s, a).value.Faulted?)
            case SuccessEvent => Entry(s, a) == Some(Delivered(true))
            case ReleaseEvent => Entry(s, a) == Some(Released)
            case RetryEvent => Entry(s, a) == Some(Retried)
            case ParkEvent => Entry(s, a) == Some(Tiered)
            case _ => false
  {
  }

  // The order in which the code writes a claim's entry.
  predicate Follows(before: Phase, after: Phase) {
    match after
    case Open => false
    case Dropped => before.Open?
    case Released => before.Open?
    case Delivered(open) => if open then before.Open? else before == Delivered(true)
    case Faulted(_) => before.Open?
    case Spent => before.Faulted?
    case Retried => before.Faulted?
    case Buried(_) => before.Faulted?
    case Tiered => before.Retried?
    case DeadLettered(_) => before.Buried?
  }

  lemma EntryFollows(s: State, a: Action)
    requires WorkerAction(a) && a.tag in s.handlers && HandlerOk(s.rows, s.lives, s.handlers[a.tag])
    ensures var h := s.handlers[a.tag]; var l := LifeOf(s.lives, h.message.id);
            Entry(s, a).Some? && !Entry(s, a).value.Open? ==>
              HasTicket(h.pc) && 1 <= h.pc.t.k <= |l.ledger| && Follows(l.ledger[h.pc.t.k - 1], Entry(s, a).value)
  {
  }

  lemma WrittenCounts(l: Life, k: nat, p: Phase, e: Event)
    requires e !in {StatusEvent, RecoveryEvent}
    requires 1 <= k <= |l.ledger| && Follows(l.ledger[k - 1], p)
    ensures Measure(e, SetPhase(l, k, p)) == Measure(e, l) + One(
              match e
              case SendEvent => p == Delivered(true) || p.Faulted?
              case SuccessEvent => p == Delivered(true)
              case ReleaseEvent => p == Released
              case RetryEvent => p == Retried
              case ParkEvent => p == Tiered
              case _ => false)
  {
    forall c | c in {Sends, Successes, Releases, Retries, Parks} { CountSet(c, l.ledger, k - 1, p); }
  }

  lemma OpenedCounts(l: Life, e: Event)
    requires e !in {StatusEvent, RecoveryEvent}
    ensures Measure(e, l.(ledger := l.ledger + [Open])) == Measure(e, l) + One(e == ClaimEvent)
  {
    forall c | c in {Sends, Successes, Releases, Retries, Parks} { CountAppend(c, l.ledger, Open); }
  }

  lemma EntryCounts(s: State, a: Action, e: Event)
    requires WorkerAction(a) && a.tag in s.handlers && HandlerOk(s.rows, s.lives, s.handlers[a.tag])
    requires e !in {StatusEvent, RecoveryEvent}
    ensures var h := s.handlers[a.tag]; var l := LifeOf(s.lives, h.message.id);
            Measure(e, Written(l, h.pc, Entry(s, a))) == Measure(e, l) + One(Occurs(e, s, a, h.message.id))
  {
    var h := s.handlers[a.tag];
    var l := LifeOf(s.lives, h.message.id);
    EntryIsEvent(s, a, e);
    EntryFollows(s, a);
    if Entry(s, a).Some? {
      if Entry(s, a).value.Open? { OpenedCounts(l, e); } else { WrittenCounts(l, h.pc.t.k, Entry(s, a).value, e); }
    }
  }

  // Nothing else writes ledger entries, and only a recovery sweep counts a recovery.
  lemma LifeAfterOthers(s: State, a: Action, id: Id)
    requires LedgersOk(s.rows, s.lives) && !WorkerAction(a)
    ensures LifeOf(Next(s, a).lives, id)
              == LifeOf(s.lives, id).(
                   recoveries := LifeOf(s.lives, id).recoveries + One(Occurs(RecoveryEvent, s, a, id)))
  {
    if !TableAction(a) { OnlyTheseWrite(s, a); }
  }

  lemma OthersCount(s: State, a: Action, id: Id, e: Event)
    requires LedgersOk(s.rows, s.lives) && !WorkerAction(a) && e != StatusEvent
    ensures Measure(e, LifeOf(Next(s, a).lives, id)) == Measure(e, LifeOf(s.lives, id)) + One(Occurs(e, s, a, id))
  {
    LifeAfterOthers(s, a, id);
  }

  lemma WorkCounts(s: State, a: Action, id: Id, e: Event)
    requires WorkerAction(a) && WorksOn(s, a.tag, id) && HandlerOk(s.rows, s.lives, s.handlers[a.tag])
               && e != StatusEvent
    ensures Measure(e, LifeOf(Next(s, a).lives, id)) == Measure(e, LifeOf(s.lives, id)) + One(Occurs(e, s, a, id))
  {
    LifeAfterWork(s, a, id);
    if e != RecoveryEvent { EntryCounts(s, a, e); }
  }

  lemma IdleCounts(s: State, a: Action, id: Id, e: Event)
    requires WorkerAction(a) && !WorksOn(s, a.tag, id) && e != StatusEvent
    ensures LifeOf(Next(s, a).lives, id) == LifeOf(s.lives, id) && !Occurs(e, s, a, id)
  {
    if a.tag in s.handlers { LifeAfterWork(s, a, id); } else { AbsentWorker(s, a); }
  }

  lemma AbsentWorker(s: State, a: Action)
    requires WorkerAction(a) && a.tag !in s.handlers
    ensures Next(s, a) == s
  {
  }

  lemma StepCounts(s: State, a: Action, id: Id, e: Event)
    requires LedgersOk(s.rows, s.lives) && HandlersOk(s.rows, s.lives, s.handlers) && e != StatusEvent
    ensures Measure(e, LifeOf(Next(s, a).lives, id)) == Measure(e, LifeOf(s.lives, id)) + One(Occurs(e, s, a, id))
  {
    if !WorkerAction(a) {
      OthersCount(s, a, id, e);
    } else if WorksOn(s, a.tag, id) {
      WorkCounts(s, a, id, e);
    } else {
      IdleCounts(s, a, id, e);
    }
  }

  /** The ledger is an exact count: over any run it has one entry per claim, and its entries
      tell how many sends, successes, releases, retries and tier messages the run had. */
  lemma {:induction false} LedgerCountsTheRun(maxAttempts: int, staleAfter: Time, run: seq<Action>, id: Id, e: Event)
    requires e != StatusEvent
    ensures Times(e, Init(maxAttempts, staleAfter), run, id)
              == Measure(e, LifeOf(Exec(Init(maxAttempts, staleAfter), run).lives, id))
  {
    if run != [] {
      var init := run[..|run| - 1];
      LedgerCountsTheRun(maxAttempts, staleAfter, init, id, e);
      RunInv(maxAttempts, staleAfter, init);
      StepCounts(Exec(Init(maxAttempts, staleAfter), init), run[|run| - 1], id, e);
    }
  }

  // The bounds of the row, read off the run.
  lemma RunBounds(maxAttempts: int, staleAfter: Time, run: seq<Action>, id: Id)
    ensures var s := Init(maxAttempts, staleAfter); var l := LifeOf(Exec(s, run).lives, id);
            && Count(Successes, l.ledger) <= 1 + l.recoveries
            && |l.ledger| <= Limit(maxAttempts) + l.recoveries + Count(Releases, l.ledger)
            && Count(Sends, l.ledger) <= Limit(maxAttempts) + l.recoveries
            && Count(Retries, l.ledger) <= Limit(maxAttempts) - 1
  {
    var s := Exec(Init(maxAttempts, staleAfter), run);
    RunInv(maxAttempts, staleAfter, run);
    ConfigurationStays(Init(maxAttempts, staleAfter), run);
    if id in s.rows {
      RowBounds(s.rows[id], LifeOf(s.lives, id), maxAttempts);
    }
  }

  /** Effectively once, with its exact price: over any run, the Send calls for one
      notification that return success are at most one more than the stale-processing
      recoveries that hit it. */
  lemma EffectivelyOnce(maxAttempts: int, staleAfter: Time, run: seq<Action>, id: Id)
    ensures var s := Init(maxAttempts, staleAfter);
            Times(SuccessEvent, s, run, id) <= 1 + Times(RecoveryEvent, s, run, id)
  {
    LedgerCountsTheRun(maxAttempts, staleAfter, run, id, SuccessEvent);
    LedgerCountsTheRun(maxAttempts, staleAfter, run, id, RecoveryEvent);
    RunBounds(maxAttempts, staleAfter, run, id);
  }

  /** Bounded effort: claims, Send calls and marked retries of one notification. */
  lemma BoundedEffort(maxAttempts: int, staleAfter: Time, run: seq<Action>, id: Id)
    ensures var s := Init(maxAttempts, staleAfter);
            var recoveries, releases := Times(RecoveryEvent, s, run, id), Times(ReleaseEvent, s, run, id);
            && Times(ClaimEvent, s, run, id) <= Limit(maxAttempts) + recoveries + releases
            && Times(SendEvent, s, run, id) <= Limit(maxAttempts) + recoveries
            && Times(RetryEvent, s, run, id) <= Limit(maxAttempts) - 1
  {
    forall e | e in {ClaimEvent, SendEvent, RetryEvent, RecoveryEvent, ReleaseEvent} {
      LedgerCountsTheRun(maxAttempts, staleAfter, run, id, e);
    }
    RunBounds(maxAttempts, staleAfter, run, id);
  }
}
