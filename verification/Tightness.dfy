/** The bounds on what one notification can cost are exact: one run reaches all of them at
    once, for every number of recoveries and releases.
 */
module Tightness {
  import opened Domain
  import opened Statements
  import opened Protocol
  import opened Ledger
  import opened Lifecycle
  import opened Losses
  import opened Recoverability
  import opened Clock

  // How often each event happens to a notification.
  type Effort = multiset<Event>

  // Some run from s, with a clock that never runs backwards, takes exactly this effort.
  ghost predicate CanCost(s: State, id: Id, since: Time, c: Effort) {
    exists run :: Costs(s, run, id, since, c)
  }

  ghost predicate Costs(s: State, run: seq<Action>, id: Id, since: Time, c: Effort) {
    InTime(since, run) && forall e :: Times(e, s, run, id) == c[e]
  }

  ghost predicate Takes(s: State, a: Action, id: Id, c: Effort) {
    forall e :: One(Occurs(e, s, a, id)) == c[e]
  }

  lemma EventStep(e: Event, s: State, a: Action, run: seq<Action>, id: Id)
    ensures Times(e, s, [a] + run, id) == One(Occurs(e, s, a, id)) + Times(e, Next(s, a), run, id)
  {
    ExecOne(s, a);
    TimesOne(e, s, a, id);
    TimesConcat(e, s, [a], run, id);
  }

  lemma CostsAfter(s: State, a: Action, run: seq<Action>, id: Id, since: Time, step: Effort, c: Effort)
    requires since <= TimeAfter(since, a) && Takes(s, a, id, step)
    requires Costs(Next(s, a), run, id, TimeAfter(since, a), c)
    ensures Costs(s, [a] + run, id, since, step + c)
  {
    InTimeFrom(since, a, run);
    forall e ensures Times(e, s, [a] + run, id) == (step + c)[e] { EventStep(e, s, a, run, id); }
  }

  lemma CostStep(s: State, a: Action, id: Id, since: Time, step: Effort, c: Effort)
    requires since <= TimeAfter(since, a) && Takes(s, a, id, step) && CanCost(Next(s, a), id, TimeAfter(since, a), c)
    ensures CanCost(s, id, since, step + c)
  {
    var run :| Costs(Next(s, a), run, id, TimeAfter(since, a), c);
    CostsAfter(s, a, run, id, since, step, c);
  }

  // A step that is none of the events.
  lemma FreeStep(s: State, a: Action, id: Id, since: Time, c: Effort)
    requires !Timed(a) && Takes(s, a, id, multiset{}) && CanCost(Next(s, a), id, since, c)
    ensures CanCost(s, id, since, c)
  {
    CostStep(s, a, id, since, multiset{}, c);
    assert multiset{} + c == c;
  }

  lemma CostNothing(s: State, id: Id, since: Time)
    ensures CanCost(s, id, since, multiset{})
  {
    assert Costs(s, [], id, since, multiset{});
  }

  const CLAIM := multiset{ClaimEvent, StatusEvent}
  const RETRY := multiset{RetryEvent, StatusEvent}
  const RELEASE := multiset{ReleaseEvent, StatusEvent}
  const RECOVERY := multiset{RecoveryEvent, StatusEvent}

  // A Send counts as such, and a successful one also as a success.
  function SendEffort(result: SendResult): Effort {
    if result.Success? then multiset{SendEvent, SuccessEvent} else multiset{SendEvent}
  }

  // ---- what each step takes -----------------------------------------------------------------------

  // A handler has claimed the row, whose attempts it counts.
  ghost predicate Owned(s: State, tag: nat, id: Id, attempts: nat) {
    && WorksOn(s, tag, id) && s.handlers[tag].attached && Held(s.rows, id) && s.rows[id].attempts == attempts
    && s.handlers[tag].pc.Claimed? && s.handlers[tag].pc.t.k == attempts
  }

  // It has called Send.
  ghost predicate HasSent(s: State, tag: nat, m: Message, attempts: nat, result: SendResult) {
    && WorksOn(s, tag, m.id) && s.handlers[tag].attached && s.handlers[tag].message == m
    && Held(s.rows, m.id) && s.rows[m.id].attempts == attempts
    && (if result.Success? then s.handlers[tag].pc.SendOk?
        else s.handlers[tag].pc.SendFailed? && s.handlers[tag].pc.retryable == result.Retryable?
             && s.handlers[tag].pc.t.k == attempts)
  }

  // The row can be claimed, and a message for it is waiting.
  ghost predicate Ready(s: State, m: Message, attempts: nat) {
    m in s.broker.work && Claimable(s, m.id) && s.rows[m.id].attempts == attempts
  }

  // The row can be claimed once the handler has let its message go.
  ghost predicate LetsGo(s: State, tag: nat, m: Message, attempts: nat, pc: Pc) {
    && WorksOn(s, tag, m.id) && s.handlers[tag].attached && s.handlers[tag].message == m && s.handlers[tag].pc == pc
    && Claimable(s, m.id) && s.rows[m.id].attempts == attempts
  }

  lemma FetchStep(s: State, m: Message, attempts: nat, since: Time, c: Effort) returns (s': State, tag: nat)
    requires Ready(s, m, attempts)
    ensures LetsGo(s', tag, m, attempts, Fetched) && SameConfig(s, s')
    ensures CanCost(s', m.id, since, c) ==> CanCost(s, m.id, since, c)
  {
    tag := FreshKey(s.handlers);
    s' := Next(s, Fetch(tag, m));
    if CanCost(s', m.id, since, c) { FreeStep(s, Fetch(tag, m), m.id, since, c); }
  }

  lemma ClaimStep(s: State, tag: nat, m: Message, attempts: nat, since: Time, c: Effort) returns (s': State)
    requires LetsGo(s, tag, m, attempts, Fetched)
    ensures Owned(s', tag, m.id, attempts + 1) && SameConfig(s, s') && s'.handlers[tag].message == m
    ensures CanCost(s', m.id, since, c) ==> CanCost(s, m.id, since, CLAIM + c)
  {
    GuardsAreLegal(s.rows[m.id].status);
    s' := Next(s, Claim(tag, since, Done));
    if CanCost(s', m.id, since, c) { CostStep(s, Claim(tag, since, Done), m.id, since, CLAIM, c); }
  }

  // A waiting message is handed out and its row claimed.
  lemma TakeUp(s: State, m: Message, attempts: nat, since: Time, c: Effort) returns (s': State, tag: nat)
    requires Ready(s, m, attempts)
    ensures Owned(s', tag, m.id, attempts + 1) && SameConfig(s, s') && s'.handlers[tag].message == m
    ensures CanCost(s', m.id, since, c) ==> CanCost(s, m.id, since, CLAIM + c)
  {
    var s1;
    s1, tag := FetchStep(s, m, attempts, since, CLAIM + c);
    s' := ClaimStep(s1, tag, m, attempts, since, c);
  }

  lemma SendStep(s: State, tag: nat, m: Message, attempts: nat, result: SendResult, since: Time, c: Effort)
    returns (s': State)
    requires Owned(s, tag, m.id, attempts) && s.handlers[tag].message == m
    ensures HasSent(s', tag, m, attempts, result) && SameConfig(s, s')
    ensures CanCost(s', m.id, since, c) ==> CanCost(s, m.id, since, SendEffort(result) + c)
  {
    s' := Next(s, Send(tag, result));
    if CanCost(s', m.id, since, c) { CostStep(s, Send(tag, result), m.id, since, SendEffort(result), c); }
  }

  // ---- a turn that ends in a retry ------------------------------------------------------------------

  lemma MarkRetryStep(s: State, tag: nat, m: Message, attempts: nat, since: Time, c: Effort)
    returns (s': State, t: Ticket)
    requires HasSent(s, tag, m, attempts, Retryable) && attempts < s.maxAttempts
    ensures LetsGo(s', tag, m, attempts, RetryMarked(t)) && SameConfig(s, s')
    ensures CanCost(s', m.id, since, c) ==> CanCost(s, m.id, since, RETRY + c)
  {
    t := s.handlers[tag].pc.t;
    s' := Next(s, RecordRetry(tag, "503", since, Done));
    if CanCost(s', m.id, since, c) { CostStep(s, RecordRetry(tag, "503", since, Done), m.id, since, RETRY, c); }
  }

  // Steps that only move messages.
  lemma QuietStep(s: State, a: Action, id: Id, since: Time, c: Effort)
    requires a.Settle? || a.Expire? || a.Crash? || a.Publish?
    ensures Next(s, a).rows == s.rows
    ensures CanCost(Next(s, a), id, since, c) ==> CanCost(s, id, since, c)
  {
    if CanCost(Next(s, a), id, since, c) { FreeStep(s, a, id, since, c); }
  }

  lemma ParkStep(s: State, tag: nat, m: Message, attempts: nat, t: Ticket, since: Time, c: Effort)
    returns (s': State, p: Parked)
    requires LetsGo(s, tag, m, attempts, RetryMarked(t))
    ensures LetsGo(s', tag, m, attempts, Settling(false)) && SameConfig(s, s')
    ensures p in s'.broker.tiers && p.message.id == m.id
    ensures CanCost(s', m.id, since, c) ==> CanCost(s, m.id, since, multiset{ParkEvent} + c)
  {
    p := Parked(TierForAttempt(t.k), Message(t.channel, m.id));
    s' := Next(s, PublishRetry(tag, Confirmed));
    if CanCost(s', m.id, since, c) { CostStep(s, PublishRetry(tag, Confirmed), m.id, since, multiset{ParkEvent}, c); }
  }

  lemma ExpireStep(s: State, tag: nat, m: Message, attempts: nat, p: Parked, since: Time, c: Effort)
    returns (s': State)
    requires LetsGo(s, tag, m, attempts, Settling(false)) && p in s.broker.tiers && p.message.id == m.id
    ensures Ready(s', p.message, attempts) && SameConfig(s, s')
    ensures CanCost(s', m.id, since, c) ==> CanCost(s, m.id, since, c)
  {
    s' := Next(s, Expire(p));
    QuietStep(s, Expire(p), m.id, since, c);
  }

  const RETRIED := CLAIM + multiset{SendEvent} + RETRY + multiset{ParkEvent}

  lemma RetryTurn(s: State, m: Message, attempts: nat, since: Time, c: Effort) returns (s': State, m': Message)
    requires Ready(s, m, attempts) && attempts + 1 < s.maxAttempts
    ensures m'.id == m.id && Ready(s', m', attempts + 1) && SameConfig(s, s')
    ensures CanCost(s', m.id, since, c) ==> CanCost(s, m.id, since, RETRIED + c)
  {
    var c3 := multiset{ParkEvent} + c;
    var c2 := RETRY + c3;
    var c1 := SendEffort(Retryable) + c2;
    var s1, tag := TakeUp(s, m, attempts, since, c1);
    var s2 := SendStep(s1, tag, m, attempts + 1, Retryable, since, c2);
    var s3, t := MarkRetryStep(s2, tag, m, attempts + 1, since, c3);
    var s4, p := ParkStep(s3, tag, m, attempts + 1, t, since, c);
    s' := ExpireStep(s4, tag, m, attempts + 1, p, since, c);
    m' := p.message;
    assert CLAIM + c1 == RETRIED + c;
  }

  // ---- a turn that ends in a release -----------------------------------------------------------------

  const RELEASED := CLAIM + RELEASE

  lemma ReleaseStep(s: State, tag: nat, m: Message, attempts: nat, since: Time, c: Effort) returns (s': State)
    requires Owned(s, tag, m.id, attempts) && s.handlers[tag].message == m
    ensures LetsGo(s', tag, m, attempts, Settling(true)) && SameConfig(s, s')
    ensures CanCost(s', m.id, since, c) ==> CanCost(s, m.id, since, RELEASE + c)
  {
    s' := Next(s, Release(tag, since, Done));
    if CanCost(s', m.id, since, c) { CostStep(s, Release(tag, since, Done), m.id, since, RELEASE, c); }
  }

  lemma RequeueStep(s: State, tag: nat, m: Message, attempts: nat, since: Time, c: Effort) returns (s': State)
    requires LetsGo(s, tag, m, attempts, Settling(true))
    ensures Ready(s', m, attempts) && SameConfig(s, s')
    ensures CanCost(s', m.id, since, c) ==> CanCost(s, m.id, since, c)
  {
    s' := Next(s, Settle(tag));
    QuietStep(s, Settle(tag), m.id, since, c);
  }

  lemma ReleaseTurn(s: State, m: Message, attempts: nat, since: Time, c: Effort) returns (s': State)
    requires Ready(s, m, attempts)
    ensures Ready(s', m, attempts + 1) && SameConfig(s, s')
    ensures CanCost(s', m.id, since, c) ==> CanCost(s, m.id, since, RELEASED + c)
  {
    var c1 := RELEASE + c;
    var s1, tag := TakeUp(s, m, attempts, since, c1);
    var s2 := ReleaseStep(s1, tag, m, attempts + 1, since, c);
    s' := RequeueStep(s2, tag, m, attempts + 1, since, c);
    assert CLAIM + c1 == RELEASED + c;
  }

  // ---- a turn that ends in a recovery ----------------------------------------------------------------

  const RECOVERED_ONCE := CLAIM + multiset{SendEvent, SuccessEvent} + RECOVERY

  // The handler of a row that has just been sent crashes.
  lemma CrashStep(s: State, tag: nat, m: Message, attempts: nat, since: Time, c: Effort) returns (s': State)
    requires HasSent(s, tag, m, attempts, Success)
    ensures m in s'.broker.work && Held(s'.rows, m.id) && s'.rows[m.id].attempts == attempts && SameConfig(s, s')
    ensures CanCost(s', m.id, since, c) ==> CanCost(s, m.id, since, c)
  {
    s' := Next(s, Crash(tag));
    QuietStep(s, Crash(tag), m.id, since, c);
  }

  // And the row is recovered once it has been processing for long enough.
  lemma RecoverStep(s: State, m: Message, attempts: nat, since: Time, c: Effort) returns (s': State, now: Time)
    requires m in s.broker.work && Held(s.rows, m.id) && s.rows[m.id].attempts == attempts
    ensures since <= now && Ready(s', m, attempts) && SameConfig(s, s')
    ensures CanCost(s', m.id, now, c) ==> CanCost(s, m.id, since, RECOVERY + c)
  {
    var task := FreshKey(s.tasks);
    now := Later(Latest(since, s.rows[m.id].updatedAt), s.staleAfter);
    s' := Next(s, SweepProcessing(task, [m.id], now));
    if CanCost(s', m.id, now, c) { CostStep(s, SweepProcessing(task, [m.id], now), m.id, since, RECOVERY, c); }
  }

  lemma RecoveryTurn(s: State, m: Message, attempts: nat, since: Time, c: Effort) returns (s': State, now: Time)
    requires Ready(s, m, attempts)
    ensures since <= now && Ready(s', m, attempts + 1) && SameConfig(s, s')
    ensures CanCost(s', m.id, now, c) ==> CanCost(s, m.id, since, RECOVERED_ONCE + c)
  {
    var c2 := RECOVERY + c;
    var c1 := SendEffort(Success) + c2;
    var s1, tag := TakeUp(s, m, attempts, since, c1);
    var s2 := SendStep(s1, tag, m, attempts + 1, Success, since, c2);
    var s3 := CrashStep(s2, tag, m, attempts + 1, since, c2);
    s', now := RecoverStep(s3, m, attempts + 1, since, c);
    assert CLAIM + c1 == RECOVERED_ONCE + c;
  }

  // ---- the last turn --------------------------------------------------------------------------------

  const FINISHED := CLAIM + multiset{SendEvent, SuccessEvent, StatusEvent}

  lemma RecordStep(s: State, tag: nat, m: Message, attempts: nat, since: Time, c: Effort) returns (s': State)
    requires HasSent(s, tag, m, attempts, Success)
    ensures CanCost(s', m.id, since, c) ==> CanCost(s, m.id, since, multiset{StatusEvent} + c)
  {
    var record := RecordSent(tag, "", since, since, Done);
    s' := Next(s, record);
    if CanCost(s', m.id, since, c) { CostStep(s, record, m.id, since, multiset{StatusEvent}, c); }
  }

  lemma LastTurn(s: State, m: Message, attempts: nat, since: Time, c: Effort) returns (s': State)
    requires Ready(s, m, attempts)
    ensures CanCost(s', m.id, since, c) ==> CanCost(s, m.id, since, FINISHED + c)
  {
    var c2 := multiset{StatusEvent} + c;
    var c1 := SendEffort(Success) + c2;
    var s1, tag := TakeUp(s, m, attempts, since, c1);
    var s2 := SendStep(s1, tag, m, attempts + 1, Success, since, c2);
    s' := RecordStep(s2, tag, m, attempts + 1, since, c);
    assert CLAIM + c1 == FINISHED + c;
  }

  // ---- all of them together -------------------------------------------------------------------------

  // Retries first, while attempts are left; then recoveries and releases, which no limit stops.
  function Turns(retries: nat, recoveries: nat, releases: nat): Effort {
    if retries > 0 then RETRIED + Turns(retries - 1, recoveries, releases)
    else if recoveries > 0 then RECOVERED_ONCE + Turns(0, recoveries - 1, releases)
    else if releases > 0 then RELEASED + Turns(0, 0, releases - 1)
    else FINISHED
  }

  lemma {:induction false} TurnsCount(retries: nat, recoveries: nat, releases: nat)
    ensures var c, claims := Turns(retries, recoveries, releases), 1 + retries + recoveries + releases;
            && c[ClaimEvent] == claims && c[StatusEvent] == 2 * claims && c[SendEvent] == claims - releases
            && c[SuccessEvent] == 1 + recoveries && c[RecoveryEvent] == recoveries && c[ReleaseEvent] == releases
            && c[RetryEvent] == c[ParkEvent] == retries
    decreases retries, recoveries, releases
  {
    if retries > 0 {
      TurnsCount(retries - 1, recoveries, releases);
    } else if recoveries > 0 {
      TurnsCount(0, recoveries - 1, releases);
    } else if releases > 0 {
      TurnsCount(0, 0, releases - 1);
    }
  }

  lemma {:induction false} CostOfTurns(s: State, m: Message, attempts: nat, since: Time,
        retries: nat, recoveries: nat, releases: nat)
    requires Ready(s, m, attempts) && (retries > 0 ==> attempts + retries < s.maxAttempts)
    ensures CanCost(s, m.id, since, Turns(retries, recoveries, releases))
    decreases retries, recoveries, releases
  {
    if retries > 0 {
      var s', m' := RetryTurn(s, m, attempts, since, Turns(retries - 1, recoveries, releases));
      CostOfTurns(s', m', attempts + 1, since, retries - 1, recoveries, releases);
    } else if recoveries > 0 {
      var s', now := RecoveryTurn(s, m, attempts, since, Turns(0, recoveries - 1, releases));
      CostOfTurns(s', m, attempts + 1, now, 0, recoveries - 1, releases);
    } else if releases > 0 {
      var s' := ReleaseTurn(s, m, attempts, since, Turns(0, 0, releases - 1));
      CostOfTurns(s', m, attempts + 1, since, 0, 0, releases - 1);
    } else {
      var s' := LastTurn(s, m, attempts, since, multiset{});
      CostNothing(s', m.id, since);
      assert FINISHED + multiset{} == FINISHED;
    }
  }

  lemma MarkQueuedStep(s: State, task: nat, m: Message, now: Time, c: Effort) returns (s': State)
    requires m in s.broker.work && m.id in s.rows && s.rows[m.id].status == Pending
    requires task in s.tasks && s.tasks[task].kind.Created? && m.id in s.tasks[task].confirmed
    ensures Claimable(s', m.id) && Ready(s', m, s'.rows[m.id].attempts) && SameConfig(s, s')
    ensures s'.rows[m.id].attempts == s.rows[m.id].attempts
    ensures CanCost(s', m.id, now, c) ==> CanCost(s, m.id, now, multiset{StatusEvent} + c)
  {
    s' := Next(s, MarkQueued(task, now));
    if CanCost(s', m.id, now, c) { CostStep(s, MarkQueued(task, now), m.id, now, multiset{StatusEvent}, c); }
  }

  lemma InsertCosts(maxAttempts: int, staleAfter: Time, c: Effort)
    requires CanCost(Stage(1, maxAttempts, staleAfter), 7, 0, c)
    ensures CanCost(Init(maxAttempts, staleAfter), 7, 0, c)
  {
    InsertStage(maxAttempts, staleAfter);
    assert Stage(0, maxAttempts, staleAfter) == Init(maxAttempts, staleAfter);
    FreeStep(Init(maxAttempts, staleAfter), ORPHANING[0], 7, 0, c);
  }

  lemma PublishCosts(maxAttempts: int, staleAfter: Time, c: Effort)
    requires CanCost(Stage(2, maxAttempts, staleAfter), 7, 0, c)
    ensures CanCost(Stage(1, maxAttempts, staleAfter), 7, 0, c)
  {
    PublishStage(maxAttempts, staleAfter);
    QuietStep(Stage(1, maxAttempts, staleAfter), ORPHANING[1], 7, 0, c);
  }

  // A notification is created, published and marked queued.
  lemma QueuedFromStart(maxAttempts: int, staleAfter: Time, c: Effort) returns (s: State)
    ensures Ready(s, SOME_MESSAGE, 0) && s.maxAttempts == maxAttempts
    ensures CanCost(s, 7, 0, c) ==> CanCost(Init(maxAttempts, staleAfter), 7, 0, multiset{StatusEvent} + c)
  {
    s := MarkQueuedStep(Stage(2, maxAttempts, staleAfter), 0, SOME_MESSAGE, 0, c);
    if CanCost(s, 7, 0, c) {
      var all := multiset{StatusEvent} + c;
      PublishCosts(maxAttempts, staleAfter, all);
      InsertCosts(maxAttempts, staleAfter, all);
    }
  }

  // A run that takes all the effort that so many recoveries and releases allow.
  ghost predicate Exhausts(maxAttempts: int, staleAfter: Time, run: seq<Action>, recoveries: nat, releases: nat) {
    var s := Init(maxAttempts, staleAfter);
    && InTime(0, run)
    && Times(RecoveryEvent, s, run, 7) == recoveries && Times(ReleaseEvent, s, run, 7) == releases
    && Times(SuccessEvent, s, run, 7) == 1 + recoveries
    && Times(ClaimEvent, s, run, 7) == Limit(maxAttempts) + recoveries + releases
    && Times(SendEvent, s, run, 7) == Limit(maxAttempts) + recoveries
    && Times(RetryEvent, s, run, 7) == Limit(maxAttempts) - 1 && Times(ParkEvent, s, run, 7) == Limit(maxAttempts) - 1
    && Times(StatusEvent, s, run, 7) == 1 + 2 * (Limit(maxAttempts) + recoveries + releases)
  }

  lemma ExhaustsBy(maxAttempts: int, staleAfter: Time, run: seq<Action>, recoveries: nat, releases: nat)
    requires Costs(Init(maxAttempts, staleAfter), run, 7, 0,
                   multiset{StatusEvent} + Turns(Limit(maxAttempts) - 1, recoveries, releases))
    ensures Exhausts(maxAttempts, staleAfter, run, recoveries, releases)
  {
    TurnsCount(Limit(maxAttempts) - 1, recoveries, releases);
  }

  /** For every configuration and all numbers of recoveries and releases there is a run with
      exactly that many in which the successful Sends, the claims, the Sends, the retries and
      the status changes all are what the upper bounds allow. */
  lemma EveryBoundIsReached(maxAttempts: int, staleAfter: Time, recoveries: nat, releases: nat)
    returns (run: seq<Action>)
    ensures InTime(0, run)
    ensures var s, limit := Init(maxAttempts, staleAfter), if maxAttempts < 1 then 1 else maxAttempts;
            && Times(RecoveryEvent, s, run, 7) == recoveries && Times(ReleaseEvent, s, run, 7) == releases
            && Times(SuccessEvent, s, run, 7) == 1 + recoveries
            && Times(ClaimEvent, s, run, 7) == limit + recoveries + releases
            && Times(SendEvent, s, run, 7) == limit + recoveries
            && Times(RetryEvent, s, run, 7) == Times(ParkEvent, s, run, 7) == limit - 1
            && Times(StatusEvent, s, run, 7) == 1 + 2 * (limit + recoveries + releases)
  {
    var retries := Limit(maxAttempts) - 1;
    var c := Turns(retries, recoveries, releases);
    var s := QueuedFromStart(maxAttempts, staleAfter, c);
    CostOfTurns(s, SOME_MESSAGE, 0, 0, retries, recoveries, releases);
    run :| Costs(Init(maxAttempts, staleAfter), run, 7, 0, multiset{StatusEvent} + c);
    ExhaustsBy(maxAttempts, staleAfter, run, recoveries, releases);
  }

  /** In particular, for every number of recoveries there is a run with exactly that many, in
      which the provider accepts the notification one more time than that. */
  lemma PriceIsExact(maxAttempts: int, staleAfter: Time, n: nat) returns (run: seq<Action>)
    ensures InTime(0, run)
    ensures Times(RecoveryEvent, Init(maxAttempts, staleAfter), run, 7) == n
    ensures Times(SuccessEvent, Init(maxAttempts, staleAfter), run, 7) == n + 1
  {
    run := EveryBoundIsReached(maxAttempts, staleAfter, n, 0);
  }
}
