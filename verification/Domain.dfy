/** The notification model and its status state machine: the rules every other
    component must respect.
 */
module Domain {

  datatype Option<+T> = None | Some(value: T)

  // UUIDs and instants are compared only for identity and order.
  type Id = nat
  type Time = int

  const NIL: Id := 0

  datatype Channel = Sms | Email | Push

  datatype Status = Pending | Scheduled | Queued | Processing | Retrying | Sent | Failed | Cancelled

  datatype Notification = Notification(
    batchId: Option<Id>,
    recipient: string,
    channel: Channel,
    content: string,
    status: Status,
    idempotencyKey: Option<string>,
    scheduledAt: Option<Time>,
    attempts: nat,
    lastError: Option<string>,
    providerMessageId: Option<string>,
    createdAt: Time,
    updatedAt: Time,
    sentAt: Option<Time>)

  const ALL_STATUSES: seq<Status> :=
    [Pending, Scheduled, Queued, Processing, Retrying, Sent, Failed, Cancelled]

  function Transitions(from: Status): seq<Status> {
    match from
    case Pending => [Queued, Processing, Cancelled]
    case Scheduled => [Queued, Cancelled]
    case Queued => [Processing, Cancelled]
    case Processing => [Sent, Retrying, Failed]
    case Retrying => [Processing, Failed]
    case Sent => []
    case Failed => []
    case Cancelled => []
  }

  predicate CanTransition(from: Status, to: Status) {
    to in Transitions(from)
  }

  function AllowedInto(to: Status): set<Status> {
    set from | from in ALL_STATUSES && CanTransition(from, to)
  }

  predicate Terminal(status: Status) {
    Transitions(status) == []
  }

  // A row that has never been claimed.
  predicate Untouched(status: Status) {
    status.Pending? || status.Scheduled? || status.Queued? || status.Cancelled?
  }

  /** The allowed-from set of a guarded update: exactly the statuses with a legal
      step into `to`, each listed once. */
  method StatusesAllowedInto(to: Status) returns (allowedFrom: seq<Status>)
    ensures forall from :: from in allowedFrom <==> CanTransition(from, to)
    ensures (set from | from in allowedFrom) == AllowedInto(to)
    ensures forall i, j :: 0 <= i < j < |allowedFrom| ==> allowedFrom[i] != allowedFrom[j]
  {
    allowedFrom := [];
    for i := 0 to |ALL_STATUSES|
      invariant forall from :: from in allowedFrom <==> from in ALL_STATUSES[..i] && CanTransition(from, to)
      invariant forall i, j :: 0 <= i < j < |allowedFrom| ==> allowedFrom[i] != allowedFrom[j]
    {
      assert ALL_STATUSES[..i + 1] == ALL_STATUSES[..i] + [ALL_STATUSES[i]];
      if CanTransition(ALL_STATUSES[i], to) {
        allowedFrom := allowedFrom + [ALL_STATUSES[i]];
      }
    }
    assert ALL_STATUSES[..|ALL_STATUSES|] == ALL_STATUSES;
    forall from: Status ensures from in ALL_STATUSES { EveryStatusListed(from); }
  }

  lemma EveryStatusListed(status: Status)
    ensures status in ALL_STATUSES
  {
    var k := match status
      case Pending => 0 case Scheduled => 1 case Queued => 2 case Processing => 3
      case Retrying => 4 case Sent => 5 case Failed => 6 case Cancelled => 7;
    assert ALL_STATUSES[k] == status;
  }

  lemma AllowedIntoIsExact(from: Status, to: Status)
    ensures from in AllowedInto(to) <==> CanTransition(from, to)
  {
    EveryStatusListed(from);
  }

  method CancellableStatuses() returns (allowedFrom: seq<Status>)
    ensures (set from | from in allowedFrom) == AllowedInto(Cancelled) == {Pending, Scheduled, Queued}
  {
    allowedFrom := StatusesAllowedInto(Cancelled);
    forall from ensures from in AllowedInto(Cancelled) <==> from in {Pending, Scheduled, Queued} {
      AllowedIntoIsExact(from, Cancelled);
    }
  }

  // How far along the lifecycle a status is, the processing/retrying cycle aside.
  function Rank(status: Status): nat {
    match status
    case Pending => 0
    case Scheduled => 0
    case Queued => 1
    case Processing => 2
    case Retrying => 2
    case Sent => 3
    case Failed => 3
    case Cancelled => 3
  }
}
