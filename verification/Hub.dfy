/** The WebSocket hub: who may send on and close a client's channel, and what each connection
    gets to read over any sequence of connects, disconnects, events, reads and shutdown.
 */
module Hub {
  import opened Domain

  const CLIENT_SEND_BUFFER := 32

  datatype HubEvent = HubEvent(notificationId: Id, payload: string)

  // filterId NIL means every notification.
  predicate Wants(filterId: Id, event: HubEvent) {
    filterId == NIL || filterId == event.notificationId
  }

  class WsClient {
    const filterId: Id
    var buffer: seq<string>
    var closed: bool
    ghost var received: seq<string>

    constructor (filterId: Id)
      ensures this.filterId == filterId && buffer == [] && !closed && received == []
    {
      this.filterId := filterId;
      buffer, closed, received := [], false, [];
    }

    // Everything sent on the channel so far: what was read, and what is waiting.
    ghost function Stream(): seq<string>
      reads this
    {
      received + buffer
    }

    // Sending on a closed channel, or closing it again, is an error.
    method TrySend(payload: string) returns (ok: bool)
      requires !closed
      modifies this`buffer
      ensures ok <==> |old(buffer)| < 32
      ensures buffer == if ok then old(buffer) + [payload] else old(buffer)
    {
      ok := |buffer| < CLIENT_SEND_BUFFER;
      if ok { buffer := buffer + [payload]; }
    }

    method Close()
      requires !closed
      modifies this`closed
      ensures closed
    {
      closed := true;
    }

    // A closed channel still hands out what it holds.
    method Receive() returns (payload: Option<string>)
      modifies this`buffer, this`received
      ensures old(buffer) == [] ==> payload.None? && buffer == [] && received == old(received)
      ensures old(buffer) != [] ==> payload == Some(old(buffer)[0]) && buffer == old(buffer)[1..]
      ensures received == old(received) + (if payload.Some? then [payload.value] else [])
      ensures Stream() == old(Stream())
    {
      payload := None;
      if buffer != [] {
        payload := Some(buffer[0]);
        received, buffer := received + [buffer[0]], buffer[1..];
      }
    }
  }

  class Hub {
    var clients: set<WsClient>
    var stopped: bool

    // The hub's own clients are exactly those whose channels it may still send on and close.
    predicate Valid()
      reads this, clients
    {
      && (forall c :: c in clients ==> !c.closed && |c.buffer| <= CLIENT_SEND_BUFFER)
      && (stopped ==> clients == {})
    }

    constructor ()
      ensures Valid() && clients == {} && !stopped
    {
      clients, stopped := {}, false;
    }

    method Register(client: WsClient)
      requires Valid() && !stopped && !client.closed && |client.buffer| <= CLIENT_SEND_BUFFER
      modifies this
      ensures Valid() && clients == old(clients) + {client} && !stopped
    {
      clients := clients + {client};
    }

    method Unregister(client: WsClient)
      requires Valid()
      modifies this, client
      ensures Valid() && clients == old(clients) - {client} && stopped == old(stopped)
      ensures client.closed == (old(client in clients) || old(client.closed))
      ensures client.buffer == old(client.buffer) && client.received == old(client.received)
    {
      if client in clients {
        clients := clients - {client};
        client.Close();
      }
    }

    /** One event: every client that wants it gets it, except those whose buffer is full, which
        are dropped and closed with their backlog intact. */
    method Deliver(event: HubEvent)
      requires Valid()
      modifies this, clients
      ensures Valid() && stopped == old(stopped)
      ensures clients == set c | c in old(clients)
                && !(c.filterId in {NIL, event.notificationId} && old(|c.buffer| == 32))
      ensures forall c :: c in old(clients) ==>
                && (c.closed <==> c !in clients) && c.received == old(c.received)
                && c.buffer == if c.filterId in {NIL, event.notificationId} && c in clients
                               then old(c.buffer) + [event.payload]
                               else old(c.buffer)
    {
      var todo := clients;
      while todo != {}
        invariant todo <= clients <= old(clients) && stopped == old(stopped) && (stopped ==> clients == {})
        invariant forall c :: c in todo ==> !c.closed && c.buffer == old(c.buffer)
        invariant forall c :: c in old(clients) ==> c.received == old(c.received)
        invariant forall c :: c in old(clients) - todo ==>
                    && (c in clients <==> !old(Wants(c.filterId, event) && |c.buffer| == CLIENT_SEND_BUFFER))
                    && (c.closed <==> c !in clients)
                    && c.buffer == if Wants(c.filterId, event) && c in clients
                                   then old(c.buffer) + [event.payload]
                                   else old(c.buffer)
        decreases |todo|
      {
        var client :| client in todo;
        todo := todo - {client};
        if client.filterId != NIL && client.filterId != event.notificationId { continue; }
        var sent := client.TrySend(event.payload);
        if !sent {
          clients := clients - {client};
          client.Close();
        }
      }
    }

    method Stop()
      requires Valid()
      modifies this, clients
      ensures Valid() && stopped && clients == {}
      ensures forall c :: c in old(clients) ==> c.closed && c.buffer == old(c.buffer) && c.received == old(c.received)
    {
      var todo := clients;
      while todo != {}
        invariant todo <= old(clients) && clients == old(clients)
        invariant forall c :: c in old(clients) ==> c.buffer == old(c.buffer) && c.received == old(c.received)
        invariant forall c :: c in old(clients) ==> (c.closed <==> c !in todo)
        decreases |todo|
      {
        var client :| client in todo;
        todo := todo - {client};
        client.Close();
      }
      clients, stopped := {}, true;
    }
  }

  // ---- what a connection is owed ------------------------------------------------------------------

  // What happens, in the order the hub sees it. Each connection has its own number.
  datatype Step =
    | Join(conn: nat, filterId: Id)
    | Leave(conn: nat)
    | Process(event: HubEvent)
    | Read(conn: nat)
    | Shutdown

  predicate Down(steps: seq<Step>) { Shutdown in steps }

  // The filter a connection joined with, if it joined before the shutdown.
  function FilterOf(steps: seq<Step>, conn: nat): Option<Id> {
    if steps == [] then None
    else
      var init, last := steps[..|steps| - 1], steps[|steps| - 1];
      if FilterOf(init, conn).Some? then FilterOf(init, conn)
      else if last.Join? && last.conn == conn && !Down(init) then Some(last.filterId)
      else None
  }

  // The payloads of the matching events since the connection joined.
  function Due(steps: seq<Step>, conn: nat): seq<string> {
    if steps == [] then []
    else
      var init, last := steps[..|steps| - 1], steps[|steps| - 1];
      Due(init, conn)
      + if last.Process? && FilterOf(init, conn).Some? && Wants(FilterOf(init, conn).value, last.event)
        then [last.event.payload] else []
  }

  // What the hub has for a connection: while it holds it, what it has sent and how much of that
  // is still unread; what it had sent to one it has let go.
  datatype Link =
    | Absent
    | Held(filterId: Id, sent: seq<string>, backlog: nat)
    | Dropped(filterId: Id, sent: seq<string>)

  // A full buffer drops the client and not the event.
  function Moved(link: Link, step: Step, conn: nat, down: bool): Link {
    match step
    case Join(c, filterId) => if c == conn && link.Absent? && !down then Held(filterId, [], 0) else link
    case Leave(c) => if c == conn && link.Held? then Dropped(link.filterId, link.sent) else link
    case Process(event) =>
      if !link.Held? || !Wants(link.filterId, event) then link
      else if link.backlog < CLIENT_SEND_BUFFER then Held(link.filterId, link.sent + [event.payload], link.backlog + 1)
      else Dropped(link.filterId, link.sent)
    case Read(c) => if c == conn && link.Held? && link.backlog > 0 then link.(backlog := link.backlog - 1) else link
    case Shutdown => if link.Held? then Dropped(link.filterId, link.sent) else link
  }

  function LinkOf(steps: seq<Step>, conn: nat): Link {
    if steps == [] then Absent
    else Moved(LinkOf(steps[..|steps| - 1], conn), steps[|steps| - 1], conn, Down(steps[..|steps| - 1]))
  }

  lemma Snoc(steps: seq<Step>, last: Step)
    ensures Down(steps + [last]) <==> Down(steps) || last.Shutdown?
    ensures forall conn :: LinkOf(steps + [last], conn) == Moved(LinkOf(steps, conn), last, conn, Down(steps))
  {
    var all := steps + [last];
    assert all[..|all| - 1] == steps && all[|steps|] == last;
    assert forall x :: x in all <==> x in steps || x == last;
  }

  /** Once the hub is down it holds nobody; and what it has sent to a connection is everything
      the connection is due while it is held, and a prefix of that for ever after. */
  lemma {:induction false} SentIsDue(steps: seq<Step>, conn: nat)
    ensures var link := LinkOf(steps, conn);
            && (Down(steps) ==> !link.Held?)
            && FilterOf(steps, conn) == (if link.Absent? then None else Some(link.filterId))
            && (link.Absent? ==> Due(steps, conn) == [])
            && (link.Held? ==> link.sent == Due(steps, conn) && link.backlog <= CLIENT_SEND_BUFFER)
            && (link.Dropped? ==> link.sent <= Due(steps, conn))
  {
    if steps != [] {
      var init := steps[..|steps| - 1];
      SentIsDue(init, conn);
      assert forall x :: x in steps <==> x in init || x == steps[|steps| - 1];
    }
  }

  // Step i ends the connection: it leaves, the hub stops, or an event it wants finds its buffer full.
  predicate EndsAt(steps: seq<Step>, i: nat, conn: nat) {
    && i < |steps| && LinkOf(steps[..i], conn).Held?
    && var link := LinkOf(steps[..i], conn);
       || steps[i] == Leave(conn) || steps[i].Shutdown?
       || (steps[i].Process? && Wants(link.filterId, steps[i].event) && link.backlog == CLIENT_SEND_BUFFER)
  }

  lemma {:induction false} FilterStays(steps: seq<Step>, i: nat, conn: nat)
    requires i <= |steps| && FilterOf(steps[..i], conn).Some?
    ensures FilterOf(steps, conn).Some?
  {
    if i < |steps| {
      assert steps[..|steps| - 1][..i] == steps[..i];
      FilterStays(steps[..|steps| - 1], i, conn);
    } else {
      assert steps[..i] == steps;
    }
  }

  lemma EndsBefore(steps: seq<Step>, n: nat, conn: nat)
    requires n <= |steps|
    ensures forall i: nat :: i < n ==> (EndsAt(steps, i, conn) <==> EndsAt(steps[..n], i, conn))
  {
    forall i: nat | i < n ensures EndsAt(steps, i, conn) <==> EndsAt(steps[..n], i, conn) {
      assert steps[..n][..i] == steps[..i];
    }
  }

  /** A connection is held if and only if it has joined and nothing of that kind has ended it. */
  lemma {:induction false} HeldIffNotEnded(steps: seq<Step>, conn: nat)
    ensures LinkOf(steps, conn).Held? <==> FilterOf(steps, conn).Some? && forall i: nat :: !EndsAt(steps, i, conn)
  {
    SentIsDue(steps, conn);
    if steps != [] {
      var n := |steps| - 1;
      SentIsDue(steps[..n], conn);
      HeldIffNotEnded(steps[..n], conn);
      EndsBefore(steps, n, conn);
      assert LinkOf(steps, conn) == Moved(LinkOf(steps[..n], conn), steps[n], conn, Down(steps[..n]));
      if LinkOf(steps, conn).Held? {
        forall i: nat ensures !EndsAt(steps, i, conn) {
          if EndsAt(steps[..n], i, conn) {
            SentIsDue(steps[..n][..i], conn);
            FilterStays(steps[..n], i, conn);
          }
        }
      } else if LinkOf(steps[..n], conn).Held? {
        assert EndsAt(steps, n, conn);
      } else if i: nat :| EndsAt(steps[..n], i, conn) {
        assert EndsAt(steps, i, conn);
      }
    }
  }

  /** Gap-free: what a connection was sent before it was let go is exactly what it was due by the
      step that ended it, so it misses a tail of its events and nothing else. */
  lemma {:induction false} SentUntilItsEnd(steps: seq<Step>, conn: nat)
    ensures LinkOf(steps, conn).Dropped? ==>
              exists i: nat :: EndsAt(steps, i, conn) && LinkOf(steps, conn).sent == Due(steps[..i], conn)
  {
    if LinkOf(steps, conn).Dropped? {
      var n := |steps| - 1;
      assert LinkOf(steps, conn) == Moved(LinkOf(steps[..n], conn), steps[n], conn, Down(steps[..n]));
      EndsBefore(steps, n, conn);
      if LinkOf(steps[..n], conn).Held? {
        SentIsDue(steps[..n], conn);
        assert EndsAt(steps, n, conn);
      } else {
        SentUntilItsEnd(steps[..n], conn);
        var i: nat :| EndsAt(steps[..n], i, conn) && LinkOf(steps[..n], conn).sent == Due(steps[..n][..i], conn);
        assert steps[..n][..i] == steps[..i] && EndsAt(steps, i, conn);
      }
    }
  }

  class Sessions {
    const hub: Hub
    var clients: map<nat, WsClient>
    ghost var steps: seq<Step>

    /** The hub holds a connection, and has sent to it, and closed its channel, exactly as its
        link says. */
    ghost predicate Served(conn: nat)
      requires conn in clients
      reads this, hub, clients[conn]
    {
      var client, link := clients[conn], LinkOf(steps, conn);
      && !link.Absent? && client.filterId == link.filterId && client.Stream() == link.sent
      && (client in hub.clients <==> link.Held?) && (client.closed <==> link.Dropped?)
      && (link.Held? ==> |client.buffer| == link.backlog)
    }

    ghost predicate Valid()
      reads this, hub, hub.clients, clients.Values
    {
      && hub.Valid() && (hub.stopped <==> Down(steps))
      && (forall conn :: conn in clients <==> !LinkOf(steps, conn).Absent?)
      && (forall a, b :: a in clients && b in clients && a != b ==> clients[a] != clients[b])
      && (forall conn :: conn in clients ==> Served(conn))
    }

    constructor ()
      ensures Valid() && steps == [] && clients == map[] && fresh(hub) && hub.clients == {}
    {
      hub := new Hub();
      clients, steps := map[], [];
    }

    // Steps that move no link.
    ghost method Note(step: Step)
      requires Valid() && forall conn :: Moved(LinkOf(steps, conn), step, conn, Down(steps)) == LinkOf(steps, conn)
      requires !step.Shutdown?
      modifies this`steps
      ensures Valid() && steps == old(steps) + [step]
    {
      Snoc(steps, step);
      steps := steps + [step];
    }

    method Accept(conn: nat, filterId: Id)
      requires Valid() && conn !in clients && !hub.stopped
      modifies this, hub
      ensures Valid() && steps == old(steps) + [Join(conn, filterId)]
      ensures conn in clients && fresh(clients[conn]) && clients == old(clients)[conn := clients[conn]]
      ensures clients[conn].filterId == filterId && clients[conn].buffer == [] && !clients[conn].closed
      ensures hub.clients == old(hub.clients) + {clients[conn]}
    {
      var client := new WsClient(filterId);
      assert LinkOf(steps, conn).Absent? && forall k :: k in clients ==> clients[k] != client && old(Served(k));
      hub.Register(client);
      Snoc(steps, Join(conn, filterId));
      steps := steps + [Join(conn, filterId)];
      clients := clients[conn := client];
      assert LinkOf(steps, conn) == Held(filterId, [], 0);
      forall k | k in clients ensures Served(k) { }
    }

    // serveWS: each connection registers one client of its own, unless the hub is done.
    method Connect(conn: nat, filterId: Id)
      requires Valid()
      modifies this, hub
      ensures Valid() && steps == old(steps) + [Join(conn, filterId)]
      ensures conn in old(clients) || old(hub.stopped) ==> clients == old(clients) && hub.clients == old(hub.clients)
      ensures conn !in old(clients) && !old(hub.stopped) ==>
                && conn in clients && clients == old(clients)[conn := clients[conn]]
                && hub.clients == old(hub.clients) + {clients[conn]} && clients[conn].filterId == filterId
      ensures forall k :: k in clients ==> (k in old(clients) && clients[k] == old(clients[k])) || fresh(clients[k])
      ensures forall c :: c in hub.clients ==> c in old(hub.clients) || fresh(c)
    {
      if conn !in clients && !hub.stopped {
        Accept(conn, filterId);
      } else {
        Note(Join(conn, filterId));
      }
    }

    method Disconnect(conn: nat)
      requires Valid()
      modifies this, hub, hub.clients, clients.Values
      ensures Valid() && steps == old(steps) + [Leave(conn)] && clients == old(clients)
      ensures hub.clients == old(hub.clients) - if conn in clients then {clients[conn]} else {}
      ensures conn in clients ==> clients[conn].closed
    {
      if conn in clients && !hub.stopped {
        Snoc(steps, Leave(conn));
        steps := steps + [Leave(conn)];
        hub.Unregister(clients[conn]);
      } else {
        forall k ensures Moved(LinkOf(steps, k), Leave(conn), k, Down(steps)) == LinkOf(steps, k) {
          if k in clients { assert Served(k); }
        }
        Note(Leave(conn));
      }
    }

    method Broadcast(event: HubEvent)
      requires Valid()
      modifies this, hub, hub.clients, clients.Values
      ensures Valid() && steps == old(steps) + [Process(event)] && clients == old(clients)
      ensures hub.clients == set c | c in old(hub.clients)
                && !(c.filterId in {NIL, event.notificationId} && old(|c.buffer| == 32))
      ensures forall c :: c in old(hub.clients) ==>
                && (c.closed <==> c !in hub.clients) && c.received == old(c.received)
                && c.buffer == if c.filterId in {NIL, event.notificationId} && c in hub.clients
                               then old(c.buffer) + [event.payload]
                               else old(c.buffer)
    {
      if hub.stopped {
        forall k ensures Moved(LinkOf(steps, k), Process(event), k, Down(steps)) == LinkOf(steps, k) {
          if k in clients { assert Served(k); }
        }
        Note(Process(event));
      } else {
        Fan(event);
      }
    }

    method Fan(event: HubEvent)
      requires Valid() && !hub.stopped
      modifies this, hub, hub.clients, clients.Values
      ensures Valid() && steps == old(steps) + [Process(event)] && clients == old(clients)
      ensures hub.clients == set c | c in old(hub.clients)
                && !(c.filterId in {NIL, event.notificationId} && old(|c.buffer| == 32))
      ensures forall c :: c in old(hub.clients) ==>
                && (c.closed <==> c !in hub.clients) && c.received == old(c.received)
                && c.buffer == if c.filterId in {NIL, event.notificationId} && c in hub.clients
                               then old(c.buffer) + [event.payload]
                               else old(c.buffer)
    {
      Snoc(steps, Process(event));
      steps := steps + [Process(event)];
      hub.Deliver(event);
      forall k | k in clients ensures Served(k) { assert old(Served(k)); }
    }

    method ReadNext(conn: nat) returns (payload: Option<string>)
      requires Valid()
      modifies this, hub, hub.clients, clients.Values
      ensures Valid() && steps == old(steps) + [Read(conn)] && clients == old(clients)
                && hub.clients <= old(hub.clients)
      ensures payload == if conn in clients && old(clients[conn].buffer) != [] then Some(old(clients[conn].buffer)[0])
                         else None
      ensures conn in clients ==> clients[conn].Stream() == old(clients[conn].Stream())
    {
      Snoc(steps, Read(conn));
      steps := steps + [Read(conn)];
      payload := None;
      if conn in clients {
        payload := clients[conn].Receive();
        forall k | k in clients ensures Served(k) { assert old(Served(k)); }
      }
    }

    method Stop()
      requires Valid()
      modifies this, hub, hub.clients, clients.Values
      ensures Valid() && steps == old(steps) + [Shutdown] && clients == old(clients) && hub.clients == {}
      ensures forall conn :: conn in clients ==> clients[conn].closed
    {
      Snoc(steps, Shutdown);
      steps := steps + [Shutdown];
      if !hub.stopped { hub.Stop(); }
      forall k | k in clients ensures Served(k) { assert old(Served(k)); }
    }
  }

  /** Any sequence of connects, disconnects, events, reads and shutdown: afterwards every
      connection has been served, and is held or closed, as its link says. */
  method Run(script: seq<Step>) returns (sessions: Sessions)
    ensures fresh(sessions) && sessions.Valid() && sessions.steps == script
    ensures forall conn :: conn in sessions.clients <==> !LinkOf(script, conn).Absent?
    ensures forall conn :: conn in sessions.clients ==>
              var client, link := sessions.clients[conn], LinkOf(script, conn);
              && client.filterId == link.filterId && client.received + client.buffer == link.sent
              && (client in sessions.hub.clients <==> link.Held?) && (client.closed <==> link.Dropped?)
              && (link.Held? ==> |client.buffer| == link.backlog)
  {
    sessions := new Sessions();
    for i := 0 to |script|
      invariant fresh(sessions) && fresh(sessions.hub) && fresh(sessions.hub.clients)
      invariant forall k :: k in sessions.clients ==> fresh(sessions.clients[k])
      invariant sessions.Valid() && sessions.steps == script[..i]
    {
      assert script[..i + 1] == script[..i] + [script[i]];
      match script[i] {
        case Join(conn, filterId) => sessions.Connect(conn, filterId);
        case Leave(conn) => sessions.Disconnect(conn);
        case Process(event) => sessions.Broadcast(event);
        case Read(conn) => var _ := sessions.ReadNext(conn);
        case Shutdown => sessions.Stop();
      }
    }
    assert script[..|script|] == script;
    assert forall conn :: conn in sessions.clients ==> sessions.Served(conn);
  }
}
