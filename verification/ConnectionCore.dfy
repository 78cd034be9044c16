/** What every message keeps of the handler's own state, and of what it has emitted. */
module ConnectionCore {
  import opened ConnectionLogic
  import opened Counting
  import opened Hashes
  import opened Operations
  import opened Wrappers
  import O = OperationScheduling
  import S = SubscriptionScheduling
  import SubscriptionOperations

  /** State, phase and the fields that go with them. */
  ghost predicate Shape(c: Core) {
    && (c.state == Connected ==> c.phase == ConnectedPhase && c.connection.Some? && c.heartbeat.Some? && c.wasConnected)
    && (c.state == Connecting ==> !c.wasConnected && c.phase != InvalidPhase && c.phase != ConnectedPhase)
    && (c.state == Connecting
        && (c.phase == ConnectionEstablishing || c.phase == Authentication || c.phase == Identification) ==>
          c.connection.Some?)
    && (c.state == Connecting && c.phase == Authentication ==> c.auth.Some? && c.heartbeat.Some?)
    && (c.state == Connecting && c.phase == Identification ==> c.identity.Some?)
    && (c.identity.Some? ==> c.heartbeat.Some?)
    && (c.state == Connecting && c.phase == Reconnecting ==> c.reconn.Some?)
    && (c.state == Init ==> c.connection.None? && !c.wasConnected)
    && (c.state == Closed ==> c.connection.None?)
    && (c.connection.Some? ==> c.connection.value < c.nextConn)
  }

  /** Whether the last of the connection events was `connected`; `None` when they do not alternate. */
  ghost function Up(events: seq<Event>): Option<bool> {
    if events == [] then Some(false)
    else
      var before, last := Up(events[..|events| - 1]), events[|events| - 1];
      if last == ConnectedEvent then (if before == Some(false) then Some(true) else None)
      else if last == DisconnectedEvent then (if before == Some(true) then Some(false) else None)
      else before
  }

  ghost function Attempts(events: seq<Event>): nat {
    Count(events, (e: Event) => if e == ReconnectingEvent then 1 else 0)
  }

  /** The reconnection count. */
  function Tried(c: Core): nat { if c.reconn.Some? then c.reconn.value.attempt else 0 }

  ghost predicate NoClosed(events: seq<Event>) { forall i :: 0 <= i < |events| ==> events[i] != ClosedEvent }

  /**
   * The emitted events. `connected` and `disconnected` alternate, `closed` comes last if at all, and the reconnection
   * count is the number of `reconnecting` events since its last reset, which never exceeds a limit that is set.
   */
  ghost predicate History(c: Core, s: Settings) {
    && Up(c.emitted).Some? && (c.state != Closed ==> Up(c.emitted) == Some(c.wasConnected))
    && (c.state != Closed ==> NoClosed(c.emitted))
    && (c.emitted != [] ==> NoClosed(c.emitted[..|c.emitted| - 1]))
    && c.resetAt <= |c.emitted|
    && (c.state != Closed ==> Attempts(c.emitted[c.resetAt..]) == Tried(c))
    && (s.maxReconnections >= 0 ==> Attempts(c.emitted[c.resetAt..]) <= s.maxReconnections)
  }

  ghost predicate CoreOk(c: Core, s: Settings) { Shape(c) && History(c, s) }

  /** One more event. */
  lemma Emitted(events: seq<Event>, e: Event, from: nat)
    requires from <= |events|
    ensures var more := events + [e];
            && Up(more) == (if e == ConnectedEvent then (if Up(events) == Some(false) then Some(true) else None)
                            else if e == DisconnectedEvent then (if Up(events) == Some(true) then Some(false) else None)
                            else Up(events))
            && Attempts(more[from..]) == Attempts(events[from..]) + (if e == ReconnectingEvent then 1 else 0)
            && (NoClosed(events) && e != ClosedEvent ==> NoClosed(more)) && more[..|more| - 1] == events
  {
    var more := events + [e];
    assert more[..|events|] == events;
    assert more[from..] == events[from..] + [e];
    CountSnoc(events[from..], e, (e: Event) => if e == ReconnectingEvent then 1 else 0);
  }

  /** The same history with other fields changed. */
  lemma SameHistory(c: Core, d: Core, s: Settings)
    requires History(c, s) && (d.state == Closed <==> c.state == Closed)
    requires d.emitted == c.emitted && d.resetAt == c.resetAt && Tried(d) == Tried(c)
             && d.wasConnected == c.wasConnected
    ensures History(d, s)
  {
    hide Up, Attempts, NoClosed, Tried;
  }

  /** One more event, short of the last. */
  lemma MoreHistory(c: Core, d: Core, s: Settings, e: Event)
    requires History(c, s) && c.state != Closed && d.state != Closed && e != ClosedEvent
    requires d.emitted == c.emitted + [e] && d.resetAt == c.resetAt
    requires if e == ConnectedEvent then !c.wasConnected && d.wasConnected
             else if e == DisconnectedEvent then c.wasConnected && !d.wasConnected
             else d.wasConnected == c.wasConnected
    requires Tried(d) == Tried(c) + if e == ReconnectingEvent then 1 else 0
    requires e == ReconnectingEvent && s.maxReconnections >= 0 ==> Tried(d) <= s.maxReconnections
    ensures History(d, s)
  {
    hide Up, Attempts, NoClosed, Tried;
    Emitted(c.emitted, e, c.resetAt);
  }

  lemma StartConnectionOk(c: Core, s: Settings)
    requires CoreOk(c, s)
    ensures CoreOk(StartConnection(c), s)
  {
    hide History;
    SameHistory(c, StartConnection(c), s);
  }

  lemma ClosedOk(c: Core, s: Settings, hasError: bool)
    requires CoreOk(c, s) && c.state != Closed
    ensures CoreOk(CoreClosed(c, s, hasError), s)
  {
    hide CoreOk, Emit, NoClosed;
    var shut := c.(state := Closed, connection := None);
    ShutOk(c, s);
    LastEvents(shut, s);
  }

  lemma ShutOk(c: Core, s: Settings)
    requires CoreOk(c, s) && c.state != Closed
    ensures var shut := c.(state := Closed, connection := None);
            CoreOk(shut, s) && NoClosed(shut.emitted)
  {
    hide Up, Attempts;
  }

  /** A closed handler may still say so, after an error or without one. */
  lemma LastEvents(c: Core, s: Settings)
    requires CoreOk(c, s) && c.state == Closed && NoClosed(c.emitted)
    ensures CoreOk(Emit(c, ClosedEvent), s) && CoreOk(Emit(Emit(c, ErrorEvent), ClosedEvent), s)
  {
    hide Up, Attempts;
    var told := Emit(c, ErrorEvent);
    Emitted(c.emitted, ErrorEvent, c.resetAt);
    FinalEvent(c, s);
    FinalEvent(told, s);
  }

  lemma FinalEvent(c: Core, s: Settings)
    requires Shape(c) && c.state == Closed && NoClosed(c.emitted) && c.resetAt <= |c.emitted| && Up(c.emitted).Some?
    requires s.maxReconnections >= 0 ==> Attempts(c.emitted[c.resetAt..]) <= s.maxReconnections
    ensures CoreOk(Emit(c, ClosedEvent), s)
  {
    hide Up, Attempts;
    Emitted(c.emitted, ClosedEvent, c.resetAt);
  }

  lemma LostOk(c: Core, s: Settings, now: int)
    requires CoreOk(c, s) && c.state != Closed && c.state != Init
    ensures CoreOk(CoreLost(c, now), s) && CoreOk(CoreLost(c, now).(connection := None), s)
    ensures CoreLost(c, now).state == Connecting && CoreLost(c, now).phase == Reconnecting
  {
    hide History;
    var d := CoreLost(c, now);
    if c.wasConnected {
      MoreHistory(c, d, s, DisconnectedEvent);
    } else {
      SameHistory(c, d, s);
    }
    SameHistory(d, d.(connection := None), s);
  }

  lemma CloseConnectionOk(h: Handler, s: Settings, hasError: bool)
    requires CoreOk(h.core, s)
    ensures CoreOk(CloseConnection(h, s, hasError).core, s)
  {
    hide Shape, History, CoreClosed;
    if h.core.state != Closed {
      ClosedOk(h.core, s, hasError);
    }
  }

  lemma ConnectionClosedOk(h: Handler, s: Settings, conn: nat, now: int)
    requires CoreOk(h.core, s)
    ensures CoreOk(TcpConnectionClosed(h, conn, now).core, s)
  {
    hide Shape, History, CoreLost;
    if h.core.state != Closed && h.core.state != Init {
      LostOk(h.core, s, now);
    }
  }

  lemma CloseTcpOk(h: Handler, s: Settings, now: int)
    requires CoreOk(h.core, s)
    ensures var r := CloseTcpConnection(h, now);
            && CoreOk(r.core, s)
            && (h.core.connection.Some? && h.core.state != Closed && h.core.state != Init ==>
                  r.core.state == Connecting && r.core.phase == Reconnecting && r.core.connection.None?)
  {
    hide History, CoreLost;
    if h.core.connection.Some? {
      assert h.core.state != Init && h.core.state != Closed;
      LostOk(h.core, s, now);
    }
  }

  lemma EstablishOk(h: Handler, s: Settings, tcp: Option<EndPoint>, secureTcp: Option<EndPoint>)
    requires CoreOk(h.core, s)
    ensures CoreOk(EstablishTcpConnection(h, s, tcp, secureTcp).core, s)
  {
    hide History, CloseConnection, EndPointFor;
    if EndPointFor(s, tcp, secureTcp).None? {
      CloseConnectionOk(h, s, false);
    } else {
      SameHistory(h.core, EstablishTcpConnection(h, s, tcp, secureTcp).core, s);
    }
  }

  lemma EstablishedOk(c: Core, s: Settings, conn: nat, now: int)
    requires CoreOk(c, s)
    ensures CoreOk(TcpConnectionEstablished(c, s, conn, now), s)
  {
    hide History;
    SameHistory(c, TcpConnectionEstablished(c, s, conn, now), s);
  }

  lemma IdentifiedOk(c: Core, s: Settings, conn: nat, now: int)
    requires CoreOk(c, s) && c.state == Connecting && c.phase == Authentication
    ensures CoreOk(GoToIdentifiedState(c, conn, now), s)
  {
    hide History;
    SameHistory(c, GoToIdentifiedState(c, conn, now), s);
  }

  lemma ConnectedOk(h: Handler, s: Settings, now: int)
    requires CoreOk(h.core, s) && h.core.state == Connecting && h.core.connection.Some? && h.core.heartbeat.Some?
    ensures CoreOk(GoToConnectedState(h, s, now).core, s)
  {
    hide History, O.CheckTimeoutsAndRetry, S.CheckTimeoutsAndRetry;
    MoreHistory(h.core, GoToConnectedState(h, s, now).core, s, ConnectedEvent);
  }

  lemma ReconnectOk(h: Handler, s: Settings, tcp: Option<EndPoint>, secureTcp: Option<EndPoint>, now: int)
    requires CoreOk(h.core, s)
    ensures CoreOk(ReconnectTo(h, s, tcp, secureTcp, now).core, s)
  {
    hide History, CloseTcpConnection, CloseConnection, EndPointFor;
    if EndPointFor(s, tcp, secureTcp).None? {
      CloseConnectionOk(h, s, false);
    } else if h.core.state == Connected {
      CloseTcpOk(h, s, now);
      var down := CloseTcpConnection(h, now);
      var found := down.core.(state := Connecting, phase := EndPointDiscovery);
      SameHistory(down.core, found, s);
      EstablishOk(down.(core := found), s, tcp, secureTcp);
    }
  }

  lemma DispatchOk(h: Handler, s: Settings, conn: nat, correlation: Correlation, content: Content, now: int)
    requires CoreOk(h.core, s)
    ensures CoreOk(Dispatch(h, s, conn, correlation, content, now).core, s)
  {
    hide CoreOk, ReconnectTo, InspectPackage, SubscriptionOperations.InspectSubscription, O.Resolved, S.Resolved, Get,
         AsReply, AsSubReply, O.ScheduleWaitingOperations;
    match correlation
    case ForOperation(id) =>
      var item := Get(h.ops.active.entries, id);
      if item.Some? {
        var r := InspectPackage(item.value.operation, AsReply(content));
        if r.decision.Reconnect? {
          ReconnectOk(h, s, r.decision.tcpEndPoint, r.decision.secureTcpEndPoint, now);
        }
      }
    case ForSubscription(id) =>
      var item := Get(h.subs.active.entries, id);
      if item.Some? {
        var r := SubscriptionOperations.InspectSubscription(item.value.operation, AsSubReply(content));
        if r.decision.Reconnect? {
          ReconnectOk(h, s, r.decision.tcpEndPoint, r.decision.secureTcpEndPoint, now);
        }
      }
    case _ =>
  }

  lemma QuietOk(c: Core, d: Core, s: Settings)
    requires CoreOk(c, s)
    requires d == c.(packageNumber := d.packageNumber, sent := d.sent, nextId := d.nextId,
             lastTimeouts := d.lastTimeouts)
    ensures CoreOk(d, s)
  {
    hide History;
    SameHistory(c, d, s);
  }

  lemma EmitOk(c: Core, s: Settings, e: Event)
    requires CoreOk(c, s) && c.state != Closed && (e == AuthenticationFailed || e == HeartbeatInfo)
    ensures CoreOk(Emit(c, e), s)
  {
    hide History;
    MoreHistory(c, Emit(c, e), s, e);
  }

  lemma IdentityBeats(c: Core, s: Settings)
    requires CoreOk(c, s) && c.identity.Some?
    ensures c.heartbeat.Some?
  {
  }

  lemma PackageOk(h: Handler, s: Settings, conn: nat, correlation: Correlation, content: Content, now: int)
    requires CoreOk(h.core, s) && h.core.connection == Some(conn) && h.core.state != Closed && h.core.state != Init
    ensures CoreOk(HandlePackage(h, s, conn, correlation, content, now).core, s)
  {
    hide CoreOk, Dispatch, CloseConnection, GoToConnectedState, GoToIdentifiedState;
    var c := h.core.(packageNumber := h.core.packageNumber + 1);
    var counted := h.(core := c);
    QuietOk(h.core, c, s);
    QuietOk(c, c.(sent := c.sent + [AnswerHeartbeat(correlation, conn)]), s);
    EmitOk(c, s, HeartbeatInfo);
    EmitOk(c, s, AuthenticationFailed);
    if c.state == Connecting && c.phase == Authentication {
      IdentifiedOk(c, s, conn, now);
      IdentifiedOk(Emit(c, AuthenticationFailed), s, conn, now);
    }
    if c.state == Connecting && c.identity.Some? {
      IdentityBeats(c, s);
      ConnectedOk(counted, s, now);
    }
    CloseConnectionOk(counted, s, true);
    DispatchOk(counted, s, conn, correlation, content, now);
  }

  lemma HeartbeatsOk(h: Handler, s: Settings, now: int)
    requires CoreOk(h.core, s)
    ensures CoreOk(ManageHeartbeats(h, s, now).core, s)
  {
    hide History, CloseTcpConnection;
    CloseTcpOk(h, s, now);
    var r := ManageHeartbeats(h, s, now).core;
    if r != CloseTcpConnection(h, now).core {
      SameHistory(h.core, r, s);
    }
  }

  /** A due attempt that is one too many. */
  lemma GivesUpOk(c: Core, s: Settings, now: int)
    requires CoreOk(c, s) && c.state == Connecting && c.reconn.Some?
    ensures var tried := c.(reconn := Some(Reconnection(c.reconn.value.attempt + 1, now)));
            CoreOk(CoreClosed(tried, s, false), s)
  {
    hide Shape, Up, Attempts, NoClosed, Emit;
    var shut := c.(reconn := Some(Reconnection(c.reconn.value.attempt + 1, now)), state := Closed, connection := None);
    assert Shape(shut) by { ShutShape(c, shut); }
    FinalEvent(shut, s);
  }

  lemma ShutShape(c: Core, d: Core)
    requires Shape(c) && d == c.(reconn := d.reconn, state := Closed, connection := None)
    ensures Shape(d)
  {
  }

  /** A due attempt that is made. */
  lemma TriesOk(c: Core, s: Settings, now: int)
    requires CoreOk(c, s) && c.state == Connecting && c.phase == Reconnecting && c.reconn.Some?
    requires s.maxReconnections >= 0 ==> c.reconn.value.attempt + 1 <= s.maxReconnections
    ensures var tried := c.(reconn := Some(Reconnection(c.reconn.value.attempt + 1, now)));
            CoreOk(DiscoverEndpoint(Emit(tried, ReconnectingEvent)), s)
  {
    hide History;
    var tried := c.(reconn := Some(Reconnection(c.reconn.value.attempt + 1, now)));
    MoreHistory(c, DiscoverEndpoint(Emit(tried, ReconnectingEvent)), s, ReconnectingEvent);
  }

  lemma ReconnectingOk(h: Handler, s: Settings, now: int)
    requires CoreOk(h.core, s) && h.core.state == Connecting && h.core.phase == Reconnecting && h.core.reconn.Some?
    ensures CoreOk(TickReconnecting(h, s, now).core, s)
  {
    hide CoreOk, CoreClosed, Emit, DiscoverEndpoint, O.CleanUp, S.CleanUp;
    if s.maxReconnections >= 0 && h.core.reconn.value.attempt + 1 > s.maxReconnections {
      GivesUpOk(h.core, s, now);
    } else {
      TriesOk(h.core, s, now);
    }
  }

  lemma TickConnectingOk(h: Handler, s: Settings, now: int)
    requires CoreOk(h.core, s) && h.core.state == Connecting
    ensures CoreOk(TickConnecting(h, s, now).core, s)
  {
    hide History, TickReconnecting, GoToConnectedState, ManageHeartbeats;
    if h.core.phase == Reconnecting {
      ReconnectingOk(h, s, now);
    } else if h.core.phase == Authentication {
      EmitOk(h.core, s, AuthenticationFailed);
      ConnectedOk(h.(core := Emit(h.core, AuthenticationFailed)), s, now);
    }
    HeartbeatsOk(h, s, now);
  }

  lemma ResetOk(c: Core, s: Settings, now: int)
    requires CoreOk(c, s) && c.state == Connected
    ensures CoreOk(c.(reconn := Some(Reconnection(0, now)), resetAt := |c.emitted|, lastTimeouts := now), s)
  {
    hide Up, NoClosed;
    assert c.emitted[|c.emitted|..] == [];
  }

  lemma TickConnectedOk(h: Handler, s: Settings, now: int)
    requires CoreOk(h.core, s) && h.core.state == Connected
    ensures CoreOk(TickConnected(h, s, now).core, s)
  {
    hide Shape, History, ManageHeartbeats, O.CheckTimeoutsAndRetry, S.CheckTimeoutsAndRetry;
    HeartbeatsOk(h, s, now);
    ResetOk(h.core, s, now);
    var reset := h.core.(reconn := Some(Reconnection(0, now)), resetAt := |h.core.emitted|);
    if h.core.connection.Some? {
      HeartbeatsOk(CheckTimeouts(h.(core := reset), s, h.core.connection.value, now), s, now);
    }
  }

  /** Every message keeps the handler's state in shape and its history in order. */
  lemma HandleCoreOk(h: Handler, s: Settings, message: Message, now: int)
    requires CoreOk(h.core, s)
    ensures CoreOk(Handle(h, s, message, now).core, s)
  {
    hide CoreOk, StartConnection, CloseConnection, EstablishTcpConnection, TcpConnectionEstablished,
      TcpConnectionClosed, HandlePackage, TickConnecting, TickConnected;
    match message
    case StartConnectionMessage => StartConnectionOk(h.core, s);
    case CloseConnectionMessage(hasError) => CloseConnectionOk(h, s, hasError);
    case StartOperationMessage(_, _, _) =>
    case StartSubscriptionMessage(_, _, _) =>
    case EstablishTcpConnectionMessage(tcp, secureTcp) => EstablishOk(h, s, tcp, secureTcp);
    case TcpConnectionEstablishedMessage(conn) => EstablishedOk(h.core, s, conn, now);
    case TcpConnectionErrorMessage(_, hasError) => CloseConnectionOk(h, s, hasError);
    case TcpConnectionClosedMessage(conn) => ConnectionClosedOk(h, s, conn, now);
    case HandleTcpPackageMessage(conn, correlation, content) =>
      if h.core.connection == Some(conn) && h.core.state != Closed && h.core.state != Init {
        PackageOk(h, s, conn, correlation, content, now);
      }
    case TimerTickMessage =>
      if h.core.state == Connecting {
        TickConnectingOk(h, s, now);
      } else if h.core.state == Connected {
        TickConnectedOk(h, s, now);
      }
    case TouchMessage(_, _) =>
  }
}
