/** The steps by which a connection comes up, is watched, moves and goes down. */
module ConnectionPaths {
  import opened ConnectionCore
  import opened ConnectionLogic
  import opened ConnectionResults
  import opened ConnectionRuns
  import opened Hashes
  import opened Operations
  import opened OperationAccounts
  import opened OperationBooks
  import opened OperationSettlement
  import opened Wrappers
  import O = OperationScheduling
  import OperationChecks
  import S = SubscriptionScheduling
  import SubscriptionOperations
  import SubscriptionResults

  function HandleAll(h: Handler, s: Settings, run: seq<Timed>): Handler
    decreases |run|
  {
    if run == [] then h else HandleAll(Handle(h, s, run[0].message, run[0].now), s, run[1..])
  }

  lemma HandleFirst(h: Handler, s: Settings, t: Timed, rest: seq<Timed>)
    ensures HandleAll(h, s, [t] + rest) == HandleAll(Handle(h, s, t.message, t.now), s, rest)
  {
    assert ([t] + rest)[1..] == rest;
  }

  lemma HandleNone(h: Handler, s: Settings)
    ensures HandleAll(h, s, []) == h
  {
  }

  lemma NoneRun(s: Settings)
    ensures Run(s, []) == NewHandler()
  {
  }

  /** What a run makes of a handler that has come out of a run before. */
  lemma {:induction false} HandleAllRuns(s: Settings, done: seq<Timed>, run: seq<Timed>)
    ensures HandleAll(Run(s, done), s, run) == Run(s, done + run)
    decreases |run|
  {
    hide Handle;
    if run == [] {
      assert done + run == done;
    } else {
      var more := done + [run[0]];
      assert more[..|more| - 1] == done;
      assert done + run == more + run[1..];
      HandleAllRuns(s, more, run[1..]);
    }
  }

  // ---- The handshake ----

  /** Between the discovery of an end point and the answer to the identification. */
  predicate Greeting(c: Core) {
    c.state == Connecting
    && (c.phase == EndPointDiscovery || c.phase == ConnectionEstablishing || c.phase == Authentication
        || c.phase == Identification)
  }

  /** The message the handshake waits for; refused credentials let it go on all the same. */
  predicate Advances(c: Core, s: Settings, message: Message) {
    match c.phase
    case EndPointDiscovery =>
      message.EstablishTcpConnectionMessage? && (if s.useSslConnection then message.secureTcp else message.tcp).Some?
    case ConnectionEstablishing => message.TcpConnectionEstablishedMessage? && c.connection == Some(message.conn)
    case Authentication =>
      && message.HandleTcpPackageMessage? && c.connection == Some(message.conn) && Answers(c.auth, message.correlation)
      && (message.content == Authenticated || message.content == AuthenticationRefused)
    case Identification =>
      && message.HandleTcpPackageMessage? && c.connection == Some(message.conn)
         && Answers(c.identity, message.correlation)
      && message.content == ClientIdentified
    case _ => false
  }

  /** A message the handshake does not care about. */
  predicate Aside(c: Core, s: Settings, message: Message) {
    match message
    case CloseConnectionMessage(_) => false
    case EstablishTcpConnectionMessage(tcp, secureTcp) =>
      (if s.useSslConnection then secureTcp else tcp).Some? && c.phase != EndPointDiscovery
    case TcpConnectionEstablishedMessage(conn) => c.connection != Some(conn)
    case TcpConnectionErrorMessage(conn, _) => c.connection != Some(conn)
    case TcpConnectionClosedMessage(conn) => c.connection != Some(conn)
    case HandleTcpPackageMessage(conn, _, content) => c.connection != Some(conn) || IsHeartbeat(content)
    case TimerTickMessage => c.phase != Authentication
    case _ => true
  }

  /**
   * Every message advances the handshake or is none of its business, and the run ends when the handler is connected.
   */
  ghost predicate Undisturbed(h: Handler, s: Settings, run: seq<Timed>)
    decreases |run|
  {
    run == []
    || (Greeting(h.core) && (Advances(h.core, s, run[0].message) || Aside(h.core, s, run[0].message))
        && Undisturbed(Handle(h, s, run[0].message, run[0].now), s, run[1..]))
  }

  /** How many messages of the run advance the handshake. */
  function StepsTaken(h: Handler, s: Settings, run: seq<Timed>): nat
    decreases |run|
  {
    if run == [] then 0
    else (if Advances(h.core, s, run[0].message) then 1 else 0)
         + StepsTaken(Handle(h, s, run[0].message, run[0].now), s, run[1..])
  }

  function StepsLeft(c: Core, s: Settings): nat {
    match c.phase
    case EndPointDiscovery => if s.hasCredentials then 4 else 3
    case ConnectionEstablishing => if s.hasCredentials then 3 else 2
    case Authentication => 2
    case Identification => 1
    case _ => 0
  }

  /** Still in the handshake, or connected. */
  ghost predicate OnTheWay(c: Core) { Greeting(c) || (c.state == Connected && c.phase == ConnectedPhase) }

  lemma AsideKeeps(h: Handler, s: Settings, message: Message, now: int)
    requires CoreOk(h.core, s) && Greeting(h.core) && Aside(h.core, s, message)
    ensures var r := Handle(h, s, message, now); Greeting(r.core) && r.core.phase == h.core.phase
  {
    hide History, ConnectionCore.Shape, CloseConnection, S.TouchedAt, HandleCounted, O.EnqueueOperation,
      O.ScheduleOperation, S.EnqueueSubscription, S.StartSubscription, ManageHeartbeats, GoToConnectedState;
  }

  lemma StepAdvances(h: Handler, s: Settings, message: Message, now: int)
    requires CoreOk(h.core, s) && Greeting(h.core) && Advances(h.core, s, message)
    ensures var r := Handle(h, s, message, now);
            && OnTheWay(r.core) && StepsLeft(r.core, s) == StepsLeft(h.core, s) - 1
            && (r.core.state == Connected ==> r.core.emitted == h.core.emitted + [ConnectedEvent])
  {
    hide History, CloseConnection, Dispatch, O.CheckTimeoutsAndRetry, S.CheckTimeoutsAndRetry;
  }

  lemma {:induction false} HandshakeAdvances(h: Handler, s: Settings, run: seq<Timed>)
    requires CoreOk(h.core, s) && OnTheWay(h.core) && Undisturbed(h, s, run)
    ensures var r := HandleAll(h, s, run);
            && CoreOk(r.core, s) && OnTheWay(r.core)
            && StepsLeft(r.core, s) + StepsTaken(h, s, run) == StepsLeft(h.core, s)
            && (r.core.state == Connected <==> StepsTaken(h, s, run) == StepsLeft(h.core, s))
            && (r.core.state == Connected && run != [] ==>
                  r.core.emitted != [] && r.core.emitted[|r.core.emitted| - 1] == ConnectedEvent)
    decreases |run|
  {
    hide CoreOk, Handle, Advances, Aside;
    if run != [] {
      var next := Handle(h, s, run[0].message, run[0].now);
      HandleCoreOk(h, s, run[0].message, run[0].now);
      if Advances(h.core, s, run[0].message) {
        StepAdvances(h, s, run[0].message, run[0].now);
      } else {
        AsideKeeps(h, s, run[0].message, run[0].now);
      }
      HandshakeAdvances(next, s, run[1..]);
    }
  }

  /**
   * The handshake, after any run that has come to look for an end point or further, at any times, whatever operations,
   * subscriptions, heartbeats, ticks and messages about other connections come in between: it gets as far as the
   * messages it waits for have come, and connects exactly with the last of them. With credentials there is one more.
   */
  lemma HandshakeConnects(s: Settings, before: seq<Timed>, run: seq<Timed>)
    requires OnTheWay(Run(s, before).core) && Undisturbed(Run(s, before), s, run)
    ensures var h, r := Run(s, before), Run(s, before + run);
            && OnTheWay(r.core) && StepsLeft(r.core, s) + StepsTaken(h, s, run) == StepsLeft(h.core, s)
            && (r.core.state == Connected <==> StepsTaken(h, s, run) == StepsLeft(h.core, s))
            && (r.core.state == Connected && run != [] ==>
                  r.core.emitted != [] && r.core.emitted[|r.core.emitted| - 1] == ConnectedEvent)
  {
    hide CoreOk, OnTheWay, Undisturbed, StepsLeft, StepsTaken, Run, HandleAll;
    RunCoreOk(s, before);
    HandshakeAdvances(Run(s, before), s, run);
    HandleAllRuns(s, before, run);
  }

  // ---- The ways to become connected ----

  lemma DispatchNeverConnects(h: Handler, s: Settings, conn: nat, correlation: Correlation, content: Content, now: int)
    requires h.core.state == Connecting
    ensures Dispatch(h, s, conn, correlation, content, now).core.state != Connected
  {
    hide CloseTcpConnection, EstablishTcpConnection, InspectPackage, SubscriptionOperations.InspectSubscription,
      O.Resolved, S.Resolved, Get, AsReply, AsSubReply, O.ScheduleWaitingOperations, O.CleanUp, S.CleanUp;
  }

  lemma HeartbeatsNeverConnect(h: Handler, s: Settings, now: int)
    requires h.core.state == Connecting
    ensures ManageHeartbeats(h, s, now).core.state != Connected
  {
    hide S.PurgeSubscribedAndDropped;
  }

  /** The answer to the identification the handler sent last, on its current connection. */
  predicate IdentifiedBy(c: Core, message: Message) {
    && message.HandleTcpPackageMessage? && c.connection == Some(message.conn) && message.content == ClientIdentified
    && Answers(c.identity, message.correlation)
  }

  /** Authentication has not been answered in time. */
  predicate AuthenticationExpired(c: Core, s: Settings, message: Message, now: int)
    requires c.phase == Authentication ==> c.auth.Some?
  {
    message.TimerTickMessage? && c.phase == Authentication && now - c.auth.value.at >= s.operations.operationTimeout
  }

  /**
   * A connecting handler becomes connected by one message exactly when that is the answer to its identification, or a
   * tick that finds the authentication unanswered for too long. By the second way it is connected unidentified.
   */
  lemma ConnectsExact(h: Handler, s: Settings, message: Message, now: int)
    requires CoreOk(h.core, s) && h.core.state == Connecting
    ensures h.core.phase == Authentication ==> h.core.auth.Some?
    ensures Handle(h, s, message, now).core.state == Connected
            <==> IdentifiedBy(h.core, message) || AuthenticationExpired(h.core, s, message, now)
    ensures AuthenticationExpired(h.core, s, message, now) ==>
              Handle(h, s, message, now).core.identity == h.core.identity
  {
    hide History, Dispatch, ManageHeartbeats, O.CheckTimeoutsAndRetry, S.CheckTimeoutsAndRetry, S.TouchedAt, O.CleanUp,
      S.CleanUp, O.EnqueueOperation, O.ScheduleOperation, S.EnqueueSubscription, S.StartSubscription,
      S.PurgeSubscribedAndDropped, Refused;
    HeartbeatsNeverConnect(h, s, now);
    if message.HandleTcpPackageMessage? {
      DispatchNeverConnects(h.(core := Counted(h.core)), s, message.conn, message.correlation, message.content, now);
    }
  }

  /** A run that is connected although the handler has never identified itself. */
  lemma ConnectedUnidentified(s: Settings, endPoint: EndPoint, at: int, now: int)
    requires s.hasCredentials && now - at >= s.operations.operationTimeout
    ensures var h := Run(s, [Timed(StartConnectionMessage, at),
                             Timed(EstablishTcpConnectionMessage(Some(endPoint), Some(endPoint)), at),
                             Timed(TcpConnectionEstablishedMessage(0), at), Timed(TimerTickMessage, now)]);
            && h.core.state == Connected && h.core.identity.None?
            && h.core.emitted == [AuthenticationFailed, ConnectedEvent]
            && h.core.sent == [Dial(endPoint, 0), Authenticate(0, 0)]
  {
    hide O.CheckTimeoutsAndRetry, S.CheckTimeoutsAndRetry, HandleAll, Run;
    var a := Timed(StartConnectionMessage, at);
    var b := Timed(EstablishTcpConnectionMessage(Some(endPoint), Some(endPoint)), at);
    var d, e := Timed(TcpConnectionEstablishedMessage(0), at), Timed(TimerTickMessage, now);
    var h := NewHandler();
    var h1 := h.(core := NewCore().(state := Connecting, phase := EndPointDiscovery));
    var h2 := h1.(core := h1.core.(phase := ConnectionEstablishing, connection := Some(0), nextConn := 1,
                                   sent := [Dial(endPoint, 0)]));
    var h3 := h2.(core := h2.core.(phase := Authentication, auth := Some(Stamp(0, at)), nextId := 1,
                                   heartbeat := Some(Heartbeat(None, 0, true, at)),
                                   sent := [Dial(endPoint, 0), Authenticate(0, 0)]));
    assert Handle(h, s, a.message, at) == h1 && Handle(h1, s, b.message, at) == h2
        && Handle(h2, s, d.message, at) == h3;
    assert [a, b, d, e] == [a] + ([b] + ([d] + ([e] + [])));
    NoneRun(s);
    HandleFirst(h, s, a, [b] + ([d] + ([e] + [])));
    HandleFirst(h1, s, b, [d] + ([e] + []));
    HandleFirst(h2, s, d, [e] + []);
    HandleFirst(h3, s, e, []);
    HandleNone(Handle(h3, s, e.message, now), s);
    HandleAllRuns(s, [], [a, b, d, e]);
    assert [] + [a, b, d, e] == [a, b, d, e];
  }

  /** A connection asked for a heartbeat is given up, when its time is over, exactly when no package has come since. */
  lemma HeartbeatTimeoutExact(h: Handler, s: Settings, now: int)
    requires CoreOk(h.core, s) && h.core.state == Connected
    requires !h.core.heartbeat.value.isIntervalStage && now - h.core.heartbeat.value.at >= s.heartbeatTimeout
    ensures var r := ManageHeartbeats(h, s, now);
            (r.core.connection.None? <==> h.core.packageNumber == h.core.heartbeat.value.lastPackageNumber)
            && (r.core.connection.None? ==>
                  r.core.state == Connecting && r.core.emitted == h.core.emitted + [DisconnectedEvent])
  {
    hide History, S.PurgeSubscribedAndDropped;
  }

  /**
   * Once connected again, with a check due: whatever operation is active goes to the new connection, and so does every
   * subscription not yet confirmed.
   */
  lemma ConnectedRebinds(h: Handler, s: Settings, now: int, book: map<nat, int>)
    requires CoreOk(h.core, s) && Managed(h, s, book) && h.core.state == Connecting && h.core.connection.Some?
    requires CheckDue(h.core, s, now)
    ensures var r, conn := GoToConnectedState(h, s, now), h.core.connection.value;
            && (forall i :: 0 <= i < |r.ops.active.entries| ==>
                  r.ops.active.entries[i].value.connectionId == Some(conn))
            && SubscriptionResults.BoundTo(r.subs.active.entries, conn)
            && r.ops.retryPending == [] && r.subs.retryPending == [] && r.subs.waiting == []
            && (r.ops.waiting == [] || |r.ops.active.entries| >= s.operations.maxConcurrentItems)
  {
    hide History, ConnectionCore.Shape, OperationBooks.Shape, AllTracked, Account, SubscriptionResults.Inv,
      SubscriptionResults.BoundTo, O.CheckTimeoutsAndRetry, S.CheckTimeoutsAndRetry, Line, Pool, OperationBooks.Kept,
      OperationChecks.Room;
    CheckSettles(h.ops, s.operations, h.core.connection.value, now);
    SubscriptionResults.CheckKeeps(h.subs, s.operations, h.core.connection.value, now, 0);
  }

  /** Closing says `closed` unless it carries an error that nobody listens for. */
  lemma ClosedEventExact(h: Handler, s: Settings, hasError: bool)
    requires CoreOk(h.core, s) && h.core.state != Closed
    ensures var r := CloseConnection(h, s, hasError).core;
            && r.state == Closed && r.connection.None?
            && (NoClosed(r.emitted) <==> hasError && !s.hasErrorListener)
  {
    var r := CloseConnection(h, s, hasError).core;
    if !hasError || s.hasErrorListener {
      assert r.emitted[|r.emitted| - 1] == ClosedEvent;
    } else {
      assert r.emitted == h.core.emitted;
    }
  }

  /** After a reply, a handler still connected has sent what was waiting, as far as there is room. */
  lemma ReplyFillsRoom(h: Handler, s: Settings, conn: nat, key: nat, reply: Reply, now: int, book: map<nat, int>)
    requires Managed(h, s, book) && h.core.state == Connected && Get(h.ops.active.entries, key).Some?
    ensures var r := DispatchToOperation(h, s, conn, Get(h.ops.active.entries, key).value, reply, now);
            r.core.state == Connected ==>
              r.ops.waiting == [] || |r.ops.active.entries| >= s.operations.maxConcurrentItems
  {
    hide OperationBooks.Sound, SubscriptionResults.Inv, ReconnectTo, O.Resolved, InspectPackage, Get,
         O.ScheduleWaitingOperations, SubscriptionResults.Tally;
    var item := Get(h.ops.active.entries, key).value;
    var r := InspectPackage(item.operation, reply);
    ActivePending(h.ops, s, key, book);
    InspectSettles(item.operation, reply);
    ResolvedSound(h.ops, s.operations, key, reply, book);
    if r.decision.Reconnect? {
      ReconnectKeeps(h, s, r.decision.tcpEndPoint, r.decision.secureTcpEndPoint, now, book, 0);
    }
    DrainSound(O.Resolved(h.ops, item, r), s.operations, conn, now, book);
  }

  /** When the current connection is lost, no active subscription stays confirmed on it. */
  lemma LossPurges(h: Handler, s: Settings, conn: nat, now: int, book: map<nat, int>)
    requires Managed(h, s, book) && h.core.connection == Some(conn) && h.core.state != Init && h.core.state != Closed
    ensures var r := TcpConnectionClosed(h, conn, now);
            && r.core.state == Connecting && r.core.phase == Reconnecting
            && forall i :: 0 <= i < |r.subs.active.entries| ==>
                 !(r.subs.active.entries[i].value.isSubscribed
                     && r.subs.active.entries[i].value.connectionId == Some(conn))
  {
    hide OperationBooks.Sound, SubscriptionResults.Inv, SubscriptionResults.Tally, S.PurgeSubscribedAndDropped;
    SubscriptionResults.PurgeKeeps(h.subs, conn, 0);
  }

  lemma DispatchStaysOpen(
    h: Handler, s: Settings, conn: nat, correlation: Correlation, content: Content, now: int, book: map<nat, int>)
    requires Managed(h, s, book) && h.core.state != Closed
    ensures Dispatch(h, s, conn, correlation, content, now).core.state != Closed
  {
    hide OperationBooks.Sound, SubscriptionResults.Inv, SubscriptionResults.Tally, ReconnectTo, O.Resolved,
      S.Resolved, InspectPackage, SubscriptionOperations.InspectSubscription, Get, O.ScheduleWaitingOperations,
      AsReply, AsSubReply;
    match correlation
    case ForOperation(key) =>
      var item := Get(h.ops.active.entries, key);
      if item.Some? {
        var r := InspectPackage(item.value.operation, AsReply(content));
        ActivePending(h.ops, s, key, book);
        InspectSettles(item.value.operation, AsReply(content));
        if r.decision.Reconnect? {
          ReconnectKeeps(h, s, r.decision.tcpEndPoint, r.decision.secureTcpEndPoint, now, book, 0);
        }
      }
    case ForSubscription(key) =>
      var item := Get(h.subs.active.entries, key);
      if item.Some? {
        var r := SubscriptionOperations.InspectSubscription(item.value.operation, AsSubReply(content));
        ActiveLive(h.subs, key);
        SubscriptionOperations.InspectKeeps(item.value.operation, AsSubReply(content));
        if r.decision.Reconnect? {
          ReconnectKeeps(h, s, r.decision.tcpEndPoint, r.decision.secureTcpEndPoint, now, book, 0);
        }
      }
    case _ =>
  }

  lemma OpenWithConnection(c: Core, s: Settings)
    requires CoreOk(c, s) && c.connection.Some?
    ensures c.state != Closed && c.state != Init
  {
    hide History;
  }

  /**
   * The one package that closes a connection is a bad request that answers nobody; no reply does, nor a redirection.
   */
  lemma PackageClosesExact(
    h: Handler, s: Settings, conn: nat, correlation: Correlation, content: Content, now: int, book: map<nat, int>)
    requires CoreOk(h.core, s) && Managed(h, s, book) && h.core.connection == Some(conn)
    ensures HandleTcpPackage(h, s, conn, correlation, content, now).core.state == Closed
            <==> content == BadRequestContent && correlation == EmptyGuid
  {
    hide CoreOk, Managed, Keeps, Dispatch, O.CheckTimeoutsAndRetry, S.CheckTimeoutsAndRetry, O.CleanUp, S.CleanUp;
    OpenWithConnection(h.core, s);
    var counted := h.(core := Counted(h.core));
    CoreKeeps(h, counted.core, s, book, 0);
    KeptIs(h, counted, s, book, 0);
    DispatchStaysOpen(counted, s, conn, correlation, content, now, book);
  }
}
