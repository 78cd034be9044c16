/** Handler and managers together, over every run. */
module ConnectionRuns {
  import opened ConnectionCore
  import opened ConnectionLogic
  import opened Counting
  import opened Hashes
  import opened OperationAccounts
  import opened OperationBooks
  import opened Operations
  import opened OperationSettlement
  import opened Wrappers
  import O = OperationScheduling
  import S = SubscriptionScheduling
  import SubscriptionOperations
  import SubscriptionResults

  ghost predicate Emptied(h: Handler) {
    && h.ops.active.entries == [] && h.ops.waiting == [] && h.ops.retryPending == []
    && h.subs.active.entries == [] && h.subs.waiting == [] && h.subs.retryPending == []
  }

  /** Both managers are in order, and a closed handler has nothing left in them. */
  ghost predicate Managed(h: Handler, s: Settings, book: map<nat, int>) {
    && OperationBooks.Sound(h.ops, s.operations, book) && SubscriptionResults.Inv(h.subs)
    && (h.core.state == Closed ==> Emptied(h))
  }

  /** One function leaves the managers in order, and each subscription in as many places as before. */
  ghost predicate Keeps(h: Handler, r: Handler, s: Settings, book: map<nat, int>, id: nat) {
    Managed(r, s, book) && SubscriptionResults.Tally(r.subs, id) == SubscriptionResults.Tally(h.subs, id)
  }

  lemma CloseKeeps(h: Handler, s: Settings, hasError: bool, book: map<nat, int>, id: nat)
    requires Managed(h, s, book)
    ensures Keeps(h, CloseConnection(h, s, hasError), s, book, id)
  {
    hide OperationBooks.Sound, SubscriptionResults.Inv, SubscriptionResults.Tally, O.CleanUp, S.CleanUp;
    CleanUpSettles(h.ops, s.operations, book);
    SubscriptionResults.CleanUpKeeps(h.subs, id);
  }

  lemma LostKeeps(h: Handler, s: Settings, conn: nat, now: int, book: map<nat, int>, id: nat)
    requires Managed(h, s, book)
    ensures var r := TcpConnectionClosed(h, conn, now);
            Keeps(h, r, s, book, id) && r.ops == h.ops
                && (r.subs == h.subs || r.subs == S.PurgeSubscribedAndDropped(h.subs, conn))
  {
    hide OperationBooks.Sound, SubscriptionResults.Inv, SubscriptionResults.Tally, S.PurgeSubscribedAndDropped;
    SubscriptionResults.PurgeKeeps(h.subs, conn, id);
  }

  lemma CloseTcpKeeps(h: Handler, s: Settings, now: int, book: map<nat, int>, id: nat)
    requires Managed(h, s, book)
    ensures var r := CloseTcpConnection(h, now);
            && Keeps(h, r, s, book, id) && r.ops == h.ops
            && (r.subs == h.subs || exists conn :: r.subs == S.PurgeSubscribedAndDropped(h.subs, conn))
            && (h.core.state != Closed ==> r.core.state != Closed)
  {
    hide OperationBooks.Sound, SubscriptionResults.Inv, SubscriptionResults.Tally, S.PurgeSubscribedAndDropped;
    if h.core.connection.Some? {
      LostKeeps(h, s, h.core.connection.value, now, book, id);
    }
  }

  lemma CheckKeeps(h: Handler, s: Settings, conn: nat, now: int, book: map<nat, int>, id: nat)
    requires Managed(h, s, book) && h.core.state != Closed
    ensures Keeps(h, CheckTimeouts(h, s, conn, now), s, book, id)
  {
    hide OperationBooks.Sound, SubscriptionResults.Inv, SubscriptionResults.Tally, O.CheckTimeoutsAndRetry,
      S.CheckTimeoutsAndRetry;
    CheckSound(h.ops, s.operations, conn, now, book);
    SubscriptionResults.CheckKeeps(h.subs, s.operations, conn, now, id);
  }

  lemma GoToConnectedKeeps(h: Handler, s: Settings, now: int, book: map<nat, int>, id: nat)
    requires Managed(h, s, book) && h.core.state != Closed
    ensures Keeps(h, GoToConnectedState(h, s, now), s, book, id)
  {
    hide OperationBooks.Sound, SubscriptionResults.Inv, SubscriptionResults.Tally, O.CheckTimeoutsAndRetry,
      S.CheckTimeoutsAndRetry;
    if h.core.connection.Some? {
      var up := h.core.(state := Connected, phase := ConnectedPhase, wasConnected := true);
      CheckKeeps(h.(core := Emit(up, ConnectedEvent)), s, h.core.connection.value, now, book, id);
    }
  }

  /** Redirected by a reply, the handler keeps its operations as they were: the end points are always there. */
  lemma ReconnectKeeps(
    h: Handler, s: Settings, tcp: Option<EndPoint>, secureTcp: Option<EndPoint>, now: int, book: map<nat, int>, id: nat)
    requires Managed(h, s, book) && tcp.Some? && secureTcp.Some? && h.core.state != Closed
    ensures var r := ReconnectTo(h, s, tcp, secureTcp, now);
            && Keeps(h, r, s, book, id) && r.ops == h.ops && r.core.state != Closed
            && (r.subs == h.subs || exists conn :: r.subs == S.PurgeSubscribedAndDropped(h.subs, conn))
  {
    hide OperationBooks.Sound, SubscriptionResults.Inv, SubscriptionResults.Tally, CloseTcpConnection;
    CloseTcpKeeps(h, s, now, book, id);
  }

  lemma DispatchToOperationKeeps(
    h: Handler, s: Settings, conn: nat, key: nat, reply: Reply, now: int, book: map<nat, int>, id: nat)
    requires Managed(h, s, book) && h.core.state != Closed && Get(h.ops.active.entries, key).Some?
    ensures Keeps(h, DispatchToOperation(h, s, conn, Get(h.ops.active.entries, key).value, reply, now), s, book, id)
  {
    hide OperationBooks.Sound, SubscriptionResults.Inv, SubscriptionResults.Tally, ReconnectTo, O.Resolved,
      InspectPackage, Get, O.ScheduleWaitingOperations;
    var item := Get(h.ops.active.entries, key).value;
    var r := InspectPackage(item.operation, reply);
    ActivePending(h.ops, s, key, book);
    InspectSettles(item.operation, reply);
    ResolvedSound(h.ops, s.operations, key, reply, book);
    if r.decision.Reconnect? {
      ReconnectKeeps(h, s, r.decision.tcpEndPoint, r.decision.secureTcpEndPoint, now, book, id);
    }
    DrainSound(O.Resolved(h.ops, item, r), s.operations, conn, now, book);
  }

  lemma ActivePending(o: O.Ops, s: Settings, key: nat, book: map<nat, int>)
    requires OperationBooks.Sound(o, s.operations, book) && Get(o.active.entries, key).Some?
    ensures !Get(o.active.entries, key).value.operation.completed
  {
    hide Get;
    var i :| 0 <= i < |o.active.entries| && o.active.entries[i] == Entry(key, Get(o.active.entries, key).value);
    ActiveFacts(o, i, book);
  }

  lemma DispatchToSubscriptionKeeps(
    h: Handler, s: Settings, key: nat, reply: SubscriptionOperations.SubReply, now: int, book: map<nat, int>, id: nat)
    requires Managed(h, s, book) && h.core.state != Closed && Get(h.subs.active.entries, key).Some?
    ensures Keeps(h, DispatchToSubscription(h, s, Get(h.subs.active.entries, key).value, reply, now), s, book, id)
  {
    hide OperationBooks.Sound, SubscriptionResults.Inv, SubscriptionResults.Tally, ReconnectTo, S.Resolved, Get,
         SubscriptionOperations.InspectSubscription, S.PurgeSubscribedAndDropped;
    var item := Get(h.subs.active.entries, key).value;
    var r := SubscriptionOperations.InspectSubscription(item.operation, reply);
    SubscriptionResults.ResolvedKeeps(h.subs, key, reply, id);
    if r.decision.Reconnect? {
      ActiveLive(h.subs, key);
      SubscriptionOperations.InspectKeeps(item.operation, reply);
      ReconnectKeeps(h, s, r.decision.tcpEndPoint, r.decision.secureTcpEndPoint, now, book, id);
      var moved := ReconnectTo(h, s, r.decision.tcpEndPoint, r.decision.secureTcpEndPoint, now);
      if moved.subs != h.subs {
        var conn :| moved.subs == S.PurgeSubscribedAndDropped(h.subs, conn);
        SubscriptionResults.PurgeExact(h.subs, conn, key);
      }
      SubscriptionResults.ResolvedKeeps(moved.subs, key, reply, id);
    }
  }

  lemma ActiveLive(m: S.Subs, key: nat)
    requires SubscriptionResults.Inv(m) && Get(m.active.entries, key).Some?
    ensures var item := Get(m.active.entries, key).value;
            && SubscriptionOperations.Orderly(item.operation) && SubscriptionOperations.Live(item.operation)
            && item.isSubscribed == item.operation.subscribed && item.correlationId == key
  {
    SubscriptionResults.ActiveAt(m, key);
  }

  lemma DispatchKeeps(
    h: Handler, s: Settings, conn: nat, correlation: Correlation, content: Content, now: int, book: map<nat, int>,
        id: nat)
    requires Managed(h, s, book) && h.core.state != Closed
    ensures Keeps(h, Dispatch(h, s, conn, correlation, content, now), s, book, id)
  {
    hide Managed, DispatchToOperation, DispatchToSubscription, Get, AsReply, AsSubReply;
    match correlation
    case ForOperation(key) =>
      if Get(h.ops.active.entries, key).Some? {
        DispatchToOperationKeeps(h, s, conn, key, AsReply(content), now, book, id);
      }
    case ForSubscription(key) =>
      if Get(h.subs.active.entries, key).Some? {
        DispatchToSubscriptionKeeps(h, s, key, AsSubReply(content), now, book, id);
      }
    case _ =>
  }

  /** A change of the core alone that does not close the handler. */
  lemma CoreKeeps(h: Handler, c: Core, s: Settings, book: map<nat, int>, id: nat)
    requires Managed(h, s, book) && (c.state == Closed ==> h.core.state == Closed)
    ensures Keeps(h, h.(core := c), s, book, id)
  {
    hide OperationBooks.Sound, SubscriptionResults.Inv;
  }

  lemma KeepsTrans(h: Handler, m: Handler, r: Handler, s: Settings, book: map<nat, int>, id: nat)
    requires Keeps(h, m, s, book, id) && Keeps(m, r, s, book, id)
    ensures Keeps(h, r, s, book, id)
  {
    hide Managed;
  }

  lemma PackageKeeps(
    h: Handler, s: Settings, conn: nat, correlation: Correlation, content: Content, now: int, book: map<nat, int>,
        id: nat)
    requires Managed(h, s, book) && h.core.state != Closed
    ensures Keeps(h, HandlePackage(h, s, conn, correlation, content, now), s, book, id)
  {
    hide Keeps, Managed, Dispatch, CloseConnection, GoToConnectedState;
    var r := HandlePackage(h, s, conn, correlation, content, now);
    var counted := h.(core := h.core.(packageNumber := h.core.packageNumber + 1));
    CoreKeeps(h, counted.core, s, book, id);
    KeptIs(h, counted, s, book, id);
    GoToConnectedKeeps(counted, s, now, book, id);
    KeepsTrans(h, counted, GoToConnectedState(counted, s, now), s, book, id);
    CloseKeeps(counted, s, true, book, id);
    KeepsTrans(h, counted, CloseConnection(counted, s, true), s, book, id);
    DispatchKeeps(counted, s, conn, correlation, content, now, book, id);
    KeepsTrans(h, counted, Dispatch(counted, s, conn, correlation, content, now), s, book, id);
    if r == h.(core := r.core) && r.core.state != Closed {
      CoreKeeps(h, r.core, s, book, id);
    }
  }

  lemma KeptIs(h: Handler, r: Handler, s: Settings, book: map<nat, int>, id: nat)
    requires Keeps(h, r, s, book, id)
    ensures Managed(r, s, book)
  {
  }

  lemma HeartbeatsKeep(h: Handler, s: Settings, now: int, book: map<nat, int>, id: nat)
    requires Managed(h, s, book) && h.core.state != Closed
    ensures Keeps(h, ManageHeartbeats(h, s, now), s, book, id)
  {
    hide Keeps, Managed, CloseTcpConnection;
    var r := ManageHeartbeats(h, s, now);
    CloseTcpKeeps(h, s, now, book, id);
    if r == h.(core := r.core) && r.core.state != Closed {
      CoreKeeps(h, r.core, s, book, id);
    }
  }

  lemma TickKeeps(h: Handler, s: Settings, now: int, book: map<nat, int>, id: nat)
    requires Managed(h, s, book)
    ensures Keeps(h, TimerTick(h, s, now), s, book, id)
  {
    hide Keeps, Managed, TickConnecting, TickConnected;
    CoreKeeps(h, h.core, s, book, id);
    if h.core.state == Connecting {
      TickConnectingKeeps(h, s, now, book, id);
    } else if h.core.state == Connected {
      TickConnectedKeeps(h, s, now, book, id);
    }
  }

  lemma TickConnectingKeeps(h: Handler, s: Settings, now: int, book: map<nat, int>, id: nat)
    requires Managed(h, s, book) && h.core.state == Connecting
    ensures Keeps(h, TickConnecting(h, s, now), s, book, id)
  {
    hide Keeps, Managed, ManageHeartbeats, CloseConnection, GoToConnectedState;
    var c, r := h.core, TickConnecting(h, s, now);
    CoreKeeps(h, c, s, book, id);
    HeartbeatsKeep(h, s, now, book, id);
    var told := h.(core := Emit(c, AuthenticationFailed));
    CoreKeeps(h, told.core, s, book, id);
    KeptIs(h, told, s, book, id);
    GoToConnectedKeeps(told, s, now, book, id);
    KeepsTrans(h, told, GoToConnectedState(told, s, now), s, book, id);
    if c.reconn.Some? {
      var tried := c.(reconn := Some(Reconnection(c.reconn.value.attempt + 1, now)));
      CoreKeeps(h, tried, s, book, id);
      KeptIs(h, h.(core := tried), s, book, id);
      CloseKeeps(h.(core := tried), s, false, book, id);
      KeepsTrans(h, h.(core := tried), CloseConnection(h.(core := tried), s, false), s, book, id);
      CoreKeeps(h, DiscoverEndpoint(Emit(tried, ReconnectingEvent)), s, book, id);
    }
  }

  lemma TickConnectedKeeps(h: Handler, s: Settings, now: int, book: map<nat, int>, id: nat)
    requires Managed(h, s, book) && h.core.state == Connected
    ensures Keeps(h, TickConnected(h, s, now), s, book, id)
  {
    hide Keeps, Managed, ManageHeartbeats, O.CheckTimeoutsAndRetry, S.CheckTimeoutsAndRetry;
    CoreKeeps(h, h.core, s, book, id);
    HeartbeatsKeep(h, s, now, book, id);
    if h.core.connection.Some? {
      var conn := h.core.connection.value;
      var reset := h.(core := h.core.(reconn := Some(Reconnection(0, now)), resetAt := |h.core.emitted|));
      CoreKeeps(h, reset.core, s, book, id);
      KeptIs(h, reset, s, book, id);
      CheckKeeps(reset, s, conn, now, book, id);
      var checked := CheckTimeouts(reset, s, conn, now);
      KeptIs(reset, checked, s, book, id);
      KeepsTrans(h, reset, checked, s, book, id);
      HeartbeatsKeep(checked, s, now, book, id);
      KeepsTrans(h, checked, ManageHeartbeats(checked, s, now), s, book, id);
    }
  }

  /** A new operation: at most one more place or call, and the book remembers its limit. */
  lemma StartOperationKeeps(
    h: Handler, s: Settings, id: nat, maxRetries: int, timeout: int, now: int, book: map<nat, int>)
    requires Managed(h, s, book) && CoreOk(h.core, s) && id !in book
    ensures Managed(StartOperation(h, s, id, maxRetries, timeout, now), s, book[id := maxRetries])
  {
    hide OperationBooks.Sound, SubscriptionResults.Inv, History, O.ScheduleOperation, O.EnqueueOperation, O.NewItem,
      O.Numbered;
    match h.core.state
    case Connecting => EnqueueSound(h.ops, s.operations, id, maxRetries, timeout, now, book);
    case Connected => ScheduleSound(h.ops, s.operations, id, maxRetries, timeout, h.core.connection.value, now, book);
    case _ => RefuseSound(h.ops, s.operations, id, maxRetries, "not active or closed", book);
  }

  lemma MoreIds(m: S.Subs, id: nat)
    requires SubscriptionResults.Inv(m)
    ensures var r := m.(nextId := m.nextId + 1);
            SubscriptionResults.Inv(r) && SubscriptionResults.Tally(r, id) == SubscriptionResults.Tally(m, id)
  {
    hide SubscriptionOperations.Orderly;
    var r := m.(nextId := m.nextId + 1);
    forall i | 0 <= i < |m.active.entries| ensures SubscriptionResults.ActiveOk(r.active.entries[i], r.nextId) {
      assert SubscriptionResults.ActiveOk(m.active.entries[i], m.nextId);
    }
  }

  lemma RefusedKeeps(m: S.Subs, sub: nat, id: nat)
    requires SubscriptionResults.Inv(m)
    ensures var r := S.Release(m, Refused(sub));
            && SubscriptionResults.Inv(r)
            && SubscriptionResults.Tally(r, id) == SubscriptionResults.Tally(m, id) + if id == sub then 1 else 0
  {
    hide SubscriptionResults.AllActive, SubscriptionResults.AllPending, SubscriptionResults.AllOrderly, UniqueKeys,
      Count;
    var op := SubscriptionOperations.NewSubOperation(sub);
    SubscriptionOperations.DropKeeps(op, SubscriptionOperations.ConnectionClosed, true, SubscriptionOperations.Omitted);
    SubscriptionResults.OrderlySnoc(m.released, Refused(sub));
    CountSnoc(m.released, Refused(sub), SubscriptionResults.OfOperation(id));
  }

  lemma StartSubscriptionKeeps(
    h: Handler, s: Settings, sub: nat, maxRetries: int, timeout: int, now: int, book: map<nat, int>, id: nat)
    requires Managed(h, s, book) && CoreOk(h.core, s)
    ensures var r := StartSubscription(h, sub, maxRetries, timeout, now);
            && Managed(r, s, book)
            && SubscriptionResults.Tally(r.subs, id)
               == SubscriptionResults.Tally(h.subs, id) + if id == sub then 1 else 0
  {
    hide OperationBooks.Sound, SubscriptionResults.Inv, SubscriptionResults.Tally, History, S.StartSubscription,
         S.EnqueueSubscription, SubscriptionResults.PendingOk, Refused;
    var item := S.NewSubItem(h.subs, sub, maxRetries, timeout, now);
    var numbered := h.subs.(nextId := h.subs.nextId + 1);
    SubscriptionResults.NewItemPending(h.subs, sub, maxRetries, timeout, now);
    MoreIds(h.subs, id);
    match h.core.state
    case Connecting => SubscriptionResults.EnqueueKeeps(numbered, item, id);
    case Connected => SubscriptionResults.StartKeeps(numbered, item, h.core.connection.value, now, id);
    case _ => RefusedKeeps(h.subs, sub, id);
  }

  lemma TouchKeeps(h: Handler, s: Settings, place: S.Place, touch: S.Touch, book: map<nat, int>, id: nat)
    requires Managed(h, s, book)
    ensures Keeps(h, h.(subs := S.TouchedAt(h.subs, place, touch)), s, book, id)
  {
    hide OperationBooks.Sound, SubscriptionResults.Inv, SubscriptionResults.Tally, S.Touched;
    SubscriptionResults.TouchedKeeps(h.subs, place, touch, id);
  }

  function Booked(book: map<nat, int>, message: Message): map<nat, int> {
    if message.StartOperationMessage? then book[message.id := message.maxRetries] else book
  }

  function Begins(message: Message, id: nat): nat {
    if message.StartSubscriptionMessage? && message.id == id then 1 else 0
  }

  lemma HandleKeeps(h: Handler, s: Settings, message: Message, now: int, book: map<nat, int>, id: nat)
    requires CoreOk(h.core, s) && Managed(h, s, book)
    requires message.StartOperationMessage? ==> message.id !in book
    ensures var r := Handle(h, s, message, now);
            && CoreOk(r.core, s) && Managed(r, s, Booked(book, message))
            && SubscriptionResults.Tally(r.subs, id) == SubscriptionResults.Tally(h.subs, id) + Begins(message, id)
  {
    hide CoreOk, Managed, StartConnection, CloseConnection, EstablishTcpConnection, TcpConnectionEstablished,
         TcpConnectionClosed, HandlePackage, TimerTick, StartOperation, StartSubscription, S.TouchedAt,
         SubscriptionResults.Tally;
    HandleCoreOk(h, s, message, now);
    CoreKeeps(h, h.core, s, book, id);
    match message
    case StartConnectionMessage => CoreKeeps(h, StartConnection(h.core), s, book, id) by { StartOpen(h.core); }
    case CloseConnectionMessage(hasError) => CloseKeeps(h, s, hasError, book, id);
    case StartOperationMessage(op, maxRetries, timeout) =>
      StartOperationKeeps(h, s, op, maxRetries, timeout, now, book);
      SubsUntouched(h, s, op, maxRetries, timeout, now);
    case StartSubscriptionMessage(sub, maxRetries, timeout) =>
      StartSubscriptionKeeps(h, s, sub, maxRetries, timeout, now, book, id);
    case EstablishTcpConnectionMessage(tcp, secureTcp) => EstablishKeeps(h, s, tcp, secureTcp, book, id);
    case TcpConnectionEstablishedMessage(conn) =>
      EstablishedOpen(h.core, s, conn, now);
      CoreKeeps(h, TcpConnectionEstablished(h.core, s, conn, now), s, book, id);
    case TcpConnectionErrorMessage(_, hasError) => CloseKeeps(h, s, hasError, book, id);
    case TcpConnectionClosedMessage(conn) => LostKeeps(h, s, conn, now, book, id);
    case HandleTcpPackageMessage(conn, correlation, content) =>
      if h.core.state != Closed {
        PackageKeeps(h, s, conn, correlation, content, now, book, id);
      }
    case TimerTickMessage => TickKeeps(h, s, now, book, id);
    case TouchMessage(place, touch) => TouchKeeps(h, s, place, touch, book, id);
  }

  lemma StartOpen(c: Core)
    ensures StartConnection(c).state == Closed ==> c.state == Closed
  {
  }

  lemma EstablishedOpen(c: Core, s: Settings, conn: nat, now: int)
    ensures TcpConnectionEstablished(c, s, conn, now).state == Closed ==> c.state == Closed
  {
  }

  lemma SubsUntouched(h: Handler, s: Settings, id: nat, maxRetries: int, timeout: int, now: int)
    ensures StartOperation(h, s, id, maxRetries, timeout, now).subs == h.subs
  {
  }

  lemma EstablishKeeps(
    h: Handler, s: Settings, tcp: Option<EndPoint>, secureTcp: Option<EndPoint>, book: map<nat, int>, id: nat)
    requires Managed(h, s, book)
    ensures Keeps(h, EstablishTcpConnection(h, s, tcp, secureTcp), s, book, id)
  {
    hide Keeps, Managed, CloseConnection, EndPointFor;
    var r := EstablishTcpConnection(h, s, tcp, secureTcp);
    if EndPointFor(s, tcp, secureTcp).None? {
      CloseKeeps(h, s, false, book, id);
    } else {
      CoreKeeps(h, r.core, s, book, id);
    }
  }

  /** The operations a run has started, with their retry limits. */
  function Book(run: seq<Timed>): map<nat, int> {
    if run == [] then map[] else Booked(Book(run[..|run| - 1]), run[|run| - 1].message)
  }

  ghost function Begun(run: seq<Timed>, id: nat): nat { Count(run, (t: Timed) => Begins(t.message, id)) }

  /** Operations are new objects: none is started twice. */
  ghost predicate NewOperations(run: seq<Timed>) {
    run == [] || (
      var front, last := run[..|run| - 1], run[|run| - 1].message;
      NewOperations(front) && (last.StartOperationMessage? ==> last.id !in Book(front)))
  }

  lemma {:induction false} RunKeeps(s: Settings, run: seq<Timed>, id: nat)
    requires NewOperations(run)
    ensures var h := Run(s, run);
            && CoreOk(h.core, s) && Managed(h, s, Book(run)) && SubscriptionResults.Tally(h.subs, id) == Begun(run, id)
  {
    hide CoreOk, Managed, SubscriptionResults.Tally, Handle;
    if run == [] {
      NewKeeps(s);
      assert Begun(run, id) == 0;
    } else {
      var front, last := run[..|run| - 1], run[|run| - 1];
      RunKeeps(s, front, id);
      HandleKeeps(Run(s, front), s, last.message, last.now, Book(front), id);
    }
  }

  lemma NewKeeps(s: Settings)
    ensures CoreOk(NewCore(), s) && Managed(NewHandler(), s, map[])
    ensures forall id :: SubscriptionResults.Tally(NewHandler().subs, id) == 0
  {
    NewSound(s.operations);
    SubscriptionResults.NewSubsOk();
  }
}
