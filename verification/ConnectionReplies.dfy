/** What a package for an active operation or subscription makes of it, by what the package says. */
module ConnectionReplies {
  import opened ConnectionCore
  import opened ConnectionLogic
  import opened ConnectionRuns
  import opened Hashes
  import opened Operations
  import opened Wrappers
  import O = OperationScheduling
  import OperationBooks
  import S = SubscriptionScheduling
  import SubscriptionOperations
  import SubscriptionResults

  /** The one package that does not get to the operation it is for: it looks for an identification never sent. */
  predicate Trips(c: Core, content: Content) {
    content == ClientIdentified && c.state == Connecting && c.identity.None?
  }

  /** A package on the current connection that is for some operation or subscription. */
  predicate ForManagers(c: Core, conn: nat, content: Content) {
    c.connection == Some(conn) && !IsHeartbeat(content) && !Trips(c, content)
  }

  lemma Dispatched(h: Handler, s: Settings, conn: nat, correlation: Correlation, content: Content, now: int)
    requires CoreOk(h.core, s) && ForManagers(h.core, conn, content)
    requires correlation.ForOperation? || correlation.ForSubscription?
    ensures Handle(h, s, HandleTcpPackageMessage(conn, correlation, content), now)
            == Dispatch(h.(core := Counted(h.core)), s, conn, correlation, content, now)
  {
    hide History, Dispatch, GoToConnectedState, CloseConnection;
  }

  // ---- Operations ----

  /** What the callback is told of a package; `None` when the operation is tried again. */
  function Told(content: Content): Option<Outcome> {
    match content
    case OperationResponse(Some(Success), transforms) => Some(if transforms then Succeeded else Failed("Error"))
    case OperationResponse(Some(PrepareTimeout), _) => None
    case OperationResponse(Some(CommitTimeout), _) => None
    case OperationResponse(Some(ForwardTimeout), _) => None
    case OperationResponse(Some(WrongExpectedVersion), _) => Some(Failed("WrongExpectedVersion"))
    case OperationResponse(Some(StreamDeleted), _) => Some(Failed("StreamDeleted"))
    case OperationResponse(Some(InvalidTransaction), _) => Some(Failed("InvalidTransaction"))
    case OperationResponse(Some(AccessDenied), _) => Some(Failed("AccessDenied"))
    case OperationResponse(Some(UnknownResult), _) => Some(Failed("Unexpected OperationResult"))
    case OperationResponse(None, _) => Some(Failed("Error"))
    case NotHandledContent(None) => Some(Failed("Error"))
    case NotHandledContent(Some(NotMaster(None))) => Some(Failed("Error"))
    case NotHandledContent(Some(_)) => None
    case AuthenticationRefused => Some(Failed("Authentication error"))
    case BadRequestContent => Some(Failed("Bad request"))
    case _ => Some(Failed("Unexpected command"))
  }

  /** A server that is not the master and says who is. */
  predicate Redirects(content: Content) {
    content.NotHandledContent? && content.why.Some? && content.why.value.NotMaster? && content.why.value.info.Some?
  }

  lemma ToldIs(content: Content)
    ensures ReplyOutcome(AsReply(content)) == Told(content)
    ensures DecisionOf(AsReply(content)).Reconnect? <==> Redirects(content)
    ensures Redirects(content) ==>
              var master := content.why.value.info.value;
              DecisionOf(AsReply(content)) == Reconnect(Some(master.tcp), Some(master.secureTcp))
  {
  }

  /** The calls a package brings, for an operation that can be tried again and for one that cannot. */
  function ToldCalls(item: O.Item, told: Option<Outcome>): seq<Callback> {
    if told.Some? then [Callback(item.operation.id, told.value)]
    else if O.LimitReached(item) then [Callback(item.operation.id, Failed("Retry limit reached"))]
    else []
  }

  /** The operation is called back, or retry-pending with the account it had. */
  ghost predicate Answered(o: O.Ops, r: O.Ops, item: O.Item, told: Option<Outcome>) {
    && r.callbacks == o.callbacks + ToldCalls(item, told)
    && if ToldCalls(item, told) != [] then r.retryPending == o.retryPending
       else
         |r.retryPending| == |o.retryPending| + 1 && o.retryPending < r.retryPending
         && var left := r.retryPending[|o.retryPending|];
            left == item.(operation := left.operation) && left.operation.id == item.operation.id
            && !left.operation.completed
  }

  lemma ResolvedAnswers(o: O.Ops, item: O.Item, r: Inspected, told: Option<Outcome>)
    requires r.operation.id == item.operation.id && r.operation.completed == told.Some?
    requires r.calls == CallFor(item.operation.id, told)
    requires told.Some? ==> r.decision == EndOperation
    requires told.None? ==> r.decision.Retry? || r.decision.Reconnect?
    ensures Answered(o, O.Resolved(o, item, r), item, told)
    ensures var after := O.Resolved(o, item, r);
            after.active == Removed(o.active, item.correlationId) && after.waiting == o.waiting && after.wire == o.wire
  {
    assert o.callbacks + [] == o.callbacks;
  }

  lemma {:induction false} DrainAnswers(o: O.Ops, s: O.Settings, conn: nat, now: int)
    ensures var r := O.ScheduleWaitingOperations(o, s, conn, now);
            r.callbacks == o.callbacks && r.retryPending == o.retryPending
    decreases |o.waiting|
  {
    hide O.ScheduleOperation;
    if |o.waiting| > 0 && o.active.length < s.maxConcurrentItems {
      DrainAnswers(O.ScheduleOperation(o.(waiting := o.waiting[1..]), s, o.waiting[0], conn, now), s, conn, now);
    }
  }

  lemma Moved(h: Handler, s: Settings, tcp: Option<EndPoint>, secureTcp: Option<EndPoint>, now: int)
    requires CoreOk(h.core, s) && tcp.Some? && secureTcp.Some? && h.core.state == Connected
    ensures var r := ReconnectTo(h, s, tcp, secureTcp, now);
            && r.core.state == Connecting && r.core.phase == ConnectionEstablishing
            && r.core.connection == Some(h.core.nextConn) && r.core.emitted == h.core.emitted + [DisconnectedEvent]
            && r.core.sent == h.core.sent
                              + [Dial(if s.useSslConnection then secureTcp.value else tcp.value, h.core.nextConn)]
            && r.ops == h.ops && r.subs == S.PurgeSubscribedAndDropped(h.subs, h.core.connection.value)
  {
    hide History, S.PurgeSubscribedAndDropped;
  }

  /** Where a reply says the master is, by the settings. */
  function MasterIn(s: Settings, content: Content): Option<EndPoint> {
    if !Redirects(content) then None
    else
      var master := content.why.value.info.value;
      Some(if s.useSslConnection then master.secureTcp else master.tcp)
  }

  /** What a reply leaves of the connection: all of it, or the way to the master it names. */
  ghost predicate MovedOnly(h: Handler, r: Handler, master: Option<EndPoint>) {
    if master.Some? && h.core.state == Connected then
      && r.core.state == Connecting && r.core.phase == ConnectionEstablishing
      && r.core.connection == Some(h.core.nextConn) && r.core.emitted == h.core.emitted + [DisconnectedEvent]
      && r.core.sent == h.core.sent + [Dial(master.value, h.core.nextConn)]
    else r.core == Counted(h.core)
  }

  /**
   * A package for an active operation. Its callback is called with what the package says, or it waits to be tried again
   * as it was, after a timeout on the server and wherever the server does not handle it, unless it has had all its
   * retries; and nobody else is called. Only a server that names the master moves the connection.
   */
  lemma OperationReply(h: Handler, s: Settings, conn: nat, id: nat, content: Content, now: int, book: map<nat, int>)
    requires CoreOk(h.core, s) && Managed(h, s, book) && ForManagers(h.core, conn, content)
    requires Get(h.ops.active.entries, id).Some?
    ensures var r := Handle(h, s, HandleTcpPackageMessage(conn, ForOperation(id), content), now);
            && Answered(h.ops, r.ops, Get(h.ops.active.entries, id).value, Told(content))
            && MovedOnly(h, r, MasterIn(s, content)) && (r.core == Counted(h.core) ==> r.subs == h.subs)
            && (r.core.state != Connected ==> r.ops.waiting == h.ops.waiting && r.ops.wire == h.ops.wire)
  {
    hide CoreOk, Managed, ForManagers, Handle, InspectPackage, O.Resolved, O.ScheduleWaitingOperations, ReconnectTo,
      Get, Answered, AsReply, ReplyOutcome, DecisionOf, Told, Redirects, CallFor;
    var counted := h.(core := Counted(h.core));
    var item := Get(h.ops.active.entries, id).value;
    var reply := AsReply(content);
    Dispatched(h, s, conn, ForOperation(id), content, now);
    ActivePending(h.ops, s, id, book) by { ManagedOps(h, s, book); }
    InspectExact(item.operation, reply);
    ToldIs(content);
    var r := InspectPackage(item.operation, reply);
    DecisionKind(reply);
    ResolvedAnswers(h.ops, item, r, Told(content));
    CountedOk(h.core, s);
    if r.decision.Reconnect? && h.core.state == Connected {
      Moved(counted, s, r.decision.tcpEndPoint, r.decision.secureTcpEndPoint, now);
    } else if r.decision.Reconnect? {
      StaysPut(counted, s, r.decision.tcpEndPoint, r.decision.secureTcpEndPoint, now);
    }
    DrainStillAnswers(h.ops, O.Resolved(h.ops, item, r), item, Told(content), s.operations, conn, now);
  }

  lemma ManagedOps(h: Handler, s: Settings, book: map<nat, int>)
    requires Managed(h, s, book)
    ensures OperationBooks.Sound(h.ops, s.operations, book) && SubscriptionResults.Inv(h.subs)
  {
  }

  lemma DecisionKind(reply: Reply)
    ensures ReplyOutcome(reply).Some? <==> DecisionOf(reply) == EndOperation
    ensures ReplyOutcome(reply).None? ==> DecisionOf(reply).Retry? || DecisionOf(reply).Reconnect?
    ensures DecisionOf(reply).Reconnect? ==>
              DecisionOf(reply).tcpEndPoint.Some? && DecisionOf(reply).secureTcpEndPoint.Some?
  {
  }

  lemma CountedOk(c: Core, s: Settings)
    requires CoreOk(c, s)
    ensures CoreOk(Counted(c), s)
  {
    hide History;
    SameHistory(c, Counted(c), s);
  }

  lemma StaysPut(h: Handler, s: Settings, tcp: Option<EndPoint>, secureTcp: Option<EndPoint>, now: int)
    requires tcp.Some? && secureTcp.Some? && h.core.state != Connected
    ensures ReconnectTo(h, s, tcp, secureTcp, now) == h
  {
  }

  lemma DrainStillAnswers(
    o: O.Ops, m: O.Ops, item: O.Item, told: Option<Outcome>, s: O.Settings, conn: nat, now: int)
    requires Answered(o, m, item, told)
    ensures Answered(o, O.ScheduleWaitingOperations(m, s, conn, now), item, told)
  {
    DrainAnswers(m, s, conn, now);
  }

  // ---- Subscriptions ----

  /** Why a package drops a subscription, if it does. */
  function DropReasonOf(content: Content): SubscriptionOperations.DropReason {
    match content
    case AuthenticationRefused => SubscriptionOperations.Unauthenticated
    case DropContent(Some(AccessDeniedDrop)) => SubscriptionOperations.Denied
    case DropContent(_) => SubscriptionOperations.UnknownDrop
    case EventContent(_) => SubscriptionOperations.UnknownDrop
    case NotHandledContent(_) => SubscriptionOperations.UnknownDrop
    case _ => SubscriptionOperations.ServerError
  }

  predicate Acknowledges(content: Content) { content == DropContent(Some(SubscriptionOperations.Unsubscribed)) }

  predicate BringsEvent(content: Content) { content.EventContent? && content.event.Some? }

  predicate BringsConfirmation(content: Content) {
    content.ConfirmationContent? && content.lastCommitPosition.Some? && content.lastCommitPosition.value >= -1
  }

  predicate BringsRetry(content: Content) {
    content.NotHandledContent? && content.why.Some? && content.why != Some(NotMaster(None))
  }

  lemma SubToldIs(content: Content)
    ensures var reply := AsSubReply(content);
            && (SubscriptionOperations.Confirms(reply) <==> BringsConfirmation(content))
            && SubscriptionOperations.ReplyDecision(true, reply)
               == (if BringsEvent(content) then DoNothing else EndOperation)
            && SubscriptionOperations.ReplyDecision(false, reply)
               == (if BringsConfirmation(content) then Subscribed
                   else if Redirects(content) then
                     Reconnect(Some(content.why.value.info.value.tcp), Some(content.why.value.info.value.secureTcp))
                   else if BringsRetry(content) then Retry
                   else EndOperation)
            && SubscriptionOperations.ReplyActions(reply)
               == (if BringsEvent(content) then [SubscriptionOperations.Appeared(content.event.value)]
                   else if Acknowledges(content) then [] else [SubscriptionOperations.Dropped(DropReasonOf(content))])
            && SubscriptionOperations.ReplyCalls(reply)
               == (if BringsConfirmation(content) then [SubscriptionOperations.Started]
                   else if Acknowledges(content) || BringsRetry(content) then []
                   else [SubscriptionOperations.StartFailed(DropReasonOf(content))])
  {
  }

  predicate GivenUp(item: S.SubItem) { item.maxRetries >= 0 && item.retryCount >= item.maxRetries }

  /** What the user's handlers will be told by the package, and what the start callback has been told by it. */
  ghost predicate LastWords(op: SubscriptionOperations.SubOperation, d: SubscriptionOperations.SubOperation,
      content: Content)
  {
    var silent := Acknowledges(content) || op.unsubscribed;
    && d.unsubscribed && d.subscribed == op.subscribed
    && d.queued == op.queued + (if silent || !op.subscribed then []
                                else [SubscriptionOperations.Dropped(DropReasonOf(content))])
    && d.calls == op.calls + (if silent || op.subscribed then []
                              else [SubscriptionOperations.StartFailed(
                                  if BringsRetry(content) then SubscriptionOperations.SubscribingError
                                  else DropReasonOf(content))])
  }

  /** The item stays where it is, with another operation. */
  ghost predicate StaysActive(m: S.Subs, r: S.Subs, left: S.SubItem) {
    Get(r.active.entries, left.correlationId) == Some(left) && r.released == m.released
        && r.retryPending == m.retryPending
  }

  /** What becomes of the subscription a package is for. */
  ghost predicate SubAnswered(m: S.Subs, r: S.Subs, item: S.SubItem, content: Content) {
    var op := item.operation;
    if op.subscribed && BringsEvent(content) then
      exists d: SubscriptionOperations.SubOperation ::
        && StaysActive(m, r, item.(operation := d)) && d.subscribed && d.unsubscribed == op.unsubscribed
        && d.calls == op.calls
        && d.queued == op.queued
                       + if op.unsubscribed then [] else [SubscriptionOperations.Appeared(content.event.value)]
    else if !op.subscribed && BringsConfirmation(content) then
      exists d: SubscriptionOperations.SubOperation ::
        && StaysActive(m, r, item.(operation := d, isSubscribed := true)) && d.subscribed && !d.unsubscribed
        && d.calls == op.calls + [SubscriptionOperations.Started] && d.queued == op.queued
    else
      && Get(r.active.entries, item.correlationId).None?
      && if !op.subscribed && BringsRetry(content) && !GivenUp(item) then
           r.retryPending == m.retryPending + [item] && r.released == m.released
         else
           && r.retryPending == m.retryPending && |r.released| == |m.released| + 1 && m.released < r.released
           && LastWords(op, r.released[|m.released|], content)
  }

  /** Nobody else is touched. */
  ghost predicate OthersStay(m: S.Subs, r: S.Subs, key: nat) {
    r.waiting == m.waiting && forall k :: k != key ==> Get(r.active.entries, k) == Get(m.active.entries, k)
  }

  lemma UpdatedGet(m: S.Subs, item: S.SubItem)
    requires UniqueKeys(m.active.entries) && HasKey(m.active.entries, item.correlationId)
    ensures StaysActive(m, S.Updated(m, item), item) && OthersStay(m, S.Updated(m, item), item.correlationId)
  {
    hide Get, HasKey;
    forall k ensures Get(S.Updated(m, item).active.entries, k)
                     == if k == item.correlationId then Some(item) else Get(m.active.entries, k)
    {
      GetAfterAdd(m.active, item.correlationId, item, k);
    }
  }

  lemma RemovedGet(m: S.Subs, item: S.SubItem)
    requires UniqueKeys(m.active.entries)
    ensures var r := S.RemoveSubscription(m, item);
            OthersStay(m, r, item.correlationId) && Get(r.active.entries, item.correlationId).None?
  {
    hide Get, Deleted;
    forall k ensures Get(Removed(m.active, item.correlationId).entries, k)
                     == if k == item.correlationId then None else Get(m.active.entries, k)
    {
      GetAfterRemove(m.active, item.correlationId, k);
    }
  }

  /** What a package makes of the operation. */
  lemma SubInspected(op: SubscriptionOperations.SubOperation, content: Content)
    requires SubscriptionOperations.Orderly(op) && SubscriptionOperations.Live(op)
    ensures var r := SubscriptionOperations.InspectSubscription(op, AsSubReply(content));
            if op.subscribed && BringsEvent(content) then
              && r.decision == DoNothing && r.op.subscribed && r.op.unsubscribed == op.unsubscribed
              && r.op.calls == op.calls
              && r.op.queued == op.queued + if op.unsubscribed then []
                                            else [SubscriptionOperations.Appeared(content.event.value)]
            else if !op.subscribed && BringsConfirmation(content) then
              && r.decision == Subscribed && r.op.subscribed && !r.op.unsubscribed
              && r.op.calls == op.calls + [SubscriptionOperations.Started] && r.op.queued == op.queued
            else if !op.subscribed && BringsRetry(content) then
              r.op == op
              && if Redirects(content) then
                   var master := content.why.value.info.value;
                   r.decision == Reconnect(Some(master.tcp), Some(master.secureTcp))
                 else r.decision.Retry?
            else r.decision == EndOperation && LastWords(op, r.op, content)
  {
    hide SubscriptionOperations.InspectSubscription, AsSubReply, SubscriptionOperations.ReplyDecision, DropReasonOf,
      SubscriptionOperations.ReplyActions, SubscriptionOperations.ReplyCalls, SubscriptionOperations.Orderly;
    var reply := AsSubReply(content);
    SubToldIs(content);
    SubscriptionOperations.InspectKeeps(op, reply);
    assert op.queued + [] == op.queued && op.calls + [] == op.calls;
    if op.unsubscribed {
      SubscriptionOperations.SilentOnceDropped(op, reply, SubscriptionOperations.ByUser, false,
                                               SubscriptionOperations.Null);
    } else if op.subscribed {
      SubscriptionOperations.ConfirmedExact(op, reply);
    } else {
      SubscriptionOperations.UnconfirmedExact(op, reply);
    }
  }

  lemma GivenUpWords(op: SubscriptionOperations.SubOperation, content: Content)
    requires !op.subscribed && !op.unsubscribed && BringsRetry(content)
    ensures LastWords(op, S.DropFor(op, SubscriptionOperations.SubscribingError), content)
  {
    assert op.queued + [] == op.queued;
  }

  /** A package for a subscription that is active in the table. */
  lemma SubResolvedAnswers(m: S.Subs, item: S.SubItem, content: Content)
    requires UniqueKeys(m.active.entries) && HasKey(m.active.entries, item.correlationId)
    requires SubscriptionOperations.Orderly(item.operation) && SubscriptionOperations.Live(item.operation)
    ensures var r := S.Resolved(
              m, item, SubscriptionOperations.InspectSubscription(item.operation, AsSubReply(content)));
            SubAnswered(m, r, item, content) && OthersStay(m, r, item.correlationId)
  {
    hide UniqueKeys, HasKey, Get, Deleted, SubscriptionOperations.InspectSubscription, AsSubReply, S.Updated, S.DropFor,
      LastWords, StaysActive, SubscriptionOperations.Orderly, Redirects;
    var op := item.operation;
    var r := SubscriptionOperations.InspectSubscription(op, AsSubReply(content));
    var left := item.(operation := r.op);
    SubInspected(op, content);
    RemovedGet(m, left);
    if op.subscribed && BringsEvent(content) {
      UpdatedGet(m, left);
    } else if !op.subscribed && BringsConfirmation(content) {
      UpdatedGet(m, left.(isSubscribed := true));
    } else if !op.subscribed && BringsRetry(content) {
      assert left == item;
      GivenUpWords(op, content);
    }
  }

  /** The subscriptions once a redirection has closed the connection. */
  function Remaining(h: Handler, redirected: bool): S.Subs {
    if redirected && h.core.state == Connected && h.core.connection.Some? then
      S.PurgeSubscribedAndDropped(h.subs, h.core.connection.value)
    else h.subs
  }

  lemma ActiveIn(m: S.Subs, key: nat)
    requires SubscriptionResults.Inv(m) && Get(m.active.entries, key).Some?
    ensures UniqueKeys(m.active.entries) && HasKey(m.active.entries, key)
  {
  }

  /** An unconfirmed subscription stays where it is when the connection is closed. */
  lemma StillActive(m: S.Subs, conn: nat, key: nat)
    requires SubscriptionResults.Inv(m) && Get(m.active.entries, key).Some?
             && !Get(m.active.entries, key).value.isSubscribed
    ensures var r := S.PurgeSubscribedAndDropped(m, conn);
            SubscriptionResults.Inv(r) && Get(r.active.entries, key) == Get(m.active.entries, key)
  {
    hide SubscriptionResults.Inv, Get, S.PurgeSubscribedAndDropped, SubscriptionResults.Tally;
    SubscriptionResults.PurgeKeeps(m, conn, 0);
    SubscriptionResults.PurgeExact(m, conn, key);
  }

  /**
   * A package for an active subscription: an event is queued for the user's handler, a confirmation starts the
   * subscription, one not confirmed waits to be tried again wherever the server does not handle it, and anything else
   * ends it, with the reason, unless it acknowledges an unsubscription. No other subscription and no operation is
   * touched, but for a redirection, which closes the connection first.
   */
  lemma SubscriptionReply(h: Handler, s: Settings, conn: nat, id: nat, content: Content, now: int, book: map<nat, int>)
    requires CoreOk(h.core, s) && Managed(h, s, book) && ForManagers(h.core, conn, content)
    requires Get(h.subs.active.entries, id).Some?
    ensures var r := Handle(h, s, HandleTcpPackageMessage(conn, ForSubscription(id), content), now);
            var item := Get(h.subs.active.entries, id).value;
            var redirected := Redirects(content) && !item.operation.subscribed;
            && MovedOnly(h, r, if redirected then MasterIn(s, content) else None) && r.ops == h.ops
            && SubAnswered(Remaining(h, redirected), r.subs, item, content)
            && OthersStay(Remaining(h, redirected), r.subs, id)
  {
    hide CoreOk, Managed, IsHeartbeat, Trips, Handle, SubscriptionOperations.InspectSubscription, S.Resolved,
      ReconnectTo, Get, AsSubReply, Redirects, SubAnswered, OthersStay, SubscriptionResults.Inv,
      SubscriptionOperations.Orderly, SubscriptionOperations.Live, S.PurgeSubscribedAndDropped, UniqueKeys, HasKey,
      LastWords;
    var counted, item := h.(core := Counted(h.core)), Get(h.subs.active.entries, id).value;
    Dispatched(h, s, conn, ForSubscription(id), content, now);
    ManagedOps(h, s, book);
    ActiveLive(h.subs, id);
    ActiveIn(h.subs, id);
    SubInspected(item.operation, content);
    CountedOk(h.core, s);
    var r := SubscriptionOperations.InspectSubscription(item.operation, AsSubReply(content));
    SubscriptionOperations.InspectKeeps(item.operation, AsSubReply(content));
    RetryRedirects(content);
    SubResolvedAnswers(h.subs, item, content);
    if r.decision.Reconnect? && h.core.state == Connected {
      Moved(counted, s, r.decision.tcpEndPoint, r.decision.secureTcpEndPoint, now);
      StillActive(h.subs, conn, id);
      ActiveIn(Remaining(h, true), id);
      SubResolvedAnswers(Remaining(h, true), item, content);
    } else if r.decision.Reconnect? {
      StaysPut(counted, s, r.decision.tcpEndPoint, r.decision.secureTcpEndPoint, now);
    }
  }

  lemma RetryRedirects(content: Content)
    ensures Redirects(content) ==> BringsRetry(content) && !BringsEvent(content) && !BringsConfirmation(content)
  {
  }
}
