# A model of an Event Store client

The client talks to an event store over one TCP connection at a time. This project models its five difficult parts and
proves what their users rely on: the wire stack, catch-up subscriptions, the connection logic with its operations
manager, subscriptions, and persistent subscriptions. `dafny verify dfyconfig.toml` checks all of it.

How it is laid out: where the client changes objects step by step there is a `class` with the same fields, whose methods
are proved equal to functions on values; what holds over whole runs is proved about those functions. `Valid()` of a
class is the invariant proved for those runs. Each class that reacts to events has one method that takes them all
(`Handle`, `React`) and states what its callers rely on; the methods for single steps have no row below, and neither
have lemmas that read one branch of a function back.

| files | part |
|---|---|
| `Buffers`, `GuidParse`, `TcpPackage`, `LengthPrefixFramer`, `TcpConnection`, `PackageConnection` | bytes, identifiers, packages, frames, batches and arbitrary cutting, composed into one identity |
| `CatchUp`, `CatchUpSteps`, `CatchUpDrops`, `CatchUpRuns`, `CatchUpCoherence`, `CatchUpResults`, `CatchUpReconnections`, `CatchUpLoss`, `CatchUpOverflow`, `CatchUpSubscription` | the catch-up client against a server whose log grows meanwhile; one text for streams and $all; each step, drops, first runs, reconnections, overflows, and how an event is lost |
| `Hash`, `Operation`, `OperationScheduling`, `OperationChecks`, `OperationBooks`, `OperationAccounts`, `OperationSettlement`, `OperationsManager` | the table, operations and their manager; an account per operation |
| `SubscriptionOperation`, `VolatileSubscriptionOperation`, `SubscriptionDelivery`, `SubscriptionScheduling`, `SubscriptionResults`, `SubscriptionsManager` | subscription operations with their action queue, and their manager |
| `ConnectionLogic`, `ConnectionCore`, `ConnectionRuns`, `ConnectionResults`, `ConnectionPaths`, `ConnectionSteps`, `ConnectionReplies`, `ConnectionTicks`, `ConnectionLogicHandler` | the handler's state machine, alone and together with both managers over every run |
| `PersistentSubscription` | the persistent subscription queue |
| `Counting` | counting and picking in sequences and tables |

Promise continuations, `setImmediate`, timers, socket events and the server are steps that happen in any order. Time is
the number a step is given. A user callback is something that returns, throws, or settles later. Fresh random ids are
numbers not used before, kept apart by who drew them.

## Where the code does other than it seems to intend

- `_allowProcessing` is set at `src/eventStoreCatchUpSubscription.js:169` and never cleared, and a client listens for a
  reconnection only once it is set. So it is set at every reconnection, and live and catch-up processing overlap: an
  event appended before the new confirmation is lost when one pushed after it is handled first
  (`CatchUpLoss.ReconnectionCanLose`). Without overflow a run is gap-free if the live queue takes no turn before the
  chain of reads has gone live (`CatchUpReconnections.RunInTimeIsGapFree`), which only first runs guarantee.
- The server's `Unsubscribed` drop reaches `dropSubscription` without a connection and throws half way
  (`src/clientOperations/subscriptionOperation.js:94`, `:193-194`): the drop notification is lost for a confirmed
  subscription, and the start callback is never called for an unconfirmed one.
- `_clientVersion` is never set, so an authentication timeout goes straight to the connected state without
  identification (`src/core/eventStoreConnectionLogicHandler.js:643-647`; `ConnectionPaths.ConnectsExact`).
- A socket that connects after the connect timeout is adopted by a connection already closed, and nothing closes it any
  more, because closing works only once (`src/transport/tcp/tcpConnection.js:126`, `:151-159`).
- The `isClosed` of a package connection reads a property the connection does not have and never stops an
  established message (`src/transport/tcp/tcpPackageConnection.js:72-77`).
- A segment made with count 0 shows the whole buffer length (`src/common/bufferSegment.js:14`).
- `fromBufferSegment` tests a `length` that segments do not have; a package that is too short is read from beyond its
  end without an error (`Garbled` in the model).
- A flagged package with an empty password and nothing behind it is refused when it is read
  (`src/systemData/tcpPackage.js:34`; `TcpPackages.DecodesExact`), although its credentials fit.
- The wait of 100 ms between reads never happens, because `done` is a promise
  (`src/eventStoreStreamCatchUpSubscription.js:51-52`).
- The drop after a failed persistent handler sets no drop data, so handlers may start after the drop callback: none does
  exactly if drop data is set or the promise chain has broken off (`PersistentSubscriptions.NoneStartsExact`,
  `PersistentSubscriptions.HandlerStartsAfterDrop`).
- `_enqueuePushedEvent` does not look whether the subscription has been dropped
  (`src/eventStoreCatchUpSubscription.js:181-190`): after an overflow, once the queue has run empty, the next push is
  handed over behind the lost event (`CatchUpOverflow.OverflowCanLose`).
- A redirection to the end point already in use is not recognised, because end points are compared by identity
  (`src/core/eventStoreConnectionLogicHandler.js:614`): the handler reconnects.
- An operation queued while there is no connection is not counted until the next change of the queue
  (`src/core/operationsManager.js:141-144`; `ConnectionSteps.CountExact`), so a limit on the count does not hold until
  then (`src/eventStoreNodeConnection.js:714`).
- An `error` event without a listener is an exception that skips the `closed` event.

## Model

| member | source | states |
|---|---|---|
| `Buffers.BufferSegment.CopyTo` | src/common/bufferSegment.js:26-28 | the window is written at the given index and every other byte of the destination stays |
| `Buffers.SegmentShowsWindow` | src/common/bufferSegment.js:9-24 | a segment shows the window asked for exactly when the window is non-empty or ends at the end of the buffer; a count of 0 otherwise shows something else |
| `GuidParse.Parse` | src/common/guid-parse.js:12-35 | the 16 bytes are written at the offset, all other bytes of a larger buffer stay |
| `GuidParse.FillOctets` | src/common/guid-parse.js:16-22 | the region is zero-filled, then gets the first 16 octets found in the text, in order |
| `GuidParse.SwapInPlace` | src/common/guid-parse.js:24-32 | the first field is reversed as four bytes and the next two as two bytes each, in place |
| `GuidParse.ParseOfUnparse` | src/common/guid-parse.js:12-44 | reading the text of any 16 bytes gives those bytes back |
| `GuidParse.UnparseOfParse` | src/common/guid-parse.js:12-44 | writing what was read gives the lower-cased text exactly for texts in the form of section 3 of RFC 4122, and for no other text |
| `GuidParse.UnparseShape` | src/common/guid-parse.js:38-44 | the text written for any bytes is a lower-case UUID |
| `GuidParse.UnparsePlaces` | src/common/guid-parse.js:38-44 | the text has hyphens at 8, 13, 18 and 23, and the digits of each of the 16 bytes at the places given for it: the first field from its last byte to its first, the next two likewise, the rest in order |
| `GuidParse.ParsePlaces` | src/common/guid-parse.js:12-35 | each byte read from a UUID is the one whose two digits, in either case, stand at its place |
| `GuidParse.UuidExact` | src/common/guid-parse.js:12-44 | the texts taken for UUIDs: 36 characters, hyphens at 8, 13, 18 and 23, hexadecimal digits of either case elsewhere |
| `TcpPackages.AsBuffer` | src/systemData/tcpPackage.js:51-79 | fills a new buffer with the encoding; fails exactly when flagged credentials are missing or longer than 255 bytes |
| `TcpPackages.DecodeOfEncode` | src/systemData/tcpPackage.js:21-79 | decoding the encoding of any package that can be built and encoded gives its command, flags, credentials and payload, and the correlation id as it reads after the round trip |
| `TcpPackages.EncodedLayout` | src/systemData/tcpPackage.js:51-79 | command, flags, the 16 bytes of the identifier in their mixed order, the credentials behind their lengths when flagged, and the payload, at their places |
| `TcpPackages.EncodedPayload` | src/systemData/tcpPackage.js:67-75 | a package ends with the bytes of its payload window, and zeros where that goes beyond its buffer |
| `TcpPackages.DecodesExact` | src/systemData/tcpPackage.js:21-49 | bytes long enough for a header are read as a package exactly if they are not flagged, or the credentials fit; an empty password with nothing behind it is refused |
| `TcpPackages.CredentialsRead` | src/systemData/tcpPackage.js:31-47 | and what is read from them: the credentials, an empty one as none, and the payload |
| `TcpPackages.RoundTripExact` | src/systemData/tcpPackage.js:21-79 | encoding and decoding returns an equal package exactly for packages with a lower-case UUID, credentials that go with the flag, and a payload window inside its buffer |
| `LengthPrefixFraming.LengthPrefixMessageFramer.Reset` | src/transport/tcp/lengthPrefixMessageFramer.js:11-16 | back to an empty header |
| `LengthPrefixFraming.LengthPrefixMessageFramer.Parse` | src/transport/tcp/lengthPrefixMessageFramer.js:24-57 | block-wise parsing of a segment equals feeding its bytes one by one to the reference automaton, messages delivered and rejection included |
| `LengthPrefixFraming.LengthPrefixMessageFramer.UnframeData` | src/transport/tcp/lengthPrefixMessageFramer.js:18-22 | the same for a list of segments |
| `LengthPrefixFraming.UnframeFrames` | src/transport/tcp/lengthPrefixMessageFramer.js:24-67 | unframing any concatenation of frames of size 1..max returns those messages |
| `LengthPrefixFraming.UnframeExact` | src/transport/tcp/lengthPrefixMessageFramer.js:24-67 | a byte string unframes completely to a list of messages exactly when it is their framing and all sizes are within 1..max |
| `LengthPrefixFraming.InputAccounted` | src/transport/tcp/lengthPrefixMessageFramer.js:24-57 | for any input whatever, the input is the frames delivered, then the bytes pending, then what followed a rejected header |
| `LengthPrefixFraming.CuttingIrrelevant` | src/transport/tcp/lengthPrefixMessageFramer.js:18-57 | two ways of cutting the same bytes, inside headers too, have the same messages and the same point of rejection |
| `LengthPrefixFraming.UnframePrefix` | src/transport/tcp/lengthPrefixMessageFramer.js:24-67 | from part of a framed stream come the first messages, all whose frames are complete, and no rejection |
| `LengthPrefixFraming.FrameLayout` | src/transport/tcp/lengthPrefixMessageFramer.js:59-67 | a frame is the size in four bytes, least significant first, and the message |
| `LengthPrefixFraming.FramePieces` | src/transport/tcp/lengthPrefixMessageFramer.js:59-67 | the two segments queued for a message are its frame |
| `TcpConnections.TcpConnection.InitSocket` | src/transport/tcp/tcpConnection.js:33-44 | sending starts, on a connection already closed by the connect timeout too; nothing queued is lost |
| `TcpConnections.TcpConnection.EnqueueSend` | src/transport/tcp/tcpConnection.js:46-53 | what goes out is what went out before plus the segments, in order; with anything left in the queue a later attempt is due |
| `TcpConnections.TcpConnection.TrySend` | src/transport/tcp/tcpConnection.js:55-71 | writes one batch from the front, as one buffer, ending with the first piece past 64 KiB; nothing is lost or reordered and no wake-up is missed |
| `TcpConnections.TcpConnection.ProcessReceive` | src/transport/tcp/tcpConnection.js:81-92 | received data is handed over at once or queued in order; an empty buffer closes the connection |
| `TcpConnections.TcpConnection.Receive` | src/transport/tcp/tcpConnection.js:94-97 | everything queued is handed over, and the callback stays registered exactly when there was nothing |
| `TcpConnections.TcpConnection.TryDequeueReceivedData` | src/transport/tcp/tcpConnection.js:99-119 | the callback gets the whole queue in order, once |
| `TcpConnections.TcpConnection.CloseInternal` | src/transport/tcp/tcpConnection.js:125-136 | the first call ends the socket and calls the closed callback, any later one does nothing; what was accepted for sending is unchanged |
| `PackageConnections.TcpPackageConnection.EnqueueSend` | src/transport/tcp/tcpPackageConnection.js:130-133 | a package that can be encoded is appended to what was sent, and its frame to what goes out; any other has no effect |
| `PackageConnections.TcpPackageConnection.OnRawDataReceived` | src/transport/tcp/tcpPackageConnection.js:91-101 | the packages handled are those of the bytes taken in; once the framer has rejected a frame the connection is closed |
| `PackageConnections.TcpPackageConnection.IncomingMessageArrived` | src/transport/tcp/tcpPackageConnection.js:103-123 | a decodable message goes to the package handler, any other is reported and closes the connection |
| `PackageConnections.WireIdentity` | src/transport/tcp/tcpPackageConnection.js:91-133 | however the stream is cut, the packages decoded are a prefix of those sent, each transportable one with the same command, flags, correlation id, credentials and payload, and contain every one that has arrived completely |
| `PackageConnections.EndToEnd` | src/transport/tcp/tcpPackageConnection.js:91-133 | of two connected ends, the receiver has handled a prefix of the packages the sender was asked to send, each transportable one the same in every field and in its payload, and all of them once every byte has arrived |
| `PackageConnections.OversizedStops` | src/transport/tcp/tcpPackageConnection.js:91-101 | a frame above the size limit is refused and nothing behind it is ever delivered |
| `Positions.CompareToIsTotalOrder` | src/results.js:21-29 | the comparison of positions is a total order |
| `CatchUpSubscriptions.EventStoreCatchUpSubscription.React` | src/eventStoreCatchUpSubscription.js:68-263 | the object under any input: what has been called stays called, in order and no event twice after its call has returned; no more in the live queue and no more drop callbacks than the runs begun so far allow; the owner is told of a drop, with its reason, exactly when there is one not told yet, and the server subscription ends with it |
| `CatchUpSubscriptions.EventStoreCatchUpSubscription.TryProcess` | src/eventStoreStreamCatchUpSubscription.js:81-95 | the handler is called exactly for an event beyond the last processed one, and the cursor follows unless the call throws |
| `CatchUpRuns.RunIsGapFree` | src/eventStoreCatchUpSubscription.js:133-191 | in every run without a reconnection or an overflow, for every interleaving of appends, slices, confirmation, pushes, handler outcomes, stops and drops and every batch size, the handler gets a contiguous segment of the log from behind the checkpoint, in order and once each, and all of it once settled; at every moment each event not yet handed over is at or behind the read cursor, in the slice in hand, or, once pushed to a live client, in the queue; for streams and for $all |
| `CatchUpRuns.InvStep` | src/eventStoreCatchUpSubscription.js:123-263 | the joint invariant of read cursor, delivery cursor, slice in progress, confirmation and live queue, kept by every step |
| `CatchUp.DeliveryStrictlyIncreases` | src/eventStoreCatchUpSubscription.js:68-74 | over any inputs, reconnections and overlapping live and catch-up processing included, no event is handed over again or out of order once a call for it or a later one has returned |
| `CatchUpResults.NewSubscriptionStarts` | src/eventStoreStreamCatchUpSubscription.js:18-19 | from nothing or from an exclusive checkpoint, the first event owed is the first one behind it, and reading begins there, for $all at the checkpoint itself |
| `CatchUpDrops.DropsExact` | src/eventStoreCatchUpSubscription.js:123-263 | over every input: the owner is told exactly at a marker of the live queue, with the reason asked for, at a live handler that throws or rejects, at a read, a subscribe request or a handler that fails while catching up, and at the end of the chain after a stop; once in a run; and the server subscription is told to end with it |
| `CatchUpDrops.StopIsTold` | src/eventStoreCatchUpSubscription.js:106-121 | a stop of a live client is told exactly once, as asked for by the user, after no more turns than there were items queued and one, whatever is pushed meanwhile |
| `CatchUpSteps.QueueExact` | src/eventStoreCatchUpSubscription.js:174-210 | what a push, the end of the server subscription and a stop add to the live queue, with the one marker for the first request in a run; a sleeping queue wakes up when live processing is allowed, and a busy one is left alone |
| `CatchUpSteps.ChainExact` | src/eventStoreCatchUpSubscription.js:68-172 | what each answer makes of the chain, and the reconnection that begins it anew where reading stopped: slice by slice and event by event, on to the next slice, to the subscription after the first read, to live processing and the wait for a reconnection after the second, and to nothing after a failure or a stop |
| `CatchUpSteps.LiveExact` | src/eventStoreCatchUpSubscription.js:212-243 | what a turn of the live queue does: it sleeps when empty, drops at a marker, skips what has been processed, calls the handler and waits for it, and stops when that fails |
| `CatchUpResults.AllStopTestExact` | src/eventStoreAllCatchUpSubscription.js:42-44 | a $all read stopped at or past (L,L) has seen everything up to there exactly when it stopped past (L,L) or no event lies at (L,L) |
| `CatchUpCoherence.CoherentStep` | src/eventStoreCatchUpSubscription.js:68-263 | every step, reconnections, overflows and failures included, keeps the read cursor at or behind the delivery cursor, everything queued or in hand an event of the log, at most one reconnection listener, only between runs and only with live processing allowed, and one activation of the live queue |
| `CatchUpResults.NewSubscriptionCoheres` | src/eventStoreCatchUpSubscription.js:101-133 | so every run of a new subscription has these properties throughout |
| `CatchUpReconnections.RunInTimeIsGapFree` | src/eventStoreCatchUpSubscription.js:123-243 | a run, the first or one after a reconnection, with whatever the last session left in the queue, is gap-free up to the next reconnection and without overflow as long as the live queue takes no turn before the chain of reads has gone live; once it listens again and has settled, all of the log has been handed over |
| `CatchUpReconnections.FirstRunIsInTime` | src/eventStoreCatchUpSubscription.js:167-210 | a first run always meets that condition: no turn is due before live processing is first allowed |
| `CatchUpLoss.ReconnectionCanLose` | src/eventStoreCatchUpSubscription.js:68-191 | from every coherent state in which a live client reconnects, wherever the last session stopped and whatever is left in the queue, as long as it has room for a push, now or after the turn that is due, the normal behaviour of the server and of the handler leads to an event that is never handed over |
| `CatchUpLoss.GapFreeExact` | src/eventStoreCatchUpSubscription.js:167-172 | up to the next reconnection and without overflow, every continuation of a beginning run is gap-free exactly if live processing is not already allowed as it begins, which is so in a first run and never after a reconnection |
| `CatchUpLoss.LostForGood` | src/eventStoreStreamCatchUpSubscription.js:81-95 | an event the delivery cursor has passed without a call is never handed over later, whatever happens |
| `CatchUpLoss.WholeRunLoses` | src/eventStoreCatchUpSubscription.js:101-193 | a whole run from a new subscription over a session that goes live, the loss of the connection with its drop notification, and a reconnection to such an event |
| `CatchUpOverflow.OverflowKeepsGapFree` | src/eventStoreCatchUpSubscription.js:174-191 | a first run in which pushes meet a full queue stays gap-free as long as none is accepted after the first that was lost |
| `CatchUpOverflow.OverflowCanLose` | src/eventStoreCatchUpSubscription.js:174-243 | from every live client that keeps up with the server, for every queue size: an event that meets the full queue is lost for good once the queue has run empty past its drop marker and the next push is accepted and handed over, which a push does whether or not the subscription has been dropped |
| `CatchUpResults.SecondReadEnds` | src/eventStoreStreamCatchUpSubscription.js:43-71 | the second read ends, of a stream and, if reads reach (L,L), of $all, in the first run and after any number of reconnections, for any batch size and with overflow, drops, stops, live turns and appends in between: from the confirmation of the last event to the next reconnection it takes at most as many slices as events are missing up to it, and one more |
| `CatchUpResults.RunIsLimited` | src/eventStoreCatchUpSubscription.js:123-263 | over any inputs, reconnections included, the live queue never holds more than maxPushQueueSize events, and there are at most one drop marker and one drop callback for each run that has begun |
| `CatchUpResults.UnsubscribesExact` | src/eventStoreCatchUpSubscription.js:174-263 | the server subscription is told to end exactly by every push that meets a full queue and by every drop of a client that has one |
| `Hashes.Hash.Add` | src/common/hash.js:16-19 | the key finds the value and every other key what it found before; the hand-kept length stays right exactly for a new key |
| `Hashes.Hash.Remove` | src/common/hash.js:36-39 | the key finds nothing and every other key what it found before; the length stays right exactly for a key in use |
| `Hashes.AddExact` | src/common/hash.js:16-19 | `add` keeps the hand-kept length right exactly for an unused key |
| `Hashes.RemoveExact` | src/common/hash.js:36-39 | `remove` keeps it right exactly for a key in use |
| `Hashes.GetAfterAdd` | src/common/hash.js:16-35 | afterwards the key finds its value and every other key what it found before |
| `Hashes.GetAfterRemove` | src/common/hash.js:32-39 | afterwards the key finds nothing and every other key what it found before |
| `Operations.InspectSettles` | src/clientOperations/operationBase.js:36-145 | whatever the package, a pending operation is told to end exactly when its callback has been called, once and for good; a reconnection always names both end points |
| `Operations.InspectExact` | src/clientOperations/operationBase.js:65-145 | what each package makes of a pending operation: what its callback is told, who is tried again, and the two end points of the master it is sent to |
| `Operations.CompletedCalledAgain` | src/clientOperations/operationBase.js:36-51 | which packages would call a completed operation again: `fail` does not look at the completion flag |
| `AppendToStreamOperations.AppendToStreamOperation.InspectPackage` | src/clientOperations/operationBase.js:65-85 | a pending operation is told to end exactly when its callback is called, which is then the first call, and with what the package says; it is retried after the three timeouts and when it is not handled, and goes to the master a package names |
| `AppendToStreamOperations.AppendToStreamOperation.InspectResponse` | src/clientOperations/appendToStreamOperation.js:43-72 | the same for the result of an append |
| `AppendToStreamOperations.AppendToStreamOperation.Succeed` | src/clientOperations/operationBase.js:41-51 | calls back once, and not when already completed; a result that cannot be built throws |
| `OperationsManagers.OperationsManager.CleanUp` | src/core/operationsManager.js:37-53 | active, waiting and retry-pending operations fail in this order; nothing is held afterwards and every operation accepted so far has been called back once |
| `OperationsManagers.OperationsManager.CheckTimeoutsAndRetry` | src/core/operationsManager.js:55-110 | the loops compute the check function, whose closed form is OperationBooks.CheckExact, and keep tables, limits, ids and every account right |
| `OperationsManagers.OperationsManager.ScheduleWaitingOperations` | src/core/operationsManager.js:132-139 | waiting operations are sent in order; the loop ends, with nothing waiting or no room, and keeps every account right |
| `OperationChecks.SweptExact` | src/core/operationsManager.js:58-90 | the first half of a check in closed form: who stays active, who is to be sent again, who has failed |
| `OperationChecks.SortedExact` | src/core/operationsManager.js:92-98 | sorting by sequence number is a permutation in ascending order |
| `OperationBooks.CheckExact` | src/core/operationsManager.js:55-139 | a check in closed form: of the line "retried operations as far as there is room, waiting ones, remaining retried ones" as many as there is room for are sent, in that order, and the rest wait |
| `OperationBooks.CheckSettles` | src/core/operationsManager.js:55-139 | after a check nothing is retry-pending, every active operation is bound to the current connection, nothing waits or the active ones are at their limit, and retried operations go out or queue in ascending sequence number |
| `OperationSettlement.CheckFate` | src/core/operationsManager.js:58-123 | an active operation is called back in a check exactly when it went unanswered on the current connection and the settings fail such ones, or it has to be sent again and is at its retry limit |
| `OperationAccounts.CheckSound` | src/core/operationsManager.js:55-163 | a check keeps table consistency, limits, correlation ids and the account of every operation |
| `OperationAccounts.DrainSound` | src/core/operationsManager.js:132-139 | so does the drain of waiting operations |
| `OperationSettlement.ResolvedSound` | src/core/eventStoreConnectionLogicHandler.js:544-570 | so does a reply, which calls back exactly when it ends the operation or the operation is at its limit |
| `OperationSettlement.CleanUpSettles` | src/core/operationsManager.js:37-53 | closing leaves nothing pending, and every accepted operation has then been called back exactly once, the pending ones with the failure "closed" |
| `OperationSettlement.ScheduleSound` | src/core/operationsManager.js:146-163 | a new operation opens an account: sent once or waiting unsent |
| `OperationSettlement.EnqueueSound` | src/core/operationsManager.js:141-144 | a new operation that waits opens an account with no send |
| `VolatileSubscriptionOperations.VolatileSubscriptionOperation.DropSubscription` | src/clientOperations/subscriptionOperation.js:177-204 | the first drop of a confirmed subscription queues its notification and that of an unconfirmed one calls its start callback, unless it throws: exactly for a drop by the user of a confirmed subscription without the argument, and for one by others before that without an error |
| `VolatileSubscriptionOperations.VolatileSubscriptionOperation.Unsubscribe` | src/clientOperations/subscriptionOperation.js:59-61 | a confirmed subscription gets its end queued exactly once, any other nothing |
| `VolatileSubscriptionOperations.VolatileSubscriptionOperation.InspectPackage` | src/clientOperations/subscriptionOperation.js:73-165 | a package leaves the operation in order and does what its kind asks for: the event or the drop with its reason queued for a confirmed one, the start callback called for any other, nothing once dropped |
| `VolatileSubscriptionOperations.VolatileSubscriptionOperation.ExecuteActions` | src/clientOperations/subscriptionOperation.js:250-275 | one turn: actions begun and queued stay the sequence they were, one more begins, or the queue sleeps with every action begun |
| `SubscriptionOperations.InspectKeeps` | src/clientOperations/subscriptionOperation.js:73-165 | a package keeps an active subscription in order, and the decision tells pending, confirmed just now, confirmed before and dropped apart |
| `SubscriptionOperations.DropExact` | src/clientOperations/subscriptionOperation.js:177-204 | a dropped confirmed subscription has exactly one notification queued, except exactly for a drop by the user without a connection argument, which throws |
| `SubscriptionOperations.ConfirmedExact` | src/clientOperations/subscriptionOperation.js:73-165 | a package for a confirmed subscription: an event is queued, anything else ends it and queues the drop with the matching reason, except for the server's `Unsubscribed`, where it is lost |
| `SubscriptionOperations.UnconfirmedExact` | src/clientOperations/subscriptionOperation.js:73-165 | a package for any other: a confirmation at a possible position starts it, a server that is not ready or is not the master has it tried again, and everything else ends it with one call of the start callback, with the same one exception |
| `SubscriptionDeliveries.EventsDelivered` | src/clientOperations/subscriptionOperation.js:227-275 | in every run of packages, retries, drops, unsubscriptions and turns, the events queued for the user are exactly those that arrived between the confirmation and the end, in order, and are handed over in that order |
| `SubscriptionOperations.SilentOnceDropped` | src/clientOperations/subscriptionOperation.js:177-240 | once dropped a package changes nothing any more: no event, no second drop |
| `SubscriptionOperations.UnsubscribeNotifies` | src/clientOperations/subscriptionOperation.js:59-61 | a user's unsubscription is always notified, with or without a current connection, and told to the server if there is one |
| `SubscriptionOperations.TurnKeeps` | src/clientOperations/subscriptionOperation.js:242-275 | actions begin in queueing order, one at a time, the next one when the promise of the last is settled, and the queue sleeps only when it is empty |
| `SubscriptionsManagers.SubscriptionsManager.CleanUp` | src/core/subscriptionsManager.js:22-39 | every subscription is dropped, nothing is held, and the manager stays in order |
| `SubscriptionsManagers.SubscriptionsManager.PurgeSubscribedAndDroppedSubscriptions` | src/core/subscriptionsManager.js:41-53 | no active subscription stays confirmed on the closed connection, and the manager stays in order |
| `SubscriptionsManagers.SubscriptionsManager.CheckTimeoutsAndRetry` | src/core/subscriptionsManager.js:55-106 | both loops end; afterwards nothing waits or is retry-pending and every active subscription is confirmed or bound to the connection |
| `SubscriptionResults.RetryKeeps` | src/core/subscriptionsManager.js:114-131 | a retry takes an unconfirmed active subscription out of the table, keeps the manager in order, and leaves the subscription in one place: pending, or dropped at its limit |
| `SubscriptionResults.StartKeeps` | src/core/subscriptionsManager.js:137-162 | a waiting or retry-pending subscription is never a confirmed one: starting it always makes it active, the removal branches are not reached, and the table length stays its key count |
| `SubscriptionResults.CheckKeeps` | src/core/subscriptionsManager.js:55-106 | after a check nothing waits or is retry-pending, every active subscription is confirmed or bound to the current connection, has been asked for under its id on it, once more than it was retried, and each subscription is in as many places as before |
| `SubscriptionResults.CheckExact` | src/core/subscriptionsManager.js:61-91 | an active subscription stays as it is exactly when it is confirmed, or on the current connection and not silent for too long |
| `SubscriptionResults.CheckRenews` | src/core/subscriptionsManager.js:55-106 | after a check whatever is active was so before, unchanged, or has just been asked for on the connection |
| `SubscriptionResults.GivesUpExact` | src/core/subscriptionsManager.js:67-90 | a check gives up exactly the unconfirmed subscriptions that are silent where the settings want that, or silent or left behind with all their retries used, and their start callbacks are told so |
| `SubscriptionResults.PurgeKeeps` | src/core/subscriptionsManager.js:41-53 | after a purge no active subscription is confirmed on the closed connection |
| `SubscriptionResults.PurgeExact` | src/core/subscriptionsManager.js:41-53 | a purge takes out exactly those confirmed on the closed connection |
| `SubscriptionResults.PurgeTells` | src/core/subscriptionsManager.js:41-53 | exactly those have their drop queued, for the closed connection |
| `SubscriptionResults.CleanUpKeeps` | src/core/subscriptionsManager.js:22-39 | closing leaves every subscription dropped, its start callback called exactly once |
| `SubscriptionResults.CleanUpTells` | src/core/subscriptionsManager.js:22-39 | everybody is told that the connection was closed, confirmed ones through their queue |
| `SubscriptionResults.ResolvedKeeps` | src/core/eventStoreConnectionLogicHandler.js:572-598 | a package for an active subscription keeps the manager's invariant, whatever it says |
| `SubscriptionResults.TouchedKeeps` | src/clientOperations/subscriptionOperation.js:59-61 | so do a user's unsubscription and the turns of the action queues, for managed and released subscriptions |
| `SubscriptionResults.TouchedExact` | src/clientOperations/subscriptionOperation.js:242-275 | what they do to the one operation they are for, and that they touch no other |
| `ConnectionLogicHandlers.ConnectionLogicHandler.Handle` | src/core/eventStoreConnectionLogicHandler.js:66-106 | the object under any message: it stays in order together with both managers; once closed it does nothing more; no operation is called back twice, and each has been when it is closed; what has been emitted stays, alternates, and nothing follows `closed` |
| `ConnectionCore.HandleCoreOk` | src/core/eventStoreConnectionLogicHandler.js:121-671 | every message keeps the state shape and the emitted history in order |
| `ConnectionRuns.RunKeeps` | src/core/eventStoreConnectionLogicHandler.js:66-106 | over every run: state shape, history, both managers' invariants, every operation's account and every subscription's place |
| `ConnectionResults.OperationsSettle` | src/core/eventStoreConnectionLogicHandler.js:228-247 | over every run of handler, manager and operations, each started operation is in one place or called back once, never twice, and called back in any run that closed; never sent more than its limit plus one times |
| `ConnectionResults.ActiveConsistent` | src/core/operationsManager.js:112-163 | over every run the active table's hand-kept length is its key count, keys are the operations' correlation ids, ids are used once, and the active count is within maxConcurrentItems |
| `ConnectionResults.SubscriptionsInOrder` | src/core/eventStoreConnectionLogicHandler.js:269-297 | over every run each started subscription is in exactly one place with its callbacks and its queue in order, and an active one has been asked for under its id on its connection, once more than it was retried; a closed handler holds none |
| `ConnectionResults.StateInShape` | src/core/eventStoreConnectionLogicHandler.js:121-205 | over every run: Connected implies phase, connection, heartbeat and the was-connected flag; Connecting implies the flag is off and the establishing, authentication and identification phases have a connection; Closed has none |
| `ConnectionResults.ClosedIsFinal` | src/core/eventStoreConnectionLogicHandler.js:173-178 | Closed is absorbing under every message: nothing is emitted or changed, and a new operation fails at once |
| `ConnectionResults.EmittedInOrder` | src/core/eventStoreConnectionLogicHandler.js:173-193 | over every run `connected` and `disconnected` alternate, `closed` comes once and last, and `reconnecting` never exceeds the limit since the last reset |
| `ConnectionResults.UpAlternates` | src/core/eventStoreConnectionLogicHandler.js:415-464 | the fold used in the invariant means alternation, `connected` first |
| `ConnectionResults.LastAttemptCloses` | src/core/eventStoreConnectionLogicHandler.js:631-640 | a due attempt closes the connection exactly when the limit is used up |
| `ConnectionRuns.ReconnectKeeps` | src/core/eventStoreConnectionLogicHandler.js:604-624 | a redirected handler is not closed in the middle of dispatch: the operations stay as they were |
| `ConnectionResults.EmittedGrows` | src/core/eventStoreConnectionLogicHandler.js:148-705 | no message takes back anything emitted |
| `ConnectionPaths.HandshakeConnects` | src/core/eventStoreConnectionLogicHandler.js:328-429 | in every run, from the discovery of an end point on, at any times and with whatever operations, subscriptions, heartbeats, ticks and messages of other connections in between, the handshake gets exactly as far as the messages it waits for have come, one more with credentials, and connects exactly with the last, saying so |
| `ConnectionPaths.ConnectsExact` | src/core/eventStoreConnectionLogicHandler.js:523-647 | one message makes a connecting handler connected exactly if it is the answer to its identification on its connection, or a tick that finds the authentication unanswered past the operation timeout |
| `ConnectionPaths.ConnectedUnidentified` | src/core/eventStoreConnectionLogicHandler.js:643-647 | a run that is connected without any identification sent |
| `ConnectionPaths.HeartbeatTimeoutExact` | src/core/eventStoreConnectionLogicHandler.js:673-705 | a connection asked for a heartbeat is given up exactly when no package has come since |
| `ConnectionPaths.ConnectedRebinds` | src/core/eventStoreConnectionLogicHandler.js:415-429 | connected again with a check due, all active operations and unconfirmed subscriptions are bound to the new connection and nothing is left to retry |
| `ConnectionPaths.ReplyFillsRoom` | src/core/eventStoreConnectionLogicHandler.js:565-567 | after a reply on a live connection nothing waits or the active operations are at their limit |
| `ConnectionPaths.LossPurges` | src/core/eventStoreConnectionLogicHandler.js:439-455 | on the loss of a connection no active subscription stays confirmed on it |
| `ConnectionPaths.PackageClosesExact` | src/core/eventStoreConnectionLogicHandler.js:533-602 | the only package that closes is a bad request with the empty id |
| `ConnectionPaths.ClosedEventExact` | src/core/eventStoreConnectionLogicHandler.js:188-192 | `closed` is emitted unless an error has no listener |
| `ConnectionReplies.OperationReply` | src/core/eventStoreConnectionLogicHandler.js:544-570 | a package for an active operation, by what it says: the callback is called with the matching outcome, or the operation waits to be tried again as it was, unless it has had all its retries; nobody else is called, and only a server that names the master moves the connection, to that master's end point, or its secure one where the settings ask for it |
| `ConnectionReplies.SubscriptionReply` | src/core/eventStoreConnectionLogicHandler.js:572-598 | a package for an active subscription, by what it says: an event is queued, a confirmation starts it, an unconfirmed one waits to be tried again where it is not handled, and anything else ends it with the reason told; no other subscription and no operation is touched |
| `ConnectionTicks.ConnectedTick` | src/core/eventStoreConnectionLogicHandler.js:649-705 | a tick of a connected handler: both managers make their check exactly when it is due, the reconnection count starts again and the next check is a period later; the heartbeats go on by their stage, ask, or give the connection up |
| `ConnectionTicks.ChecksOnceUp` | src/core/eventStoreConnectionLogicHandler.js:415-429 | a handler that becomes connected makes both checks exactly if they are due |
| `ConnectionTicks.TickSettles` | src/core/eventStoreConnectionLogicHandler.js:649-660 | with a check due: every operation in time stays as it is, any other active one has just been sent on the connection, nothing is retry-pending or waits beside room, and one is called back exactly if silent where that is an error or out of retries; subscriptions likewise |
| `ConnectionSteps.ConnectingTick` | src/core/eventStoreConnectionLogicHandler.js:629-648 | a tick while connecting: a due reconnection attempt is announced and looks for an end point, or closes the handler; an authentication not answered in time is reported and the handler connected; otherwise nothing is announced |
| `ConnectionSteps.HandshakeSends` | src/core/eventStoreConnectionLogicHandler.js:328-429 | what each message of the handshake has sent and stamped, on which connection, and what it announces |
| `ConnectionSteps.HeartbeatExact` | src/core/eventStoreConnectionLogicHandler.js:480-506 | a heartbeat request is answered on its connection and with its id, the answer to the handler's own request is reported, and nothing else happens |
| `ConnectionSteps.UnmappedIgnored` | src/core/eventStoreConnectionLogicHandler.js:543-602 | a package that is for no active operation or subscription is counted and changes nothing |
| `ConnectionTicks.AuthenticatingTick` | src/core/eventStoreConnectionLogicHandler.js:641-648 | while an authentication is in time a tick goes on with the heartbeats and does nothing else |
| `ConnectionSteps.TouchExact` | src/clientOperations/subscriptionOperation.js:59-61 | a turn of an action queue, a settled promise and an unsubscription reach the one operation they are for, and nothing else |
| `ConnectionSteps.LossExact` | src/core/eventStoreConnectionLogicHandler.js:439-465 | a connection that closes is to be tried again, the delay counted from now and the attempts kept; the loss is announced if the handler was connected; operations stay |
| `ConnectionSteps.ClosesExact` | src/core/eventStoreConnectionLogicHandler.js:173-193 | every message that closes cleans up both managers and announces the error, if it has one and somebody listens, and the end, unless nobody listens for the error |
| `ConnectionSteps.StaleIgnored` | src/core/eventStoreConnectionLogicHandler.js:367-481 | what an abandoned connection still reports is ignored |
| `ConnectionSteps.StartOperationExact` | src/core/eventStoreConnectionLogicHandler.js:228-247 | a new operation is sent if there is a connection and room, waits if not, and fails at once where there will be no connection |
| `ConnectionSteps.StartSubscriptionExact` | src/core/eventStoreConnectionLogicHandler.js:269-297 | a new subscription is asked for under a new id on the connection, waits while there is none, and is refused where there will be none |
| `ConnectionSteps.CountExact` | src/core/operationsManager.js:112-163 | the count of active and waiting operations is brought up to date by everything that changes either, except by an operation that comes while there is no connection |
| `PersistentSubscriptionObjects.EventStorePersistentSubscription.React` | src/eventStorePersistentSubscriptionBase.js:89-184 | the object under any input stays in order: started and acknowledged events only grow, one handler more at most, one drop callback at most, and no handler starts once a drop has been asked for; each input does what it is there for |
| `PersistentSubscriptions.RunIsOrderly` | src/eventStorePersistentSubscriptionBase.js:89-184 | over every run handlers run one at a time in arrival order, with automatic acknowledgement exactly the events handled with success are acknowledged in that order, the drop callback is called at most once, and a sleeping queue is empty unless dropped |
| `PersistentSubscriptions.ReactDoes` | src/eventStorePersistentSubscriptionBase.js:89-184 | what each input does: events and the first request for a drop are queued and wake the queue, a turn starts the next handler or drops, the end of a handler acknowledges and goes on, its failure drops |
| `PersistentSubscriptions.StopIsTold` | src/eventStorePersistentSubscriptionBase.js:81-95 | a stop is told on the next turn, at once or when the running handler is done, or else the failure of that handler is |
| `PersistentSubscriptions.NoneStartsExact` | src/eventStorePersistentSubscriptionBase.js:89-184 | when a subscription has come to rest: from any state in order, no continuation whatever starts a handler if and only if a drop has been asked for or the promise chain has broken off; a drop after a failed handler alone does not |
| `PersistentSubscriptions.HandlerStartsAfterDrop` | src/eventStorePersistentSubscriptionBase.js:153-157 | the drop after a failed handler sets no drop data: a run in which a handler starts after it |
| `PersistentSubscriptions.DropStopsQueue` | src/eventStorePersistentSubscriptionBase.js:128-157 | a failed handler, and a turn that finds a drop asked for, stop the queue with one drop callback |

## Left out

- Sockets, TLS, DNS, gossip over HTTP, endpoint discovery and the projections client: input and output only. A
  connection is a number, a socket is what is written to it.
- Protobuf: a package's content is given decoded or as undecodable; `createNetworkPackage` does not throw.
- The inspection maps of operations other than append: they repeat its pattern. So does the package map of the operation
  that connects to a persistent subscription; the persistent subscription is modelled from its event callback on.
- Starting a persistent subscription goes the way of starting a volatile one in the handler, and is not modelled twice.
- Aliasing of items: in the source one item object is referred to from a table, a list and a closure. Each has one owner
  at a time, so the manager classes move values, and a subscription operation lives inside its item; its own class is
  proved equal to the same functions. What a manager or the handler asks of an operation is that function.
- CatchUpLoss.ReconnectionCanLose: says nothing about a queue with no room for one push, now or after the turn that is
  due, where the push would overflow, or about a batch size of 0, with which nothing can be read.
- Callbacks that re-enter the client while it is calling them, and operation callbacks that throw.
- The order of two clock readings within one step: a step has one time.
- The promise steps from the end of a read to the subscribe request or to live processing are one step: a stop, a push or
  a live turn among them has the effect it has just before.
- Overflows after a reconnection, and pushes accepted after a lost one that are never handed over.
- Integer width: event numbers, positions and counters are unbounded; the length prefix is a signed 32-bit number and
  bytes are bytes.
- UTF-8: logins and passwords are byte sequences.
- A framer without a message handler, which would drop messages silently; the connection always registers one.
- A batch with an event that lacks its original position counts as a failed read.
- Manual acknowledgement and failing of persistent events: they send what they are told to.
- Texts of errors and logs beyond what tells outcomes apart, `ensure` argument checks, the facade, transactions and
  cluster information.
