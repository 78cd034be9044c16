/** Send batching and receive queueing around a socket; the socket itself is reduced to what is written to it. */
module TcpConnections {
  import opened Buffers

  const MAX_SEND_PACKET_SIZE := 64 * 1024

  function SegmentBytes(segments: seq<BufferSegment>): seq<byte> {
    if segments == [] then [] else SegmentBytes(segments[..|segments| - 1]) + segments[|segments| - 1].ToBuffer()
  }

  lemma TwoSegments(segments: seq<BufferSegment>)
    requires |segments| == 2
    ensures SegmentBytes(segments) == segments[0].ToBuffer() + segments[1].ToBuffer()
  {
    assert segments[..1][..0] == [];
    assert SegmentBytes(segments[..1]) == segments[0].ToBuffer();
  }

  /** The first `k` pieces form a batch: its size passes the limit with the last piece, or it is all there is. */
  ghost predicate IsBatch(queue: seq<seq<byte>>, k: nat)
    requires k <= |queue|
  {
    && (forall j :: 0 <= j < k ==> |Flatten(queue[..j])| <= MAX_SEND_PACKET_SIZE)
    && (k < |queue| ==> |Flatten(queue[..k])| > MAX_SEND_PACKET_SIZE)
  }

  function Wholes(buffers: seq<seq<byte>>): (r: seq<BufferSegment>)
    ensures |r| == |buffers|
  {
    seq(|buffers|, i requires 0 <= i < |buffers| => WholeSegment(buffers[i]))
  }

  class TcpConnection {
    var socketOpen: bool
    var closed: bool
    /** The calls of the closed callback. */
    var closedCalls: nat
    var sendQueue: seq<seq<byte>>
    var receiveQueue: seq<seq<byte>>
    var receiveCallback: bool
    /** The buffers handed to `socket.write`, in order. */
    var written: seq<seq<byte>>
    /** `_trySend` calls queued with `setImmediate`, and whether a refused write still owes a drain event. */
    var wakeups: nat
    var awaitingDrain: bool

    /** Nothing queued waits for ever: a later send attempt is due whenever the socket could take more. */
    ghost predicate Valid()
      reads this
    {
      && closedCalls == (if closed then 1 else 0)
      && (socketOpen && sendQueue != [] ==> wakeups > 0 || awaitingDrain)
      && (receiveCallback ==> receiveQueue == [])
    }

    /** Everything accepted for sending, whether already written or not. */
    ghost function Outgoing(): seq<byte>
      reads this
    {
      Flatten(written) + Flatten(sendQueue)
    }

    constructor ()
      ensures Valid() && Outgoing() == [] && written == [] && receiveQueue == []
      ensures !socketOpen && !closed && !receiveCallback
    {
      socketOpen, closed, closedCalls, receiveCallback := false, false, 0, false;
      sendQueue, receiveQueue, written := [], [], [];
      wakeups, awaitingDrain := 0, false;
    }

    /** The socket is connected, possibly only after the connect timeout has closed the connection. */
    method InitSocket(accepted: bool)
      requires Valid() && !socketOpen
      modifies this
      ensures Valid() && socketOpen && Outgoing() == old(Outgoing())
      ensures unchanged(`receiveQueue) && unchanged(`receiveCallback) && unchanged(`closed)
    {
      socketOpen := true;
      TrySend(accepted);
    }

    method EnqueueSend(bufSegmentArray: seq<BufferSegment>, accepted: bool)
      requires Valid()
      modifies this
      ensures Valid() && Outgoing() == old(Outgoing()) + SegmentBytes(bufSegmentArray)
      ensures unchanged(`receiveQueue) && unchanged(`receiveCallback) && unchanged(`socketOpen) && unchanged(`closed)
    {
      var i := 0;
      assert bufSegmentArray[..0] == [];
      while i < |bufSegmentArray|
        invariant 0 <= i <= |bufSegmentArray| && |sendQueue| == |old(sendQueue)| + i
        invariant Flatten(written) + Flatten(sendQueue) == old(Outgoing()) + SegmentBytes(bufSegmentArray[..i])
        modifies this`sendQueue
      {
        FlattenSnoc(sendQueue, bufSegmentArray[i].ToBuffer());
        Regroup(Flatten(written), Flatten(sendQueue), bufSegmentArray[i].ToBuffer());
        Regroup(old(Outgoing()), SegmentBytes(bufSegmentArray[..i]), bufSegmentArray[i].ToBuffer());
        sendQueue := sendQueue + [bufSegmentArray[i].ToBuffer()];
        assert bufSegmentArray[..i + 1][..i] == bufSegmentArray[..i];
        i := i + 1;
      }
      assert bufSegmentArray[..i] == bufSegmentArray;
      TrySend(accepted);
    }

    /** A queued `_trySend` runs. */
    method OnImmediate(accepted: bool)
      requires Valid() && wakeups > 0
      modifies this
      ensures Valid() && Outgoing() == old(Outgoing())
      ensures unchanged(`receiveQueue) && unchanged(`receiveCallback) && unchanged(`socketOpen) && unchanged(`closed)
    {
      wakeups := wakeups - 1;
      TrySend(accepted);
    }

    method OnDrain(accepted: bool)
      requires Valid() && awaitingDrain
      modifies this
      ensures Valid() && Outgoing() == old(Outgoing())
      ensures unchanged(`receiveQueue) && unchanged(`receiveCallback) && unchanged(`socketOpen) && unchanged(`closed)
    {
      awaitingDrain := false;
      TrySend(accepted);
    }

    /**
     * Writes one batch from the front of the queue; `accepted` is the socket's answer. The batch stops with the
     * first piece that takes it over the packet size, and the queue is left alone only if nothing can be written.
     */
    method TrySend(accepted: bool)
      requires closedCalls == if closed then 1 else 0
      requires receiveCallback ==> receiveQueue == []
      modifies this`sendQueue, this`written, this`wakeups, this`awaitingDrain
      ensures Valid() && Outgoing() == old(Outgoing())
      ensures old(sendQueue) == [] || !socketOpen ==> unchanged(this)
      ensures old(sendQueue) != [] && socketOpen ==>
                exists k :: 0 < k <= |old(sendQueue)| && IsBatch(old(sendQueue), k)
                            && sendQueue == old(sendQueue)[k..]
                            && written == old(written) + [Flatten(old(sendQueue)[..k])]
    {
      if |sendQueue| == 0 || !socketOpen {
        return;
      }
      ghost var queue := sendQueue;
      var joined, k := TakeBatch();
      FlattenSnoc(written, joined);
      FlattenAppend(queue[..k], queue[k..]);
      Regroup(Flatten(written), joined, Flatten(queue[k..]));
      assert queue == queue[..k] + queue[k..];
      written := written + [joined];
      if !accepted {
        awaitingDrain := true;
      } else {
        wakeups := wakeups + 1;
      }
    }

    /** Takes pieces from the front of the queue until they pass the packet size. */
    method TakeBatch() returns (joined: seq<byte>, ghost k: nat)
      requires sendQueue != []
      modifies this`sendQueue
      ensures 0 < k <= |old(sendQueue)| && IsBatch(old(sendQueue), k)
      ensures sendQueue == old(sendQueue)[k..] && joined == Flatten(old(sendQueue)[..k])
    {
      ghost var queue := sendQueue;
      joined, k := [], 0;
      assert queue[..0] == [];
      while |sendQueue| > 0
        invariant 0 <= k <= |queue| && sendQueue == queue[k..]
        invariant joined == Flatten(queue[..k])
        invariant forall j :: 0 <= j <= k ==> |Flatten(queue[..j])| <= MAX_SEND_PACKET_SIZE
      {
        var sendPiece := sendQueue[0];
        sendQueue := sendQueue[1..];
        assert queue[..k + 1] == queue[..k] + [sendPiece];
        FlattenSnoc(queue[..k], sendPiece);
        joined := joined + sendPiece;
        k := k + 1;
        if |joined| > MAX_SEND_PACKET_SIZE {
          break;
        }
      }
    }

    /** A data event. The segments returned are what the registered callback is called with; none means no call. */
    method ProcessReceive(buf: seq<byte>) returns (handed: seq<BufferSegment>)
      requires Valid()
      modifies this
      ensures Valid() && Outgoing() == old(Outgoing())
      ensures buf == [] ==> handed == [] && closed && unchanged(`receiveQueue) && unchanged(`receiveCallback)
      ensures buf != [] ==> unchanged(`closed) && unchanged(`socketOpen)
      ensures buf != [] && old(receiveCallback) ==>
                receiveQueue == [] && !receiveCallback && handed == [WholeSegment(buf)]
      ensures buf != [] && !old(receiveCallback) ==>
                handed == [] && receiveQueue == old(receiveQueue) + [buf] && !receiveCallback
    {
      if |buf| == 0 {
        handed := [];
        CloseInternal();
        return;
      }
      receiveQueue := receiveQueue + [buf];
      handed := TryDequeueReceivedData();
    }

    method Receive() returns (handed: seq<BufferSegment>)
      requires Valid()
      modifies this
      ensures Valid() && Outgoing() == old(Outgoing()) && unchanged(`closed) && unchanged(`socketOpen)
      ensures handed == Wholes(old(receiveQueue)) && receiveQueue == []
      ensures receiveCallback <==> handed == []
    {
      receiveCallback := true;
      handed := TryDequeueReceivedData();
    }

    method TryDequeueReceivedData() returns (handed: seq<BufferSegment>)
      modifies this`receiveQueue, this`receiveCallback
      ensures old(receiveCallback) && old(receiveQueue) != [] ==>
                handed == Wholes(old(receiveQueue)) && receiveQueue == [] && !receiveCallback
      ensures !(old(receiveCallback) && old(receiveQueue) != []) ==> handed == [] && unchanged(this)
    {
      handed := [];
      if !receiveCallback || |receiveQueue| == 0 {
        return;
      }
      ghost var queue := receiveQueue;
      while |receiveQueue| > 0
        invariant |handed| + |receiveQueue| == |queue| && receiveQueue == queue[|handed|..]
        invariant handed == Wholes(queue[..|handed|])
      {
        handed := handed + [WholeSegment(receiveQueue[0])];
        receiveQueue := receiveQueue[1..];
      }
      assert queue[..|handed|] == queue;
      receiveCallback := false;
    }

    /** Ends the socket and calls back the first time; later calls do nothing, also to a socket that came late. */
    method CloseInternal()
      requires Valid()
      modifies this`socketOpen, this`closed, this`closedCalls
      ensures Valid() && closed && closedCalls == 1 && Outgoing() == old(Outgoing())
      ensures if old(closed) then unchanged(this) else !socketOpen && closedCalls == old(closedCalls) + 1
    {
      if closed {
        return;
      }
      closed := true;
      socketOpen := false;
      closedCalls := closedCalls + 1;
    }
  }
}
