/** Packages over a connection: encode, frame, send in batches; receive in pieces, unframe, decode. */
module PackageConnections {
  import opened Buffers
  import opened TcpPackages
  import opened LengthPrefixFraming
  import opened TcpConnections
  import opened Wrappers

  const MAX_SIZE := DEFAULT_MAX_PACKAGE_SIZE

  /** What the package handler is called with for these messages; undecodable ones are reported as errors instead. */
  function Handled(messages: seq<seq<byte>>): seq<Decoded> {
    if messages == [] then []
    else
      var d := FromBufferSegment(WholeSegment(messages[|messages| - 1]));
      Handled(messages[..|messages| - 1]) + (if d.Invalid? then [] else [d])
  }

  /** Can be encoded, and the encoding fits into a length prefix. */
  predicate Sendable(p: TcpPackage) { Encodable(p) && |Encoded(p)| <= MAX_INT32 }

  predicate AllSendable(packages: seq<TcpPackage>) {
    forall i :: 0 <= i < |packages| ==> Sendable(packages[i])
  }

  function EncodedAll(packages: seq<TcpPackage>): (r: seq<seq<byte>>)
    requires AllSendable(packages)
    ensures |r| == |packages|
  {
    seq(|packages|, i requires 0 <= i < |packages| => Encoded(packages[i]))
  }

  function SentBytes(packages: seq<TcpPackage>): seq<byte>
    requires AllSendable(packages)
  {
    Frames(EncodedAll(packages))
  }

  class TcpPackageConnection {
    const framer: LengthPrefixMessageFramer
    const connection: TcpConnection
    /** The calls of the package handler and the number of error reports. */
    var handled: seq<Decoded>
    var errors: nat
    ghost var sent: seq<TcpPackage>
    /** All bytes of the data events so far, and those already given to the framer. */
    ghost var input: seq<byte>
    ghost var taken: seq<byte>

    ghost predicate Valid()
      reads this, framer, framer.messageBuffer, connection
    {
      && framer.Valid() && connection.Valid() && framer.maxPackageSize == MAX_SIZE
      && AllSendable(sent) && connection.Outgoing() == SentBytes(sent)
      && input == taken + Flatten(connection.receiveQueue)
      && framer.state == FeedAll(MAX_SIZE, START, taken)
      && handled == Handled(framer.state.delivered)
      && (connection.receiveCallback ==> !framer.state.mode.Rejected?)
      && (framer.state.mode.Rejected? ==> connection.closed)
    }

    constructor ()
      ensures Valid() && sent == [] && input == [] && handled == []
    {
      framer := new LengthPrefixMessageFramer(0);
      connection := new TcpConnection();
      handled, errors, sent, input, taken := [], 0, [], [], [];
    }

    /**
     * Encodes and frames the package and queues both pieces; fails without effect on a package that is not sendable.
     */
    method EnqueueSend(p: TcpPackage, accepted: bool) returns (ok: bool)
      requires Valid()
      modifies this`sent, connection
      ensures Valid() && (ok <==> Sendable(p))
      ensures sent == if ok then old(sent) + [p] else old(sent)
    {
      hide FeedAll, Handled, Flatten, SentBytes, SegmentBytes, Encoded, FrameData;
      var encodable, buffer := AsBuffer(p);
      if !encodable {
        return false;
      }
      var data := WholeSegment(buffer[..]);
      var frame := FrameData(data);
      if frame.Err? {
        NotFramed(p);
        return false;
      }
      PiecesSent(sent, p, frame.value);
      connection.EnqueueSend(frame.value, accepted);
      sent := sent + [p];
      ok := true;
    }

    method StartReceiving()
      requires Valid() && !framer.state.mode.Rejected?
      modifies this, connection, framer, framer.messageBuffer
      ensures Valid() && unchanged(`sent) && unchanged(`input)
      ensures framer.messageBuffer == null || framer.messageBuffer == old(framer.messageBuffer)
              || fresh(framer.messageBuffer)
    {
      hide FeedAll, Handled, FromBufferSegment;
      ghost var queue := connection.receiveQueue;
      var data := connection.Receive();
      if |data| > 0 {
        OnRawDataReceived(data, queue);
      }
    }

    /** A data event of the socket. */
    method OnData(buf: seq<byte>)
      requires Valid()
      modifies this, connection, framer, framer.messageBuffer
      ensures Valid() && unchanged(`sent) && input == old(input) + buf
      ensures framer.messageBuffer == null || framer.messageBuffer == old(framer.messageBuffer)
              || fresh(framer.messageBuffer)
    {
      hide FeedAll, Handled, FromBufferSegment, Frames;
      ghost var queue := connection.receiveQueue;
      var data := connection.ProcessReceive(buf);
      input := input + buf;
      if |data| > 0 {
        assert data == Wholes([buf]);
        assert Flatten([buf]) == buf by { FlattenSnoc([], buf); assert [] + [buf] == [buf]; }
        OnRawDataReceived(data, [buf]);
      } else if buf != [] {
        FlattenSnoc(queue, buf);
        Regroup(taken, Flatten(queue), buf);
      }
    }

    /** Unframes what was received and asks for more, or closes the connection on a bad frame. */
    method OnRawDataReceived(data: seq<BufferSegment>, ghost buffers: seq<seq<byte>>)
      requires data == Wholes(buffers)
      requires framer.Valid() && connection.Valid() && framer.maxPackageSize == MAX_SIZE
      requires AllSendable(sent) && connection.Outgoing() == SentBytes(sent)
      requires !connection.receiveCallback && connection.receiveQueue == [] && input == taken + Flatten(buffers)
      requires framer.state == FeedAll(MAX_SIZE, START, taken) && !framer.state.mode.Rejected?
      requires handled == Handled(framer.state.delivered)
      modifies this`handled, this`errors, this`taken, connection, framer, framer.messageBuffer
      ensures Valid() && (framer.state.mode.Rejected? ==> connection.closed)
      ensures framer.messageBuffer == null || framer.messageBuffer == old(framer.messageBuffer)
              || fresh(framer.messageBuffer)
    {
      hide FeedAll, Handled, FromBufferSegment, Frames, SentBytes;
      var first := |framer.delivered|;
      WindowsOfWholes(buffers);
      FeedPartsFlat(MAX_SIZE, framer.state, buffers);
      FeedAllAppend(MAX_SIZE, START, taken, Flatten(buffers));
      DeliveredGrows(MAX_SIZE, framer.state, Flatten(buffers));
      var ok := framer.UnframeData(data);
      taken := taken + Flatten(buffers);
      assert framer.delivered[..first] == old(framer.state.delivered);
      HandleMessages(framer.delivered, first);
      ContinueReceiving(ok);
    }

    /** After a good frame more is asked for; a bad one closes the connection. */
    method ContinueReceiving(ok: bool)
      requires connection.Valid() && connection.receiveQueue == [] && !connection.receiveCallback
      modifies connection
      ensures connection.Valid() && connection.Outgoing() == old(connection.Outgoing()) && connection.receiveQueue == []
      ensures ok <==> connection.receiveCallback
      ensures !ok ==> connection.closed
    {
      if ok {
        var more := connection.Receive();
        assert more == [];
      } else {
        connection.CloseInternal();
      }
    }

    /** The message handler runs for the messages from `first` on. */
    method HandleMessages(delivered: seq<seq<byte>>, first: nat)
      requires connection.Valid() && first <= |delivered| && handled == Handled(delivered[..first])
      modifies this`handled, this`errors, connection`socketOpen, connection`closed, connection`closedCalls
      ensures connection.Valid() && connection.Outgoing() == old(connection.Outgoing())
      ensures handled == Handled(delivered)
    {
      hide FromBufferSegment;
      var i := first;
      while i < |delivered|
        invariant first <= i <= |delivered|
        invariant handled == Handled(delivered[..i])
        invariant connection.Valid() && connection.Outgoing() == old(connection.Outgoing())
      {
        assert delivered[..i + 1][..i] == delivered[..i];
        IncomingMessageArrived(delivered[i]);
        i := i + 1;
      }
      assert delivered[..i] == delivered;
    }

    /** Decodes one message for the package handler; a message that cannot be decoded closes the connection. */
    method IncomingMessageArrived(message: seq<byte>)
      requires connection.Valid()
      modifies this`handled, this`errors, connection`socketOpen, connection`closed, connection`closedCalls
      ensures connection.Valid() && connection.Outgoing() == old(connection.Outgoing())
      ensures var d := FromBufferSegment(WholeSegment(message));
              && handled == old(handled) + (if d.Invalid? then [] else [d])
              && errors == old(errors) + (if d.Invalid? then 1 else 0)
              && (d.Invalid? ==> connection.closed) && (!d.Invalid? ==> connection.closed == old(connection.closed))
    {
      hide FromBufferSegment;
      var d := FromBufferSegment(WholeSegment(message));
      if d.Invalid? {
        connection.CloseInternal();
        errors := errors + 1;
      } else {
        handled := handled + [d];
      }
    }
  }

  lemma SentBytesSnoc(packages: seq<TcpPackage>, p: TcpPackage)
    requires AllSendable(packages) && Sendable(p)
    ensures AllSendable(packages + [p])
    ensures SentBytes(packages + [p]) == SentBytes(packages) + Frame(Encoded(p))
  {
    var all := EncodedAll(packages + [p]);
    assert all[..|packages|] == EncodedAll(packages);
  }

  lemma NotFramed(p: TcpPackage)
    requires Encodable(p) && FrameData(WholeSegment(Encoded(p))).Err?
    ensures !Sendable(p)
  {
    hide Encoded, Encodable;
  }

  /** The pieces queued for a package are its frame. */
  lemma PiecesSent(packages: seq<TcpPackage>, p: TcpPackage, pieces: seq<BufferSegment>)
    requires AllSendable(packages) && Encodable(p) && FrameData(WholeSegment(Encoded(p))) == Ok(pieces)
    ensures Sendable(p) && AllSendable(packages + [p])
    ensures SentBytes(packages + [p]) == SentBytes(packages) + SegmentBytes(pieces)
  {
    hide SentBytes, SegmentBytes;
    FramePieces(Encoded(p));
    TwoSegments(pieces);
    SentBytesSnoc(packages, p);
  }

  lemma WindowsOfWholes(buffers: seq<seq<byte>>)
    ensures AllInside(Wholes(buffers)) && Windows(Wholes(buffers)) == buffers
  {
    forall i | 0 <= i < |buffers|
      ensures Windows(Wholes(buffers))[i] == buffers[i]
    {
      assert buffers[i][0..|buffers[i]|] == buffers[i];
    }
  }

  // ---- The wire as a whole ----

  predicate Fits(p: TcpPackage) { p.Constructed() && Encodable(p) && |Encoded(p)| <= MAX_SIZE }

  predicate AllFit(packages: seq<TcpPackage>) {
    forall i :: 0 <= i < |packages| ==> Fits(packages[i])
  }

  function ReceivedAll(packages: seq<TcpPackage>): (r: seq<Decoded>)
    requires AllFit(packages)
    ensures |r| == |packages|
  {
    seq(|packages|, i requires 0 <= i < |packages| => Package(Received(packages[i])))
  }

  lemma EncodedFramable(p: TcpPackage)
    requires Fits(p)
    ensures Framable(MAX_SIZE, Encoded(p))
  {
  }

  lemma {:induction false} HandledOfEncoded(packages: seq<TcpPackage>)
    requires AllFit(packages) && AllSendable(packages)
    ensures Handled(EncodedAll(packages)) == ReceivedAll(packages)
    decreases |packages|
  {
    hide FromBufferSegment, Encoded, Received, Encodable;
    if packages != [] {
      var n := |packages| - 1;
      HandledOfEncoded(packages[..n]);
      assert EncodedAll(packages)[..n] == EncodedAll(packages[..n]);
      DecodeOfEncode(packages[n]);
      assert ReceivedAll(packages) == ReceivedAll(packages[..n]) + [Package(Received(packages[n]))];
    }
  }

  /** The packages whose frames lie completely within the input. */
  ghost predicate Arrived(packages: seq<TcpPackage>, input: seq<byte>, k: nat)
    requires AllSendable(packages) && k <= |packages|
  {
    SentBytes(packages[..k]) <= input
  }

  /** What was handled are the packages sent: the same command, flags, correlation id, credentials and payload. */
  ghost predicate AllSame(packages: seq<TcpPackage>, handled: seq<Decoded>) {
    && |handled| <= |packages|
    && forall i :: 0 <= i < |handled| && Transportable(packages[i]) ==>
         handled[i].Package? && Same(packages[i], handled[i].package)
  }

  lemma ReceivedSame(packages: seq<TcpPackage>, n: nat)
    requires AllFit(packages) && n <= |packages|
    ensures AllFit(packages[..n]) && AllSame(packages, ReceivedAll(packages[..n]))
  {
    hide FromBufferSegment, Encoded, Received, Encodable, Transportable, Same;
    forall i | 0 <= i < n && Transportable(packages[i])
      ensures Same(packages[i], Received(packages[i]))
    {
      DecodeOfEncode(packages[i]);
      RoundTripExact(packages[i]);
    }
  }

  /**
   * Whatever part of the byte stream has arrived, and however it was cut: the packages decoded are a prefix of those
   * sent, in order and the same in every field and in the payload, and contain every one that has arrived completely.
   */
  lemma WireIdentity(packages: seq<TcpPackage>, input: seq<byte>)
    requires AllFit(packages) && AllSendable(packages) && input <= SentBytes(packages)
    ensures var f := FeedAll(MAX_SIZE, START, input);
            && !f.mode.Rejected?
            && |f.delivered| <= |packages|
            && Handled(f.delivered) == ReceivedAll(packages[..|f.delivered|])
            && AllSame(packages, Handled(f.delivered))
            && (forall k :: 0 <= k <= |packages| && Arrived(packages, input, k) ==> k <= |f.delivered|)
  {
    hide FeedAll, Handled, Encoded, Received, Encodable, FromBufferSegment;
    var messages := EncodedAll(packages);
    FramableAll(packages);
    UnframePrefix(MAX_SIZE, messages, input);
    var delivered := FeedAll(MAX_SIZE, START, input).delivered;
    var n := |delivered|;
    assert delivered == messages[..n] == EncodedAll(packages[..n]);
    HandledOfEncoded(packages[..n]);
    ReceivedSame(packages, n);
    forall k | 0 <= k <= |packages| && Arrived(packages, input, k)
      ensures k <= n
    {
      assert messages[..k] == EncodedAll(packages[..k]);
    }
  }

  lemma FramableAll(packages: seq<TcpPackage>)
    requires AllFit(packages) && AllSendable(packages)
    ensures AllFramable(MAX_SIZE, EncodedAll(packages))
  {
    forall i | 0 <= i < |packages| ensures Framable(MAX_SIZE, EncodedAll(packages)[i]) {
      EncodedFramable(packages[i]);
    }
  }

  /**
   * Two connected ends, at any moment: if the bytes that reached `b` are a prefix of those `a` wrote, then `b` has
   * handled a prefix of the packages `a` was asked to send, each with its fields and payload, and all of them once
   * every byte has arrived.
   */
  lemma EndToEnd(a: TcpPackageConnection, b: TcpPackageConnection)
    requires a.Valid() && b.Valid() && AllFit(a.sent)
    requires b.input <= Flatten(a.connection.written)
    ensures |b.handled| <= |a.sent| && b.handled == ReceivedAll(a.sent[..|b.handled|])
    ensures forall i :: 0 <= i < |b.handled| && Transportable(a.sent[i]) ==>
              b.handled[i].Package? && Same(a.sent[i], b.handled[i].package)
    ensures a.connection.sendQueue == [] && b.input == Flatten(a.connection.written) && b.connection.receiveQueue == []
            ==> b.handled == ReceivedAll(a.sent)
  {
    hide FeedAll, Handled, Encoded, Received, Encodable;
    assert b.input + Flatten(a.connection.written)[|b.input|..] == Flatten(a.connection.written);
    assert b.taken <= SentBytes(a.sent);
    WireIdentity(a.sent, b.taken);
    if a.connection.sendQueue == [] && b.input == Flatten(a.connection.written) && b.connection.receiveQueue == [] {
      assert Flatten(a.connection.sendQueue) == [];
      assert a.sent[..|a.sent|] == a.sent;
      assert Arrived(a.sent, b.taken, |a.sent|);
    }
  }

  /** A frame above the size limit is refused by the receiver, and nothing behind it is ever delivered. */
  lemma OversizedStops(packages: seq<TcpPackage>, p: TcpPackage, rest: seq<byte>)
    requires AllFit(packages) && AllSendable(packages) && Sendable(p) && |Encoded(p)| > MAX_SIZE
    ensures var f := FeedAll(MAX_SIZE, START, SentBytes(packages) + Frame(Encoded(p)) + rest);
            f.mode.Rejected? && Handled(f.delivered) == ReceivedAll(packages)
  {
    hide Encoded, Received, FromBufferSegment, Encodable, Int32LE, LengthOf;
    var m := Encoded(p);
    var header := Int32LE(|m|);
    FramableAll(packages);
    UnframeFrames(MAX_SIZE, EncodedAll(packages));
    HandledOfEncoded(packages);
    FeedHeader(MAX_SIZE, EncodedAll(packages), header);
    LengthOfInt32LE(|m|);
    FeedAllAppend(MAX_SIZE, START, SentBytes(packages), header + (m + rest));
    FeedAllAppend(MAX_SIZE, Framing(Head([]), EncodedAll(packages)), header, m + rest);
    RejectedStays(MAX_SIZE, Framing(Rejected(header), EncodedAll(packages)), m + rest);
    assert SentBytes(packages) + Frame(m) + rest == SentBytes(packages) + (header + (m + rest));
  }
}
