/** Length-prefixed messages: a four byte little-endian size, then that many bytes. */
module LengthPrefixFraming {
  import opened Wrappers
  import opened Buffers

  const HEADER_LENGTH := 4
  const DEFAULT_MAX_PACKAGE_SIZE := 64 * 1024 * 1024
  const MAX_INT32 := 0x7fff_ffff

  // ---- Specification: the framer one byte at a time ----

  /** Collecting header bytes, collecting a message of known length, or stopped by a bad header. */
  datatype Mode = Head(got: seq<byte>) | Body(length: nat, got: seq<byte>) | Rejected(header: seq<byte>)

  datatype Framing = Framing(mode: Mode, delivered: seq<seq<byte>>)

  const START := Framing(Head([]), [])

  /** Each byte is or-ed in at its own position; the bits are disjoint, so this adds. Bit 31 is the sign. */
  function AddHeaderByte(acc: int, index: nat, b: byte): int {
    if index == 0 then acc + b
    else if index == 1 then acc + b * 0x100
    else if index == 2 then acc + b * 0x1_0000
    else acc + b * 0x100_0000 - (if b >= 128 then 0x1_0000_0000 else 0)
  }

  function LengthOf(header: seq<byte>): int {
    if header == [] then 0
    else AddHeaderByte(LengthOf(header[..|header| - 1]), |header| - 1, header[|header| - 1])
  }

  lemma LengthSnoc(header: seq<byte>, b: byte)
    ensures LengthOf(header + [b]) == AddHeaderByte(LengthOf(header), |header|, b)
  {
    assert (header + [b])[..|header|] == header;
  }

  function Feed(max: int, f: Framing, b: byte): Framing {
    match f.mode
    case Rejected(_) => f
    case Head(got) =>
      if |got| >= HEADER_LENGTH - 1 then
        var header := got + [b];
        var n := LengthOf(header);
        f.(mode := if n <= 0 || n > max then Rejected(header) else Body(n, []))
      else f.(mode := Head(got + [b]))
    case Body(n, got) =>
      if |got| + 1 == n then Framing(Head([]), f.delivered + [got + [b]])
      else f.(mode := Body(n, got + [b]))
  }

  function FeedAll(max: int, f: Framing, bytes: seq<byte>): Framing
    decreases |bytes|
  {
    if bytes == [] then f else FeedAll(max, Feed(max, f, bytes[0]), bytes[1..])
  }

  lemma FeedNothing(max: int, f: Framing)
    ensures FeedAll(max, f, []) == f
  {
  }

  lemma {:induction false} FeedAllAppend(max: int, f: Framing, a: seq<byte>, b: seq<byte>)
    ensures FeedAll(max, f, a + b) == FeedAll(max, FeedAll(max, f, a), b)
    decreases |a|
  {
    if a == [] {
      assert a + b == b;
    } else {
      assert (a + b)[0] == a[0] && (a + b)[1..] == a[1..] + b;
      FeedAllAppend(max, Feed(max, f, a[0]), a[1..], b);
    }
  }

  lemma FeedAllSnoc(max: int, f: Framing, a: seq<byte>, b: byte)
    ensures FeedAll(max, f, a + [b]) == Feed(max, FeedAll(max, f, a), b)
  {
    FeedAllAppend(max, f, a, [b]);
    assert [b][1..] == [];
  }

  lemma {:induction false} RejectedStays(max: int, f: Framing, bytes: seq<byte>)
    requires f.mode.Rejected?
    ensures FeedAll(max, f, bytes) == f
    decreases |bytes|
  {
    if bytes != [] {
      RejectedStays(max, f, bytes[1..]);
    }
  }

  /** Feeding up to `j` continues feeding up to `i`; once rejected the rest makes no difference. */
  lemma FeedRange(max: int, f: Framing, w: seq<byte>, lo: nat, i: nat, j: nat)
    requires lo <= i <= j <= |w|
    ensures FeedAll(max, f, w[lo..j]) == FeedAll(max, FeedAll(max, f, w[lo..i]), w[i..j])
    ensures FeedAll(max, f, w[lo..i]).mode.Rejected? ==> FeedAll(max, f, w[lo..j]) == FeedAll(max, f, w[lo..i])
  {
    assert w[lo..j] == w[lo..i] + w[i..j];
    FeedAllAppend(max, f, w[lo..i], w[i..j]);
    if FeedAll(max, f, w[lo..i]).mode.Rejected? {
      RejectedStays(max, FeedAll(max, f, w[lo..i]), w[i..j]);
    }
  }

  lemma {:induction false} DeliveredGrows(max: int, f: Framing, bytes: seq<byte>)
    ensures f.delivered <= FeedAll(max, f, bytes).delivered
    decreases |bytes|
  {
    if bytes != [] {
      DeliveredGrows(max, Feed(max, f, bytes[0]), bytes[1..]);
    }
  }

  /** The buffers one after the other, each in its own call. */
  function FeedParts(max: int, f: Framing, parts: seq<seq<byte>>): Framing
    decreases |parts|
  {
    if parts == [] then f else FeedParts(max, FeedAll(max, f, parts[0]), parts[1..])
  }

  lemma {:induction false} RejectedStaysParts(max: int, f: Framing, parts: seq<seq<byte>>)
    requires f.mode.Rejected?
    ensures FeedParts(max, f, parts) == f
    decreases |parts|
  {
    if parts != [] {
      RejectedStays(max, f, parts[0]);
      RejectedStaysParts(max, f, parts[1..]);
    }
  }

  /** A chunk that stays inside the current message is copied as a block. */
  lemma {:induction false} FeedBlock(max: int, f: Framing, chunk: seq<byte>)
    requires f.mode.Body? && chunk != [] && |f.mode.got| + |chunk| <= f.mode.length
    ensures FeedAll(max, f, chunk)
            == if |f.mode.got| + |chunk| == f.mode.length
               then Framing(Head([]), f.delivered + [f.mode.got + chunk])
               else f.(mode := Body(f.mode.length, f.mode.got + chunk))
    decreases |chunk|
  {
    var g := Feed(max, f, chunk[0]);
    assert f.mode.got + [chunk[0]] + chunk[1..] == f.mode.got + chunk;
    if |chunk| == 1 {
      assert chunk == [chunk[0]] && chunk[1..] == [];
    } else {
      FeedBlock(max, g, chunk[1..]);
    }
  }

  // ---- The framer of the client ----

  class LengthPrefixMessageFramer {
    const maxPackageSize: int
    var messageBuffer: array?<byte>
    var headerBytes: nat
    var packageLength: int
    var bufferIndex: nat
    /** The messages the registered handler was called with, in order. */
    var delivered: seq<seq<byte>>
    ghost var header: seq<byte>
    /** Where the byte-at-a-time framer stands. */
    ghost var state: Framing

    ghost predicate Valid()
      reads this, messageBuffer
    {
      && headerBytes == |header| <= HEADER_LENGTH
      && packageLength == LengthOf(header)
      && (headerBytes < HEADER_LENGTH ==> messageBuffer == null && bufferIndex == 0)
      && (messageBuffer != null ==>
            messageBuffer.Length == packageLength && bufferIndex < packageLength <= maxPackageSize)
      && (headerBytes == HEADER_LENGTH && messageBuffer == null ==>
            bufferIndex == 0 && (packageLength <= 0 || packageLength > maxPackageSize))
      && state == Framing(if headerBytes < HEADER_LENGTH then Head(header)
                          else if messageBuffer == null then Rejected(header)
                          else Body(packageLength, messageBuffer[..bufferIndex]), delivered)
    }

    constructor (maxPackageSize: int)
      ensures Valid() && state == START
      ensures this.maxPackageSize == if maxPackageSize == 0 then 64 * 1024 * 1024 else maxPackageSize
    {
      this.maxPackageSize := if maxPackageSize == 0 then DEFAULT_MAX_PACKAGE_SIZE else maxPackageSize;
      messageBuffer, headerBytes, packageLength, bufferIndex := null, 0, 0, 0;
      delivered, header, state := [], [], START;
    }

    method Reset()
      modifies this`messageBuffer, this`headerBytes, this`packageLength, this`bufferIndex, this`header, this`state
      ensures Valid() && state == Framing(Head([]), delivered)
      ensures messageBuffer == null
    {
      messageBuffer, headerBytes, packageLength, bufferIndex := null, 0, 0, 0;
      header, state := [], Framing(Head([]), delivered);
    }

    /** Takes one header byte; `ok` is false when the completed header is out of bounds. */
    method TakeHeaderByte(b: byte) returns (ok: bool)
      requires Valid() && headerBytes < HEADER_LENGTH
      modifies this
      ensures Valid() && state == Feed(maxPackageSize, old(state), b)
      ensures ok <==> !state.mode.Rejected?
      ensures messageBuffer != null ==> fresh(messageBuffer)
    {
      LengthSnoc(header, b);
      state := Feed(maxPackageSize, state, b);
      packageLength := AddHeaderByte(packageLength, headerBytes, b);
      headerBytes := headerBytes + 1;
      header := header + [b];
      if headerBytes == HEADER_LENGTH {
        if packageLength <= 0 || packageLength > maxPackageSize {
          return false;
        }
        messageBuffer := new byte[packageLength](_ => 0);
      }
      ok := true;
    }

    /** Copies a block of message bytes and delivers the message once it is complete. */
    method TakeBlock(chunk: seq<byte>)
      requires Valid() && headerBytes == HEADER_LENGTH && messageBuffer != null
      requires 0 < |chunk| <= packageLength - bufferIndex
      modifies this, messageBuffer
      ensures Valid() && state == FeedAll(maxPackageSize, old(state), chunk)
      ensures !state.mode.Rejected?
      ensures messageBuffer == null || messageBuffer == old(messageBuffer)
    {
      FeedBlock(maxPackageSize, state, chunk);
      state := FeedAll(maxPackageSize, state, chunk);
      ghost var got := messageBuffer[..bufferIndex];
      CopyInto(chunk, messageBuffer, bufferIndex);
      bufferIndex := bufferIndex + |chunk|;
      assert messageBuffer[..bufferIndex] == got + chunk;
      if bufferIndex == packageLength {
        delivered := delivered + [messageBuffer[..]];
        assert messageBuffer[..] == got + chunk;
        Reset();
      }
    }

    /** Consumes one header byte, or as much of the message as the segment holds. */
    method Advance(bytes: BufferSegment, i: nat) returns (ok: bool, next: nat)
      requires Valid() && bytes.Inside() && !state.mode.Rejected?
      requires bytes.offset <= i < bytes.offset + bytes.count
      modifies this, messageBuffer
      ensures Valid() && i < next <= bytes.offset + bytes.count
      ensures state == FeedAll(maxPackageSize, old(state), bytes.buffer[i..next])
      ensures ok <==> !state.mode.Rejected?
      ensures messageBuffer == null || messageBuffer == old(messageBuffer) || fresh(messageBuffer)
    {
      if headerBytes < HEADER_LENGTH {
        ok := TakeHeaderByte(bytes.buffer[i]);
        next := i + 1;
        assert bytes.buffer[i..next] == [bytes.buffer[i]];
        FeedAllSnoc(maxPackageSize, old(state), [], bytes.buffer[i]);
        assert [] + [bytes.buffer[i]] == [bytes.buffer[i]];
      } else {
        var copyCnt := Min(bytes.count + bytes.offset - i, packageLength - bufferIndex);
        next := i + copyCnt;
        TakeBlock(bytes.buffer[i..next]);
        ok := true;
      }
    }

    /** Consumes one segment; `ok` is false when it stops at a header that is out of bounds. */
    method Parse(bytes: BufferSegment) returns (ok: bool)
      requires Valid() && bytes.Inside() && !state.mode.Rejected?
      modifies this, messageBuffer
      ensures Valid()
      ensures state == FeedAll(maxPackageSize, old(state), bytes.buffer[bytes.offset..bytes.offset + bytes.count])
      ensures ok <==> !state.mode.Rejected?
      ensures messageBuffer == null || messageBuffer == old(messageBuffer) || fresh(messageBuffer)
    {
      hide Feed, FeedAll, Valid;
      var i := bytes.offset;
      FeedNothing(maxPackageSize, state);
      assert bytes.buffer[bytes.offset..i] == [];
      while i < bytes.offset + bytes.count
        invariant bytes.offset <= i <= bytes.offset + bytes.count
        invariant Valid() && !state.mode.Rejected?
        invariant state == FeedAll(maxPackageSize, old(state), bytes.buffer[bytes.offset..i])
        invariant messageBuffer == null || messageBuffer == old(messageBuffer) || fresh(messageBuffer)
        decreases bytes.offset + bytes.count - i
      {
        ghost var from := i;
        ok, i := Advance(bytes, i);
        FeedRange(maxPackageSize, old(state), bytes.buffer, bytes.offset, from, i);
        if !ok {
          FeedRange(maxPackageSize, old(state), bytes.buffer, bytes.offset, i, bytes.offset + bytes.count);
          return;
        }
      }
      ok := true;
    }

    /** Consumes segments in order up to the first failure. */
    method UnframeData(bufferSegments: seq<BufferSegment>) returns (ok: bool)
      requires Valid() && !state.mode.Rejected?
      requires AllInside(bufferSegments)
      modifies this, messageBuffer
      ensures Valid()
      ensures state == FeedParts(maxPackageSize, old(state), Windows(bufferSegments))
      ensures ok <==> !state.mode.Rejected?
      ensures messageBuffer == null || messageBuffer == old(messageBuffer) || fresh(messageBuffer)
    {
      hide Feed, FeedAll, Valid;
      ghost var parts := Windows(bufferSegments);
      var i := 0;
      assert parts[0..] == parts;
      while i < |bufferSegments|
        invariant 0 <= i <= |bufferSegments|
        invariant Valid() && !state.mode.Rejected?
        invariant FeedParts(maxPackageSize, state, parts[i..]) == FeedParts(maxPackageSize, old(state), parts)
        invariant messageBuffer == null || messageBuffer == old(messageBuffer) || fresh(messageBuffer)
      {
        assert parts[i..][0] == parts[i] && parts[i..][1..] == parts[i + 1..];
        ok := Parse(bufferSegments[i]);
        i := i + 1;
        if !ok {
          RejectedStaysParts(maxPackageSize, state, parts[i..]);
          return;
        }
      }
      ok := true;
    }
  }

  predicate AllInside(segments: seq<BufferSegment>) {
    forall i :: 0 <= i < |segments| ==> segments[i].Inside()
  }

  /** The bytes each segment contributes. */
  function Windows(segments: seq<BufferSegment>): (r: seq<seq<byte>>)
    requires AllInside(segments)
    ensures |r| == |segments|
  {
    seq(|segments|, i requires 0 <= i < |segments| =>
      segments[i].buffer[segments[i].offset..segments[i].offset + segments[i].count])
  }

  // ---- Framing ----

  /** `writeInt32LE`; its callers keep the value within MAX_INT32. */
  function Int32LE(n: nat): (r: seq<byte>)
    ensures |r| == 4
  {
    [n % 0x100, n / 0x100 % 0x100, n / 0x1_0000 % 0x100, n / 0x100_0000 % 0x100]
  }

  function FrameData(data: BufferSegment): Result<seq<BufferSegment>> {
    if data.count > MAX_INT32 then Err("The value of \"value\" is out of range.")
    else Ok([CreateBufferSegment(Int32LE(data.count), 0, HEADER_LENGTH), data])
  }

  predicate Framable(max: int, message: seq<byte>) { 1 <= |message| <= max && |message| <= MAX_INT32 }

  predicate AllFramable(max: int, messages: seq<seq<byte>>) {
    forall i :: 0 <= i < |messages| ==> Framable(max, messages[i])
  }

  function Frame(message: seq<byte>): seq<byte> {
    Int32LE(|message|) + message
  }

  function Frames(messages: seq<seq<byte>>): seq<byte> {
    if messages == [] then [] else Frames(messages[..|messages| - 1]) + Frame(messages[|messages| - 1])
  }

  lemma HeaderValue(b0: byte, b1: byte, b2: byte, b3: byte)
    ensures LengthOf([b0, b1, b2, b3])
            == b0 + b1 * 0x100 + b2 * 0x1_0000 + b3 * 0x100_0000 - (if b3 >= 128 then 0x1_0000_0000 else 0)
  {
    assert [b0, b1, b2, b3][..3] == [b0, b1, b2];
    assert [b0, b1, b2][..2] == [b0, b1];
    assert [b0, b1][..1] == [b0];
    assert LengthOf([b0]) == b0;
    assert LengthOf([b0, b1]) == b0 + b1 * 0x100;
    assert LengthOf([b0, b1, b2]) == b0 + b1 * 0x100 + b2 * 0x1_0000;
  }

  lemma DigitSum(n: int)
    requires 0 <= n <= MAX_INT32
    ensures var (d1, d2, d3) := (n / 0x100, n / 0x1_0000, n / 0x100_0000);
            && d3 < 128
            && n == n % 0x100 + d1 % 0x100 * 0x100 + d2 % 0x100 * 0x1_0000 + d3 % 0x100 * 0x100_0000
  {
    var d1, d2, d3 := n / 0x100, n / 0x1_0000, n / 0x100_0000;
    assert n == n % 0x100 + d1 * 0x100;
    assert d2 == d1 / 0x100;
    assert d1 == d1 % 0x100 + d2 * 0x100;
    assert d3 == d2 / 0x100;
    assert d2 == d2 % 0x100 + d3 * 0x100;
  }

  lemma LengthOfInt32LE(n: nat)
    requires n <= MAX_INT32
    ensures LengthOf(Int32LE(n)) == n
  {
    DigitSum(n);
    HeaderValue(n % 0x100, n / 0x100 % 0x100, n / 0x1_0000 % 0x100, n / 0x100_0000 % 0x100);
  }

  /** A frame is the size in four bytes, the least significant first, and then the message. */
  lemma FrameLayout(message: seq<byte>)
    requires |message| <= MAX_INT32
    ensures var f := Frame(message);
            && |f| == 4 + |message| && f[4..] == message
            && f[0] as int + f[1] as int * 0x100 + f[2] as int * 0x1_0000 + f[3] as int * 0x100_0000 == |message|
  {
    DigitSum(|message|);
  }

  lemma DivMod(b: int, m: int)
    requires 0 <= b < 0x100
    ensures (b + m * 0x100) / 0x100 == m && (b + m * 0x100) % 0x100 == b
  {
  }

  lemma DivTwice(n: int)
    ensures n / 0x1_0000 == n / 0x100 / 0x100 && n / 0x100_0000 == n / 0x1_0000 / 0x100
  {
  }

  lemma Int32LEOfLength(header: seq<byte>)
    requires |header| == 4 && LengthOf(header) >= 0
    ensures LengthOf(header) <= MAX_INT32 && Int32LE(LengthOf(header)) == header
  {
    var b0: int, b1: int, b2: int, b3: int := header[0], header[1], header[2], header[3];
    assert header == [header[0], header[1], header[2], header[3]];
    HeaderValue(header[0], header[1], header[2], header[3]);
    var n := LengthOf(header);
    DivMod(b2, b3);
    DivMod(b1, b2 + b3 * 0x100);
    DivMod(b0, b1 + (b2 + b3 * 0x100) * 0x100);
    assert n == b0 + (b1 + (b2 + b3 * 0x100) * 0x100) * 0x100;
    DivTwice(n);
  }

  lemma FeedHeader(max: int, d: seq<seq<byte>>, h: seq<byte>)
    requires |h| == 4
    ensures FeedAll(max, Framing(Head([]), d), h)
            == Framing(if LengthOf(h) <= 0 || LengthOf(h) > max then Rejected(h) else Body(LengthOf(h), []), d)
  {
    var f := Framing(Head([]), d);
    var f1 := Feed(max, f, h[0]);
    var f2 := Feed(max, f1, h[1]);
    var f3 := Feed(max, f2, h[2]);
    assert h[..3] == [] + [h[0]] + [h[1]] + [h[2]];
    assert f3 == Framing(Head(h[..3]), d);
    assert h[..3] + [h[3]] == h;
    assert FeedAll(max, f, h) == FeedAll(max, f1, h[1..]);
    assert FeedAll(max, f1, h[1..]) == FeedAll(max, f2, h[1..][1..]);
    assert h[1..][1..] == [h[2], h[3]];
    assert FeedAll(max, f2, [h[2], h[3]]) == FeedAll(max, f3, [h[2], h[3]][1..]);
    assert [h[2], h[3]][1..] == [h[3]];
    assert FeedAll(max, f3, [h[3]]) == FeedAll(max, Feed(max, f3, h[3]), [h[3]][1..]);
    assert [h[3]][1..] == [];
  }

  lemma FeedFrame(max: int, d: seq<seq<byte>>, m: seq<byte>)
    requires Framable(max, m)
    ensures FeedAll(max, Framing(Head([]), d), Frame(m)) == Framing(Head([]), d + [m])
  {
    var h := Int32LE(|m|);
    FeedAllAppend(max, Framing(Head([]), d), h, m);
    FeedHeader(max, d, h);
    LengthOfInt32LE(|m|);
    FeedBlock(max, Framing(Body(|m|, []), d), m);
    assert [] + m == m;
  }

  /** Framed messages come out again, whatever was delivered before. */
  lemma {:induction false} UnframeFrames(max: int, messages: seq<seq<byte>>)
    requires AllFramable(max, messages)
    ensures FeedAll(max, START, Frames(messages)) == Framing(Head([]), messages)
    decreases |messages|
  {
    if messages != [] {
      var front, last := messages[..|messages| - 1], messages[|messages| - 1];
      UnframeFrames(max, front);
      FeedAllAppend(max, START, Frames(front), Frame(last));
      FeedFrame(max, front, last);
      assert front + [last] == messages;
    }
  }

  /** The bytes taken in but not yet delivered; after a rejection they end with the rejected header. */
  function Pending(mode: Mode): seq<byte> {
    match mode
    case Head(got) => got
    case Body(n, got) => Int32LE(n) + got
    case Rejected(header) => header
  }

  ghost predicate Sound(max: int, f: Framing) {
    && AllFramable(max, f.delivered)
    && (f.mode.Head? ==> |f.mode.got| < HEADER_LENGTH)
    && (f.mode.Body? ==> |f.mode.got| < f.mode.length <= max && f.mode.length <= MAX_INT32)
    && (f.mode.Rejected? ==> |f.mode.header| == 4 && !(1 <= LengthOf(f.mode.header) <= max))
  }

  lemma SoundFeed(max: int, f: Framing, b: byte)
    requires Sound(max, f)
    ensures Sound(max, Feed(max, f, b))
    ensures !f.mode.Rejected? ==>
              var g := Feed(max, f, b);
              Frames(g.delivered) + Pending(g.mode) == Frames(f.delivered) + Pending(f.mode) + [b]
  {
    match f.mode
    case Rejected(_) =>
    case Head(got) =>
      if |got| == 3 {
        if LengthOf(got + [b]) >= 1 {
          Int32LEOfLength(got + [b]);
        }
      }
    case Body(n, got) =>
      if |got| + 1 == n {
        var g := Feed(max, f, b);
        assert g.delivered[..|f.delivered|] == f.delivered;
        assert Frame(got + [b]) == Int32LE(n) + got + [b];
      }
  }

  /**
   * Nothing is lost, invented or reordered: the input is the frames delivered, then the pending bytes,
   * then (only after a rejection) whatever followed the rejected header.
   */
  lemma {:induction false} InputAccounted(max: int, bytes: seq<byte>)
    ensures var f := FeedAll(max, START, bytes);
            && Sound(max, f)
            && (if f.mode.Rejected? then Frames(f.delivered) + Pending(f.mode) <= bytes
                else Frames(f.delivered) + Pending(f.mode) == bytes)
    decreases |bytes|
  {
    if bytes != [] {
      var front, last := bytes[..|bytes| - 1], bytes[|bytes| - 1];
      InputAccounted(max, front);
      FeedAllSnoc(max, START, front, last);
      assert front + [last] == bytes;
      SoundFeed(max, FeedAll(max, START, front), last);
    }
  }

  /** Exactly the framings of messages of size 1..max unframe completely, and to those messages only. */
  lemma UnframeExact(max: int, bytes: seq<byte>, messages: seq<seq<byte>>)
    ensures FeedAll(max, START, bytes) == Framing(Head([]), messages)
            <==> AllFramable(max, messages) && bytes == Frames(messages)
  {
    hide Feed;
    InputAccounted(max, bytes);
    if FeedAll(max, START, bytes) == Framing(Head([]), messages) {
      assert Frames(messages) + [] == Frames(messages);
    }
    if AllFramable(max, messages) && bytes == Frames(messages) {
      UnframeFrames(max, messages);
    }
  }

  /** Two ways of cutting the same bytes into buffers have the same outcome, point of rejection included. */
  lemma CuttingIrrelevant(max: int, f: Framing, a: seq<seq<byte>>, b: seq<seq<byte>>)
    requires Flatten(a) == Flatten(b)
    ensures FeedParts(max, f, a) == FeedParts(max, f, b)
  {
    FeedPartsFlat(max, f, a);
    FeedPartsFlat(max, f, b);
  }

  lemma {:induction false} FeedPartsFlat(max: int, f: Framing, parts: seq<seq<byte>>)
    ensures FeedParts(max, f, parts) == FeedAll(max, f, Flatten(parts))
    decreases |parts|
  {
    if parts != [] {
      FeedPartsFlat(max, FeedAll(max, f, parts[0]), parts[1..]);
      FeedAllAppend(max, f, parts[0], Flatten(parts[1..]));
    }
  }

  lemma PrefixDelivered(max: int, messages: seq<seq<byte>>, input: seq<byte>, k: nat)
    requires AllFramable(max, messages) && k <= |messages| && Frames(messages[..k]) <= input
    ensures k <= |FeedAll(max, START, input).delivered|
  {
    hide Feed, FeedAll;
    var part := Frames(messages[..k]);
    UnframeFrames(max, messages[..k]);
    assert input == part + input[|part|..];
    FeedAllAppend(max, START, part, input[|part|..]);
    DeliveredGrows(max, FeedAll(max, START, part), input[|part|..]);
  }

  /**
   * Part of a framed stream: no rejection, the messages delivered are the first ones sent, and every message whose
   * frame is complete is among them.
   */
  lemma UnframePrefix(max: int, messages: seq<seq<byte>>, input: seq<byte>)
    requires AllFramable(max, messages) && input <= Frames(messages)
    ensures var f := FeedAll(max, START, input);
            && !f.mode.Rejected? && f.delivered <= messages
            && (forall k :: 0 <= k <= |messages| && Frames(messages[..k]) <= input ==> k <= |f.delivered|)
  {
    hide Feed, FeedAll, Frames, Int32LE;
    var all := Frames(messages);
    var rest := all[|input|..];
    UnframeFrames(max, messages);
    assert all == input + rest;
    FeedAllAppend(max, START, input, rest);
    var f := FeedAll(max, START, input);
    DeliveredGrows(max, f, rest);
    if f.mode.Rejected? {
      RejectedStays(max, f, rest);
    }
    forall k | 0 <= k <= |messages| && Frames(messages[..k]) <= input
      ensures k <= |f.delivered|
    {
      PrefixDelivered(max, messages, input, k);
    }
  }

  /** The two pieces queued for a message are its frame. */
  lemma FramePieces(message: seq<byte>)
    requires 1 <= |message| <= MAX_INT32
    ensures var pieces := FrameData(WholeSegment(message));
            && pieces.Ok? && |pieces.value| == 2
            && pieces.value[0].ToBuffer() + pieces.value[1].ToBuffer() == Frame(message)
  {
  }
}
