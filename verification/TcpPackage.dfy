/** The binary package format: command, flags, correlation id, optional credentials, payload. */
module TcpPackages {
  import opened Wrappers
  import opened Buffers
  import GuidParse

  const FLAGS_OFFSET := 1
  const CORRELATION_OFFSET := 2
  const AUTH_OFFSET := 18
  const MANDATORY_SIZE := 18

  datatype TcpPackage = TcpPackage(
    command: byte, flags: byte, correlationId: string,
    login: Option<seq<byte>>, password: Option<seq<byte>>, data: Option<BufferSegment>)
  {
    /** Bit 0x01 of the flags. */
    predicate Authenticated() { flags % 2 == 1 }

    /** The constructor turns empty credentials into null. */
    predicate Constructed() { login != Some([]) && password != Some([]) }
  }

  function OrNull(text: seq<byte>): Option<seq<byte>> { if text == [] then None else Some(text) }

  /** What `copyTo` leaves in a zero-filled region of `count` bytes. */
  function PayloadBytes(data: Option<BufferSegment>): (r: seq<byte>)
    ensures |r| == if data.Some? then data.value.count else 0
  {
    if data.None? then [] else data.value.ToBuffer() + Zeros(data.value.count - |data.value.ToBuffer()|)
  }

  function Header(p: TcpPackage): (r: seq<byte>)
    ensures |r| == MANDATORY_SIZE
  {
    [p.command, p.flags] + GuidParse.Parsed(p.correlationId)
  }

  predicate Encodable(p: TcpPackage) {
    p.Authenticated() ==> p.login.Some? && |p.login.value| <= 255 && p.password.Some? && |p.password.value| <= 255
  }

  /** The bytes of a package. */
  function Encoded(p: TcpPackage): seq<byte>
    requires Encodable(p)
  {
    if p.Authenticated() then
      Header(p) + [|p.login.value|] + p.login.value + [|p.password.value|] + p.password.value + PayloadBytes(p.data)
    else
      Header(p) + PayloadBytes(p.data)
  }

  /** Fills a new buffer; fails on missing credentials and on credentials of more than 255 bytes. */
  method AsBuffer(p: TcpPackage) returns (ok: bool, res: array<byte>)
    ensures ok <==> (p.flags % 2 == 1 ==> p.login.Some? && |p.login.value| <= 255
                                          && p.password.Some? && |p.password.value| <= 255)
    ensures fresh(res)
    ensures ok ==> Encodable(p) && res[..] == Encoded(p)
  {
    hide GuidParse.Parsed;
    var dataCount := if p.data.Some? then p.data.value.count else 0;
    if p.Authenticated() {
      if p.login.None? || |p.login.value| > 255 || p.password.None? || |p.password.value| > 255 {
        ok, res := false, new byte[0];
        return;
      }
      var loginBytes, passwordBytes := p.login.value, p.password.value;
      ok, res := true, new byte[MANDATORY_SIZE + 2 + |loginBytes| + |passwordBytes| + dataCount](_ => 0);
      WriteHeader(p, res);
      ghost var head := Header(p);
      head := Put(head, [|loginBytes|], res, AUTH_OFFSET);
      head := Put(head, loginBytes, res, AUTH_OFFSET + 1);
      head := Put(head, [|passwordBytes|], res, AUTH_OFFSET + 1 + |loginBytes|);
      head := Put(head, passwordBytes, res, AUTH_OFFSET + 2 + |loginBytes|);
      WritePayload(p, head, res, res.Length - dataCount);
    } else {
      ok, res := true, new byte[MANDATORY_SIZE + dataCount](_ => 0);
      WriteHeader(p, res);
      WritePayload(p, Header(p), res, AUTH_OFFSET);
    }
  }

  /** Writes `src` behind the part of the buffer that is already filled. */
  method Put(ghost head: seq<byte>, src: seq<byte>, res: array<byte>, at: nat) returns (ghost head': seq<byte>)
    requires at + |src| <= res.Length
    requires res[..at] == head && res[at..] == Zeros(res.Length - at)
    modifies res
    ensures head' == head + src
    ensures res[..at + |src|] == head' && res[at + |src|..] == Zeros(res.Length - at - |src|)
  {
    CopyInto(src, res, at);
    head' := head + src;
    assert Zeros(res.Length - at)[|src|..] == Zeros(res.Length - at - |src|);
  }

  method WriteHeader(p: TcpPackage, res: array<byte>)
    requires res.Length >= MANDATORY_SIZE
    modifies res
    ensures res[..MANDATORY_SIZE] == Header(p)
    ensures res[MANDATORY_SIZE..] == old(res[MANDATORY_SIZE..])
  {
    res[0] := p.command;
    res[FLAGS_OFFSET] := p.flags;
    assert res[..2] == [p.command, p.flags];
    GuidParse.Parse(p.correlationId, res, CORRELATION_OFFSET);
  }

  method WritePayload(p: TcpPackage, ghost head: seq<byte>, res: array<byte>, at: nat)
    requires at + |PayloadBytes(p.data)| == res.Length
    requires res[..at] == head && res[at..] == Zeros(res.Length - at)
    modifies res
    ensures res[..] == head + PayloadBytes(p.data)
  {
    if p.data.Some? {
      p.data.value.CopyTo(res, at);
      ghost var n := |p.data.value.ToBuffer()|;
      assert Zeros(res.Length - at)[n..] == Zeros(res.Length - at - n);
    }
  }

  /** `Garbled` stands for a package with fields read from outside the buffer; no error is raised for it. */
  datatype Decoded = Package(package: TcpPackage) | Invalid(reason: string) | Garbled

  /** Reads a package from a segment. */
  function FromBufferSegment(data: BufferSegment): Decoded
    requires data.Inside()
  {
    if data.count < MANDATORY_SIZE then Garbled
    else Fields(data, GuidParse.Unparse(data.buffer, data.offset + CORRELATION_OFFSET))
  }

  /** The fields around the correlation id. */
  function Fields(data: BufferSegment, correlationId: string): Decoded
    requires data.Inside() && data.count >= MANDATORY_SIZE
  {
    var (buffer, offset) := (data.buffer, data.offset);
    var command := buffer[offset];
    var flags := buffer[offset + FLAGS_OFFSET];
    if flags % 2 == 0 then
      Package(TcpPackage(command, flags, correlationId, None, None,
                         Some(CreateBufferSegment(buffer, offset + MANDATORY_SIZE, data.count - MANDATORY_SIZE))))
    else if offset + AUTH_OFFSET >= |buffer| then Garbled
    else
      var loginLen := buffer[offset + AUTH_OFFSET];
      if AUTH_OFFSET + 1 + loginLen + 1 >= data.count then
        Invalid("Login length is too big, it doesn't fit into TcpPackage.")
      else
        var passLen := buffer[offset + AUTH_OFFSET + 1 + loginLen];
        if AUTH_OFFSET + 1 + loginLen + 1 + passLen > data.count then
          Invalid("Password length is too big, it doesn't fit into TcpPackage.")
        else
          var headerSize := MANDATORY_SIZE + 1 + loginLen + 1 + passLen;
          var login := buffer[offset + AUTH_OFFSET + 1..offset + AUTH_OFFSET + 1 + loginLen];
          var pass := buffer[offset + AUTH_OFFSET + 1 + loginLen + 1..offset + headerSize];
          Package(TcpPackage(command, flags, correlationId, OrNull(login), OrNull(pass),
                             Some(CreateBufferSegment(buffer, offset + headerSize, data.count - headerSize))))
  }

  // ---- Round trip ----

  /** The package the receiver ends up with, for a package built by the constructor. */
  function Received(p: TcpPackage): TcpPackage
    requires Encodable(p)
  {
    ReceivedWith(p, Encoded(p), GuidParse.Unparse(GuidParse.Parsed(p.correlationId), 0))
  }

  function ReceivedWith(p: TcpPackage, bytes: seq<byte>, id: string): TcpPackage
    requires |PayloadBytes(p.data)| <= |bytes|
  {
    var n := |PayloadBytes(p.data)|;
    TcpPackage(p.command, p.flags, id,
               if p.Authenticated() then p.login else None,
               if p.Authenticated() then p.password else None,
               Some(CreateBufferSegment(bytes, |bytes| - n, n)))
  }

  lemma UnparseAtOffset(buffer: seq<byte>, offset: nat, part: seq<byte>)
    requires |part| == 16 && offset + 16 <= |buffer| && buffer[offset..offset + 16] == part
    ensures GuidParse.Unparse(buffer, offset) == GuidParse.Unparse(part, 0)
  {
    assert part[0..0 + 16] == part;
  }

  /** Where the parts of an authenticated package lie. */
  lemma AuthLayout(h: seq<byte>, l: seq<byte>, w: seq<byte>, d: seq<byte>)
    requires |h| == MANDATORY_SIZE && |l| <= 255 && |w| <= 255
    ensures var bytes := h + [|l|] + l + [|w|] + w + d;
            && |bytes| == MANDATORY_SIZE + 2 + |l| + |w| + |d|
            && bytes[..MANDATORY_SIZE] == h
            && bytes[AUTH_OFFSET] == |l|
            && bytes[AUTH_OFFSET + 1..AUTH_OFFSET + 1 + |l|] == l
            && bytes[AUTH_OFFSET + 1 + |l|] == |w|
            && bytes[AUTH_OFFSET + 2 + |l|..AUTH_OFFSET + 2 + |l| + |w|] == w
  {
  }

  lemma HeaderFields(p: TcpPackage, bytes: seq<byte>)
    requires |bytes| >= MANDATORY_SIZE && bytes[..MANDATORY_SIZE] == Header(p)
    ensures bytes[0] == p.command && bytes[FLAGS_OFFSET] == p.flags
    ensures GuidParse.Unparse(bytes, CORRELATION_OFFSET) == GuidParse.Unparse(GuidParse.Parsed(p.correlationId), 0)
  {
    var id := GuidParse.Parsed(p.correlationId);
    assert bytes[..MANDATORY_SIZE][CORRELATION_OFFSET..] == id;
    assert bytes[CORRELATION_OFFSET..CORRELATION_OFFSET + 16] == id;
    assert bytes[..MANDATORY_SIZE][0] == p.command && bytes[..MANDATORY_SIZE][FLAGS_OFFSET] == p.flags;
    UnparseAtOffset(bytes, CORRELATION_OFFSET, id);
  }

  lemma EncodedFields(p: TcpPackage)
    requires p.Authenticated() && Encodable(p)
    ensures var (bytes, l, w) := (Encoded(p), p.login.value, p.password.value);
            && |bytes| == MANDATORY_SIZE + 2 + |l| + |w| + |PayloadBytes(p.data)|
            && bytes[..MANDATORY_SIZE] == Header(p)
            && bytes[AUTH_OFFSET] == |l|
            && bytes[AUTH_OFFSET + 1..AUTH_OFFSET + 1 + |l|] == l
            && bytes[AUTH_OFFSET + 1 + |l|] == |w|
            && bytes[AUTH_OFFSET + 2 + |l|..AUTH_OFFSET + 2 + |l| + |w|] == w
  {
    AuthLayout(Header(p), p.login.value, p.password.value, PayloadBytes(p.data));
  }

  /** What is read from bytes whose flags announce credentials that fit. */
  lemma FieldsFit(bytes: seq<byte>, id: string, l: nat, w: nat)
    requires 20 + l < |bytes| && 20 + l + w <= |bytes| && bytes[1] % 2 == 1 && bytes[18] == l && bytes[19 + l] == w
    ensures Fields(WholeSegment(bytes), id)
            == Package(TcpPackage(bytes[0], bytes[1], id, OrNull(bytes[19..19 + l]), OrNull(bytes[20 + l..20 + l + w]),
                                  Some(CreateBufferSegment(bytes, 20 + l + w, |bytes| - (20 + l + w)))))
  {
  }

  lemma FieldsPlain(bytes: seq<byte>, id: string)
    requires |bytes| >= MANDATORY_SIZE && bytes[1] % 2 == 0
    ensures Fields(WholeSegment(bytes), id)
            == Package(TcpPackage(bytes[0], bytes[1], id, None, None,
                                  Some(CreateBufferSegment(bytes, 18, |bytes| - 18))))
  {
  }

  /** Reading the fields back, with the correlation id left to its own lemmas. */
  lemma FieldsOfEncoded(p: TcpPackage, bytes: seq<byte>, id: string)
    requires p.Constructed() && Encodable(p) && bytes == Encoded(p)
    requires bytes[0] == p.command && bytes[FLAGS_OFFSET] == p.flags
    ensures Fields(WholeSegment(bytes), id) == Package(ReceivedWith(p, bytes, id))
  {
    hide Fields, Header, PayloadBytes, CreateBufferSegment;
    if p.Authenticated() {
      EncodedFields(p);
      FieldsFit(bytes, id, |p.login.value|, |p.password.value|);
    } else {
      FieldsPlain(bytes, id);
    }
  }

  lemma DecodeOfEncode(p: TcpPackage)
    requires p.Constructed() && Encodable(p)
    ensures FromBufferSegment(WholeSegment(Encoded(p))) == Package(Received(p))
  {
    var bytes := Encoded(p);
    if p.Authenticated() {
      EncodedFields(p);
    } else {
      assert bytes[..MANDATORY_SIZE] == Header(p);
    }
    HeaderFields(p, bytes);
    FieldsOfEncoded(p, bytes, GuidParse.Unparse(GuidParse.Parsed(p.correlationId), 0));
  }

  lemma BehindHeader(h: seq<byte>, l: seq<byte>, w: seq<byte>, d: seq<byte>)
    requires |h| == MANDATORY_SIZE && |l| <= 255 && |w| <= 255
    ensures (h + [|l|] + l + [|w|] + w + d)[18..] == [|l|] + l + [|w|] + w + d
  {
    assert h + [|l|] + l + [|w|] + w + d == h + ([|l|] + l + [|w|] + w + d);
  }

  /**
   * Where everything is: the command, the flags, the identifier with each byte taken from its place in the text, the
   * credentials behind their lengths when flagged, and the payload last.
   */
  lemma EncodedLayout(p: TcpPackage, k: nat)
    requires Encodable(p) && k < 16
    ensures var (bytes, payload) := (Encoded(p), PayloadBytes(p.data));
            && bytes[0] == p.command && bytes[1] == p.flags
            && (GuidParse.IsUuid(p.correlationId) ==>
                  GuidParse.ReadsAsByte(p.correlationId, GuidParse.DIGIT_PLACES[k], bytes[2 + k]))
            && if p.Authenticated() then
                 var (l, w) := (p.login.value, p.password.value);
                 bytes[18..] == [|l|] + l + [|w|] + w + payload
               else bytes[18..] == payload
  {
    hide GuidParse.Parsed, GuidParse.IsUuid, GuidParse.ReadsAsByte, PayloadBytes;
    var bytes := Encoded(p);
    if p.Authenticated() {
      EncodedFields(p);
      BehindHeader(Header(p), p.login.value, p.password.value, PayloadBytes(p.data));
    } else {
      assert bytes[..MANDATORY_SIZE] == Header(p) && bytes[18..] == PayloadBytes(p.data);
    }
    assert bytes[..MANDATORY_SIZE][2 + k] == GuidParse.Parsed(p.correlationId)[k];
    assert bytes[..MANDATORY_SIZE][0] == p.command && bytes[..MANDATORY_SIZE][1] == p.flags;
    if GuidParse.IsUuid(p.correlationId) {
      GuidParse.ParsePlaces(p.correlationId, k);
    }
  }

  /** The payload ends the package: the bytes of its window, with zeros where that goes beyond its buffer. */
  lemma EncodedPayload(p: TcpPackage, i: nat)
    requires Encodable(p) && p.data.Some? && i < p.data.value.count
    ensures var (bytes, data) := (Encoded(p), p.data.value);
            && |bytes| >= 18 + data.count
            && bytes[|bytes| - data.count + i]
               == if data.offset + i < |data.buffer| then data.buffer[data.offset + i] else 0
  {
    hide Encoded;
    EncodedEnds(p);
    var bytes, data := Encoded(p), p.data.value;
    assert bytes[|bytes| - data.count + i] == PayloadBytes(p.data)[i];
  }

  // ---- Which bytes are a package ----

  /** Login and password behind their lengths, and then the payload. */
  predicate CredentialsAre(rest: seq<byte>, login: seq<byte>, password: seq<byte>, payload: seq<byte>) {
    && |login| <= 255 && |password| <= 255
    && rest == [|login|] + login + [|password|] + password + payload
  }

  /**
   * Bytes long enough for the header are read as a package unless they are flagged and the credentials do not fit; an
   * empty password with nothing behind it is taken not to fit.
   */
  lemma DecodesExact(bytes: seq<byte>)
    requires |bytes| >= MANDATORY_SIZE
    ensures FromBufferSegment(WholeSegment(bytes)).Package?
            <==> bytes[1] % 2 == 0
                 || exists login, password, payload ::
                      CredentialsAre(bytes[18..], login, password, payload) && (password != [] || payload != [])
    ensures FromBufferSegment(WholeSegment(bytes)).Garbled? <==> bytes[1] % 2 == 1 && |bytes| == MANDATORY_SIZE
  {
    hide Fields, GuidParse.Unparse, CredentialsAre;
    var id, rest := GuidParse.Unparse(bytes, CORRELATION_OFFSET), bytes[18..];
    if bytes[1] % 2 == 0 {
      FieldsPlain(bytes, id);
    } else {
      FieldsUnfit(bytes, id);
      if login, password, payload :|
        CredentialsAre(rest, login, password, payload) && (password != [] || payload != [])
      {
        CredentialsLie(bytes, login, password, payload);
        FieldsFit(bytes, id, |login|, |password|);
      } else if |bytes| > 18 && 20 + bytes[18] < |bytes| && 20 + bytes[18] + bytes[19 + bytes[18]] <= |bytes| {
        CredentialsFound(bytes);
      }
    }
  }

  /** What is read then; an empty login or password reads as none. */
  lemma CredentialsRead(bytes: seq<byte>, login: seq<byte>, password: seq<byte>, payload: seq<byte>)
    requires |bytes| >= MANDATORY_SIZE && bytes[1] % 2 == 1
    requires CredentialsAre(bytes[18..], login, password, payload) && (password != [] || payload != [])
    ensures var d := FromBufferSegment(WholeSegment(bytes));
            && d.Package? && d.package.command == bytes[0] && d.package.flags == bytes[1]
            && d.package.login == (if login == [] then None else Some(login))
            && d.package.password == (if password == [] then None else Some(password))
            && Visible(d.package.data) == payload
  {
    hide Fields, GuidParse.Unparse, CredentialsAre, Visible;
    var l, w := |login|, |password|;
    CredentialsLie(bytes, login, password, payload);
    FieldsFit(bytes, GuidParse.Unparse(bytes, CORRELATION_OFFSET), l, w);
    SuffixVisible(bytes[..20 + l + w], payload);
    assert bytes == bytes[..20 + l + w] + payload;
  }

  lemma FieldsUnfit(bytes: seq<byte>, id: string)
    requires |bytes| >= MANDATORY_SIZE && bytes[1] % 2 == 1
    ensures var d := Fields(WholeSegment(bytes), id);
            && (d.Garbled? <==> |bytes| == 18)
            && (d.Package? ==> |bytes| > 18 && 20 + bytes[18] < |bytes|
                                  && 20 + bytes[18] + bytes[19 + bytes[18]] <= |bytes|)
  {
  }

  lemma CredentialsLie(bytes: seq<byte>, login: seq<byte>, password: seq<byte>, payload: seq<byte>)
    requires |bytes| >= 18 && CredentialsAre(bytes[18..], login, password, payload)
    ensures |bytes| == 20 + |login| + |password| + |payload|
    ensures bytes[18] == |login| && bytes[19 + |login|] == |password|
    ensures bytes[19..19 + |login|] == login && bytes[20 + |login|..20 + |login| + |password|] == password
    ensures bytes[20 + |login| + |password|..] == payload
  {
    var rest, l, w := bytes[18..], |login|, |password|;
    assert rest[0] == l && rest[1 + l] == w;
    assert rest[1..1 + l] == login && rest[2 + l..2 + l + w] == password && rest[2 + l + w..] == payload;
  }

  lemma CredentialsFound(bytes: seq<byte>)
    requires |bytes| > 18 && 20 + bytes[18] < |bytes| && 20 + bytes[18] + bytes[19 + bytes[18]] <= |bytes|
    ensures exists login, password, payload ::
              CredentialsAre(bytes[18..], login, password, payload) && (password != [] || payload != [])
  {
    var rest, l: nat, w: nat := bytes[18..], bytes[18], bytes[19 + bytes[18]];
    var login, password, payload := rest[1..1 + l], rest[2 + l..2 + l + w], rest[2 + l + w..];
    assert rest == [|login|] + login + [|password|] + password + payload;
    assert CredentialsAre(rest, login, password, payload);
  }

  /** Equal in everything a reader of the package sees; a null payload reads as an empty one. */
  predicate Same(p: TcpPackage, q: TcpPackage) {
    p.command == q.command && p.flags == q.flags && p.correlationId == q.correlationId
    && p.login == q.login && p.password == q.password && Visible(p.data) == Visible(q.data)
  }

  function Visible(data: Option<BufferSegment>): seq<byte> {
    if data.None? then [] else data.value.ToBuffer()
  }

  /**
   * The correlation id is a lower-case UUID, credentials go with the flag, and the payload window is inside its
   * buffer.
   */
  predicate Transportable(p: TcpPackage) {
    GuidParse.IsUuid(p.correlationId) && GuidParse.Lower(p.correlationId) == p.correlationId
    && (p.Authenticated() || (p.login.None? && p.password.None?))
    && (p.data.Some? ==> |p.data.value.ToBuffer()| == p.data.value.count)
  }

  /** A window that runs to the end of its buffer is shown whole, even when it is empty. */
  lemma SuffixVisible(front: seq<byte>, payload: seq<byte>)
    ensures Visible(Some(CreateBufferSegment(front + payload, |front|, |payload|))) == payload
  {
    SegmentShowsWindow(front + payload, |front|, |payload|);
  }

  /** The payload comes last. */
  lemma EncodedEnds(p: TcpPackage)
    requires Encodable(p)
    ensures var (bytes, payload) := (Encoded(p), PayloadBytes(p.data));
            |payload| + MANDATORY_SIZE <= |bytes| && bytes == bytes[..|bytes| - |payload|] + payload
  {
    hide PayloadBytes, Header;
  }

  lemma ReceivedPayload(p: TcpPackage)
    requires Encodable(p)
    ensures Visible(Received(p).data) == PayloadBytes(p.data)
  {
    hide Encoded, PayloadBytes, Visible, CreateBufferSegment, GuidParse.Parsed, GuidParse.Unparse;
    EncodedEnds(p);
    var (bytes, payload) := (Encoded(p), PayloadBytes(p.data));
    SuffixVisible(bytes[..|bytes| - |payload|], payload);
  }

  /** Encoding and decoding returns the package unchanged exactly for transportable packages. */
  lemma RoundTripExact(p: TcpPackage)
    requires p.Constructed() && Encodable(p)
    ensures FromBufferSegment(WholeSegment(Encoded(p))).Package?
    ensures Same(p, FromBufferSegment(WholeSegment(Encoded(p))).package) <==> Transportable(p)
  {
    DecodeOfEncode(p);
    ReceivedPayload(p);
    GuidParse.UnparseOfParse(p.correlationId);
    var id := GuidParse.Parsed(p.correlationId);
    GuidParse.UnparseShape(id, 0);
    if p.data.Some? {
      assert Visible(p.data) == PayloadBytes(p.data) <==> |Visible(p.data)| == |PayloadBytes(p.data)|;
    }
  }
}
