/** UUID text to the mixed-endian 16 byte form and back. */
module GuidParse {
  import opened Buffers
  import opened Wrappers

  function LowerChar(c: char): char {
    if 'A' <= c <= 'Z' then (c as int + 32) as char else c
  }

  function Lower(s: string): string {
    seq(|s|, i requires 0 <= i < |s| => LowerChar(s[i]))
  }

  predicate IsHex(c: char) { '0' <= c <= '9' || 'a' <= c <= 'f' }

  function HexValue(c: char): (v: int)
    requires IsHex(c)
    ensures 0 <= v < 16
  {
    if '0' <= c <= '9' then c as int - '0' as int else c as int - 'a' as int + 10
  }

  function HexDigit(v: int): (c: char)
    requires 0 <= v < 16
    ensures IsHex(c) && HexValue(c) == v
  {
    if v < 10 then ('0' as int + v) as char else ('a' as int + (v - 10)) as char
  }

  /** The two hexadecimal digits of a byte. */
  function ByteToHex(b: byte): string { [HexDigit(b / 16), HexDigit(b % 16)] }

  function Hexes(bs: seq<byte>): string {
    if bs == [] then "" else ByteToHex(bs[0]) + Hexes(bs[1..])
  }

  /** Left-to-right, non-overlapping matches of two hexadecimal digits; anything else is stepped over. */
  function Octets(s: string): seq<byte> {
    if |s| < 2 then []
    else if IsHex(s[0]) && IsHex(s[1]) then [HexValue(s[0]) * 16 + HexValue(s[1])] + Octets(s[2..])
    else Octets(s[1..])
  }

  /** The first 16 octets, zero-filled when there are fewer. */
  function Sixteen(o: seq<byte>): (r: seq<byte>)
    ensures |r| == 16
  {
    (o + Zeros(16))[..16]
  }

  /** First field reversed as four bytes, the next two as two bytes each, the last eight kept. */
  function SwapFields(b: seq<byte>): (r: seq<byte>)
    requires |b| == 16
    ensures |r| == 16
  {
    [b[3], b[2], b[1], b[0], b[5], b[4], b[7], b[6]] + b[8..]
  }

  function Parsed(s: string): (r: seq<byte>)
    ensures |r| == 16
  {
    SwapFields(Sixteen(Octets(Lower(s))))
  }

  /** One group of digits and the hyphen behind it. */
  function Group(bs: seq<byte>, rest: string): string { Hexes(bs) + ("-" + rest) }

  function Unparse(buffer: seq<byte>, offset: nat): string
    requires offset + 16 <= |buffer|
  {
    Text(SwapFields(buffer[offset..offset + 16]))
  }

  /** The text of 16 bytes already in the order in which they are written. */
  function Text(b: seq<byte>): string
    requires |b| == 16
  {
    Group(b[..4], Group(b[4..6], Group(b[6..8], Group(b[8..10], Hexes(b[10..])))))
  }

  lemma SixteenSnoc(o: seq<byte>, x: byte)
    ensures |o| < 16 ==> Sixteen(o + [x]) == Sixteen(o)[|o| := x]
    ensures |o| >= 16 ==> Sixteen(o + [x]) == Sixteen(o)
  {
  }

  method ZeroFill(buf: array<byte>, offset: nat)
    requires offset + 16 <= buf.Length
    modifies buf
    ensures buf[offset..offset + 16] == Sixteen([])
    ensures buf[..offset] == old(buf[..offset]) && buf[offset + 16..] == old(buf[offset + 16..])
  {
    forall k | offset <= k < offset + 16 {
      buf[k] := 0;
    }
  }

  method StoreOctet(buf: array<byte>, offset: nat, i: nat, oct: byte)
    requires offset + 16 <= buf.Length && i < 16
    modifies buf
    ensures buf[offset..offset + 16] == old(buf[offset..offset + 16])[i := oct]
    ensures buf[..offset] == old(buf[..offset]) && buf[offset + 16..] == old(buf[offset + 16..])
  {
    buf[offset + i] := oct;
  }

  lemma NoOctets(text: string)
    requires |text| < 2
    ensures Octets(text) == []
  {
  }

  /** What is found at `p` and behind it. */
  lemma OctetsFrom(text: string, p: nat)
    requires p + 1 < |text|
    ensures Octets(text[p..])
            == if IsHex(text[p]) && IsHex(text[p + 1]) then
                 [HexValue(text[p]) * 16 + HexValue(text[p + 1])] + Octets(text[p + 2..])
               else Octets(text[p + 1..])
  {
    hide IsHex, HexValue;
    assert text[p..][2..] == text[p + 2..] && text[p..][1..] == text[p + 1..];
  }

  /** Zero-fills the 16 bytes at `offset` and writes the octets found in `text` over them. */
  method FillOctets(text: string, buf: array<byte>, offset: nat)
    requires offset + 16 <= buf.Length
    modifies buf
    ensures buf[offset..offset + 16] == Sixteen(Octets(text))
    ensures buf[..offset] == old(buf[..offset]) && buf[offset + 16..] == old(buf[offset + 16..])
  {
    hide Sixteen, IsHex, HexValue, Octets;
    ZeroFill(buf, offset);
    var ii, p := 0, 0;
    ghost var found: seq<byte> := [];
    assert text[0..] == text;
    while p + 1 < |text|
      invariant 0 <= p <= |text| && ii == Min(16, |found|)
      invariant found + Octets(text[p..]) == Octets(text)
      invariant buf[offset..offset + 16] == Sixteen(found)
      invariant buf[..offset] == old(buf[..offset]) && buf[offset + 16..] == old(buf[offset + 16..])
    {
      OctetsFrom(text, p);
      if IsHex(text[p]) && IsHex(text[p + 1]) {
        var oct: byte := HexValue(text[p]) * 16 + HexValue(text[p + 1]);
        assert found + ([oct] + Octets(text[p + 2..])) == (found + [oct]) + Octets(text[p + 2..]);
        SixteenSnoc(found, oct);
        if ii < 16 {
          StoreOctet(buf, offset, ii, oct);
          ii := ii + 1;
        }
        found := found + [oct];
        p := p + 2;
      } else {
        p := p + 1;
      }
    }
    NoOctets(text[p..]);
    assert found == Octets(text);
  }

  /** Reorders the first eight of the 16 bytes at `offset` in place. */
  method SwapInPlace(buf: array<byte>, offset: nat)
    requires offset + 16 <= buf.Length
    modifies buf
    ensures var b := old(buf[offset..offset + 16]);
            buf[offset..offset + 16] == [b[3], b[2], b[1], b[0], b[5], b[4], b[7], b[6]] + b[8..]
    ensures buf[..offset] == old(buf[..offset]) && buf[offset + 16..] == old(buf[offset + 16..])
  {
    var copy := buf[offset..offset + 16];
    buf[offset + 0] := copy[3];
    buf[offset + 1] := copy[2];
    buf[offset + 2] := copy[1];
    buf[offset + 3] := copy[0];
    buf[offset + 4] := copy[5];
    buf[offset + 5] := copy[4];
    buf[offset + 6] := copy[7];
    buf[offset + 7] := copy[6];
    ghost var now := buf[offset..offset + 16];
    assert now[0] == copy[3] && now[1] == copy[2] && now[2] == copy[1] && now[3] == copy[0];
    assert now[4] == copy[5] && now[5] == copy[4] && now[6] == copy[7] && now[7] == copy[6];
    assert now[8..] == copy[8..];
    assert now == now[..8] + now[8..];
  }

  /** Writes the 16 bytes into `buf` at `offset`. */
  method Parse(s: string, buf: array<byte>, offset: nat)
    requires offset + 16 <= buf.Length
    modifies buf
    ensures buf[..] == old(buf[..offset]) + Parsed(s) + old(buf[offset + 16..])
  {
    FillOctets(Lower(s), buf, offset);
    SwapInPlace(buf, offset);
    assert buf[..] == buf[..offset] + buf[offset..offset + 16] + buf[offset + 16..];
  }

  // ---- Round trips ----

  lemma ByteDigits(b: byte)
    ensures var h := ByteToHex(b);
            |h| == 2 && IsHex(h[0]) && IsHex(h[1]) && HexValue(h[0]) * 16 + HexValue(h[1]) == b
  {
    hide HexDigit, IsHex, HexValue;
  }

  lemma {:induction false} OctetsOfHexes(bs: seq<byte>, rest: string)
    ensures Octets(Hexes(bs) + rest) == bs + Octets(rest)
  {
    hide ByteToHex, IsHex, HexValue;
    if bs == [] {
      assert Hexes(bs) + rest == rest;
    } else {
      ByteDigits(bs[0]);
      var t := Hexes(bs) + rest;
      assert t == ByteToHex(bs[0]) + (Hexes(bs[1..]) + rest);
      assert t[2..] == Hexes(bs[1..]) + rest;
      OctetsOfHexes(bs[1..], rest);
    }
  }

  lemma OctetsOfGroup(bs: seq<byte>, rest: string)
    ensures Octets(Group(bs, rest)) == bs + Octets(rest)
  {
    OctetsOfHexes(bs, "-" + rest);
    assert ("-" + rest)[1..] == rest;
  }

  lemma OctetsOfText(b: seq<byte>)
    requires |b| == 16
    ensures Octets(Text(b)) == b
  {
    var t4 := Hexes(b[10..]);
    var t3 := Group(b[8..10], t4);
    var t2 := Group(b[6..8], t3);
    var t1 := Group(b[4..6], t2);
    OctetsOfHexes(b[10..], "");
    assert t4 + "" == t4;
    OctetsOfGroup(b[8..10], t4);
    OctetsOfGroup(b[6..8], t3);
    OctetsOfGroup(b[4..6], t2);
    OctetsOfGroup(b[..4], t1);
    assert b[8..10] + b[10..] == b[8..];
    assert b[6..8] + b[8..] == b[6..];
    assert b[4..6] + b[6..] == b[4..];
  }

  lemma {:induction false} HexesLowerHex(bs: seq<byte>)
    ensures |Hexes(bs)| == 2 * |bs|
    ensures forall i :: 0 <= i < |Hexes(bs)| ==> IsHex(Hexes(bs)[i])
  {
    if bs != [] {
      HexesLowerHex(bs[1..]);
    }
  }

  lemma LowerKeepsHexes(s: string)
    requires forall i :: 0 <= i < |s| ==> IsHex(s[i]) || s[i] == '-'
    ensures Lower(s) == s
  {
  }

  /** String form of section 3 of RFC 4122: 8-4-4-4-12 hexadecimal digits of either case. */
  predicate IsUuid(s: string) {
    |s| == 36
    && forall i :: 0 <= i < 36 ==>
         if i == 8 || i == 13 || i == 18 || i == 23 then s[i] == '-' else IsHex(LowerChar(s[i]))
  }

  lemma TextShape(b: seq<byte>)
    requires |b| == 16
    ensures IsUuid(Text(b)) && Lower(Text(b)) == Text(b)
  {
    HexesLowerHex(b[..4]);
    HexesLowerHex(b[4..6]);
    HexesLowerHex(b[6..8]);
    HexesLowerHex(b[8..10]);
    HexesLowerHex(b[10..]);
    LowerKeepsHexes(Text(b));
  }

  /** The text produced for a byte string has the UUID shape and is its own lower-cased form. */
  lemma UnparseShape(buffer: seq<byte>, offset: nat)
    requires offset + 16 <= |buffer|
    ensures IsUuid(Unparse(buffer, offset)) && Lower(Unparse(buffer, offset)) == Unparse(buffer, offset)
  {
    TextShape(SwapFields(buffer[offset..offset + 16]));
  }

  lemma SwapTwice(b: seq<byte>)
    requires |b| == 16
    ensures SwapFields(SwapFields(b)) == b
  {
  }

  /** Reading back the text of any 16 bytes gives those bytes. */
  lemma ParseOfUnparse(b: seq<byte>)
    requires |b| == 16
    ensures Parsed(Unparse(b, 0)) == b
  {
    assert b[0..16] == b;
    var c := SwapFields(b);
    TextShape(c);
    OctetsOfText(c);
    assert Sixteen(c) == c;
    SwapTwice(b);
  }

  lemma PairDigits(c: char, d: char)
    requires IsHex(c) && IsHex(d)
    ensures 0 <= HexValue(c) * 16 + HexValue(d) < 256 && ByteToHex(HexValue(c) * 16 + HexValue(d)) == [c, d]
  {
    assert HexDigit(HexValue(c)) == c && HexDigit(HexValue(d)) == d;
  }

  lemma {:induction false} HexesOfOctets(s: string)
    requires |s| % 2 == 0 && forall i :: 0 <= i < |s| ==> IsHex(s[i])
    ensures |Octets(s)| == |s| / 2 && Hexes(Octets(s)) == s
  {
    hide ByteToHex, IsHex, HexValue;
    if |s| >= 2 {
      HexesOfOctets(s[2..]);
      PairDigits(s[0], s[1]);
      assert Octets(s)[1..] == Octets(s[2..]);
      assert s == [s[0], s[1]] + s[2..];
    }
  }

  /** Writing out what was read gives the lower-cased text back exactly for UUIDs, and for no other text. */
  lemma UnparseOfParse(s: string)
    ensures Unparse(Parsed(s), 0) == Lower(s) <==> IsUuid(s)
  {
    if Unparse(Parsed(s), 0) == Lower(s) {
      UnparseShape(Parsed(s), 0);
      assert IsUuid(Lower(s));
      forall i | 0 <= i < 36
        ensures if i == 8 || i == 13 || i == 18 || i == 23 then s[i] == '-' else IsHex(LowerChar(s[i]))
      {
        assert Lower(s)[i] == LowerChar(s[i]);
      }
    }
    if IsUuid(s) {
      UnparseOfParseUuid(s);
    }
  }

  /** The five groups of a lower-cased UUID. */
  lemma UuidGroups(t: string)
    requires IsUuid(t) && Lower(t) == t
    ensures |t| == 36 && t[8] == t[13] == t[18] == t[23] == '-'
    ensures forall i :: 0 <= i < 36 && i != 8 && i != 13 && i != 18 && i != 23 ==> IsHex(t[i])
  {
    hide IsHex, LowerChar;
    forall i | 0 <= i < 36 && i != 8 && i != 13 && i != 18 && i != 23 ensures IsHex(t[i]) {
      assert Lower(t)[i] == LowerChar(t[i]);
    }
  }

  lemma LowerUuid(s: string)
    requires IsUuid(s)
    ensures IsUuid(Lower(s)) && Lower(Lower(s)) == Lower(s)
  {
  }

  /** A lower-cased UUID is the text of the 16 octets read from it. */
  lemma TextOfUuid(s: string)
    requires IsUuid(s)
    ensures |Octets(Lower(s))| == 16 && Text(Octets(Lower(s))) == Lower(s)
  {
    hide IsHex, HexValue, Lower, IsUuid, Octets, Hexes;
    var t := Lower(s);
    LowerUuid(s);
    UuidGroups(t);
    var o0, o1, o2, o3, o4 := Octets(t[..8]), Octets(t[9..13]), Octets(t[14..18]), Octets(t[19..23]), Octets(t[24..]);
    HexesOfOctets(t[..8]);
    HexesOfOctets(t[9..13]);
    HexesOfOctets(t[14..18]);
    HexesOfOctets(t[19..23]);
    HexesOfOctets(t[24..]);
    assert t[19..] == Group(o3, t[24..]);
    assert t[14..] == Group(o2, t[19..]);
    assert t[9..] == Group(o1, t[14..]);
    assert t == Group(o0, t[9..]);
    var all := o0 + o1 + o2 + o3 + o4;
    SixteenParts(o0, o1, o2, o3, o4);
    assert Text(all) == t;
    OctetsOfText(all);
  }

  lemma SixteenParts(o0: seq<byte>, o1: seq<byte>, o2: seq<byte>, o3: seq<byte>, o4: seq<byte>)
    requires |o0| == 4 && |o1| == |o2| == |o3| == 2 && |o4| == 6
    ensures var b := o0 + o1 + o2 + o3 + o4;
            |b| == 16 && b[..4] == o0 && b[4..6] == o1 && b[6..8] == o2 && b[8..10] == o3 && b[10..] == o4
  {
  }

  lemma UnparseOfParseUuid(s: string)
    requires IsUuid(s)
    ensures Unparse(Parsed(s), 0) == Lower(s)
  {
    TextOfUuid(s);
    var o := Octets(Lower(s));
    assert Sixteen(o) == o;
    SwapTwice(o);
    assert Parsed(s)[0..16] == Parsed(s);
  }

  // ---- Where each byte stands in the text ----

  const DIGITS := "0123456789abcdef"
  const UPPER_DIGITS := "0123456789ABCDEF"

  /** Where in the text the two digits of byte `k` are. */
  const DIGIT_PLACES: seq<nat> := [6, 4, 2, 0, 11, 9, 16, 14, 19, 21, 24, 26, 28, 30, 32, 34]

  /** The two characters at `at` are the digits of a byte, the more significant one first. */
  predicate ShowsByte(text: string, at: nat, b: byte) {
    at + 1 < |text| && text[at] == DIGITS[b / 16] && text[at + 1] == DIGITS[b % 16]
  }

  /** Likewise, with letters of either case. */
  predicate ReadsAsByte(text: string, at: nat, b: byte) {
    && at + 1 < |text| && (text[at] == DIGITS[b / 16] || text[at] == UPPER_DIGITS[b / 16])
    && (text[at + 1] == DIGITS[b % 16] || text[at + 1] == UPPER_DIGITS[b % 16])
  }

  lemma HexDigitIs(v: int)
    requires 0 <= v < 16
    ensures HexDigit(v) == DIGITS[v]
  {
  }

  lemma {:induction false} HexesShow(bs: seq<byte>, k: nat)
    requires k < |bs|
    ensures |Hexes(bs)| == 2 * |bs| && ShowsByte(Hexes(bs), 2 * k, bs[k])
  {
    hide HexDigit;
    HexesLowerHex(bs);
    if k == 0 {
      HexDigitIs(bs[0] / 16);
      HexDigitIs(bs[0] % 16);
    } else {
      HexesShow(bs[1..], k - 1);
      assert Hexes(bs)[2 * k] == Hexes(bs[1..])[2 * (k - 1)];
    }
  }

  lemma GroupParts(bs: seq<byte>, rest: string)
    ensures var g, n := Group(bs, rest), 2 * |bs|;
            |Hexes(bs)| == n && |g| == n + 1 + |rest| && g[..n] == Hexes(bs) && g[n] == '-' && g[n + 1..] == rest
  {
    hide Hexes;
    HexesLowerHex(bs);
  }

  /** The groups of the text, by where they begin. */
  lemma TextParts(b: seq<byte>)
    requires |b| == 16
    ensures var t := Text(b);
            && |t| == 36 && t[..8] == Hexes(b[..4]) && t[9..13] == Hexes(b[4..6]) && t[14..18] == Hexes(b[6..8])
            && t[19..23] == Hexes(b[8..10]) && t[24..] == Hexes(b[10..])
  {
    hide Hexes, Group;
    var t4 := Hexes(b[10..]);
    var t3 := Group(b[8..10], t4);
    var t2 := Group(b[6..8], t3);
    var t1 := Group(b[4..6], t2);
    HexesLowerHex(b[10..]);
    GroupParts(b[8..10], t4);
    GroupParts(b[6..8], t3);
    GroupParts(b[4..6], t2);
    GroupParts(b[..4], t1);
    var t := Text(b);
    assert t[9..] == t1 && t1[..4] == t[9..13] && t1[5..] == t2;
    assert t[14..] == t2 && t2[..4] == t[14..18] && t2[5..] == t3;
    assert t[19..] == t3 && t3[..4] == t[19..23] && t3[5..] == t4;
    assert t[24..] == t4;
  }

  lemma ShownWithin(text: string, from: nat, to: nat, at: nat, b: byte)
    requires from <= to <= |text| && ShowsByte(text[from..to], at, b)
    ensures ShowsByte(text, from + at, b)
  {
  }

  /** The text before any reordering: byte `k`, counted from where its group begins. */
  lemma TextShows(b: seq<byte>, k: nat)
    requires |b| == 16 && k < 16
    ensures ShowsByte(Text(b), 2 * k + (if k < 4 then 0 else if k < 6 then 1 else if k < 8 then 2 else if k < 10 then 3
                                        else 4), b[k])
  {
    hide Hexes, ShowsByte, Text;
    TextParts(b);
    var from := if k < 4 then 0 else if k < 6 then 4 else if k < 8 then 6 else if k < 10 then 8 else 10;
    var to := if k < 4 then 4 else if k < 6 then 6 else if k < 8 then 8 else if k < 10 then 10 else 16;
    var at := if k < 4 then 0 else if k < 6 then 9 else if k < 8 then 14 else if k < 10 then 19 else 24;
    assert b[..4] == b[0..4] && b[10..] == b[10..16] && Text(b)[..8] == Text(b)[0..8]
        && Text(b)[24..] == Text(b)[24..36];
    HexesShow(b[from..to], k - from);
    ShownWithin(Text(b), at, at + 2 * (to - from), 2 * (k - from), b[k]);
  }

  /**
   * The text written for 16 bytes: hyphens at 8, 13, 18 and 23, the first field from its last byte to its first, the
   * next two likewise, and the other bytes in order.
   */
  lemma UnparsePlaces(buffer: seq<byte>, offset: nat, k: nat)
    requires offset + 16 <= |buffer| && k < 16
    ensures var t := Unparse(buffer, offset);
            && |t| == 36 && t[8] == t[13] == t[18] == t[23] == '-'
            && ShowsByte(t, DIGIT_PLACES[k], buffer[offset + k])
  {
    hide Text, ShowsByte;
    UnparseShape(buffer, offset);
    var b := buffer[offset..offset + 16];
    TextShows(SwapFields(b), if k < 4 then 3 - k else if k < 6 then 9 - k else if k < 8 then 13 - k else k);
  }

  lemma CaseOf(c: char)
    ensures IsHex(LowerChar(c)) <==> c in DIGITS || c in UPPER_DIGITS
  {
    if IsHex(LowerChar(c)) {
      var v := HexValue(LowerChar(c));
      HexDigitIs(v);
      assert c == DIGITS[v] || c == UPPER_DIGITS[v];
    }
  }

  /** The texts taken for UUIDs, spelt out. */
  lemma UuidExact(s: string)
    ensures IsUuid(s)
            <==> |s| == 36 && forall i :: 0 <= i < 36 ==>
                   if i in {8, 13, 18, 23} then s[i] == '-' else s[i] in DIGITS || s[i] in UPPER_DIGITS
  {
    hide IsHex, LowerChar;
    forall i | 0 <= i < |s| ensures IsHex(LowerChar(s[i])) <==> s[i] in DIGITS || s[i] in UPPER_DIGITS {
      CaseOf(s[i]);
    }
  }

  lemma ReadDigit(c: char, v: int)
    requires 0 <= v < 16 && LowerChar(c) == DIGITS[v]
    ensures c == DIGITS[v] || c == UPPER_DIGITS[v]
  {
  }

  /** And the bytes read from a UUID of either case: each is the one whose digits stand at its place. */
  lemma ParsePlaces(s: string, k: nat)
    requires IsUuid(s) && k < 16
    ensures ReadsAsByte(s, DIGIT_PLACES[k], Parsed(s)[k])
  {
    hide Parsed, Unparse, IsUuid, LowerChar;
    UnparsePlaces(Parsed(s), 0, k);
    UnparseOfParse(s);
    var at, b := DIGIT_PLACES[k], Parsed(s)[k];
    ReadDigit(s[at], b / 16);
    ReadDigit(s[at + 1], b % 16);
  }
}
