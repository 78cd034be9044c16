/** Optional values and error results shared by every module. */
module Wrappers {
  datatype Option<+T> = None | Some(value: T)

  datatype Result<+T> = Ok(value: T) | Err(reason: string)

  function Min(a: nat, b: nat): nat { if a < b then a else b }
}

/** Node buffers as byte sequences, and the segment view that travels between the transport classes. */
module Buffers {
  import opened Wrappers

  type byte = b: int | 0 <= b < 256

  function Zeros(n: nat): seq<byte> { seq(n, _ => 0) }

  /** `Buffer.slice`: both ends are clamped to the buffer. */
  function Slice(s: seq<byte>, lo: nat, hi: nat): seq<byte> {
    var h := Min(hi, |s|);
    var l := Min(lo, h);
    s[l..h]
  }

  lemma Regroup<T>(a: seq<T>, b: seq<T>, c: seq<T>)
    ensures (a + b) + c == a + (b + c)
  {
  }

  function Flatten(parts: seq<seq<byte>>): seq<byte> {
    if parts == [] then [] else parts[0] + Flatten(parts[1..])
  }

  lemma {:induction false} FlattenAppend(a: seq<seq<byte>>, b: seq<seq<byte>>)
    ensures Flatten(a + b) == Flatten(a) + Flatten(b)
  {
    if a == [] {
      assert a + b == b;
    } else {
      assert (a + b)[1..] == a[1..] + b;
      FlattenAppend(a[1..], b);
    }
  }

  lemma FlattenSnoc(a: seq<seq<byte>>, x: seq<byte>)
    ensures Flatten(a + [x]) == Flatten(a) + x
  {
    FlattenAppend(a, [x]);
    assert [x][1..] == [];
    assert Flatten([x]) == x;
  }

  /** `Buffer.copy` of all of `src` into room that is large enough. */
  method CopyInto(src: seq<byte>, dst: array<byte>, at: nat)
    requires at + |src| <= dst.Length
    modifies dst
    ensures dst[..] == old(dst[..at]) + src + old(dst[at + |src|..])
  {
    forall k | 0 <= k < |src| {
      dst[at + k] := src[k];
    }
  }

  datatype BufferSegment = BufferSegment(buffer: seq<byte>, offset: nat, count: nat) {
    /** The window lies inside the buffer, so reading it byte by byte meets only bytes. */
    predicate Inside() { offset + count <= |buffer| }

    function ToBuffer(): seq<byte> {
      if offset == 0 && count == |buffer| then buffer else Slice(buffer, offset, offset + count)
    }

    /** Writes the window into `dst` from index `at` on and leaves every other byte alone. */
    method CopyTo(dst: array<byte>, at: nat)
      requires at + |ToBuffer()| <= dst.Length
      modifies dst
      ensures dst[..] == old(dst[..at]) + ToBuffer() + old(dst[at + |ToBuffer()|..])
    {
      CopyInto(ToBuffer(), dst, at);
    }
  }

  /** A count of zero is taken as "not given" and becomes the whole buffer length. */
  function CreateBufferSegment(buffer: seq<byte>, offset: nat, count: nat): BufferSegment {
    BufferSegment(buffer, offset, if count == 0 then |buffer| else count)
  }

  function WholeSegment(buffer: seq<byte>): BufferSegment { CreateBufferSegment(buffer, 0, 0) }

  /**
   * What the segment made from (buffer, offset, count) shows to its readers, for a window inside the buffer:
   * the window asked for exactly when it is non-empty or already ends at the end of the buffer.
   */
  lemma SegmentShowsWindow(buffer: seq<byte>, offset: nat, count: nat)
    requires offset + count <= |buffer|
    ensures CreateBufferSegment(buffer, offset, count).ToBuffer() == buffer[offset..offset + count]
            <==> (count > 0 || offset == |buffer|)
  {
    if count == 0 {
      assert Slice(buffer, offset, offset + |buffer|) == buffer[offset..];
      assert |buffer[offset..]| == |buffer| - offset;
    }
  }
}
