/** Chunk arithmetic of serveAligned and writeSlice: which aligned chunks a byte span
    touches, and which part of each chunk goes to the client. */
module Tiling {
  import opened Base

  /** Number of aligned chunks that first..last touches. */
  function ChunkCount(size: nat, first: nat, last: nat): nat
    requires size >= 1 && first <= last
  {
    DivMonotone(size, first, last);
    last / size - first / size + 1
  }

  /** Absolute offset of the i-th of those chunks. */
  function ChunkOff(size: nat, first: nat, i: nat): nat
    requires size >= 1
  {
    (first / size + i) * size
  }

  /** A chunk's inclusive end, clamped to the end of the object. */
  function ChunkEnd(size: nat, total: nat, off: nat): int {
    if total > 0 && off + size - 1 > total - 1 then total - 1 else off + size - 1
  }

  /** The bytes of an object that a chunk holds. */
  function ChunkBytes(obj: seq<Byte>, size: nat, off: nat): seq<Byte>
  {
    if off <= Min(off + size, |obj|) then obj[off..Min(off + size, |obj|)] else []
  }

  /** Lower bound, inside the chunk, of what writeSlice sends. */
  function SliceLo(chunkStart: int, reqFirst: int): int {
    if reqFirst > chunkStart then reqFirst - chunkStart else 0
  }

  /** Upper bound (exclusive), inside a chunk of len bytes. */
  function SliceHi(chunkStart: int, len: int, reqLast: int): int {
    if reqLast < chunkStart + len - 1 then reqLast - chunkStart + 1 else len
  }

  /** What writeSlice sends of a chunk with contents data. */
  function Slice(data: seq<Byte>, chunkStart: nat, reqFirst: nat, reqLast: nat): seq<Byte> {
    var lo := SliceLo(chunkStart, reqFirst);
    var hi := SliceHi(chunkStart, |data|, reqLast);
    if 0 <= lo < hi <= |data| then data[lo..hi] else []
  }

  lemma DivMonotone(size: nat, a: nat, b: nat)
    requires size >= 1 && a <= b
    ensures a / size <= b / size
  {
    var q, r := a / size, b / size;
    if r < q {
      MulMonotone(r + 1, q, size);
    }
  }

  lemma NextOff(size: nat, first: nat, i: nat)
    requires size >= 1
    ensures ChunkOff(size, first, i + 1) == ChunkOff(size, first, i) + size
  {
    MulNext(first / size + i, size);
  }

  lemma MulNext(a: int, c: int)
    ensures (a + 1) * c == a * c + c
  {
  }

  /** Chunks are laid end to end: the first holds byte first, the last holds byte last. */
  lemma ChunkLayout(size: nat, first: nat, last: nat)
    requires size >= 1 && first <= last
    ensures ChunkCount(size, first, last) >= 1
    ensures ChunkOff(size, first, 0) <= first < ChunkOff(size, first, 0) + size
    ensures var n := ChunkCount(size, first, last);
            ChunkOff(size, first, n - 1) <= last < ChunkOff(size, first, n - 1) + size
  {
    DivMonotone(size, first, last);
    var n := ChunkCount(size, first, last);
    assert first / size + 0 == first / size;
    assert first / size + (n - 1) == last / size;
  }

  lemma {:induction false} ChunkOffOrder(size: nat, first: nat, i: nat, j: nat)
    requires size >= 1 && i < j
    ensures ChunkOff(size, first, i) + size <= ChunkOff(size, first, j)
    decreases j
  {
    NextOff(size, first, j - 1);
    if i < j - 1 {
      ChunkOffOrder(size, first, i, j - 1);
    }
  }

  /** Every touched chunk starts inside the requested span's object, so it is never empty. */
  lemma ChunkInObject(size: nat, first: nat, last: nat, i: nat, obj: seq<Byte>)
    requires size >= 1 && first <= last < |obj| && i < ChunkCount(size, first, last)
    ensures ChunkOff(size, first, i) <= last
    ensures 1 <= |ChunkBytes(obj, size, ChunkOff(size, first, i))| <= size
    ensures |ChunkBytes(obj, size, ChunkOff(size, first, i))|
         == ChunkEnd(size, |obj|, ChunkOff(size, first, i)) - ChunkOff(size, first, i) + 1
  {
    OffAtMostLast(size, first, last, i);
    ChunkBytesLength(obj, size, ChunkOff(size, first, i));
  }

  lemma OffAtMostLast(size: nat, first: nat, last: nat, i: nat)
    requires size >= 1 && first <= last && i < ChunkCount(size, first, last)
    ensures ChunkOff(size, first, i) <= last
  {
    ChunkLayout(size, first, last);
    var n := ChunkCount(size, first, last);
    if i < n - 1 {
      ChunkOffOrder(size, first, i, n - 1);
    }
  }

  lemma ChunkBytesLength(obj: seq<Byte>, size: nat, off: nat)
    requires size >= 1 && off < |obj|
    ensures 1 <= |ChunkBytes(obj, size, off)| <= size
    ensures |ChunkBytes(obj, size, off)| == ChunkEnd(size, |obj|, off) - off + 1
  {
  }

  /** writeSlice on one chunk, given where the chunk lies against the request: it sends the
      object's bytes from lo to hi. */
  lemma SliceBetween(obj: seq<Byte>, size: nat, off: nat, first: nat, last: nat, lo: nat, hi: nat)
    requires size >= 1 && first <= last < |obj| && off <= last && first < off + size
    requires lo == Max(off, first) && hi == Min(off + size, last + 1)
    ensures lo < hi && Slice(ChunkBytes(obj, size, off), off, first, last) == obj[lo..hi]
  {
    var end := Min(off + size, |obj|);
    assert |ChunkBytes(obj, size, off)| == end - off;
    assert SliceLo(off, first) == lo - off && SliceHi(off, end - off, last) == hi - off;
    SubSlice(obj, off, end, lo, hi);
  }

  lemma SubSlice(obj: seq<Byte>, a: nat, b: nat, lo: nat, hi: nat)
    requires a <= lo <= hi <= b <= |obj|
    ensures obj[a..b][lo - a..hi - a] == obj[lo..hi]
  {
    var sub := obj[a..b];
    forall k | 0 <= k < hi - lo ensures sub[lo - a..hi - a][k] == obj[lo..hi][k] {
      assert sub[lo - a + k] == obj[lo + k];
    }
  }

  /** Where in the object the response stands once i chunks have been sent. */
  function Bound(size: nat, first: nat, last: nat, i: nat): (b: nat)
    requires size >= 1 && first <= last
    ensures first <= b <= last + 1
    ensures i == 0 ==> b == first
    ensures i >= ChunkCount(size, first, last) ==> b == last + 1
  {
    ChunkLayout(size, first, last);
    if i == 0 then first
    else if i < ChunkCount(size, first, last) then
      OffAtMostLast(size, first, last, i);
      ChunkOffOrder(size, first, 0, i);
      ChunkOff(size, first, i)
    else last + 1
  }

  lemma BoundOf(size: nat, first: nat, last: nat, i: nat)
    requires size >= 1 && first <= last && i < ChunkCount(size, first, last)
    ensures Bound(size, first, last, i) == Max(ChunkOff(size, first, i), first)
    ensures Bound(size, first, last, i + 1) == Min(ChunkOff(size, first, i) + size, last + 1)
    ensures ChunkOff(size, first, i) <= last && first < ChunkOff(size, first, i) + size
  {
    ChunkLayout(size, first, last);
    NextOff(size, first, i);
    OffAtMostLast(size, first, last, i);
    if i > 0 {
      ChunkOffOrder(size, first, 0, i);
    }
    if i + 1 < ChunkCount(size, first, last) {
      OffAtMostLast(size, first, last, i + 1);
    }
  }

  /** writeSlice of chunk i sends exactly the object's bytes between two consecutive bounds,
      and never nothing. */
  lemma SliceOfChunk(size: nat, first: nat, last: nat, i: nat, obj: seq<Byte>)
    requires size >= 1 && first <= last < |obj| && i < ChunkCount(size, first, last)
    ensures first <= Bound(size, first, last, i) < Bound(size, first, last, i + 1) <= last + 1
    ensures var off := ChunkOff(size, first, i);
            Slice(ChunkBytes(obj, size, off), off, first, last)
            == obj[Bound(size, first, last, i)..Bound(size, first, last, i + 1)]
  {
    BoundOf(size, first, last, i);
    SliceBetween(obj, size, ChunkOff(size, first, i), first, last,
                 Bound(size, first, last, i), Bound(size, first, last, i + 1));
  }

  /** The response body that sending the first i chunks' slices produces. */
  function SentSlices(size: nat, first: nat, last: nat, obj: seq<Byte>, i: nat): seq<Byte>
    requires size >= 1
  {
    if i == 0 then []
    else
      var off := ChunkOff(size, first, i - 1);
      SentSlices(size, first, last, obj, i - 1) + Slice(ChunkBytes(obj, size, off), off, first, last)
  }

  lemma SlicesJoin(obj: seq<Byte>, a: nat, b: nat, c: nat)
    requires a <= b <= c <= |obj|
    ensures obj[a..b] + obj[b..c] == obj[a..c]
  {
  }

  lemma {:induction false} SentUpTo(size: nat, first: nat, last: nat, obj: seq<Byte>, i: nat)
    requires size >= 1 && first <= last < |obj| && i <= ChunkCount(size, first, last)
    ensures SentSlices(size, first, last, obj, i) == obj[first..Bound(size, first, last, i)]
  {
    if i > 0 {
      SentUpTo(size, first, last, obj, i - 1);
      SliceOfChunk(size, first, last, i - 1, obj);
      var a, b := Bound(size, first, last, i - 1), Bound(size, first, last, i);
      SlicesJoin(obj, first, a, b);
    }
  }

  /** The slices of the touched chunks concatenate to the requested span, nothing more or
      less, so the advertised Content-Length is what is sent. */
  lemma SlicesTileTheSpan(size: nat, first: nat, last: nat, obj: seq<Byte>)
    requires size >= 1 && first <= last < |obj|
    ensures var body := SentSlices(size, first, last, obj, ChunkCount(size, first, last));
            body == obj[first..last + 1] && |body| == last - first + 1
  {
    SentUpTo(size, first, last, obj, ChunkCount(size, first, last));
  }

  /** With the object and one chunk together inside int64, no offset the dispatcher computes
      leaves int64. */
  lemma OffsetsFitInt64(size: nat, first: nat, last: nat, total: nat, i: nat)
    requires size >= 1 && first <= last < total && total + size <= INT64_MAX
    requires i < ChunkCount(size, first, last)
    ensures ChunkOff(size, first, i) + size - 1 <= INT64_MAX
    ensures ChunkOff(size, first, i) <= ChunkEnd(size, total, ChunkOff(size, first, i)) < total
    ensures ChunkCount(size, first, last) <= INT64_MAX
  {
    OffAtMostLast(size, first, last, i);
    QuotientAtMost(last, size);
    QuotientAtMost(first, size);
  }

  lemma QuotientAtMost(a: nat, c: nat)
    requires c >= 1
    ensures 0 <= a / c <= a
  {
  }
}
