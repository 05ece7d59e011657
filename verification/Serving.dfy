/** serveAligned read as one thread: the consumer's loop over the fetched chunks. */
module Serving {
  import opened Base
  import opened Tiling
  import opened Flights

  /** parts[k] is what writeSlice sends of chunk k, wherever its fetch succeeded. */
  ghost predicate PartsOf(parts: seq<seq<Byte>>, fetched: seq<Option<seq<Byte>>>, starts: seq<nat>,
                          first: nat, last: nat)
  {
    && |parts| == |fetched| == |starts|
    && forall k {:trigger Part(fetched, starts, first, last, k)} :: 0 <= k < |parts| ==>
         parts[k] == Part(fetched, starts, first, last, k)
  }

  function Part(fetched: seq<Option<seq<Byte>>>, starts: seq<nat>, first: nat, last: nat, k: nat): seq<Byte>
    requires k < |fetched| == |starts|
  {
    if fetched[k].Some? then Slice(fetched[k].value, starts[k], first, last) else []
  }

  /** The first k parts, one after another. */
  function Joined(parts: seq<seq<Byte>>, k: nat): seq<Byte>
    requires k <= |parts|
  {
    if k == 0 then [] else Joined(parts, k - 1) + parts[k - 1]
  }

  /** How a client behaves on one chunk: how many bytes of it it takes, and whether the flush
      after them goes through. */
  datatype Reception = Reception(room: nat, flushed: bool)

  /** Chunk k was fetched, and the client takes all of its part. */
  predicate Whole(parts: seq<seq<Byte>>, fetched: seq<Option<seq<Byte>>>, client: seq<Reception>, k: nat)
    requires k < |parts| == |fetched| == |client|
  {
    fetched[k].Some? && |parts[k]| <= client[k].room && client[k].flushed
  }

  /** What the client takes of chunk k. */
  function Taken(parts: seq<seq<Byte>>, client: seq<Reception>, k: nat): seq<Byte>
    requires k < |parts| == |client|
  {
    if |parts[k]| <= client[k].room then parts[k] else parts[k][..client[k].room]
  }

  /** The response after served whole chunks and what the client takes of the next. */
  function Received(parts: seq<seq<Byte>>, fetched: seq<Option<seq<Byte>>>, client: seq<Reception>, served: nat)
    : seq<Byte>
    requires served <= |parts| == |fetched| == |client|
  {
    Joined(parts, served)
    + if served < |parts| && fetched[served].Some? then Taken(parts, client, served) else []
  }

  /** The loop ends at the first chunk that is not fetched, not taken whole or not flushed. */
  ghost predicate StopsAt(parts: seq<seq<Byte>>, fetched: seq<Option<seq<Byte>>>, client: seq<Reception>, served: nat)
    requires |parts| == |fetched| == |client|
  {
    && served <= |parts|
    && (forall k :: 0 <= k < served ==> Whole(parts, fetched, client, k))
    && (served < |parts| ==> !Whole(parts, fetched, client, served))
  }

  /** writeChunk, and the close after it. */
  method SendOne(ghost parts: seq<seq<Byte>>, fetched: seq<Option<seq<Byte>>>, starts: seq<nat>, i: nat,
                 first: nat, last: nat, client: seq<Reception>, w: Client)
    returns (ok: bool)
    requires PartsOf(parts, fetched, starts, first, last) && i < |fetched| == |client| && fetched[i].Some?
    modifies w
    ensures ok <==> Whole(parts, fetched, client, i)
    ensures w.received == old(w.received) + Taken(parts, client, i)
  {
    assert parts[i] == Part(fetched, starts, first, last, i);
    var res := new ChunkResult(fetched[i], starts[i], null);
    ok := res.WriteSlice(w, first, last, client[i].room);
    if ok {
      ok := client[i].flushed;
    }
    res.Close();
  }

  /** The consumer's loop: whole parts in order, up to the first failed fetch, short write or
      failed flush, and nothing after. */
  method SendAll(ghost parts: seq<seq<Byte>>, fetched: seq<Option<seq<Byte>>>, starts: seq<nat>,
                 first: nat, last: nat, client: seq<Reception>, w: Client)
    returns (served: nat)
    requires PartsOf(parts, fetched, starts, first, last) && |fetched| == |client| && w.received == []
    modifies w
    ensures StopsAt(parts, fetched, client, served)
    ensures w.received == Received(parts, fetched, client, served)
  {
    served := 0;
    while served < |fetched|
      invariant served <= |fetched|
      invariant w.received == Joined(parts, served)
      invariant forall k :: 0 <= k < served ==> Whole(parts, fetched, client, k)
    {
      if fetched[served].None? {
        return;
      }
      var written := SendOne(parts, fetched, starts, served, first, last, client, w);
      if !written {
        return;
      }
      served := served + 1;
    }
  }

  /** What the fetches delivered are the chunks' bytes. */
  ghost predicate Delivered(fetched: seq<Option<seq<Byte>>>, starts: seq<nat>, size: nat, first: nat, last: nat,
                            obj: seq<Byte>)
    requires size >= 1 && first <= last
  {
    && |fetched| == |starts| == ChunkCount(size, first, last)
    && (forall i :: 0 <= i < |fetched| ==> starts[i] == ChunkOff(size, first, i))
    && (forall i :: 0 <= i < |fetched| && fetched[i].Some? ==> fetched[i].value == ChunkBytes(obj, size, starts[i]))
  }

  /** Part i lies between two consecutive bounds. */
  predicate PartAt(bounds: seq<nat>, parts: seq<seq<Byte>>, fetched: seq<Option<seq<Byte>>>, obj: seq<Byte>, i: nat)
    requires i < |parts| == |fetched| < |bounds|
  {
    bounds[i] < bounds[i + 1] <= |obj| && (fetched[i].Some? ==> parts[i] == obj[bounds[i]..bounds[i + 1]])
  }

  /** Bounds of the span's parts. */
  ghost predicate BoundsOf(bounds: seq<nat>, parts: seq<seq<Byte>>, fetched: seq<Option<seq<Byte>>>, obj: seq<Byte>,
                           first: nat, last: nat)
  {
    && |bounds| == |parts| + 1 == |fetched| + 1 && bounds[0] == first && bounds[|parts|] == last + 1
    && last < |obj| && (forall i {:trigger bounds[i]} :: 0 <= i < |bounds| ==> first <= bounds[i] <= last + 1)
    && (forall i {:trigger PartAt(bounds, parts, fetched, obj, i)} :: 0 <= i < |parts| ==>
          PartAt(bounds, parts, fetched, obj, i))
  }

  lemma OnePart(fetched: seq<Option<seq<Byte>>>, starts: seq<nat>, size: nat, first: nat, last: nat,
                obj: seq<Byte>, i: nat, a: nat, b: nat)
    requires size >= 1 && first <= last < |obj| && Delivered(fetched, starts, size, first, last, obj)
    requires i < |fetched| && a == Bound(size, first, last, i) && b == Bound(size, first, last, i + 1)
    ensures first <= a < b <= last + 1
    ensures fetched[i].Some? ==> Part(fetched, starts, first, last, i) == obj[a..b]
  {
    SliceOfChunk(size, first, last, i, obj);
  }

  lemma AllBounds(size: nat, first: nat, last: nat, n: nat) returns (bounds: seq<nat>)
    requires size >= 1 && first <= last && n == ChunkCount(size, first, last)
    ensures |bounds| == n + 1 && bounds[0] == first && bounds[n] == last + 1
    ensures forall i {:trigger bounds[i]} :: 0 <= i <= n ==> bounds[i] == Bound(size, first, last, i)
    ensures forall i {:trigger bounds[i]} :: 0 <= i <= n ==> first <= bounds[i] <= last + 1
  {
    bounds := seq(n + 1, i requires 0 <= i => Bound(size, first, last, i));
  }

  lemma FindBounds(parts: seq<seq<Byte>>, fetched: seq<Option<seq<Byte>>>, starts: seq<nat>, size: nat,
                   first: nat, last: nat, obj: seq<Byte>)
    returns (bounds: seq<nat>)
    requires size >= 1 && first <= last < |obj| && Delivered(fetched, starts, size, first, last, obj)
    requires PartsOf(parts, fetched, starts, first, last)
    ensures BoundsOf(bounds, parts, fetched, obj, first, last)
    ensures forall i {:trigger bounds[i]} :: 0 <= i <= |parts| ==> bounds[i] == Bound(size, first, last, i)
  {
    bounds := AllBounds(size, first, last, |parts|);
    forall i | 0 <= i < |parts| ensures PartAt(bounds, parts, fetched, obj, i) {
      OnePart(fetched, starts, size, first, last, obj, i, bounds[i], bounds[i + 1]);
      assert parts[i] == Part(fetched, starts, first, last, i);
    }
  }

  /** The first k parts are the span's bytes up to where part k begins. */
  lemma {:induction false} PartsTile(bounds: seq<nat>, parts: seq<seq<Byte>>, fetched: seq<Option<seq<Byte>>>,
                                     obj: seq<Byte>, first: nat, last: nat, k: nat)
    requires BoundsOf(bounds, parts, fetched, obj, first, last)
    requires k <= |parts| && forall i :: 0 <= i < k ==> fetched[i].Some?
    ensures Joined(parts, k) == obj[first..bounds[k]]
  {
    if k > 0 {
      PartsTile(bounds, parts, fetched, obj, first, last, k - 1);
      assert PartAt(bounds, parts, fetched, obj, k - 1);
      SlicesJoin(obj, first, bounds[k - 1], bounds[k]);
    }
  }

  lemma JoinTaken(obj: seq<Byte>, a: nat, b: nat, c: nat, n: nat)
    requires a <= b <= c <= |obj| && n < c - b
    ensures obj[a..b] + obj[b..c][..n] == obj[a..b + n]
  {
  }

  lemma ShortPart(obj: seq<Byte>, first: nat, lo: nat, hi: nat, room: nat)
    requires first <= lo < hi <= |obj|
    ensures var part := obj[lo..hi];
            obj[first..lo] + (if |part| <= room then part else part[..room]) == obj[first..lo + Min(room, hi - lo)]
  {
    if room < hi - lo {
      JoinTaken(obj, first, lo, hi, room);
    } else {
      SlicesJoin(obj, first, lo, hi);
    }
  }

  /** The response, as far as it goes, in terms of the object: whole chunks up to a bound, and
      what the client takes of the next. */
  lemma ReceivedIs(bounds: seq<nat>, parts: seq<seq<Byte>>, fetched: seq<Option<seq<Byte>>>, client: seq<Reception>,
                   obj: seq<Byte>, first: nat, last: nat, k: nat)
    requires BoundsOf(bounds, parts, fetched, obj, first, last) && k <= |parts| == |client|
    requires StopsAt(parts, fetched, client, k)
    ensures first <= bounds[k] <= last + 1 && (k < |parts| ==> bounds[k] < bounds[k + 1] <= last + 1)
    ensures Received(parts, fetched, client, k)
         == obj[first..bounds[k] + if k < |parts| && fetched[k].Some?
                                   then Min(client[k].room, bounds[k + 1] - bounds[k]) else 0]
  {
    forall i | 0 <= i < k ensures fetched[i].Some? {
      assert Whole(parts, fetched, client, i);
    }
    PartsTile(bounds, parts, fetched, obj, first, last, k);
    if k < |parts| {
      assert PartAt(bounds, parts, fetched, obj, k);
      if fetched[k].Some? {
        ShortPart(obj, first, bounds[k], bounds[k + 1], client[k].room);
      }
    }
  }

  /** serveAligned as one thread, when chunk i's fetch yields fetched[i] and the client behaves as
      client[i] says: the response is the whole span when nothing fails; otherwise it is a
      prefix of it, and the whole only if the last flush is what failed. Success is announced
      exactly when chunk 0 arrives. */
  method ServeAligned(ghost parts: seq<seq<Byte>>, fetched: seq<Option<seq<Byte>>>, starts: seq<nat>, size: nat,
                      first: nat, last: nat, client: seq<Reception>, w: Client, ghost obj: seq<Byte>)
    returns (ok: bool, success: bool, ghost served: nat)
    requires size >= 1 && first <= last < |obj| && Delivered(fetched, starts, size, first, last, obj)
    requires PartsOf(parts, fetched, starts, first, last) && |client| == |fetched| && w.received == []
    modifies w
    ensures StopsAt(parts, fetched, client, served) && w.received == Received(parts, fetched, client, served)
    ensures |fetched| >= 1 && success == fetched[0].Some? && (ok <==> served == |fetched|)
    ensures ok <==> forall k :: 0 <= k < |fetched| ==>
              fetched[k].Some? && |parts[k]| <= client[k].room && client[k].flushed
    ensures w.received <= obj[first..last + 1]
    ensures ok ==> w.received == obj[first..last + 1]
    ensures !ok && w.received == obj[first..last + 1] ==> !client[|client| - 1].flushed
  {
    ChunkLayout(size, first, last);
    ghost var bounds := FindBounds(parts, fetched, starts, size, first, last, obj);
    if fetched[0].None? {
      assert !Whole(parts, fetched, client, 0);
      ReceivedIs(bounds, parts, fetched, client, obj, first, last, 0);
      return false, false, 0;
    }
    var n := SendAll(parts, fetched, starts, first, last, client, w);
    ReceivedIs(bounds, parts, fetched, client, obj, first, last, n);
    if n < |fetched| && w.received == obj[first..last + 1] {
      OnlyLastFlush(bounds, parts, fetched, client, obj, first, last, n);
    }
    if n == |fetched| {
      forall k | 0 <= k < |fetched|
        ensures fetched[k].Some? && |parts[k]| <= client[k].room && client[k].flushed
      {
        assert Whole(parts, fetched, client, k);
      }
    } else {
      assert !(fetched[n].Some? && |parts[n]| <= client[n].room && client[n].flushed);
    }
    return n == |fetched|, true, n;
  }

  lemma OnlyLastFlush(bounds: seq<nat>, parts: seq<seq<Byte>>, fetched: seq<Option<seq<Byte>>>,
                      client: seq<Reception>, obj: seq<Byte>, first: nat, last: nat, k: nat)
    requires BoundsOf(bounds, parts, fetched, obj, first, last) && k < |parts| == |client|
    requires StopsAt(parts, fetched, client, k) && Received(parts, fetched, client, k) == obj[first..last + 1]
    ensures k + 1 == |parts| && !client[k].flushed
  {
    ReceivedIs(bounds, parts, fetched, client, obj, first, last, k);
    assert PartAt(bounds, parts, fetched, obj, k);
    if k + 1 < |parts| {
      BoundBelow(bounds, parts, fetched, obj, first, last, k + 1);
      assert false;
    }
  }

  lemma BoundBelow(bounds: seq<nat>, parts: seq<seq<Byte>>, fetched: seq<Option<seq<Byte>>>, obj: seq<Byte>,
                   first: nat, last: nat, i: nat)
    requires BoundsOf(bounds, parts, fetched, obj, first, last) && i < |parts|
    ensures bounds[i] <= last
  {
    assert PartAt(bounds, parts, fetched, obj, i);
  }
}
