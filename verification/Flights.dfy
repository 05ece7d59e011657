/** The objects behind the protocol's flights: singleflight's group of calls, the
    reference-counted chunkFlight that a call publishes, and the chunkResults made of it. */
module Flights {
  import opened Base
  import opened Tiling
  import opened Protocol

  /** A finished fetch: an error; a cache file, with what its pinned handle reads; or a
      buffer. */
  datatype Fetched = FetchFailed | InFile(bytes: seq<Byte>) | InBuffer(bytes: seq<Byte>)

  // ---- the flight ----

  /** unclaimed: callers that joined and have not claimed; holders: results not closed that
      read shared state. */
  class ChunkFlight {
    const out: Fetched
    var refs: int
    var frees: nat
    ghost var unclaimed: nat
    ghost var holders: set<ChunkResult>

    /** What finish publishes, with one reference for each caller. */
    constructor Publish(out: Fetched, waiters: nat)
      requires waiters >= 1
      ensures Valid() && this.out == out && unclaimed == waiters && holders == {}
    {
      this.out, refs, frees := out, waiters, 0;
      unclaimed, holders := waiters, {};
    }

    /** The count is exact, and free has run exactly if nobody is left. */
    ghost predicate Valid()
      reads this
    {
      refs == unclaimed + |holders| && frees == if refs == 0 then 1 else 0
    }

    method Unref()
      requires refs >= 1 && frees == 0
      modifies this`refs, this`frees
      ensures refs == old(refs) - 1 && frees == if refs == 0 then 1 else 0
    {
      refs := refs - 1;
      if refs == 0 {
        frees := frees + 1;
      }
    }

    /** claim: an error or a private handle on the cache file drops the caller's reference now;
        the buffer, or the pinned handle when the path no longer opens, carries it. */
    method Claim(chunkStart: nat, reopened: Option<seq<Byte>>) returns (cr: ChunkResult)
      requires Valid() && unclaimed > 0
      modifies this
      ensures Valid() && fresh(cr) && unclaimed == old(unclaimed) - 1 && cr.chunkStart == chunkStart
      ensures cr.done == if out.InBuffer? || (out.InFile? && reopened.None?) then this else null
      ensures cr.bytes == match out
                          case FetchFailed => None
                          case InBuffer(bytes) => Some(bytes)
                          case InFile(bytes) => if reopened.Some? then reopened else Some(bytes)
      ensures holders == if cr.done == null then old(holders) else old(holders) + {cr}
    {
      match out {
        case FetchFailed =>
          Unref();
          cr := new ChunkResult(None, chunkStart, null);
        case InBuffer(bytes) =>
          cr := new ChunkResult(Some(bytes), chunkStart, this);
          holders := holders + {cr};
        case InFile(bytes) =>
          if reopened.Some? {
            Unref();
            cr := new ChunkResult(reopened, chunkStart, null);
          } else {
            cr := new ChunkResult(Some(bytes), chunkStart, this);
            holders := holders + {cr};
          }
      }
      unclaimed := unclaimed - 1;
    }
  }

  /** The client's end of the response. */
  class Client {
    var received: seq<Byte>

    constructor ()
      ensures received == []
    {
      received := [];
    }

    /** Takes some of the bytes offered; fewer than all of them is an error. */
    method Take(bytes: seq<Byte>, n: nat)
      requires n <= |bytes|
      modifies this
      ensures received == old(received) + bytes[..n]
    {
      received := received + bytes[..n];
    }
  }

  /** bytes: what the handle, section or buffer reads, until it is closed; done: the flight
      whose reference the result carries. */
  class ChunkResult {
    const chunkStart: nat
    var bytes: Option<seq<Byte>>
    var done: ChunkFlight?

    constructor (bytes: Option<seq<Byte>>, chunkStart: nat, done: ChunkFlight?)
      ensures this.bytes == bytes && this.chunkStart == chunkStart && this.done == done
    {
      this.bytes, this.chunkStart, this.done := bytes, chunkStart, done;
    }

    ghost predicate Valid()
      reads this, if done == null then {} else {done}
    {
      done != null ==> done.Valid() && this in done.holders
    }

    /** Drops the reference it carries; closing again would drop nothing. */
    method Close()
      requires Valid()
      modifies this, if done == null then {} else {done}
      ensures Valid() && bytes == None && done == null
      ensures old(done) != null ==>
        var fl := old(done);
        && fl.Valid() && fl.holders == old(fl.holders) - {this} && fl.unclaimed == old(fl.unclaimed)
        && (fl.frees == 1 <==> fl.unclaimed == 0 && fl.holders == {})
    {
      bytes := None;
      if done != null {
        var fl := done;
        assert |fl.holders| == |fl.holders - {this}| + 1;
        fl.Unref();
        fl.holders := fl.holders - {this};
        done := null;
      }
    }

    /** writeSlice to a client that takes at most room bytes. */
    method WriteSlice(w: Client, reqFirst: nat, reqLast: nat, room: nat) returns (ok: bool)
      requires bytes.Some?
      modifies w
      ensures var slice := Slice(bytes.value, chunkStart, reqFirst, reqLast);
              && w.received == old(w.received) + slice[..Min(room, |slice|)]
              && (ok <==> |slice| <= room)
    {
      var size := |bytes.value|;
      var chunkEnd := chunkStart + size - 1;
      var lo := 0;
      if reqFirst > chunkStart {
        lo := reqFirst - chunkStart;
      }
      var hi: int := size;
      if reqLast < chunkEnd {
        hi := reqLast - chunkStart + 1;
      }
      if lo >= hi {
        assert w.received == w.received + [];
        return true;
      }
      w.Take(bytes.value[lo..hi], Min(room, hi - lo));
      return hi - lo <= room;
    }
  }

  // ---- the group ----

  class Call {
    var admitted: bool
    var done: bool
    var waiters: nat
    var res: ChunkFlight?

    constructor ()
      ensures waiters == 1 && !admitted && !done && res == null
    {
      admitted, done, waiters, res := false, false, 1, null;
    }

    method Admit()
      modifies this`admitted
      ensures admitted
    {
      admitted := true;
    }
  }

  class Group {
    var m: map<ChunkId, Call>

    constructor ()
      ensures Valid() && m == map[]
    {
      m := map[];
    }

    /** One unfinished call for each key, each with at least its leader waiting. */
    ghost predicate Valid()
      reads this, m.Values
    {
      && (forall id :: id in m ==> !m[id].done && m[id].waiters >= 1)
      && (forall a, b :: a in m && b in m && m[a] == m[b] ==> a == b)
    }

    method Join(id: ChunkId) returns (c: Call, leader: bool)
      requires Valid()
      modifies this, m.Values
      ensures Valid() && id in m && m[id] == c
      ensures leader <==> id !in old(m)
      ensures leader ==> fresh(c) && c.waiters == 1 && m == old(m)[id := c]
      ensures !leader ==> m == old(m) && c.waiters == old(m[id].waiters) + 1
      ensures forall other :: other in old(m) && other != id ==> m[other].waiters == old(m[other].waiters)
    {
      if id in m {
        c := m[id];
        c.waiters := c.waiters + 1;
        return c, false;
      }
      c := new Call();
      m := m[id := c];
      leader := true;
    }

    /** Ends the joining, then publishes: the flight has exactly the callers' references. */
    method Finish(id: ChunkId, c: Call, out: Fetched) returns (fl: ChunkFlight)
      requires Valid() && id in m && m[id] == c
      modifies this, c
      ensures Valid() && m == old(m) - {id} && c !in m.Values
      ensures c.admitted && c.done && c.res == fl && fresh(fl)
      ensures fl.Valid() && fl.out == out && fl.unclaimed == old(c.waiters) && fl.holders == {} && fl.frees == 0
    {
      m := m - {id};
      fl := new ChunkFlight.Publish(out, c.waiters);
      c.Admit();
      c.res := fl;
      c.done := true;
    }
  }

  /** Whether a caller's result reads what the flight shares. */
  predicate Carries(out: Fetched, reopened: Option<seq<Byte>>) {
    out.InBuffer? || (out.InFile? && reopened.None?)
  }

  function Carrying(results: seq<ChunkResult>, out: Fetched, reopened: seq<Option<seq<Byte>>>, i: nat): set<ChunkResult>
    requires i <= |results| <= |reopened|
  {
    set j | i <= j < |results| && Carries(out, reopened[j]) :: results[j]
  }

  /** As many callers as reopened has entries join a call and claim its flight, and then close
      their results one by one. frees[i] is how often the flight has been released when i of
      them have closed: once as soon as, and never before, no result that is still open reads
      what it shares. */
  method ShareOnce(id: ChunkId, out: Fetched, reopened: seq<Option<seq<Byte>>>)
    returns (fl: ChunkFlight, ghost frees: seq<nat>)
    requires reopened != []
    ensures fl.Valid() && fl.unclaimed == 0 && fl.holders == {} && |frees| == |reopened| + 1
    ensures forall i :: 0 <= i < |frees| ==>
              frees[i] == if exists j :: i <= j < |reopened| && Carries(out, reopened[j]) then 0 else 1
  {
    var g := new Group();
    var c, leader := g.Join(id);
    var i := 1;
    while i < |reopened|
      invariant 1 <= i <= |reopened|
      invariant g.Valid() && id in g.m && g.m[id] == c && c.waiters == i && fresh(g) && fresh(c)
      invariant g.m.Keys == {id}
    {
      var other, follows := g.Join(id);
      i := i + 1;
    }
    fl := g.Finish(id, c, out);
    var results := ClaimAll(fl, reopened);
    frees := CloseAll(fl, results, reopened);
  }

  method ClaimAll(fl: ChunkFlight, reopened: seq<Option<seq<Byte>>>) returns (results: seq<ChunkResult>)
    requires fl.Valid() && fl.unclaimed == |reopened| && fl.holders == {}
    modifies fl
    ensures |results| == |reopened| && fl.Valid() && fl.unclaimed == 0
    ensures forall j :: 0 <= j < |results| ==> fresh(results[j])
    ensures Delivered(fl, results, reopened, 0)
  {
    results := [];
    while |results| < |reopened|
      invariant |results| <= |reopened| && fl.Valid() && fl.unclaimed == |reopened| - |results|
      invariant forall j :: 0 <= j < |results| ==> fresh(results[j])
      invariant Delivered(fl, results, reopened, 0)
      decreases |reopened| - |results|
    {
      results := ClaimOne(fl, results, reopened);
    }
  }

  method ClaimOne(fl: ChunkFlight, results: seq<ChunkResult>, reopened: seq<Option<seq<Byte>>>)
    returns (more: seq<ChunkResult>)
    requires |results| < |reopened| && fl.Valid() && fl.unclaimed > 0 && Delivered(fl, results, reopened, 0)
    modifies fl
    ensures fl.Valid() && fl.unclaimed == old(fl.unclaimed) - 1
    ensures |more| == |results| + 1 && more[..|results|] == results && fresh(more[|results|])
    ensures Delivered(fl, more, reopened, 0)
  {
    ghost var n, before := |results|, Carrying(results, fl.out, reopened, 0);
    var cr := fl.Claim(0, reopened[|results|]);
    more := results + [cr];
    assert forall j :: 0 <= j < n ==> more[j] == results[j];
    CarryingMore(results, more, fl.out, reopened);
  }

  lemma CarryingMore(results: seq<ChunkResult>, more: seq<ChunkResult>, out: Fetched, reopened: seq<Option<seq<Byte>>>)
    requires |more| == |results| + 1 <= |reopened| && more[..|results|] == results
    ensures Carrying(more, out, reopened, 0)
         == Carrying(results, out, reopened, 0) + if Carries(out, reopened[|results|]) then {more[|results|]} else {}
  {
    assert forall j :: 0 <= j < |results| ==> more[j] == results[j];
  }

  /** The results from i on are open and carry what they should; they are all that reads the
      flight. */
  ghost predicate Delivered(fl: ChunkFlight, results: seq<ChunkResult>, reopened: seq<Option<seq<Byte>>>, i: nat)
    requires i <= |results| <= |reopened|
    reads fl, results
  {
    && fl.holders == Carrying(results, fl.out, reopened, i)
    && (forall j :: i <= j < |results| ==> results[j].done == if Carries(fl.out, reopened[j]) then fl else null)
    && (forall j, k :: 0 <= j < k < |results| ==> results[j] != results[k])
  }

  method CloseAll(fl: ChunkFlight, results: seq<ChunkResult>, reopened: seq<Option<seq<Byte>>>)
    returns (ghost frees: seq<nat>)
    requires |results| == |reopened| && fl.Valid() && fl.unclaimed == 0 && Delivered(fl, results, reopened, 0)
    modifies fl, results
    ensures fl.Valid() && fl.unclaimed == 0 && fl.holders == {} && |frees| == |reopened| + 1
    ensures forall i :: 0 <= i < |frees| ==>
              frees[i] == if exists j :: i <= j < |reopened| && Carries(fl.out, reopened[j]) then 0 else 1
  {
    frees := [];
    var i := 0;
    while i < |results|
      invariant 0 <= i <= |results| == |reopened| && |frees| == i
      invariant fl.Valid() && fl.unclaimed == 0 && Delivered(fl, results, reopened, i)
      invariant forall k :: 0 <= k < i ==>
                  frees[k] == if exists j :: k <= j < |reopened| && Carries(fl.out, reopened[j]) then 0 else 1
    {
      ghost var holders := fl.holders;
      FreedWhenNone(fl, results, reopened, i);
      frees := frees + [fl.frees];
      CloseOne(fl, results, reopened, i);
      i := i + 1;
    }
    FreedWhenNone(fl, results, reopened, i);
    frees := frees + [fl.frees];
  }

  lemma FreedWhenNone(fl: ChunkFlight, results: seq<ChunkResult>, reopened: seq<Option<seq<Byte>>>, i: nat)
    requires i <= |results| == |reopened| && fl.Valid() && fl.unclaimed == 0 && Delivered(fl, results, reopened, i)
    ensures fl.frees == if exists j :: i <= j < |reopened| && Carries(fl.out, reopened[j]) then 0 else 1
    ensures i == |results| ==> fl.holders == {}
  {
    if j :| i <= j < |reopened| && Carries(fl.out, reopened[j]) {
      assert results[j] in fl.holders;
    } else {
      assert fl.holders == {};
    }
  }

  method CloseOne(fl: ChunkFlight, results: seq<ChunkResult>, reopened: seq<Option<seq<Byte>>>, i: nat)
    requires i < |results| == |reopened| && fl.Valid() && fl.unclaimed == 0 && Delivered(fl, results, reopened, i)
    modifies fl, results[i]
    ensures fl.Valid() && fl.unclaimed == 0 && Delivered(fl, results, reopened, i + 1)
  {
    assert Carrying(results, fl.out, reopened, i + 1) == Carrying(results, fl.out, reopened, i) - {results[i]};
    results[i].Close();
  }
}
