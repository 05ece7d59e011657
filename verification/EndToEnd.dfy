/** The whole way from a Range header to the bytes of the response; and the protocol against
    serveAligned read as one thread. */
module EndToEnd {
  import opened Base
  import opened Tiling
  import opened Protocol
  import opened Invariants
  import opened Theorems
  import opened Serving
  import Range

  /** The positions that a GET with this Range header, or with none, asks for. */
  ghost predicate HeaderAsks(h: string, range: Range.ByteRange, size: nat, pos: int) {
    if h == "" then 0 <= pos < size else Range.Denotes(h, range) && Range.Asks(range, size, pos)
  }

  /** From header to body, in every run: a request without a Range header, or with one of the
      standard's grammar, that has returned without error has sent exactly the positions asked
      for, in order, each with the byte of the one resolved version. */
  lemma HeaderToBody(cfg: Config, s: State, r: nat, h: string, range: Range.ByteRange)
    requires AsWritten(cfg) && Reachable(cfg, s) && r < |s.requests|
    requires h == "" || Range.Denotes(h, range)
    requires s.requests[r].ver in cfg.objects
    requires Range.Get(h, |cfg.objects[s.requests[r].ver]|) == Range.Serve(s.requests[r].first, s.requests[r].last)
    requires s.requests[r].cons == Returned(None)
    ensures var rq := s.requests[r];
            var obj := cfg.objects[rq.ver];
            && rq.status.Success? && |rq.body| == rq.last - rq.first + 1
            && (forall pos :: HeaderAsks(h, range, |obj|, pos) <==> rq.first <= pos < rq.first + |rq.body|)
            && (forall pos {:trigger obj[pos]} :: 0 <= pos < |obj| && HeaderAsks(h, range, |obj|, pos) ==>
                  obj[pos] == rq.body[pos - rq.first])
  {
    ResponseRefinement(cfg, s, r);
    var rq := s.requests[r];
    if h == "" {
      Range.PlainGet(|cfg.objects[rq.ver]|);
    } else {
      Range.RangeResolution(h, range, |cfg.objects[rq.ver]|);
    }
    assert rq.body == cfg.objects[rq.ver][rq.first..rq.last + 1];
  }

  // ---- the protocol against one thread ----

  /** What serveAligned would have done as one thread, with these fetches and this client, is
      what the request has done: it stops at the same chunk with the same body, answer and
      status. */
  ghost predicate AsOneThread(cfg: Config, rq: Request, parts: seq<seq<Byte>>, fetched: seq<Option<seq<Byte>>>,
                              starts: seq<nat>, client: seq<Reception>)
    requires Shape(cfg, rq) && rq.cons.Returned?
  {
    && Delivered(fetched, starts, cfg.chunkSize, rq.first, rq.last, cfg.objects[rq.ver])
    && PartsOf(parts, fetched, starts, rq.first, rq.last) && |client| == |fetched| && |fetched| >= 1
    && StopsAt(parts, fetched, client, rq.served) && rq.body == Received(parts, fetched, client, rq.served)
    && (rq.cons.error.None? <==> rq.served == |fetched|)
    && (rq.cons.error.Some? ==> (fetched[rq.served].Some? <==> rq.cons.error.value.WriteError?))
    && (rq.status.Success? <==> fetched[0].Some?)
  }

  /** How many of the chunks reached the consumer's writes. */
  function Reached(rq: Request): nat
    requires rq.cons.Returned?
  {
    if rq.cons.error == Some(WriteError) then rq.served + 1 else rq.served
  }

  /** Every request that has returned, however its goroutines, other requests, evictions and
      failures were interleaved, did what one thread does that fetches and writes chunk after
      chunk: all chunks before served whole, chunk served not fetched or not written whole. */
  lemma RefinesOneThread(cfg: Config, s: State, r: nat)
    returns (parts: seq<seq<Byte>>, fetched: seq<Option<seq<Byte>>>, starts: seq<nat>, client: seq<Reception>)
    requires AsWritten(cfg) && Reachable(cfg, s) && r < |s.requests| && s.requests[r].cons.Returned?
    ensures Shape(cfg, s.requests[r]) && AsOneThread(cfg, s.requests[r], parts, fetched, starts, client)
  {
    ReachableInv(cfg, s);
    var rq := s.requests[r];
    assert RequestOk(cfg, rq);
    parts, fetched, starts, client := Witness(cfg, rq);
  }

  lemma Witness(cfg: Config, rq: Request)
    returns (parts: seq<seq<Byte>>, fetched: seq<Option<seq<Byte>>>, starts: seq<nat>, client: seq<Reception>)
    requires RequestOk(cfg, rq) && rq.cons.Returned?
    ensures AsOneThread(cfg, rq, parts, fetched, starts, client)
  {
    var size, obj := cfg.chunkSize, cfg.objects[rq.ver];
    fetched, starts := Fetches(size, rq.first, rq.last, obj, Reached(rq));
    parts := seq(|fetched|, i requires 0 <= i < |fetched| => Part(fetched, starts, rq.first, rq.last, i));
    var bounds := FindBounds(parts, fetched, starts, size, rq.first, rq.last, obj);
    client := Clients(parts, rq.served, Rest(cfg, rq));
    WitnessStops(cfg, rq, bounds, parts, fetched, client);
    WitnessBody(cfg, rq, bounds, parts, fetched, client);
  }

  /** The bytes sent of the chunk at which the request stopped. */
  function Rest(cfg: Config, rq: Request): nat
    requires Shape(cfg, rq) && rq.cons.Returned?
  {
    if rq.cons.error == Some(WriteError) && |rq.body| >= Upto(cfg, rq, rq.served)
    then |rq.body| - Upto(cfg, rq, rq.served) else 0
  }

  ghost predicate Witnesses(cfg: Config, rq: Request, bounds: seq<nat>, parts: seq<seq<Byte>>,
                            fetched: seq<Option<seq<Byte>>>, client: seq<Reception>)
    requires Shape(cfg, rq) && rq.cons.Returned?
  {
    && |parts| == |fetched| == |client| == |rq.chunks|
    && BoundsOf(bounds, parts, fetched, cfg.objects[rq.ver], rq.first, rq.last)
    && (forall i {:trigger bounds[i]} :: 0 <= i < |bounds| ==>
          bounds[i] == Bound(cfg.chunkSize, rq.first, rq.last, i))
    && (forall i :: 0 <= i < |fetched| ==> (fetched[i].Some? <==> i < Reached(rq)))
    && (forall i :: 0 <= i < |parts| ==>
          client[i] == if i < rq.served then Reception(|parts[i]|, true) else Reception(Rest(cfg, rq), false))
  }

  lemma WitnessStops(cfg: Config, rq: Request, bounds: seq<nat>, parts: seq<seq<Byte>>,
                     fetched: seq<Option<seq<Byte>>>, client: seq<Reception>)
    requires Shape(cfg, rq) && ConsOk(rq) && rq.cons.Returned? && Witnesses(cfg, rq, bounds, parts, fetched, client)
    requires rq.started <= |rq.chunks|
    ensures StopsAt(parts, fetched, client, rq.served)
  {
  }

  lemma WitnessBody(cfg: Config, rq: Request, bounds: seq<nat>, parts: seq<seq<Byte>>,
                    fetched: seq<Option<seq<Byte>>>, client: seq<Reception>)
    requires Shape(cfg, rq) && BodyOk(cfg, rq) && ConsOk(rq) && rq.cons.Returned?
    requires Witnesses(cfg, rq, bounds, parts, fetched, client) && StopsAt(parts, fetched, client, rq.served)
    ensures rq.body == Received(parts, fetched, client, rq.served)
  {
    var obj := cfg.objects[rq.ver];
    ReceivedIs(bounds, parts, fetched, client, obj, rq.first, rq.last, rq.served);
    assert bounds[rq.served] == Bound(cfg.chunkSize, rq.first, rq.last, rq.served);
    if rq.served < |parts| {
      assert bounds[rq.served + 1] == Bound(cfg.chunkSize, rq.first, rq.last, rq.served + 1);
    }
    PrefixIs(obj, rq.first, rq.last + 1, rq.body);
  }

  lemma PrefixIs(obj: seq<Byte>, a: nat, b: nat, body: seq<Byte>)
    requires a <= b <= |obj| && body <= obj[a..b]
    ensures body == obj[a..a + |body|]
  {
  }

  /** The first m chunks are fetched. */
  lemma Fetches(size: nat, first: nat, last: nat, obj: seq<Byte>, m: nat)
    returns (fetched: seq<Option<seq<Byte>>>, starts: seq<nat>)
    requires size >= 1 && first <= last && m <= ChunkCount(size, first, last)
    ensures Delivered(fetched, starts, size, first, last, obj)
    ensures forall i :: 0 <= i < |fetched| ==> (fetched[i].Some? <==> i < m)
  {
    var n := ChunkCount(size, first, last);
    starts := seq(n, i requires 0 <= i => ChunkOff(size, first, i));
    fetched := seq(n, i requires 0 <= i =>
      if i < m then Some(ChunkBytes(obj, size, ChunkOff(size, first, i))) else None);
  }

  /** A client that takes all of the first k parts, and room bytes after them without a flush. */
  lemma Clients(parts: seq<seq<Byte>>, k: nat, room: nat) returns (client: seq<Reception>)
    ensures |client| == |parts|
    ensures forall i :: 0 <= i < |parts| ==>
              client[i] == if i < k then Reception(|parts[i]|, true) else Reception(room, false)
  {
    client := seq(|parts|, i requires 0 <= i < |parts| =>
      if i < k then Reception(|parts[i]|, true) else Reception(room, false));
  }
}
