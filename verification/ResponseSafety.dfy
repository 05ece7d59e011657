/** Each step keeps the response body a prefix of the requested span, and the results in
    circulation equal to their chunks' bytes. */
module ResponseSafety {
  import opened Base
  import opened Tiling
  import opened WriteGuard
  import opened Protocol
  import opened Invariants

  lemma SpanFrame(cfg: Config, rq: Request, next: Request)
    requires SpanOk(cfg, rq)
    requires next.ver == rq.ver && next.first == rq.first && next.last == rq.last
    requires next.cons == rq.cons && next.served == rq.served && next.body == rq.body
    requires |next.chunks| == |rq.chunks|
    requires forall i :: 0 <= i < |rq.chunks| ==> next.chunks[i].id == rq.chunks[i].id
    ensures SpanOk(cfg, next)
  {
  }

  /** A result in order reads as its chunk's bytes. */
  lemma ResultContent(cfg: Config, s: State, res: Result, id: ChunkId)
    requires FlightsOk(cfg, s.fs, s.flights) && ResultOk(cfg, s.flights, s.fs, res, id) && !res.Failed?
    ensures Content(s, res) == BytesOf(cfg, id)
  {
    if Shared(res).Some? {
      assert FlightOk(cfg, s.fs, s.flights[Shared(res).value], Shared(res).value);
    }
  }

  /** The consumer's current chunk advances the response by a non-empty step. */
  lemma BoundStep(cfg: Config, rq: Request)
    requires Shape(cfg, rq) && rq.served < |rq.chunks|
    ensures Upto(cfg, rq, rq.served) < Upto(cfg, rq, rq.served + 1) <= rq.last + 1 - rq.first
    ensures rq.served + 1 == |rq.chunks| ==> Upto(cfg, rq, rq.served + 1) == rq.last + 1 - rq.first
  {
    SliceOfChunk(cfg.chunkSize, rq.first, rq.last, rq.served, cfg.objects[rq.ver]);
  }

  /** What the consumer writes for its current chunk is the next part of the span. */
  lemma CurrentSliceIs(cfg: Config, s: State, rq: Request)
    requires Shape(cfg, rq) && LinksOk(cfg, s.flights, s.fs, rq) && FlightsOk(cfg, s.fs, s.flights)
    requires HasHand(rq) && !rq.chunks[rq.served].hand.value.Failed?
    ensures Upto(cfg, rq, rq.served) < Upto(cfg, rq, rq.served + 1) <= |Span(cfg, rq)|
    ensures CurrentSlice(s, rq) == Span(cfg, rq)[Upto(cfg, rq, rq.served)..Upto(cfg, rq, rq.served + 1)]
  {
    SliceOfChunk(cfg.chunkSize, rq.first, rq.last, rq.served, cfg.objects[rq.ver]);
    assert LinkOk(cfg, s.flights, s.fs, rq, rq.served);
    ResultContent(cfg, s, rq.chunks[rq.served].hand.value, rq.chunks[rq.served].id);
    SubSlice(cfg.objects[rq.ver], rq.first, rq.last + 1, Bound(cfg.chunkSize, rq.first, rq.last, rq.served),
            Bound(cfg.chunkSize, rq.first, rq.last, rq.served + 1));
  }

  lemma WriteBody(span: seq<Byte>, body: seq<Byte>, done: nat, n: nat, lo: nat, hi: nat)
    requires BodyAt(span, Writing(done), body, lo, hi)
    requires lo <= hi <= |span| && done + n <= hi - lo
    ensures BodyAt(span, Writing(done + n), body + span[lo..hi][done..done + n], lo, hi)
  {
    SubSlice(span, lo, hi, lo + done, lo + done + n);
    assert span[..lo + done] + span[lo + done..lo + done + n] == span[..lo + done + n];
    assert body == span[..lo + done];
  }

  /** A step of the consumer as it shows in the body: lo2 and hi2 bound the next chunk. */
  lemma QuietBody(cfg: Config, s: State, rq: Request, act: ConsAct, span: seq<Byte>,
                  lo: nat, hi: nat, lo2: nat, hi2: nat)
    requires ConsEnabled(s, rq, act) && !act.KWrite? && !act.KReceive?
    requires BodyAt(span, rq.cons, rq.body, lo, hi) && hi <= |span|
    requires if act.KFreeSlot? then lo2 == hi else lo2 == lo && hi2 == hi
    requires act.KSeeCancel? ==> lo < |span|
    requires act.KFreeSlot? && rq.served + 1 >= |rq.chunks| ==> hi == |span|
    requires act.KBegin? ==> lo <= hi
    requires act.KWriteDone? ==> |CurrentSlice(s, rq)| == hi - lo
    ensures BodyAt(span, ConsNext(cfg, s, rq, act).cons, ConsNext(cfg, s, rq, act).body, lo2, hi2)
  {
  }

  lemma ReceiveBody(cfg: Config, s: State, rq: Request, span: seq<Byte>, lo: nat, hi: nat)
    requires ConsEnabled(s, rq, KReceive) && BodyAt(span, rq.cons, rq.body, lo, hi) && lo < |span|
    ensures BodyAt(span, ConsNext(cfg, s, rq, KReceive).cons, ConsNext(cfg, s, rq, KReceive).body, lo, hi)
  {
  }

  /** No consumer step renames a chunk or changes the request's span. */
  lemma ConsActShape(cfg: Config, s: State, rq: Request, act: ConsAct)
    requires Shape(cfg, rq) && ConsEnabled(s, rq, act)
    ensures var next := ConsNext(cfg, s, rq, act);
            && Shape(cfg, next) && Span(cfg, next) == Span(cfg, rq)
            && next.ver == rq.ver && next.first == rq.first && next.last == rq.last
            && next.served == if act.KFreeSlot? then rq.served + 1 else rq.served
  {
  }

  lemma WriteSpan(cfg: Config, s: State, rq: Request, n: nat)
    requires SpanOk(cfg, rq) && ControlOk(cfg.guardOn, rq) && ConsEnabled(s, rq, KWrite(n))
    requires LinksOk(cfg, s.flights, s.fs, rq) && FlightsOk(cfg, s.fs, s.flights)
    ensures SpanOk(cfg, ConsNext(cfg, s, rq, KWrite(n)))
  {
    assert ChunkOk(rq, rq.served);
    ConsActShape(cfg, s, rq, KWrite(n));
    CurrentSliceIs(cfg, s, rq);
    WriteBody(Span(cfg, rq), rq.body, rq.cons.done, n, Upto(cfg, rq, rq.served), Upto(cfg, rq, rq.served + 1));
  }

  lemma ReceiveSpan(cfg: Config, s: State, rq: Request)
    requires SpanOk(cfg, rq) && ConsOk(rq) && ConsEnabled(s, rq, KReceive)
    ensures SpanOk(cfg, ConsNext(cfg, s, rq, KReceive))
  {
    ConsActShape(cfg, s, rq, KReceive);
    BoundStep(cfg, rq);
    ReceiveBody(cfg, s, rq, Span(cfg, rq), Upto(cfg, rq, rq.served), Upto(cfg, rq, rq.served + 1));
  }

  lemma BoundStepIf(cfg: Config, rq: Request)
    requires Shape(cfg, rq)
    ensures rq.served < |rq.chunks| ==> Upto(cfg, rq, rq.served) < Upto(cfg, rq, rq.served + 1)
    ensures Upto(cfg, rq, rq.served + 1) <= |Span(cfg, rq)|
    ensures rq.served + 1 == |rq.chunks| ==> Upto(cfg, rq, rq.served + 1) == |Span(cfg, rq)|
  {
    if rq.served < |rq.chunks| {
      BoundStep(cfg, rq);
    }
  }

  lemma SliceLength(cfg: Config, s: State, rq: Request)
    requires Shape(cfg, rq) && ControlOk(cfg.guardOn, rq) && rq.cons.Writing?
    requires LinksOk(cfg, s.flights, s.fs, rq) && FlightsOk(cfg, s.fs, s.flights)
    ensures |CurrentSlice(s, rq)| == Upto(cfg, rq, rq.served + 1) - Upto(cfg, rq, rq.served)
  {
    assert ChunkOk(rq, rq.served);
    CurrentSliceIs(cfg, s, rq);
  }

  lemma StaySpan(cfg: Config, s: State, rq: Request, act: ConsAct)
    requires SpanOk(cfg, rq) && ConsOk(rq) && ConsEnabled(s, rq, act)
    requires !act.KWrite? && !act.KReceive? && !act.KFreeSlot?
    requires act.KWriteDone? ==>
      |CurrentSlice(s, rq)| == Upto(cfg, rq, rq.served + 1) - Upto(cfg, rq, rq.served)
    ensures SpanOk(cfg, ConsNext(cfg, s, rq, act))
  {
    var span, lo, hi := Span(cfg, rq), Upto(cfg, rq, rq.served), Upto(cfg, rq, rq.served + 1);
    BoundStepIf(cfg, rq);
    ConsActShape(cfg, s, rq, act);
    QuietBody(cfg, s, rq, act, span, lo, hi, lo, hi);
  }

  lemma FreeSlotSpan(cfg: Config, s: State, rq: Request)
    requires SpanOk(cfg, rq) && ConsOk(rq) && rq.started <= |rq.chunks| && ConsEnabled(s, rq, KFreeSlot)
    ensures SpanOk(cfg, ConsNext(cfg, s, rq, KFreeSlot))
  {
    var next := ConsNext(cfg, s, rq, KFreeSlot);
    BoundStepIf(cfg, rq);
    ConsActShape(cfg, s, rq, KFreeSlot);
    QuietBody(cfg, s, rq, KFreeSlot, Span(cfg, rq), Upto(cfg, rq, rq.served), Upto(cfg, rq, rq.served + 1),
              Upto(cfg, next, next.served), Upto(cfg, next, next.served + 1));
  }

  lemma StepSpan(cfg: Config, s: State, rq: Request, act: Act)
    requires SpanOk(cfg, rq) && ControlOk(cfg.guardOn, rq) && Enabled(cfg, s, rq, act)
    requires LinksOk(cfg, s.flights, s.fs, rq) && FlightsOk(cfg, s.fs, s.flights)
    ensures SpanOk(cfg, NextRequest(cfg, s, rq, act))
  {
    match act
    case Cons(k) =>
      if k.KWrite? { WriteSpan(cfg, s, rq, k.n); }
      else if k.KReceive? { ReceiveSpan(cfg, s, rq); }
      else if k.KFreeSlot? { FreeSlotSpan(cfg, s, rq); }
      else {
        if k.KWriteDone? { SliceLength(cfg, s, rq); }
        StaySpan(cfg, s, rq, k);
      }
    case _ => SpanFrame(cfg, rq, NextRequest(cfg, s, rq, act));
  }

  // ---- links to flights and files ----

  /** Flights only move forward, and what a finished flight holds does not change. */
  ghost predicate Evolves(a: Flight, b: Flight) {
    && b.id == a.id
    && (a.admitted ==> b.admitted)
    && (a.lead.Over? ==> b.lead == a.lead)
  }

  ghost predicate FlightsEvolve(a: seq<Flight>, b: seq<Flight>) {
    |a| <= |b| && forall f {:trigger b[f]} :: 0 <= f < |a| ==> Evolves(a[f], b[f])
  }

  /** Complete inodes never change. */
  ghost predicate FilesKept(a: Fs, b: Fs) {
    |a.inodes| <= |b.inodes|
    && forall n {:trigger b.inodes[n]} :: 0 <= n < |a.inodes| && a.inodes[n].writer.None? ==> b.inodes[n] == a.inodes[n]
  }

  lemma LinksSurvive(cfg: Config, s: State, flights: seq<Flight>, fs: Fs, rq: Request)
    requires LinksOk(cfg, s.flights, s.fs, rq)
    requires FlightsEvolve(s.flights, flights) && FilesKept(s.fs, fs)
    ensures LinksOk(cfg, flights, fs, rq)
  {
    forall i | 0 <= i < |rq.chunks| ensures LinkOk(cfg, flights, fs, rq, i) {
      assert LinkOk(cfg, s.flights, s.fs, rq, i);
    }
  }

  lemma ClaimIsOk(cfg: Config, s: State, f: nat, id: ChunkId, open: bool)
    requires f < |s.flights| && s.flights[f].lead.Over? && s.flights[f].id == id
    requires open ==> OpenPath(s, id).Some?
    requires FsOk(cfg, s.fs)
    ensures ResultOk(cfg, s.flights, s.fs, ClaimResult(s, f, id, open), id)
  {
  }

  lemma ChunkActLink(cfg: Config, s: State, rq: Request, i: nat, act: ChunkAct)
    requires i < |rq.chunks| && ChunkEnabled(cfg, s, rq.chunks[i], rq.cancelled, act)
    requires ChunkOk(rq, i) && LinkOk(cfg, s.flights, s.fs, rq, i) && FsOk(cfg, s.fs)
    requires act.CClaim? ==>
               s.flights[rq.chunks[i].claim.flight].admitted &&
               ResultOk(cfg, s.flights, s.fs,
                        ClaimResult(s, rq.chunks[i].claim.flight, rq.chunks[i].id, act.open), rq.chunks[i].id)
    ensures LinkOk(cfg, s.flights, s.fs, NextRequest(cfg, s, rq, OfChunk(i, act)), i)
  {
  }

  lemma ChunkActLinks(cfg: Config, s: State, rq: Request, i: nat, act: ChunkAct)
    requires ChunksOk(rq) && LinksOk(cfg, s.flights, s.fs, rq) && FsOk(cfg, s.fs)
    requires FlightsOk(cfg, s.fs, s.flights) && Enabled(cfg, s, rq, OfChunk(i, act))
    ensures LinksOk(cfg, s.flights, s.fs, NextRequest(cfg, s, rq, OfChunk(i, act)))
  {
    var next := NextRequest(cfg, s, rq, OfChunk(i, act));
    forall j | 0 <= j < |next.chunks| ensures LinkOk(cfg, s.flights, s.fs, next, j) {
      assert LinkOk(cfg, s.flights, s.fs, rq, j);
      if j == i {
        assert ChunkOk(rq, i);
        if act.CClaim? {
          var f := rq.chunks[i].claim.flight;
          assert FlightOk(cfg, s.fs, s.flights[f], f);
          ClaimIsOk(cfg, s, f, rq.chunks[i].id, act.open);
        }
        ChunkActLink(cfg, s, rq, i, act);
      }
    }
  }

  /** Starting chunk k with the request alive means that every earlier chunk is admitted, so
      no earlier flight still waits for budget. */
  lemma DispActLinks(cfg: Config, s: State, rq: Request, act: DispAct)
    requires cfg.checkCancel && ChunksOk(rq) && LinksOk(cfg, s.flights, s.fs, rq) && DispEnabled(cfg, rq, act)
    ensures LinksOk(cfg, s.flights, s.fs, DispNext(cfg, rq, act))
  {
    var next := DispNext(cfg, rq, act);
    forall j | 0 <= j < |next.chunks| ensures LinkOk(cfg, s.flights, s.fs, next, j) {
      assert ChunkOk(rq, j) && LinkOk(cfg, s.flights, s.fs, rq, j);
    }
  }

  /** What LinkOk asks of a chunk is monotone in what the chunk no longer holds. */
  lemma LinkWeaker(cfg: Config, flights: seq<Flight>, fs: Fs, rq: Request, next: Request, j: nat)
    requires j < |rq.chunks| == |next.chunks| && LinkOk(cfg, flights, fs, rq, j)
    requires next.started == rq.started && (rq.cancelled ==> next.cancelled)
    requires var c, d := rq.chunks[j], next.chunks[j];
             && d.id == c.id && d.prod == c.prod && d.claim == c.claim && d.admitted == c.admitted
             && (d.pending == c.pending || d.pending.None?)
             && (d.hand == c.hand || d.hand.None? || d.hand == c.pending)
    ensures LinkOk(cfg, flights, fs, next, j)
  {
  }

  lemma ConsActLink(cfg: Config, s: State, rq: Request, act: ConsAct, j: nat)
    requires j < |rq.chunks| && ConsEnabled(s, rq, act)
    ensures var next := ConsNext(cfg, s, rq, act);
            && |next.chunks| == |rq.chunks| && next.started == rq.started && (rq.cancelled ==> next.cancelled)
            && (var c, d := rq.chunks[j], next.chunks[j];
                && d.id == c.id && d.prod == c.prod && d.claim == c.claim && d.admitted == c.admitted
                && (d.pending == c.pending || d.pending.None?)
                && (d.hand == c.hand || d.hand.None? || d.hand == c.pending))
  {
  }

  lemma ConsActLinks(cfg: Config, s: State, rq: Request, act: ConsAct)
    requires LinksOk(cfg, s.flights, s.fs, rq) && ConsEnabled(s, rq, act)
    ensures LinksOk(cfg, s.flights, s.fs, ConsNext(cfg, s, rq, act))
  {
    var next := ConsNext(cfg, s, rq, act);
    forall j | 0 <= j < |next.chunks| ensures LinkOk(cfg, s.flights, s.fs, next, j) {
      assert j < |rq.chunks|;
      assert LinkOk(cfg, s.flights, s.fs, rq, j);
      ConsActLink(cfg, s, rq, act, j);
      LinkWeaker(cfg, s.flights, s.fs, rq, next, j);
    }
  }

  lemma StepLinks(cfg: Config, s: State, rq: Request, act: Act)
    requires cfg.checkCancel && ChunksOk(rq) && LinksOk(cfg, s.flights, s.fs, rq) && FsOk(cfg, s.fs)
    requires FlightsOk(cfg, s.fs, s.flights) && Enabled(cfg, s, rq, act)
    ensures LinksOk(cfg, s.flights, s.fs, NextRequest(cfg, s, rq, act))
  {
    match act
    case Disp(d) => DispActLinks(cfg, s, rq, d);
    case OfChunk(i, a) => ChunkActLinks(cfg, s, rq, i, a);
    case Cons(k) => ConsActLinks(cfg, s, rq, k);
    case Cancel =>
      var next := rq.(cancelled := true);
      forall j | 0 <= j < |next.chunks| ensures LinkOk(cfg, s.flights, s.fs, next, j) {
        assert LinkOk(cfg, s.flights, s.fs, rq, j);
      }
  }
}
