/** Reference counting: every step of a request accounts for the flight references it drops,
    and a flight with references left is never released. */
module References {
  import opened Base
  import opened WriteGuard
  import opened Protocol
  import opened Invariants
  import opened ResponseSafety

  lemma ChunkActRefs(cfg: Config, s: State, c: Chunk, cancelled: bool, act: ChunkAct, g: nat)
    requires ChunkEnabled(cfg, s, c, cancelled, act)
    requires c.prod.Sending? ==> c.pending.None?
    ensures ChunkRefs(ChunkNext(cfg, s, c, cancelled, act), g)
         == ChunkRefs(c, g) - One(ChunkDrops(cfg, s, c, cancelled, act) == Some(g))
  {
  }

  /** The chunk whose result a consumer step moves. */
  function Moved(rq: Request, act: ConsAct): Option<nat> {
    match act
    case KReceive => Some(rq.served)
    case KClose => Some(rq.served)
    case KClean => if rq.cons.Cleaning? then Some(rq.cons.next) else None
    case _ => None
  }

  lemma ConsActMoves(cfg: Config, s: State, rq: Request, act: ConsAct)
    requires ConsEnabled(s, rq, act)
    ensures var next, m := ConsNext(cfg, s, rq, act), Moved(rq, act);
            && (m.None? ==> next.chunks == rq.chunks && ConsDrops(s, rq, act).None?)
            && (m.Some? ==>
                  && m.value < |rq.chunks| == |next.chunks|
                  && next.chunks == rq.chunks[m.value := next.chunks[m.value]])
  {
  }

  lemma ConsActRefs(cfg: Config, s: State, rq: Request, act: ConsAct, g: nat)
    requires ConsEnabled(s, rq, act) && Moved(rq, act).Some?
    requires act.KReceive? ==> rq.chunks[rq.served].hand.None?
    ensures var m := Moved(rq, act).value;
            && m < |rq.chunks| == |ConsNext(cfg, s, rq, act).chunks|
            && ChunkRefs(ConsNext(cfg, s, rq, act).chunks[m], g)
            == ChunkRefs(rq.chunks[m], g) - One(ConsDrops(s, rq, act) == Some(g))
  {
  }

  lemma DispActRefs(cfg: Config, rq: Request, act: DispAct, g: nat)
    requires DispEnabled(cfg, rq, act) && ChunksOk(rq)
    ensures RequestRefs(DispNext(cfg, rq, act), g) == RequestRefs(rq, g)
  {
    var next := DispNext(cfg, rq, act);
    if next.chunks != rq.chunks {
      assert ChunkOk(rq, rq.started);
      SumUpdate(rq.chunks, ChunkWeight(g), rq.started, next.chunks[rq.started]);
    }
  }

  lemma ConsStepRefs(cfg: Config, s: State, rq: Request, act: ConsAct, g: nat)
    requires ControlOk(cfg.guardOn, rq) && ConsEnabled(s, rq, act)
    ensures RequestRefs(ConsNext(cfg, s, rq, act), g) == RequestRefs(rq, g) - One(ConsDrops(s, rq, act) == Some(g))
  {
    ConsActMoves(cfg, s, rq, act);
    var m := Moved(rq, act);
    if m.Some? {
      assert ChunkOk(rq, m.value);
      ConsActRefs(cfg, s, rq, act, g);
      SumUpdate(rq.chunks, ChunkWeight(g), m.value, ConsNext(cfg, s, rq, act).chunks[m.value]);
    }
  }

  /** A step drops exactly the reference it says, and takes none. */
  lemma StepRefs(cfg: Config, s: State, rq: Request, act: Act, g: nat)
    requires ControlOk(cfg.guardOn, rq) && Enabled(cfg, s, rq, act)
    ensures RequestRefs(NextRequest(cfg, s, rq, act), g)
         == RequestRefs(rq, g) - One(Dropped(cfg, s, rq, act) == Some(g))
  {
    var next := NextRequest(cfg, s, rq, act);
    match act
    case Disp(d) => DispActRefs(cfg, rq, d, g);
    case OfChunk(i, a) =>
      assert ChunkOk(rq, i);
      ChunkActRefs(cfg, s, rq.chunks[i], rq.cancelled, a, g);
      SumUpdate(rq.chunks, ChunkWeight(g), i, next.chunks[i]);
    case Cons(k) => ConsStepRefs(cfg, s, rq, k, g);
    case Cancel =>
  }

  predicate HeldBy(s: State, c: Chunk, f: nat) {
    ChunkRefs(c, f) >= 1 && f < |s.flights| && s.flights[f].lead.Over?
  }

  lemma ChunkDropIsHeld(cfg: Config, s: State, rq: Request, i: nat, act: ChunkAct)
    requires i < |rq.chunks| && LinkOk(cfg, s.flights, s.fs, rq, i)
    requires ChunkEnabled(cfg, s, rq.chunks[i], rq.cancelled, act)
    requires ChunkDrops(cfg, s, rq.chunks[i], rq.cancelled, act).Some?
    ensures HeldBy(s, rq.chunks[i], ChunkDrops(cfg, s, rq.chunks[i], rq.cancelled, act).value)
  {
  }

  lemma ConsDropIsHeld(cfg: Config, s: State, rq: Request, act: ConsAct)
    requires ConsEnabled(s, rq, act) && ConsDrops(s, rq, act).Some?
    requires Moved(rq, act).Some?
    requires var m := Moved(rq, act).value; m < |rq.chunks| && LinkOk(cfg, s.flights, s.fs, rq, m)
    ensures HeldBy(s, rq.chunks[Moved(rq, act).value], ConsDrops(s, rq, act).value)
  {
  }

  /** A dropped reference is one the chunk held, to a finished flight. */
  lemma DroppedIsHeld(cfg: Config, s: State, rq: Request, act: Act) returns (i: nat)
    requires LinksOk(cfg, s.flights, s.fs, rq) && Enabled(cfg, s, rq, act)
    requires Dropped(cfg, s, rq, act).Some?
    ensures i < |rq.chunks| && HeldBy(s, rq.chunks[i], Dropped(cfg, s, rq, act).value)
  {
    match act
    case OfChunk(k, a) =>
      i := k;
      assert LinkOk(cfg, s.flights, s.fs, rq, i);
      ChunkDropIsHeld(cfg, s, rq, i, a);
    case Cons(k) =>
      i := Moved(rq, k).value;
      assert LinkOk(cfg, s.flights, s.fs, rq, i);
      ConsDropIsHeld(cfg, s, rq, k);
  }

  lemma ChunkRefsPositive(c: Chunk, f: nat)
    ensures ChunkRefs(c, f) >= 0
  {
  }

  lemma RequestRefsPositive(rq: Request, f: nat)
    ensures RequestRefs(rq, f) >= 0
  {
    forall k | 0 <= k < |rq.chunks| ensures ChunkWeight(f)(rq.chunks[k]) >= 0 {
      ChunkRefsPositive(rq.chunks[k], f);
    }
    SumNonNegative(rq.chunks, ChunkWeight(f));
  }

  /** One chunk's reference is among all the references. */
  lemma RefsCover(s: State, r: nat, i: nat, f: nat)
    requires r < |s.requests| && i < |s.requests[r].chunks|
    ensures 0 <= ChunkRefs(s.requests[r].chunks[i], f) <= Refs(s, f)
  {
    var rq := s.requests[r];
    forall k | 0 <= k < |rq.chunks| ensures ChunkWeight(f)(rq.chunks[k]) >= 0 {
      ChunkRefsPositive(rq.chunks[k], f);
    }
    SumMember(rq.chunks, ChunkWeight(f), i);
    forall k | 0 <= k < |s.requests| ensures RequestWeight(f)(s.requests[k]) >= 0 {
      RequestRefsPositive(s.requests[k], f);
    }
    SumMember(s.requests, RequestWeight(f), r);
  }

  /** If a flight is referenced, some chunk references it. */
  lemma RefsWitness(s: State, f: nat) returns (r: nat, i: nat)
    requires Refs(s, f) > 0
    ensures r < |s.requests| && i < |s.requests[r].chunks| && ChunkRefs(s.requests[r].chunks[i], f) > 0
  {
    r := SumPositive(s.requests, RequestWeight(f));
    i := SumPositive(s.requests[r].chunks, ChunkWeight(f));
  }

  // ---- dropping a reference, seen from the flight ----

  lemma UnrefKeeps(cfg: Config, fs: Fs, fl: Flight, f: nat)
    requires FlightOk(cfg, fs, fl, f) && fl.lead.Over? && fl.refs >= 1
    ensures FlightOk(cfg, fs, Unref(fl), f) && Evolves(fl, Unref(fl))
    ensures HoldsUnit(Unref(fl)) == HoldsUnit(fl) && HoldsBytes(Unref(fl)) == HoldsBytes(fl)
  {
  }

  lemma FlightsUpdate(cfg: Config, fs: Fs, flights: seq<Flight>, f: nat, fl: Flight)
    requires FlightsOk(cfg, fs, flights) && f < |flights| && FlightOk(cfg, fs, fl, f)
    ensures FlightsOk(cfg, fs, flights[f := fl])
  {
  }

  lemma DropKeepsFlights(cfg: Config, s: State, f: nat)
    requires FlightsOk(cfg, s.fs, s.flights)
    requires f < |s.flights| && s.flights[f].lead.Over? && s.flights[f].refs >= 1
    ensures var flights := DropFlight(s.flights, Some(f));
            FlightsOk(cfg, s.fs, flights) && FlightsEvolve(s.flights, flights)
  {
    var fl := s.flights[f];
    assert FlightOk(cfg, s.fs, fl, f);
    UnrefKeeps(cfg, s.fs, fl, f);
    FlightsUpdate(cfg, s.fs, s.flights, f, Unref(fl));
  }

  lemma DropKeepsBudget(cfg: Config, s: State, f: nat)
    requires BudgetOk(cfg, s) && SfOk(s)
    requires f < |s.flights| && FlightOk(cfg, s.fs, s.flights[f], f)
    requires s.flights[f].lead.Over? && s.flights[f].refs >= 1
    ensures var next := s.(flights := DropFlight(s.flights, Some(f))); BudgetOk(cfg, next) && SfOk(next)
  {
    var fl := s.flights[f];
    UnrefKeeps(cfg, s.fs, fl, f);
    SumUpdate(s.flights, UnitWeight, f, Unref(fl));
    SumUpdate(s.flights, ByteWeight, f, Unref(fl));
  }
}
