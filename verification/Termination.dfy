/** Every step of the running system uses up part of a bounded measure, so a set of requests
    cannot keep the system busy for ever. */
module Termination {
  import opened Base
  import opened Tiling
  import opened WriteGuard
  import opened Protocol
  import opened Invariants
  import opened RequestSafety
  import opened ResponseSafety
  import opened References
  import opened FlightSafety
  import opened Progress

  function LeadLeft(fl: Flight): int {
    match fl.lead
    case Queued => fl.size + 20
    case Acquired => fl.size + 19
    case Admitted => fl.size + 18
    case Loading => fl.size + 17
    case Loaded => fl.size + 16
    case Temp(_, done) => fl.size - done + 15
    case ReleaseBytes(_) => 14
    case ReleaseUnit(_) => 13
    case Finishing(_) => 12
    case Publishing(_) => 11
    case Closing'(_) => 10
    case Over(_) => 0
  }

  function FreeLeft(fl: Flight): int {
    match fl.free
    case Held => 3
    case FreeBytes => 2
    case FreeUnit => 1
    case Freed => 0
  }

  function FlightLeft(fl: Flight): int { LeadLeft(fl) + FreeLeft(fl) }

  function ProducerLeft(newFlight: nat, p: Producer): int {
    match p
    case NotStarted => newFlight + 12
    case Looking => newFlight + 11
    case Joining => newFlight + 10
    case AwaitAdmit(_) => 5
    case AwaitResult(_) => 4
    case Holding(_) => 3
    case Sending(_) => 2
    case Sent => 0
  }

  function ClaimerLeft(c: Claimer): int {
    match c
    case NoClaim => 0
    case AwaitDone(_) => 3
    case Offering(_) => 2
    case Settled => 0
  }

  /** A chunk that has not joined may still create a flight. */
  function ChunkLeft(newFlight: nat): Chunk -> int {
    (c: Chunk) => ProducerLeft(newFlight, c.prod) + ClaimerLeft(c.claim)
  }

  function NewFlightLeft(cfg: Config): nat { cfg.chunkSize + 30 }

  function DispLeft(d: Dispatcher, toStart: int): int {
    match d
    case TakeSlot => 3 * toStart + 1
    case CheckCancel => 3 * toStart
    case AwaitAdmission => 3 * toStart + 2
    case Exited => 0
  }

  function ConsLeft(k: Consumer, chunks: int, toServe: int): int {
    match k
    case Waiting => 10 * toServe + chunks + 6
    case Starting => 10 * toServe + chunks + 5
    case Writing(_) => 10 * toServe + chunks + 4
    case Ending(_) => 10 * toServe + chunks + 3
    case Closing(_) => 10 * toServe + chunks + 2
    case Slotting => 10 * toServe + chunks + 1
    case AwaitGroup => chunks + 6
    case Aborting(_) => chunks + 4
    case Cleaning(j, _) => chunks - j + 2
    case Returned(_) => 0
  }

  function ControlLeft(rq: Request): int {
    DispLeft(rq.disp, |rq.chunks| - rq.started) + ConsLeft(rq.cons, |rq.chunks|, |rq.chunks| - rq.served)
    + (if rq.cancelled then 0 else 1) + (rq.last + 1 - rq.first - |rq.body|)
  }

  function RequestLeft(newFlight: nat): Request -> int {
    (rq: Request) => ControlLeft(rq) + Sum(rq.chunks, ChunkLeft(newFlight))
  }

  /** Steps the running system can still take, at most. */
  function Left(cfg: Config, s: State): int {
    Sum(s.requests, RequestLeft(NewFlightLeft(cfg))) + Sum(s.flights, FlightLeft)
  }

  // ---- it is never negative ----

  lemma LeftNonNegative(cfg: Config, s: State)
    requires Inv(cfg, s)
    ensures Left(cfg, s) >= 0
  {
    RequestsLeftNonNegative(cfg, s);
    FlightsLeftNonNegative(cfg, s.fs, s.flights);
  }

  lemma RequestsLeftNonNegative(cfg: Config, s: State)
    requires RequestsOk(cfg, s)
    ensures Sum(s.requests, RequestLeft(NewFlightLeft(cfg))) >= 0
  {
    var w := RequestLeft(NewFlightLeft(cfg));
    forall r | 0 <= r < |s.requests| ensures w(s.requests[r]) >= 0 {
      RequestLeftNonNegative(cfg, s.requests[r]);
    }
    SumNonNegative(s.requests, w);
  }

  lemma FlightsLeftNonNegative(cfg: Config, fs: Fs, flights: seq<Flight>)
    requires FlightsOk(cfg, fs, flights)
    ensures Sum(flights, FlightLeft) >= 0
  {
    forall f | 0 <= f < |flights| ensures FlightLeft(flights[f]) >= 0 {
      assert FlightOk(cfg, fs, flights[f], f);
    }
    SumNonNegative(flights, FlightLeft);
  }

  lemma RequestLeftNonNegative(cfg: Config, rq: Request)
    requires RequestOk(cfg, rq)
    ensures RequestLeft(NewFlightLeft(cfg))(rq) >= 0
  {
    SumNonNegative(rq.chunks, ChunkLeft(NewFlightLeft(cfg)));
    assert |rq.body| <= |Span(cfg, rq)|;
  }

  // ---- it decreases ----

  lemma ChunkActLeft(cfg: Config, s: State, c: Chunk, cancelled: bool, act: ChunkAct, n: nat)
    requires ChunkEnabled(cfg, s, c, cancelled, act)
    ensures ChunkLeft(n)(ChunkNext(cfg, s, c, cancelled, act)) < ChunkLeft(n)(c)
  {
  }

  lemma MoveLeft(cfg: Config, s: State, rq: Request, act: ConsAct)
    requires ConsEnabled(s, rq, act) && ConsOk(rq) && Moves(act) && rq.started <= |rq.chunks|
    ensures ControlLeft(ConsNext(cfg, s, rq, act)) < ControlLeft(rq)
  {
  }

  lemma QuietLeft(cfg: Config, s: State, rq: Request, act: ConsAct)
    requires ConsEnabled(s, rq, act) && ConsOk(rq) && !Moves(act) && rq.started <= |rq.chunks|
    ensures ControlLeft(ConsNext(cfg, s, rq, act)) < ControlLeft(rq)
  {
  }

  lemma ConsActChunksLeft(cfg: Config, s: State, rq: Request, act: ConsAct, n: nat)
    requires ConsEnabled(s, rq, act)
    ensures Sum(ConsNext(cfg, s, rq, act).chunks, ChunkLeft(n)) == Sum(rq.chunks, ChunkLeft(n))
  {
    ConsActMoves(cfg, s, rq, act);
    var m := Moved(rq, act);
    if m.Some? {
      SumUpdate(rq.chunks, ChunkLeft(n), m.value, ConsNext(cfg, s, rq, act).chunks[m.value]);
    }
  }

  lemma DispControlLeft(cfg: Config, rq: Request, act: DispAct)
    requires DispEnabled(cfg, rq, act) && cfg.checkCancel && cfg.waitAdmission && rq.started <= |rq.chunks|
    ensures ControlLeft(DispNext(cfg, rq, act)) < ControlLeft(rq)
  {
  }

  lemma DispChunksLeft(cfg: Config, rq: Request, act: DispAct, n: nat)
    requires DispEnabled(cfg, rq, act) && (rq.started < |rq.chunks| ==> ChunkOk(rq, rq.started))
    ensures Sum(DispNext(cfg, rq, act).chunks, ChunkLeft(n)) <= Sum(rq.chunks, ChunkLeft(n))
  {
    var next := DispNext(cfg, rq, act);
    if next.chunks != rq.chunks {
      SumUpdate(rq.chunks, ChunkLeft(n), rq.started, next.chunks[rq.started]);
    }
  }

  /** Replacing one chunk, and perhaps the guard, leaves the rest of the measure alone. */
  lemma OtherChunkLeft(rq: Request, i: nat, c: Chunk, g: GuardState, n: nat)
    requires i < |rq.chunks|
    ensures RequestLeft(n)(WithChunk(rq, i, c).(guard := g))
         == RequestLeft(n)(rq) - ChunkLeft(n)(rq.chunks[i]) + ChunkLeft(n)(c)
  {
    SumUpdate(rq.chunks, ChunkLeft(n), i, c);
  }

  lemma ChunkStepLeft(cfg: Config, s: State, rq: Request, i: nat, act: ChunkAct, n: nat)
    requires i < |rq.chunks| && ChunkEnabled(cfg, s, rq.chunks[i], rq.cancelled, act)
    ensures var next := WithChunk(rq, i, ChunkNext(cfg, s, rq.chunks[i], rq.cancelled, act));
            RequestLeft(n)(next.(guard := GuardNext(cfg, rq.chunks[i], rq.guard, act))) < RequestLeft(n)(rq)
  {
    var c := ChunkNext(cfg, s, rq.chunks[i], rq.cancelled, act);
    ChunkActLeft(cfg, s, rq.chunks[i], rq.cancelled, act, n);
    OtherChunkLeft(rq, i, c, GuardNext(cfg, rq.chunks[i], rq.guard, act), n);
  }

  lemma ReqStepLeft(cfg: Config, s: State, rq: Request, act: Act, n: nat)
    requires cfg.checkCancel && cfg.waitAdmission && ControlOk(cfg.guardOn, rq) && Enabled(cfg, s, rq, act)
    ensures RequestLeft(n)(NextRequest(cfg, s, rq, act)) < RequestLeft(n)(rq)
  {
    match act
    case Disp(d) =>
      assert rq.started < |rq.chunks| ==> ChunkOk(rq, rq.started);
      DispControlLeft(cfg, rq, d);
      DispChunksLeft(cfg, rq, d, n);
    case OfChunk(i, a) => ChunkStepLeft(cfg, s, rq, i, a, n);
    case Cons(k) =>
      if Moves(k) { MoveLeft(cfg, s, rq, k); } else { QuietLeft(cfg, s, rq, k); }
      ConsActChunksLeft(cfg, s, rq, k, n);
    case Cancel =>
  }

  lemma DropLeft(s: State, f: Option<nat>)
    requires f.Some? && f.value < |s.flights| && s.flights[f.value].free.Held?
    ensures Sum(DropFlight(s.flights, f), FlightLeft) <= Sum(s.flights, FlightLeft)
  {
    SumUpdate(s.flights, FlightLeft, f.value, Unref(s.flights[f.value]));
  }

  lemma LeadActLeft(cfg: Config, s: State, f: nat, act: LeadAct)
    requires LeadEnabled(cfg, s, f, act) && FlightOk(cfg, s.fs, s.flights[f], f)
    ensures |LeadStep(cfg, s, f, act).flights| == |s.flights|
    ensures FlightLeft(LeadStep(cfg, s, f, act).flights[f]) < FlightLeft(s.flights[f])
  {
  }

  lemma JoinRequestLeft(rq: Request, i: nat, f: nat, n: nat)
    requires i < |rq.chunks| && rq.chunks[i].prod.Joining? && rq.chunks[i].claim.NoClaim?
    ensures RequestLeft(n)(WithChunk(rq, i, Joined(rq.chunks[i], f))) == RequestLeft(n)(rq) - n - 2
  {
    SumUpdate(rq.chunks, ChunkLeft(n), i, Joined(rq.chunks[i], f));
  }

  lemma JoinFlightsLeft(cfg: Config, s: State, r: nat, i: nat)
    requires JoinEnabled(s, r, i) && |BytesOf(cfg, s.requests[r].chunks[i].id)| <= cfg.chunkSize
    ensures Sum(JoinStep(cfg, s, r, i).flights, FlightLeft) <= Sum(s.flights, FlightLeft) + NewFlightLeft(cfg)
  {
    var id := s.requests[r].chunks[i].id;
    if id in s.sf {
      var f := s.sf[id];
      SumUpdate(s.flights, FlightLeft, f, s.flights[f].(waiters := s.flights[f].waiters + 1));
    } else {
      SumAppend(s.flights, FlightLeft, NewFlight(cfg, id));
    }
  }

  lemma JoinLeft(cfg: Config, s: State, r: nat, i: nat)
    requires JoinEnabled(s, r, i) && s.requests[r].chunks[i].claim.NoClaim?
    requires |BytesOf(cfg, s.requests[r].chunks[i].id)| <= cfg.chunkSize
    ensures Left(cfg, JoinStep(cfg, s, r, i)) < Left(cfg, s)
  {
    var next := JoinStep(cfg, s, r, i);
    var rq := s.requests[r];
    var f := next.sf[rq.chunks[i].id];
    JoinRequestLeft(rq, i, f, NewFlightLeft(cfg));
    SumUpdate(s.requests, RequestLeft(NewFlightLeft(cfg)), r, WithChunk(rq, i, Joined(rq.chunks[i], f)));
    JoinFlightsLeft(cfg, s, r, i);
  }

  lemma RequestStepLeft(cfg: Config, s: State, r: nat, act: Act)
    requires Inv(cfg, s) && StepEnabled(cfg, s, ReqStep(r, act))
    ensures Left(cfg, Next(cfg, s, ReqStep(r, act))) < Left(cfg, s)
  {
    var rq := s.requests[r];
    var n := NewFlightLeft(cfg);
    var d := Dropped(cfg, s, rq, act);
    ReqStepLeft(cfg, s, rq, act, n);
    SumUpdate(s.requests, RequestLeft(n), r, NextRequest(cfg, s, rq, act));
    if d.Some? {
      var i := DroppedIsHeld(cfg, s, rq, act);
      RefsCover(s, r, i, d.value);
      assert FlightOk(cfg, s.fs, s.flights[d.value], d.value);
      assert Refs(s, d.value) == Count(s.flights[d.value]);
      DropLeft(s, d);
    }
  }

  /** The system's own steps: everything but arrivals, crashes, evictions and uploads. */
  predicate Own(step: Step) { step.ReqStep? || step.Join? || step.LeadDo? }

  /** Each of the system's own steps, timeouts and cancellations included, uses up part of
      the measure; evictions and uploads leave it alone. */
  lemma StepUsesMeasure(cfg: Config, s: State, step: Step)
    requires Inv(cfg, s) && StepEnabled(cfg, s, step)
    ensures Own(step) ==> 0 <= Left(cfg, Next(cfg, s, step)) < Left(cfg, s)
    ensures step.Unlink? || step.Upload? ==> Left(cfg, Next(cfg, s, step)) == Left(cfg, s)
  {
    StepInv(cfg, s, step);
    LeftNonNegative(cfg, Next(cfg, s, step));
    match step
    case ReqStep(r, act) => RequestStepLeft(cfg, s, r, act);
    case Join(r, i) =>
      assert ChunkOk(s.requests[r], i);
      NewFlightOk(cfg, s.fs, s.requests[r], i, 0);
      JoinLeft(cfg, s, r, i);
    case LeadDo(f, act) =>
      assert FlightOk(cfg, s.fs, s.flights[f], f);
      LeadActLeft(cfg, s, f, act);
      LeadFiles(cfg, s, f, act);
      SumUpdate(s.flights, FlightLeft, f, LeadStep(cfg, s, f, act).flights[f]);
    case _ =>
  }
}
