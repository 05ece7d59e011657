/** Joining a flight, the leader's steps and the environment's steps keep the invariant; so
    every state of every run satisfies it. */
module FlightSafety {
  import opened Base
  import opened Tiling
  import opened WriteGuard
  import opened Protocol
  import opened Invariants
  import opened RequestSafety
  import opened ResponseSafety
  import opened References
  import opened Safety

  // ---- joining ----

  function Joined(c: Chunk, f: nat): Chunk { c.(prod := AwaitAdmit(f), claim := AwaitDone(f)) }

  lemma JoinedControl(cfg: Config, rq: Request, i: nat, f: nat)
    requires ControlOk(cfg.guardOn, rq) && i < |rq.chunks| && rq.chunks[i].prod.Joining?
    ensures ControlOk(cfg.guardOn, WithChunk(rq, i, Joined(rq.chunks[i], f)))
  {
    var c := rq.chunks[i];
    assert ChunkOk(rq, i);
    assert ChunkOk(WithChunk(rq, i, Joined(c, f)), i);
    ChunkUpdate(cfg.guardOn, rq, i, Joined(c, f), rq.guard);
    assert WithChunk(rq, i, Joined(c, f)).(guard := rq.guard) == WithChunk(rq, i, Joined(c, f));
  }

  /** A chunk that has not joined yet is no earlier than the newest chunk started. */
  lemma JoinedLinks(cfg: Config, flights: seq<Flight>, fs: Fs, rq: Request, i: nat, f: nat)
    requires ChunksOk(rq) && LinksOk(cfg, flights, fs, rq)
    requires i < |rq.chunks| && rq.chunks[i].prod.Joining?
    requires f < |flights| && flights[f].id == rq.chunks[i].id
    ensures LinksOk(cfg, flights, fs, WithChunk(rq, i, Joined(rq.chunks[i], f)))
  {
    var next := WithChunk(rq, i, Joined(rq.chunks[i], f));
    assert ChunkOk(rq, i);
    forall j | 0 <= j < |next.chunks| ensures LinkOk(cfg, flights, fs, next, j) {
      assert LinkOk(cfg, flights, fs, rq, j);
    }
  }

  /** A new flight's size: its chunk lies inside the object and is not empty. */
  lemma NewFlightOk(cfg: Config, fs: Fs, rq: Request, i: nat, f: nat)
    requires Shape(cfg, rq) && i < |rq.chunks|
    ensures FlightOk(cfg, fs, NewFlight(cfg, rq.chunks[i].id), f)
  {
    ChunkInObject(cfg.chunkSize, rq.first, rq.last, i, cfg.objects[rq.ver]);
  }

  lemma WaiterOk(cfg: Config, fs: Fs, fl: Flight, f: nat)
    requires FlightOk(cfg, fs, fl, f)
    ensures FlightOk(cfg, fs, fl.(waiters := fl.waiters + 1), f)
  {
  }

  lemma JoinFlights(cfg: Config, s: State, r: nat, i: nat)
    requires FlightsOk(cfg, s.fs, s.flights) && JoinEnabled(s, r, i) && Shape(cfg, s.requests[r])
    ensures var next := JoinStep(cfg, s, r, i);
            && FlightsOk(cfg, s.fs, next.flights) && FlightsEvolve(s.flights, next.flights)
  {
    var id := s.requests[r].chunks[i].id;
    if id in s.sf {
      var f := s.sf[id];
      assert FlightOk(cfg, s.fs, s.flights[f], f);
      WaiterOk(cfg, s.fs, s.flights[f], f);
      FlightsUpdate(cfg, s.fs, s.flights, f, s.flights[f].(waiters := s.flights[f].waiters + 1));
    } else {
      NewFlightOk(cfg, s.fs, s.requests[r], i, |s.flights|);
      AppendFlight(cfg, s.fs, s.flights, NewFlight(cfg, id));
    }
  }

  lemma AppendFlight(cfg: Config, fs: Fs, flights: seq<Flight>, fl: Flight)
    requires FlightsOk(cfg, fs, flights) && FlightOk(cfg, fs, fl, |flights|)
    ensures FlightsOk(cfg, fs, flights + [fl]) && FlightsEvolve(flights, flights + [fl])
  {
  }

  lemma JoinBudget(cfg: Config, s: State, r: nat, i: nat)
    requires BudgetOk(cfg, s) && JoinEnabled(s, r, i)
    ensures BudgetOk(cfg, JoinStep(cfg, s, r, i))
  {
    var id := s.requests[r].chunks[i].id;
    if id in s.sf {
      var f := s.sf[id];
      SumUpdate(s.flights, UnitWeight, f, s.flights[f].(waiters := s.flights[f].waiters + 1));
      SumUpdate(s.flights, ByteWeight, f, s.flights[f].(waiters := s.flights[f].waiters + 1));
    } else {
      SumAppend(s.flights, UnitWeight, NewFlight(cfg, id));
      SumAppend(s.flights, ByteWeight, NewFlight(cfg, id));
    }
  }

  lemma JoinSf(cfg: Config, s: State, r: nat, i: nat)
    requires SfOk(s) && JoinEnabled(s, r, i)
    ensures SfOk(JoinStep(cfg, s, r, i))
  {
  }

  lemma JoinedRefs(rq: Request, i: nat, f: nat, g: nat)
    requires i < |rq.chunks| && rq.chunks[i].prod.Joining? && rq.chunks[i].claim.NoClaim?
    ensures RequestRefs(WithChunk(rq, i, Joined(rq.chunks[i], f)), g) == RequestRefs(rq, g) + One(f == g)
  {
    SumUpdate(rq.chunks, ChunkWeight(g), i, Joined(rq.chunks[i], f));
  }

  lemma RefInRange(cfg: Config, s: State, r: nat, i: nat, g: nat)
    requires RequestsOk(cfg, s) && r < |s.requests| && i < |s.requests[r].chunks|
    requires ChunkRefs(s.requests[r].chunks[i], g) > 0
    ensures g < |s.flights|
  {
    assert LinkOk(cfg, s.flights, s.fs, s.requests[r], i);
  }

  /** Nothing refers to a flight that does not exist yet. */
  lemma NoRefsBeyond(cfg: Config, s: State, g: nat)
    requires RequestsOk(cfg, s) && g >= |s.flights|
    ensures Refs(s, g) == 0
  {
    if Refs(s, g) > 0 {
      var r, i := RefsWitness(s, g);
      RefInRange(cfg, s, r, i, g);
    }
    forall k | 0 <= k < |s.requests| ensures RequestWeight(g)(s.requests[k]) >= 0 {
      RequestRefsPositive(s.requests[k], g);
    }
    SumNonNegative(s.requests, RequestWeight(g));
  }

  lemma JoinRefs(cfg: Config, s: State, r: nat, i: nat)
    requires RequestsOk(cfg, s) && RefsOk(s) && SfOk(s) && JoinEnabled(s, r, i)
    ensures RefsOk(JoinStep(cfg, s, r, i))
  {
    var next := JoinStep(cfg, s, r, i);
    var rq := s.requests[r];
    var f := next.sf[rq.chunks[i].id];
    assert ChunkOk(rq, i);
    forall g | 0 <= g < |next.flights|
      ensures Refs(next, g) == Count(next.flights[g]) && (!next.flights[g].lead.Over? ==> Refs(next, g) >= 1)
    {
      JoinedRefs(rq, i, f, g);
      ReplaceRefs(s, r, WithChunk(rq, i, Joined(rq.chunks[i], f)), g);
      assert Refs(next, g) == Refs(s, g) + One(f == g);
      if g < |s.flights| {
        assert Refs(s, g) == Count(s.flights[g]);
      } else {
        NoRefsBeyond(cfg, s, g);
      }
    }
  }

  lemma JoinRequests(cfg: Config, s: State, r: nat, i: nat)
    requires RequestsOk(cfg, s) && SfOk(s) && JoinEnabled(s, r, i)
    requires FlightsEvolve(s.flights, JoinStep(cfg, s, r, i).flights)
    ensures RequestsOk(cfg, JoinStep(cfg, s, r, i))
  {
    var next := JoinStep(cfg, s, r, i);
    var rq := s.requests[r];
    var f := next.sf[rq.chunks[i].id];
    var rq' := WithChunk(rq, i, Joined(rq.chunks[i], f));
    JoinedControl(cfg, rq, i, f);
    SpanFrame(cfg, rq, rq');
    LinksSurvive(cfg, s, next.flights, s.fs, rq);
    JoinedLinks(cfg, next.flights, s.fs, rq, i, f);
    ReplaceRequest(cfg, s, r, rq', next.flights);
    assert next.requests == s.requests[r := rq'];
  }

  lemma JoinInv(cfg: Config, s: State, r: nat, i: nat)
    requires Inv(cfg, s) && JoinEnabled(s, r, i)
    ensures Inv(cfg, JoinStep(cfg, s, r, i))
  {
    JoinFlights(cfg, s, r, i);
    JoinBudget(cfg, s, r, i);
    JoinSf(cfg, s, r, i);
    JoinRefs(cfg, s, r, i);
    JoinRequests(cfg, s, r, i);
  }

  // ---- the leader ----

  /** A leader's step changes its own flight, and files no one else relies on. */
  lemma LeadFiles(cfg: Config, s: State, f: nat, act: LeadAct)
    requires LeadEnabled(cfg, s, f, act) && FlightOk(cfg, s.fs, s.flights[f], f)
    ensures var next := LeadStep(cfg, s, f, act);
            && FilesKept(s.fs, next.fs)
            && |next.flights| == |s.flights| && next.flights == s.flights[f := next.flights[f]]
            && next.requests == s.requests
            && (forall n {:trigger next.fs.inodes[n]} | 0 <= n < |s.fs.inodes| ::
                  s.fs.inodes[n].writer != Some(f) ==> next.fs.inodes[n] == s.fs.inodes[n])
  {
  }

  predicate PutAct(act: LeadAct) { act.LCreateTemp? || act.LWriteTemp? || act.LRename? || act.LPutFail? }

  lemma PutFlight(cfg: Config, s: State, f: nat, act: LeadAct)
    requires LeadEnabled(cfg, s, f, act) && PutAct(act) && FlightOk(cfg, s.fs, s.flights[f], f)
    ensures var next := LeadStep(cfg, s, f, act);
            |next.flights| == |s.flights| && FlightOk(cfg, next.fs, next.flights[f], f)
            && Evolves(s.flights[f], next.flights[f])
  {
  }

  predicate FetchAct(act: LeadAct) {
    act.LAcquire? || act.LTimeout? || act.LAdmit? || act.LAlloc? || act.LDownload? || act.LDownloadFail?
  }

  lemma FetchFlight(cfg: Config, s: State, f: nat, act: LeadAct)
    requires LeadEnabled(cfg, s, f, act) && FetchAct(act) && FlightOk(cfg, s.fs, s.flights[f], f)
    ensures var next := LeadStep(cfg, s, f, act);
            |next.flights| == |s.flights| && FlightOk(cfg, next.fs, next.flights[f], f)
            && Evolves(s.flights[f], next.flights[f])
  {
  }

  lemma FinishFlight(cfg: Config, s: State, f: nat, act: LeadAct)
    requires LeadEnabled(cfg, s, f, act) && !PutAct(act) && !FetchAct(act) && FlightOk(cfg, s.fs, s.flights[f], f)
    requires act.LFinish? ==> s.flights[f].waiters >= 1
    requires act.LCloseDone? ==> s.flights[f].refs >= 1
    ensures var next := LeadStep(cfg, s, f, act);
            |next.flights| == |s.flights| && FlightOk(cfg, next.fs, next.flights[f], f)
            && Evolves(s.flights[f], next.flights[f])
  {
  }

  /** Another flight does not notice: the leader writes only its own temporary inode. */
  lemma OtherFlight(cfg: Config, s: State, f: nat, act: LeadAct, g: nat)
    requires LeadEnabled(cfg, s, f, act) && FlightOk(cfg, s.fs, s.flights[f], f)
    requires g < |s.flights| && g != f && FlightOk(cfg, s.fs, s.flights[g], g)
    ensures FlightOk(cfg, LeadStep(cfg, s, f, act).fs, s.flights[g], g)
  {
    LeadFiles(cfg, s, f, act);
  }

  lemma LeadFlights(cfg: Config, s: State, f: nat, act: LeadAct)
    requires LeadEnabled(cfg, s, f, act) && FlightsOk(cfg, s.fs, s.flights) && RefsOk(s)
    ensures var next := LeadStep(cfg, s, f, act);
            && FlightsOk(cfg, next.fs, next.flights) && FlightsEvolve(s.flights, next.flights)
            && FilesKept(s.fs, next.fs)
  {
    var next := LeadStep(cfg, s, f, act);
    assert FlightOk(cfg, s.fs, s.flights[f], f);
    assert Refs(s, f) == Count(s.flights[f]);
    LeadFiles(cfg, s, f, act);
    if PutAct(act) { PutFlight(cfg, s, f, act); }
    else if FetchAct(act) { FetchFlight(cfg, s, f, act); }
    else { FinishFlight(cfg, s, f, act); }
    forall g | 0 <= g < |next.flights| ensures FlightOk(cfg, next.fs, next.flights[g], g) {
      if g != f {
        OtherFlight(cfg, s, f, act, g);
      }
    }
  }

  /** Units and bytes moved exactly with the flight that owns them. */
  predicate WeightsMoved(cfg: Config, s: State, next: State, f: nat)
    requires f < |s.flights| == |next.flights|
  {
    && next.units - s.units == UnitWeight(next.flights[f]) - UnitWeight(s.flights[f])
    && next.inUse - s.inUse == ByteWeight(next.flights[f]) - ByteWeight(s.flights[f])
    && (next.units > s.units ==> next.units <= cfg.budget)
  }

  lemma FetchWeights(cfg: Config, s: State, f: nat, act: LeadAct)
    requires LeadEnabled(cfg, s, f, act) && FetchAct(act) && FlightOk(cfg, s.fs, s.flights[f], f)
    ensures |LeadStep(cfg, s, f, act).flights| == |s.flights| && WeightsMoved(cfg, s, LeadStep(cfg, s, f, act), f)
  {
  }

  lemma OtherWeights(cfg: Config, s: State, f: nat, act: LeadAct)
    requires LeadEnabled(cfg, s, f, act) && !FetchAct(act) && FlightOk(cfg, s.fs, s.flights[f], f)
    ensures |LeadStep(cfg, s, f, act).flights| == |s.flights| && WeightsMoved(cfg, s, LeadStep(cfg, s, f, act), f)
  {
  }

  lemma LeadBudget(cfg: Config, s: State, f: nat, act: LeadAct)
    requires LeadEnabled(cfg, s, f, act) && BudgetOk(cfg, s) && FlightOk(cfg, s.fs, s.flights[f], f)
    ensures BudgetOk(cfg, LeadStep(cfg, s, f, act))
  {
    LeadFiles(cfg, s, f, act);
    if FetchAct(act) { FetchWeights(cfg, s, f, act); } else { OtherWeights(cfg, s, f, act); }
    var fl := LeadStep(cfg, s, f, act).flights[f];
    SumUpdate(s.flights, UnitWeight, f, fl);
    SumUpdate(s.flights, ByteWeight, f, fl);
  }

  lemma LeadNames(cfg: Config, s: State, f: nat, act: LeadAct)
    requires LeadEnabled(cfg, s, f, act)
    ensures var next := LeadStep(cfg, s, f, act);
            && next.flights == s.flights[f := next.flights[f]]
            && next.flights[f].id == s.flights[f].id
            && (if act.LFinish? then next.sf == s.sf - {s.flights[f].id} && !Joinable(next.flights[f])
                else next.sf == s.sf && Joinable(next.flights[f]) == Joinable(s.flights[f]))
            && (act.LFinish? ==> Joinable(s.flights[f]))
  {
  }

  lemma LeadSf(cfg: Config, s: State, f: nat, act: LeadAct)
    requires LeadEnabled(cfg, s, f, act) && SfOk(s) && FlightOk(cfg, s.fs, s.flights[f], f)
    ensures SfOk(LeadStep(cfg, s, f, act))
  {
    LeadNames(cfg, s, f, act);
    NamesKept(s, LeadStep(cfg, s, f, act), f, act.LFinish?);
  }

  /** One flight moved on; if it finished, its key was given up. */
  lemma NamesKept(s: State, next: State, f: nat, finishes: bool)
    requires SfOk(s) && f < |s.flights| == |next.flights|
    requires next.flights == s.flights[f := next.flights[f]] && next.flights[f].id == s.flights[f].id
    requires finishes ==>
      && Joinable(s.flights[f]) && !Joinable(next.flights[f]) && next.sf == s.sf - {s.flights[f].id}
    requires !finishes ==> next.sf == s.sf && Joinable(next.flights[f]) == Joinable(s.flights[f])
    ensures SfOk(next)
  {
  }

  lemma LeadRefs(cfg: Config, s: State, f: nat, act: LeadAct)
    requires LeadEnabled(cfg, s, f, act) && RefsOk(s) && FlightOk(cfg, s.fs, s.flights[f], f)
    ensures RefsOk(LeadStep(cfg, s, f, act))
  {
    var next := LeadStep(cfg, s, f, act);
    LeadFiles(cfg, s, f, act);
    forall g | 0 <= g < |next.flights|
      ensures Refs(next, g) == Count(next.flights[g]) && (!next.flights[g].lead.Over? ==> Refs(next, g) >= 1)
    {
      assert Refs(next, g) == Refs(s, g) == Count(s.flights[g]);
    }
  }

  /** A chunk name only ever names a complete chunk. */
  lemma LeadFs(cfg: Config, s: State, f: nat, act: LeadAct)
    requires LeadEnabled(cfg, s, f, act) && FsOk(cfg, s.fs) && FlightOk(cfg, s.fs, s.flights[f], f)
    ensures FsOk(cfg, LeadStep(cfg, s, f, act).fs)
  {
    LeadFiles(cfg, s, f, act);
  }

  lemma LeadInv(cfg: Config, s: State, f: nat, act: LeadAct)
    requires Inv(cfg, s) && LeadEnabled(cfg, s, f, act)
    ensures Inv(cfg, LeadStep(cfg, s, f, act))
  {
    var next := LeadStep(cfg, s, f, act);
    assert FlightOk(cfg, s.fs, s.flights[f], f);
    LeadFlights(cfg, s, f, act);
    LeadBudget(cfg, s, f, act);
    LeadSf(cfg, s, f, act);
    LeadRefs(cfg, s, f, act);
    LeadFs(cfg, s, f, act);
    LeadFiles(cfg, s, f, act);
    RequestsSurvive(cfg, s, next.flights, next.fs);
  }

  lemma LeadKeepsRequests(cfg: Config, s: State, f: nat, act: LeadAct)
    requires LeadEnabled(cfg, s, f, act)
    ensures LeadStep(cfg, s, f, act).requests == s.requests
  {
  }

  // ---- the environment ----

  lemma NewRequestOk(cfg: Config, ver: Version, first: nat, last: nat, flights: seq<Flight>, fs: Fs)
    requires ValidConfig(cfg) && ver in cfg.objects && first <= last < |cfg.objects[ver]|
    ensures var rq := NewRequest(cfg, ver, first, last);
            && RequestOk(cfg, rq) && LinksOk(cfg, flights, fs, rq)
            && (forall g: nat :: RequestRefs(rq, g) == 0)
  {
    var rq := NewRequest(cfg, ver, first, last);
    ChunkLayout(cfg.chunkSize, first, last);
    SumZero(rq.chunks, Counted);
    forall g: nat ensures RequestRefs(rq, g) == 0 {
      SumZero(rq.chunks, ChunkWeight(g));
    }
  }

  lemma ArriveInv(cfg: Config, s: State, ver: Version, first: nat, last: nat)
    requires Inv(cfg, s) && StepEnabled(cfg, s, Arrive(ver, first, last))
    ensures Inv(cfg, Next(cfg, s, Arrive(ver, first, last)))
  {
    var next := Next(cfg, s, Arrive(ver, first, last));
    var rq := NewRequest(cfg, ver, first, last);
    NewRequestOk(cfg, ver, first, last, s.flights, s.fs);
    forall g | 0 <= g < |next.flights|
      ensures Refs(next, g) == Count(next.flights[g]) && (!next.flights[g].lead.Over? ==> Refs(next, g) >= 1)
    {
      SumAppend(s.requests, RequestWeight(g), rq);
      assert Refs(s, g) == Count(s.flights[g]);
    }
  }

  lemma CrashInv(cfg: Config, s: State)
    requires Inv(cfg, s)
    ensures Inv(cfg, CrashStep(s))
  {
  }

  /** The main step: whatever happens next, the invariant is kept. */
  lemma StepInv(cfg: Config, s: State, step: Step)
    requires Inv(cfg, s) && StepEnabled(cfg, s, step)
    ensures Inv(cfg, Next(cfg, s, step))
  {
    match step
    case ReqStep(r, act) => ReqStepInv(cfg, s, r, act);
    case Join(r, i) => JoinInv(cfg, s, r, i);
    case LeadDo(f, act) => LeadInv(cfg, s, f, act);
    case Arrive(ver, first, last) => ArriveInv(cfg, s, ver, first, last);
    case Unlink(path) =>
      var next := Next(cfg, s, step);
      assert forall g {:trigger Refs(next, g)} :: 0 <= g < |next.flights| ==> Refs(next, g) == Refs(s, g);
      RequestsSurvive(cfg, s, s.flights, next.fs);
    case Upload(ver) =>
      var next := Next(cfg, s, step);
      assert forall g {:trigger Refs(next, g)} :: 0 <= g < |next.flights| ==> Refs(next, g) == Refs(s, g);
    case Crash => CrashInv(cfg, s);
  }
}
