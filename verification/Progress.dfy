/** No state is stuck: while anything is unfinished, some step is enabled that needs neither a
    timeout nor a cancellation - and, while a fetch waits for budget, not even a client that
    reads. */
module Progress {
  import opened Base
  import opened WriteGuard
  import opened Protocol
  import opened Invariants
  import opened ResponseSafety
  import opened References

  /** A leader's step that is not a failure the environment could have avoided: no timeout; the
      download succeeds if the version is still there; the cache write goes on while it can. */
  predicate HealthyLead(cfg: Config, s: State, f: nat, act: LeadAct)
    requires f < |s.flights|
  {
    match act
    case LTimeout => false
    case LDownloadFail => !LeadEnabled(cfg, s, f, LDownload)
    case LPutFail =>
      !LeadEnabled(cfg, s, f, LCreateTemp) && !LeadEnabled(cfg, s, f, LRename)
      && !(s.flights[f].lead.Temp? && s.flights[f].lead.done < |s.flights[f].buf|)
    case _ => true
  }

  /** Whether a step belongs to the running system. With reading clients no write fails; with
      clients that have stopped reading no write gets on, but one under an armed deadline is
      cut. */
  predicate Healthy(cfg: Config, s: State, step: Step, reading: bool) {
    match step
    case ReqStep(r, act) =>
      r < |s.requests|
      && (match act
          case Cancel => false
          case Cons(k) =>
            if k.KWriteFail? then !reading && s.requests[r].guard.armed
            else k.KWrite? || k.KWriteDone? ==> reading
          case _ => true)
    case Join(_, _) => true
    case LeadDo(f, act) => f < |s.flights| && HealthyLead(cfg, s, f, act)
    case _ => false
  }

  predicate CanMove(cfg: Config, s: State, step: Step, reading: bool) {
    StepEnabled(cfg, s, step) && Healthy(cfg, s, step, reading)
  }

  predicate RequestFinished(rq: Request) {
    rq.cons.Returned?
    && forall i :: 0 <= i < |rq.chunks| ==> rq.chunks[i].claim.NoClaim? || rq.chunks[i].claim.Settled?
  }

  predicate FlightFinished(fl: Flight) { fl.lead.Over? && fl.free.Freed? }

  predicate Finished(s: State) {
    && (forall r :: 0 <= r < |s.requests| ==> RequestFinished(s.requests[r]))
    && (forall f :: 0 <= f < |s.flights| ==> FlightFinished(s.flights[f]))
  }

  // ---- flights ----

  lemma HolderNeedsUnit(cfg: Config, s: State, f: nat)
    requires BudgetOk(cfg, s) && f < |s.flights| && HoldsUnit(s.flights[f])
    ensures s.units >= 1
  {
    SumMember(s.flights, UnitWeight, f);
  }

  /** A leader past the queue never blocks. */
  lemma LeaderMoves(cfg: Config, s: State, f: nat, reading: bool) returns (step: Step)
    requires BudgetOk(cfg, s) && f < |s.flights| && FlightOk(cfg, s.fs, s.flights[f], f)
    requires !s.flights[f].lead.Queued? && !s.flights[f].lead.Over?
    ensures CanMove(cfg, s, step, reading)
  {
    var fl := s.flights[f];
    var act;
    match fl.lead {
    case Acquired => act := LAdmit;
    case Admitted => act := LAlloc;
    case Loading => act := if LeadEnabled(cfg, s, f, LDownload) then LDownload else LDownloadFail;
    case Loaded => act := if cfg.cacheOn then LCreateTemp else LPutFail;
    case Temp(ino, done) =>
      act := if done < |fl.buf| then LWriteTemp(|fl.buf| - done)
             else if LeadEnabled(cfg, s, f, LRename) then LRename else LPutFail;
    case ReleaseBytes(_) => act := LReleaseBytes;
    case ReleaseUnit(_) => HolderNeedsUnit(cfg, s, f); act := LReleaseUnit;
    case Finishing(_) => act := LFinish;
    case Publishing(_) => act := LPublish;
    case Closing'(_) => act := LCloseDone;
    }
    step := LeadDo(f, act);
  }

  lemma FreeMoves(cfg: Config, s: State, f: nat, reading: bool) returns (step: Step)
    requires BudgetOk(cfg, s) && f < |s.flights| && FlightOk(cfg, s.fs, s.flights[f], f)
    requires s.flights[f].free.FreeBytes? || s.flights[f].free.FreeUnit?
    ensures CanMove(cfg, s, step, reading)
  {
    if s.flights[f].free.FreeBytes? {
      step := LeadDo(f, LFreeBytes);
    } else {
      HolderNeedsUnit(cfg, s, f);
      step := LeadDo(f, LFreeUnit);
    }
  }

  // ---- requests ----

  /** The consumer's current chunk is not on a flight that waits for budget. */
  predicate HeadFree(s: State, rq: Request) {
    rq.served < |rq.chunks| && rq.chunks[rq.served].claim.AwaitDone? ==>
      var f := rq.chunks[rq.served].claim.flight; f < |s.flights| ==> !s.flights[f].lead.Queued?
  }

  /** The dispatcher, when the consumer has taken every chunk started so far. */
  lemma DispatcherMoves(cfg: Config, s: State, r: nat, reading: bool) returns (step: Step)
    requires r < |s.requests| && ControlOk(cfg.guardOn, s.requests[r])
    requires !s.requests[r].disp.Exited?
    requires var rq := s.requests[r]; rq.started == rq.received == rq.served
    ensures CanMove(cfg, s, step, reading)
  {
    var rq := s.requests[r];
    if rq.disp.AwaitAdmission? {
      assert ChunkOk(rq, rq.started - 1);
    }
    var d := match rq.disp case TakeSlot => DTakeSlot case CheckCancel => DCheckCancel case _ => DSeeAdmission;
    step := ReqStep(r, Disp(d));
  }

  /** A chunk whose result is on its way, with the request alive. */
  lemma ChunkMoves(cfg: Config, s: State, r: nat, i: nat, reading: bool) returns (step: Step)
    requires BudgetOk(cfg, s) && FlightsOk(cfg, s.fs, s.flights) && SfOk(s)
    requires r < |s.requests| && i < |s.requests[r].chunks|
    requires ChunkOk(s.requests[r], i) && LinkOk(cfg, s.flights, s.fs, s.requests[r], i)
    requires var c := s.requests[r].chunks[i]; !c.prod.NotStarted? && !c.prod.Sent?
    requires !s.requests[r].cancelled
    requires var c := s.requests[r].chunks[i];
             c.claim.AwaitDone? ==> !s.flights[c.claim.flight].lead.Queued?
    ensures CanMove(cfg, s, step, reading)
  {
    var c := s.requests[r].chunks[i];
    if (c.prod.AwaitAdmit? || c.prod.AwaitResult?) && c.claim.AwaitDone? {
      var f := c.claim.flight;
      assert FlightOk(cfg, s.fs, s.flights[f], f);
      if s.flights[f].lead.Over? {
        step := ReqStep(r, OfChunk(i, CClaim(false)));
      } else {
        step := LeaderMoves(cfg, s, f, reading);
      }
      return;
    }
    match c.prod
    case Looking => step := ReqStep(r, OfChunk(i, PMiss));
    case Joining => step := Join(r, i);
    case AwaitAdmit(_) => step := ReqStep(r, OfChunk(i, PSeeAdmit));
    case AwaitResult(_) => step := ReqStep(r, OfChunk(i, PHandoff));
    case Holding(_) => step := ReqStep(r, OfChunk(i, PHold));
    case Sending(_) => step := ReqStep(r, OfChunk(i, PSend));
  }

  lemma WaitingMoves(cfg: Config, s: State, r: nat, reading: bool) returns (step: Step)
    requires BudgetOk(cfg, s) && FlightsOk(cfg, s.fs, s.flights) && SfOk(s)
    requires r < |s.requests| && ControlOk(cfg.guardOn, s.requests[r])
    requires LinksOk(cfg, s.flights, s.fs, s.requests[r])
    requires s.requests[r].cons.Waiting? && HeadFree(s, s.requests[r])
    ensures CanMove(cfg, s, step, reading)
  {
    var rq := s.requests[r];
    var i := rq.served;
    assert ChunkOk(rq, i) && LinkOk(cfg, s.flights, s.fs, rq, i);
    if rq.cancelled {
      step := ReqStep(r, Cons(KSeeCancel));
    } else if rq.started <= i {
      step := DispatcherMoves(cfg, s, r, reading);
    } else if rq.chunks[i].prod.Sent? {
      step := ReqStep(r, Cons(KReceive));
    } else {
      step := ChunkMoves(cfg, s, r, i, reading);
    }
  }

  /** A cancelled request's goroutines wind down by themselves. */
  lemma AbortingMoves(cfg: Config, s: State, r: nat, reading: bool) returns (step: Step)
    requires SfOk(s) && r < |s.requests| && ControlOk(cfg.guardOn, s.requests[r])
    requires s.requests[r].cons.Aborting?
    ensures CanMove(cfg, s, step, reading)
  {
    var rq := s.requests[r];
    if !rq.disp.Exited? {
      step := ReqStep(r, Disp(if rq.disp.CheckCancel? then DCheckCancel else DLeave));
    } else if i :| 0 <= i < |rq.chunks| && !ProducerDone(rq.chunks[i]) {
      match rq.chunks[i].prod
      case Looking => step := ReqStep(r, OfChunk(i, PMiss));
      case Joining => step := Join(r, i);
      case AwaitAdmit(_) => step := ReqStep(r, OfChunk(i, PAbandon));
      case AwaitResult(_) => step := ReqStep(r, OfChunk(i, PAbandon));
      case Holding(_) => step := ReqStep(r, OfChunk(i, PHold));
      case Sending(_) => step := ReqStep(r, OfChunk(i, PSend));
    } else {
      step := ReqStep(r, Cons(KGroupDone));
    }
  }

  lemma GroupMoves(cfg: Config, s: State, r: nat, reading: bool) returns (step: Step)
    requires r < |s.requests| && ControlOk(cfg.guardOn, s.requests[r])
    requires s.requests[r].cons.AwaitGroup?
    ensures CanMove(cfg, s, step, reading)
  {
    var rq := s.requests[r];
    if rq.disp.Exited? {
      forall i | 0 <= i < |rq.chunks| ensures ProducerDone(rq.chunks[i]) {
        assert ChunkOk(rq, i);
      }
      step := ReqStep(r, Cons(KReturn));
    } else {
      step := DispatcherMoves(cfg, s, r, reading);
    }
  }

  lemma WritingMoves(cfg: Config, s: State, r: nat, reading: bool) returns (step: Step)
    requires FlightsOk(cfg, s.fs, s.flights)
    requires r < |s.requests| && RequestOk(cfg, s.requests[r]) && LinksOk(cfg, s.flights, s.fs, s.requests[r])
    requires s.requests[r].cons.Writing?
    requires reading || (cfg.guardOn && s.requests[r].guard.held > 0)
    ensures CanMove(cfg, s, step, reading)
  {
    var rq := s.requests[r];
    if !reading {
      step := ReqStep(r, Cons(KWriteFail));
    } else {
      SliceLength(cfg, s, rq);
      var left := |CurrentSlice(s, rq)| - rq.cons.done;
      step := ReqStep(r, Cons(if left > 0 then KWrite(left) else KWriteDone));
    }
  }

  /** A consumer that has a chunk in hand or is cleaning up goes on by itself. */
  lemma ServingMoves(cfg: Config, s: State, r: nat, reading: bool) returns (step: Step)
    requires r < |s.requests| && ControlOk(cfg.guardOn, s.requests[r])
    requires var k := s.requests[r].cons; k.Starting? || k.Ending? || k.Closing? || k.Slotting? || k.Cleaning?
    ensures CanMove(cfg, s, step, reading)
  {
    var rq := s.requests[r];
    if rq.served < |rq.chunks| {
      assert ChunkOk(rq, rq.served);
    }
    var k := match rq.cons
      case Starting => KBegin
      case Ending(_) => KEnd
      case Closing(_) => KClose
      case Slotting => KFreeSlot
      case Cleaning(j, _) => if j < |rq.chunks| then KClean else KCleaned
      case _ => KReturn;
    step := ReqStep(r, Cons(k));
  }

  lemma RequestMoves(cfg: Config, s: State, r: nat, reading: bool) returns (step: Step)
    requires BudgetOk(cfg, s) && FlightsOk(cfg, s.fs, s.flights) && SfOk(s)
    requires r < |s.requests| && RequestOk(cfg, s.requests[r]) && LinksOk(cfg, s.flights, s.fs, s.requests[r])
    requires !s.requests[r].cons.Returned? && HeadFree(s, s.requests[r])
    requires reading || (cfg.guardOn && s.requests[r].guard.held > 0)
    ensures CanMove(cfg, s, step, reading)
  {
    match s.requests[r].cons
    case Waiting => step := WaitingMoves(cfg, s, r, reading);
    case Writing(_) => step := WritingMoves(cfg, s, r, reading);
    case AwaitGroup => step := GroupMoves(cfg, s, r, reading);
    case Aborting(_) => step := AbortingMoves(cfg, s, r, reading);
    case _ => step := ServingMoves(cfg, s, r, reading);
  }

  // ---- the budget queue ----

  /** Whoever holds a finished buffer can go on: every earlier chunk of its request has left
      the queue, because chunks are admitted in order. */
  lemma OrderFreesHead(cfg: Config, s: State, r: nat, i: nat)
    requires FlightsOk(cfg, s.fs, s.flights)
    requires r < |s.requests| && ControlOk(cfg.guardOn, s.requests[r])
    requires LinksOk(cfg, s.flights, s.fs, s.requests[r])
    requires var rq := s.requests[r]; rq.served < i < rq.started
    ensures HeadFree(s, s.requests[r])
  {
    var rq := s.requests[r];
    assert LinkOk(cfg, s.flights, s.fs, rq, rq.served);
    if rq.chunks[rq.served].claim.AwaitDone? {
      var f := rq.chunks[rq.served].claim.flight;
      assert FlightOk(cfg, s.fs, s.flights[f], f);
    }
  }

  /** The reference is still with the chunk's own goroutines. */
  predicate RefOnTheWay(c: Chunk, f: nat) {
    c.claim == AwaitDone(f) || RefIn(ClaimerResult(c), f) > 0 || RefIn(ProducerResult(c), f) > 0
  }

  lemma OnTheWayMoves(cfg: Config, s: State, r: nat, i: nat, f: nat, reading: bool) returns (step: Step)
    requires r < |s.requests| && i < |s.requests[r].chunks| && ChunkOk(s.requests[r], i)
    requires LinkOk(cfg, s.flights, s.fs, s.requests[r], i)
    requires f < |s.flights| && s.flights[f].lead.Over?
    requires RefOnTheWay(s.requests[r].chunks[i], f)
    ensures CanMove(cfg, s, step, reading)
  {
    var rq := s.requests[r];
    var c := rq.chunks[i];
    var a :=
      if c.claim == AwaitDone(f) then CClaim(false)
      else if c.prod.Holding? then PHold
      else if c.prod.Sending? then PSend
      else if c.prod.AwaitAdmit? then PSeeAdmit
      else if c.prod.AwaitResult? then PHandoff
      else CDrop;
    step := ReqStep(r, OfChunk(i, a));
  }

  lemma BufferIsHeld(cfg: Config, rq: Request, i: nat)
    requires ControlOk(cfg.guardOn, rq) && i < |rq.chunks| && !rq.cons.Cleaning? && !rq.cons.Returned?
    requires BufferIn(rq.chunks[i].pending) > 0 || (BufferIn(rq.chunks[i].hand) > 0 && rq.cons.Writing?)
    ensures rq.guard.held > 0 || rq.cons.Closing?
  {
    SumMember(rq.chunks, Counted, i);
  }

  /** The chunk's result has been delivered: it waits in pending or is in the consumer's hand. */
  predicate RefDelivered(c: Chunk, f: nat) {
    RefIn(c.pending, f) > 0 || RefIn(c.hand, f) > 0
  }

  lemma DeliveredShape(cfg: Config, s: State, r: nat, i: nat, f: nat)
    requires r < |s.requests| && i < |s.requests[r].chunks| && ChunkOk(s.requests[r], i) && ConsOk(s.requests[r])
    requires LinkOk(cfg, s.flights, s.fs, s.requests[r], i)
    requires f < |s.flights| && s.flights[f].lead.Over? && s.flights[f].lead.out.Buffered?
    requires RefDelivered(s.requests[r].chunks[i], f)
    ensures var rq := s.requests[r];
            && rq.served <= i < rq.started && !rq.cons.Returned? && !rq.chunks[i].claim.AwaitDone?
            && (BufferIn(rq.chunks[i].pending) > 0 || (BufferIn(rq.chunks[i].hand) > 0 && InHand(rq.cons)))
  {
  }

  lemma DeliveredMoves(cfg: Config, s: State, r: nat, i: nat, f: nat, reading: bool) returns (step: Step)
    requires BudgetOk(cfg, s) && FlightsOk(cfg, s.fs, s.flights) && SfOk(s)
    requires r < |s.requests| && RequestOk(cfg, s.requests[r]) && LinksOk(cfg, s.flights, s.fs, s.requests[r])
    requires i < |s.requests[r].chunks| && RefDelivered(s.requests[r].chunks[i], f)
    requires f < |s.flights| && s.flights[f].lead.Over? && s.flights[f].lead.out.Buffered?
    requires reading || cfg.guardOn
    ensures CanMove(cfg, s, step, reading)
  {
    var rq := s.requests[r];
    assert ChunkOk(rq, i) && LinkOk(cfg, s.flights, s.fs, rq, i);
    DeliveredShape(cfg, s, r, i, f);
    if rq.cons.Cleaning? || rq.cons.Closing? || rq.cons.Starting? || rq.cons.Ending? {
      step := ServingMoves(cfg, s, r, reading);
    } else {
      BufferIsHeld(cfg, rq, i);
      if rq.served < i {
        OrderFreesHead(cfg, s, r, i);
      }
      step := RequestMoves(cfg, s, r, reading);
    }
  }

  /** A buffered flight that still holds its unit has a holder that can move. */
  lemma HolderMoves(cfg: Config, s: State, f: nat, reading: bool) returns (step: Step)
    requires Inv(cfg, s) && f < |s.flights| && HoldsUnit(s.flights[f]) && s.flights[f].lead.Over?
    requires s.flights[f].free.Held?
    requires reading || cfg.guardOn
    ensures CanMove(cfg, s, step, reading)
  {
    assert FlightOk(cfg, s.fs, s.flights[f], f);
    assert Refs(s, f) == Count(s.flights[f]);
    var r, i := RefsWitness(s, f);
    var rq := s.requests[r];
    assert ChunkOk(rq, i) && LinkOk(cfg, s.flights, s.fs, rq, i);
    if RefOnTheWay(rq.chunks[i], f) {
      step := OnTheWayMoves(cfg, s, r, i, f, reading);
    } else {
      step := DeliveredMoves(cfg, s, r, i, f, reading);
    }
  }

  /** A fetch waiting for budget never waits in a stuck system, even when no client reads:
      a unit is free, or somebody who holds one can go on. */
  lemma QueueMoves(cfg: Config, s: State, f: nat, reading: bool) returns (step: Step)
    requires Inv(cfg, s) && f < |s.flights| && s.flights[f].lead.Queued?
    requires reading || cfg.guardOn
    ensures CanMove(cfg, s, step, reading)
  {
    if s.units < cfg.budget {
      step := LeadDo(f, LAcquire);
    } else {
      var h := SumPositive(s.flights, UnitWeight);
      assert FlightOk(cfg, s.fs, s.flights[h], h);
      if !s.flights[h].lead.Over? {
        step := LeaderMoves(cfg, s, h, reading);
      } else if s.flights[h].free.Held? {
        step := HolderMoves(cfg, s, h, reading);
      } else {
        step := FreeMoves(cfg, s, h, reading);
      }
    }
  }

  // ---- the whole system ----

  lemma SettlingMoves(cfg: Config, s: State, r: nat, i: nat, reading: bool) returns (step: Step)
    requires r < |s.requests| && i < |s.requests[r].chunks| && s.requests[r].cons.Returned?
    requires ControlOk(cfg.guardOn, s.requests[r]) && LinkOk(cfg, s.flights, s.fs, s.requests[r], i)
    requires var c := s.requests[r].chunks[i];
             c.claim.Offering? || (c.claim.AwaitDone? && s.flights[c.claim.flight].lead.Over?)
    ensures CanMove(cfg, s, step, reading)
  {
    step := ReqStep(r, OfChunk(i, if s.requests[r].chunks[i].claim.Offering? then CDrop else CClaim(false)));
  }

  /** With every request finished nothing refers to a flight. */
  lemma FinishedHoldNothing(cfg: Config, s: State, f: nat)
    requires RequestsOk(cfg, s)
    requires forall r :: 0 <= r < |s.requests| ==> RequestFinished(s.requests[r])
    ensures Refs(s, f) <= 0
  {
    if Refs(s, f) > 0 {
      var r, i := RefsWitness(s, f);
      NoRefInFinished(s.requests[r], i, f);
    }
  }

  lemma NoRefInFinished(rq: Request, i: nat, f: nat)
    requires i < |rq.chunks| && ChunksOk(rq) && RequestFinished(rq) && ConsOk(rq)
    ensures ChunkRefs(rq.chunks[i], f) <= 0
  {
    assert ChunkOk(rq, i);
  }

  /** No flight is in the queue. */
  predicate QueueEmpty(s: State) {
    forall f :: 0 <= f < |s.flights| ==> !s.flights[f].lead.Queued?
  }

  lemma UnfinishedRequestMoves(cfg: Config, s: State, r: nat) returns (step: Step)
    requires Inv(cfg, s) && QueueEmpty(s)
    requires forall f :: 0 <= f < |s.flights| ==> s.flights[f].lead.Over?
    requires r < |s.requests| && !RequestFinished(s.requests[r])
    ensures CanMove(cfg, s, step, true)
  {
    var rq := s.requests[r];
    if !rq.cons.Returned? {
      step := RequestMoves(cfg, s, r, true);
    } else {
      var i :| 0 <= i < |rq.chunks| && !(rq.chunks[i].claim.NoClaim? || rq.chunks[i].claim.Settled?);
      assert LinkOk(cfg, s.flights, s.fs, rq, i);
      step := SettlingMoves(cfg, s, r, i, true);
    }
  }

  /** Deadlock freedom: in a state that satisfies the invariant, either everything is finished
      or a step is enabled that is no timeout, no cancellation and no failed write. */
  lemma NoDeadlock(cfg: Config, s: State) returns (step: Step)
    requires Inv(cfg, s) && !Finished(s)
    ensures CanMove(cfg, s, step, true)
  {
    if f :| 0 <= f < |s.flights| && s.flights[f].lead.Queued? {
      step := QueueMoves(cfg, s, f, true);
    } else if f :| 0 <= f < |s.flights| && !s.flights[f].lead.Over? {
      assert FlightOk(cfg, s.fs, s.flights[f], f);
      step := LeaderMoves(cfg, s, f, true);
    } else if r :| 0 <= r < |s.requests| && !RequestFinished(s.requests[r]) {
      step := UnfinishedRequestMoves(cfg, s, r);
    } else {
      var f :| 0 <= f < |s.flights| && !FlightFinished(s.flights[f]);
      assert FlightOk(cfg, s.fs, s.flights[f], f);
      assert Refs(s, f) == Count(s.flights[f]);
      FinishedHoldNothing(cfg, s, f);
      step := FreeMoves(cfg, s, f, true);
    }
  }

  /** When everything is finished, everything has been given back. */
  lemma FinishedReturnsAll(cfg: Config, s: State)
    requires Inv(cfg, s) && Finished(s)
    ensures s.units == 0 && s.inUse == 0 && s.sf == map[]
  {
    forall f | 0 <= f < |s.flights|
      ensures UnitWeight(s.flights[f]) == 0 && ByteWeight(s.flights[f]) == 0 && !Joinable(s.flights[f])
    {
      assert FlightFinished(s.flights[f]);
    }
    SumZero(s.flights, UnitWeight);
    SumZero(s.flights, ByteWeight);
    assert forall id :: id !in s.sf;
  }
}
