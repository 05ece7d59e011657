/** When a whole body goes with an error. serveAligned answers nil only after the whole span,
    but the converse fails in one case: every byte is written and the last flush fails. */
module Flush {
  import opened Base
  import opened Tiling
  import opened WriteGuard
  import opened Protocol
  import opened Invariants
  import opened ResponseSafety
  import opened FlightSafety
  import opened Progress
  import opened Theorems
  import opened Guards

  /** On the way out after a failed write. */
  predicate FailedWrite(cons: Consumer) {
    match cons
    case Ending(ok) => !ok
    case Closing(ok) => !ok
    case Aborting(cause) => cause.WriteError?
    case Cleaning(_, cause) => cause.WriteError?
    case Returned(error) => error == Some(WriteError)
    case _ => false
  }

  /** The whole span has been sent. */
  predicate WholeSent(cfg: Config, rq: Request) {
    && rq.ver in cfg.objects && rq.first <= rq.last < |cfg.objects[rq.ver]|
    && rq.body == cfg.objects[rq.ver][rq.first..rq.last + 1]
  }

  predicate LateError(cfg: Config, rq: Request) { WholeSent(cfg, rq) && FailedWrite(rq.cons) }

  predicate LateAt(cfg: Config, s: State, r: nat) {
    r < |s.requests| && LateError(cfg, s.requests[r])
  }

  /** Every byte of the last chunk has been written. */
  predicate AllWritten(s: State, rq: Request) {
    rq.cons.Writing? && rq.served + 1 == |rq.chunks| && rq.cons.done == |CurrentSlice(s, rq)|
  }

  predicate LastFlushFails(s: State, step: Step, r: nat) {
    step == ReqStep(r, Cons(KWriteFail)) && r < |s.requests| && AllWritten(s, s.requests[r])
  }

  lemma WriteFailsLate(cfg: Config, s: State, rq: Request)
    requires RequestOk(cfg, rq) && LinksOk(cfg, s.flights, s.fs, rq) && FlightsOk(cfg, s.fs, s.flights)
    requires rq.cons.Writing?
    ensures WholeSent(cfg, rq) <==> AllWritten(s, rq)
  {
    SliceLength(cfg, s, rq);
    BoundStepIf(cfg, rq);
    if rq.served + 1 < |rq.chunks| {
      BoundStepIf(cfg, rq.(served := rq.served + 1));
    }
  }

  /** The other steps do not touch a finished body or the way out. */
  lemma QuietActLate(cfg: Config, s: State, rq: Request, act: ConsAct)
    requires ConsEnabled(s, rq, act) && !act.KWriteFail?
    ensures LateError(cfg, ConsNext(cfg, s, rq, act)) <==> LateError(cfg, rq)
  {
  }

  lemma OtherActLate(cfg: Config, s: State, rq: Request, act: Act)
    requires Enabled(cfg, s, rq, act) && !act.Cons?
    ensures LateError(cfg, NextRequest(cfg, s, rq, act)) <==> LateError(cfg, rq)
  {
  }

  lemma ReqActLate(cfg: Config, s: State, rq: Request, act: Act)
    requires RequestOk(cfg, rq) && LinksOk(cfg, s.flights, s.fs, rq) && FlightsOk(cfg, s.fs, s.flights)
    requires Enabled(cfg, s, rq, act)
    ensures LateError(cfg, NextRequest(cfg, s, rq, act))
       <==> LateError(cfg, rq) || (act == Cons(KWriteFail) && AllWritten(s, rq))
  {
    if !act.Cons? {
      OtherActLate(cfg, s, rq, act);
    } else if act.k.KWriteFail? {
      WriteFailsLate(cfg, s, rq);
    } else {
      QuietActLate(cfg, s, rq, act.k);
    }
  }

  lemma JoinLate(cfg: Config, s: State, q: nat, i: nat, r: nat)
    requires JoinEnabled(s, q, i)
    ensures LateAt(cfg, JoinStep(cfg, s, q, i), r) <==> LateAt(cfg, s, r)
  {
  }

  lemma ReqStepLate(cfg: Config, s: State, q: nat, act: Act, r: nat)
    requires RequestsOk(cfg, s) && FlightsOk(cfg, s.fs, s.flights) && StepEnabled(cfg, s, ReqStep(q, act))
    ensures LateAt(cfg, Next(cfg, s, ReqStep(q, act)), r)
       <==> LateAt(cfg, s, r) || LastFlushFails(s, ReqStep(q, act), r)
  {
    if q == r {
      ReqActLate(cfg, s, s.requests[r], act);
    }
  }

  /** A whole body ends up with an error exactly by a last flush that fails. */
  lemma StepLate(cfg: Config, s: State, step: Step, r: nat)
    requires RequestsOk(cfg, s) && FlightsOk(cfg, s.fs, s.flights) && StepEnabled(cfg, s, step) && !step.Crash?
    ensures LateAt(cfg, Next(cfg, s, step), r) <==> LateAt(cfg, s, r) || LastFlushFails(s, step, r)
  {
    match step
    case ReqStep(q, act) => ReqStepLate(cfg, s, q, act, r);
    case Join(q, i) => JoinLate(cfg, s, q, i, r);
    case LeadDo(f, act) => LeadKeepsRequests(cfg, s, f, act);
    case _ =>
  }

  ghost predicate FlushFailed(states: seq<State>, steps: seq<Step>, r: nat, n: nat)
    requires n <= |steps| < |states|
  {
    exists k :: 0 <= k < n && LastFlushFails(states[k], steps[k], r)
  }

  lemma {:induction false} LateAlong(cfg: Config, states: seq<State>, steps: seq<Step>, r: nat, n: nat)
    requires Follows(cfg, states, steps) && Inv(cfg, states[0]) && states[0].requests == []
    requires (forall k :: 0 <= k < |steps| ==> !steps[k].Crash?) && n <= |steps|
    ensures LateAt(cfg, states[n], r) <==> FlushFailed(states, steps, r, n)
  {
    if n > 0 {
      LateAlong(cfg, states, steps, r, n - 1);
      LateNext(cfg, states, steps, r, n - 1);
      FlushFailedNext(states, steps, r, n - 1);
    }
  }

  lemma LateNext(cfg: Config, states: seq<State>, steps: seq<Step>, r: nat, n: nat)
    requires Follows(cfg, states, steps) && Inv(cfg, states[0]) && n < |steps| && !steps[n].Crash?
    ensures LateAt(cfg, states[n + 1], r) <==> LateAt(cfg, states[n], r) || LastFlushFails(states[n], steps[n], r)
  {
    FollowsInv(cfg, states, steps, n);
    StepLate(cfg, states[n], steps[n], r);
  }

  lemma FlushFailedNext(states: seq<State>, steps: seq<Step>, r: nat, n: nat)
    requires n < |steps| < |states|
    ensures FlushFailed(states, steps, r, n + 1)
       <==> FlushFailed(states, steps, r, n) || LastFlushFails(states[n], steps[n], r)
  {
  }

  /** In the life of any process, the first or one that starts after crashes: for a request that
      has returned, "nil exactly when the whole span was sent" holds if and only if no flush
      failed after its last byte was written. */
  lemma NilExactlyWhenWhole(cfg: Config, states: seq<State>, steps: seq<Step>, r: nat)
    requires AsWritten(cfg) && Follows(cfg, states, steps)
    requires Reachable(cfg, states[0]) && states[0].requests == []
    requires forall k :: 0 <= k < |steps| ==> !steps[k].Crash?
    requires r < |states[|steps|].requests| && states[|steps|].requests[r].cons.Returned?
    ensures var rq := states[|steps|].requests[r];
            (rq.cons.error.None? <==> WholeSent(cfg, rq)) <==> !FlushFailed(states, steps, r, |steps|)
  {
    ReachableInv(cfg, states[0]);
    LateAlong(cfg, states, steps, r, |steps|);
    FollowsInv(cfg, states, steps, |steps|);
    ReturnedLate(cfg, states[|steps|].requests[r]);
  }

  lemma ReturnedLate(cfg: Config, rq: Request)
    requires RequestOk(cfg, rq) && rq.cons.Returned?
    ensures (rq.cons.error.None? <==> WholeSent(cfg, rq)) <==> !LateError(cfg, rq)
  {
    assert BodyAt(Span(cfg, rq), rq.cons, rq.body, Upto(cfg, rq, rq.served), Upto(cfg, rq, rq.served + 1));
  }

  // ---- it does happen ----

  /** One object of one byte, nothing cached. */
  function One(): Config { Config(1, 1, 4, false, true, map[V := [7]], true, true) }

  function Only(c: Chunk): Request {
    Request(V, 0, 0, false, AwaitAdmission, 1, 1, [c], Waiting, 0, 0, FreshGuard, Unwritten, [])
  }

  function Alone(rq: Request, flights: seq<Flight>, sf: map<ChunkId, nat>, units: int, inUse: int): State {
    World(rq, flights, sf, units, inUse)
  }

  lemma NewSingle(cfg: Config, ver: Version, first: nat, last: nat, c: Chunk)
    requires cfg.chunkSize >= 1 && first <= last && ChunkCount(cfg.chunkSize, first, last) == 1
    requires FreshChunk(cfg, ver, first, 0) == c
    ensures NewRequest(cfg, ver, first, last)
         == Request(ver, first, last, false, TakeSlot, 0, 0, [c], Waiting, 0, 0, FreshGuard, Unwritten, [])
  {
    assert NewRequest(cfg, ver, first, last).chunks == [c];
  }

  lemma NewOnly(cfg: Config, first: nat, c: Chunk)
    requires cfg.chunkSize == 1 && c == Fresh(ChunkId(V, first))
    ensures NewRequest(cfg, V, first, first)
         == Request(V, first, first, false, TakeSlot, 0, 0, [c], Waiting, 0, 0, FreshGuard, Unwritten, [])
  {
    TinyCount(cfg.chunkSize, first, first);
    TinyChunk(cfg, first, 0);
    NewSingle(cfg, V, first, first, c);
  }

  function Arriving(): Request { Only(Fresh(ID0)).(disp := TakeSlot, started := 0, slots := 0) }

  lemma OnlyArrived()
    ensures Reachable(One(), Alone(Arriving(), [], map[], 0, 0))
  {
    var cfg := One();
    ReachStart(cfg, EMPTY);
    ReachStep(cfg, EMPTY, Upload(V));
    var s := EMPTY.(current := map["k" := "e"]);
    assert Next(cfg, EMPTY, Upload(V)) == s;
    ReachStep(cfg, s, Arrive(V, 0, 0));
    NewOnly(cfg, 0, Fresh(ID0));
    assert Next(cfg, s, Arrive(V, 0, 0)) == Alone(Arriving(), [], map[], 0, 0);
  }

  lemma OnlyLooking()
    ensures Reachable(One(), Alone(Only(Look(ID0)), [], map[], 0, 0))
  {
    var cfg := One();
    OnlyArrived();
    var q1 := Arriving().(disp := CheckCancel, slots := 1);
    Does(cfg, Alone(Arriving(), [], map[], 0, 0), Disp(DTakeSlot), q1);
    Does(cfg, Alone(q1, [], map[], 0, 0), Disp(DCheckCancel), Only(Look(ID0)));
  }

  lemma OneByte(cfg: Config, off: nat)
    requires cfg.objects == map[V := [7]] && cfg.chunkSize == 1 && off == 0
    ensures BytesOf(cfg, ChunkId(V, off)) == [7]
  {
  }

  const SF0 := map[ID0 := 0]

  lemma OnlyJoined()
    ensures Reachable(One(), Alone(Only(Wait(ID0, 0)), [NewTiny(ID0)], SF0, 0, 0))
  {
    var cfg := One();
    OnlyLooking();
    Does(cfg, Alone(Only(Look(ID0)), [], map[], 0, 0), OfChunk(0, PMiss), Only(Join'(ID0)));
    var s := Alone(Only(Join'(ID0)), [], map[], 0, 0);
    OneByte(cfg, 0);
    Joins(cfg, s, 0, Only(Wait(ID0, 0)));
    assert s.(requests := [Only(Wait(ID0, 0))], flights := [] + [NewTiny(ID0)], sf := map[][ID0 := 0])
        == Alone(Only(Wait(ID0, 0)), [NewTiny(ID0)], SF0, 0, 0);
  }

  function Flying(lead: Lead, admitted: bool, refs: int, buf: seq<Byte>, sf: map<ChunkId, nat>, units: int, inUse: int)
    : State
  {
    Alone(Only(Wait(ID0, 0)), [Flight(ID0, 1, lead, admitted, 1, refs, Held, buf)], sf, units, inUse)
  }

  lemma OnlyLoaded()
    ensures Reachable(One(), Flying(Loaded, true, 0, [7], SF0, 1, 1))
  {
    var cfg := One();
    OnlyJoined();
    OneByte(cfg, 0);
    Leads(cfg, Flying(Queued, false, 0, [], SF0, 0, 0), 0, LAcquire, Flying(Acquired, false, 0, [], SF0, 1, 0));
    Leads(cfg, Flying(Acquired, false, 0, [], SF0, 1, 0), 0, LAdmit, Flying(Admitted, true, 0, [], SF0, 1, 0));
    Leads(cfg, Flying(Admitted, true, 0, [], SF0, 1, 0), 0, LAlloc, Flying(Loading, true, 0, [], SF0, 1, 1));
    Leads(cfg, Flying(Loading, true, 0, [], SF0, 1, 1), 0, LDownload, Flying(Loaded, true, 0, [7], SF0, 1, 1));
  }

  lemma OnlyFinished()
    ensures Reachable(One(), Flying(Publishing(Buffered), true, 1, [7], map[], 1, 1))
  {
    var cfg := One();
    OnlyLoaded();
    Leads(cfg, Flying(Loaded, true, 0, [7], SF0, 1, 1), 0, LPutFail,
          Flying(Finishing(Buffered), true, 0, [7], SF0, 1, 1));
    assert SF0 - {ID0} == map[];
    Leads(cfg, Flying(Finishing(Buffered), true, 0, [7], SF0, 1, 1), 0, LFinish,
          Flying(Publishing(Buffered), true, 1, [7], map[], 1, 1));
  }

  lemma OnlyDone()
    ensures Reachable(One(), Flying(Over(Buffered), true, 1, [7], map[], 1, 1))
  {
    var cfg := One();
    OnlyFinished();
    Leads(cfg, Flying(Publishing(Buffered), true, 1, [7], map[], 1, 1), 0, LPublish,
          Flying(Closing'(Buffered), true, 1, [7], map[], 1, 1));
    Leads(cfg, Flying(Closing'(Buffered), true, 1, [7], map[], 1, 1), 0, LCloseDone,
          Flying(Over(Buffered), true, 1, [7], map[], 1, 1));
  }

  function Landed(rq: Request): State {
    Alone(rq, [Flight(ID0, 1, Over(Buffered), true, 1, 1, Held, [7])], map[], 1, 1)
  }

  function InHandChunk(): Chunk { Chunk(ID0, true, Sent, Settled, None, Some(SharedBuffer(0)), 1, 0) }

  lemma OnlyDelivered()
    ensures Reachable(One(), Landed(Only(InHandChunk()).(
              cons := Starting, received := 1, guard := GuardState(1, false, false))))
  {
    var cfg := One();
    OnlyDone();
    var c1 := Wait(ID0, 0).(admitted := true, prod := AwaitResult(0));
    Does(cfg, Landed(Only(Wait(ID0, 0))), OfChunk(0, PSeeAdmit), Only(c1));
    var c2 := c1.(claim := Offering(SharedBuffer(0)), made := 1);
    Does(cfg, Landed(Only(c1)), OfChunk(0, CClaim(false)), Only(c2));
    var c3 := c2.(prod := Holding(SharedBuffer(0)), claim := Settled);
    Does(cfg, Landed(Only(c2)), OfChunk(0, PHandoff), Only(c3));
    var c4, g := c3.(prod := Sending(SharedBuffer(0))), GuardState(1, false, false);
    Does(cfg, Landed(Only(c3)), OfChunk(0, PHold), Only(c4).(guard := g));
    var c5 := c4.(prod := Sent, pending := Some(SharedBuffer(0)));
    Does(cfg, Landed(Only(c4).(guard := g)), OfChunk(0, PSend), Only(c5).(guard := g));
    var q := Only(InHandChunk()).(cons := Starting, received := 1, guard := g);
    Does(cfg, Landed(Only(c5).(guard := g)), Cons(KReceive), q);
  }

  function Written(done: nat, body: seq<Byte>): Request {
    Only(InHandChunk()).(cons := Writing(done), received := 1, guard := GuardState(1, true, true),
                         status := Success, body := body)
  }

  lemma SliceIsAll(done: nat, body: seq<Byte>)
    ensures CurrentSlice(Landed(Written(done, body)), Written(done, body)) == [7]
  {
  }

  lemma OnlyWritten()
    ensures Reachable(One(), Landed(Written(1, [7])))
  {
    var cfg := One();
    OnlyDelivered();
    Does(cfg, Landed(Only(InHandChunk()).(cons := Starting, received := 1, guard := GuardState(1, false, false))),
         Cons(KBegin), Written(0, []));
    SliceIsAll(0, []);
    Does(cfg, Landed(Written(0, [])), Cons(KWrite(1)), Written(1, [7]));
  }

  /** A one-byte response is sent in full and its flush fails. */
  lemma FlushHasFailed() returns (s: State)
    ensures Reachable(One(), s) && LateAt(One(), s, 0)
  {
    var cfg := One();
    OnlyWritten();
    SliceIsAll(1, [7]);
    var written := Landed(Written(1, [7]));
    var rq := Written(1, [7]).(cons := Ending(false));
    Does(cfg, written, Cons(KWriteFail), rq);
    s := written.(requests := [rq]);
    assert LateError(cfg, rq);
  }

  lemma {:induction false} LateStays(cfg: Config, states: seq<State>, steps: seq<Step>, r: nat, n: nat)
    requires Follows(cfg, states, steps) && Inv(cfg, states[0]) && LateAt(cfg, states[0], r) && n < |states|
    requires forall k :: 0 <= k < |steps| ==> !steps[k].Crash?
    ensures LateAt(cfg, states[n], r)
  {
    if n > 0 {
      LateStays(cfg, states, steps, r, n - 1);
      LateNext(cfg, states, steps, r, n - 1);
    }
  }

  /** A request that has sent its whole span, and returns an error. */
  lemma WholeBodyWithError()
    ensures exists s :: Reachable(One(), s) && |s.requests| > 0 && WholeSent(One(), s.requests[0])
              && s.requests[0].cons == Returned(Some(WriteError))
  {
    var cfg := One();
    var late := FlushHasFailed();
    ReachableInv(cfg, late);
    var states, steps := RunsToCompletion(cfg, late);
    forall k | 0 <= k < |steps| ensures !steps[k].Crash? {
      assert CanMove(cfg, states[k], steps[k], true);
    }
    LateStays(cfg, states, steps, 0, |steps|);
    FollowsReachable(cfg, states, steps, |steps|);
    var s := states[|steps|];
    assert RequestFinished(s.requests[0]);
    assert Reachable(cfg, s) && WholeSent(cfg, s.requests[0]);
  }
}
