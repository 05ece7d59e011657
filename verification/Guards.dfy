/** What the dispatcher's two guards are for: without the admission wait a budget of one unit
    deadlocks on a two-chunk request; without the cancel check a cancelled request starts a
    chunk while an earlier one still waits for budget. */
module Guards {
  import opened Base
  import opened Tiling
  import opened WriteGuard
  import opened Protocol
  import opened Progress
  import opened Theorems

  const V := Version("k", "e")

  /** Two one-byte chunks, a budget of one, nothing cached. */
  function Tiny(waitAdmission: bool, checkCancel: bool): Config {
    Config(1, 1, 4, false, true, map[V := [1, 2]], waitAdmission, checkCancel)
  }

  const ID0 := ChunkId(V, 0)
  const ID1 := ChunkId(V, 1)

  function Fresh(id: ChunkId): Chunk { Chunk(id, false, NotStarted, NoClaim, None, None, 0, 0) }

  function Serving(cancelled: bool, disp: Dispatcher, started: nat, slots: int, c0: Chunk, c1: Chunk): Request {
    Request(V, 0, 1, cancelled, disp, started, slots, [c0, c1], Waiting, 0, 0, FreshGuard, Unwritten, [])
  }

  function World(rq: Request, flights: seq<Flight>, sf: map<ChunkId, nat>, units: int, inUse: int): State {
    State([rq], flights, sf, units, inUse, Fs(map[], []), map["k" := "e"])
  }

  const EMPTY := State([], [], map[], 0, 0, Fs(map[], []), map[])

  lemma QuotientByOne(a: nat)
    ensures a / 1 == a
  {
  }

  lemma TinyCount(size: nat, first: nat, last: nat)
    requires size == 1 && first <= last
    ensures ChunkCount(size, first, last) == last - first + 1
  {
    QuotientByOne(first);
    QuotientByOne(last);
  }

  lemma TinyOffset(size: nat, first: nat, i: nat)
    requires size == 1
    ensures ChunkOff(size, first, i) == first + i
  {
    QuotientByOne(first);
  }

  lemma TinyBytes(cfg: Config, off: nat)
    requires cfg.objects == map[V := [1, 2]] && cfg.chunkSize == 1 && off < 2
    ensures BytesOf(cfg, ChunkId(V, off)) == [if off == 0 then 1 else 2]
  {
  }

  function Begun(): Request { Serving(false, TakeSlot, 0, 0, Fresh(ID0), Fresh(ID1)) }

  lemma TinyChunk(cfg: Config, first: nat, i: nat)
    requires cfg.chunkSize == 1
    ensures FreshChunk(cfg, V, first, i) == Fresh(ChunkId(V, first + i))
  {
    TinyOffset(cfg.chunkSize, first, i);
  }

  /** A new request with two chunks. */
  lemma NewPair(cfg: Config, ver: Version, first: nat, last: nat, c0: Chunk, c1: Chunk)
    requires cfg.chunkSize >= 1 && first <= last && ChunkCount(cfg.chunkSize, first, last) == 2
    requires FreshChunk(cfg, ver, first, 0) == c0 && FreshChunk(cfg, ver, first, 1) == c1
    ensures NewRequest(cfg, ver, first, last)
         == Request(ver, first, last, false, TakeSlot, 0, 0, [c0, c1], Waiting, 0, 0, FreshGuard, Unwritten, [])
  {
    assert NewRequest(cfg, ver, first, last).chunks == [c0, c1];
  }

  lemma NewIsBegun(cfg: Config, first: nat, last: nat, c0: Chunk, c1: Chunk)
    requires cfg.chunkSize == 1 && last == first + 1
    requires c0 == Fresh(ChunkId(V, first)) && c1 == Fresh(ChunkId(V, last))
    ensures NewRequest(cfg, V, first, last)
         == Request(V, first, last, false, TakeSlot, 0, 0, [c0, c1], Waiting, 0, 0, FreshGuard, Unwritten, [])
  {
    TinyCount(cfg.chunkSize, first, last);
    TinyChunk(cfg, first, 0);
    TinyChunk(cfg, first, 1);
    NewPair(cfg, V, first, last, c0, c1);
  }

  lemma Arrived(cfg: Config)
    requires cfg.objects == map[V := [1, 2]] && cfg.chunkSize == 1
    ensures Reachable(cfg, World(Begun(), [], map[], 0, 0))
  {
    ReachStart(cfg, EMPTY);
    ReachStep(cfg, EMPTY, Upload(V));
    var s := Next(cfg, EMPTY, Upload(V));
    assert s == EMPTY.(current := map["k" := "e"]);
    ReachStep(cfg, s, Arrive(V, 0, 1));
    NewIsBegun(cfg, 0, 1, Fresh(ID0), Fresh(ID1));
    assert Next(cfg, s, Arrive(V, 0, 1)) == World(Begun(), [], map[], 0, 0);
  }

  lemma Does(cfg: Config, s: State, act: Act, rq: Request)
    requires Reachable(cfg, s) && |s.requests| == 1 && Enabled(cfg, s, s.requests[0], act)
    requires NextRequest(cfg, s, s.requests[0], act) == rq && Dropped(cfg, s, s.requests[0], act) == None
    ensures Reachable(cfg, s.(requests := [rq]))
  {
    ReachStep(cfg, s, ReqStep(0, act));
    assert Next(cfg, s, ReqStep(0, act)) == s.(requests := [rq]);
  }

  function Look(id: ChunkId): Chunk { Fresh(id).(prod := Looking) }

  function Join'(id: ChunkId): Chunk { Fresh(id).(prod := Joining) }

  function Wait(id: ChunkId, f: nat): Chunk { Fresh(id).(prod := AwaitAdmit(f), claim := AwaitDone(f)) }

  // ---- without the admission wait ----

  lemma BothLooking(cfg: Config)
    requires cfg == Tiny(false, true)
    ensures Reachable(cfg, World(Serving(false, Exited, 2, 2, Look(ID0), Look(ID1)), [], map[], 0, 0))
  {
    Arrived(cfg);
    var q1 := Serving(false, CheckCancel, 0, 1, Fresh(ID0), Fresh(ID1));
    Does(cfg, World(Begun(), [], map[], 0, 0), Disp(DTakeSlot), q1);
    var q2 := Serving(false, TakeSlot, 1, 1, Look(ID0), Fresh(ID1));
    Does(cfg, World(q1, [], map[], 0, 0), Disp(DCheckCancel), q2);
    var q3 := Serving(false, CheckCancel, 1, 2, Look(ID0), Fresh(ID1));
    Does(cfg, World(q2, [], map[], 0, 0), Disp(DTakeSlot), q3);
    var q4 := Serving(false, Exited, 2, 2, Look(ID0), Look(ID1));
    Does(cfg, World(q3, [], map[], 0, 0), Disp(DCheckCancel), q4);
  }

  function NewTiny(id: ChunkId): Flight { Flight(id, 1, Queued, false, 1, 0, Held, []) }

  lemma Joins(cfg: Config, s: State, i: nat, rq: Request)
    requires Reachable(cfg, s) && |s.requests| == 1 && JoinEnabled(s, 0, i)
    requires s.requests[0].chunks[i].id !in s.sf && |BytesOf(cfg, s.requests[0].chunks[i].id)| == 1
    requires rq == WithChunk(s.requests[0], i,
                             s.requests[0].chunks[i].(prod := AwaitAdmit(|s.flights|), claim := AwaitDone(|s.flights|)))
    ensures var id := s.requests[0].chunks[i].id;
            Reachable(cfg, s.(requests := [rq], flights := s.flights + [NewTiny(id)], sf := s.sf[id := |s.flights|]))
  {
    var id := s.requests[0].chunks[i].id;
    ReachStep(cfg, s, Join(0, i));
    assert NewFlight(cfg, id) == NewTiny(id);
    assert JoinStep(cfg, s, 0, i)
        == s.(requests := [rq], flights := s.flights + [NewTiny(id)], sf := s.sf[id := |s.flights|]);
  }

  const SF2 := map[ID1 := 0, ID0 := 1]

  /** Chunk 1 joins first. */
  lemma BothJoined(cfg: Config)
    requires cfg == Tiny(false, true)
    ensures Reachable(cfg, World(Serving(false, Exited, 2, 2, Wait(ID0, 1), Wait(ID1, 0)),
                                 [NewTiny(ID1), NewTiny(ID0)], SF2, 0, 0))
  {
    BothLooking(cfg);
    var q0 := Serving(false, Exited, 2, 2, Look(ID0), Look(ID1));
    var q1 := Serving(false, Exited, 2, 2, Look(ID0), Join'(ID1));
    Does(cfg, World(q0, [], map[], 0, 0), OfChunk(1, PMiss), q1);
    var q2 := Serving(false, Exited, 2, 2, Look(ID0), Wait(ID1, 0));
    TinyBytes(cfg, 0);
    TinyBytes(cfg, 1);
    Joins(cfg, World(q1, [], map[], 0, 0), 1, q2);
    var s2 := World(q2, [NewTiny(ID1)], map[ID1 := 0], 0, 0);
    assert World(q1, [], map[], 0, 0).(requests := [q2], flights := [] + [NewTiny(ID1)], sf := map[][ID1 := 0]) == s2;
    var q3 := Serving(false, Exited, 2, 2, Join'(ID0), Wait(ID1, 0));
    Does(cfg, s2, OfChunk(0, PMiss), q3);
    var q4 := Serving(false, Exited, 2, 2, Wait(ID0, 1), Wait(ID1, 0));
    Joins(cfg, World(q3, [NewTiny(ID1)], map[ID1 := 0], 0, 0), 0, q4);
  }

  lemma Leads(cfg: Config, s: State, f: nat, act: LeadAct, next: State)
    requires Reachable(cfg, s) && LeadEnabled(cfg, s, f, act) && LeadStep(cfg, s, f, act) == next
    ensures Reachable(cfg, next)
  {
    ReachStep(cfg, s, LeadDo(f, act));
  }

  function Led(lead: Lead, admitted: bool, refs: int, buf: seq<Byte>): Flight {
    Flight(ID1, 1, lead, admitted, 1, refs, Held, buf)
  }

  function During(fl: Flight, sf: map<ChunkId, nat>, units: int, inUse: int): State {
    World(Serving(false, Exited, 2, 2, Wait(ID0, 1), Wait(ID1, 0)), [fl, NewTiny(ID0)], sf, units, inUse)
  }

  /** Its fetch takes the only unit and ends uncached. */
  lemma Chunk1Loaded(cfg: Config)
    requires cfg == Tiny(false, true)
    ensures Reachable(cfg, During(Led(Loaded, true, 0, [2]), SF2, 1, 1))
  {
    BothJoined(cfg);
    TinyBytes(cfg, 1);
    Leads(cfg, During(Led(Queued, false, 0, []), SF2, 0, 0), 0, LAcquire,
          During(Led(Acquired, false, 0, []), SF2, 1, 0));
    Leads(cfg, During(Led(Acquired, false, 0, []), SF2, 1, 0), 0, LAdmit,
          During(Led(Admitted, true, 0, []), SF2, 1, 0));
    Leads(cfg, During(Led(Admitted, true, 0, []), SF2, 1, 0), 0, LAlloc, During(Led(Loading, true, 0, []), SF2, 1, 1));
    Leads(cfg, During(Led(Loading, true, 0, []), SF2, 1, 1), 0, LDownload,
          During(Led(Loaded, true, 0, [2]), SF2, 1, 1));
  }

  const SF1 := map[ID0 := 1]

  lemma Chunk1Finished(cfg: Config)
    requires cfg == Tiny(false, true)
    ensures Reachable(cfg, During(Led(Publishing(Buffered), true, 1, [2]), SF1, 1, 1))
  {
    Chunk1Loaded(cfg);
    Leads(cfg, During(Led(Loaded, true, 0, [2]), SF2, 1, 1), 0, LPutFail,
          During(Led(Finishing(Buffered), true, 0, [2]), SF2, 1, 1));
    assert SF2 - {ID1} == SF1;
    Leads(cfg, During(Led(Finishing(Buffered), true, 0, [2]), SF2, 1, 1), 0, LFinish,
          During(Led(Publishing(Buffered), true, 1, [2]), SF1, 1, 1));
  }

  lemma Chunk1Done(cfg: Config)
    requires cfg == Tiny(false, true)
    ensures Reachable(cfg, During(Led(Over(Buffered), true, 1, [2]), SF1, 1, 1))
  {
    Chunk1Finished(cfg);
    Leads(cfg, During(Led(Publishing(Buffered), true, 1, [2]), SF1, 1, 1), 0, LPublish,
          During(Led(Closing'(Buffered), true, 1, [2]), SF1, 1, 1));
    Leads(cfg, During(Led(Closing'(Buffered), true, 1, [2]), SF1, 1, 1), 0, LCloseDone,
          During(Led(Over(Buffered), true, 1, [2]), SF1, 1, 1));
  }

  /** Chunk 1's buffer waits for the consumer, which waits for chunk 0, which waits for the
      unit that the buffer holds. */
  function StuckState(): State {
    World(Serving(false, Exited, 2, 2, Wait(ID0, 1),
                  Chunk(ID1, true, Sent, Settled, Some(SharedBuffer(0)), None, 1, 0)).(
            guard := GuardState(1, false, false)),
          [Led(Over(Buffered), true, 1, [2]), NewTiny(ID0)], SF1, 1, 1)
  }

  lemma StuckReachable(cfg: Config)
    requires cfg == Tiny(false, true)
    ensures Reachable(cfg, StuckState())
  {
    Chunk1Done(cfg);
    var fls := [Led(Over(Buffered), true, 1, [2]), NewTiny(ID0)];
    var q0 := Serving(false, Exited, 2, 2, Wait(ID0, 1), Wait(ID1, 0));
    var c1 := Wait(ID1, 0).(admitted := true, prod := AwaitResult(0));
    var q1 := Serving(false, Exited, 2, 2, Wait(ID0, 1), c1);
    Does(cfg, World(q0, fls, SF1, 1, 1), OfChunk(1, PSeeAdmit), q1);
    var c2 := c1.(claim := Offering(SharedBuffer(0)), made := 1);
    var q2 := Serving(false, Exited, 2, 2, Wait(ID0, 1), c2);
    Does(cfg, World(q1, fls, SF1, 1, 1), OfChunk(1, CClaim(false)), q2);
    var c3 := c2.(prod := Holding(SharedBuffer(0)), claim := Settled);
    var q3 := Serving(false, Exited, 2, 2, Wait(ID0, 1), c3);
    Does(cfg, World(q2, fls, SF1, 1, 1), OfChunk(1, PHandoff), q3);
    var c4 := c3.(prod := Sending(SharedBuffer(0)));
    var q4 := Serving(false, Exited, 2, 2, Wait(ID0, 1), c4).(guard := GuardState(1, false, false));
    Does(cfg, World(q3, fls, SF1, 1, 1), OfChunk(1, PHold), q4);
    Does(cfg, World(q4, fls, SF1, 1, 1), OfChunk(1, PSend), StuckState().requests[0]);
  }

  /** Nothing but a timeout or a cancellation is left to happen. */
  lemma StuckForGood(cfg: Config, step: Step)
    requires cfg == Tiny(false, true)
    ensures !CanMove(cfg, StuckState(), step, true)
  {
  }

  /** Drop the admission wait and some reachable state is stuck with nothing served. */
  lemma WithoutAdmissionWaitDeadlocks()
    ensures exists s :: Reachable(Tiny(false, true), s) && !Finished(s)
              && forall step :: !CanMove(Tiny(false, true), s, step, true)
  {
    var s := StuckState();
    StuckReachable(Tiny(false, true));
    assert !RequestFinished(s.requests[0]);
    forall step ensures !CanMove(Tiny(false, true), s, step, true) {
      StuckForGood(Tiny(false, true), step);
    }
    assert Reachable(Tiny(false, true), s) && !Finished(s);
  }

  // ---- without the cancel check ----

  /** Drop the cancel check and a cancelled request starts chunk 1 while chunk 0 still waits
      for budget. */
  lemma WithoutCancelCheckOutOfOrder()
    ensures exists s :: Reachable(Tiny(true, false), s) && !AdmittedInOrder(s)
  {
    var cfg := Tiny(true, false);
    Arrived(cfg);
    var q1 := Serving(false, CheckCancel, 0, 1, Fresh(ID0), Fresh(ID1));
    Does(cfg, World(Begun(), [], map[], 0, 0), Disp(DTakeSlot), q1);
    var q2 := Serving(false, AwaitAdmission, 1, 1, Look(ID0), Fresh(ID1));
    Does(cfg, World(q1, [], map[], 0, 0), Disp(DCheckCancel), q2);
    var q3 := Serving(false, AwaitAdmission, 1, 1, Join'(ID0), Fresh(ID1));
    Does(cfg, World(q2, [], map[], 0, 0), OfChunk(0, PMiss), q3);
    var q4 := Serving(false, AwaitAdmission, 1, 1, Wait(ID0, 0), Fresh(ID1));
    TinyBytes(cfg, 0);
    Joins(cfg, World(q3, [], map[], 0, 0), 0, q4);
    var s4 := World(q4, [NewTiny(ID0)], map[ID0 := 0], 0, 0);
    assert World(q3, [], map[], 0, 0).(requests := [q4], flights := [] + [NewTiny(ID0)], sf := map[][ID0 := 0]) == s4;
    CancelledRun(cfg, q4);
  }

  lemma CancelledRun(cfg: Config, q4: Request)
    requires cfg == Tiny(true, false) && q4 == Serving(false, AwaitAdmission, 1, 1, Wait(ID0, 0), Fresh(ID1))
    requires Reachable(cfg, World(q4, [NewTiny(ID0)], map[ID0 := 0], 0, 0))
    ensures exists s :: Reachable(cfg, s) && !AdmittedInOrder(s)
  {
    var fls, sf := [NewTiny(ID0)], map[ID0 := 0];
    var q5 := Serving(true, AwaitAdmission, 1, 1, Wait(ID0, 0), Fresh(ID1));
    Does(cfg, World(q4, fls, sf, 0, 0), Cancel, q5);
    var c0 := Wait(ID0, 0).(admitted := true, prod := Holding(Failed));
    var q6 := Serving(true, AwaitAdmission, 1, 1, c0, Fresh(ID1));
    Does(cfg, World(q5, fls, sf, 0, 0), OfChunk(0, PAbandon), q6);
    var q7 := Serving(true, TakeSlot, 1, 1, c0, Fresh(ID1));
    Does(cfg, World(q6, fls, sf, 0, 0), Disp(DSeeAdmission), q7);
    var q8 := Serving(true, CheckCancel, 1, 2, c0, Fresh(ID1));
    Does(cfg, World(q7, fls, sf, 0, 0), Disp(DTakeSlot), q8);
    var q9 := Serving(true, AwaitAdmission, 2, 2, c0, Look(ID1));
    Does(cfg, World(q8, fls, sf, 0, 0), Disp(DCheckCancel), q9);
    var s := World(q9, fls, sf, 0, 0);
    assert !s.requests[0].chunks[1].prod.NotStarted? && WaitsForBudget(s, s.requests[0], 0);
  }
}
