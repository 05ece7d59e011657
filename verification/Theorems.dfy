/** The main results, over every run of the system from its start: any requests, any sharing
    of chunks, any budget, cancellations, timeouts, failures, evictions, re-uploads and
    process crashes at any point. */
module Theorems {
  import opened Base
  import opened Tiling
  import opened WriteGuard
  import opened Protocol
  import opened Invariants
  import opened RequestSafety
  import opened ResponseSafety
  import opened References
  import opened Safety
  import opened FlightSafety
  import opened Progress
  import opened Termination

  /** The dispatcher has both of its guards. */
  predicate AsWritten(cfg: Config) { ValidConfig(cfg) && cfg.waitAdmission && cfg.checkCancel }

  ghost predicate Follows(cfg: Config, states: seq<State>, steps: seq<Step>) {
    && |states| == |steps| + 1
    && forall k {:trigger steps[k]} :: 0 <= k < |steps| ==>
         StepEnabled(cfg, states[k], steps[k]) && states[k + 1] == Next(cfg, states[k], steps[k])
  }

  ghost predicate Run(cfg: Config, states: seq<State>, steps: seq<Step>) {
    Follows(cfg, states, steps) && Initial(states[0])
  }

  ghost predicate Reachable(cfg: Config, s: State) {
    exists states, steps :: Run(cfg, states, steps) && states[|states| - 1] == s
  }

  /** What can be reached from a reachable state is reachable. */
  lemma {:induction false} FollowsReachable(cfg: Config, states: seq<State>, steps: seq<Step>, k: nat)
    requires Follows(cfg, states, steps) && Reachable(cfg, states[0]) && k < |states|
    ensures Reachable(cfg, states[k])
  {
    if k > 0 {
      FollowsReachable(cfg, states, steps, k - 1);
      ReachStep(cfg, states[k - 1], steps[k - 1]);
    }
  }

  lemma ReachStart(cfg: Config, s: State)
    requires Initial(s)
    ensures Reachable(cfg, s)
  {
    assert Run(cfg, [s], []);
  }

  lemma ReachStep(cfg: Config, s: State, step: Step)
    requires Reachable(cfg, s) && StepEnabled(cfg, s, step)
    ensures Reachable(cfg, Next(cfg, s, step))
  {
    var states, steps :| Run(cfg, states, steps) && states[|states| - 1] == s;
    FollowsFurther(cfg, states, steps, step);
    var states' := states + [Next(cfg, s, step)];
    assert Run(cfg, states', steps + [step]) && states'[|states'| - 1] == Next(cfg, s, step);
  }

  lemma FollowsFurther(cfg: Config, states: seq<State>, steps: seq<Step>, step: Step)
    requires Follows(cfg, states, steps) && StepEnabled(cfg, states[|steps|], step)
    ensures Follows(cfg, states + [Next(cfg, states[|steps|], step)], steps + [step])
  {
    var states', steps' := states + [Next(cfg, states[|steps|], step)], steps + [step];
    forall k | 0 <= k < |steps'|
      ensures StepEnabled(cfg, states'[k], steps'[k]) && states'[k + 1] == Next(cfg, states'[k], steps'[k])
    {
      if k < |steps| {
        assert steps'[k] == steps[k];
      }
    }
  }

  lemma {:induction false} FollowsInv(cfg: Config, states: seq<State>, steps: seq<Step>, k: nat)
    requires Follows(cfg, states, steps) && Inv(cfg, states[0]) && k < |states|
    ensures Inv(cfg, states[k])
  {
    if k > 0 {
      FollowsInv(cfg, states, steps, k - 1);
      StepInv(cfg, states[k - 1], steps[k - 1]);
    }
  }

  lemma ReachableInv(cfg: Config, s: State)
    requires AsWritten(cfg) && Reachable(cfg, s)
    ensures Inv(cfg, s)
  {
    var states, steps :| Run(cfg, states, steps) && states[|states| - 1] == s;
    assert Inv(cfg, states[0]);
    FollowsInv(cfg, states, steps, |states| - 1);
  }

  // ---- admission order ----

  /** Chunk i of the request is on a flight that still waits for budget. */
  predicate WaitsForBudget(s: State, rq: Request, i: nat)
    requires i < |rq.chunks|
  {
    var k := rq.chunks[i].claim;
    k.AwaitDone? && k.flight < |s.flights| && s.flights[k.flight].lead.Queued?
  }

  predicate AdmittedInOrder(s: State) {
    forall r, i, j | 0 <= r < |s.requests| && 0 <= i < j < |s.requests[r].chunks| ::
      !s.requests[r].chunks[j].prod.NotStarted? ==> !WaitsForBudget(s, s.requests[r], i)
  }

  lemma AdmissionOrder(cfg: Config, s: State)
    requires AsWritten(cfg) && Reachable(cfg, s)
    ensures AdmittedInOrder(s)
  {
    ReachableInv(cfg, s);
    forall r, i, j | 0 <= r < |s.requests| && 0 <= i < j < |s.requests[r].chunks|
      && !s.requests[r].chunks[j].prod.NotStarted?
      ensures !WaitsForBudget(s, s.requests[r], i)
    {
      var rq := s.requests[r];
      assert ChunkOk(rq, j) && LinkOk(cfg, s.flights, s.fs, rq, i);
      if rq.chunks[i].claim.AwaitDone? {
        var f := rq.chunks[i].claim.flight;
        assert FlightOk(cfg, s.fs, s.flights[f], f);
      }
    }
  }

  // ---- cancellation ----

  /** No fetch has been joined for the chunk, nor is about to be. */
  predicate Unfetched(c: Chunk) {
    c.claim.NoClaim? && !c.prod.Joining? && !c.prod.AwaitAdmit? && !c.prod.AwaitResult?
  }

  /** From now on the chunk of the cancelled request begins nothing. */
  predicate GivenUp(rq: Request, i: nat, started: bool)
    requires i < |rq.chunks|
  {
    rq.cancelled && Unfetched(rq.chunks[i]) && (!started ==> rq.chunks[i].prod.NotStarted?)
  }

  lemma ChunkActGivesUp(cfg: Config, s: State, c: Chunk, act: ChunkAct)
    requires ChunkEnabled(cfg, s, c, true, act) && Unfetched(c)
    ensures Unfetched(ChunkNext(cfg, s, c, true, act)) && !c.prod.NotStarted?
  {
  }

  lemma ConsActGivesUp(cfg: Config, s: State, rq: Request, act: ConsAct, i: nat)
    requires ConsEnabled(s, rq, act) && i < |rq.chunks|
    ensures var next := ConsNext(cfg, s, rq, act);
            && |next.chunks| == |rq.chunks| && (rq.cancelled ==> next.cancelled)
            && next.chunks[i].prod == rq.chunks[i].prod && next.chunks[i].claim == rq.chunks[i].claim
  {
  }

  lemma ActGivesUp(cfg: Config, s: State, rq: Request, act: Act, i: nat, started: bool)
    requires cfg.checkCancel && Enabled(cfg, s, rq, act) && i < |rq.chunks| && GivenUp(rq, i, started)
    ensures i < |NextRequest(cfg, s, rq, act).chunks| && GivenUp(NextRequest(cfg, s, rq, act), i, started)
  {
    match act
    case OfChunk(j, a) =>
      if j == i {
        ChunkActGivesUp(cfg, s, rq.chunks[i], a);
      }
    case Cons(k) => ConsActGivesUp(cfg, s, rq, k, i);
    case _ =>
  }

  lemma StepGivesUp(cfg: Config, s: State, step: Step, r: nat, i: nat, started: bool)
    requires cfg.checkCancel && StepEnabled(cfg, s, step) && !step.Crash?
    requires r < |s.requests| && i < |s.requests[r].chunks| && GivenUp(s.requests[r], i, started)
    ensures var next := Next(cfg, s, step);
            r < |next.requests| && i < |next.requests[r].chunks| && GivenUp(next.requests[r], i, started)
  {
    match step
    case ReqStep(q, act) =>
      if q == r {
        ActGivesUp(cfg, s, s.requests[r], act, i, started);
      }
    case LeadDo(f, act) => LeadKeepsRequests(cfg, s, f, act);
    case _ =>
  }

  /** A cancelled request starts no new work: a chunk for which it has joined no fetch yet never
      joins one, and a chunk not started is never started. */
  lemma {:induction false} CancelledStartsNothing(cfg: Config, states: seq<State>, steps: seq<Step>,
                                                  r: nat, i: nat, started: bool, j: nat, k: nat)
    requires cfg.checkCancel && Follows(cfg, states, steps) && j <= k < |states|
    requires forall n :: 0 <= n < |steps| ==> !steps[n].Crash?
    requires r < |states[j].requests| && i < |states[j].requests[r].chunks|
    requires GivenUp(states[j].requests[r], i, started)
    ensures r < |states[k].requests| && i < |states[k].requests[r].chunks|
    ensures GivenUp(states[k].requests[r], i, started)
    decreases k
  {
    if j < k {
      CancelledStartsNothing(cfg, states, steps, r, i, started, j, k - 1);
      StepGivesUp(cfg, states[k - 1], steps[k - 1], r, i, started);
    }
  }

  // ---- the window ----

  predicate SlotsInWindow(cfg: Config, s: State) {
    forall r :: 0 <= r < |s.requests| ==> s.requests[r].slots <= Window(cfg)
  }

  lemma StepKeepsSlots(cfg: Config, s: State, step: Step)
    requires SlotsInWindow(cfg, s) && StepEnabled(cfg, s, step)
    ensures SlotsInWindow(cfg, Next(cfg, s, step))
  {
    match step
    case ReqStep(r, act) => ActKeepsSlots(cfg, s, s.requests[r], act);
    case LeadDo(f, act) => LeadKeepsRequests(cfg, s, f, act);
    case _ =>
  }

  lemma ActKeepsSlots(cfg: Config, s: State, rq: Request, act: Act)
    requires rq.slots <= Window(cfg) && Enabled(cfg, s, rq, act)
    ensures NextRequest(cfg, s, rq, act).slots <= Window(cfg)
  {
  }

  lemma {:induction false} RunKeepsSlots(cfg: Config, states: seq<State>, steps: seq<Step>, k: nat)
    requires Follows(cfg, states, steps) && SlotsInWindow(cfg, states[0]) && k < |states|
    ensures SlotsInWindow(cfg, states[k])
  {
    if k > 0 {
      RunKeepsSlots(cfg, states, steps, k - 1);
      StepKeepsSlots(cfg, states[k - 1], steps[k - 1]);
    }
  }

  /** Results of a request that hold a file or a buffer: with the goroutine of their chunk, in
      its channel, or in the consumer's hand. */
  predicate Holds(c: Chunk) {
    MadeIn(ProducerResult(c)) + MadeIn(c.pending) + MadeIn(c.hand) > 0
  }

  /** Fetches run ahead of the consumer by the window at most, and the dispatcher waits for a slot
      only when they do; so the chunks for which a request holds a handle or a buffer lie within
      a window from the one it is writing. */
  lemma FetchesStayInWindow(cfg: Config, s: State, r: nat)
    requires AsWritten(cfg) && Reachable(cfg, s) && r < |s.requests|
    ensures var rq := s.requests[r];
            && rq.slots <= Max(4, cfg.workers) && rq.started <= rq.served + Max(4, cfg.workers)
            && (forall i :: 0 <= i < |rq.chunks| && Holds(rq.chunks[i]) ==>
                  rq.served <= i < rq.served + Max(4, cfg.workers))
            && (rq.disp.TakeSlot? && !DispEnabled(cfg, rq, DTakeSlot) ==>
                  rq.started == rq.served + Max(4, cfg.workers))
  {
    ReachableInv(cfg, s);
    var states, steps :| Run(cfg, states, steps) && states[|states| - 1] == s;
    RunKeepsSlots(cfg, states, steps, |states| - 1);
    var rq := s.requests[r];
    assert RequestOk(cfg, rq);
    forall i | 0 <= i < |rq.chunks| && Holds(rq.chunks[i]) ensures rq.served <= i < rq.served + Window(cfg) {
      assert ChunkOk(rq, i);
    }
  }

  // ---- the response ----

  /** The body is a prefix of the requested span of the resolved version; it is the whole span
      when serveAligned returns nil, and otherwise only if the last write or flush failed; the
      success status comes after a successful chunk 0. */
  predicate ResponseInOrder(cfg: Config, rq: Request)
    requires Shape(cfg, rq)
  {
    && rq.body <= Span(cfg, rq)
    && (rq.cons.Returned? && rq.cons.error.None? ==> rq.body == Span(cfg, rq) && rq.status.Success?)
    && (rq.cons.Returned? && rq.body == Span(cfg, rq) ==> rq.cons.error.None? || rq.cons.error.value.WriteError?)
    && (rq.cons.Returned? && rq.cons.error.Some? ==> StoppedBy(rq, rq.cons.error.value))
    && (rq.body != [] ==> rq.status.Success?)
    && (rq.status.Success? ==> rq.chunks != [] && rq.chunks[0].made == 1)
    && (rq.cons.Returned? && !rq.status.Success? ==> rq.body == [] && rq.status.ErrorStatus?)
  }

  lemma ResponseRefinement(cfg: Config, s: State, r: nat)
    requires AsWritten(cfg) && Reachable(cfg, s) && r < |s.requests|
    ensures Shape(cfg, s.requests[r]) && ResponseInOrder(cfg, s.requests[r])
  {
    ReachableInv(cfg, s);
    assert RequestOk(cfg, s.requests[r]);
  }

  // ---- one version only ----

  /** Every successful result of the chunk, wherever it is, reads as the chunk's bytes. */
  ghost predicate ChunkUnmixed(cfg: Config, s: State, rq: Request, c: Chunk) {
    && c.id.ver == rq.ver
    && forall res | res in {ClaimerResult(c), ProducerResult(c), c.pending, c.hand} ::
         res.Some? && !res.value.Failed? ==> Content(s, res.value) == BytesOf(cfg, c.id)
  }

  predicate BodyUnmixed(cfg: Config, rq: Request) {
    rq.ver in cfg.objects && forall k :: 0 <= k < |rq.body| ==>
      rq.first + k < |cfg.objects[rq.ver]| && rq.body[k] == cfg.objects[rq.ver][rq.first + k]
  }

  /** Everything a chunk name, a buffer, a delivered result or a response yields is its
      version's. */
  ghost predicate Unmixed(cfg: Config, s: State) {
    && (forall id :: ChunkPath(id) in s.fs.dir ==> InodeData(s.fs, s.fs.dir[ChunkPath(id)]) == BytesOf(cfg, id))
    && (forall f :: 0 <= f < |s.flights| && BufferFilled(s.flights[f]) ==>
          s.flights[f].buf == BytesOf(cfg, s.flights[f].id))
    && (forall r :: 0 <= r < |s.requests| ==> BodyUnmixed(cfg, s.requests[r]))
    && (forall r, i :: 0 <= r < |s.requests| && 0 <= i < |s.requests[r].chunks| ==>
          ChunkUnmixed(cfg, s, s.requests[r], s.requests[r].chunks[i]))
  }

  lemma NoVersionMixing(cfg: Config, s: State)
    requires AsWritten(cfg) && Reachable(cfg, s)
    ensures Unmixed(cfg, s)
  {
    ReachableInv(cfg, s);
    forall f | 0 <= f < |s.flights| && BufferFilled(s.flights[f])
      ensures s.flights[f].buf == BytesOf(cfg, s.flights[f].id)
    {
      assert FlightOk(cfg, s.fs, s.flights[f], f);
    }
    forall r | 0 <= r < |s.requests| ensures BodyUnmixed(cfg, s.requests[r]) {
      assert s.requests[r].body <= Span(cfg, s.requests[r]);
    }
    forall r, i | 0 <= r < |s.requests| && 0 <= i < |s.requests[r].chunks|
      ensures ChunkUnmixed(cfg, s, s.requests[r], s.requests[r].chunks[i])
    {
      ResultsOfChunk(cfg, s, r, i);
    }
  }

  lemma ResultsOfChunk(cfg: Config, s: State, r: nat, i: nat)
    requires RequestsOk(cfg, s) && FlightsOk(cfg, s.fs, s.flights)
    requires r < |s.requests| && i < |s.requests[r].chunks|
    ensures ChunkUnmixed(cfg, s, s.requests[r], s.requests[r].chunks[i])
  {
    var c := s.requests[r].chunks[i];
    assert LinkOk(cfg, s.flights, s.fs, s.requests[r], i);
    forall res | res in {ClaimerResult(c), ProducerResult(c), c.pending, c.hand} && res.Some? && !res.value.Failed?
      ensures Content(s, res.value) == BytesOf(cfg, c.id)
    {
      ResultContent(cfg, s, res.value, c.id);
    }
  }

  // ---- flight lifetime ----

  /** A result in circulation that reads the flight's buffer or pinned file. */
  predicate Reads(c: Chunk, f: nat) {
    RefIn(ClaimerResult(c), f) > 0 || RefIn(ProducerResult(c), f) > 0 || RefIn(c.pending, f) > 0 || RefIn(c.hand, f) > 0
  }

  /** At most one call per key can be joined. */
  ghost predicate OneCallPerKey(s: State) {
    forall f, g | 0 <= f < |s.flights| && 0 <= g < |s.flights| ::
      Joinable(s.flights[f]) && Joinable(s.flights[g]) && s.flights[f].id == s.flights[g].id ==> f == g
  }

  /** finish publishes exactly as many references as there are callers, and a flight is in
      release exactly when nothing refers to it. */
  ghost predicate CountsExact(s: State) {
    forall f | 0 <= f < |s.flights| ::
      && (s.flights[f].lead.Publishing? ==> s.flights[f].refs == Refs(s, f))
      && (!s.flights[f].free.Held? <==> Refs(s, f) == 0)
  }

  /** What is read - a shared buffer, a pinned file - belongs to a flight not released. */
  ghost predicate NothingReadAfterFree(s: State) {
    forall r, i, f | 0 <= r < |s.requests| && 0 <= i < |s.requests[r].chunks| && 0 <= f < |s.flights| ::
      Reads(s.requests[r].chunks[i], f) ==> s.flights[f].lead.Over? && s.flights[f].free.Held?
  }

  lemma FlightLifetime(cfg: Config, s: State)
    requires AsWritten(cfg) && Reachable(cfg, s)
    ensures OneCallPerKey(s) && CountsExact(s) && NothingReadAfterFree(s)
  {
    ReachableInv(cfg, s);
    CountsAreExact(cfg, s);
    forall r, i, f | 0 <= r < |s.requests| && 0 <= i < |s.requests[r].chunks| && 0 <= f < |s.flights|
                     && Reads(s.requests[r].chunks[i], f)
      ensures s.flights[f].lead.Over? && s.flights[f].free.Held?
    {
      ReadIsAlive(cfg, s, r, i, f);
    }
  }

  lemma ReadIsAlive(cfg: Config, s: State, r: nat, i: nat, f: nat)
    requires RequestsOk(cfg, s) && CountsExact(s)
    requires r < |s.requests| && i < |s.requests[r].chunks| && f < |s.flights| && Reads(s.requests[r].chunks[i], f)
    ensures s.flights[f].lead.Over? && s.flights[f].free.Held?
  {
    RefsCover(s, r, i, f);
    assert LinkOk(cfg, s.flights, s.fs, s.requests[r], i);
  }

  lemma CountsAreExact(cfg: Config, s: State)
    requires FlightsOk(cfg, s.fs, s.flights) && RefsOk(s)
    ensures CountsExact(s)
  {
    forall f | 0 <= f < |s.flights|
      ensures !s.flights[f].free.Held? <==> Refs(s, f) == 0
      ensures s.flights[f].lead.Publishing? ==> s.flights[f].refs == Refs(s, f)
    {
      assert FlightOk(cfg, s.fs, s.flights[f], f);
      assert Refs(s, f) == Count(s.flights[f]);
      AllRefsNonNegative(s, f);
    }
  }

  lemma AllRefsNonNegative(s: State, f: nat)
    ensures Refs(s, f) >= 0
  {
    forall k | 0 <= k < |s.requests| ensures RequestWeight(f)(s.requests[k]) >= 0 {
      RequestRefsPositive(s.requests[k], f);
    }
    SumNonNegative(s.requests, RequestWeight(f));
  }

  function Rank(fr: Freeing): nat {
    match fr
    case Held => 0
    case FreeBytes => 1
    case FreeUnit => 2
    case Freed => 3
  }

  /** Release runs once: it starts with the step that drops the last reference, and it never
      starts again or goes back. */
  lemma ReleasedOnce(cfg: Config, s: State, step: Step, f: nat)
    requires AsWritten(cfg) && Reachable(cfg, s) && StepEnabled(cfg, s, step) && !step.Crash? && f < |s.flights|
    ensures var next := Next(cfg, s, step);
            && f < |next.flights|
            && Rank(s.flights[f].free) <= Rank(next.flights[f].free)
            && (s.flights[f].free.Held? && !next.flights[f].free.Held? ==>
                  && step.ReqStep? && Refs(s, f) == 1 && Refs(next, f) == 0
                  && Dropped(cfg, s, s.requests[step.r], step.act) == Some(f))
  {
    ReachableInv(cfg, s);
    match step
    case ReqStep(r, act) => DropReleases(cfg, s, r, act, f);
    case LeadDo(g, act) => LeadRank(cfg, s, g, act, f);
    case _ =>
  }

  lemma LeadRank(cfg: Config, s: State, g: nat, act: LeadAct, f: nat)
    requires LeadEnabled(cfg, s, g, act) && f < |s.flights| && FlightOk(cfg, s.fs, s.flights[g], g)
    ensures var next := LeadStep(cfg, s, g, act);
            && f < |next.flights| && Rank(s.flights[f].free) <= Rank(next.flights[f].free)
            && (s.flights[f].free.Held? ==> next.flights[f].free.Held?)
  {
  }

  lemma DropReleases(cfg: Config, s: State, r: nat, act: Act, f: nat)
    requires Inv(cfg, s) && StepEnabled(cfg, s, ReqStep(r, act)) && f < |s.flights|
    ensures var next := Next(cfg, s, ReqStep(r, act));
            && f < |next.flights| && Rank(s.flights[f].free) <= Rank(next.flights[f].free)
            && (s.flights[f].free.Held? && !next.flights[f].free.Held? ==>
                  && Refs(s, f) == 1 && Refs(next, f) == 0
                  && Dropped(cfg, s, s.requests[r], act) == Some(f))
  {
    var rq := s.requests[r];
    ReqStepFlights(cfg, s, r, act);
    assert FlightOk(cfg, s.fs, s.flights[f], f);
    assert Refs(s, f) == Count(s.flights[f]);
    StepRefs(cfg, s, rq, act, f);
    ReplaceRefs(s, r, NextRequest(cfg, s, rq, act), f);
  }

  // ---- budget ----

  /** Between acquire and the hand-over to the callers, or to the release in lead. */
  function LeaderUnit(fl: Flight): int { One(HoldsUnit(fl) && !fl.lead.Over?) }

  /** Finished and buffered: referred to, or on its way out through free. */
  function BufferUnit(fl: Flight): int {
    One(fl.lead.Over? && fl.lead.out.Buffered? && (fl.refs > 0 || fl.free.FreeBytes? || fl.free.FreeUnit?))
  }

  lemma FlightParts(cfg: Config, fs: Fs, fl: Flight, f: nat)
    requires FlightOk(cfg, fs, fl, f)
    ensures UnitWeight(fl) == LeaderUnit(fl) + BufferUnit(fl)
    ensures 0 <= ByteWeight(fl) <= cfg.chunkSize * UnitWeight(fl)
    ensures FlightFinished(fl) ==> UnitWeight(fl) == ByteWeight(fl) == 0
  {
  }

  lemma BudgetParts(cfg: Config, s: State)
    requires FlightsOk(cfg, s.fs, s.flights)
    ensures Sum(s.flights, UnitWeight) == Sum(s.flights, LeaderUnit) + Sum(s.flights, BufferUnit)
    ensures 0 <= Sum(s.flights, ByteWeight) <= cfg.chunkSize * Sum(s.flights, UnitWeight)
    ensures (forall f :: 0 <= f < |s.flights| ==> FlightFinished(s.flights[f])) ==>
              Sum(s.flights, UnitWeight) == Sum(s.flights, ByteWeight) == 0
  {
    forall f | 0 <= f < |s.flights|
      ensures UnitWeight(s.flights[f]) == LeaderUnit(s.flights[f]) + BufferUnit(s.flights[f])
      ensures 0 <= ByteWeight(s.flights[f]) <= cfg.chunkSize * UnitWeight(s.flights[f])
      ensures FlightFinished(s.flights[f]) ==> UnitWeight(s.flights[f]) == ByteWeight(s.flights[f]) == 0
    {
      FlightParts(cfg, s.fs, s.flights[f], f);
    }
    SumOfParts(s.flights, UnitWeight, LeaderUnit, BufferUnit);
    SumScaled(s.flights, ByteWeight, UnitWeight, cfg.chunkSize);
    SumNonNegative(s.flights, ByteWeight);
    if forall f :: 0 <= f < |s.flights| ==> FlightFinished(s.flights[f]) {
      SumZero(s.flights, UnitWeight);
      SumZero(s.flights, ByteWeight);
    }
  }

  /** The units taken are those of leaders at work and of buffers not yet released; the bytes
      in memory stay under units and budget; nothing stays taken once no flight is live. */
  lemma BudgetConservation(cfg: Config, s: State)
    requires AsWritten(cfg) && Reachable(cfg, s)
    ensures s.units == Sum(s.flights, LeaderUnit) + Sum(s.flights, BufferUnit)
    ensures 0 <= s.inUse <= cfg.chunkSize * s.units <= cfg.chunkSize * cfg.budget
    ensures (forall f :: 0 <= f < |s.flights| ==> FlightFinished(s.flights[f])) ==> s.units == 0 && s.inUse == 0
  {
    ReachableInv(cfg, s);
    BudgetParts(cfg, s);
    MulMonotone(s.units, cfg.budget, cfg.chunkSize);
  }

  // ---- closing results ----

  /** No result is closed twice, none is lost, and once the request is over every result made
      for it has been closed; after the drain no channel holds one. */
  ghost predicate ClosedOnce(rq: Request) {
    && (forall i | 0 <= i < |rq.chunks| ::
          var c := rq.chunks[i]; c.closed <= c.made <= 1 && c.closed + Live(c) == c.made)
    && (RequestFinished(rq) ==> forall i | 0 <= i < |rq.chunks| :: rq.chunks[i].closed == rq.chunks[i].made)
    && (rq.cons.Returned? ==> forall i | 0 <= i < |rq.chunks| ::
          rq.chunks[i].pending.None? && ProducerDone(rq.chunks[i]))
  }

  lemma ExactlyOnceClose(cfg: Config, s: State, r: nat)
    requires AsWritten(cfg) && Reachable(cfg, s) && r < |s.requests|
    ensures ClosedOnce(s.requests[r])
  {
    ReachableInv(cfg, s);
    var rq := s.requests[r];
    forall i | 0 <= i < |rq.chunks|
      ensures var c := rq.chunks[i]; c.closed <= c.made <= 1 && c.closed + Live(c) == c.made
      ensures RequestFinished(rq) ==> rq.chunks[i].closed == rq.chunks[i].made
      ensures rq.cons.Returned? ==> rq.chunks[i].pending.None? && ProducerDone(rq.chunks[i])
    {
      assert ChunkOk(rq, i);
    }
  }

  // ---- the write guard inside the protocol ----

  /** held counts the buffered chunks delivered and not yet written. A write runs under a
      deadline exactly while it is positive, so only a request that holds buffers can be cut;
      between chunks there is no deadline. */
  lemma WriteGuardInProtocol(cfg: Config, s: State, r: nat)
    requires AsWritten(cfg) && Reachable(cfg, s) && r < |s.requests|
    ensures var rq := s.requests[r];
            && (!rq.cons.Cleaning? && !rq.cons.Returned? ==>
                  rq.guard.held == Sum(rq.chunks, Counted) - EndedBuffer(rq) && rq.guard.held >= 0)
            && (rq.guard.armed <==> cfg.guardOn && rq.guard.held > 0 && (rq.cons.Writing? || rq.cons.Ending?))
  {
    ReachableInv(cfg, s);
    var rq := s.requests[r];
    assert GuardOk(cfg.guardOn, rq);
    HeldCoversHand(rq);
  }

  // ---- progress ----

  lemma DeadlockFreedom(cfg: Config, s: State)
    requires AsWritten(cfg) && Reachable(cfg, s)
    ensures Finished(s) <==> forall step :: !CanMove(cfg, s, step, true)
    ensures Finished(s) ==> s.units == 0 && s.inUse == 0 && s.sf == map[]
  {
    ReachableInv(cfg, s);
    if Finished(s) {
      FinishedReturnsAll(cfg, s);
      forall step ensures !CanMove(cfg, s, step, true) {
        FinishedIsStill(cfg, s, step);
      }
    } else {
      var step := NoDeadlock(cfg, s);
    }
  }

  lemma FinishedIsStill(cfg: Config, s: State, step: Step)
    requires Inv(cfg, s) && Finished(s)
    ensures !CanMove(cfg, s, step, true)
  {
    match step
    case ReqStep(r, act) =>
      if r < |s.requests| {
        FinishedRequestIsStill(cfg, s, s.requests[r], act);
      }
    case Join(r, i) =>
      if r < |s.requests| && i < |s.requests[r].chunks| {
        FinishedNotJoining(s.requests[r], i);
      }
    case LeadDo(f, act) =>
      if f < |s.flights| {
        assert FlightFinished(s.flights[f]);
      }
    case _ =>
  }

  lemma FinishedNotJoining(rq: Request, i: nat)
    requires ChunksOk(rq) && RequestFinished(rq) && i < |rq.chunks|
    ensures !rq.chunks[i].prod.Joining?
  {
    assert ChunkOk(rq, i);
  }

  lemma FinishedRequestIsStill(cfg: Config, s: State, rq: Request, act: Act)
    requires ControlOk(cfg.guardOn, rq) && RequestFinished(rq)
    ensures Enabled(cfg, s, rq, act) ==> act.Cancel?
  {
    if act.OfChunk? && act.i < |rq.chunks| {
      assert ChunkOk(rq, act.i);
    }
  }

  /** How many of the steps are the system's own. */
  function OwnSteps(steps: seq<Step>): nat {
    if steps == [] then 0 else OwnSteps(steps[..|steps| - 1]) + (if Own(steps[|steps| - 1]) then 1 else 0)
  }

  /** With no new requests, a run is at most as long as its first state's measure - whatever
      the order of steps, and however many timeouts, cancellations, evictions and uploads. */
  lemma {:induction false} RunsAreBounded(cfg: Config, states: seq<State>, steps: seq<Step>)
    requires Follows(cfg, states, steps) && Inv(cfg, states[0])
    requires forall k :: 0 <= k < |steps| ==> !steps[k].Arrive? && !steps[k].Crash?
    ensures Inv(cfg, states[|steps|])
    ensures OwnSteps(steps) + Left(cfg, states[|steps|]) <= Left(cfg, states[0])
    ensures OwnSteps(steps) <= Left(cfg, states[0])
  {
    if steps != [] {
      var n := |steps| - 1;
      RunsAreBounded(cfg, states[..n + 1], steps[..n]);
      StepUsesMeasure(cfg, states[n], steps[n]);
      StepInv(cfg, states[n], steps[n]);
    }
    LeftNonNegative(cfg, states[|steps|]);
  }

  /** However timeouts, cancellations, failures, evictions and uploads fall between the steps: a
      run that goes on until no healthy step is left ends with every request finished and
      every unit and byte given back, after at most as many steps as the measure says. */
  lemma MaximalRunsFinish(cfg: Config, states: seq<State>, steps: seq<Step>)
    requires Follows(cfg, states, steps) && Inv(cfg, states[0])
    requires forall k :: 0 <= k < |steps| ==> !steps[k].Arrive? && !steps[k].Crash?
    requires forall step :: !CanMove(cfg, states[|steps|], step, true)
    ensures Finished(states[|steps|]) && states[|steps|].units == 0 && states[|steps|].inUse == 0
    ensures OwnSteps(steps) <= Left(cfg, states[0])
  {
    RunsAreBounded(cfg, states, steps);
    if !Finished(states[|steps|]) {
      var step := NoDeadlock(cfg, states[|steps|]);
    }
    FinishedReturnsAll(cfg, states[|steps|]);
  }

  /** A run of healthy steps that ends with everything finished and given back. */
  ghost predicate Completes(cfg: Config, s: State, states: seq<State>, steps: seq<Step>) {
    && Follows(cfg, states, steps) && states[0] == s
    && (forall k {:trigger steps[k]} :: 0 <= k < |steps| ==> CanMove(cfg, states[k], steps[k], true))
    && Finished(states[|steps|]) && states[|steps|].units == 0 && states[|steps|].inUse == 0
  }

  lemma CompletesCons(cfg: Config, s: State, step: Step, states: seq<State>, steps: seq<Step>)
    requires CanMove(cfg, s, step, true) && Completes(cfg, Next(cfg, s, step), states, steps)
    ensures Completes(cfg, s, [s] + states, [step] + steps)
  {
    var states', steps' := [s] + states, [step] + steps;
    forall k | 0 <= k < |steps'|
      ensures CanMove(cfg, states'[k], steps'[k], true)
      ensures states'[k + 1] == Next(cfg, states'[k], steps'[k])
    {
      if k > 0 {
        assert steps'[k] == steps[k - 1] && states'[k] == states[k - 1];
      }
    }
  }

  /** From any reachable state, healthy steps alone finish every request and return every
      unit, within the measure. */
  lemma {:induction false} RunsToCompletion(cfg: Config, s: State) returns (states: seq<State>, steps: seq<Step>)
    requires Inv(cfg, s)
    ensures Completes(cfg, s, states, steps) && |steps| <= Left(cfg, s)
    decreases Left(cfg, s)
  {
    LeftNonNegative(cfg, s);
    if Finished(s) {
      FinishedReturnsAll(cfg, s);
      states, steps := [s], [];
    } else {
      var step := NoDeadlock(cfg, s);
      StepInv(cfg, s, step);
      StepUsesMeasure(cfg, s, step);
      states, steps := RunsToCompletion(cfg, Next(cfg, s, step));
      CompletesCons(cfg, s, step, states, steps);
      states, steps := [s] + states, [step] + steps;
    }
  }

  /** Clients that have stopped reading cannot starve a fetch of the budget: as long as one
      waits, a step is enabled that depends on no client, and such steps run out only when
      nobody waits any more. */
  lemma StalledClientsCannotStarve(cfg: Config, s: State)
    requires AsWritten(cfg) && cfg.guardOn && Reachable(cfg, s)
    requires forall step :: !CanMove(cfg, s, step, false)
    ensures QueueEmpty(s)
  {
    ReachableInv(cfg, s);
    forall f | 0 <= f < |s.flights| ensures !s.flights[f].lead.Queued? {
      if s.flights[f].lead.Queued? {
        var step := QueueMoves(cfg, s, f, false);
      }
    }
  }
}
