/** Where nothing fails, everything succeeds: while clients stay and the upstream keeps the
    requested versions, every way the system can run answers every request in full. */
module Success {
  import opened Base
  import opened WriteGuard
  import opened Protocol
  import opened Invariants
  import opened RequestSafety
  import opened FlightSafety
  import opened Progress
  import opened Termination
  import opened Theorems

  predicate NotFailed(res: Option<Result>) { res.Some? ==> !res.value.Failed? }

  predicate ChunkClean(c: Chunk) {
    NotFailed(ClaimerResult(c)) && NotFailed(ProducerResult(c)) && NotFailed(c.pending)
  }

  /** No failure so far: not cancelled, except by its own successful return. */
  predicate RequestClean(rq: Request) {
    && (rq.cancelled ==> rq.cons == Returned(None))
    && !rq.cons.Aborting? && !rq.cons.Cleaning?
    && (rq.cons.Ending? || rq.cons.Closing? ==> rq.cons.ok)
    && (rq.cons.Returned? ==> rq.cons.error.None?)
    && (forall i :: 0 <= i < |rq.chunks| ==> ChunkClean(rq.chunks[i]))
  }

  predicate FlightClean(fl: Flight) { PendingOutcome(fl) != Some(FetchError) }

  predicate Current(s: State, ver: Version) {
    ver.key in s.current && s.current[ver.key] == ver.etag
  }

  predicate Clean(s: State) {
    && (forall r :: 0 <= r < |s.requests| ==> RequestClean(s.requests[r]) && Current(s, s.requests[r].ver))
    && (forall f :: 0 <= f < |s.flights| ==> FlightClean(s.flights[f]) && Current(s, s.flights[f].id.ver))
  }

  lemma ChunkActClean(cfg: Config, s: State, rq: Request, i: nat, act: ChunkAct)
    requires i < |rq.chunks| && ChunkOk(rq, i) && RequestClean(rq)
    requires ChunkEnabled(cfg, s, rq.chunks[i], rq.cancelled, act)
    requires forall f :: 0 <= f < |s.flights| ==> FlightClean(s.flights[f])
    ensures ChunkClean(ChunkNext(cfg, s, rq.chunks[i], rq.cancelled, act))
  {
  }

  lemma DispActClean(cfg: Config, rq: Request, act: DispAct)
    requires ControlOk(cfg.guardOn, rq) && RequestClean(rq) && DispEnabled(cfg, rq, act)
    ensures RequestClean(DispNext(cfg, rq, act))
  {
    if act.DCheckCancel? {
      assert ChunkOk(rq, rq.started);
    }
  }

  lemma ConsActClean(cfg: Config, s: State, rq: Request, act: ConsAct)
    requires RequestClean(rq) && ConsEnabled(s, rq, act) && !act.KWriteFail?
    ensures RequestClean(ConsNext(cfg, s, rq, act))
  {
    if act.KReceive? {
      assert ChunkClean(rq.chunks[rq.served]);
    }
  }

  lemma RequestStaysClean(cfg: Config, s: State, rq: Request, act: Act)
    requires ControlOk(cfg.guardOn, rq) && RequestClean(rq) && Enabled(cfg, s, rq, act)
    requires forall f :: 0 <= f < |s.flights| ==> FlightClean(s.flights[f])
    requires !act.Cancel? && !(act.Cons? && act.k.KWriteFail?)
    ensures RequestClean(NextRequest(cfg, s, rq, act)) && NextRequest(cfg, s, rq, act).ver == rq.ver
  {
    match act
    case Disp(d) => DispActClean(cfg, rq, d);
    case OfChunk(i, a) =>
      assert ChunkOk(rq, i);
      ChunkActClean(cfg, s, rq, i, a);
    case Cons(k) => ConsActClean(cfg, s, rq, k);
  }

  lemma LeadStaysClean(cfg: Config, s: State, f: nat, act: LeadAct)
    requires LeadEnabled(cfg, s, f, act) && FlightClean(s.flights[f])
    requires !act.LTimeout? && !act.LDownloadFail?
    ensures var next := LeadStep(cfg, s, f, act);
            && |next.flights| == |s.flights| && next.flights == s.flights[f := next.flights[f]]
            && FlightClean(next.flights[f]) && next.flights[f].id == s.flights[f].id
            && next.requests == s.requests && next.current == s.current
  {
  }

  lemma ReqStepStaysClean(cfg: Config, s: State, r: nat, act: Act)
    requires RequestsOk(cfg, s) && Clean(s) && StepEnabled(cfg, s, ReqStep(r, act))
    requires !act.Cancel? && !(act.Cons? && act.k.KWriteFail?)
    ensures Clean(Next(cfg, s, ReqStep(r, act)))
  {
    RequestStaysClean(cfg, s, s.requests[r], act);
    DropStaysClean(s, Dropped(cfg, s, s.requests[r], act));
  }

  /** The version does not replace one that is being served. */
  predicate Spares(s: State, ver: Version) {
    && (forall r :: 0 <= r < |s.requests| && s.requests[r].ver.key == ver.key ==> s.requests[r].ver == ver)
    && (forall f :: 0 <= f < |s.flights| && s.flights[f].id.ver.key == ver.key ==> s.flights[f].id.ver == ver)
  }

  /** A healthy step of the system; or an eviction, an upload of something else, or a new
      request for what the upstream has. */
  predicate Untroubled(cfg: Config, s: State, step: Step) {
    && StepEnabled(cfg, s, step)
    && match step
       case Unlink(_) => true
       case Upload(ver) => Spares(s, ver)
       case Arrive(ver, _, _) => Current(s, ver)
       case _ => Healthy(cfg, s, step, true)
  }

  /** Untroubled steps cause no failure. */
  lemma StaysClean(cfg: Config, s: State, step: Step)
    requires RequestsOk(cfg, s) && Clean(s) && Untroubled(cfg, s, step)
    ensures Clean(Next(cfg, s, step))
  {
    match step
    case ReqStep(r, act) => ReqStepStaysClean(cfg, s, r, act);
    case Join(r, i) =>
      assert RequestOk(cfg, s.requests[r]);
      JoinStaysClean(cfg, s, r, i);
    case LeadDo(f, act) => LeadStepStaysClean(cfg, s, f, act);
    case Arrive(ver, first, last) => ArrivesClean(cfg, s, ver, first, last);
    case Unlink(_) =>
    case Upload(ver) =>
  }

  lemma LeadStepStaysClean(cfg: Config, s: State, f: nat, act: LeadAct)
    requires Clean(s) && LeadEnabled(cfg, s, f, act) && HealthyLead(cfg, s, f, act)
    ensures Clean(LeadStep(cfg, s, f, act))
  {
    LeadStaysClean(cfg, s, f, act);
  }

  /** A request for a version that the upstream still has starts without failures. */
  lemma ArrivesClean(cfg: Config, s: State, ver: Version, first: nat, last: nat)
    requires Clean(s) && StepEnabled(cfg, s, Arrive(ver, first, last)) && Current(s, ver)
    ensures Clean(Next(cfg, s, Arrive(ver, first, last)))
  {
    var rq := NewRequest(cfg, ver, first, last);
    assert RequestClean(rq);
  }

  lemma DropStaysClean(s: State, d: Option<nat>)
    requires forall f :: 0 <= f < |s.flights| ==> FlightClean(s.flights[f]) && Current(s, s.flights[f].id.ver)
    ensures var flights := DropFlight(s.flights, d);
            forall f :: 0 <= f < |flights| ==> FlightClean(flights[f]) && Current(s, flights[f].id.ver)
  {
  }

  lemma JoinStaysClean(cfg: Config, s: State, r: nat, i: nat)
    requires Clean(s) && JoinEnabled(s, r, i)
    requires s.requests[r].chunks[i].id.ver == s.requests[r].ver
    ensures Clean(JoinStep(cfg, s, r, i))
  {
    var next := JoinStep(cfg, s, r, i);
    JoinedClean(s.requests[r], i, next.sf[s.requests[r].chunks[i].id]);
    assert forall f :: 0 <= f < |next.flights| ==>
             FlightClean(next.flights[f]) && Current(next, next.flights[f].id.ver);
  }

  lemma JoinedClean(rq: Request, i: nat, f: nat)
    requires RequestClean(rq) && i < |rq.chunks| && rq.chunks[i].prod.Joining?
    ensures RequestClean(WithChunk(rq, i, Joined(rq.chunks[i], f)))
  {
  }

  ghost predicate UntroubledRun(cfg: Config, states: seq<State>, steps: seq<Step>) {
    && Follows(cfg, states, steps)
    && forall j {:trigger steps[j]} :: 0 <= j < |steps| ==> Untroubled(cfg, states[j], steps[j])
  }

  lemma {:induction false} RunStaysClean(cfg: Config, states: seq<State>, steps: seq<Step>, k: nat)
    requires UntroubledRun(cfg, states, steps) && Inv(cfg, states[0]) && Clean(states[0]) && k < |states|
    ensures Inv(cfg, states[k]) && Clean(states[k])
  {
    if k > 0 {
      RunStaysClean(cfg, states, steps, k - 1);
      assert Untroubled(cfg, states[k - 1], steps[k - 1]);
      StepInv(cfg, states[k - 1], steps[k - 1]);
      StaysClean(cfg, states[k - 1], steps[k - 1]);
    }
  }

  /** Every request has returned nil, with the whole requested span of its version sent under
      a success status. */
  ghost predicate AllAnswered(cfg: Config, s: State) {
    forall r {:trigger s.requests[r]} :: 0 <= r < |s.requests| ==>
      && Shape(cfg, s.requests[r])
      && s.requests[r].cons == Returned(None) && s.requests[r].status.Success?
      && s.requests[r].body == Span(cfg, s.requests[r])
  }

  /** Total correctness, for every run: however evictions, uploads of other versions and new
      requests fall between the steps, a run without failures that goes on until no healthy
      step is left has answered all requests in full and has all units back. Without new
      requests it takes at most as many steps of the system's own as the measure says. */
  lemma HealthyRunsAnswerAll(cfg: Config, states: seq<State>, steps: seq<Step>)
    requires UntroubledRun(cfg, states, steps) && Inv(cfg, states[0]) && Clean(states[0])
    requires forall step :: !CanMove(cfg, states[|steps|], step, true)
    ensures AllAnswered(cfg, states[|steps|])
    ensures states[|steps|].units == 0 && states[|steps|].inUse == 0
    ensures (forall k :: 0 <= k < |steps| ==> !steps[k].Arrive?) ==> OwnSteps(steps) <= Left(cfg, states[0])
  {
    var last := states[|steps|];
    RunStaysClean(cfg, states, steps, |steps|);
    if !Finished(last) {
      var step := NoDeadlock(cfg, last);
    }
    FinishedReturnsAll(cfg, last);
    FinishedCleanIsAnswered(cfg, last);
    if forall k :: 0 <= k < |steps| ==> !steps[k].Arrive? {
      forall k | 0 <= k < |steps| ensures !steps[k].Crash? {
        assert Untroubled(cfg, states[k], steps[k]);
      }
      RunsAreBounded(cfg, states, steps);
    }
  }

  lemma FinishedCleanIsAnswered(cfg: Config, s: State)
    requires RequestsOk(cfg, s) && Clean(s) && Finished(s)
    ensures AllAnswered(cfg, s)
  {
    forall r | 0 <= r < |s.requests|
      ensures Shape(cfg, s.requests[r]) && s.requests[r].cons == Returned(None)
              && s.requests[r].status.Success? && s.requests[r].body == Span(cfg, s.requests[r])
    {
      assert RequestFinished(s.requests[r]) && RequestClean(s.requests[r]);
    }
  }

  // ---- from the start ----

  /** What a client asks for, once a HEAD has been seen. */
  datatype Asked = Asked(ver: Version, first: nat, last: nat)

  /** The requests are for existing spans, and for one version of each key. */
  predicate Servable(cfg: Config, asked: seq<Asked>) {
    && (forall i :: 0 <= i < |asked| ==>
          asked[i].ver in cfg.objects && asked[i].first <= asked[i].last < |cfg.objects[asked[i].ver]|)
    && (forall i, j :: 0 <= i < |asked| && 0 <= j < |asked| && asked[i].ver.key == asked[j].ver.key ==>
          asked[i].ver == asked[j].ver)
  }

  ghost predicate Asks(s: State, asked: seq<Asked>) {
    && |s.requests| == |asked|
    && forall i :: 0 <= i < |asked| ==>
         Asked(s.requests[i].ver, s.requests[i].first, s.requests[i].last) == asked[i]
  }

  /** The requests come in, after uploads of what they ask for. */
  lemma {:induction false} AllArrive(cfg: Config, asked: seq<Asked>) returns (s: State)
    requires AsWritten(cfg) && Servable(cfg, asked)
    ensures Reachable(cfg, s) && Clean(s) && Asks(s, asked) && s.flights == []
  {
    if asked == [] {
      s := State([], [], map[], 0, 0, Fs(map[], []), map[]);
      ReachStart(cfg, s);
    } else {
      var n := |asked| - 1;
      var t := AllArrive(cfg, asked[..n]);
      s := OneArrives(cfg, t, asked[n]);
      assert asked == asked[..n] + [asked[n]];
    }
  }

  lemma OneArrives(cfg: Config, s: State, a: Asked) returns (next: State)
    requires AsWritten(cfg) && Reachable(cfg, s) && Clean(s) && s.flights == [] && Spares(s, a.ver)
    requires a.ver in cfg.objects && a.first <= a.last < |cfg.objects[a.ver]|
    ensures Reachable(cfg, next) && Clean(next) && next.flights == []
    ensures |next.requests| == |s.requests| + 1 && next.requests[..|s.requests|] == s.requests
    ensures var rq := next.requests[|s.requests|]; Asked(rq.ver, rq.first, rq.last) == a
  {
    ReachableInv(cfg, s);
    var uploaded := Next(cfg, s, Upload(a.ver));
    ReachStep(cfg, s, Upload(a.ver));
    StaysClean(cfg, s, Upload(a.ver));
    ReachStep(cfg, uploaded, Arrive(a.ver, a.first, a.last));
    ArrivesClean(cfg, uploaded, a.ver, a.first, a.last);
    next := Next(cfg, uploaded, Arrive(a.ver, a.first, a.last));
  }

  lemma ActKeepsAsked(cfg: Config, s: State, rq: Request, act: Act)
    requires Enabled(cfg, s, rq, act)
    ensures var next := NextRequest(cfg, s, rq, act);
            next.ver == rq.ver && next.first == rq.first && next.last == rq.last
  {
  }

  /** What a request is for never changes. */
  lemma StepKeepsAsked(cfg: Config, s: State, step: Step, asked: seq<Asked>)
    requires StepEnabled(cfg, s, step) && !step.Crash? && !step.Arrive? && Asks(s, asked)
    ensures Asks(Next(cfg, s, step), asked)
  {
    match step
    case ReqStep(r, act) => ActKeepsAsked(cfg, s, s.requests[r], act);
    case LeadDo(f, act) => LeadKeepsRequests(cfg, s, f, act);
    case _ =>
  }

  lemma {:induction false} RunKeepsAsked(cfg: Config, states: seq<State>, steps: seq<Step>, asked: seq<Asked>, k: nat)
    requires Follows(cfg, states, steps) && Asks(states[0], asked) && k < |states|
    requires forall j {:trigger steps[j]} :: 0 <= j < |steps| ==> CanMove(cfg, states[j], steps[j], true)
    ensures Asks(states[k], asked)
  {
    if k > 0 {
      RunKeepsAsked(cfg, states, steps, asked, k - 1);
      assert CanMove(cfg, states[k - 1], steps[k - 1], true);
      StepKeepsAsked(cfg, states[k - 1], steps[k - 1], asked);
    }
  }

  lemma HealthyIsUntroubled(cfg: Config, states: seq<State>, steps: seq<Step>)
    requires Follows(cfg, states, steps)
    requires forall j {:trigger steps[j]} :: 0 <= j < |steps| ==> CanMove(cfg, states[j], steps[j], true)
    ensures UntroubledRun(cfg, states, steps)
  {
    forall j | 0 <= j < |steps| ensures Untroubled(cfg, states[j], steps[j]) {
      assert CanMove(cfg, states[j], steps[j], true);
    }
  }

  /** Any finite list of requests can be answered: some run from the start serves all of them
      in full and gives everything back, however small the budget. */
  lemma SomeRunAnswersAll(cfg: Config, asked: seq<Asked>) returns (s: State)
    requires AsWritten(cfg) && Servable(cfg, asked)
    ensures Reachable(cfg, s) && Asks(s, asked) && AllAnswered(cfg, s) && s.units == 0 && s.inUse == 0
  {
    var start := AllArrive(cfg, asked);
    ReachableInv(cfg, start);
    var states, steps := RunsToCompletion(cfg, start);
    FollowsReachable(cfg, states, steps, |steps|);
    RunKeepsAsked(cfg, states, steps, asked, |steps|);
    HealthyIsUntroubled(cfg, states, steps);
    s := states[|steps|];
    RunStaysClean(cfg, states, steps, |steps|);
    FinishedCleanIsAnswered(cfg, s);
  }
}
