/** The protocol's invariant is kept by every step of the system. */
module Safety {
  import opened Base
  import opened Tiling
  import opened WriteGuard
  import opened Protocol
  import opened Invariants
  import opened RequestSafety
  import opened ResponseSafety
  import opened References

  lemma StepRequest(cfg: Config, s: State, rq: Request, act: Act)
    requires cfg.checkCancel && cfg.waitAdmission && RequestOk(cfg, rq)
    requires LinksOk(cfg, s.flights, s.fs, rq) && FlightsOk(cfg, s.fs, s.flights)
    requires Enabled(cfg, s, rq, act)
    ensures RequestOk(cfg, NextRequest(cfg, s, rq, act))
  {
    StepSpan(cfg, s, rq, act);
    match act
    case Disp(d) => DispActControl(cfg, rq, d);
    case OfChunk(i, a) => ChunkActControl(cfg, s, rq, i, a);
    case Cons(k) => ConsActControl(cfg, s, rq, k);
    case Cancel => CancelControl(cfg, rq);
  }

  /** Requests in order stay linked while flights and files move on. */
  lemma RequestsSurvive(cfg: Config, s: State, flights: seq<Flight>, fs: Fs)
    requires RequestsOk(cfg, s) && FlightsEvolve(s.flights, flights) && FilesKept(s.fs, fs)
    ensures forall r {:trigger s.requests[r]} :: 0 <= r < |s.requests| ==>
              RequestOk(cfg, s.requests[r]) && LinksOk(cfg, flights, fs, s.requests[r])
  {
    forall r | 0 <= r < |s.requests|
      ensures RequestOk(cfg, s.requests[r]) && LinksOk(cfg, flights, fs, s.requests[r])
    {
      LinksSurvive(cfg, s, flights, fs, s.requests[r]);
    }
  }

  /** One request replaced, flights and files moved on. */
  lemma ReplaceRequest(cfg: Config, s: State, r: nat, rq: Request, flights: seq<Flight>)
    requires RequestsOk(cfg, s) && r < |s.requests|
    requires FlightsEvolve(s.flights, flights)
    requires RequestOk(cfg, rq) && LinksOk(cfg, flights, s.fs, rq)
    ensures RequestsOk(cfg, s.(requests := s.requests[r := rq], flights := flights))
  {
    RequestsSurvive(cfg, s, flights, s.fs);
  }

  lemma ReplaceRefs(s: State, r: nat, rq: Request, g: nat)
    requires r < |s.requests|
    ensures Sum(s.requests[r := rq], RequestWeight(g))
         == Refs(s, g) - RequestRefs(s.requests[r], g) + RequestRefs(rq, g)
  {
    SumUpdate(s.requests, RequestWeight(g), r, rq);
  }

  // ---- a request's step ----

  lemma ReqStepFlights(cfg: Config, s: State, r: nat, act: Act)
    requires Inv(cfg, s) && StepEnabled(cfg, s, ReqStep(r, act))
    ensures var next := Next(cfg, s, ReqStep(r, act));
            && FlightsOk(cfg, s.fs, next.flights) && BudgetOk(cfg, next) && SfOk(next)
            && FlightsEvolve(s.flights, next.flights)
    ensures var d := Dropped(cfg, s, s.requests[r], act);
            d.Some? ==> d.value < |s.flights| && s.flights[d.value].lead.Over? && s.flights[d.value].refs >= 1
  {
    var rq := s.requests[r];
    var d := Dropped(cfg, s, rq, act);
    if d.Some? {
      var i := DroppedIsHeld(cfg, s, rq, act);
      RefsCover(s, r, i, d.value);
      assert FlightOk(cfg, s.fs, s.flights[d.value], d.value);
      DropKeepsFlights(cfg, s, d.value);
      DropKeepsBudget(cfg, s, d.value);
    }
  }

  lemma ReqStepRefs(cfg: Config, s: State, r: nat, act: Act)
    requires RequestsOk(cfg, s) && RefsOk(s) && StepEnabled(cfg, s, ReqStep(r, act))
    requires var d := Dropped(cfg, s, s.requests[r], act);
             d.Some? ==> d.value < |s.flights| && s.flights[d.value].lead.Over?
    ensures RefsOk(Next(cfg, s, ReqStep(r, act)))
  {
    var next := Next(cfg, s, ReqStep(r, act));
    forall g | 0 <= g < |next.flights|
      ensures Refs(next, g) == Count(next.flights[g]) && (!next.flights[g].lead.Over? ==> Refs(next, g) >= 1)
    {
      ReqStepRef(cfg, s, r, act, g);
    }
  }

  lemma ReqStepRef(cfg: Config, s: State, r: nat, act: Act, g: nat)
    requires RequestsOk(cfg, s) && RefsOk(s) && StepEnabled(cfg, s, ReqStep(r, act)) && g < |s.flights|
    requires var d := Dropped(cfg, s, s.requests[r], act);
             d.Some? ==> d.value < |s.flights| && s.flights[d.value].lead.Over?
    ensures var next := Next(cfg, s, ReqStep(r, act));
            Refs(next, g) == Count(next.flights[g]) && (!next.flights[g].lead.Over? ==> Refs(next, g) >= 1)
  {
    StepRefs(cfg, s, s.requests[r], act, g);
    ReplaceRefs(s, r, NextRequest(cfg, s, s.requests[r], act), g);
    assert Refs(s, g) == Count(s.flights[g]);
  }

  lemma ReqStepInv(cfg: Config, s: State, r: nat, act: Act)
    requires Inv(cfg, s) && StepEnabled(cfg, s, ReqStep(r, act))
    ensures Inv(cfg, Next(cfg, s, ReqStep(r, act)))
  {
    var next := Next(cfg, s, ReqStep(r, act));
    var rq := NextRequest(cfg, s, s.requests[r], act);
    ReqStepFlights(cfg, s, r, act);
    ReqStepRefs(cfg, s, r, act);
    StepRequest(cfg, s, s.requests[r], act);
    StepLinks(cfg, s, s.requests[r], act);
    LinksSurvive(cfg, s, next.flights, s.fs, rq);
    ReplaceRequest(cfg, s, r, rq, next.flights);
  }
}
