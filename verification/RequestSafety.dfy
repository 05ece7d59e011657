/** Each step of a request keeps the request's own invariant. */
module RequestSafety {
  import opened Base
  import opened Tiling
  import opened WriteGuard
  import opened Protocol
  import opened Invariants

  // ---- steps that change one chunk and perhaps the guard ----

  lemma ChunkUpdate(works: bool, rq: Request, i: nat, c: Chunk, g: GuardState)
    requires ControlOk(works, rq) && i < |rq.chunks|
    requires c.hand == rq.chunks[i].hand && c.made >= rq.chunks[i].made
    requires ChunkOk(WithChunk(rq, i, c), i)
    requires Exact(g, works) && g.writing == rq.guard.writing
    requires g.held - rq.guard.held == Counted(c) - Counted(rq.chunks[i])
    ensures ControlOk(works, WithChunk(rq, i, c).(guard := g))
  {
    var next := WithChunk(rq, i, c).(guard := g);
    SumUpdate(rq.chunks, Counted, i, c);
    ChunkUpdateChunks(rq, i, c, g);
    assert c.made <= 1 by { assert ChunkOk(next, i); }
    assert GuardOk(works, next);
  }

  lemma ChunkUpdateChunks(rq: Request, i: nat, c: Chunk, g: GuardState)
    requires ChunksOk(rq) && i < |rq.chunks| && ChunkOk(WithChunk(rq, i, c), i)
    ensures ChunksOk(WithChunk(rq, i, c).(guard := g))
  {
    var next := WithChunk(rq, i, c).(guard := g);
    forall j | 0 <= j < |next.chunks| ensures ChunkOk(next, j) {
      assert j != i ==> ChunkOk(rq, j);
      assert j == i ==> ChunkOk(WithChunk(rq, i, c), j);
    }
  }

  /** What a chunk's own goroutines leave alone. */
  lemma ChunkActLocal(cfg: Config, s: State, c: Chunk, cancelled: bool, g: GuardState, act: ChunkAct)
    requires ChunkEnabled(cfg, s, c, cancelled, act)
    requires Exact(g, cfg.guardOn) && (g.writing ==> g.held >= 0)
    requires (c.prod.Sending? ==> c.pending.None?)
    ensures var next, g' := ChunkNext(cfg, s, c, cancelled, act), GuardNext(cfg, c, g, act);
            && next.hand == c.hand && next.made >= c.made && next.id == c.id
            && Exact(g', cfg.guardOn) && g'.writing == g.writing
            && g'.held - g.held == Counted(next) - Counted(c)
  {
  }

  lemma ChunkActOk(cfg: Config, s: State, rq: Request, i: nat, act: ChunkAct)
    requires i < |rq.chunks| && ChunkEnabled(cfg, s, rq.chunks[i], rq.cancelled, act) && ChunkOk(rq, i)
    ensures ChunkOk(WithChunk(rq, i, ChunkNext(cfg, s, rq.chunks[i], rq.cancelled, act)), i)
  {
  }

  lemma ChunkActControl(cfg: Config, s: State, rq: Request, i: nat, act: ChunkAct)
    requires ControlOk(cfg.guardOn, rq) && Enabled(cfg, s, rq, OfChunk(i, act))
    ensures ControlOk(cfg.guardOn, NextRequest(cfg, s, rq, OfChunk(i, act)))
  {
    var c := rq.chunks[i];
    assert ChunkOk(rq, i);
    HeldCoversHand(rq);
    ChunkActLocal(cfg, s, c, rq.cancelled, rq.guard, act);
    ChunkActOk(cfg, s, rq, i, act);
    ChunkUpdate(cfg.guardOn, rq, i, ChunkNext(cfg, s, c, rq.cancelled, act), GuardNext(cfg, c, rq.guard, act));
  }

  // ---- the dispatcher ----

  lemma DispActScalars(cfg: Config, rq: Request, act: DispAct)
    requires cfg.checkCancel && cfg.waitAdmission && ControlOk(cfg.guardOn, rq) && DispEnabled(cfg, rq, act)
    ensures var next := DispNext(cfg, rq, act);
            && DispOk(next) && ConsOk(next) && StatusOk(next) && GuardOk(cfg.guardOn, next)
  {
    var next := DispNext(cfg, rq, act);
    if act.DCheckCancel? && !rq.cancelled {
      SumUpdate(rq.chunks, Counted, rq.started, next.chunks[rq.started]);
      assert ChunkOk(rq, rq.started);
    }
    assert ChunkOk(rq, 0);
  }

  lemma DispActChunk(cfg: Config, rq: Request, act: DispAct, i: nat)
    requires cfg.checkCancel && cfg.waitAdmission && DispOk(rq) && ConsOk(rq) && DispEnabled(cfg, rq, act)
    requires i < |rq.chunks| && ChunkOk(rq, i)
    ensures i < |DispNext(cfg, rq, act).chunks| && ChunkOk(DispNext(cfg, rq, act), i)
  {
  }

  lemma DispActControl(cfg: Config, rq: Request, act: DispAct)
    requires cfg.checkCancel && cfg.waitAdmission && ControlOk(cfg.guardOn, rq) && DispEnabled(cfg, rq, act)
    ensures ControlOk(cfg.guardOn, DispNext(cfg, rq, act))
  {
    var next := DispNext(cfg, rq, act);
    DispActScalars(cfg, rq, act);
    forall i | 0 <= i < |next.chunks| ensures ChunkOk(next, i) {
      assert ChunkOk(rq, i);
      DispActChunk(cfg, rq, act, i);
    }
  }

  // ---- the consumer ----

  /** The consumer steps that move a result. */
  predicate Moves(act: ConsAct) { act.KReceive? || act.KClose? || act.KClean? }

  lemma QuietChunk(cfg: Config, s: State, rq: Request, act: ConsAct, i: nat)
    requires ConsOk(rq) && ConsEnabled(s, rq, act) && !Moves(act)
    requires i < |rq.chunks| && ChunkOk(rq, i)
    ensures i < |ConsNext(cfg, s, rq, act).chunks| && ChunkOk(ConsNext(cfg, s, rq, act), i)
  {
  }

  lemma ReceiveChunk(cfg: Config, s: State, rq: Request, i: nat)
    requires ConsOk(rq) && ConsEnabled(s, rq, KReceive)
    requires i < |rq.chunks| && ChunkOk(rq, i)
    ensures i < |ConsNext(cfg, s, rq, KReceive).chunks| && ChunkOk(ConsNext(cfg, s, rq, KReceive), i)
  {
  }

  lemma CloseChunk(cfg: Config, s: State, rq: Request, i: nat)
    requires ConsOk(rq) && ConsEnabled(s, rq, KClose)
    requires i < |rq.chunks| && ChunkOk(rq, i)
    ensures i < |ConsNext(cfg, s, rq, KClose).chunks| && ChunkOk(ConsNext(cfg, s, rq, KClose), i)
  {
  }

  lemma CleanChunk(cfg: Config, s: State, rq: Request, i: nat)
    requires ConsOk(rq) && ConsEnabled(s, rq, KClean)
    requires i < |rq.chunks| && ChunkOk(rq, i)
    ensures i < |ConsNext(cfg, s, rq, KClean).chunks| && ChunkOk(ConsNext(cfg, s, rq, KClean), i)
  {
  }

  lemma ConsActChunk(cfg: Config, s: State, rq: Request, act: ConsAct, i: nat)
    requires ConsOk(rq) && ConsEnabled(s, rq, act)
    requires i < |rq.chunks| && ChunkOk(rq, i)
    ensures i < |ConsNext(cfg, s, rq, act).chunks| && ChunkOk(ConsNext(cfg, s, rq, act), i)
  {
    match act
    case KReceive => ReceiveChunk(cfg, s, rq, i);
    case KClose => CloseChunk(cfg, s, rq, i);
    case KClean => CleanChunk(cfg, s, rq, i);
    case _ => QuietChunk(cfg, s, rq, act, i);
  }

  lemma ConsActDisp(cfg: Config, s: State, rq: Request, act: ConsAct)
    requires DispOk(rq) && ConsEnabled(s, rq, act)
    ensures DispOk(ConsNext(cfg, s, rq, act))
  {
  }

  lemma ConsActCons(cfg: Config, s: State, rq: Request, act: ConsAct)
    requires ConsOk(rq) && ConsEnabled(s, rq, act)
    requires rq.served < |rq.chunks| ==> ChunkOk(rq, rq.served)
    requires rq.started <= |rq.chunks|
    ensures ConsOk(ConsNext(cfg, s, rq, act))
  {
  }

  lemma ConsActStatus(cfg: Config, s: State, rq: Request, act: ConsAct)
    requires ControlOk(cfg.guardOn, rq) && ConsEnabled(s, rq, act)
    ensures StatusOk(ConsNext(cfg, s, rq, act))
  {
    assert ChunkOk(rq, 0);
  }

  lemma QuietGuard(cfg: Config, s: State, rq: Request, act: ConsAct)
    requires ConsOk(rq) && GuardOk(cfg.guardOn, rq) && ConsEnabled(s, rq, act) && !Moves(act)
    requires rq.served < |rq.chunks| ==> ChunkOk(rq, rq.served)
    ensures GuardOk(cfg.guardOn, ConsNext(cfg, s, rq, act))
  {
    HeldCoversHand(rq);
  }

  lemma MoveGuard(cfg: Config, s: State, rq: Request, act: ConsAct)
    requires ConsOk(rq) && GuardOk(cfg.guardOn, rq) && ConsEnabled(s, rq, act) && Moves(act)
    requires rq.served < |rq.chunks| ==> ChunkOk(rq, rq.served)
    ensures GuardOk(cfg.guardOn, ConsNext(cfg, s, rq, act))
  {
    var next := ConsNext(cfg, s, rq, act);
    if !act.KClean? {
      SumUpdate(rq.chunks, Counted, rq.served, next.chunks[rq.served]);
    }
  }

  lemma HeldCoversHand(rq: Request)
    ensures Sum(rq.chunks, Counted) >= 0
    ensures rq.served < |rq.chunks| ==> Sum(rq.chunks, Counted) >= BufferIn(rq.chunks[rq.served].hand)
  {
    SumNonNegative(rq.chunks, Counted);
    if rq.served < |rq.chunks| {
      SumMember(rq.chunks, Counted, rq.served);
    }
  }

  lemma ConsActControl(cfg: Config, s: State, rq: Request, act: ConsAct)
    requires ControlOk(cfg.guardOn, rq) && ConsEnabled(s, rq, act)
    ensures ControlOk(cfg.guardOn, ConsNext(cfg, s, rq, act))
  {
    var next := ConsNext(cfg, s, rq, act);
    assert rq.served < |rq.chunks| ==> ChunkOk(rq, rq.served);
    ConsActDisp(cfg, s, rq, act);
    ConsActCons(cfg, s, rq, act);
    ConsActStatus(cfg, s, rq, act);
    if Moves(act) { MoveGuard(cfg, s, rq, act); } else { QuietGuard(cfg, s, rq, act); }
    forall i | 0 <= i < |next.chunks| ensures ChunkOk(next, i) {
      assert i < |rq.chunks|;
      assert ChunkOk(rq, i);
      ConsActChunk(cfg, s, rq, act, i);
    }
  }

  lemma CancelControl(cfg: Config, rq: Request)
    requires ControlOk(cfg.guardOn, rq)
    ensures ControlOk(cfg.guardOn, rq.(cancelled := true))
  {
    var next := rq.(cancelled := true);
    forall i | 0 <= i < |next.chunks| ensures ChunkOk(next, i) {
      assert ChunkOk(rq, i);
    }
  }
}
