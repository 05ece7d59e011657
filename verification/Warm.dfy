/** What a cache write is for: a chunk that some fetch has cached is there for every later
    request, until it is evicted. */
module Warm {
  import opened Base
  import opened Protocol
  import opened Invariants
  import opened ResponseSafety
  import opened FlightSafety
  import opened WriteGuard
  import opened Progress
  import opened Theorems

  /** Some fetch of the chunk has been cached, whether or not its callers know yet. */
  ghost predicate HasCached(s: State, id: ChunkId) {
    exists f :: 0 <= f < |s.flights| && CachedAs(s.flights[f], id)
  }

  predicate CachedAs(fl: Flight, id: ChunkId) {
    fl.id == id && PendingOutcome(fl).Some? && PendingOutcome(fl).value.Cached?
  }

  predicate Named(s: State, id: ChunkId) { ChunkPath(id) in s.fs.dir }

  /** An eviction takes a chunk's name away, and nothing else does: no fetch, no request and no
      crash. */
  lemma OnlyEvictionUnnames(cfg: Config, s: State, step: Step, id: ChunkId)
    requires StepEnabled(cfg, s, step) && Named(s, id)
    ensures Named(Next(cfg, s, step), id) <==> step != Unlink(ChunkPath(id))
  {
    if step.LeadDo? {
      LeadKeepsName(cfg, s, step.f, step.lact, id);
    }
  }

  /** A crash takes the process and nothing of the directory: every name still leads to the bytes
      that were written, and nobody writes them any more. */
  lemma CrashKeepsFiles(cfg: Config, s: State)
    ensures var next := Next(cfg, s, Crash);
            && next.requests == [] && next.flights == [] && next.sf == map[] && next.units == next.inUse == 0
            && next.fs.dir == s.fs.dir && |next.fs.inodes| == |s.fs.inodes|
            && forall n :: 0 <= n < |s.fs.inodes| ==>
                 next.fs.inodes[n].data == s.fs.inodes[n].data && next.fs.inodes[n].writer == None
  {
  }

  lemma LeadKeepsName(cfg: Config, s: State, f: nat, act: LeadAct, id: ChunkId)
    requires LeadEnabled(cfg, s, f, act) && Named(s, id)
    ensures Named(LeadStep(cfg, s, f, act), id)
  {
  }

  /** A leader's own flight is cached only by a step that names the chunk. */
  lemma LeadNamesCached(cfg: Config, s: State, f: nat, act: LeadAct, id: ChunkId)
    requires LeadEnabled(cfg, s, f, act)
    ensures var next := LeadStep(cfg, s, f, act);
            && |next.flights| == |s.flights| && next.flights == s.flights[f := next.flights[f]]
            && (CachedAs(next.flights[f], id) ==> CachedAs(s.flights[f], id) || Named(next, id))
  {
  }

  /** Dropping a reference, or joining, caches nothing. */
  lemma UncachedByRequest(flights: seq<Flight>, d: Option<nat>, g: nat, id: ChunkId)
    requires g < |flights|
    ensures CachedAs(DropFlight(flights, d)[g], id) ==> CachedAs(flights[g], id)
  {
  }

  lemma JoinCachesNothing(cfg: Config, s: State, r: nat, i: nat, g: nat, id: ChunkId)
    requires JoinEnabled(s, r, i) && g < |JoinStep(cfg, s, r, i).flights|
    ensures CachedAs(JoinStep(cfg, s, r, i).flights[g], id) ==> g < |s.flights| && CachedAs(s.flights[g], id)
  {
  }

  lemma CachedIsNamed(cfg: Config, s: State, step: Step, id: ChunkId)
    requires StepEnabled(cfg, s, step) && HasCached(Next(cfg, s, step), id)
    ensures HasCached(s, id) || Named(Next(cfg, s, step), id)
  {
    var next := Next(cfg, s, step);
    var g :| 0 <= g < |next.flights| && CachedAs(next.flights[g], id);
    match step
    case ReqStep(r, act) => UncachedByRequest(s.flights, Dropped(cfg, s, s.requests[r], act), g, id);
    case Join(r, i) => JoinCachesNothing(cfg, s, r, i, g, id);
    case LeadDo(f, act) => LeadNamesCached(cfg, s, f, act, id);
    case _ =>
  }

  /** The run does not evict the chunk. */
  predicate Spared(steps: seq<Step>, id: ChunkId) {
    forall k :: 0 <= k < |steps| ==> steps[k] != Unlink(ChunkPath(id))
  }

  lemma {:induction false} NamedAlong(cfg: Config, states: seq<State>, steps: seq<Step>, id: ChunkId, k: nat)
    requires Follows(cfg, states, steps) && Spared(steps, id) && k < |states|
    requires HasCached(states[0], id) ==> Named(states[0], id)
    ensures HasCached(states[k], id) ==> Named(states[k], id)
  {
    if k > 0 {
      NamedAlong(cfg, states, steps, id, k - 1);
      if HasCached(states[k], id) {
        CachedIsNamed(cfg, states[k - 1], steps[k - 1], id);
        if Named(states[k - 1], id) {
          OnlyEvictionUnnames(cfg, states[k - 1], steps[k - 1], id);
        }
      }
    }
  }

  lemma {:induction false} StaysNamed(cfg: Config, states: seq<State>, steps: seq<Step>, id: ChunkId, j: nat, k: nat)
    requires Follows(cfg, states, steps) && Spared(steps, id) && j <= k < |states| && Named(states[j], id)
    ensures Named(states[k], id)
    decreases k
  {
    if j < k {
      StaysNamed(cfg, states, steps, id, j, k - 1);
      OnlyEvictionUnnames(cfg, states[k - 1], steps[k - 1], id);
    }
  }

  /** A caller that can reopen the cache file keeps nothing of the flight; one that cannot reads
      the flight's pinned handle, and is the only kind that does. */
  lemma ReopenedIsPrivate(s: State, f: nat, id: ChunkId, open: bool)
    requires f < |s.flights| && CachedAs(s.flights[f], id) && s.flights[f].lead.Over?
    requires open ==> OpenPath(s, id).Some?
    ensures Shared(ClaimResult(s, f, id, open)) == if open then None else Some(f)
    ensures open ==> Content(s, ClaimResult(s, f, id, open)) == InodeData(s.fs, s.fs.dir[ChunkPath(id)])
  {
  }

  /** A goroutine that looks the chunk up hits, without the upstream, and reads its bytes. */
  ghost predicate Hits(cfg: Config, s: State, rq: Request, c: Chunk) {
    && ChunkEnabled(cfg, s, c, rq.cancelled, PHit)
    && var found := ChunkNext(cfg, s, c, rq.cancelled, PHit);
       && found.admitted && found.prod.Holding? && found.prod.res.HitFile?
       && Content(s, found.prod.res) == BytesOf(cfg, c.id)
  }

  /** Once some fetch of a chunk has been cached, and unless the chunk is evicted, every later
      lookup of it hits: in this process or, after any crashes, in the next ones, and whatever
      has become of the object upstream. */
  lemma CachedChunksHit(cfg: Config, states: seq<State>, steps: seq<Step>, id: ChunkId, j: nat, k: nat,
                        r: nat, i: nat)
    requires AsWritten(cfg) && cfg.cacheOn && Follows(cfg, states, steps) && Reachable(cfg, states[0])
    requires Spared(steps, id) && (HasCached(states[0], id) ==> Named(states[0], id))
    requires j <= k < |states| && HasCached(states[j], id)
    requires r < |states[k].requests| && i < |states[k].requests[r].chunks|
    requires states[k].requests[r].chunks[i].id == id && states[k].requests[r].chunks[i].prod.Looking?
    ensures Hits(cfg, states[k], states[k].requests[r], states[k].requests[r].chunks[i])
  {
    NamedAlong(cfg, states, steps, id, j);
    StaysNamed(cfg, states, steps, id, j, k);
    FollowsReachable(cfg, states, steps, k);
    ReachableInv(cfg, states[k]);
    assert FsOk(cfg, states[k].fs);
  }

  // ---- temporary files ----

  predicate Writes(fl: Flight, ino: nat) { fl.lead.Temp? && fl.lead.ino == ino }

  /** Every temporary name belongs to a leader that is writing the file. */
  ghost predicate TempsInUse(s: State) {
    forall ino: nat :: TempPath(ino) in s.fs.dir ==>
      ino < |s.fs.inodes| && exists f :: 0 <= f < |s.flights| && Writes(s.flights[f], ino)
  }

  /** Every leader that is writing still has its temporary name. */
  predicate TempsNamed(s: State) {
    && (forall f :: 0 <= f < |s.flights| && s.flights[f].lead.Temp? ==>
          s.flights[f].lead.ino < |s.fs.inodes| && TempPath(s.flights[f].lead.ino) in s.fs.dir)
    && (forall f, g :: 0 <= f < g < |s.flights| && s.flights[f].lead.Temp? && s.flights[g].lead.Temp? ==>
          s.flights[f].lead.ino != s.flights[g].lead.ino)
  }

  lemma WritersKept(cfg: Config, s: State, step: Step, f: nat)
    requires StepEnabled(cfg, s, step) && !step.Crash? && f < |s.flights|
    requires step.LeadDo? ==> step.f != f
    ensures f < |Next(cfg, s, step).flights| && Next(cfg, s, step).flights[f].lead == s.flights[f].lead
  {
    if step.LeadDo? {
      LeadFramesFlights(cfg, s, step.f, step.lact);
    }
  }

  lemma LeadFramesFlights(cfg: Config, s: State, f: nat, act: LeadAct)
    requires LeadEnabled(cfg, s, f, act)
    ensures var next := LeadStep(cfg, s, f, act);
            |next.flights| == |s.flights| && next.flights == s.flights[f := next.flights[f]]
  {
  }

  /** What a leader's step does to temporary names: it makes one for the file it begins, and
      takes its own away when it ends. */
  lemma LeadTemps(cfg: Config, s: State, f: nat, act: LeadAct, ino: nat)
    requires LeadEnabled(cfg, s, f, act)
    ensures var next := LeadStep(cfg, s, f, act);
            && |s.fs.inodes| <= |next.fs.inodes|
            && (Writes(s.flights[f], ino) && !Writes(next.flights[f], ino) ==> TempPath(ino) !in next.fs.dir)
            && (TempPath(ino) in next.fs.dir ==>
                  TempPath(ino) in s.fs.dir || (Writes(next.flights[f], ino) && ino < |next.fs.inodes|))
            && (TempPath(ino) in s.fs.dir && TempPath(ino) !in next.fs.dir ==> Writes(s.flights[f], ino))
            && (!Writes(s.flights[f], ino) && Writes(next.flights[f], ino) ==>
                  ino == |s.fs.inodes| < |next.fs.inodes| && TempPath(ino) in next.fs.dir)
  {
  }

  lemma StepTempsInUse(cfg: Config, s: State, step: Step)
    requires StepEnabled(cfg, s, step) && !step.Crash? && TempsInUse(s)
    ensures TempsInUse(Next(cfg, s, step))
  {
    var next := Next(cfg, s, step);
    forall ino: nat | TempPath(ino) in next.fs.dir
      ensures ino < |next.fs.inodes| && exists f :: 0 <= f < |next.flights| && Writes(next.flights[f], ino)
    {
      if step.LeadDo? {
        LeadTemps(cfg, s, step.f, step.lact, ino);
        LeadFramesFlights(cfg, s, step.f, step.lact);
      }
      if TempPath(ino) in s.fs.dir {
        var f :| 0 <= f < |s.flights| && Writes(s.flights[f], ino);
        if step.LeadDo? && step.f == f {
          assert Writes(next.flights[f], ino);
        } else {
          WritersKept(cfg, s, step, f);
          assert Writes(next.flights[f], ino);
        }
      } else {
        assert Writes(next.flights[step.f], ino);
      }
    }
  }

  lemma {:induction false} TempsAlong(cfg: Config, states: seq<State>, steps: seq<Step>, k: nat)
    requires Follows(cfg, states, steps) && TempsInUse(states[0]) && k < |states|
    requires forall j :: 0 <= j < |steps| ==> !steps[j].Crash?
    ensures TempsInUse(states[k])
  {
    if k > 0 {
      TempsAlong(cfg, states, steps, k - 1);
      StepTempsInUse(cfg, states[k - 1], steps[k - 1]);
    }
  }

  /** While a process lives it leaves no temporary file behind: whatever fails, once its fetches
      are over none of its names is left. */
  lemma NoTempsLeft(cfg: Config, states: seq<State>, steps: seq<Step>)
    requires Follows(cfg, states, steps) && (forall ino: nat :: TempPath(ino) !in states[0].fs.dir)
    requires forall j :: 0 <= j < |steps| ==> !steps[j].Crash?
    requires forall f :: 0 <= f < |states[|steps|].flights| ==> states[|steps|].flights[f].lead.Over?
    ensures forall ino: nat :: TempPath(ino) !in states[|steps|].fs.dir
  {
    TempsAlong(cfg, states, steps, |steps|);
  }

  // ---- a cache that works ----

  /** A step of a system whose cache works: healthy, or a new request, an upload, or the eviction
      of a chunk - but no removal of a temporary file. */
  predicate CacheWorks(cfg: Config, s: State, step: Step) {
    && StepEnabled(cfg, s, step) && !step.Crash?
    && (step.LeadDo? ==> step.lact.LTimeout? || step.lact.LDownloadFail? || HealthyLead(cfg, s, step.f, step.lact))
    && (step.Unlink? ==> step.path.ChunkPath?)
  }

  lemma StepTempsNamed(cfg: Config, s: State, step: Step)
    requires StepEnabled(cfg, s, step) && !step.Crash? && (step.Unlink? ==> step.path.ChunkPath?) && TempsNamed(s)
    ensures TempsNamed(Next(cfg, s, step))
  {
    match step
    case LeadDo(f, act) =>
      LeadFramesFlights(cfg, s, f, act);
      LeadKeepsTemps(cfg, s, f, act);
    case _ =>
  }

  lemma LeadKeepsTemps(cfg: Config, s: State, f: nat, act: LeadAct)
    requires LeadEnabled(cfg, s, f, act) && TempsNamed(s)
    ensures TempsNamed(LeadStep(cfg, s, f, act))
  {
    var next := LeadStep(cfg, s, f, act);
    LeadFramesFlights(cfg, s, f, act);
    forall g | 0 <= g < |next.flights| && next.flights[g].lead.Temp?
      ensures next.flights[g].lead.ino < |next.fs.inodes| && TempPath(next.flights[g].lead.ino) in next.fs.dir
      ensures forall h :: 0 <= h < |next.flights| && h != g && next.flights[h].lead.Temp? ==>
                next.flights[h].lead.ino != next.flights[g].lead.ino
    {
      var ino := next.flights[g].lead.ino;
      LeadTemps(cfg, s, f, act, ino);
      assert Writes(next.flights[g], ino);
    }
  }

  /** No fetch has ended in a buffer. */
  predicate NoBuffers(s: State) {
    forall f :: 0 <= f < |s.flights| ==> PendingOutcome(s.flights[f]) != Some(Buffered)
  }

  lemma LeadAvoidsBuffer(cfg: Config, s: State, f: nat, act: LeadAct)
    requires cfg.cacheOn && CacheWorks(cfg, s, LeadDo(f, act)) && TempsNamed(s) && NoBuffers(s)
    requires FlightOk(cfg, s.fs, s.flights[f], f)
    ensures |LeadStep(cfg, s, f, act).flights| == |s.flights|
    ensures PendingOutcome(LeadStep(cfg, s, f, act).flights[f]) != Some(Buffered)
  {
  }

  lemma StepAvoidsBuffers(cfg: Config, s: State, step: Step)
    requires cfg.cacheOn && CacheWorks(cfg, s, step) && TempsNamed(s) && NoBuffers(s) && FlightsOk(cfg, s.fs, s.flights)
    ensures NoBuffers(Next(cfg, s, step))
  {
    match step
    case LeadDo(f, act) =>
      assert FlightOk(cfg, s.fs, s.flights[f], f);
      LeadAvoidsBuffer(cfg, s, f, act);
      LeadFramesFlights(cfg, s, f, act);
    case _ =>
  }

  ghost predicate CacheWorksAlong(cfg: Config, states: seq<State>, steps: seq<Step>) {
    && Follows(cfg, states, steps)
    && forall k {:trigger steps[k]} :: 0 <= k < |steps| ==> CacheWorks(cfg, states[k], steps[k])
  }

  lemma {:induction false} NoBuffersAlong(cfg: Config, states: seq<State>, steps: seq<Step>, k: nat)
    requires AsWritten(cfg) && cfg.cacheOn && CacheWorksAlong(cfg, states, steps) && k < |states|
    requires Reachable(cfg, states[0]) && states[0].flights == []
    ensures TempsNamed(states[k]) && NoBuffers(states[k])
  {
    if k > 0 {
      NoBuffersAlong(cfg, states, steps, k - 1);
      FollowsReachable(cfg, states, steps, k - 1);
      ReachableInv(cfg, states[k - 1]);
      assert CacheWorks(cfg, states[k - 1], steps[k - 1]);
      StepTempsNamed(cfg, states[k - 1], steps[k - 1]);
      StepAvoidsBuffers(cfg, states[k - 1], steps[k - 1]);
    }
  }

  /** While the cache works, whatever else fails, every chunk is served from a file: no request
      is handed a buffer, the write guard counts none, and no client, however slow, is cut. */
  lemma WorkingCacheCutsNobody(cfg: Config, states: seq<State>, steps: seq<Step>, k: nat, r: nat)
    requires AsWritten(cfg) && cfg.cacheOn && CacheWorksAlong(cfg, states, steps) && k < |states|
    requires Reachable(cfg, states[0]) && states[0].flights == []
    requires r < |states[k].requests|
    ensures var rq := states[k].requests[r];
            && (!rq.cons.Cleaning? && !rq.cons.Returned? ==> rq.guard.held == 0) && !rq.guard.armed
  {
    NoBuffersAlong(cfg, states, steps, k);
    FollowsReachable(cfg, states, steps, k);
    ReachableInv(cfg, states[k]);
    NothingCounted(cfg, states[k], states[k].requests[r]);
  }

  lemma NothingCounted(cfg: Config, s: State, rq: Request)
    requires RequestOk(cfg, rq) && LinksOk(cfg, s.flights, s.fs, rq) && NoBuffers(s)
    ensures (!rq.cons.Cleaning? && !rq.cons.Returned? ==> rq.guard.held == 0) && !rq.guard.armed
  {
    forall i | 0 <= i < |rq.chunks| ensures Counted(rq.chunks[i]) == 0 {
      assert LinkOk(cfg, s.flights, s.fs, rq, i);
    }
    SumZero(rq.chunks, Counted);
    assert rq.served < |rq.chunks| ==> Counted(rq.chunks[rq.served]) == 0;
  }
}
