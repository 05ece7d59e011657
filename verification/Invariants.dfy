/** What every reachable state of the protocol satisfies. */
module Invariants {
  import opened Base
  import opened Tiling
  import opened WriteGuard
  import opened Protocol

  // ---- counting references ----

  function One(b: bool): int { if b then 1 else 0 }

  function RefIn(res: Option<Result>, f: nat): int {
    One(res.Some? && Shared(res.value) == Some(f))
  }

  function ProducerResult(c: Chunk): Option<Result> {
    match c.prod
    case Holding(res) => Some(res)
    case Sending(res) => Some(res)
    case _ => None
  }

  function ClaimerResult(c: Chunk): Option<Result> {
    if c.claim.Offering? then Some(c.claim.res) else None
  }

  /** References to flight f held for one chunk: by its claim goroutine, or by its result
      wherever that is. */
  function ChunkRefs(c: Chunk, f: nat): int {
    One(c.claim == AwaitDone(f)) + RefIn(ClaimerResult(c), f) + RefIn(ProducerResult(c), f)
    + RefIn(c.pending, f) + RefIn(c.hand, f)
  }

  function ChunkWeight(f: nat): Chunk -> int { (c: Chunk) => ChunkRefs(c, f) }

  function RequestRefs(rq: Request, f: nat): int { Sum(rq.chunks, ChunkWeight(f)) }

  function RequestWeight(f: nat): Request -> int { (rq: Request) => RequestRefs(rq, f) }

  /** All references to flight f in the system. */
  function Refs(s: State, f: nat): int { Sum(s.requests, RequestWeight(f)) }

  /** Successful results of a chunk that are still somewhere. */
  function Live(c: Chunk): int {
    MadeIn(ClaimerResult(c)) + MadeIn(ProducerResult(c)) + MadeIn(c.pending) + MadeIn(c.hand)
  }

  function MadeIn(res: Option<Result>): int { if res.Some? then Made(res.value) else 0 }

  function BufferIn(res: Option<Result>): int { One(res.Some? && res.value.SharedBuffer?) }

  /** Buffered results that hold has counted and whose write has not been closed. */
  function Counted(c: Chunk): int {
    (if c.prod.Sending? then BufferIn(Some(c.prod.res)) else 0) + BufferIn(c.pending) + BufferIn(c.hand)
  }

  // ---- one request on its own ----

  predicate Shape(cfg: Config, rq: Request) {
    && cfg.chunkSize >= 1
    && rq.ver in cfg.objects && rq.first <= rq.last < |cfg.objects[rq.ver]|
    && |rq.chunks| == ChunkCount(cfg.chunkSize, rq.first, rq.last)
    && (forall i :: 0 <= i < |rq.chunks| ==>
          rq.chunks[i].id == ChunkId(rq.ver, ChunkOff(cfg.chunkSize, rq.first, i)))
  }

  predicate DispOk(rq: Request) {
    && 1 <= |rq.chunks| && rq.started <= |rq.chunks|
    && match rq.disp
       case TakeSlot => rq.started < |rq.chunks| && rq.slots + rq.served == rq.started
       case CheckCancel => rq.started < |rq.chunks| && rq.slots + rq.served == rq.started + 1
       case AwaitAdmission => 1 <= rq.started && rq.slots + rq.served == rq.started
       case Exited =>
         (rq.cancelled || rq.started == |rq.chunks|)
         && rq.started <= rq.slots + rq.served <= rq.started + 1
  }

  /** The consumer is busy with a received chunk. */
  predicate InHand(cons: Consumer) {
    cons.Starting? || cons.Writing? || cons.Ending? || cons.Closing?
  }

  /** A cancellation is noticed while waiting for a chunk; the other errors come with one. */
  predicate StoppedBy(rq: Request, cause: Cause) {
    rq.served < |rq.chunks| && rq.received == if cause.Cancelled? then rq.served else rq.served + 1
  }

  predicate ConsOk(rq: Request) {
    && rq.served <= rq.received <= rq.started
    && rq.received <= rq.served + 1
    && match rq.cons
       case Waiting => rq.received == rq.served < |rq.chunks|
       case AwaitGroup => rq.served == rq.received == |rq.chunks|
       case Aborting(e) => rq.cancelled && StoppedBy(rq, e)
       case Cleaning(j, e) => rq.cancelled && j <= |rq.chunks| && rq.disp.Exited? && StoppedBy(rq, e)
       case Returned(e) =>
         rq.cancelled && rq.disp.Exited?
         && (if e.None? then rq.served == rq.received == |rq.chunks| else StoppedBy(rq, e.value))
       case _ => rq.received == rq.served + 1
  }

  predicate Early(p: Producer) { p.NotStarted? || p.Looking? || p.Joining? }

  predicate ChunkOk(rq: Request, i: nat)
    requires i < |rq.chunks|
  {
    var c := rq.chunks[i];
    // where the dispatcher stands
    && (c.prod.NotStarted? <==> i >= rq.started)
    && (i < rq.started && (i + 1 < rq.started || rq.disp.TakeSlot? || rq.disp.CheckCancel?) ==> c.admitted)
    // where the chunk stands
    && (Early(c.prod) ==> !c.admitted && c.claim.NoClaim? && c.made == 0)
    && (c.prod.AwaitResult? || c.prod.Holding? || c.prod.Sending? || c.prod.Sent? ==> c.admitted)
    && (c.prod.AwaitAdmit? || c.prod.AwaitResult? ==>
          c.claim.AwaitDone? || c.claim.Offering? || (c.claim.Settled? && rq.cancelled))
    && (c.prod.AwaitAdmit? ==> c.claim.AwaitDone? ==> c.claim.flight == c.prod.flight)
    && (c.prod.AwaitResult? ==> c.claim.AwaitDone? ==> c.claim.flight == c.prod.flight)
    && (c.prod.Holding? || c.prod.Sending? || c.prod.Sent? ==>
          c.claim.NoClaim? || c.claim.Settled? || rq.cancelled)
    && (c.claim.AwaitDone? ==> c.made == 0)
    // its result
    && c.made <= 1 && c.closed + Live(c) == c.made
    && (c.pending.Some? ==> c.prod.Sent? && i >= rq.received)
    && (c.hand.Some? <==> i == rq.served && InHand(rq.cons))
    && (c.hand.Some? ==> !c.hand.value.Failed?)
    && (c.prod.Sent? && i >= rq.received && !rq.cons.Cleaning? && !rq.cons.Returned? ==> c.pending.Some?)
    && (i < rq.received ==> c.prod.Sent?)
    // the end of the request
    && (rq.cons.Cleaning? ==> ProducerDone(c) && (i < rq.cons.next ==> c.pending.None?))
    && (rq.cons.Returned? ==> ProducerDone(c) && c.pending.None?)
  }

  ghost predicate ChunksOk(rq: Request) {
    forall i {:trigger ChunkOk(rq, i)} :: 0 <= i < |rq.chunks| ==> ChunkOk(rq, i)
  }

  /** The current chunk's buffer, already discounted by end. */
  function EndedBuffer(rq: Request): int {
    if rq.cons.Closing? && rq.served < |rq.chunks| then BufferIn(rq.chunks[rq.served].hand) else 0
  }

  predicate GuardOk(works: bool, rq: Request) {
    && Exact(rq.guard, works)
    && (rq.guard.writing <==> rq.cons.Writing? || rq.cons.Ending?)
    && (!rq.cons.Cleaning? && !rq.cons.Returned? ==>
          rq.guard.held == Sum(rq.chunks, Counted) - EndedBuffer(rq))
  }

  /** How many bytes of the span the first i chunks make. */
  function Upto(cfg: Config, rq: Request, i: nat): nat
    requires cfg.chunkSize >= 1 && rq.first <= rq.last
  {
    Bound(cfg.chunkSize, rq.first, rq.last, i) - rq.first
  }

  /** The response so far, for a consumer whose current chunk takes it from lo to hi of the
      span's bytes: a prefix of the span, complete exactly when the request succeeds. */
  predicate BodyAt(span: seq<Byte>, cons: Consumer, body: seq<Byte>, lo: nat, hi: nat) {
    && body <= span
    && match cons
       case Waiting => |body| == lo
       case Starting => |body| == lo
       case Writing(k) => |body| == lo + k <= hi
       case Ending(ok) => CutAt(span, body, if ok then None else Some(WriteError), lo, hi)
       case Closing(ok) => CutAt(span, body, if ok then None else Some(WriteError), lo, hi)
       case Slotting => |body| == hi
       case AwaitGroup => body == span
       case Aborting(e) => CutAt(span, body, Some(e), lo, hi)
       case Cleaning(_, e) => CutAt(span, body, Some(e), lo, hi)
       case Returned(e) => if e.None? then body == span else CutAt(span, body, e, lo, hi)
  }

  /** Where the response stops in the consumer's current chunk: at its end; after a failed
      write anywhere in it; for any other cause before it. */
  predicate CutAt(span: seq<Byte>, body: seq<Byte>, error: Option<Cause>, lo: nat, hi: nat) {
    if error.None? then |body| == hi
    else if error.value.WriteError? then lo <= |body| <= hi
    else |body| == lo < |span|
  }

  function Span(cfg: Config, rq: Request): seq<Byte>
    requires Shape(cfg, rq)
  {
    cfg.objects[rq.ver][rq.first..rq.last + 1]
  }

  ghost predicate BodyOk(cfg: Config, rq: Request)
    requires Shape(cfg, rq)
  {
    BodyAt(Span(cfg, rq), rq.cons, rq.body, Upto(cfg, rq, rq.served), Upto(cfg, rq, rq.served + 1))
  }

  ghost predicate StatusOk(rq: Request) {
    && (rq.status.Unwritten? || rq.status.ErrorStatus? ==> rq.body == [] && rq.served == 0)
    && (rq.status.Success? ==> rq.received >= 1 && rq.chunks != [] && rq.chunks[0].made == 1)
    && (rq.cons.Waiting? || rq.cons.Starting? ==> (rq.status.Success? <==> rq.served > 0))
    && (rq.cons.Writing? || rq.cons.Ending? || rq.cons.Closing? || rq.cons.Slotting? || rq.cons.AwaitGroup? ==>
          rq.status.Success?)
    && (rq.cons.Aborting? ==> (rq.status.Success? <==> rq.served > 0 || rq.cons.cause.WriteError?))
    && (rq.cons.Cleaning? ==> (rq.status.Success? <==> rq.served > 0 || rq.cons.cause.WriteError?))
    && (rq.cons.Returned? && rq.cons.error.Some? ==>
          (rq.status.Success? <==> rq.served > 0 || rq.cons.error.value.WriteError?))
    && (rq.status.ErrorStatus? ==> rq.cons.Returned? && rq.cons.error.Some?)
    && (rq.cons.Returned? ==> !rq.status.Unwritten?)
    && (rq.cons.Returned? && rq.cons.error.None? ==> rq.status.Success?)
  }

  /** The request's control state. */
  ghost predicate ControlOk(works: bool, rq: Request) {
    DispOk(rq) && ConsOk(rq) && ChunksOk(rq) && GuardOk(works, rq) && StatusOk(rq)
  }

  /** The request's bytes. */
  ghost predicate SpanOk(cfg: Config, rq: Request) {
    Shape(cfg, rq) && BodyOk(cfg, rq)
  }

  ghost predicate RequestOk(cfg: Config, rq: Request) {
    ControlOk(cfg.guardOn, rq) && SpanOk(cfg, rq)
  }

  // ---- a request against the flights and the cache directory ----

  /** The inode is complete: it holds the chunk's bytes and nobody writes it any more. */
  predicate Complete(cfg: Config, fs: Fs, ino: nat, id: ChunkId) {
    ino < |fs.inodes| && fs.inodes[ino].writer.None? && fs.inodes[ino].data == BytesOf(cfg, id)
  }

  predicate FinishedAs(flights: seq<Flight>, f: nat, id: ChunkId) {
    f < |flights| && flights[f].id == id && flights[f].lead.Over?
  }

  predicate ResultOk(cfg: Config, flights: seq<Flight>, fs: Fs, res: Result, id: ChunkId) {
    match res
    case Failed => true
    case HitFile(ino) => Complete(cfg, fs, ino, id)
    case FreshFile(ino) => Complete(cfg, fs, ino, id)
    case PinnedFile(f) => FinishedAs(flights, f, id) && flights[f].lead.out.Cached?
    case SharedBuffer(f) => FinishedAs(flights, f, id) && flights[f].lead.out.Buffered?
  }

  predicate HolderOk(cfg: Config, flights: seq<Flight>, fs: Fs, res: Option<Result>, id: ChunkId) {
    res.Some? ==> ResultOk(cfg, flights, fs, res.value, id)
  }

  /** i + 1 < started says that a later chunk has been started: then chunk i's flight no
      longer waits for budget. */
  predicate LinkOk(cfg: Config, flights: seq<Flight>, fs: Fs, rq: Request, i: nat)
    requires i < |rq.chunks|
  {
    var c := rq.chunks[i];
    && (c.claim.AwaitDone? ==>
          && c.claim.flight < |flights| && flights[c.claim.flight].id == c.id
          && (c.admitted && !rq.cancelled ==> flights[c.claim.flight].admitted)
          && (i + 1 < rq.started ==> flights[c.claim.flight].admitted))
    && (c.prod.AwaitAdmit? ==>
          c.prod.flight < |flights| && (c.claim.AwaitDone? || flights[c.prod.flight].admitted))
    && (c.prod.AwaitResult? ==> c.prod.flight < |flights| && flights[c.prod.flight].admitted)
    && HolderOk(cfg, flights, fs, ClaimerResult(c), c.id)
    && HolderOk(cfg, flights, fs, ProducerResult(c), c.id)
    && HolderOk(cfg, flights, fs, c.pending, c.id)
    && HolderOk(cfg, flights, fs, c.hand, c.id)
  }

  ghost predicate LinksOk(cfg: Config, flights: seq<Flight>, fs: Fs, rq: Request) {
    forall i {:trigger LinkOk(cfg, flights, fs, rq, i)} ::
      0 <= i < |rq.chunks| ==> LinkOk(cfg, flights, fs, rq, i)
  }

  // ---- flights ----

  /** The flight still owns a budget unit. */
  predicate HoldsUnit(fl: Flight) {
    match fl.lead
    case Queued => false
    case Finishing(out) => out.Buffered?
    case Publishing(out) => out.Buffered?
    case Closing'(out) => out.Buffered?
    case Over(out) => out.Buffered? && !fl.free.Freed?
    case _ => true
  }

  /** Its buffer is still counted. */
  predicate HoldsBytes(fl: Flight) {
    match fl.lead
    case Queued => false
    case Acquired => false
    case Admitted => false
    case ReleaseUnit(_) => false
    case Over(out) => out.Buffered? && (fl.free.Held? || fl.free.FreeBytes?)
    case Finishing(out) => out.Buffered?
    case Publishing(out) => out.Buffered?
    case Closing'(out) => out.Buffered?
    case _ => true
  }

  function UnitWeight(fl: Flight): int { One(HoldsUnit(fl)) }

  function ByteWeight(fl: Flight): int { if HoldsBytes(fl) then fl.size else 0 }

  function PendingOutcome(fl: Flight): Option<Outcome> {
    match fl.lead
    case ReleaseBytes(out) => Some(out)
    case ReleaseUnit(out) => Some(out)
    case Finishing(out) => Some(out)
    case Publishing(out) => Some(out)
    case Closing'(out) => Some(out)
    case Over(out) => Some(out)
    case _ => None
  }

  predicate BufferFilled(fl: Flight) {
    fl.lead.Loaded? || fl.lead.Temp? || (PendingOutcome(fl).Some? && PendingOutcome(fl).value.Buffered?)
  }

  predicate FlightOk(cfg: Config, fs: Fs, fl: Flight, f: nat) {
    && fl.size == |BytesOf(cfg, fl.id)| && 1 <= fl.size <= cfg.chunkSize
    && (fl.lead.Queued? || fl.lead.Acquired? ==> !fl.admitted)
    && (!fl.lead.Queued? && !fl.lead.Acquired? && !fl.lead.Finishing? && !fl.lead.Publishing? ==> fl.admitted)
    && (BufferFilled(fl) ==> fl.buf == BytesOf(cfg, fl.id))
    && (fl.lead.Temp? ==>
          && fl.lead.ino < |fs.inodes| && fl.lead.done <= |fl.buf|
          && fs.inodes[fl.lead.ino] == Inode(fl.buf[..fl.lead.done], Some(f)))
    && (PendingOutcome(fl).Some? && PendingOutcome(fl).value.Cached? ==>
          Complete(cfg, fs, PendingOutcome(fl).value.ino, fl.id))
    && (fl.lead.ReleaseBytes? || fl.lead.ReleaseUnit? ==> !fl.lead.next.Buffered?)
    && (fl.free.FreeBytes? || fl.free.FreeUnit? ==> fl.lead.Over? && fl.lead.out.Buffered?)
    && (!fl.lead.Over? ==> fl.free.Held?)
    && (fl.lead.Over? ==> (fl.free.Held? <==> fl.refs > 0))
  }

  ghost predicate FlightsOk(cfg: Config, fs: Fs, flights: seq<Flight>) {
    forall f {:trigger flights[f]} :: 0 <= f < |flights| ==> FlightOk(cfg, fs, flights[f], f)
  }

  /** The callers counted so far, or after finish the references not yet dropped. */
  function Count(fl: Flight): int { if Joinable(fl) then fl.waiters else fl.refs }

  ghost predicate RefsOk(s: State) {
    forall f {:trigger Refs(s, f)} :: 0 <= f < |s.flights| ==>
      Refs(s, f) == Count(s.flights[f]) && (!s.flights[f].lead.Over? ==> Refs(s, f) >= 1)
  }

  ghost predicate SfOk(s: State) {
    && (forall id :: id in s.sf ==>
          s.sf[id] < |s.flights| && s.flights[s.sf[id]].id == id && Joinable(s.flights[s.sf[id]]))
    && (forall f {:trigger s.flights[f]} :: 0 <= f < |s.flights| && Joinable(s.flights[f]) ==>
          s.flights[f].id in s.sf && s.sf[s.flights[f].id] == f)
  }

  ghost predicate BudgetOk(cfg: Config, s: State) {
    s.units == Sum(s.flights, UnitWeight) <= cfg.budget && s.inUse == Sum(s.flights, ByteWeight)
  }

  ghost predicate FsOk(cfg: Config, fs: Fs) {
    && (forall id :: ChunkPath(id) in fs.dir ==> Complete(cfg, fs, fs.dir[ChunkPath(id)], id))
  }

  ghost predicate RequestsOk(cfg: Config, s: State) {
    forall r {:trigger s.requests[r]} :: 0 <= r < |s.requests| ==>
      RequestOk(cfg, s.requests[r]) && LinksOk(cfg, s.flights, s.fs, s.requests[r])
  }

  ghost predicate Inv(cfg: Config, s: State) {
    && ValidConfig(cfg) && cfg.waitAdmission && cfg.checkCancel
    && RequestsOk(cfg, s)
    && FlightsOk(cfg, s.fs, s.flights)
    && RefsOk(s)
    && SfOk(s)
    && BudgetOk(cfg, s)
    && FsOk(cfg, s.fs)
  }
}
