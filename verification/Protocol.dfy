/** One GET after another, as atomic steps: dispatcher, chunk fetchers, claim goroutines and
    consumer of every request; the shared flights with their leaders; the buffer budget; the
    cache directory; and the upstream store. Each step is one channel operation, one lock
    region or one atomic, together with the goroutine-local work that follows it. */
module Protocol {
  import opened Base
  import opened Tiling
  import opened WriteGuard

  // ---- configuration and names ----

  datatype Version = Version(key: string, etag: string)

  /** Names a chunk of one object version: the flight key and the versioned cache file. */
  datatype ChunkId = ChunkId(ver: Version, off: nat)

  /** waitAdmission and checkCancel are the two guards of the dispatcher loop; the code has
      both, and each can be turned off here to see what it is for. */
  datatype Config = Config(
    chunkSize: nat, budget: nat, workers: int, cacheOn: bool, guardOn: bool,
    objects: map<Version, seq<Byte>>, waitAdmission: bool, checkCancel: bool)

  predicate ValidConfig(cfg: Config) {
    cfg.chunkSize >= 1 && cfg.budget >= 1
  }

  function Window(cfg: Config): nat { if cfg.workers < 4 then 4 else cfg.workers }

  // ---- state ----

  /** What a fetch hands to the consumer: a private handle, the flight's pinned handle, or
      the flight's buffer. */
  datatype Result = Failed | HitFile(ino: nat) | FreshFile(ino: nat)
                  | PinnedFile(flight: nat) | SharedBuffer(flight: nat)

  /** The goroutine that serveAligned starts for one chunk (inside fetchChunk until Holding). */
  datatype Producer = NotStarted | Looking | Joining
                    | AwaitAdmit(flight: nat) | AwaitResult(flight: nat)
                    | Holding(res: Result) | Sending(res: Result) | Sent

  /** The goroutine that claims the flight's result. */
  datatype Claimer = NoClaim | AwaitDone(flight: nat) | Offering(res: Result) | Settled

  /** made and closed count the successful results made for the chunk and closed. */
  datatype Chunk = Chunk(
    id: ChunkId, admitted: bool, prod: Producer, claim: Claimer,
    pending: Option<Result>, hand: Option<Result>, made: nat, closed: nat)

  datatype Dispatcher = TakeSlot | CheckCancel | AwaitAdmission | Exited

  datatype Cause = ChunkError | WriteError | Cancelled

  datatype Consumer = Waiting | Starting | Writing(done: nat) | Ending(ok: bool)
                    | Closing(ok: bool) | Slotting | AwaitGroup
                    | Aborting(cause: Cause) | Cleaning(next: nat, cause: Cause)
                    | Returned(error: Option<Cause>)

  datatype Status = Unwritten | Success | ErrorStatus

  /** started: chunks dispatched; slots: occupied window slots; received: chunks taken from
      pending; served: chunks written and freed, hence the consumer's current chunk. */
  datatype Request = Request(
    ver: Version, first: nat, last: nat, cancelled: bool,
    disp: Dispatcher, started: nat, slots: int, chunks: seq<Chunk>,
    cons: Consumer, received: nat, served: nat,
    guard: GuardState, status: Status, body: seq<Byte>)

  datatype Outcome = FetchError | Cached(ino: nat) | Buffered

  /** Program counter of lead. */
  datatype Lead = Queued | Acquired | Admitted | Loading | Loaded
                | Temp(ino: nat, done: nat)
                | ReleaseBytes(next: Outcome) | ReleaseUnit(next: Outcome)
                | Finishing(out: Outcome) | Publishing(out: Outcome) | Closing'(out: Outcome)
                | Over(out: Outcome)

  datatype Freeing = Held | FreeBytes | FreeUnit | Freed

  /** A singleflight call and its chunkFlight. */
  datatype Flight = Flight(
    id: ChunkId, size: nat, lead: Lead, admitted: bool, waiters: int, refs: int,
    free: Freeing, buf: seq<Byte>)

  /** A versioned chunk name, or the temporary name of inode ino. */
  datatype Path = ChunkPath(id: ChunkId) | TempPath(ino: nat)

  /** writer: the flight that may still write the inode. */
  datatype Inode = Inode(data: seq<Byte>, writer: Option<nat>)

  datatype Fs = Fs(dir: map<Path, nat>, inodes: seq<Inode>)

  /** sf: the registered calls; current: the ETag the upstream now has for each key. */
  datatype State = State(
    requests: seq<Request>, flights: seq<Flight>, sf: map<ChunkId, nat>,
    units: int, inUse: int, fs: Fs, current: map<string, string>)

  predicate Initial(s: State) {
    s.requests == [] && s.flights == [] && s.sf == map[] && s.units == 0 && s.inUse == 0
    && s.fs == Fs(map[], [])
  }

  // ---- small readers ----

  /** The flight whose reference a result carries. */
  function Shared(res: Result): Option<nat> {
    match res
    case PinnedFile(f) => Some(f)
    case SharedBuffer(f) => Some(f)
    case _ => None
  }

  function Object(cfg: Config, ver: Version): seq<Byte> {
    if ver in cfg.objects then cfg.objects[ver] else []
  }

  function BytesOf(cfg: Config, id: ChunkId): seq<Byte> {
    ChunkBytes(Object(cfg, id.ver), cfg.chunkSize, id.off)
  }

  /** What reading a result yields now. */
  function Content(s: State, res: Result): seq<Byte> {
    match res
    case Failed => []
    case HitFile(ino) => InodeData(s.fs, ino)
    case FreshFile(ino) => InodeData(s.fs, ino)
    case PinnedFile(f) =>
      if f < |s.flights| && s.flights[f].lead.Over? && s.flights[f].lead.out.Cached?
      then InodeData(s.fs, s.flights[f].lead.out.ino) else []
    case SharedBuffer(f) => if f < |s.flights| then s.flights[f].buf else []
  }

  function InodeData(fs: Fs, ino: nat): seq<Byte> {
    if ino < |fs.inodes| then fs.inodes[ino].data else []
  }

  predicate ProducerDone(c: Chunk) { c.prod.NotStarted? || c.prod.Sent? }

  /** The WaitGroup has drained. */
  predicate GroupDone(rq: Request) {
    rq.disp.Exited? && forall i :: 0 <= i < |rq.chunks| ==> ProducerDone(rq.chunks[i])
  }

  /** A call can still be joined until finish has taken it off the map. */
  predicate Joinable(fl: Flight) {
    !fl.lead.Publishing? && !fl.lead.Closing'? && !fl.lead.Over?
  }

  // ---- steps of one request ----

  function OpenPath(s: State, id: ChunkId): Option<nat> {
    if ChunkPath(id) in s.fs.dir then Some(s.fs.dir[ChunkPath(id)]) else None
  }

  function Made(res: Result): nat { if res.Failed? then 0 else 1 }

  /** The dispatcher goroutine. */
  datatype DispAct = DTakeSlot | DCheckCancel | DSeeAdmission | DLeave

  predicate DispEnabled(cfg: Config, rq: Request, act: DispAct) {
    match act
    case DTakeSlot => rq.disp.TakeSlot? && rq.started < |rq.chunks| && rq.slots < Window(cfg)
    case DCheckCancel => rq.disp.CheckCancel? && rq.started < |rq.chunks|
    case DSeeAdmission =>
      rq.disp.AwaitAdmission? && 1 <= rq.started <= |rq.chunks| && rq.chunks[rq.started - 1].admitted
    case DLeave => (rq.disp.TakeSlot? || rq.disp.AwaitAdmission?) && rq.cancelled
  }

  function WithChunk(rq: Request, i: nat, c: Chunk): Request
    requires i < |rq.chunks|
  {
    rq.(chunks := rq.chunks[i := c])
  }

  function AfterAdmission(started: nat, chunks: nat): Dispatcher {
    if started >= chunks then Exited else TakeSlot
  }

  function DispNext(cfg: Config, rq: Request, act: DispAct): Request
    requires DispEnabled(cfg, rq, act)
  {
    match act
    case DTakeSlot => rq.(disp := CheckCancel, slots := rq.slots + 1)
    case DCheckCancel =>
      if cfg.checkCancel && rq.cancelled then rq.(disp := Exited)
      else
        WithChunk(rq, rq.started, rq.chunks[rq.started].(prod := Looking)).(
          started := rq.started + 1,
          disp := if cfg.waitAdmission then AwaitAdmission else AfterAdmission(rq.started + 1, |rq.chunks|))
    case DSeeAdmission => rq.(disp := AfterAdmission(rq.started, |rq.chunks|))
    case DLeave => rq.(disp := Exited)
  }

  /** The goroutines of one chunk: the fetcher (P) and the claimer (C). */
  datatype ChunkAct = PHit | PMiss | PSeeAdmit | PAbandon | PHandoff | PHold | PSend
                    | CClaim(open: bool) | CDrop

  predicate ChunkEnabled(cfg: Config, s: State, c: Chunk, cancelled: bool, act: ChunkAct) {
    match act
    case PHit => c.prod.Looking? && cfg.cacheOn && OpenPath(s, c.id).Some?
    case PMiss => c.prod.Looking?
    case PSeeAdmit =>
      c.prod.AwaitAdmit? && c.prod.flight < |s.flights| && s.flights[c.prod.flight].admitted
    case PAbandon => (c.prod.AwaitAdmit? || c.prod.AwaitResult?) && cancelled
    case PHandoff => c.prod.AwaitResult? && c.claim.Offering?
    case PHold => c.prod.Holding?
    case PSend => c.prod.Sending?
    case CClaim(open) =>
      c.claim.AwaitDone? && c.claim.flight < |s.flights| && s.flights[c.claim.flight].lead.Over?
      && (open ==> OpenPath(s, c.id).Some?)
    case CDrop => c.claim.Offering? && cancelled
  }

  /** The result that claim makes of a finished flight. */
  function ClaimResult(s: State, f: nat, id: ChunkId, open: bool): Result
    requires f < |s.flights| && s.flights[f].lead.Over? && (open ==> OpenPath(s, id).Some?)
  {
    match s.flights[f].lead.out
    case FetchError => Failed
    case Buffered => SharedBuffer(f)
    case Cached(_) => if open then FreshFile(OpenPath(s, id).value) else PinnedFile(f)
  }

  function ChunkNext(cfg: Config, s: State, c: Chunk, cancelled: bool, act: ChunkAct): Chunk
    requires ChunkEnabled(cfg, s, c, cancelled, act)
  {
    match act
    case PHit => c.(admitted := true, prod := Holding(HitFile(OpenPath(s, c.id).value)), made := c.made + 1)
    case PMiss => if cancelled then c.(admitted := true, prod := Holding(Failed)) else c.(prod := Joining)
    case PSeeAdmit => c.(admitted := true, prod := AwaitResult(c.prod.flight))
    case PAbandon => c.(admitted := true, prod := Holding(Failed))
    case PHandoff => c.(prod := Holding(c.claim.res), claim := Settled)
    case PHold => c.(prod := Sending(c.prod.res))
    case PSend => c.(prod := Sent, pending := Some(c.prod.res))
    case CClaim(open) =>
      var res := ClaimResult(s, c.claim.flight, c.id, open);
      c.(claim := Offering(res), made := c.made + Made(res))
    case CDrop => c.(claim := Settled, closed := c.closed + Made(c.claim.res))
  }

  /** Delivering a buffered chunk counts it in the write guard first. */
  function GuardNext(cfg: Config, c: Chunk, g: GuardState, act: ChunkAct): GuardState {
    if act.PHold? && c.prod.Holding? && c.prod.res.SharedBuffer? then Hold(g, cfg.guardOn) else g
  }

  /** The handler goroutine. */
  datatype ConsAct = KReceive | KSeeCancel | KBegin | KWrite(n: nat) | KWriteDone | KWriteFail
                   | KEnd | KClose | KFreeSlot | KReturn | KGroupDone | KClean | KCleaned

  predicate HasHand(rq: Request) {
    rq.served < |rq.chunks| && rq.chunks[rq.served].hand.Some?
  }

  /** The bytes the consumer's current chunk contributes to the response. */
  function CurrentSlice(s: State, rq: Request): seq<Byte> {
    if HasHand(rq) then
      var c := rq.chunks[rq.served];
      Slice(Content(s, c.hand.value), c.id.off, rq.first, rq.last)
    else []
  }

  predicate ConsEnabled(s: State, rq: Request, act: ConsAct) {
    match act
    case KReceive => rq.cons.Waiting? && rq.served < |rq.chunks| && rq.chunks[rq.served].pending.Some?
    case KSeeCancel => rq.cons.Waiting? && rq.cancelled
    case KBegin => rq.cons.Starting?
    case KWrite(n) => rq.cons.Writing? && n > 0 && rq.cons.done + n <= |CurrentSlice(s, rq)|
    case KWriteDone => rq.cons.Writing? && rq.cons.done == |CurrentSlice(s, rq)|
    case KWriteFail => rq.cons.Writing?
    case KEnd => rq.cons.Ending? && HasHand(rq)
    case KClose => rq.cons.Closing? && HasHand(rq)
    case KFreeSlot => rq.cons.Slotting? && rq.slots > 0
    case KReturn => rq.cons.AwaitGroup? && GroupDone(rq)
    case KGroupDone => rq.cons.Aborting? && GroupDone(rq)
    case KClean => rq.cons.Cleaning? && rq.cons.next < |rq.chunks|
    case KCleaned => rq.cons.Cleaning? && rq.cons.next == |rq.chunks|
  }

  function ConsNext(cfg: Config, s: State, rq: Request, act: ConsAct): Request
    requires ConsEnabled(s, rq, act)
  {
    match act
    case KReceive =>
      var c := rq.chunks[rq.served];
      if c.pending.value.Failed? then
        WithChunk(rq, rq.served, c.(pending := None)).(
          received := rq.received + 1, cancelled := true, cons := Aborting(ChunkError))
      else
        WithChunk(rq, rq.served, c.(pending := None, hand := c.pending)).(
          received := rq.received + 1, cons := Starting)
    case KSeeCancel => rq.(cons := Aborting(Cancelled))
    case KBegin =>
      rq.(cons := Writing(0), guard := Begin(rq.guard, cfg.guardOn),
          status := if rq.served == 0 then Success else rq.status)
    case KWrite(n) =>
      rq.(cons := Writing(rq.cons.done + n),
          body := rq.body + CurrentSlice(s, rq)[rq.cons.done..rq.cons.done + n])
    case KWriteDone => rq.(cons := Ending(true))
    case KWriteFail => rq.(cons := Ending(false))
    case KEnd =>
      rq.(cons := Closing(rq.cons.ok),
          guard := End(rq.guard, rq.chunks[rq.served].hand.value.SharedBuffer?))
    case KClose =>
      var c := rq.chunks[rq.served];
      var out := WithChunk(rq, rq.served, c.(hand := None, closed := c.closed + Made(c.hand.value)));
      if rq.cons.ok then out.(cons := Slotting)
      else out.(cons := Aborting(WriteError), cancelled := true)
    case KFreeSlot =>
      rq.(slots := rq.slots - 1, served := rq.served + 1,
          cons := if rq.served + 1 < |rq.chunks| then Waiting else AwaitGroup)
    case KReturn => rq.(cons := Returned(None), cancelled := true)
    case KGroupDone => rq.(cons := Cleaning(0, rq.cons.cause))
    case KClean =>
      var j := rq.cons.next;
      var c := rq.chunks[j];
      if c.pending.None? then rq.(cons := Cleaning(j + 1, rq.cons.cause))
      else
        WithChunk(rq, j, c.(pending := None, closed := c.closed + Made(c.pending.value))).(
          cons := Cleaning(j + 1, rq.cons.cause))
    case KCleaned =>
      rq.(cons := Returned(Some(rq.cons.cause)),
          status := if rq.status.Unwritten? then ErrorStatus else rq.status)
  }

  datatype Act = Disp(d: DispAct) | OfChunk(i: nat, a: ChunkAct) | Cons(k: ConsAct) | Cancel

  predicate Enabled(cfg: Config, s: State, rq: Request, act: Act) {
    match act
    case Disp(d) => DispEnabled(cfg, rq, d)
    case OfChunk(i, a) => i < |rq.chunks| && ChunkEnabled(cfg, s, rq.chunks[i], rq.cancelled, a)
    case Cons(k) => ConsEnabled(s, rq, k)
    case Cancel => !rq.cancelled
  }

  function NextRequest(cfg: Config, s: State, rq: Request, act: Act): Request
    requires Enabled(cfg, s, rq, act)
  {
    match act
    case Disp(d) => DispNext(cfg, rq, d)
    case OfChunk(i, a) =>
      var c := rq.chunks[i];
      WithChunk(rq, i, ChunkNext(cfg, s, c, rq.cancelled, a)).(guard := GuardNext(cfg, c, rq.guard, a))
    case Cons(k) => ConsNext(cfg, s, rq, k)
    case Cancel => rq.(cancelled := true)
  }

  /** The flight reference that a chunk's goroutine drops, if any. */
  function ChunkDrops(cfg: Config, s: State, c: Chunk, cancelled: bool, act: ChunkAct): Option<nat>
    requires ChunkEnabled(cfg, s, c, cancelled, act)
  {
    match act
    case CClaim(open) =>
      if Shared(ClaimResult(s, c.claim.flight, c.id, open)).None? then Some(c.claim.flight) else None
    case CDrop => Shared(c.claim.res)
    case _ => None
  }

  function ConsDrops(s: State, rq: Request, act: ConsAct): Option<nat>
    requires ConsEnabled(s, rq, act)
  {
    match act
    case KClose => Shared(rq.chunks[rq.served].hand.value)
    case KClean =>
      if rq.chunks[rq.cons.next].pending.Some? then Shared(rq.chunks[rq.cons.next].pending.value) else None
    case _ => None
  }

  function Dropped(cfg: Config, s: State, rq: Request, act: Act): Option<nat>
    requires Enabled(cfg, s, rq, act)
  {
    match act
    case OfChunk(i, a) => ChunkDrops(cfg, s, rq.chunks[i], rq.cancelled, a)
    case Cons(k) => ConsDrops(s, rq, k)
    case _ => None
  }

  /** unref: the last reference starts the release of what the flight still owns. */
  function Unref(fl: Flight): Flight {
    var out := fl.(refs := fl.refs - 1);
    if out.refs == 0 then
      out.(free := if fl.lead.Over? && fl.lead.out.Buffered? then FreeBytes else Freed)
    else out
  }

  function DropFlight(flights: seq<Flight>, f: Option<nat>): seq<Flight> {
    if f.Some? && f.value < |flights| then flights[f.value := Unref(flights[f.value])] else flights
  }

  // ---- joining ----

  predicate JoinEnabled(s: State, r: nat, i: nat) {
    r < |s.requests| && i < |s.requests[r].chunks| && s.requests[r].chunks[i].prod.Joining?
    && (var id := s.requests[r].chunks[i].id; id in s.sf ==> s.sf[id] < |s.flights|)
  }

  function NewFlight(cfg: Config, id: ChunkId): Flight {
    Flight(id, |BytesOf(cfg, id)|, Queued, false, 1, 0, Held, [])
  }

  /** singleflight.join, and the start of lead by the first caller. */
  function JoinStep(cfg: Config, s: State, r: nat, i: nat): State
    requires JoinEnabled(s, r, i)
  {
    var rq := s.requests[r];
    var id := rq.chunks[i].id;
    var f := if id in s.sf then s.sf[id] else |s.flights|;
    var joined := WithChunk(rq, i, rq.chunks[i].(prod := AwaitAdmit(f), claim := AwaitDone(f)));
    s.(requests := s.requests[r := joined],
       flights := if id in s.sf then s.flights[f := s.flights[f].(waiters := s.flights[f].waiters + 1)]
                  else s.flights + [NewFlight(cfg, id)],
       sf := s.sf[id := f])
  }

  // ---- steps of a flight ----

  datatype LeadAct =
    | LAcquire | LTimeout | LAdmit | LAlloc | LDownload | LDownloadFail
    | LCreateTemp | LWriteTemp(n: nat) | LRename | LPutFail
    | LReleaseBytes | LReleaseUnit | LFinish | LPublish | LCloseDone
    | LFreeBytes | LFreeUnit

  predicate LeadEnabled(cfg: Config, s: State, f: nat, act: LeadAct) {
    f < |s.flights| &&
    var fl := s.flights[f];
    match act
    case LAcquire => fl.lead.Queued? && s.units < cfg.budget
    case LTimeout => fl.lead.Queued?
    case LAdmit => fl.lead.Acquired?
    case LAlloc => fl.lead.Admitted?
    // The GET carries If-Match: it is answered only while the version is current.
    case LDownload =>
      fl.lead.Loading? && fl.id.ver.key in s.current && s.current[fl.id.ver.key] == fl.id.ver.etag
    case LDownloadFail => fl.lead.Loading?
    case LCreateTemp => fl.lead.Loaded? && cfg.cacheOn
    case LWriteTemp(n) =>
      fl.lead.Temp? && n > 0 && fl.lead.done + n <= |fl.buf| && fl.lead.ino < |s.fs.inodes|
    case LRename =>
      fl.lead.Temp? && fl.lead.done == |fl.buf| && fl.lead.ino < |s.fs.inodes|
      && TempPath(fl.lead.ino) in s.fs.dir
    case LPutFail => fl.lead.Loaded? || fl.lead.Temp?
    case LReleaseBytes => fl.lead.ReleaseBytes?
    case LReleaseUnit => fl.lead.ReleaseUnit? && s.units > 0
    case LFinish => fl.lead.Finishing?
    case LPublish => fl.lead.Publishing?
    case LCloseDone => fl.lead.Closing'?
    case LFreeBytes => fl.free.FreeBytes?
    case LFreeUnit => fl.free.FreeUnit? && s.units > 0
  }

  /** What a ranged read of the chunk's span yields now: bytes of the version that the upstream
      has now, whatever version was meant. */
  function Upstream(cfg: Config, s: State, id: ChunkId): seq<Byte> {
    if id.ver.key in s.current
    then BytesOf(cfg, ChunkId(Version(id.ver.key, s.current[id.ver.key]), id.off)) else []
  }

  function WithFlight(s: State, f: nat, fl: Flight): State
    requires f < |s.flights|
  {
    s.(flights := s.flights[f := fl])
  }

  function LeadStep(cfg: Config, s: State, f: nat, act: LeadAct): State
    requires LeadEnabled(cfg, s, f, act)
  {
    var fl := s.flights[f];
    match act
    case LAcquire => WithFlight(s, f, fl.(lead := Acquired)).(units := s.units + 1)
    case LTimeout => WithFlight(s, f, fl.(lead := Finishing(FetchError)))
    case LAdmit => WithFlight(s, f, fl.(lead := Admitted, admitted := true))
    case LAlloc => WithFlight(s, f, fl.(lead := Loading)).(inUse := s.inUse + fl.size)
    case LDownload => WithFlight(s, f, fl.(lead := Loaded, buf := Upstream(cfg, s, fl.id)))
    case LDownloadFail => WithFlight(s, f, fl.(lead := ReleaseBytes(FetchError)))
    case LCreateTemp =>
      var ino := |s.fs.inodes|;
      WithFlight(s, f, fl.(lead := Temp(ino, 0))).(
        fs := Fs(s.fs.dir[TempPath(ino) := ino], s.fs.inodes + [Inode([], Some(f))]))
    case LWriteTemp(n) =>
      var done := fl.lead.done + n;
      WithFlight(s, f, fl.(lead := fl.lead.(done := done))).(
        fs := s.fs.(inodes := s.fs.inodes[fl.lead.ino := Inode(fl.buf[..done], Some(f))]))
    case LRename =>
      var ino := fl.lead.ino;
      WithFlight(s, f, fl.(lead := ReleaseBytes(Cached(ino)))).(
        fs := Fs((s.fs.dir - {TempPath(ino)})[ChunkPath(fl.id) := ino],
                 s.fs.inodes[ino := s.fs.inodes[ino].(writer := None)]))
    case LPutFail =>
      WithFlight(s, f, fl.(lead := Finishing(Buffered))).(
        fs := if fl.lead.Temp? then s.fs.(dir := s.fs.dir - {TempPath(fl.lead.ino)}) else s.fs)
    case LReleaseBytes =>
      WithFlight(s, f, fl.(lead := ReleaseUnit(fl.lead.next))).(inUse := s.inUse - fl.size)
    case LReleaseUnit =>
      WithFlight(s, f, fl.(lead := Finishing(fl.lead.next))).(units := s.units - 1)
    case LFinish =>
      WithFlight(s, f, fl.(lead := Publishing(fl.lead.out), refs := fl.waiters)).(sf := s.sf - {fl.id})
    case LPublish => WithFlight(s, f, fl.(lead := Closing'(fl.lead.out), admitted := true))
    case LCloseDone => WithFlight(s, f, fl.(lead := Over(fl.lead.out)))
    case LFreeBytes => WithFlight(s, f, fl.(free := FreeUnit)).(inUse := s.inUse - fl.size)
    case LFreeUnit => WithFlight(s, f, fl.(free := Freed)).(units := s.units - 1)
  }

  // ---- the whole system ----

  datatype Step =
    | ReqStep(r: nat, act: Act)
    | Join(r: nat, i: nat)
    | LeadDo(f: nat, lact: LeadAct)
    // environment
    | Arrive(ver: Version, first: nat, last: nat)
    | Unlink(path: Path)
    | Upload(uploaded: Version)
    | Crash

  function FreshChunk(cfg: Config, ver: Version, first: nat, i: nat): Chunk
    requires cfg.chunkSize >= 1
  {
    Chunk(ChunkId(ver, ChunkOff(cfg.chunkSize, first, i)), false, NotStarted, NoClaim, None, None, 0, 0)
  }

  /** A request as serveAligned starts it, for the span that Get resolved against some HEAD. */
  function NewRequest(cfg: Config, ver: Version, first: nat, last: nat): Request
    requires cfg.chunkSize >= 1 && first <= last
  {
    Request(ver, first, last, false, TakeSlot, 0, 0,
            seq(ChunkCount(cfg.chunkSize, first, last), i requires i >= 0 => FreshChunk(cfg, ver, first, i)),
            Waiting, 0, 0, FreshGuard, Unwritten, [])
  }

  predicate StepEnabled(cfg: Config, s: State, step: Step) {
    match step
    case ReqStep(r, act) => r < |s.requests| && Enabled(cfg, s, s.requests[r], act)
    case Join(r, i) => JoinEnabled(s, r, i)
    case LeadDo(f, act) => LeadEnabled(cfg, s, f, act)
    case Arrive(ver, first, last) =>
      cfg.chunkSize >= 1 && ver in cfg.objects && first <= last < |cfg.objects[ver]|
    case Unlink(path) => path in s.fs.dir
    case Upload(ver) => ver in cfg.objects
    case Crash => true
  }

  function Next(cfg: Config, s: State, step: Step): State
    requires StepEnabled(cfg, s, step)
  {
    match step
    case ReqStep(r, act) =>
      s.(requests := s.requests[r := NextRequest(cfg, s, s.requests[r], act)],
         flights := DropFlight(s.flights, Dropped(cfg, s, s.requests[r], act)))
    case Join(r, i) => JoinStep(cfg, s, r, i)
    case LeadDo(f, act) => LeadStep(cfg, s, f, act)
    case Arrive(ver, first, last) => s.(requests := s.requests + [NewRequest(cfg, ver, first, last)])
    case Unlink(path) => s.(fs := s.fs.(dir := s.fs.dir - {path}))
    case Upload(ver) => s.(current := s.current[ver.key := ver.etag])
    case Crash => CrashStep(s)
  }

  /** The process dies: only the cache directory survives, and nobody writes its files. */
  function CrashStep(s: State): State {
    var inodes := seq(|s.fs.inodes|, i requires 0 <= i < |s.fs.inodes| => s.fs.inodes[i].(writer := None));
    State([], [], map[], 0, 0, s.fs.(inodes := inodes), s.current)
  }
}
