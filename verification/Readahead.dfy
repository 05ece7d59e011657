/** Prefetching past a served range: which chunks Kick schedules, the bounded and deduplicated
    set of running prefetches, and the decimal rendering in their keys. */
module Readahead {
  import opened Base
  import opened Decimal
  import opened Tiling
  import opened Protocol
  import Names
  import Range

  // ---- which chunks ----

  datatype Fetch = Fetch(start: nat, end: int)

  /** Kick schedules, in order and without a gap, at most chunks aligned chunks from fromIdx
      on: all of them inside the object, none of them empty, and fewer only at the object's
      end. */
  method Kick(chunks: int, chunkSize: nat, fromIdx: nat, total: int) returns (fetches: seq<Fetch>)
    requires chunkSize >= 1
    ensures |fetches| <= Max(0, chunks)
    ensures total <= 0 ==> fetches == []
    ensures forall k :: 0 <= k < |fetches| ==>
              && fetches[k].start == (fromIdx + k) * chunkSize
              && fetches[k].start <= fetches[k].end < total && fetches[k].end - fetches[k].start < chunkSize
              && (fetches[k].end == fetches[k].start + chunkSize - 1 || fetches[k].end == total - 1)
    ensures total > 0 && |fetches| < Max(0, chunks) ==> total <= (fromIdx + |fetches|) * chunkSize
  {
    fetches := [];
    if chunks == 0 || total <= 0 {
      return;
    }
    var lastIdx := (total - 1) / chunkSize;
    var i := 0;
    while i < chunks
      invariant 0 <= i && |fetches| == i && i <= Max(0, chunks)
      invariant forall k :: 0 <= k < i ==>
                  && fetches[k].start == (fromIdx + k) * chunkSize
                  && fetches[k].start <= fetches[k].end < total && fetches[k].end - fetches[k].start < chunkSize
                  && (fetches[k].end == fetches[k].start + chunkSize - 1 || fetches[k].end == total - 1)
    {
      var c := fromIdx + i;
      PastTheEnd(c, total, chunkSize);
      if c > lastIdx {
        return;
      }
      var start := c * chunkSize;
      fetches := fetches + [Fetch(start, ChunkEnd(chunkSize, total, start))];
      i := i + 1;
    }
  }

  lemma PastTheEnd(c: nat, total: nat, size: nat)
    requires size >= 1 && total >= 1
    ensures c > (total - 1) / size <==> total <= c * size
  {
    var q := (total - 1) / size;
    assert total - 1 == q * size + (total - 1) % size;
    if c > q {
      MulMonotone(q + 1, c, size);
    } else {
      MulMonotone(c, q, size);
    }
  }

  /** Kicked from the chunk after the last served one, the first prefetch continues where the
      served chunks end. */
  lemma KickContinues(size: nat, first: nat, last: nat, i: nat)
    requires size >= 1 && first <= last && i + 1 == ChunkCount(size, first, last)
    ensures ChunkOff(size, first, i) <= last < ChunkOff(size, first, i) + size
    ensures (last / size + 1) * size == ChunkOff(size, first, i) + size
  {
    ChunkLayout(size, first, last);
    assert first / size + i == last / size;
    MulNext(last / size, size);
  }

  // ---- running prefetches ----

  /** Reserved: in inflight; Running: holds a slot; Dropping, Draining: about to leave
      inflight, for want of a slot or after the fetch. */
  datatype Stage = Reserved | Running | Dropping | Draining | Gone

  datatype Prefetch = Prefetch(id: ChunkId, stage: Stage)

  datatype Fleet = Fleet(slots: nat, inflight: set<ChunkId>, sem: int, fetches: seq<Prefetch>)

  datatype FleetOp = Reserve(id: ChunkId) | TrySlot(p: nat) | Forget(p: nat) | FreeSlot(p: nat)

  predicate FleetEnabled(w: Fleet, op: FleetOp) {
    match op
    case Reserve(id) => id !in w.inflight
    case TrySlot(p) => p < |w.fetches| && w.fetches[p].stage.Reserved?
    case Forget(p) => p < |w.fetches| && (w.fetches[p].stage.Dropping? || w.fetches[p].stage.Draining?)
    case FreeSlot(p) => p < |w.fetches| && w.fetches[p].stage.Running?
  }

  function WithStage(w: Fleet, p: nat, stage: Stage): Fleet
    requires p < |w.fetches|
  {
    w.(fetches := w.fetches[p := w.fetches[p].(stage := stage)])
  }

  function FleetNext(w: Fleet, op: FleetOp): Fleet
    requires FleetEnabled(w, op)
  {
    match op
    case Reserve(id) => w.(inflight := w.inflight + {id}, fetches := w.fetches + [Prefetch(id, Reserved)])
    case TrySlot(p) =>
      if w.sem < w.slots then WithStage(w, p, Running).(sem := w.sem + 1) else WithStage(w, p, Dropping)
    case Forget(p) => WithStage(w, p, Gone).(inflight := w.inflight - {w.fetches[p].id})
    case FreeSlot(p) => WithStage(w, p, Draining).(sem := w.sem - 1)
  }

  function RunningWeight(p: Prefetch): int { if p.stage.Running? then 1 else 0 }

  /** The semaphore counts the running prefetches; inflight is the set of those not gone, one
      for each chunk and version. */
  ghost predicate FleetOk(w: Fleet) {
    && w.sem == Sum(w.fetches, RunningWeight) <= w.slots
    && (forall p :: 0 <= p < |w.fetches| && !w.fetches[p].stage.Gone? ==> w.fetches[p].id in w.inflight)
    && (forall id :: id in w.inflight ==> exists p :: 0 <= p < |w.fetches| && IsFor(w.fetches[p], id))
    && (forall p, q :: 0 <= p < q < |w.fetches| && !w.fetches[p].stage.Gone? && !w.fetches[q].stage.Gone? ==>
          w.fetches[p].id != w.fetches[q].id)
  }

  predicate IsFor(f: Prefetch, id: ChunkId) { f.id == id && !f.stage.Gone? }

  /** Moving one prefetch on, when it is neither new nor gone afterwards. */
  lemma StageOk(w: Fleet, p: nat, stage: Stage, sem: int)
    requires FleetOk(w) && p < |w.fetches| && !w.fetches[p].stage.Gone? && !stage.Gone?
    requires sem == w.sem - RunningWeight(w.fetches[p]) + (if stage.Running? then 1 else 0) && sem <= w.slots
    ensures FleetOk(WithStage(w, p, stage).(sem := sem))
  {
    var next := WithStage(w, p, stage).(sem := sem);
    SumUpdate(w.fetches, RunningWeight, p, w.fetches[p].(stage := stage));
    forall id | id in next.inflight
      ensures exists q :: 0 <= q < |next.fetches| && IsFor(next.fetches[q], id)
    {
      var q :| 0 <= q < |w.fetches| && IsFor(w.fetches[q], id);
      assert IsFor(next.fetches[q], id);
    }
  }

  lemma ReserveOk(w: Fleet, id: ChunkId)
    requires FleetOk(w) && id !in w.inflight
    ensures FleetOk(FleetNext(w, Reserve(id)))
  {
    var next := FleetNext(w, Reserve(id));
    SumAppend(w.fetches, RunningWeight, Prefetch(id, Reserved));
    forall x | x in next.inflight
      ensures exists q :: 0 <= q < |next.fetches| && IsFor(next.fetches[q], x)
    {
      if x == id {
        assert IsFor(next.fetches[|w.fetches|], x);
      } else {
        var q :| 0 <= q < |w.fetches| && IsFor(w.fetches[q], x);
        assert IsFor(next.fetches[q], x);
      }
    }
  }

  lemma ForgetOk(w: Fleet, p: nat)
    requires FleetOk(w) && FleetEnabled(w, Forget(p))
    ensures FleetOk(FleetNext(w, Forget(p)))
  {
    var next := FleetNext(w, Forget(p));
    SumUpdate(w.fetches, RunningWeight, p, w.fetches[p].(stage := Gone));
    forall id | id in next.inflight
      ensures exists q :: 0 <= q < |next.fetches| && IsFor(next.fetches[q], id)
    {
      var q :| 0 <= q < |w.fetches| && IsFor(w.fetches[q], id);
      assert IsFor(next.fetches[q], id);
    }
  }

  lemma FleetStepOk(w: Fleet, op: FleetOp)
    requires FleetOk(w) && FleetEnabled(w, op)
    ensures FleetOk(FleetNext(w, op)) && FleetNext(w, op).slots == w.slots
  {
    match op
    case Reserve(id) => ReserveOk(w, id);
    case TrySlot(p) =>
      if w.sem < w.slots { StageOk(w, p, Running, w.sem + 1); } else { StageOk(w, p, Dropping, w.sem); }
    case Forget(p) => ForgetOk(w, p);
    case FreeSlot(p) => StageOk(w, p, Draining, w.sem - 1);
  }

  lemma NewFleetOk(slots: nat)
    ensures FleetOk(NewFleet(slots))
  {
    assert Sum<Prefetch>([], RunningWeight) == 0;
  }

  type SoundFleet = w: Fleet | FleetOk(w) ghost witness (NewFleetOk(0); NewFleet(0))

  lemma Advance(w: SoundFleet, op: FleetOp) returns (next: SoundFleet)
    requires FleetEnabled(w, op)
    ensures next == FleetNext(w, op)
  {
    FleetStepOk(w, op);
    next := FleetNext(w, op);
  }

  /** schedule of a chunk not reserved: it runs, or is forgotten when no slot is free. */
  lemma Scheduled(w: SoundFleet, id: ChunkId) returns (next: SoundFleet)
    requires id !in w.inflight
    ensures next == if w.sem < w.slots
                    then w.(inflight := w.inflight + {id}, sem := w.sem + 1,
                            fetches := w.fetches + [Prefetch(id, Running)])
                    else w.(fetches := w.fetches + [Prefetch(id, Gone)])
  {
    var p := |w.fetches|;
    var reserved := Advance(w, Reserve(id));
    var tried := Advance(reserved, TrySlot(p));
    if w.sem < w.slots {
      return tried;
    }
    next := Advance(tried, Forget(p));
    assert w.inflight + {id} - {id} == w.inflight;
  }

  /** The end of the goroutine: the slot goes back, then the reservation. */
  lemma Finished(w: SoundFleet, p: nat) returns (next: SoundFleet)
    requires p < |w.fetches| && w.fetches[p].stage.Running?
    ensures next == WithStage(w, p, Gone).(inflight := w.inflight - {w.fetches[p].id}, sem := w.sem - 1)
  {
    var drained := Advance(w, FreeSlot(p));
    next := Advance(drained, Forget(p));
  }

  function NewFleet(slots: nat): Fleet { Fleet(slots, {}, 0, []) }

  ghost predicate FleetRun(slots: nat, states: seq<Fleet>, ops: seq<FleetOp>) {
    && |states| == |ops| + 1 && states[0] == NewFleet(slots)
    && forall k {:trigger ops[k]} :: 0 <= k < |ops| ==>
         FleetEnabled(states[k], ops[k]) && states[k + 1] == FleetNext(states[k], ops[k])
  }

  lemma {:induction false} RunKeepsFleet(slots: nat, states: seq<Fleet>, ops: seq<FleetOp>, k: nat)
    requires FleetRun(slots, states, ops) && k < |states|
    ensures FleetOk(states[k]) && states[k].slots == slots
  {
    if k > 0 {
      RunKeepsFleet(slots, states, ops, k - 1);
      FleetStepOk(states[k - 1], ops[k - 1]);
    } else {
      NewFleetOk(slots);
    }
  }

  /** Under every interleaving of kicks and prefetches: no more run than there are slots, no two
      run for the same chunk and version, and once all are gone nothing stays reserved and no
      slot taken, whichever way each of them ended. */
  lemma PrefetchesBounded(slots: nat, states: seq<Fleet>, ops: seq<FleetOp>, k: nat)
    requires FleetRun(slots, states, ops) && k < |states|
    ensures var w := states[k];
            && 0 <= Sum(w.fetches, RunningWeight) <= slots
            && (forall p, q :: 0 <= p < q < |w.fetches| && w.fetches[p].stage.Running? && w.fetches[q].stage.Running?
                  ==> w.fetches[p].id != w.fetches[q].id)
            && ((forall p :: 0 <= p < |w.fetches| ==> w.fetches[p].stage.Gone?) ==> w.inflight == {} && w.sem == 0)
  {
    RunKeepsFleet(slots, states, ops, k);
    var w := states[k];
    SumNonNegative(w.fetches, RunningWeight);
    assert forall id :: id in w.inflight ==> exists p :: 0 <= p < |w.fetches| && IsFor(w.fetches[p], id);
    if forall p :: 0 <= p < |w.fetches| ==> w.fetches[p].stage.Gone? {
      SumZero(w.fetches, RunningWeight);
      assert w.inflight == {};
    }
  }

  function StageLeft(p: Prefetch): int {
    match p.stage
    case Reserved => 3
    case Running => 2
    case Dropping => 1
    case Draining => 1
    case Gone => 0
  }

  /** Every prefetch comes to its end: until it is gone a step of it is enabled, and each such
      step brings the prefetches nearer to their ends. */
  lemma PrefetchesEnd(w: Fleet, p: nat) returns (op: FleetOp)
    requires p < |w.fetches| && !w.fetches[p].stage.Gone?
    ensures !op.Reserve? && op.p == p && FleetEnabled(w, op)
    ensures forall o: FleetOp :: !o.Reserve? && FleetEnabled(w, o) ==>
              0 <= Sum(FleetNext(w, o).fetches, StageLeft) < Sum(w.fetches, StageLeft)
  {
    op := match w.fetches[p].stage
          case Reserved => TrySlot(p)
          case Running => FreeSlot(p)
          case _ => Forget(p);
    forall o: FleetOp | !o.Reserve? && FleetEnabled(w, o)
      ensures 0 <= Sum(FleetNext(w, o).fetches, StageLeft) < Sum(w.fetches, StageLeft)
    {
      SumUpdate(w.fetches, StageLeft, o.p, FleetNext(w, o).fetches[o.p]);
      SumNonNegative(FleetNext(w, o).fetches, StageLeft);
    }
  }

  /** A prefetch runs exactly if there was a slot when it asked. */
  lemma RunsIfSlotFree(w: Fleet, p: nat)
    requires FleetOk(w) && FleetEnabled(w, TrySlot(p))
    ensures FleetNext(w, TrySlot(p)).fetches[p].stage.Running? <==> Sum(w.fetches, RunningWeight) < w.slots
  {
  }

  /** Readahead's own state. */
  class Prefetcher {
    const slots: nat
    var inflight: set<ChunkId>
    var sem: int
    ghost var fleet: SoundFleet

    constructor (concurrency: int)
      ensures Valid() && fleet == NewFleet(if concurrency < 1 then 1 else concurrency)
    {
      slots := if concurrency < 1 then 1 else concurrency;
      inflight, sem := {}, 0;
      NewFleetOk(if concurrency < 1 then 1 else concurrency);
      fleet := NewFleet(if concurrency < 1 then 1 else concurrency);
    }

    ghost predicate Valid()
      reads this
    {
      fleet.slots == slots && fleet.inflight == inflight && fleet.sem == sem
    }

    /** schedule, up to the start of the goroutine. A chunk already cached or reserved, or for
        which there is no slot, leaves nothing behind. */
    method Schedule(id: ChunkId, cached: bool) returns (started: bool)
      requires Valid()
      modifies this
      ensures Valid()
      ensures started <==> !cached && id !in old(inflight) && old(sem) < slots
      ensures started ==>
        && inflight == old(inflight) + {id} && sem == old(sem) + 1
        && fleet.fetches == old(fleet.fetches) + [Prefetch(id, Running)]
      ensures !started ==> inflight == old(inflight) && sem == old(sem)
    {
      if cached || id in inflight {
        return false;
      }
      ghost var before := inflight;
      fleet := Scheduled(fleet, id);
      inflight := inflight + {id};
      if sem < slots {
        sem := sem + 1;
        return true;
      }
      inflight := inflight - {id};
      assert inflight == before;
      return false;
    }

    /** The goroutine's deferred end. */
    method Finish(id: ChunkId, ghost p: nat)
      requires Valid() && p < |fleet.fetches| && fleet.fetches[p] == Prefetch(id, Running)
      modifies this
      ensures Valid() && inflight == old(inflight) - {id} && sem == old(sem) - 1
      ensures fleet.fetches == old(fleet.fetches)[p := Prefetch(id, Gone)]
    {
      fleet := Finished(fleet, p);
      sem := sem - 1;
      inflight := inflight - {id};
    }
  }

  // ---- itoa ----

  function Pow10(k: nat): nat { if k == 0 then 1 else 10 * Pow10(k - 1) }

  /** Negation of an int64: the minimum has no counterpart. */
  function Negate(n: int): int { if n == Range.INT64_MIN then n else -n }

  function Signed(n: int): string { if n < 0 then "-" + Dec(-n) else Dec(n) }

  lemma Pow10Of19()
    ensures Pow10(19) == 10000000000000000000
  {
    assert Pow10(9) == 1000000000;
    assert Pow10(14) == 100000 * Pow10(9);
  }

  method Put(b: array<char>, i: nat, c: char)
    requires i < b.Length
    modifies b
    ensures b[i..] == [c] + old(b[i + 1..])
  {
    b[i] := c;
  }

  /** itoa's loop: digits from the end of the array, never past its beginning. */
  method FillDigits(n: int, b: array<char>) returns (i: nat)
    requires b.Length == 20 && n < Pow10(19)
    modifies b
    ensures 1 <= i <= 20
    ensures n > 0 ==> b[i..] == Dec(n)
    ensures n <= 0 ==> i == 20
  {
    i := 20;
    var m := n;
    while m > 0
      invariant 1 <= i <= 20 && m < Pow10(i - 1)
      invariant n > 0 ==> 0 <= m && Dec(n) == (if m == 0 then "" else Dec(m)) + b[i..]
      invariant n <= 0 ==> m == n && i == 20
      decreases m
    {
      DigitMoves(n, m, b[i..], i - 1);
      Put(b, i - 1, DigitChar(m % 10));
      i := i - 1;
      m := m / 10;
    }
  }

  /** Twenty bytes are enough. Every int64 but the minimum comes out in decimal; the minimum,
      whose negation overflows, as a bare sign. */
  method Itoa(n: int) returns (s: string)
    requires Range.INT64_MIN <= n <= INT64_MAX
    ensures n != Range.INT64_MIN ==> s == Signed(n)
    ensures n == Range.INT64_MIN ==> s == "-"
  {
    if n == 0 {
      return "0";
    }
    var neg := n < 0;
    var m := if neg then Negate(n) else n;
    var b := new char[20];
    Pow10Of19();
    var i := FillDigits(m, b);
    if neg {
      i := i - 1;
      Put(b, i, '-');
    }
    s := b[i..];
  }

  /** One round of the loop: the last digit of what is left moves to the front of what is
      written. */
  lemma DigitMoves(all: nat, m: nat, written: string, k: nat)
    requires 0 < m < Pow10(k) && Dec(all) == Dec(m) + written
    ensures k >= 1 && m / 10 < Pow10(k - 1)
    ensures Dec(all) == (if m / 10 == 0 then "" else Dec(m / 10)) + ([DigitChar(m % 10)] + written)
  {
  }

  /** What Itoa renders, ParseInt reads back. */
  lemma ItoaParsesBack(n: int)
    requires Range.INT64_MIN <= n <= INT64_MAX
    ensures n != Range.INT64_MIN ==> Range.ParseInt(Signed(n)) == Some(n)
    ensures Range.ParseInt("-") == None
  {
    if n < 0 {
      assert Signed(n)[1..] == Dec(-n);
    } else {
      Range.NumeralParses(Dec(n));
    }
  }

  /** Readahead's own dedup key of a chunk is the flight's. */
  method DedupKey(id: ChunkId) returns (s: string)
    requires id.off <= INT64_MAX
    ensures s == Names.FlightKey(id)
  {
    var off := Itoa(id.off);
    s := id.ver.key + "/" + off + "/" + id.ver.etag;
  }
}
