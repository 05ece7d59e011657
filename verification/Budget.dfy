/** The buffer budget: a counting semaphore on a channel, served in arrival order, and the
    byte counter with its high-water mark. */
module Budget {
  import opened Base

  // ---- the semaphore ----

  type Caller = nat

  /** taken: units in the channel's buffer; queue: the channel's waiting senders; grants,
      arrivals and timedOut: what has happened so far. */
  datatype Units = Units(cap: nat, taken: nat, queue: seq<Caller>,
                         grants: seq<Caller>, arrivals: seq<Caller>, timedOut: set<Caller>)

  /** TrySend: acquire's first, non-blocking select; Send: the second select begins; TimeOut:
      its other case is taken; Receive: release. */
  datatype UnitOp = TrySend(id: Caller) | Send(id: Caller) | TimeOut(id: Caller) | Receive

  function NewUnits(cap: nat): Units { Units(cap, 0, [], [], [], {}) }

  predicate UnitEnabled(u: Units, op: UnitOp) {
    match op
    case TrySend(id) => id !in u.arrivals
    case Send(id) => id !in u.arrivals
    case TimeOut(id) => id in u.queue
    case Receive => u.taken > 0
  }

  function Grant(u: Units, id: Caller): Units {
    u.(taken := u.taken + 1, grants := u.grants + [id], arrivals := u.arrivals + [id])
  }

  function Without(ids: seq<Caller>, id: Caller): seq<Caller> {
    if ids == [] then []
    else Without(ids[..|ids| - 1], id) + (if ids[|ids| - 1] == id then [] else [ids[|ids| - 1]])
  }

  /** A full channel refuses TrySend and queues Send; a receive from a channel with waiting
      senders hands the place to the oldest of them. */
  function UnitNext(u: Units, op: UnitOp): Units
    requires UnitEnabled(u, op)
  {
    match op
    case TrySend(id) => if u.taken < u.cap then Grant(u, id) else u
    case Send(id) =>
      if u.taken < u.cap then Grant(u, id)
      else u.(queue := u.queue + [id], arrivals := u.arrivals + [id])
    case TimeOut(id) => u.(queue := Without(u.queue, id), timedOut := u.timedOut + {id})
    case Receive =>
      if u.queue == [] then u.(taken := u.taken - 1)
      else u.(queue := u.queue[1..], grants := u.grants + [u.queue[0]])
  }

  ghost predicate UnitRun(cap: nat, states: seq<Units>, ops: seq<UnitOp>) {
    && |states| == |ops| + 1 && states[0] == NewUnits(cap)
    && forall k {:trigger ops[k]} :: 0 <= k < |ops| ==>
         UnitEnabled(states[k], ops[k]) && states[k + 1] == UnitNext(states[k], ops[k])
  }

  function Patient(ids: seq<Caller>, timedOut: set<Caller>): seq<Caller> {
    if ids == [] then []
    else
      var last := ids[|ids| - 1];
      Patient(ids[..|ids| - 1], timedOut) + (if last in timedOut then [] else [last])
  }

  predicate Distinct(ids: seq<Caller>) {
    forall i, j | 0 <= i < j < |ids| :: ids[i] != ids[j]
  }

  /** Callers wait only while every unit is taken; and the callers granted so far, followed by
      those still waiting, are exactly the callers that did not time out, in the order in
      which they came to the channel. */
  predicate InOrder(u: Units) {
    && u.taken <= u.cap && (u.queue != [] ==> u.taken == u.cap)
    && u.grants + u.queue == Patient(u.arrivals, u.timedOut)
  }

  ghost predicate UnitsOk(u: Units) {
    InOrder(u) && Distinct(u.arrivals) && (forall id :: id in u.timedOut ==> id in u.arrivals)
  }

  lemma {:induction false} PatientMembers(ids: seq<Caller>, timedOut: set<Caller>)
    ensures forall id :: id in Patient(ids, timedOut) <==> id in ids && id !in timedOut
    ensures Distinct(ids) ==> Distinct(Patient(ids, timedOut))
  {
    if ids != [] {
      PatientMembers(ids[..|ids| - 1], timedOut);
      assert ids == ids[..|ids| - 1] + [ids[|ids| - 1]];
    }
  }

  lemma PatientAppend(ids: seq<Caller>, timedOut: set<Caller>, id: Caller)
    requires id !in timedOut
    ensures Patient(ids + [id], timedOut) == Patient(ids, timedOut) + [id]
  {
    assert (ids + [id])[..|ids|] == ids;
  }

  lemma {:induction false} WithoutJoined(a: seq<Caller>, b: seq<Caller>, id: Caller)
    ensures Without(a + b, id) == Without(a, id) + Without(b, id)
  {
    if b == [] {
      assert a + b == a;
    } else {
      WithoutJoined(a, b[..|b| - 1], id);
      assert (a + b)[..|a + b| - 1] == a + b[..|b| - 1];
    }
  }

  lemma {:induction false} WithoutAbsent(ids: seq<Caller>, id: Caller)
    requires id !in ids
    ensures Without(ids, id) == ids
  {
    if ids != [] {
      WithoutAbsent(ids[..|ids| - 1], id);
    }
  }

  /** One more caller timed out: it drops out of the line. */
  lemma {:induction false} PatientWithout(ids: seq<Caller>, timedOut: set<Caller>, id: Caller)
    ensures Patient(ids, timedOut + {id}) == Without(Patient(ids, timedOut), id)
  {
    if ids != [] {
      var last := ids[|ids| - 1];
      PatientWithout(ids[..|ids| - 1], timedOut, id);
      WithoutJoined(Patient(ids[..|ids| - 1], timedOut), if last in timedOut then [] else [last], id);
    }
  }

  lemma TimeOutKeepsOrder(u: Units, id: Caller)
    requires UnitsOk(u) && id in u.queue
    ensures u.grants + Without(u.queue, id) == Patient(u.arrivals, u.timedOut + {id})
    ensures id in u.arrivals
  {
    PatientMembers(u.arrivals, u.timedOut);
    PatientWithout(u.arrivals, u.timedOut, id);
    WithoutJoined(u.grants, u.queue, id);
    NotInBoth(u.grants, u.queue, id);
    WithoutAbsent(u.grants, id);
    assert id in u.grants + u.queue;
  }

  lemma NotInBoth(a: seq<Caller>, b: seq<Caller>, id: Caller)
    requires Distinct(a + b) && id in b
    ensures id !in a
  {
    var j :| 0 <= j < |b| && b[j] == id;
    assert (a + b)[|a| + j] == id;
    assert forall i :: 0 <= i < |a| ==> a[i] == (a + b)[i] != (a + b)[|a| + j];
  }

  lemma TimeOutOk(u: Units, id: Caller)
    requires UnitsOk(u) && id in u.queue
    ensures UnitsOk(UnitNext(u, TimeOut(id)))
  {
    TimeOutKeepsOrder(u, id);
  }

  lemma DistinctAppend(ids: seq<Caller>, id: Caller)
    requires Distinct(ids) && id !in ids
    ensures Distinct(ids + [id])
  {
  }

  lemma ArriveOk(u: Units, id: Caller)
    requires UnitsOk(u) && id !in u.arrivals
    ensures Patient(u.arrivals + [id], u.timedOut) == u.grants + u.queue + [id]
    ensures Distinct(u.arrivals + [id]) && forall x :: x in u.timedOut ==> x in u.arrivals + [id]
  {
    PatientAppend(u.arrivals, u.timedOut, id);
    DistinctAppend(u.arrivals, id);
  }

  lemma GrantOk(u: Units, id: Caller)
    requires UnitsOk(u) && id !in u.arrivals && u.taken < u.cap
    ensures UnitsOk(Grant(u, id))
  {
    ArriveOk(u, id);
    assert u.grants + u.queue == u.grants;
  }

  lemma QueueOk(u: Units, id: Caller)
    requires UnitsOk(u) && id !in u.arrivals && u.taken == u.cap
    ensures UnitsOk(u.(queue := u.queue + [id], arrivals := u.arrivals + [id]))
  {
    ArriveOk(u, id);
    assert u.grants + (u.queue + [id]) == u.grants + u.queue + [id];
  }

  lemma ReceiveOk(u: Units)
    requires UnitsOk(u) && u.taken > 0
    ensures UnitsOk(UnitNext(u, Receive))
  {
    if u.queue != [] {
      assert u.grants + [u.queue[0]] + u.queue[1..] == u.grants + u.queue;
    }
  }

  lemma UnitStepOk(u: Units, op: UnitOp)
    requires UnitsOk(u) && UnitEnabled(u, op)
    ensures UnitsOk(UnitNext(u, op))
  {
    match op
    case TrySend(id) => if u.taken < u.cap { GrantOk(u, id); }
    case Send(id) => if u.taken < u.cap { GrantOk(u, id); } else { QueueOk(u, id); }
    case TimeOut(id) => TimeOutOk(u, id);
    case Receive => ReceiveOk(u);
  }

  /** For every interleaving of acquires, timeouts and releases: grants are in arrival order
      among the callers that did not time out. */
  lemma {:induction false} FirstComeFirstServed(cap: nat, states: seq<Units>, ops: seq<UnitOp>, k: nat)
    requires UnitRun(cap, states, ops) && k < |states|
    ensures UnitsOk(states[k]) && states[k].cap == cap
  {
    if k > 0 {
      FirstComeFirstServed(cap, states, ops, k - 1);
      UnitStepOk(states[k - 1], ops[k - 1]);
    }
  }

  function Receives(ops: seq<UnitOp>): nat {
    if ops == [] then 0 else Receives(ops[..|ops| - 1]) + (if ops[|ops| - 1].Receive? then 1 else 0)
  }

  /** No unit is lost or made: those taken are those granted less those given back. */
  lemma {:induction false} UnitsConserved(cap: nat, states: seq<Units>, ops: seq<UnitOp>, k: nat)
    requires UnitRun(cap, states, ops) && k < |states|
    ensures states[k].taken == |states[k].grants| - Receives(ops[..k])
  {
    if k > 0 {
      UnitsConserved(cap, states, ops, k - 1);
      assert ops[..k][..k - 1] == ops[..k - 1];
    }
  }

  /** The non-blocking attempt, or a send that need not wait, never passes a waiting caller, and
      succeeds whenever a unit is free; who gives up leaves the line; and a release with
      callers waiting serves the oldest and idles no unit. */
  lemma NoOvertaking(cap: nat, states: seq<Units>, ops: seq<UnitOp>, k: nat)
    requires UnitRun(cap, states, ops) && k < |ops|
    ensures var u, next := states[k], states[k + 1];
            && ((ops[k].TrySend? || ops[k].Send?) && next.taken > u.taken ==> u.queue == [])
            && ((ops[k].TrySend? || ops[k].Send?) && u.taken < cap ==> next.grants == u.grants + [ops[k].id])
            && (ops[k].TimeOut? ==> ops[k].id !in next.queue && next.taken == u.taken)
            && (ops[k].Receive? && u.queue == [] ==> next.taken == u.taken - 1)
            && (ops[k].Receive? && u.queue != [] ==>
                  next.taken == cap && next.grants == u.grants + [u.queue[0]] && next.queue == u.queue[1..])
  {
    FirstComeFirstServed(cap, states, ops, k);
    if ops[k].TimeOut? {
      WithoutIsAbsent(states[k].queue, ops[k].id);
    }
  }

  lemma {:induction false} WithoutIsAbsent(ids: seq<Caller>, id: Caller)
    ensures id !in Without(ids, id)
  {
    if ids != [] {
      WithoutIsAbsent(ids[..|ids| - 1], id);
    }
  }

  // ---- the high-water mark ----

  /** alloc in progress: about to load peak, or about to compare-and-swap what it loaded. */
  datatype Alloc = AtLoad(v: int) | AtSwap(v: int, p: int)

  /** live: sizes of the buffers counted; highest: the largest value inUse ever had. */
  datatype Bytes = Bytes(units: nat, live: seq<nat>, inUse: int, peak: int, allocs: seq<Alloc>, highest: int)

  const NoBytes := Bytes(0, [], 0, 0, [], 0)

  datatype ByteOp = TakeUnit | Add(n: nat) | Load(a: nat) | Swap(a: nat) | Subtract(i: nat) | ReturnUnit

  /** A buffer lives under a unit; releasing counts its bytes down before it returns the
      unit. */
  predicate ByteEnabled(cap: nat, chunkSize: nat, b: Bytes, op: ByteOp) {
    match op
    case TakeUnit => b.units < cap
    case Add(n) => |b.live| < b.units && n <= chunkSize
    case Load(a) => a < |b.allocs| && b.allocs[a].AtLoad?
    case Swap(a) => a < |b.allocs| && b.allocs[a].AtSwap?
    case Subtract(i) => i < |b.live|
    case ReturnUnit => |b.live| < b.units
  }

  function Drop<T>(xs: seq<T>, i: nat): seq<T>
    requires i < |xs|
  {
    xs[..i] + xs[i + 1..]
  }

  function ByteNext(cap: nat, chunkSize: nat, b: Bytes, op: ByteOp): Bytes
    requires ByteEnabled(cap, chunkSize, b, op)
  {
    match op
    case TakeUnit => b.(units := b.units + 1)
    case Add(n) =>
      var v := b.inUse + n;
      b.(live := b.live + [n], inUse := v, allocs := b.allocs + [AtLoad(v)], highest := Max(b.highest, v))
    case Load(a) =>
      if b.allocs[a].v <= b.peak then b.(allocs := Drop(b.allocs, a))
      else b.(allocs := b.allocs[a := AtSwap(b.allocs[a].v, b.peak)])
    case Swap(a) =>
      if b.peak == b.allocs[a].p then b.(peak := b.allocs[a].v, allocs := Drop(b.allocs, a))
      else b.(allocs := b.allocs[a := AtLoad(b.allocs[a].v)])
    case Subtract(i) => b.(live := Drop(b.live, i), inUse := b.inUse - b.live[i])
    case ReturnUnit => b.(units := b.units - 1)
  }

  function Size(n: nat): int { n }

  /** A value of inUse that peak has not reached is still in the hands of an alloc. */
  ghost predicate BytesOk(cap: nat, chunkSize: nat, b: Bytes) {
    && |b.live| <= b.units <= cap
    && (forall i :: 0 <= i < |b.live| ==> b.live[i] <= chunkSize)
    && b.inUse == Sum(b.live, Size)
    && 0 <= b.inUse <= b.highest <= cap * chunkSize && 0 <= b.peak <= b.highest
    && (forall a :: 0 <= a < |b.allocs| ==>
          && b.allocs[a].v <= b.highest
          && (b.allocs[a].AtSwap? ==> b.allocs[a].p < b.allocs[a].v && b.allocs[a].p <= b.peak))
    && (b.peak == b.highest || exists a :: 0 <= a < |b.allocs| && b.allocs[a].v == b.highest)
  }

  lemma {:induction false} LiveBound(live: seq<nat>, chunkSize: nat)
    requires forall i :: 0 <= i < |live| ==> live[i] <= chunkSize
    ensures 0 <= Sum(live, Size) <= |live| * chunkSize
  {
    if live != [] {
      LiveBound(live[..|live| - 1], chunkSize);
    }
  }

  lemma AddOk(cap: nat, chunkSize: nat, b: Bytes, n: nat)
    requires BytesOk(cap, chunkSize, b) && ByteEnabled(cap, chunkSize, b, Add(n))
    ensures BytesOk(cap, chunkSize, ByteNext(cap, chunkSize, b, Add(n)))
  {
    var next := ByteNext(cap, chunkSize, b, Add(n));
    SumAppend(b.live, Size, n);
    LiveBound(next.live, chunkSize);
    MulMonotone(|next.live|, cap, chunkSize);
    if next.highest == b.highest {
      if b.peak != b.highest {
        var a :| 0 <= a < |b.allocs| && b.allocs[a].v == b.highest;
        assert next.allocs[a].v == next.highest;
      }
    } else {
      assert next.allocs[|b.allocs|].v == next.highest;
    }
  }

  /** The alloc that carries the highest value does not leave before peak has it. */
  lemma PeakCatchesUp(cap: nat, chunkSize: nat, b: Bytes, op: ByteOp)
    requires BytesOk(cap, chunkSize, b) && ByteEnabled(cap, chunkSize, b, op) && (op.Load? || op.Swap?)
    ensures BytesOk(cap, chunkSize, ByteNext(cap, chunkSize, b, op))
  {
    var next := ByteNext(cap, chunkSize, b, op);
    if next.peak != next.highest {
      var a :| 0 <= a < |b.allocs| && b.allocs[a].v == b.highest;
      assert next.allocs[if |next.allocs| < |b.allocs| && a > op.a then a - 1 else a].v == next.highest;
    }
  }

  lemma {:induction false} DropSum(live: seq<nat>, i: nat)
    requires i < |live|
    ensures Sum(live, Size) == Sum(Drop(live, i), Size) + live[i]
  {
    var n := |live| - 1;
    if i == n {
      assert Drop(live, i) == live[..n];
    } else {
      DropSum(live[..n], i);
      assert Drop(live, i)[..n - 1] == Drop(live[..n], i);
    }
  }

  lemma SubtractOk(cap: nat, chunkSize: nat, b: Bytes, i: nat)
    requires BytesOk(cap, chunkSize, b) && ByteEnabled(cap, chunkSize, b, Subtract(i))
    ensures BytesOk(cap, chunkSize, ByteNext(cap, chunkSize, b, Subtract(i)))
  {
    DropSum(b.live, i);
    LiveBound(Drop(b.live, i), chunkSize);
  }

  lemma ByteStepOk(cap: nat, chunkSize: nat, b: Bytes, op: ByteOp)
    requires BytesOk(cap, chunkSize, b) && ByteEnabled(cap, chunkSize, b, op)
    ensures BytesOk(cap, chunkSize, ByteNext(cap, chunkSize, b, op))
    ensures ByteNext(cap, chunkSize, b, op).peak >= b.peak
  {
    match op
    case Add(n) => AddOk(cap, chunkSize, b, n);
    case Load(_) => PeakCatchesUp(cap, chunkSize, b, op);
    case Swap(_) => PeakCatchesUp(cap, chunkSize, b, op);
    case Subtract(i) => SubtractOk(cap, chunkSize, b, i);
    case _ =>
  }

  /** Rounds an alloc still needs if nobody interferes: a swap that will fail needs three. */
  function Rounds(peak: int): Alloc -> int {
    (a: Alloc) => if a.AtLoad? then 2 else if a.p == peak then 1 else 3
  }

  /** The loops make progress: each load and swap ends an alloc, or brings one nearer its end and
      leaves the others where they are. So without new allocs all of them end. */
  lemma AllocsMakeProgress(cap: nat, chunkSize: nat, b: Bytes, op: ByteOp)
    requires BytesOk(cap, chunkSize, b) && ByteEnabled(cap, chunkSize, b, op) && (op.Load? || op.Swap?)
    ensures var next := ByteNext(cap, chunkSize, b, op);
            || |next.allocs| < |b.allocs|
            || (|next.allocs| == |b.allocs|
                && 0 <= Sum(next.allocs, Rounds(next.peak)) < Sum(b.allocs, Rounds(b.peak)))
  {
    var next := ByteNext(cap, chunkSize, b, op);
    if |next.allocs| == |b.allocs| {
      SumUpdate(b.allocs, Rounds(b.peak), op.a, next.allocs[op.a]);
      SumNonNegative(next.allocs, Rounds(next.peak));
    }
  }

  /** Counts of an operation in the first k. */
  function Count(ops: seq<ByteOp>, counted: ByteOp -> bool, k: nat): nat
    requires k <= |ops|
  {
    if k == 0 then 0 else Count(ops, counted, k - 1) + (if counted(ops[k - 1]) then 1 else 0)
  }

  /** Units held and buffers alive are those taken less those given back. */
  lemma {:induction false} BytesConserved(cap: nat, chunkSize: nat, states: seq<Bytes>, ops: seq<ByteOp>, k: nat)
    requires ByteRun(cap, chunkSize, states, ops) && k < |states|
    ensures states[k].units
         == Count(ops, (op: ByteOp) => op.TakeUnit?, k) - Count(ops, (op: ByteOp) => op.ReturnUnit?, k)
    ensures |states[k].live|
         == Count(ops, (op: ByteOp) => op.Add?, k) - Count(ops, (op: ByteOp) => op.Subtract?, k)
  {
    if k > 0 {
      BytesConserved(cap, chunkSize, states, ops, k - 1);
    }
  }

  ghost predicate ByteRun(cap: nat, chunkSize: nat, states: seq<Bytes>, ops: seq<ByteOp>) {
    && |states| == |ops| + 1 && states[0] == NoBytes
    && forall k {:trigger ops[k]} :: 0 <= k < |ops| ==>
         && ByteEnabled(cap, chunkSize, states[k], ops[k])
         && states[k + 1] == ByteNext(cap, chunkSize, states[k], ops[k])
  }

  /** Largest inUse among the first n states of a run. */
  function Highest(states: seq<Bytes>, n: nat): int
    requires 1 <= n <= |states|
  {
    if n == 1 then states[0].inUse else Max(Highest(states, n - 1), states[n - 1].inUse)
  }

  lemma {:induction false} RunOk(cap: nat, chunkSize: nat, states: seq<Bytes>, ops: seq<ByteOp>, k: nat)
    requires ByteRun(cap, chunkSize, states, ops) && k < |states|
    ensures BytesOk(cap, chunkSize, states[k]) && states[k].highest == Highest(states, k + 1)
  {
    if k == 0 {
      assert Sum<nat>([], Size) == 0;
    } else {
      RunOk(cap, chunkSize, states, ops, k - 1);
      ByteStepOk(cap, chunkSize, states[k - 1], ops[k - 1]);
    }
  }

  /** Under every interleaving of allocs and releases peak never goes down, never exceeds the
      budget, never exceeds what inUse reached, and equals it once no alloc is under way. */
  lemma HighWaterMark(cap: nat, chunkSize: nat, states: seq<Bytes>, ops: seq<ByteOp>, k: nat)
    requires ByteRun(cap, chunkSize, states, ops) && k < |states|
    ensures states[k].inUse <= cap * chunkSize && states[k].peak <= cap * chunkSize
    ensures states[k].peak <= Highest(states, k + 1)
    ensures states[k].allocs == [] ==> states[k].peak == Highest(states, k + 1)
    ensures k > 0 ==> states[k - 1].peak <= states[k].peak
  {
    RunOk(cap, chunkSize, states, ops, k);
    if k > 0 {
      RunOk(cap, chunkSize, states, ops, k - 1);
      ByteStepOk(cap, chunkSize, states[k - 1], ops[k - 1]);
    }
  }

  // ---- the object ----

  /** The mark p after others have raised it k times. */
  function Raised(p: int, others: seq<int>, k: nat): int
    requires k <= |others|
  {
    if k == 0 then p else Max(Raised(p, others, k - 1), others[k - 1])
  }

  /** chunkBudget. The channel is its buffered count and its line of waiting senders; line
      follows it with the history. */
  class ChunkBudget {
    const cap: nat
    var taken: nat
    var queue: seq<Caller>
    var inUse: int
    var peak: int
    ghost var line: Units

    constructor (cap: nat)
      ensures Valid() && this.cap == cap && line == NewUnits(cap) && inUse == 0 && peak == 0
    {
      this.cap := cap;
      taken, queue, inUse, peak, line := 0, [], 0, 0, NewUnits(cap);
    }

    ghost predicate Valid()
      reads this
    {
      UnitsOk(line) && line.cap == cap && line.taken == taken && line.queue == queue && inUse <= peak
    }

    /** acquire: the caller has a unit, or has joined the end of the line. */
    method Acquire(id: Caller) returns (granted: bool)
      requires Valid() && id !in line.arrivals
      modifies this
      ensures Valid() && line == UnitNext(old(line), Send(id)) && inUse == old(inUse) && peak == old(peak)
      ensures granted <==> old(taken) < cap
      ensures granted ==> line.grants == old(line.grants) + [id] && old(queue) == [] && taken == old(taken) + 1
      ensures !granted ==> queue == old(queue) + [id]
    {
      UnitStepOk(line, Send(id));
      line := UnitNext(line, Send(id));
      if taken < cap {
        taken := taken + 1;
        return true;
      }
      queue := queue + [id];
      return false;
    }

    /** The context ends while the caller waits. */
    method GiveUp(id: Caller)
      requires Valid() && id in queue
      modifies this
      ensures Valid() && line == UnitNext(old(line), TimeOut(id)) && inUse == old(inUse) && peak == old(peak)
      ensures id !in queue && taken == old(taken)
    {
      UnitStepOk(line, TimeOut(id));
      line := UnitNext(line, TimeOut(id));
      queue := Without(queue, id);
      WithoutIsAbsent(old(queue), id);
    }

    method CompareAndSwapPeak(old': int, new': int) returns (swapped: bool)
      modifies this`peak
      ensures swapped <==> old(peak) == old'
      ensures peak == if swapped then new' else old(peak)
    {
      swapped := peak == old';
      if swapped {
        peak := new';
      }
    }

    /** alloc, while other allocs raise the mark between its load and its swap: to others[j],
        if that is higher, in round j. The swap then fails and the loop goes round again; in the
        end the mark is the highest of what it was, what the others made it and the bytes now
        in use. */
    method Alloc(n: nat, others: seq<int>) returns (ghost rounds: nat)
      requires Valid()
      modifies this
      ensures Valid() && line == old(line) && inUse == old(inUse) + n
      ensures rounds <= |others| && peak == Max(inUse, Raised(old(peak), others, rounds))
    {
      inUse := inUse + n;
      var v := inUse;
      var j := 0;
      rounds := 0;
      var settled := false;
      while !settled
        invariant line == old(line) && taken == old(taken) && queue == old(queue) && inUse == v
        invariant 0 <= j && rounds == Min(j, |others|)
        invariant peak == if settled then Max(v, Raised(old(peak), others, rounds))
                          else Raised(old(peak), others, rounds)
        decreases if settled then 0 else 1, |others| - j
      {
        var p := peak;
        if v <= p {
          settled := true;
        } else {
          if j < |others| {
            peak := Max(peak, others[j]);
            rounds := rounds + 1;
          }
          j := j + 1;
          settled := CompareAndSwapPeak(p, v);
        }
      }
    }

    /** release: the bytes first, then the unit, which goes to the oldest waiting caller. */
    method Release(n: nat)
      requires Valid() && taken > 0
      modifies this
      ensures Valid() && line == UnitNext(old(line), Receive)
      ensures inUse == old(inUse) - n && peak == old(peak)
      ensures old(queue) == [] ==> taken == old(taken) - 1 && queue == []
      ensures old(queue) != [] ==>
        taken == cap && queue == old(queue)[1..] && line.grants == old(line.grants) + [old(queue)[0]]
    {
      if n > 0 {
        inUse := inUse - n;
      }
      UnitStepOk(line, Receive);
      line := UnitNext(line, Receive);
      if queue == [] {
        taken := taken - 1;
      } else {
        queue := queue[1..];
      }
    }
  }
}
