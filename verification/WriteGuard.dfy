/** The write guard: a request that holds uncached chunk buffers writes under a deadline, so
    a client that stops reading cannot keep those buffers for ever. */
module WriteGuard {

  /** held: buffered chunks delivered and not yet written; writing: the consumer is inside a
      chunk write; armed: a write deadline is set. */
  datatype GuardState = GuardState(held: int, writing: bool, armed: bool)

  const FreshGuard := GuardState(0, false, false)

  /** works: the timeout is positive and the connection accepts deadlines. */
  function Hold(g: GuardState, works: bool): GuardState {
    g.(held := g.held + 1, armed := g.armed || (g.writing && works))
  }

  function Begin(g: GuardState, works: bool): GuardState {
    g.(writing := true, armed := g.armed || (g.held > 0 && works))
  }

  function End(g: GuardState, buffered: bool): GuardState {
    g.(writing := false, held := if buffered then g.held - 1 else g.held, armed := false)
  }

  /** What every interleaving of hold, begin and end keeps: no deadline between chunks, and a
      deadline throughout any write made while buffers are held. */
  predicate Guarded(g: GuardState, works: bool) {
    && (g.armed ==> g.writing && works)
    && (works && g.writing && g.held > 0 ==> g.armed)
  }

  /** With a count that is not negative: a deadline is armed during a write while buffers are
      held, and at no other time. */
  predicate Exact(g: GuardState, works: bool) {
    g.armed <==> works && g.writing && g.held > 0
  }

  datatype GuardOp = HoldOp | BeginOp | EndOp(buffered: bool)

  function Apply(g: GuardState, op: GuardOp, works: bool): GuardState {
    match op
    case HoldOp => Hold(g, works)
    case BeginOp => Begin(g, works)
    case EndOp(buffered) => End(g, buffered)
  }

  function ApplyAll(g: GuardState, ops: seq<GuardOp>, works: bool): GuardState {
    if ops == [] then g else Apply(ApplyAll(g, ops[..|ops| - 1], works), ops[|ops| - 1], works)
  }

  /** Buffered chunks counted by hold less those whose write has ended. */
  function Outstanding(ops: seq<GuardOp>): int {
    if ops == [] then 0
    else Outstanding(ops[..|ops| - 1]) +
         match ops[|ops| - 1]
         case HoldOp => 1
         case BeginOp => 0
         case EndOp(buffered) => if buffered then -1 else 0
  }

  /** The last of begin and end is a begin. */
  predicate InWrite(ops: seq<GuardOp>) {
    ops != [] &&
    match ops[|ops| - 1]
    case HoldOp => InWrite(ops[..|ops| - 1])
    case BeginOp => true
    case EndOp(_) => false
  }

  /** No more writes of buffered chunks end than were counted. */
  predicate Balanced(ops: seq<GuardOp>) {
    Outstanding(ops) >= 0 && (ops != [] ==> Balanced(ops[..|ops| - 1]))
  }

  lemma ApplyGuarded(g: GuardState, op: GuardOp, works: bool)
    requires Guarded(g, works)
    ensures var next := Apply(g, op, works);
            && Guarded(next, works) && (op.EndOp? ==> !next.armed)
            && (Exact(g, works) && g.held >= 0 ==> Exact(next, works))
  {
  }

  lemma {:induction false} GuardedInEveryInterleaving(ops: seq<GuardOp>, works: bool)
    ensures var g := ApplyAll(FreshGuard, ops, works);
            && Guarded(g, works)
            && g.held == Outstanding(ops) && (g.writing <==> InWrite(ops))
            && (Balanced(ops) ==> Exact(g, works))
            && (ops != [] && ops[|ops| - 1].EndOp? ==> !g.armed)
  {
    if ops != [] {
      var n := |ops| - 1;
      var before := ops[..n];
      GuardedInEveryInterleaving(before, works);
      var g := ApplyAll(FreshGuard, before, works);
      ApplyGuarded(g, ops[n], works);
      assert Balanced(ops) ==> Balanced(before) && Outstanding(before) >= 0;
      assert ApplyAll(FreshGuard, ops, works) == Apply(g, ops[n], works);
    }
  }

  /** A request that is handed no buffered chunk is never put under a deadline, so a client that
      pauses keeps its connection. */
  lemma {:induction false} NeverArmedWithoutBuffers(ops: seq<GuardOp>, works: bool)
    requires forall k :: 0 <= k < |ops| ==> !ops[k].HoldOp?
    ensures var g := ApplyAll(FreshGuard, ops, works); !g.armed && g.held <= 0
  {
    if ops != [] {
      NeverArmedWithoutBuffers(ops[..|ops| - 1], works);
    }
  }

  /** The guard object of one request, with the deadline it keeps on the connection. */
  class Guard {
    const timeout: int
    const accepts: bool  // the connection supports write deadlines
    var held: int
    var writing: bool
    var armed: bool
    var deadline: bool   // a deadline is pending on the connection

    constructor (timeout: int, accepts: bool)
      ensures View() == FreshGuard && Valid()
      ensures this.timeout == timeout && this.accepts == accepts
    {
      this.timeout, this.accepts := timeout, accepts;
      held, writing, armed, deadline := 0, false, false, false;
    }

    predicate Works() { timeout > 0 && accepts }

    function View(): GuardState
      reads this
    {
      GuardState(held, writing, armed)
    }

    predicate Valid()
      reads this
    {
      Guarded(View(), Works()) && deadline == armed
    }

    method Arm()
      modifies this`armed, this`deadline
      ensures armed == (old(armed) || Works()) && deadline == (old(deadline) || Works())
    {
      if timeout <= 0 {
        return;
      }
      if accepts {
        deadline := true;
        armed := true;
      }
    }

    method HoldBuffer()
      requires Valid()
      modifies this
      ensures View() == Hold(old(View()), Works()) && Valid()
    {
      held := held + 1;
      if writing && !armed {
        Arm();
      }
    }

    method BeginWrite()
      requires Valid()
      modifies this
      ensures View() == Begin(old(View()), Works()) && Valid()
      ensures old(held) <= 0 ==> deadline == old(deadline)
    {
      writing := true;
      if held > 0 {
        Arm();
      }
    }

    /** After a write no deadline is left for the next use of a kept-alive connection. */
    method EndWrite(buffered: bool)
      requires Valid()
      modifies this
      ensures View() == End(old(View()), buffered) && Valid() && !deadline
    {
      writing := false;
      if buffered {
        held := held - 1;
      }
      if armed {
        deadline := false;
        armed := false;
      }
    }
  }
}
