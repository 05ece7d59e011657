/** Shared vocabulary: optional values, bytes, and sums over sequences. */
module Base {

  datatype Option<+T> = None | Some(value: T)

  newtype Byte = b: int | 0 <= b < 256

  const INT64_MAX: int := 0x7fff_ffff_ffff_ffff

  function Min(a: int, b: int): int { if a <= b then a else b }

  function Max(a: int, b: int): int { if a <= b then b else a }

  lemma MulMonotone(a: int, b: int, c: nat)
    requires a <= b
    ensures a * c <= b * c && c * a <= c * b
  {
  }

  /** Total weight of a sequence: counts and byte totals are all sums of this form. */
  function Sum<T>(xs: seq<T>, w: T -> int): int
  {
    if xs == [] then 0 else Sum(xs[..|xs| - 1], w) + w(xs[|xs| - 1])
  }

  lemma {:induction false} SumUpdate<T>(xs: seq<T>, w: T -> int, i: nat, x: T)
    requires i < |xs|
    ensures Sum(xs[i := x], w) == Sum(xs, w) - w(xs[i]) + w(x)
  {
    var n := |xs| - 1;
    var ys := xs[i := x];
    if i == n {
      assert ys[..n] == xs[..n];
    } else {
      SumUpdate(xs[..n], w, i, x);
      assert ys[..n] == xs[..n][i := x];
    }
  }

  lemma SumAppend<T>(xs: seq<T>, w: T -> int, x: T)
    ensures Sum(xs + [x], w) == Sum(xs, w) + w(x)
  {
    assert (xs + [x])[..|xs|] == xs;
  }

  /** Every element weighs at most the total. */
  lemma {:induction false} SumMember<T>(xs: seq<T>, w: T -> int, i: nat)
    requires i < |xs|
    requires forall k :: 0 <= k < |xs| ==> w(xs[k]) >= 0
    ensures 0 <= w(xs[i]) <= Sum(xs, w)
  {
    var n := |xs| - 1;
    SumNonNegative(xs[..n], w);
    if i < n {
      SumMember(xs[..n], w, i);
    }
  }

  lemma {:induction false} SumNonNegative<T>(xs: seq<T>, w: T -> int)
    requires forall k :: 0 <= k < |xs| ==> w(xs[k]) >= 0
    ensures Sum(xs, w) >= 0
  {
    if xs != [] {
      SumNonNegative(xs[..|xs| - 1], w);
    }
  }

  /** A positive total has a positive element. */
  lemma {:induction false} SumPositive<T>(xs: seq<T>, w: T -> int) returns (i: nat)
    requires Sum(xs, w) > 0
    ensures i < |xs| && w(xs[i]) > 0
  {
    var n := |xs| - 1;
    if w(xs[n]) > 0 {
      i := n;
    } else {
      i := SumPositive(xs[..n], w);
    }
  }

  lemma {:induction false} SumZero<T>(xs: seq<T>, w: T -> int)
    requires forall k :: 0 <= k < |xs| ==> w(xs[k]) == 0
    ensures Sum(xs, w) == 0
  {
    if xs != [] {
      SumZero(xs[..|xs| - 1], w);
    }
  }

  /** Element by element, one weight bounded by a multiple of another. */
  lemma {:induction false} SumScaled<T>(xs: seq<T>, v: T -> int, w: T -> int, scale: nat)
    requires forall k :: 0 <= k < |xs| ==> v(xs[k]) <= scale * w(xs[k])
    ensures Sum(xs, v) <= scale * Sum(xs, w)
  {
    if xs != [] {
      SumScaled(xs[..|xs| - 1], v, w, scale);
    }
  }

  /** Weights that add up element by element add up in total. */
  lemma {:induction false} SumOfParts<T>(xs: seq<T>, w: T -> int, a: T -> int, b: T -> int)
    requires forall k :: 0 <= k < |xs| ==> w(xs[k]) == a(xs[k]) + b(xs[k])
    ensures Sum(xs, w) == Sum(xs, a) + Sum(xs, b)
  {
    if xs != [] {
      SumOfParts(xs[..|xs| - 1], w, a, b);
    }
  }
}
