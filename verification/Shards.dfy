/** Choosing a shard: distributeByHash cuts the range of a five-digit hexadecimal prefix into
    nearly equal consecutive parts, one for each shard directory. */
module Shards {
  import opened Base

  /** Number of possible prefixes. */
  const PREFIXES: nat := 0x10_0000

  const TOTAL: nat := 1048575 * 1000

  function Interval(n: nat): nat
    requires n >= 1
  {
    TOTAL / n
  }

  /** Which of n shards a prefix goes to. */
  function Shard(n: nat, prefix: nat): nat
    requires n >= 1
  {
    if Interval(n) == 0 then n - 1 else Min(prefix * 1000 / Interval(n), n - 1)
  }

  lemma QuotientBetween(a: nat, c: nat, q: nat)
    requires c >= 1 && q * c <= a < (q + 1) * c
    ensures a / c == q
  {
    var d := a / c;
    assert d * c <= a < (d + 1) * c by {
      assert a == d * c + a % c;
    }
    if d < q {
      MulMonotone(d + 1, q, c);
    } else if d > q {
      MulMonotone(q + 1, d, c);
    }
  }

  lemma QuotientAtLeast(a: nat, c: nat, q: nat)
    requires c >= 1 && q * c <= a
    ensures q <= a / c
  {
    assert a == a / c * c + a % c;
    if a / c < q {
      MulMonotone(a / c + 1, q, c);
    }
  }

  /** The loop over the shards returns the one that Shard names. */
  method DistributeByHash<T>(dirs: seq<T>, prefix: nat) returns (dir: T)
    requires dirs != [] && prefix < PREFIXES
    ensures Shard(|dirs|, prefix) < |dirs| && dir == dirs[Shard(|dirs|, prefix)]
  {
    var num := prefix * 1000;
    var interval := TOTAL / |dirs|;
    var i := 0;
    while i < |dirs|
      invariant i <= |dirs|
      invariant i * interval <= num
    {
      if num < (i + 1) * interval {
        QuotientBetween(num, interval, i);
        return dirs[i];
      }
      i := i + 1;
    }
    if interval > 0 {
      QuotientAtLeast(num, interval, |dirs|);
    }
    return dirs[|dirs| - 1];
  }

  // ---- the parts are in order ----

  lemma Monotone(n: nat, p: nat, q: nat)
    requires n >= 1 && p <= q
    ensures Shard(n, p) <= Shard(n, q) < n
  {
    if Interval(n) > 0 {
      var d := p * 1000 / Interval(n);
      assert p * 1000 == d * Interval(n) + p * 1000 % Interval(n);
      QuotientAtLeast(q * 1000, Interval(n), d);
    }
  }

  // ---- and nearly equal ----

  /** How many of the first m prefixes go to shard i. */
  function Share(n: nat, i: nat, m: nat): nat
    requires n >= 1
  {
    if m == 0 then 0 else Share(n, i, m - 1) + (if Shard(n, m - 1) == i then 1 else 0)
  }

  /** First prefix that does not go to a shard before i. */
  function Start(n: nat, i: nat): nat
    requires n >= 1
  {
    (i * Interval(n) + 999) / 1000
  }

  lemma StartSplits(n: nat, i: nat, p: nat)
    requires n >= 1 && Interval(n) >= 1
    ensures p < Start(n, i) <==> p * 1000 < i * Interval(n)
  {
  }

  lemma BelowStart(n: nat, i: nat, p: nat)
    requires n >= 1 && Interval(n) >= 1 && i < n
    ensures p < Start(n, i) <==> Shard(n, p) < i
  {
    StartSplits(n, i, p);
    var d := p * 1000 / Interval(n);
    assert p * 1000 == d * Interval(n) + p * 1000 % Interval(n);
    if p * 1000 < i * Interval(n) {
      if d >= i { MulMonotone(i, d, Interval(n)); }
    } else {
      QuotientAtLeast(p * 1000, Interval(n), i);
    }
  }

  /** Where shard i's part ends. */
  function End(n: nat, i: nat): nat
    requires n >= 1
  {
    if i + 1 < n then Start(n, i + 1) else PREFIXES
  }

  lemma StartsInOrder(n: nat, i: nat)
    requires n >= 1 && Interval(n) >= 1 && i < n
    ensures Start(n, i) <= End(n, i) <= PREFIXES
  {
    assert TOTAL == n * Interval(n) + TOTAL % n;
    MulMonotone(i + 1, n, Interval(n));
    MulMonotone(i, i + 1, Interval(n));
  }

  lemma {:induction false} ShareUpTo(n: nat, i: nat, m: nat)
    requires n >= 1 && Interval(n) >= 1 && i < n && m <= PREFIXES
    ensures Share(n, i, m) == Max(0, Min(m, End(n, i)) - Start(n, i))
  {
    StartsInOrder(n, i);
    if m > 0 {
      ShareUpTo(n, i, m - 1);
      BelowStart(n, i, m - 1);
      Monotone(n, m - 1, m - 1);
      if i + 1 < n {
        BelowStart(n, i + 1, m - 1);
      }
    }
  }

  /** Shares of every number of shards: all but the last have I/1000 prefixes or one more; the
      last has the remainder as well. */
  lemma ShareOf(n: nat, i: nat)
    requires 1 <= n <= TOTAL && i < n
    ensures i + 1 < n ==> Interval(n) / 1000 <= Share(n, i, PREFIXES) <= Interval(n) / 1000 + 1
    ensures i + 1 == n ==> Share(n, i, PREFIXES) == 1 + (Interval(n) + TOTAL % n) / 1000
  {
    IntervalPositive(n);
    ShareUpTo(n, i, PREFIXES);
    StartsInOrder(n, i);
    NextBoundary(i, Interval(n));
    if i + 1 == n {
      assert TOTAL == n * Interval(n) + TOTAL % n;
      assert n * Interval(n) == i * Interval(n) + Interval(n);
    }
  }

  lemma IntervalPositive(n: nat)
    requires 1 <= n <= TOTAL
    ensures Interval(n) >= 1
  {
    QuotientAtLeast(TOTAL, n, 1);
  }

  lemma NextBoundary(i: nat, interval: nat)
    ensures (i + 1) * interval == i * interval + interval
  {
  }

  /** With up to a thousand shards no shard gets more than two prefixes more than another. */
  lemma SharesBalanced(n: nat, i: nat, j: nat)
    requires 1 <= n <= 1000 && i < n && j < n
    ensures Share(n, i, PREFIXES) <= Share(n, j, PREFIXES) + 2
  {
    ShareOf(n, i);
    ShareOf(n, j);
    assert TOTAL % n < 1000;
  }
}
