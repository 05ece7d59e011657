/** The evictor's sweep of one shard, relative to the snapshot its walk takes: stale temporary
    files go, and while the shard is over its cap the least recently used files go, down to
    nine tenths of the cap. */
module Eviction {
  import opened Base

  datatype File = File(path: string, name: string, size: nat, mtime: int)

  const MARKER := ".versioned-since"
  const TEMP := ".tmp_"

  predicate IsTemp(f: File) { |f.name| > |TEMP| && TEMP <= f.name }

  /** Walked past the marker and the temporary files. */
  predicate Counted(f: File) { f.name != MARKER && !IsTemp(f) }

  predicate Stale(f: File, now: int, maxAge: int) {
    f.name != MARKER && IsTemp(f) && now - f.mtime > maxAge
  }

  function Entries(files: seq<File>): (es: seq<File>)
    ensures forall f :: f in es <==> f in files && Counted(f)
    ensures forall f :: f in es <==>
              f in files && f.name != ".versioned-since" && !(|f.name| > 5 && ".tmp_" <= f.name)
  {
    if files == [] then []
    else
      var f := files[|files| - 1];
      Entries(files[..|files| - 1]) + (if Counted(f) then [f] else [])
  }

  predicate ByTime(es: seq<File>) {
    forall i, j | 0 <= i < j < |es| :: es[i].mtime <= es[j].mtime
  }

  function SizeOf(f: File): int { f.size }

  function Bytes(es: seq<File>): int { Sum(es, SizeOf) }

  lemma BytesAppend(es: seq<File>, f: File)
    ensures Bytes(es + [f]) == Bytes(es) + f.size
  {
    SumAppend(es, SizeOf, f);
  }

  // ---- sums do not depend on the order ----

  lemma {:induction false} SumWithout<T>(xs: seq<T>, w: T -> int, j: nat)
    requires j < |xs|
    ensures Sum(xs, w) == Sum(xs[..j] + xs[j + 1..], w) + w(xs[j])
  {
    var n := |xs| - 1;
    if j == n {
      assert xs[..j] + xs[j + 1..] == xs[..n];
    } else {
      SumWithout(xs[..n], w, j);
      var rest := xs[..j] + xs[j + 1..];
      assert rest[..|rest| - 1] == xs[..n][..j] + xs[..n][j + 1..];
    }
  }

  lemma WithoutOne<T>(xs: seq<T>, j: nat)
    requires j < |xs|
    ensures multiset(xs[..j] + xs[j + 1..]) == multiset(xs) - multiset{xs[j]}
  {
    assert xs == xs[..j] + [xs[j]] + xs[j + 1..];
  }

  lemma SameLast<T>(xs: seq<T>, ys: seq<T>) returns (j: nat)
    requires multiset(xs) == multiset(ys) && xs != []
    ensures j < |ys| && ys[j] == xs[|xs| - 1]
    ensures multiset(xs[..|xs| - 1]) == multiset(ys[..j] + ys[j + 1..])
  {
    var x := xs[|xs| - 1];
    assert multiset(xs)[x] > 0 by {
      assert x in xs;
    }
    j :| 0 <= j < |ys| && ys[j] == x;
    WithoutOne(ys, j);
    assert multiset(xs[..|xs| - 1]) == multiset(xs) - multiset{x} by {
      assert xs == xs[..|xs| - 1] + [x];
    }
  }

  lemma {:induction false} SumPermuted<T>(xs: seq<T>, ys: seq<T>, w: T -> int)
    requires multiset(xs) == multiset(ys)
    ensures Sum(xs, w) == Sum(ys, w)
  {
    if xs == [] {
      assert |multiset(ys)| == 0;
    } else {
      var j := SameLast(xs, ys);
      SumWithout(ys, w, j);
      SumPermuted(xs[..|xs| - 1], ys[..j] + ys[j + 1..], w);
    }
  }

  // ---- sorting ----

  /** Where f goes among files sorted by time: after all that are not newer. */
  function Place(order: seq<File>, f: File): (p: nat)
    requires ByTime(order)
    ensures p <= |order|
    ensures forall k :: 0 <= k < p ==> order[k].mtime <= f.mtime
    ensures forall k :: p <= k < |order| ==> f.mtime < order[k].mtime
  {
    if order == [] || order[|order| - 1].mtime <= f.mtime then |order|
    else Place(order[..|order| - 1], f)
  }

  function Insert(order: seq<File>, f: File): seq<File>
    requires ByTime(order)
  {
    var p := Place(order, f);
    order[..p] + [f] + order[p..]
  }

  lemma Inserted(order: seq<File>, f: File)
    requires ByTime(order)
    ensures ByTime(Insert(order, f)) && multiset(Insert(order, f)) == multiset(order) + multiset{f}
  {
    var p := Place(order, f);
    SplicedSorted(order, f, p);
    assert order == order[..p] + order[p..];
  }

  lemma SplicedSorted(order: seq<File>, f: File, p: nat)
    requires ByTime(order) && p <= |order|
    requires forall k :: 0 <= k < p ==> order[k].mtime <= f.mtime
    requires forall k :: p <= k < |order| ==> f.mtime < order[k].mtime
    ensures ByTime(order[..p] + [f] + order[p..])
  {
    var r := order[..p] + [f] + order[p..];
    forall i, j | 0 <= i < j < |r| ensures r[i].mtime <= r[j].mtime {
      assert r[i] == if i < p then order[i] else if i == p then f else order[i - 1];
      assert r[j] == if j < p then order[j] else if j == p then f else order[j - 1];
    }
  }

  /** sort.Slice on modification time: some order of the same files, oldest first. */
  method SortByTime(es: seq<File>) returns (order: seq<File>)
    ensures ByTime(order) && multiset(order) == multiset(es)
  {
    order := [];
    var i := 0;
    while i < |es|
      invariant i <= |es|
      invariant ByTime(order) && multiset(order) == multiset(es[..i])
    {
      Inserted(order, es[i]);
      order := Insert(order, es[i]);
      assert es[..i + 1] == es[..i] + [es[i]];
      i := i + 1;
    }
    assert es[..i] == es;
  }

  // ---- the sweep ----

  function Target(maxBytes: nat): nat { maxBytes - maxBytes / 10 }

  predicate DistinctPaths(files: seq<File>) {
    forall i, j | 0 <= i < j < |files| :: files[i].path != files[j].path
  }

  /** What trying to remove a file frees, and what the first k tries free and remove, when the
      tries on the paths failed fail. */
  function Freeable(failed: set<string>): File -> int {
    (f: File) => if f.path in failed then 0 else f.size
  }

  function Freed(order: seq<File>, k: nat, failed: set<string>): int
    requires k <= |order|
  {
    Sum(order[..k], Freeable(failed))
  }

  function Gone(order: seq<File>, k: nat, failed: set<string>): set<string>
    requires k <= |order|
  {
    set f | f in order[..k] && f.path !in failed :: f.path
  }

  lemma TryOne(order: seq<File>, k: nat, failed: set<string>)
    requires k < |order|
    ensures Freed(order, k + 1, failed) == Freed(order, k, failed) + Freeable(failed)(order[k])
    ensures Gone(order, k + 1, failed)
         == Gone(order, k, failed) + if order[k].path in failed then {} else {order[k].path}
  {
    assert order[..k + 1] == order[..k] + [order[k]];
    SumAppend(order[..k], Freeable(failed), order[k]);
  }

  /** Whether a later try fails does not matter to the first k. */
  lemma {:induction false} LaterTry(order: seq<File>, k: nat, failed: set<string>, i: nat)
    requires k <= i < |order| && DistinctPaths(order)
    ensures Freed(order, k, failed + {order[i].path}) == Freed(order, k, failed)
    ensures Gone(order, k, failed + {order[i].path}) == Gone(order, k, failed)
  {
    if k > 0 {
      LaterTry(order, k - 1, failed, i);
      TryOne(order, k - 1, failed);
      TryOne(order, k - 1, failed + {order[i].path});
    }
  }

  lemma LaterTries(order: seq<File>, failed: set<string>, i: nat)
    requires i < |order| && DistinctPaths(order)
    ensures forall k :: 0 <= k <= i ==>
              && Freed(order, k, failed + {order[i].path}) == Freed(order, k, failed)
              && Gone(order, k, failed + {order[i].path}) == Gone(order, k, failed)
  {
    forall k | 0 <= k <= i
      ensures Freed(order, k, failed + {order[i].path}) == Freed(order, k, failed)
      ensures Gone(order, k, failed + {order[i].path}) == Gone(order, k, failed)
    {
      LaterTry(order, k, failed, i);
    }
  }

  /** Temporary files that the walk removes. stuck: paths that cannot be removed. */
  function Reaped(files: seq<File>, now: int, maxAge: int, stuck: set<string>): set<string> {
    set f | f in files && Stale(f, now, maxAge) && f.path !in stuck :: f.path
  }

  /** A sweep as it went: what it saw and when, the paths before it, the order in which it went
      through the files, how many it tried, which of those tries failed, and its results. */
  datatype Sweep = Sweep(
    files: seq<File>, now: int, maxAge: int, maxBytes: nat, stuck: set<string>, before: set<string>,
    order: seq<File>, tried: nat, failed: set<string>, total: int, freed: int)

  /** It tries the files oldest first, and stops at the first moment at which the shard is small
      enough. */
  ghost predicate Swept(w: Sweep) {
    && DistinctPaths(w.files) && (forall f :: f in w.files ==> f.path in w.before)
    && multiset(w.order) == multiset(Entries(w.files)) && ByTime(w.order) && w.tried <= |w.order|
    && w.freed == Freed(w.order, w.tried, w.failed) && w.total == Bytes(w.order) - w.freed
    && (if Bytes(w.order) <= w.maxBytes then w.tried == 0
        else
          && (w.tried < |w.order| ==> w.total <= Target(w.maxBytes))
          && (forall k :: 0 <= k < w.tried ==>
                Bytes(w.order) - Freed(w.order, k, w.failed) > Target(w.maxBytes)))
  }

  /** The paths that the sweep leaves. */
  function Kept(w: Sweep): set<string>
    requires w.tried <= |w.order|
  {
    w.before - Reaped(w.files, w.now, w.maxAge, w.stuck) - Gone(w.order, w.tried, w.failed)
  }

  lemma WalkOne(files: seq<File>, i: nat, now: int, maxAge: int, stuck: set<string>)
    requires i < |files|
    ensures Entries(files[..i + 1]) == Entries(files[..i]) + if Counted(files[i]) then [files[i]] else []
    ensures Reaped(files[..i + 1], now, maxAge, stuck)
         == Reaped(files[..i], now, maxAge, stuck)
            + if Stale(files[i], now, maxAge) && files[i].path !in stuck then {files[i].path} else {}
  {
    assert files[..i + 1][..i] == files[..i] && files[..i + 1] == files[..i] + [files[i]];
  }

  lemma NotYetReaped(files: seq<File>, i: nat, now: int, maxAge: int, stuck: set<string>)
    requires i < |files| && DistinctPaths(files)
    ensures files[i].path !in Reaped(files[..i], now, maxAge, stuck)
  {
  }

  /** Everything that leaves by itself before try k. */
  function Left(leaving: seq<set<string>>, k: nat): set<string>
    requires k <= |leaving|
  {
    if k == 0 then {} else Left(leaving, k - 1) + leaving[k - 1]
  }

  /** The tries on these paths fail: the path cannot be removed, or has left before its try. */
  ghost predicate FailedTries(failed: set<string>, order: seq<File>, k: nat, leaving: seq<set<string>>,
                              stuck: set<string>)
    requires k <= |order| == |leaving|
  {
    && (forall i {:trigger order[i]} :: 0 <= i < k ==>
          (order[i].path in failed <==> order[i].path in stuck || order[i].path in Left(leaving, i + 1)))
    && (forall i {:trigger order[i]} :: k <= i < |order| ==> order[i].path !in failed)
  }

  lemma OneMoreTry(failed: set<string>, order: seq<File>, i: nat, leaving: seq<set<string>>, stuck: set<string>,
                   fails: bool)
    requires i < |order| == |leaving| && DistinctPaths(order) && FailedTries(failed, order, i, leaving, stuck)
    requires fails <==> order[i].path in stuck || order[i].path in Left(leaving, i + 1)
    ensures FailedTries(if fails then failed + {order[i].path} else failed, order, i + 1, leaving, stuck)
  {
  }

  class ShardDir {
    const stuck: set<string>  // paths whose removal fails
    var present: set<string>

    constructor (present: set<string>, stuck: set<string>)
      ensures this.present == present && this.stuck == stuck
    {
      this.present, this.stuck := present, stuck;
    }

    method Remove(path: string) returns (ok: bool)
      modifies this
      ensures ok == (path in old(present) && path !in stuck)
      ensures present == if ok then old(present) - {path} else old(present)
    {
      ok := path in present && path !in stuck;
      if ok {
        present := present - {path};
      }
    }

    /** One file of the walk. */
    method Visit(f: File, now: int, maxAge: int) returns (counted: bool)
      requires f.path in present
      modifies this
      ensures counted <==> Counted(f)
      ensures present == old(present) - if Stale(f, now, maxAge) && f.path !in stuck then {f.path} else {}
    {
      if f.name == MARKER {
        return false;
      }
      if IsTemp(f) {
        if now - f.mtime > maxAge {
          var _ := Remove(f.path);
        }
        return false;
      }
      return true;
    }

    /** The walk's callback on file i. */
    method WalkStep(files: seq<File>, i: nat, now: int, maxAge: int, entries: seq<File>, total: int,
                    ghost before: set<string>)
      returns (more: seq<File>, sum: int)
      requires i < |files| && DistinctPaths(files) && files[i].path in before
      requires entries == Entries(files[..i]) && total == Bytes(entries)
      requires present == before - Reaped(files[..i], now, maxAge, stuck)
      modifies this
      ensures more == Entries(files[..i + 1]) && sum == Bytes(more)
      ensures present == before - Reaped(files[..i + 1], now, maxAge, stuck)
    {
      var f := files[i];
      ghost var gone, later := Reaped(files[..i], now, maxAge, stuck), Reaped(files[..i + 1], now, maxAge, stuck);
      ghost var here := if Stale(f, now, maxAge) && f.path !in stuck then {f.path} else {};
      assert later == gone + here by { WalkOne(files, i, now, maxAge, stuck); }
      assert f.path in present by { NotYetReaped(files, i, now, maxAge, stuck); }
      assert present == before - gone;
      var counted := Visit(f, now, maxAge);
      assert present == before - later;
      more, sum := entries, total;
      if counted {
        BytesAppend(entries, f);
        sum := total + f.size;
        more := entries + [f];
      }
      assert more == Entries(files[..i + 1]) by { WalkOne(files, i, now, maxAge, stuck); }
    }

    /** The walk: reaps stale temporary files and collects the counted ones. */
    method Walk(files: seq<File>, now: int, maxAge: int) returns (entries: seq<File>, total: int)
      requires forall f :: f in files ==> f.path in present
      requires DistinctPaths(files)
      modifies this
      ensures entries == Entries(files) && total == Bytes(entries)
      ensures present == old(present) - Reaped(files, now, maxAge, stuck)
    {
      entries, total := [], 0;
      ghost var before := present;
      var i := 0;
      while i < |files|
        invariant 0 <= i <= |files|
        invariant entries == Entries(files[..i]) && total == Bytes(entries)
        invariant present == before - Reaped(files[..i], now, maxAge, stuck)
      {
        entries, total := WalkStep(files, i, now, maxAge, entries, total, before);
        i := i + 1;
      }
      assert files[..i] == files;
    }

    /** Where the deletions stand after k tries, from the paths before and a total of all. */
    ghost predicate Tried(order: seq<File>, k: nat, failed: set<string>, leaving: seq<set<string>>,
                          before: set<string>, all: int, target: nat, total: int, freed: int)
      requires k <= |order| == |leaving|
      reads this
    {
      && freed == Freed(order, k, failed) && total == all - freed
      && present == before - Gone(order, k, failed) - Left(leaving, k)
      && (forall j :: 0 <= j < k ==> all - Freed(order, j, failed) > target)
      && FailedTries(failed, order, k, leaving, stuck)
    }

    /** One try, after the paths leaving[i] have disappeared by themselves. */
    method TryFile(order: seq<File>, i: nat, ghost failed: set<string>, leaving: seq<set<string>>,
                   ghost before: set<string>, ghost all: int, target: nat, total: int, freed: int)
      returns (total': int, freed': int, ghost failed': set<string>)
      requires i < |order| == |leaving| && DistinctPaths(order) && order[i].path in before && total > target
      requires Tried(order, i, failed, leaving, before, all, target, total, freed)
      modifies this
      ensures Tried(order, i + 1, failed', leaving, before, all, target, total', freed')
    {
      assert order[i].path !in Gone(order, i, failed);
      present := present - leaving[i];
      assert present == before - Gone(order, i, failed) - Left(leaving, i + 1);
      var ok := Remove(order[i].path);
      total', freed', failed' := total, freed, failed;
      assert !ok <==> order[i].path in stuck || order[i].path in Left(leaving, i + 1);
      OneMoreTry(failed, order, i, leaving, stuck, !ok);
      if ok {
        total' := total - order[i].size;
        freed' := freed + order[i].size;
      } else {
        LaterTries(order, failed, i);
        failed' := failed + {order[i].path};
      }
      TryOne(order, i, failed');
    }

    /** The deletions: tries files in order while the shard is over the target. */
    method Trim(sorted: seq<File>, all: int, target: nat, leaving: seq<set<string>>)
      returns (total: int, freed: int, ghost tried: nat, ghost failed: set<string>)
      requires DistinctPaths(sorted) && (forall f :: f in sorted ==> f.path in present) && |leaving| == |sorted|
      modifies this
      ensures tried <= |sorted| && (tried < |sorted| ==> total <= target)
      ensures Tried(sorted, tried, failed, leaving, old(present), all, target, total, freed)
    {
      ghost var before := present;
      total, freed, failed, tried := all, 0, {}, 0;
      var i := 0;
      while i < |sorted| && total > target
        invariant i <= |sorted| && tried == i
        invariant Tried(sorted, i, failed, leaving, before, all, target, total, freed)
      {
        total, freed, failed := TryFile(sorted, i, failed, leaving, before, all, target, total, freed);
        i := i + 1;
        tried := i;
      }
    }

    /** sweepShard. Files may leave by themselves during the deletions. */
    method SweepShard(files: seq<File>, now: int, maxAge: int, maxBytes: nat, leaving: seq<set<string>>)
      returns (total: int, freed: int, ghost w: Sweep)
      requires forall f :: f in files ==> f.path in present
      requires DistinctPaths(files) && |leaving| == |Entries(files)|
      modifies this
      ensures Swept(w) && w.total == total && w.freed == freed && w.stuck == stuck && w.before == old(present)
      ensures w.files == files && w.now == now && w.maxAge == maxAge && w.maxBytes == maxBytes
      ensures |w.order| == |leaving| && present == Kept(w) - Left(leaving, w.tried)
      ensures FailedTries(w.failed, w.order, w.tried, leaving, stuck)
    {
      var entries;
      ghost var before := present;
      entries, total := Walk(files, now, maxAge);
      var sorted := SortByTime(entries);
      SumPermuted(sorted, entries, SizeOf);
      assert |sorted| == |multiset(sorted)| == |multiset(entries)| == |entries|;
      ghost var tried, failed := 0, {};
      freed := 0;
      if total > maxBytes {
        SortedEntries(files, sorted);
        NotReaped(files, sorted, now, maxAge, stuck);
        total, freed, tried, failed := Trim(sorted, total, Target(maxBytes), leaving);
      }
      w := Sweep(files, now, maxAge, maxBytes, stuck, before, sorted, tried, failed, total, freed);
    }
  }

  // ---- sorting neither loses nor repeats a path ----

  lemma {:induction false} DistinctEntries(files: seq<File>)
    requires DistinctPaths(files)
    ensures forall f {:trigger multiset(Entries(files))[f]} :: multiset(Entries(files))[f] <= 1
  {
    if files != [] {
      var n := |files| - 1;
      DistinctEntries(files[..n]);
      assert files[n] !in files[..n];
    }
  }

  lemma CountedTwice(xs: seq<File>, i: nat, j: nat)
    requires i < j < |xs| && xs[i] == xs[j]
    ensures multiset(xs)[xs[i]] >= 2
  {
    assert xs == xs[..j] + [xs[j]] + xs[j + 1..];
    assert xs[i] == xs[..j][i] && xs[i] in multiset(xs[..j]);
  }

  lemma SortedEntries(files: seq<File>, order: seq<File>)
    requires DistinctPaths(files) && multiset(order) == multiset(Entries(files))
    ensures DistinctPaths(order)
    ensures forall f :: f in order <==> f in files && Counted(f)
  {
    DistinctEntries(files);
    assert forall f :: f in order <==> f in multiset(order);
    assert forall f :: f in Entries(files) <==> f in multiset(Entries(files));
    forall i, j | 0 <= i < j < |order| ensures order[i].path != order[j].path {
      if order[i].path == order[j].path {
        assert order[i] in files && order[j] in files;
        CountedTwice(order, i, j);
        assert false;
      }
    }
  }

  lemma NotReaped(files: seq<File>, order: seq<File>, now: int, maxAge: int, stuck: set<string>)
    requires DistinctPaths(files) && forall f :: f in order ==> f in files && Counted(f)
    ensures forall f :: f in order ==> f.path !in Reaped(files, now, maxAge, stuck)
  {
  }

  /** A counted file goes exactly by a try that succeeds. */
  lemma Fates(w: Sweep)
    requires Swept(w)
    ensures DistinctPaths(w.order)
    ensures forall f :: f in w.order <==> f in w.files && Counted(f)
    ensures forall f :: f in w.order ==> (f.path in Kept(w) <==> f.path !in Gone(w.order, w.tried, w.failed))
  {
    SortedEntries(w.files, w.order);
    NotReaped(w.files, w.order, w.now, w.maxAge, w.stuck);
  }

  lemma OneFate(order: seq<File>, k: nat, tried: nat, failed: set<string>)
    requires k < |order| && tried <= |order| && DistinctPaths(order)
    ensures order[k].path in Gone(order, tried, failed) <==> k < tried && order[k].path !in failed
  {
    if k < tried {
      assert order[..tried][k] == order[k];
    }
  }

  // ---- what a sweep achieves ----

  /** The bytes of the counted files that are still there. */
  function Remaining(files: seq<File>, present: set<string>): int {
    Sum(Entries(files), Stays(present))
  }

  function Stays(present: set<string>): File -> int {
    (f: File) => if f.path in present then f.size else 0
  }

  /** What a counted file's fate adds to freed and to remaining. */
  lemma {:induction false} Parts(order: seq<File>, tried: nat, failed: set<string>, kept: set<string>, n: nat)
    requires tried <= |order| && n <= |order| && DistinctPaths(order)
    requires forall f :: f in order ==> (f.path in kept <==> f.path !in Gone(order, tried, failed))
    ensures Bytes(order[..n]) == Freed(order, Min(n, tried), failed) + Sum(order[..n], Stays(kept))
  {
    if n > 0 {
      Parts(order, tried, failed, kept, n - 1);
      OnePart(order, tried, failed, kept, n - 1);
    }
  }

  lemma OnePart(order: seq<File>, tried: nat, failed: set<string>, kept: set<string>, n: nat)
    requires n < |order| && tried <= |order| && DistinctPaths(order)
    requires order[n].path in kept <==> order[n].path !in Gone(order, tried, failed)
    ensures Bytes(order[..n + 1]) == Bytes(order[..n]) + order[n].size
    ensures Sum(order[..n + 1], Stays(kept)) == Sum(order[..n], Stays(kept)) + Stays(kept)(order[n])
    ensures Freed(order, Min(n + 1, tried), failed) - Freed(order, Min(n, tried), failed)
         == order[n].size - Stays(kept)(order[n])
  {
    assert order[..n + 1] == order[..n] + [order[n]];
    SumAppend(order[..n], SizeOf, order[n]);
    SumAppend(order[..n], Stays(kept), order[n]);
    OneFate(order, n, tried, failed);
    if n < tried {
      TryOne(order, n, failed);
    }
  }

  /** Freed and remaining bytes add up to the initial total, and the total that the sweep
      reports is what it leaves. */
  lemma SweepConserves(w: Sweep)
    requires Swept(w)
    ensures w.total == Remaining(w.files, Kept(w)) && w.freed + Remaining(w.files, Kept(w)) == Bytes(Entries(w.files))
  {
    Fates(w);
    Parts(w.order, w.tried, w.failed, Kept(w), |w.order|);
    assert w.order[..|w.order|] == w.order;
    SumPermuted(w.order, Entries(w.files), SizeOf);
    SumPermuted(w.order, Entries(w.files), Stays(Kept(w)));
  }

  lemma {:induction false} FewerStay(es: seq<File>, present: set<string>, left: set<string>)
    ensures Sum(es, Stays(present - left)) <= Sum(es, Stays(present))
  {
    if es != [] {
      FewerStay(es[..|es| - 1], present, left);
    }
  }

  /** An over-full shard ends at nine tenths of its cap, or every try on every file was made;
      under its cap whenever no try fails - and files that leave by themselves only make it
      smaller. */
  lemma SweepReachesTarget(w: Sweep, left: set<string>)
    requires Swept(w)
    ensures Bytes(Entries(w.files)) <= w.maxBytes ==> w.freed == 0 && w.total == Bytes(Entries(w.files))
    ensures Bytes(Entries(w.files)) > w.maxBytes ==>
      w.total <= w.maxBytes - w.maxBytes / 10
      || forall f :: f in w.files && Counted(f) && f.path !in w.failed ==> f.path !in Kept(w)
    ensures (forall f :: f in w.files && Counted(f) ==> f.path !in w.failed) ==>
      && w.total <= w.maxBytes
      && (Bytes(Entries(w.files)) > w.maxBytes ==> w.total <= w.maxBytes - w.maxBytes / 10)
    ensures Remaining(w.files, Kept(w) - left) <= w.total
  {
    Fates(w);
    SumPermuted(w.order, Entries(w.files), SizeOf);
    SweepConserves(w);
    FewerStay(Entries(w.files), Kept(w), left);
    if Bytes(w.order) > w.maxBytes && w.tried == |w.order| {
      assert w.order[..w.tried] == w.order;
      if forall f :: f in w.files && Counted(f) ==> f.path !in w.failed {
        SumZero(Entries(w.files), Stays(Kept(w)));
      }
    }
  }

  /** Least recently used first: no file that the sweep removed is newer than a file that it
      left without a failed try. */
  lemma SweepIsOldestFirst(w: Sweep, f: File, g: File)
    requires Swept(w)
    requires f in w.files && Counted(f) && f.path !in Kept(w)
    requires g in w.files && Counted(g) && g.path in Kept(w) && g.path !in w.failed
    ensures f.mtime <= g.mtime
  {
    Fates(w);
    var i :| 0 <= i < |w.order| && w.order[i] == f;
    var j :| 0 <= j < |w.order| && w.order[j] == g;
    OneFate(w.order, i, w.tried, w.failed);
    OneFate(w.order, j, w.tried, w.failed);
  }

  /** The last removal among the first k tries. */
  lemma {:induction false} LastRemoved(order: seq<File>, k: nat, failed: set<string>) returns (i: nat)
    requires k <= |order| && Gone(order, k, failed) != {}
    ensures i < k && order[i].path !in failed && Freed(order, k, failed) == Freed(order, i, failed) + order[i].size
    ensures forall j :: i < j < k ==> order[j].path in failed
  {
    TryOne(order, k - 1, failed);
    if order[k - 1].path !in failed {
      i := k - 1;
    } else {
      i := LastRemoved(order, k - 1, failed);
    }
  }

  /** Nothing is removed without need: putting the last removed file back would exceed the
      target. */
  lemma SweepIsMinimal(w: Sweep) returns (last: File)
    requires Swept(w) && Gone(w.order, w.tried, w.failed) != {}
    ensures last in w.files && Counted(last) && last.path !in Kept(w)
    ensures w.total + last.size > w.maxBytes - w.maxBytes / 10
    ensures forall f :: f in w.files && Counted(f) && f.path !in Kept(w) ==> f.mtime <= last.mtime
  {
    Fates(w);
    var i := LastRemoved(w.order, w.tried, w.failed);
    last := w.order[i];
    OneFate(w.order, i, w.tried, w.failed);
    forall f | f in w.files && Counted(f) && f.path !in Kept(w) ensures f.mtime <= last.mtime {
      RemovedBefore(w.order, w.tried, w.failed, i, f);
    }
  }

  lemma RemovedBefore(order: seq<File>, tried: nat, failed: set<string>, i: nat, f: File)
    requires DistinctPaths(order) && ByTime(order) && i < tried <= |order|
    requires f in order && f.path in Gone(order, tried, failed)
    requires forall j :: i < j < tried ==> order[j].path in failed
    ensures f.mtime <= order[i].mtime
  {
    var j :| 0 <= j < |order| && order[j] == f;
    OneFate(order, j, tried, failed);
  }

  /** A file that the walk did not count is not tried. */
  lemma OnlyCountedGo(w: Sweep, p: string)
    requires Swept(w) && p in Gone(w.order, w.tried, w.failed)
    ensures exists f :: f in w.files && Counted(f) && f.path == p
  {
    Fates(w);
    var f :| f in w.order[..w.tried] && f.path == p;
    assert f in w.order;
  }

  lemma UncountedFate(w: Sweep, f: File)
    requires Swept(w) && f in w.files && !Counted(f)
    ensures f.path in Kept(w) <==> !(Stale(f, w.now, w.maxAge) && f.path !in w.stuck)
  {
    if f.path in Gone(w.order, w.tried, w.failed) {
      OnlyCountedGo(w, f.path);
      assert false;
    }
  }

  /** The version marker, fresh temporary files and everything the walk did not see stay; of
      the temporary files exactly the stale ones go. */
  lemma SweepSpares(w: Sweep)
    requires Swept(w)
    ensures forall f :: f in w.files && f.name == ".versioned-since" ==> f.path in Kept(w)
    ensures forall f :: f in w.files && |f.name| > 5 && ".tmp_" <= f.name && f.name != ".versioned-since" ==>
              (f.path in Kept(w) <==> w.now - f.mtime <= w.maxAge || f.path in w.stuck)
    ensures forall p :: p in w.before && (forall f :: f in w.files ==> f.path != p) ==> p in Kept(w)
  {
    forall f | f in w.files && !Counted(f)
      ensures f.path in Kept(w) <==> !(Stale(f, w.now, w.maxAge) && f.path !in w.stuck)
    {
      UncountedFate(w, f);
    }
    forall p | p in w.before && forall f :: f in w.files ==> f.path != p ensures p in Kept(w) {
      UnseenStays(w, p);
    }
  }

  lemma UnseenStays(w: Sweep, p: string)
    requires Swept(w) && p in w.before && forall f :: f in w.files ==> f.path != p
    ensures p in Kept(w)
  {
    if p in Gone(w.order, w.tried, w.failed) {
      OnlyCountedGo(w, p);
      assert false;
    }
  }
}
