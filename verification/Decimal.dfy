/** Decimal notation: the digits of chunk names, flight keys and Range headers. */
module Decimal {
  import opened Base

  predicate IsDigit(c: char) { '0' <= c <= '9' }

  predicate AllDigits(s: string) { forall k :: 0 <= k < |s| ==> IsDigit(s[k]) }

  /** 1*DIGIT. */
  predicate Numeral(s: string) { s != [] && AllDigits(s) }

  function DigitChar(d: nat): char
    requires d < 10
  {
    ('0' as int + d) as char
  }

  /** The number that a string of digits denotes, leading zeros allowed. */
  function Value(s: string): nat
    requires AllDigits(s)
  {
    if s == [] then 0 else Value(s[..|s| - 1]) * 10 + (s[|s| - 1] as int - '0' as int)
  }

  /** Shortest notation of n. */
  function Dec(n: nat): (s: string)
    ensures Numeral(s) && Value(s) == n
    ensures n > 0 ==> s[0] != '0'
  {
    if n < 10 then [DigitChar(n)] else Dec(n / 10) + [DigitChar(n % 10)]
  }

  lemma DecInjective(m: nat, n: nat)
    requires Dec(m) == Dec(n)
    ensures m == n
  {
    assert Value(Dec(m)) == Value(Dec(n));
  }

  // ---- splitting at the first separator ----

  /** Position of the first c in s, or |s|. */
  function IndexOf(s: string, c: char): (i: nat)
    ensures i <= |s| && c !in s[..i]
    ensures i < |s| ==> s[i] == c
  {
    if s == [] || s[0] == c then 0
    else
      var i := 1 + IndexOf(s[1..], c);
      assert s[..i] == [s[0]] + s[1..][..i - 1];
      i
  }

  /** Whatever is put before and after a separator comes back apart, if the first part has
      none. */
  lemma IndexOfJoined(a: string, c: char, b: string)
    requires c !in a
    ensures var s := a + [c] + b; IndexOf(s, c) == |a| && s[..|a|] == a && s[|a| + 1..] == b
  {
    var s := a + [c] + b;
    var i := IndexOf(s, c);
    assert forall k :: 0 <= k < |a| ==> s[k] != c by {
      assert forall k :: 0 <= k < |a| ==> s[k] == a[k] && a[k] in a;
    }
    assert s[|a|] == c;
    assert forall k :: 0 <= k < i ==> s[k] != c by {
      assert forall k :: 0 <= k < i ==> s[k] == s[..i][k] && s[..i][k] in s[..i];
    }
    assert s[|a| + 1..] == b;
  }
}
