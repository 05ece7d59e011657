/** Range headers: parseRange, the resolution in Get, and the standard they implement. */
module Range {
  import opened Base
  import opened Decimal

  // ---- parseRange ----

  const INT64_MIN: int := -INT64_MAX - 1

  /** strconv.ParseInt(s, 10, 64): an optional sign, then digits, within int64. */
  function ParseInt(s: string): Option<int> {
    var signed := s != [] && (s[0] == '+' || s[0] == '-');
    var digits := if signed then s[1..] else s;
    if !Numeral(digits) then None
    else
      var magnitude: int := Value(digits);
      var n := if signed && s[0] == '-' then -magnitude else magnitude;
      if INT64_MIN <= n <= INT64_MAX then Some(n) else None
  }

  /** end == -1: to the end of the object; suffix > 0: the last suffix bytes. */
  datatype Parsed = Malformed | Parsed(start: int, end: int, suffix: int)

  const PREFIX := "bytes="

  function ParseRange(h: string): Parsed {
    if h == "" then Parsed(0, -1, 0)
    else if !(PREFIX <= h) then Malformed
    else
      var spec := h[|PREFIX|..];
      if ',' in spec then Malformed
      else
        var dash := IndexOf(spec, '-');
        if dash == |spec| then Malformed
        else ParseParts(spec[..dash], spec[dash + 1..])
  }

  function ParseParts(a: string, b: string): Parsed {
    if a == "" then
      var n := ParseInt(b);
      if n.None? || n.value <= 0 then Malformed else Parsed(0, -1, n.value)
    else
      var start := ParseInt(a);
      if start.None? then Malformed
      else if b == "" then Parsed(start.value, -1, 0)
      else
        var end := ParseInt(b);
        if end.None? || end.value < start.value then Malformed else Parsed(start.value, end.value, 0)
  }

  // ---- the resolution in Get ----

  /** 400; 416; an empty 200; or the span that serveAligned serves. */
  datatype Answer = BadRequest | NotSatisfiable | EmptyBody | Serve(first: int, last: int)

  function Resolve(p: Parsed, size: nat, rangeRequested: bool): Answer
    requires p.Parsed?
  {
    var start := if p.suffix > 0 then (if size - p.suffix < 0 then 0 else size - p.suffix) else p.start;
    var end := if p.suffix > 0 then size - 1 else p.end;
    if rangeRequested && start >= size then NotSatisfiable
    else
      var last := if end < 0 || end > size - 1 then size - 1 else end;
      if size == 0 then EmptyBody else Serve(start, last)
  }

  /** What a GET with this Range header gets for an object of this size. */
  function Get(h: string, size: nat): Answer {
    var p := ParseRange(h);
    if p.Malformed? then BadRequest else Resolve(p, size, h != "")
  }

  // ---- the standard, RFC 9110 section 14.1.2 ----

  /** int-range with and without last-pos, and suffix-range. */
  datatype ByteRange = FromTo(first: nat, last: nat) | From(first: nat) | Suffix(n: nat)

  /** A range unit, whose name is compared without regard to case (section 14.1). */
  predicate UnitIsBytes(u: string) {
    |u| == 5 && forall k :: 0 <= k < 5 ==> Lower(u[k]) == "bytes"[k]
  }

  function Lower(c: char): char {
    if 'A' <= c <= 'Z' then (c as int - 'A' as int + 'a' as int) as char else c
  }

  /** What a recipient of a list ignores beside an element: empty elements, with their commas and
      white space (section 5.6.1.2). */
  predicate Padding(p: string) {
    p == "" || (',' in p && forall k :: 0 <= k < |p| ==> p[k] == ',' || p[k] == ' ' || p[k] == '\t')
  }

  /** int-range or suffix-range, denoting r. */
  ghost predicate SpecDenotes(spec: string, r: ByteRange) {
    match r
    case FromTo(first, last) => exists a, b :: IsFromTo(spec, a, b, first, last)
    case From(first) => exists a :: Numeral(a) && spec == a + "-" && Value(a) == first
    case Suffix(n) => exists b :: Numeral(b) && spec == "-" + b && Value(b) == n
  }

  predicate IsFromTo(spec: string, a: string, b: string, first: nat, last: nat) {
    Numeral(a) && Numeral(b) && spec == a + "-" + b && Value(a) == first && Value(b) == last
  }

  /** The header is a ranges-specifier in bytes with a single range, denoting r. */
  ghost predicate Denotes(h: string, r: ByteRange) {
    exists u, pre, spec, post :: IsSpecifier(h, u, pre, spec, post) && SpecDenotes(spec, r)
  }

  predicate IsSpecifier(h: string, u: string, pre: string, spec: string, post: string) {
    UnitIsBytes(u) && Padding(pre) && Padding(post) && h == u + "=" + pre + spec + post
  }

  /** The form that the parser knows: the unit in small letters, and no list. */
  predicate Plain(h: string) { PREFIX <= h && ',' !in h }

  /** Which positions of an object the range asks for. */
  predicate Asks(r: ByteRange, size: nat, pos: int) {
    0 <= pos < size
    && match r
       case FromTo(first, last) => first <= pos <= last
       case From(first) => first <= pos
       case Suffix(n) => size - n <= pos
  }

  /** Not an invalid int-range, nor the suffix of length zero: those the server answers
      with 400. */
  predicate Sound(r: ByteRange) {
    match r
    case FromTo(first, last) => first <= last
    case From(_) => true
    case Suffix(n) => n > 0
  }

  predicate FitsInt64(r: ByteRange) {
    match r
    case FromTo(first, last) => first <= INT64_MAX && last <= INT64_MAX
    case From(first) => first <= INT64_MAX
    case Suffix(n) => n <= INT64_MAX
  }

  /** Exactly the positions asked for are served, or 416 when there are none. */
  ghost predicate MeetsStandard(r: ByteRange, size: nat, answer: Answer) {
    if exists pos :: Asks(r, size, pos) then
      answer.Serve? && forall pos :: Asks(r, size, pos) <==> answer.first <= pos <= answer.last
    else answer.NotSatisfiable?
  }

  lemma NumeralParses(s: string)
    requires Numeral(s)
    ensures ParseInt(s) == if Value(s) <= INT64_MAX then Some(Value(s)) else None
  {
    assert IsDigit(s[0]);
  }

  lemma NoDashInNumeral(s: string)
    requires AllDigits(s)
    ensures '-' !in s && ',' !in s
  {
  }

  lemma SpecSplits(a: string, b: string)
    requires AllDigits(a) && AllDigits(b)
    ensures ParseRange(PREFIX + a + "-" + b) == ParseParts(a, b)
  {
    var h := PREFIX + a + "-" + b;
    var spec := a + "-" + b;
    assert h == PREFIX + spec;
    assert PREFIX <= h && h[|PREFIX|..] == spec;
    NoDashInNumeral(a);
    NoDashInNumeral(b);
    IndexOfJoined(a, '-', b);
  }

  /** What a range is parsed to, when it is. */
  function ParsedAs(r: ByteRange): Parsed {
    match r
    case FromTo(first, last) => Parsed(first, last, 0)
    case From(first) => Parsed(first, -1, 0)
    case Suffix(n) => Parsed(0, -1, n)
  }

  lemma SpecParses(spec: string, r: ByteRange)
    requires SpecDenotes(spec, r)
    ensures ParseRange(PREFIX + spec) == if FitsInt64(r) && Sound(r) then ParsedAs(r) else Malformed
  {
    match r
    case FromTo(first, last) =>
      var a, b :| IsFromTo(spec, a, b, first, last);
      assert PREFIX + spec == PREFIX + a + "-" + b;
      SpecSplits(a, b);
      NumeralParses(a);
      NumeralParses(b);
    case From(first) =>
      var a :| Numeral(a) && spec == a + "-" && Value(a) == first;
      assert PREFIX + spec == PREFIX + a + "-" + "";
      SpecSplits(a, "");
      NumeralParses(a);
    case Suffix(n) =>
      var b :| Numeral(b) && spec == "-" + b && Value(b) == n;
      assert PREFIX + spec == PREFIX + "" + "-" + b;
      SpecSplits("", b);
      NumeralParses(b);
  }

  /** A plain header has the unit in small letters and nothing beside its range. */
  lemma PlainIsSpec(h: string, u: string, pre: string, spec: string, post: string)
    requires IsSpecifier(h, u, pre, spec, post) && Plain(h)
    ensures h == PREFIX + spec
  {
    var front, rest := u + "=", pre + spec + post;
    assert h == front + rest;
    assert h[..6] == front == PREFIX && h[6..] == rest;
    StaysIn(pre, spec, ',');
    StaysIn(pre + spec, post, ',');
    StaysIn(front, rest, ',');
  }

  lemma StaysIn(a: string, b: string, c: char)
    ensures c in a || c in b ==> c in a + b
  {
    if i :| 0 <= i < |a| && a[i] == c {
      assert (a + b)[i] == c;
    } else if i :| 0 <= i < |b| && b[i] == c {
      assert (a + b)[|a| + i] == c;
    }
  }

  lemma OnlyPlainParses(h: string)
    requires h != "" && !Plain(h)
    ensures ParseRange(h).Malformed?
  {
    if PREFIX <= h {
      assert h == PREFIX + h[|PREFIX|..];
      assert ',' in h[|PREFIX|..];
    }
  }

  /** parseRange on every header of the grammar. */
  lemma GrammarParses(h: string, r: ByteRange)
    requires Denotes(h, r)
    ensures h != ""
    ensures ParseRange(h) == if Plain(h) && FitsInt64(r) && Sound(r) then ParsedAs(r) else Malformed
  {
    var u, pre, spec, post :| IsSpecifier(h, u, pre, spec, post) && SpecDenotes(spec, r);
    if Plain(h) {
      PlainIsSpec(h, u, pre, spec, post);
      SpecParses(spec, r);
    } else {
      OnlyPlainParses(h);
    }
  }

  /** Get after parsing is the standard's selection. */
  lemma ResolutionMeetsStandard(r: ByteRange, size: nat)
    requires Sound(r)
    ensures MeetsStandard(r, size, Resolve(ParsedAs(r), size, true))
  {
    if size > 0 {
      match r
      case FromTo(first, last) => assert first < size ==> Asks(r, size, first);
      case From(first) => assert first < size ==> Asks(r, size, first);
      case Suffix(n) => assert Asks(r, size, size - 1);
    }
  }

  /** For every header of the grammar with a single range: the answer is the standard's exactly
      when the unit is in small letters, there is no comma and the positions fit int64; the rest
      is 400, as are the invalid int-range and the suffix of length zero. */
  lemma RangeResolution(h: string, r: ByteRange, size: nat)
    requires Denotes(h, r)
    ensures Sound(r) ==> (MeetsStandard(r, size, Get(h, size)) <==> Plain(h) && FitsInt64(r))
    ensures !Sound(r) || !Plain(h) || !FitsInt64(r) <==> Get(h, size).BadRequest?
    ensures Sound(r) && Plain(h) && FitsInt64(r) ==>
      (Get(h, size).NotSatisfiable? <==> size == 0 || (!r.Suffix? && r.first >= size))
  {
    GrammarParses(h, r);
    if Sound(r) && Plain(h) && FitsInt64(r) {
      ResolutionMeetsStandard(r, size);
    }
  }

  // ---- headers of the grammar that get 400 ----

  function Print(first: nat, last: nat): string { PREFIX + Dec(first) + "-" + Dec(last) }

  lemma PrintDenotes(first: nat, last: nat, u: string, post: string, h: string)
    requires UnitIsBytes(u) && Padding(post) && h == u + "=" + (Dec(first) + "-" + Dec(last)) + post
    ensures Denotes(h, FromTo(first, last))
  {
    var spec := Dec(first) + "-" + Dec(last);
    assert IsFromTo(spec, Dec(first), Dec(last), first, last);
    assert h == u + "=" + "" + spec + post;
    assert IsSpecifier(h, u, "", spec, post);
  }

  /** bytes=0-9223372036854775808 asks for the whole object, with a last-pos just beyond int64
      that the standard clamps. */
  lemma HugeLastPosIsRefused()
    ensures var h, r := Print(0, INT64_MAX + 1), FromTo(0, INT64_MAX + 1);
            Denotes(h, r) && Sound(r) && Asks(r, 1, 0) && Get(h, 1).BadRequest?
  {
    var h, r := Print(0, INT64_MAX + 1), FromTo(0, INT64_MAX + 1);
    assert h == "bytes" + "=" + (Dec(0) + "-" + Dec(INT64_MAX + 1)) + "";
    PrintDenotes(0, INT64_MAX + 1, "bytes", "", h);
    RangeResolution(h, r, 1);
  }

  /** The same range with the unit in other letters, and with an empty list element. */
  lemma OtherFormsAreRefused()
    ensures Denotes("Bytes=0-0", FromTo(0, 0)) && Get("Bytes=0-0", 1).BadRequest?
    ensures Denotes("bytes=0-0,", FromTo(0, 0)) && Get("bytes=0-0,", 1).BadRequest?
    ensures Sound(FromTo(0, 0)) && FitsInt64(FromTo(0, 0)) && Asks(FromTo(0, 0), 1, 0)
  {
    assert Dec(0) == "0";
    assert "Bytes=0-0" == "Bytes" + "=" + (Dec(0) + "-" + Dec(0)) + "";
    PrintDenotes(0, 0, "Bytes", "", "Bytes=0-0");
    assert "bytes=0-0," == "bytes" + "=" + (Dec(0) + "-" + Dec(0)) + ",";
    PrintDenotes(0, 0, "bytes", ",", "bytes=0-0,");
    assert "Bytes=0-0"[0] == 'B' && "bytes=0-0,"[9] == ',';
    RangeResolution("Bytes=0-0", FromTo(0, 0), 1);
    RangeResolution("bytes=0-0,", FromTo(0, 0), 1);
  }

  // ---- any header at all ----

  /** What ParseInt takes for a number that is not negative: 1*DIGIT and, beyond the grammar,
      a sign - a minus only before zeros. */
  predicate SignedNumeral(s: string) {
    || Numeral(s)
    || (s != [] && s[0] == '+' && Numeral(s[1..]))
    || (s != [] && s[0] == '-' && Numeral(s[1..]) && Value(s[1..]) == 0)
  }

  function SignedValue(s: string): nat
    requires SignedNumeral(s)
  {
    if Numeral(s) then Value(s) else Value(s[1..])
  }

  /** The two forms that are accepted. */
  predicate Acceptable(a: string, b: string) {
    if a == "" then SignedNumeral(b) && 0 < SignedValue(b) <= INT64_MAX
    else
      && '-' !in a && SignedNumeral(a) && SignedValue(a) <= INT64_MAX
      && (b == "" || (SignedNumeral(b) && SignedValue(a) <= SignedValue(b) <= INT64_MAX))
  }

  lemma SignedParses(s: string)
    ensures ParseInt(s).Some? && ParseInt(s).value >= 0 <==> SignedNumeral(s) && SignedValue(s) <= INT64_MAX
    ensures SignedNumeral(s) && SignedValue(s) <= INT64_MAX ==> ParseInt(s) == Some(SignedValue(s))
  {
    if Numeral(s) {
      NumeralParses(s);
    }
  }

  lemma NoCommaInSigned(s: string)
    requires s == "" || SignedNumeral(s)
    ensures ',' !in s
  {
    if s != "" && !Numeral(s) {
      NoDashInNumeral(s[1..]);
      assert s == [s[0]] + s[1..];
    }
  }

  lemma PartsAccepted(a: string, b: string)
    requires '-' !in a
    ensures ParseParts(a, b).Parsed? <==> Acceptable(a, b)
  {
    SignedParses(a);
    SignedParses(b);
    assert a != "" ==> a[0] in a;
  }

  /** Which headers are not refused: none at all, or one range of either form with positions
      in int64, last not before first, and a suffix that is not zero. */
  lemma AcceptedExactly(h: string)
    ensures ParseRange(h).Parsed? <==> h == "" || exists a, b :: h == PREFIX + a + "-" + b && Acceptable(a, b)
  {
    if ParseRange(h).Parsed? && h != "" {
      var spec := h[|PREFIX|..];
      var dash := IndexOf(spec, '-');
      PartsAccepted(spec[..dash], spec[dash + 1..]);
      assert h == PREFIX + spec[..dash] + "-" + spec[dash + 1..];
    }
    forall a, b | h == PREFIX + a + "-" + b && Acceptable(a, b)
      ensures ParseRange(h).Parsed?
    {
      AcceptableMeans(h, a, b);
    }
  }

  /** What an acceptable header's numbers mean. */
  lemma AcceptableMeans(h: string, a: string, b: string)
    requires h == PREFIX + a + "-" + b && Acceptable(a, b)
    ensures ParseRange(h) == if a == "" then Parsed(0, -1, SignedValue(b))
                             else Parsed(SignedValue(a), if b == "" then -1 else SignedValue(b), 0)
  {
    NoCommaInSigned(a);
    NoCommaInSigned(b);
    var spec := a + "-" + b;
    assert h == PREFIX + spec;
    assert PREFIX <= h && h[|PREFIX|..] == spec;
    IndexOfJoined(a, '-', b);
    SignedParses(a);
    SignedParses(b);
  }

  /** The range that an accepted header asks for. */
  function AskedBy(p: Parsed): ByteRange
    requires p.Parsed? && p.start >= 0 && p.suffix >= 0 && p.end >= -1
  {
    if p.suffix > 0 then Suffix(p.suffix)
    else if p.end < 0 then From(p.start) else FromTo(p.start, p.end)
  }

  /** For every header that is not refused, of the grammar or not: the positions it asks for are
      served, and 416 is answered exactly when there are none. */
  lemma AcceptedResolution(h: string, size: nat)
    requires h != "" && ParseRange(h).Parsed?
    ensures var p := ParseRange(h);
            p.start >= 0 && p.suffix >= 0 && p.end >= -1 && MeetsStandard(AskedBy(p), size, Get(h, size))
  {
    AcceptedIsInBounds(h);
    ResolutionMeetsStandard(AskedBy(ParseRange(h)), size);
  }

  /** Without a Range header the whole object is served, and never 416. */
  lemma PlainGet(size: nat)
    ensures Get("", size) == if size == 0 then EmptyBody else Serve(0, size - 1)
  {
  }

  /** Whatever the header, an accepted one gives positions in order and inside int64, and one
      of its two forms. */
  lemma AcceptedIsInBounds(h: string)
    requires ParseRange(h).Parsed?
    ensures var p := ParseRange(h);
            && 0 <= p.start <= INT64_MAX && 0 <= p.suffix <= INT64_MAX
            && (p.end == -1 || p.start <= p.end <= INT64_MAX)
            && (p.suffix > 0 ==> p.start == 0 && p.end == -1)
  {
    if h != "" {
      var spec := h[|PREFIX|..];
      var dash := IndexOf(spec, '-');
      if dash > 0 {
        assert spec[..dash][0] != '-';
      }
    }
  }

  /** What Get hands to serveAligned lies inside the object, for any header. */
  lemma ServedSpanIsInObject(h: string, size: nat)
    requires Get(h, size).Serve?
    ensures 0 <= Get(h, size).first <= Get(h, size).last < size
    ensures h == "" ==> Get(h, size) == Serve(0, size - 1)
  {
    AcceptedIsInBounds(h);
  }

  // ---- round trip ----

  /** Printing a span and parsing it again gives it back. */
  lemma PrintParses(first: nat, last: nat)
    requires first <= last <= INT64_MAX
    ensures ParseRange(Print(first, last)) == Parsed(first, last, 0)
  {
    SpecSplits(Dec(first), Dec(last));
    NumeralParses(Dec(first));
    NumeralParses(Dec(last));
  }

  /** The span served for any header, asked for again in print, is served again. */
  lemma ServedSpanReparses(h: string, size: nat)
    requires Get(h, size).Serve? && size <= INT64_MAX
    ensures Get(Print(Get(h, size).first, Get(h, size).last), size) == Get(h, size)
  {
    ServedSpanIsInObject(h, size);
    PrintParses(Get(h, size).first, Get(h, size).last);
  }
}
