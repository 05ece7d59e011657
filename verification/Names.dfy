/** What chunk names say: the cache file's path and the flight's key each determine object key,
    version and offset - which the protocol takes for granted when it uses chunk ids for
    both. */
module Names {
  import opened Base
  import opened Decimal
  import opened Protocol

  // ---- cache files ----

  const HEX_LENGTH: nat := 40

  /** Two strings that the hash, in hexadecimal, confuses. */
  predicate Collide(sha1: string -> string, s: string, t: string) { s != t && sha1(s) == sha1(t) }

  /** An object without an ETag has the name from before versioning. */
  function ChunkName(id: ChunkId): string {
    id.ver.key + ":" + Dec(id.off) + if id.ver.etag == "" then "" else ":" + id.ver.etag
  }

  /** DiskCache.path; root says which shard root a key's hash goes to. */
  function FilePath(sha1: string -> string, root: string -> string, id: ChunkId): string
    requires forall s :: |sha1(s)| == HEX_LENGTH
  {
    var h := sha1(id.ver.key);
    root(h) + "/" + h[..2] + "/" + h + "/" + sha1(ChunkName(id))
  }

  /** A chunk's file lies under the shard root of its key. */
  lemma PathUnderRoot(sha1: string -> string, root: string -> string, id: ChunkId)
    requires forall s :: |sha1(s)| == HEX_LENGTH
    ensures root(sha1(id.ver.key)) + "/" <= FilePath(sha1, root, id)
    ensures |FilePath(sha1, root, id)| == |root(sha1(id.ver.key))| + 2 * HEX_LENGTH + 5
  {
    var h := sha1(id.ver.key);
    assert FilePath(sha1, root, id) == (root(h) + "/") + (h[..2] + "/" + h + "/" + sha1(ChunkName(id)));
  }

  lemma SameTail(a: string, b: string, c: string, d: string)
    requires a + b == c + d && |b| == |d|
    ensures a == c && b == d
  {
    assert (a + b)[|a|..] == b && (c + d)[|c|..] == d;
    assert (a + b)[..|a|] == a && (c + d)[..|c|] == c;
  }

  lemma SameHead(a: string, b: string, c: string, d: string)
    requires a + b == c + d && |a| == |c|
    ensures a == c && b == d
  {
    assert |b| == |d|;
    SameTail(a, b, c, d);
  }

  /** Everything from the offset on. */
  function OffsetAndTag(id: ChunkId): string {
    Dec(id.off) + if id.ver.etag == "" then "" else ":" + id.ver.etag
  }

  lemma DigitsHaveNo(s: string, c: char)
    requires AllDigits(s) && !IsDigit(c)
    ensures c !in s
  {
  }

  lemma OffsetAndTagInjective(a: ChunkId, b: ChunkId)
    requires OffsetAndTag(a) == OffsetAndTag(b)
    ensures a.off == b.off && a.ver.etag == b.ver.etag
  {
    TagFound(a);
    TagFound(b);
    DecInjective(a.off, b.off);
  }

  /** The offset ends at the first colon, and the tag begins there. */
  lemma TagFound(id: ChunkId)
    ensures var s := OffsetAndTag(id);
            && s[..IndexOf(s, ':')] == Dec(id.off)
            && id.ver.etag == if IndexOf(s, ':') == |s| then "" else s[IndexOf(s, ':') + 1..]
    ensures var s := OffsetAndTag(id); IndexOf(s, ':') == |s| <==> id.ver.etag == ""
  {
    var s := OffsetAndTag(id);
    DigitsHaveNo(Dec(id.off), ':');
    if id.ver.etag == "" {
      assert s == Dec(id.off);
    } else {
      assert s == Dec(id.off) + ":" + id.ver.etag;
      IndexOfJoined(Dec(id.off), ':', id.ver.etag);
    }
  }

  lemma ChunkNameInjective(a: ChunkId, b: ChunkId)
    requires a.ver.key == b.ver.key && ChunkName(a) == ChunkName(b)
    ensures a == b
  {
    assert ChunkName(a) == (a.ver.key + ":") + OffsetAndTag(a);
    assert ChunkName(b) == (b.ver.key + ":") + OffsetAndTag(b);
    SameHead(a.ver.key + ":", OffsetAndTag(a), b.ver.key + ":", OffsetAndTag(b));
    OffsetAndTagInjective(a, b);
  }

  /** Two chunks have one path exactly if both hashes agree: the hash of the key, which names
      the directory, and that of the chunk name. */
  lemma SamePath(sha1: string -> string, root: string -> string, a: ChunkId, b: ChunkId)
    requires forall s :: |sha1(s)| == HEX_LENGTH
    ensures FilePath(sha1, root, a) == FilePath(sha1, root, b)
       <==> sha1(a.ver.key) == sha1(b.ver.key) && sha1(ChunkName(a)) == sha1(ChunkName(b))
  {
    var ha, hb := sha1(a.ver.key), sha1(b.ver.key);
    if FilePath(sha1, root, a) == FilePath(sha1, root, b) {
      var dirA, dirB := root(ha) + "/" + ha[..2] + "/" + ha, root(hb) + "/" + hb[..2] + "/" + hb;
      SameTail(dirA + "/", sha1(ChunkName(a)), dirB + "/", sha1(ChunkName(b)));
      SameTail(dirA, "/", dirB, "/");
      SameTail(root(ha) + "/" + ha[..2] + "/", ha, root(hb) + "/" + hb[..2] + "/", hb);
    }
  }

  /** Chunk paths are injective in key, offset and ETag, whatever characters keys and tags
      contain: two chunks share a path only by a collision of the hash on their keys or on
      their names. */
  lemma PathsInjective(sha1: string -> string, root: string -> string, a: ChunkId, b: ChunkId)
    requires forall s :: |sha1(s)| == HEX_LENGTH
    ensures FilePath(sha1, root, a) == FilePath(sha1, root, b) && a != b ==>
      Collide(sha1, a.ver.key, b.ver.key) || Collide(sha1, ChunkName(a), ChunkName(b))
  {
    SamePath(sha1, root, a, b);
    if a.ver.key == b.ver.key && ChunkName(a) == ChunkName(b) {
      ChunkNameInjective(a, b);
    }
  }

  /** On any chunks whose keys and names the hash does not confuse, a path is as good as the
      chunk id that the protocol uses for it. */
  lemma PathsAreIds(sha1: string -> string, root: string -> string, used: set<ChunkId>)
    requires forall s :: |sha1(s)| == HEX_LENGTH
    requires forall a, b | a in used && b in used ::
               !Collide(sha1, a.ver.key, b.ver.key) && !Collide(sha1, ChunkName(a), ChunkName(b))
    ensures forall a, b | a in used && b in used ::
              FilePath(sha1, root, a) == FilePath(sha1, root, b) <==> a == b
  {
    forall a, b | a in used && b in used
      ensures FilePath(sha1, root, a) == FilePath(sha1, root, b) <==> a == b
    {
      PathsInjective(sha1, root, a, b);
    }
  }

  /** The chunk name alone would not do: the key's own directory is needed. */
  lemma NameAloneIsAmbiguous()
    ensures exists a: ChunkId, b: ChunkId :: a != b && ChunkName(a) == ChunkName(b)
  {
    var a, b := ChunkId(Version("k:1", "e"), 2), ChunkId(Version("k", "2:e"), 1);
    assert Dec(1) == "1" && Dec(2) == "2";
    assert ChunkName(a) == "k:1:2:e" && ChunkName(b) == "k:1:2:e";
    assert a.off != b.off;
  }

  // ---- flights ----

  /** The key of a flight, and of readahead's own set. */
  function FlightKey(id: ChunkId): string {
    id.ver.key + "/" + Dec(id.off) + "/" + id.ver.etag
  }

  /** Key and offset, without a tag. */
  function Stem(id: ChunkId): string { id.ver.key + "/" + Dec(id.off) }

  // ---- when flight keys collide ----

  predicate EndsWith(s: string, t: string) { |t| <= |s| && s[|s| - |t|..] == t }

  /** Read from its end, tag e looks like offset o and tag f: what is before them in e could
      belong to the key. */
  predicate ExtendsBy(e: string, f: string, o: nat) {
    e == Dec(o) + "/" + f || EndsWith(e, "/" + Dec(o) + "/" + f)
  }

  ghost predicate Extends(e: string, f: string) { exists o: nat :: ExtendsBy(e, f, o) }

  /** Two chunks with these tags have one flight key. */
  ghost predicate KeysCollide(e: string, f: string) {
    exists a: ChunkId, b: ChunkId :: Mistaken(a, b, e, f)
  }

  predicate Mistaken(a: ChunkId, b: ChunkId, e: string, f: string) {
    a != b && a.ver.etag == e && b.ver.etag == f && FlightKey(a) == FlightKey(b)
  }

  /** Versions of one tag are kept apart whatever the tag looks like. */
  lemma SameTagInjective(a: ChunkId, b: ChunkId)
    requires a.ver.etag == b.ver.etag && FlightKey(a) == FlightKey(b)
    ensures a == b
  {
    SameTail(Stem(a) + "/", a.ver.etag, Stem(b) + "/", b.ver.etag);
    SameTail(Stem(a), "/", Stem(b), "/");
    StemInjective(a, b);
  }

  lemma StemInjective(a: ChunkId, b: ChunkId)
    requires Stem(a) == Stem(b)
    ensures a.ver.key == b.ver.key && a.off == b.off
  {
    NoSlashBefore(Stem(a), a);
    NoSlashBefore(Stem(b), b);
    SameTail(a.ver.key + "/", Dec(a.off), b.ver.key + "/", Dec(b.off));
    SameTail(a.ver.key, "/", b.ver.key, "/");
    DecInjective(a.off, b.off);
  }

  /** The last slash of a stem stands before the offset. */
  lemma NoSlashBefore(s: string, id: ChunkId)
    requires s == Stem(id)
    ensures s[|id.ver.key|] == '/' && forall k :: |id.ver.key| < k < |s| ==> s[k] != '/'
  {
    DigitsHaveNo(Dec(id.off), '/');
    assert forall k :: |id.ver.key| < k < |s| ==>
             s[k] == Dec(id.off)[k - |id.ver.key| - 1] && s[k] in Dec(id.off);
  }

  lemma TailEndsWith(s: string, i: nat, j: nat)
    requires i <= j <= |s|
    ensures EndsWith(s[i..], s[j..])
  {
    assert s[i..][j - i..] == s[j..];
  }

  /** A stem split at a slash: what follows is the offset, or ends with a slash and the
      offset. */
  lemma StemSplit(id: ChunkId, front: string, rest: string)
    requires Stem(id) == front + "/" + rest
    ensures rest == Dec(id.off) || EndsWith(rest, "/" + Dec(id.off))
  {
    var s, n := Stem(id), |id.ver.key|;
    NoSlashBefore(s, id);
    assert s == (front + "/") + rest && s == (id.ver.key + "/") + Dec(id.off);
    assert s[|front|] == '/';
    assert s[|front| + 1..] == rest && s[n + 1..] == Dec(id.off) && s[n..] == "/" + Dec(id.off);
    if |front| < n {
      TailEndsWith(s, |front| + 1, n);
    }
  }

  /** The chunk with the shorter tag: its offset, and perhaps part of its key, lie in the longer
      tag. */
  lemma LongerTagExtends(a: ChunkId, b: ChunkId)
    requires FlightKey(a) == FlightKey(b) && |a.ver.etag| < |b.ver.etag|
    ensures ExtendsBy(b.ver.etag, a.ver.etag, a.off)
  {
    var ea, eb := a.ver.etag, b.ver.etag;
    var q, tail := eb[..|eb| - |ea|], eb[|eb| - |ea|..];
    assert eb == q + tail;
    assert FlightKey(b) == (Stem(b) + "/" + q) + tail;
    SameTail(Stem(a) + "/", ea, Stem(b) + "/" + q, tail);
    var n := |q| - 1;
    assert (Stem(a) + "/")[|Stem(a)|] == '/' == (Stem(b) + "/" + q)[|Stem(b)| + 1 + n];
    assert q == q[..n] + "/";
    assert Stem(b) + "/" + q == (Stem(b) + "/" + q[..n]) + "/";
    SameTail(Stem(a), "/", Stem(b) + "/" + q[..n], "/");
    StemSplit(a, Stem(b), q[..n]);
    assert eb == q[..n] + "/" + ea;
    if EndsWith(q[..n], "/" + Dec(a.off)) {
      Extended(q[..n], "/" + Dec(a.off), "/" + ea);
      assert "/" + Dec(a.off) + "/" + ea == ("/" + Dec(a.off)) + ("/" + ea);
      assert eb == q[..n] + ("/" + ea);
    }
  }

  lemma Extended(s: string, t: string, more: string)
    requires EndsWith(s, t)
    ensures EndsWith(s + more, t + more)
  {
  }

  /** The key that takes a longer tag for offset and tag: the longer tag is p, which ends in a
      slash if it is not empty, and what the shorter chunk needs. */
  lemma ExtensionMistaken(e: string, f: string, p: string, o: nat)
    requires e == p + (Dec(o) + "/" + f) && (p == "" || p[|p| - 1] == '/')
    ensures KeysCollide(e, f)
  {
    var front := "k/" + Dec(1) + "/" + p;
    var key := front[..|front| - 1];
    assert front == key + "/";
    var a, b := ChunkId(Version("k", e), 1), ChunkId(Version(key, f), o);
    assert FlightKey(a) == front + (Dec(o) + "/" + f);
    assert FlightKey(b) == front + (Dec(o) + "/" + f);
    assert |e| > |f|;
    assert Mistaken(a, b, e, f);
  }

  lemma ExtensionCollides(e: string, f: string)
    requires Extends(e, f)
    ensures KeysCollide(e, f)
  {
    var o: nat :| ExtendsBy(e, f, o);
    var rest := Dec(o) + "/" + f;
    if e == rest {
      ExtensionMistaken(e, f, "", o);
    } else {
      assert "/" + Dec(o) + "/" + f == "/" + rest;
      assert e == e[..|e| - |rest|] + rest;
      ExtensionMistaken(e, f, e[..|e| - |rest|], o);
    }
  }

  /** Flight keys of chunks with two tags can collide exactly if one tag extends the other. */
  lemma KeysCollideExactly(e: string, f: string)
    ensures KeysCollide(e, f) <==> Extends(e, f) || Extends(f, e)
  {
    if Extends(e, f) {
      ExtensionCollides(e, f);
    }
    if Extends(f, e) {
      ExtensionCollides(f, e);
      var b: ChunkId, a: ChunkId :| Mistaken(b, a, f, e);
      assert Mistaken(a, b, e, f);
    }
    forall a: ChunkId, b: ChunkId | Mistaken(a, b, e, f) ensures Extends(e, f) || Extends(f, e) {
      if |e| == |f| {
        SameTail(Stem(a) + "/", e, Stem(b) + "/", f);
        SameTagInjective(a, b);
      } else if |e| < |f| {
        LongerTagExtends(a, b);
      } else {
        LongerTagExtends(b, a);
      }
    }
  }

  /** Within tags that do not extend each other a flight key is as good as the chunk id that
      the protocol uses for it. */
  lemma KeysAreIds(used: set<ChunkId>)
    requires forall a, b | a in used && b in used :: !Extends(a.ver.etag, b.ver.etag)
    ensures forall a, b | a in used && b in used :: FlightKey(a) == FlightKey(b) <==> a == b
  {
    forall a, b | a in used && b in used && FlightKey(a) == FlightKey(b) ensures a == b {
      KeysCollideExactly(a.ver.etag, b.ver.etag);
      assert !KeysCollide(a.ver.etag, b.ver.etag);
      assert !Mistaken(a, b, a.ver.etag, b.ver.etag);
    }
  }

  /** A tag without quotes could be taken for part of the offset. */
  lemma BareTagsCollide()
    ensures KeysCollide("2/e", "e")
  {
    assert Dec(2) == "2";
    assert ExtendsBy("2/e", "e", 2);
    KeysCollideExactly("2/e", "e");
  }

  // ---- tags as the standard writes them ----

  predicate EtagChar(c: char) { c == '!' || ('#' <= c && c != 0x7f as char) }

  predicate Weak(s: string) { |s| >= 2 && s[0] == 'W' && s[1] == '/' }

  function Quoted(etag: string): string { if Weak(etag) then etag[2..] else etag }

  /** entity-tag of RFC 9110 section 8.8.3: an optional W/ and an opaque-tag in quotes. */
  predicate EntityTag(s: string) {
    var quoted := Quoted(s);
    && |quoted| >= 2 && quoted[0] == '"' && quoted[|quoted| - 1] == '"'
    && forall k :: 1 <= k < |quoted| - 1 ==> EtagChar(quoted[k])
  }

  predicate WellTagged(etag: string) { etag == "" || EntityTag(etag) }

  /** A quote stands at the end, and before that only behind an optional W/. */
  lemma QuotesOf(e: string)
    requires EntityTag(e)
    ensures e[0] == 'W' || e[0] == '"'
    ensures e[|e| - 1] == '"' && exists k :: 0 <= k <= 2 && k < |e| - 1 && e[k] == '"'
    ensures forall k :: 0 <= k < |e| - 1 && e[k] == '"' ==> k <= 2
  {
    var p := if Weak(e) then 2 else 0;
    assert e[p] == Quoted(e)[0] == '"';
    assert forall k :: p < k < |e| - 1 ==> e[k] == Quoted(e)[k - p] && EtagChar(Quoted(e)[k - p]);
  }

  /** Such tags do not extend each other: an offset cannot stand between a tag's quotes and its
      own beginning. */
  lemma WellTaggedDoNotExtend(e: string, f: string)
    requires WellTagged(e) && WellTagged(f)
    ensures !Extends(e, f)
  {
    forall o: nat ensures !ExtendsBy(e, f, o) {
      var rest := Dec(o) + "/" + f;
      assert rest[0] == Dec(o)[0] && IsDigit(rest[0]);
      if e != "" {
        QuotesOf(e);
        if f == "" {
          assert rest[|rest| - 1] == '/' && ("/" + rest)[|rest|] == '/';
        } else {
          NotBehindNumber(e, f, o);
        }
      }
    }
  }

  lemma NotBehindNumber(e: string, f: string, o: nat)
    requires EntityTag(e) && EntityTag(f)
    ensures !EndsWith(e, "/" + Dec(o) + "/" + f)
  {
    QuotesOf(f);
    var rest := "/" + Dec(o) + "/" + f;
    var k :| 0 <= k <= 2 && k < |f| - 1 && f[k] == '"';
    QuoteNotInside(e, rest, |rest| - |f| + k);
  }

  lemma QuoteNotInside(e: string, rest: string, j: nat)
    requires EntityTag(e) && 2 < j < |rest| - 1 && rest[j] == '"'
    ensures !EndsWith(e, rest)
  {
    QuotesOf(e);
    if |rest| <= |e| {
      assert e[|e| - |rest|..][j] == e[|e| - |rest| + j];
    }
  }

  /** Flight keys are injective for tags as the standard writes them, even with slashes in
      keys and tags. */
  lemma FlightKeysInjective(a: ChunkId, b: ChunkId)
    requires WellTagged(a.ver.etag) && WellTagged(b.ver.etag) && FlightKey(a) == FlightKey(b)
    ensures a == b
  {
    WellTaggedDoNotExtend(a.ver.etag, b.ver.etag);
    WellTaggedDoNotExtend(b.ver.etag, a.ver.etag);
    KeysCollideExactly(a.ver.etag, b.ver.etag);
    assert a != b ==> Mistaken(a, b, a.ver.etag, b.ver.etag);
  }
}
