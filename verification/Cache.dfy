/** DiskCache: versioned chunk files, the version marker of each shard root, and the rule for
    chunks cached before versioning. Opens, writes and marker creation may fail. */
module Cache {
  import opened Base
  import opened Protocol

  /** The name a chunk had before versioning: no tag. */
  function LegacyName(id: ChunkId): ChunkId { ChunkId(Version(id.ver.key, ""), id.off) }

  datatype Lookup = Miss | IoError | Hit(name: ChunkId, data: seq<Byte>)

  /** Opening a name. denied: names that exist or not, but whose opening fails otherwise. */
  function Open(files: map<ChunkId, seq<Byte>>, denied: set<ChunkId>, name: ChunkId): Lookup {
    if name in denied then IoError
    else if name in files then Hit(name, files[name])
    else Miss
  }

  /** The object has, as far as anyone knows, not changed since the shard began to version. */
  predicate TrustsLegacy(since: Option<int>, modified: Option<int>) {
    since.None? || modified.None? || modified.value < since.value
  }

  /** What Get finds, given the marker time of the chunk's shard. */
  function Find(files: map<ChunkId, seq<Byte>>, denied: set<ChunkId>, id: ChunkId,
                modified: Option<int>, since: Option<int>): Lookup
  {
    var found := Open(files, denied, id);
    if found.Miss? && id.ver.etag != "" && TrustsLegacy(since, modified)
    then Open(files, denied, LegacyName(id)) else found
  }

  /** Bytes cached before versioning are served for a versioned object exactly when it has no
      chunk of its own and could not have changed since: with a known marker and a reported
      modification time at or after it, never. */
  lemma LegacyExactlyWhenUnchanged(files: map<ChunkId, seq<Byte>>, denied: set<ChunkId>, id: ChunkId,
                                   modified: Option<int>, since: Option<int>)
    requires id.ver.etag != ""
    ensures var found := Find(files, denied, id, modified, since);
            && (found.Hit? ==> found.name == id || found.name == LegacyName(id))
            && (found.Hit? && found.name != id <==>
                  id !in files && id !in denied && LegacyName(id) in files && LegacyName(id) !in denied
                  && TrustsLegacy(since, modified))
            && (since.Some? && modified.Some? && modified.value >= since.value && found.Hit? ==>
                  found == Hit(id, files[id]))
  {
    assert LegacyName(id) != id;
  }

  /** A chunk put under a version is found with these bytes, and no other lookup changes. */
  lemma PutIsFoundAlone(files: map<ChunkId, seq<Byte>>, denied: set<ChunkId>, id: ChunkId, data: seq<Byte>,
                        other: ChunkId, modified: Option<int>, since: Option<int>)
    requires id !in denied && id.ver.etag != ""
    ensures Find(files[id := data], denied, id, modified, since) == Hit(id, data)
    ensures other != id ==>
      Find(files[id := data], denied, other, modified, since) == Find(files, denied, other, modified, since)
  {
    assert LegacyName(other) != id;
  }

  // ---- version markers ----

  /** A shard root's marker file. */
  datatype Marker = Absent | Unreadable | Holds(time: int)

  function MarkerOf(markers: map<string, Marker>, root: string): Marker {
    if root in markers then markers[root] else Absent
  }

  /** readOrCreateMarker, on a root that can be written or not: its answer, and the marker it
      leaves. */
  function ReadOrCreate(m: Marker, writable: bool, now: int): (Option<int>, Marker) {
    match m
    case Holds(time) => (Some(time), m)
    case Unreadable => (None, m)
    case Absent => if writable then (Some(now), Holds(now)) else (None, Absent)
  }

  /** What can go wrong in Put: no directory or temporary file; a write that ends after n bytes;
      no rename; the process dying after n bytes. */
  datatype Fault = NoFault | NoTemp | ShortWrite(n: nat) | NoRename | Killed(n: nat)

  class DiskCache {
    const root: string -> string        // shard root of a key
    const denied: set<ChunkId>
    const writable: set<string>
    var files: map<ChunkId, seq<Byte>>
    var temps: map<nat, seq<Byte>>      // temporary files
    var nextTemp: nat
    var touched: map<ChunkId, int>      // modification times, which eviction goes by
    var markers: map<string, Marker>
    var since: map<string, Option<int>> // remembered marker times; None: unknown

    /** A process starting on what earlier ones left. */
    constructor (root: string -> string, denied: set<ChunkId>, writable: set<string>,
                 files: map<ChunkId, seq<Byte>>, temps: map<nat, seq<Byte>>, nextTemp: nat,
                 touched: map<ChunkId, int>, markers: map<string, Marker>)
      requires (forall id :: id in files ==> id in touched) && (forall n :: n in temps ==> n < nextTemp)
      ensures Valid() && since == map[]
      ensures this.root == root && this.denied == denied && this.writable == writable
      ensures this.files == files && this.temps == temps && this.touched == touched && this.markers == markers
    {
      this.root, this.denied, this.writable := root, denied, writable;
      this.files, this.touched, this.markers, since := files, touched, markers, map[];
      this.temps, this.nextTemp := temps, nextTemp;
    }

    /** A remembered time is the one on disk, so another process will read the same. */
    ghost predicate Valid()
      reads this
    {
      && (forall r :: r in since && since[r].Some? ==> r in markers && markers[r] == Holds(since[r].value))
      && (forall id :: id in files ==> id in touched)
      && (forall n :: n in temps ==> n < nextTemp)
    }

    /** The marker time that calls for key use from now on. */
    function Since(key: string, now: int): Option<int>
      reads this
    {
      if root(key) in since then since[root(key)]
      else ReadOrCreate(MarkerOf(markers, root(key)), root(key) in writable, now).0
    }

    /** Not asked about yet, the shard root of key has a readable marker, and the object is
        reported not to be older than it. */
    predicate Dated(key: string, modified: Option<int>)
      reads this
    {
      && root(key) !in since && root(key) in markers && markers[root(key)].Holds?
      && modified.Some? && modified.value >= markers[root(key)].time
    }

    /** What any operation leaves alone: remembered times, known and unknown, and markers on
        disk that hold a time. */
    twostate predicate MarkersKept()
      reads this
    {
      && (forall r :: r in old(since) ==> r in since && since[r] == old(since)[r])
      && (forall r :: r in old(markers) && old(markers)[r].Holds? ==> r in markers && markers[r] == old(markers)[r])
    }

    method MarkerTime(key: string, now: int) returns (t: Option<int>)
      requires Valid()
      modifies this`since, this`markers
      ensures Valid() && MarkersKept()
      ensures t == old(Since(key, now)) && since == old(since)[root(key) := t]
      ensures root(key) in old(since) ==> t == old(since)[root(key)] && markers == old(markers)
      // the first use of a shard root
      ensures root(key) !in old(since) && root(key) in old(markers) && old(markers)[root(key)].Holds? ==>
                t == Some(old(markers)[root(key)].time)
      ensures root(key) !in old(since) && root(key) !in old(markers) && root(key) in writable ==>
                t == Some(now) && markers == old(markers)[root(key) := Holds(now)]
      ensures root(key) !in old(since) && root(key) !in old(markers) && root(key) !in writable ==>
                t == None && forall time :: MarkerOf(markers, root(key)) != Holds(time)
      ensures root(key) !in old(since) && root(key) in old(markers) && old(markers)[root(key)].Unreadable? ==>
                t == None && markers == old(markers)
    {
      var r := root(key);
      if r in since {
        t := since[r];
        assert since == since[r := t];
        return;
      }
      var found := ReadOrCreate(MarkerOf(markers, r), r in writable, now);
      t := found.0;
      markers := markers[r := found.1];
      since := since[r := t];
    }

    /** Get. A hit moves the file to the young end of the eviction order. */
    method Get(id: ChunkId, modified: Option<int>, now: int) returns (found: Lookup)
      requires Valid()
      modifies this
      ensures Valid() && MarkersKept() && files == old(files) && temps == old(temps)
      ensures found == Find(files, denied, id, modified, old(Since(id.ver.key, now)))
      ensures found.Hit? ==>
        && (found.name == id || found.name == ChunkId(Version(id.ver.key, ""), id.off))
        && found.name in files && found.data == files[found.name]
      ensures id.ver.etag != "" ==>
        (found.Hit? && found.name != id <==>
           && id !in files && id !in denied && LegacyName(id) in files && LegacyName(id) !in denied
           && var since := old(Since(id.ver.key, now));
              since == None || modified == None || modified.value < since.value)
      ensures id in denied ==> found == IoError
      // bytes from before a re-upload: never, if its time is reported and the marker is readable
      ensures id.ver.etag != "" && old(Dated(id.ver.key, modified)) ==> !found.Hit? || found.name == id
      ensures id.ver.etag != "" && id in files && id !in denied ==> found == Hit(id, files[id])
      ensures touched == if found.Hit? then old(touched)[found.name := now] else old(touched)
    {
      if id.ver.etag != "" {
        LegacyExactlyWhenUnchanged(files, denied, id, modified, Since(id.ver.key, now));
      }
      found := Open(files, denied, id);
      if found.Miss? && id.ver.etag != "" {
        var t := MarkerTime(id.ver.key, now);
        if TrustsLegacy(t, modified) {
          found := Open(files, denied, LegacyName(id));
        }
      }
      if found.Hit? {
        touched := touched[found.name := now];
      }
    }

    /** Put: a chunk appears under its name by a rename, hence whole or not at all, wherever the
        attempt ends; and only a process that dies leaves its temporary file behind. */
    method Put(id: ChunkId, data: seq<Byte>, fault: Fault, now: int) returns (ok: bool)
      requires Valid()
      modifies this
      ensures Valid() && MarkersKept() && ok == fault.NoFault?
      ensures files == if ok then old(files)[id := data] else old(files)
      ensures touched == if ok then old(touched)[id := now] else old(touched)
      ensures temps == if fault.Killed? then old(temps)[old(nextTemp) := data[..Min(fault.n, |data|)]] else old(temps)
      ensures id.ver.etag != "" ==> root(id.ver.key) in since
    {
      if id.ver.etag != "" {
        var _ := MarkerTime(id.ver.key, now);
      }
      if fault.NoTemp? {
        return false;
      }
      var n := if fault.ShortWrite? || fault.Killed? then Min(fault.n, |data|) else |data|;
      var tmp := WriteTemp(data[..n]);
      if fault.Killed? {
        return false;
      }
      if fault.ShortWrite? || fault.NoRename? {
        temps := temps - {tmp};
        assert temps == old(temps);
        return false;
      }
      assert data[..n] == data;
      files := files[id := temps[tmp]];
      touched := touched[id := now];
      temps := temps - {tmp};
      assert temps == old(temps);
      return true;
    }

    method WriteTemp(bytes: seq<Byte>) returns (tmp: nat)
      requires Valid()
      modifies this`temps, this`nextTemp
      ensures Valid() && tmp == old(nextTemp) && tmp !in old(temps) && temps == old(temps)[tmp := bytes]
    {
      tmp := nextTemp;
      nextTemp := nextTemp + 1;
      temps := temps[tmp := bytes];
    }
  }

  /** A process that comes after another on the same files uses the same marker times: what one
      of them knows, the next one reads, whenever it first asks. */
  method NextProcessAgrees(c: DiskCache, key: string, now: int, later: int) returns (t: Option<int>, u: Option<int>)
    requires c.Valid()
    modifies c
    ensures t.Some? ==> u == t
  {
    t := c.MarkerTime(key, now);
    var next := new DiskCache(c.root, c.denied, c.writable, c.files, c.temps, c.nextTemp, c.touched, c.markers);
    u := next.MarkerTime(key, later);
  }
}
