/** Rebuilding a chunk from the flat rows of a left join over chunk, flavors, versions and files.
    Rows may arrive in any order and repeatedly. */
module Collect {
  import opened Option
  import opened Order
  import opened Paths

  datatype ChunkInfo = ChunkInfo(
    id: string, name: string, description: string, tags: seq<string>,
    createdAt: nat, updatedAt: nat, deletedAt: Option<nat>, owner: string)

  datatype FlavorInfo = FlavorInfo(id: string, name: string, createdAt: nat, updatedAt: nat, deletedAt: Option<nat>)

  datatype VersionInfo = VersionInfo(
    id: string, version: string, minecraft: string, hash: string, buildStatus: string, filesUploaded: bool,
    createdAt: nat, presignedExpiry: Option<nat>, presignedUrl: Option<string>, minPlayers: nat, maxPlayers: nat)

  // ---- The nested form ----

  datatype Version = Version(info: VersionInfo, files: seq<FileHash>)

  datatype Flavor = Flavor(info: FlavorInfo, versions: seq<Version>)

  /** `thumbnail` is "" when there is none. */
  datatype Chunk = Chunk(info: ChunkInfo, thumbnail: string, flavors: seq<Flavor>)

  // ---- The stored form ----

  /** One chunk's part of the tables, by primary key: a version belongs to a flavor, a version's files
      are keyed by path. */
  datatype Tables = Tables(
    chunk: ChunkInfo, thumbnail: string,
    flavors: map<string, FlavorInfo>, versions: map<string, VersionInfo>,
    owner: map<string, string>, files: map<string, map<string, string>>)

  ghost predicate Consistent(t: Tables) {
    && t.versions.Keys == t.owner.Keys == t.files.Keys
    && (forall f | f in t.flavors :: t.flavors[f].id == f)
    && (forall v | v in t.versions :: t.versions[v].id == v && t.owner[v] in t.flavors && t.files[v] != map[])
  }

  ghost predicate IsFile(t: Tables, v: string, h: FileHash) {
    v in t.files && h.path in t.files[v] && t.files[v][h.path] == h.hash
  }

  // ---- The rows ----

  datatype Row = Row(
    chunk: ChunkInfo, thumbnail: Option<string>, flavor: Option<FlavorInfo>, version: Option<VersionInfo>,
    filePath: string, fileHash: string)

  /** The left join of the tables; missing columns of a file read as "". */
  ghost predicate IsRow(t: Tables, r: Row) {
    && r.chunk == t.chunk
    && r.thumbnail == (if t.thumbnail == "" then None else Some(t.thumbnail))
    && match (r.flavor, r.version)
       case (None, None) => t.flavors == map[] && r.filePath == r.fileHash == ""
       case (None, Some(_)) => false
       case (Some(f), None) =>
         && f.id in t.flavors && f == t.flavors[f.id]
         && f.id !in t.owner.Values && r.filePath == r.fileHash == ""
       case (Some(f), Some(v)) =>
         && f.id in t.flavors && f == t.flavors[f.id]
         && v.id in t.versions && v == t.versions[v.id]
         && v.id in t.owner && t.owner[v.id] == f.id
         && IsFile(t, v.id, FileHash(r.filePath, r.fileHash))
  }

  // ---- Reading the rows ----

  ghost predicate DistinctPaths(files: seq<FileHash>) {
    forall i, j | 0 <= i < j < |files| :: files[i].path != files[j].path
  }

  // Everything in the four maps filled from the rows is in the tables.

  ghost predicate SoundFlavors(t: Tables, flavors: map<string, Flavor>) {
    forall f | f in flavors :: f in t.flavors && flavors[f] == Flavor(t.flavors[f], [])
  }

  ghost predicate SoundVersions(t: Tables, versions: map<string, Version>, owner: map<string, string>) {
    && versions.Keys == owner.Keys
    && (forall v | v in versions :: v in t.versions && versions[v] == Version(t.versions[v], []))
    && (forall v | v in owner :: v in t.owner && owner[v] == t.owner[v])
  }

  ghost predicate SoundFiles(t: Tables, files: map<string, seq<FileHash>>) {
    forall v | v in files :: DistinctPaths(files[v]) && forall h | h in files[v] :: IsFile(t, v, h)
  }

  // The maps have what one row says.

  ghost predicate HasFlavor(flavors: map<string, Flavor>, r: Row) {
    r.flavor.Some? ==> r.flavor.value.id in flavors
  }

  ghost predicate HasFile(files: map<string, seq<FileHash>>, r: Row) {
    r.version.Some? ==> r.version.value.id in files && FileHash(r.filePath, r.fileHash) in files[r.version.value.id]
  }

  predicate HasPath(files: seq<FileHash>, path: string) {
    exists i | 0 <= i < |files| :: files[i].path == path
  }

  lemma FileAppended(files: seq<FileHash>, h: FileHash)
    requires DistinctPaths(files) && !HasPath(files, h.path)
    ensures DistinctPaths(files + [h])
  {
  }

  /** The file of one row is added unless its path is there already. */
  method AddFile(files: map<string, seq<FileHash>>, r: Row, ghost t: Tables) returns (files': map<string, seq<FileHash>>)
    requires SoundFiles(t, files) && IsRow(t, r) && r.version.Some?
    ensures SoundFiles(t, files') && HasFile(files', r) && files'.Keys == files.Keys + {r.version.value.id}
    ensures forall v, h | v in files && h in files[v] :: h in files'[v]
  {
    var v, h := r.version.value.id, FileHash(r.filePath, r.fileHash);
    var hashes := if v in files then files[v] else [];
    if HasPath(hashes, r.filePath) {
      ghost var i :| 0 <= i < |hashes| && hashes[i].path == h.path;
      assert IsFile(t, v, hashes[i]) && hashes[i] == h;
      return files;
    }
    FileAppended(hashes, h);
    files' := files[v := hashes + [h]];
  }

  /** The loop over the rows. */
  method Gather(rows: seq<Row>, ghost t: Tables)
    returns (flavors: map<string, Flavor>, versions: map<string, Version>, files: map<string, seq<FileHash>>,
             owner: map<string, string>)
    requires forall r | r in rows :: IsRow(t, r)
    ensures SoundFlavors(t, flavors) && SoundVersions(t, versions, owner) && SoundFiles(t, files)
    ensures versions.Keys == files.Keys
    ensures forall k | 0 <= k < |rows| :: HasFlavor(flavors, rows[k]) && HasFile(files, rows[k])
  {
    flavors, versions, files, owner := map[], map[], map[], map[];
    for i := 0 to |rows|
      invariant SoundFlavors(t, flavors) && SoundVersions(t, versions, owner) && SoundFiles(t, files)
      invariant versions.Keys == files.Keys
      invariant forall k | 0 <= k < i :: HasFlavor(flavors, rows[k]) && HasFile(files, rows[k])
    {
      var r := rows[i];
      assert IsRow(t, r);
      if r.flavor.Some? && r.flavor.value.id !in flavors {
        flavors := flavors[r.flavor.value.id := Flavor(r.flavor.value, [])];
      }
      if r.version.Some? {
        if r.version.value.id !in versions {
          owner := owner[r.version.value.id := r.flavor.value.id];
          versions := versions[r.version.value.id := Version(r.version.value, [])];
        }
        files := AddFile(files, r, t);
      }
    }
  }

  /** When all rows of the tables were read, the maps have everything. */
  lemma AllRead(t: Tables, rows: seq<Row>, flavors: map<string, Flavor>, files: map<string, seq<FileHash>>)
    requires Consistent(t) && SoundFlavors(t, flavors) && SoundFiles(t, files)
    requires forall r | IsRow(t, r) :: r in rows
    requires forall k | 0 <= k < |rows| :: HasFlavor(flavors, rows[k]) && HasFile(files, rows[k])
    ensures flavors.Keys == t.flavors.Keys
    ensures forall v | v in t.versions :: v in files
    ensures forall v, h | v in files :: h in files[v] <==> IsFile(t, v, h)
  {
    var thumb := if t.thumbnail == "" then None else Some(t.thumbnail);
    forall v, h | IsFile(t, v, h)
      ensures v in files && h in files[v] && t.owner[v] in flavors
    {
      var r := Row(t.chunk, thumb, Some(t.flavors[t.owner[v]]), Some(t.versions[v]), h.path, h.hash);
      assert IsRow(t, r);
    }
    forall v | v in t.versions
      ensures v in files && t.owner[v] in flavors
    {
      var p :| p in t.files[v];
      assert IsFile(t, v, FileHash(p, t.files[v][p]));
    }
    forall f | f in t.flavors
      ensures f in flavors
    {
      if f in t.owner.Values {
        var v :| v in t.owner && t.owner[v] == f;
      } else {
        assert IsRow(t, Row(t.chunk, thumb, Some(t.flavors[f]), None, "", ""));
      }
    }
  }

  // ---- The nested form shows the tables ----

  ghost predicate ShowsVersion(t: Tables, v: Version) {
    && v.info.id in t.versions && v.info == t.versions[v.info.id]
    && DistinctPaths(v.files)
    && (forall h :: h in v.files <==> IsFile(t, v.info.id, h))
  }

  predicate OtherVersion(a: Version, b: Version) {
    a.info.id != b.info.id
  }

  predicate OtherFlavor(a: Flavor, b: Flavor) {
    a.info.id != b.info.id
  }

  ghost predicate Lists(versions: seq<Version>, id: string) {
    exists v | v in versions :: v.info.id == id
  }

  /** The versions of a flavor are those it owns, each once, except for the ids in `todo`. */
  ghost predicate ShowsVersions(t: Tables, f: string, versions: seq<Version>, todo: set<string>) {
    && (forall v | v in versions ::
          ShowsVersion(t, v) && v.info.id in t.owner && t.owner[v.info.id] == f && v.info.id !in todo)
    && (forall id | id in t.owner && t.owner[id] == f && id !in todo :: Lists(versions, id))
    && Apart(OtherVersion, versions)
  }

  ghost predicate ShowsFlavor(t: Tables, f: Flavor) {
    && f.info.id in t.flavors && f.info == t.flavors[f.info.id]
    && ShowsVersions(t, f.info.id, f.versions, {})
  }

  ghost predicate HasId(flavors: seq<Flavor>, id: string) {
    exists f | f in flavors :: f.info.id == id
  }

  /** The chunk holds exactly what the tables hold. */
  ghost predicate Shows(t: Tables, c: Chunk) {
    && c.info == t.chunk && c.thumbnail == t.thumbnail
    && (forall f | f in c.flavors :: ShowsFlavor(t, f))
    && (forall id | id in t.flavors :: HasId(c.flavors, id))
    && Apart(OtherFlavor, c.flavors)
  }

  // ---- Orders ----

  predicate NewerVersion(a: Version, b: Version) {
    a.info.createdAt > b.info.createdAt
  }

  predicate NewerFlavor(a: Flavor, b: Flavor) {
    a.info.createdAt > b.info.createdAt
  }

  ghost predicate FlavorOrdered(f: Flavor) {
    Sorted(NewerVersion, f.versions) && forall v | v in f.versions :: StrictlySorted(ByPath, v.files)
  }

  /** Newest first, files by path. */
  ghost predicate Ordered(c: Chunk) {
    Sorted(NewerFlavor, c.flavors) && forall f | f in c.flavors :: FlavorOrdered(f)
  }

  /** What that means: by creation time, latest first; the files of a version by their paths. */
  ghost predicate NewestFirst(c: Chunk) {
    && (forall i, j | 0 <= i < j < |c.flavors| :: c.flavors[i].info.createdAt >= c.flavors[j].info.createdAt)
    && (forall f | f in c.flavors ::
          && (forall i, j | 0 <= i < j < |f.versions| :: f.versions[i].info.createdAt >= f.versions[j].info.createdAt)
          && (forall v | v in f.versions ::
                forall i, j | 0 <= i < j < |v.files| :: Before(v.files[i].path, v.files[j].path)))
  }

  lemma OrderedNewest(c: Chunk)
    requires Ordered(c)
    ensures NewestFirst(c)
  {
    forall i, j | 0 <= i < j < |c.flavors|
      ensures c.flavors[i].info.createdAt >= c.flavors[j].info.createdAt
    {
      assert !NewerFlavor(c.flavors[j], c.flavors[i]);
    }
    forall f | f in c.flavors
      ensures forall i, j | 0 <= i < j < |f.versions| :: f.versions[i].info.createdAt >= f.versions[j].info.createdAt
      ensures forall v | v in f.versions ::
                forall i, j | 0 <= i < j < |v.files| :: Before(v.files[i].path, v.files[j].path)
    {
      assert FlavorOrdered(f);
      forall i, j | 0 <= i < j < |f.versions|
        ensures f.versions[i].info.createdAt >= f.versions[j].info.createdAt
      {
        assert !NewerVersion(f.versions[j], f.versions[i]);
      }
      forall v, i, j | v in f.versions && 0 <= i < j < |v.files|
        ensures Before(v.files[i].path, v.files[j].path)
      {
        assert ByPath(v.files[i], v.files[j]);
      }
    }
  }

  /** The same with pairwise different creation times. */
  ghost predicate StrictlyOrdered(c: Chunk) {
    && StrictlySorted(NewerFlavor, c.flavors)
    && (forall f | f in c.flavors :: StrictlySorted(NewerVersion, f.versions))
    && (forall f | f in c.flavors :: FlavorOrdered(f))
  }

  // ---- Putting the maps together ----

  method AttachFiles(versions: map<string, Version>, files: map<string, seq<FileHash>>, ghost t: Tables)
    returns (r: map<string, Version>)
    requires versions.Keys == files.Keys
    requires forall v | v in versions :: v in t.versions && t.versions[v].id == v && versions[v] == Version(t.versions[v], [])
    requires forall v | v in files :: DistinctPaths(files[v]) && forall h :: h in files[v] <==> IsFile(t, v, h)
    ensures r.Keys == versions.Keys && forall v | v in r :: ShowsVersion(t, r[v]) && r[v].info.id == v
  {
    r := versions;
    var todo := files.Keys;
    while todo != {}
      invariant todo <= files.Keys && r.Keys == versions.Keys
      invariant forall v | v in r :: r[v] == if v in todo then versions[v] else Version(t.versions[v], files[v])
      decreases todo
    {
      var v :| v in todo;
      r := r[v := r[v].(files := files[v])];
      todo := todo - {v};
    }
  }

  ghost predicate Attached(t: Tables, flavors: map<string, Flavor>, todo: set<string>) {
    && flavors.Keys == t.flavors.Keys
    && (forall f | f in flavors :: flavors[f].info == t.flavors[f] && ShowsVersions(t, f, flavors[f].versions, todo))
  }

  lemma AttachOne(t: Tables, flavors: map<string, Flavor>, todo: set<string>, v: Version, f: string)
    requires Attached(t, flavors, todo) && v.info.id in todo && ShowsVersion(t, v)
    requires v.info.id in t.owner && t.owner[v.info.id] == f && f in flavors
    ensures Attached(t, flavors[f := flavors[f].(versions := flavors[f].versions + [v])], todo - {v.info.id})
  {
  }

  /** Each version goes to its flavor, in the order the map hands them out. */
  method AttachVersions(flavors: map<string, Flavor>, versions: map<string, Version>, owner: map<string, string>, ghost t: Tables)
    returns (r: map<string, Flavor>)
    requires Consistent(t) && flavors.Keys == t.flavors.Keys && SoundFlavors(t, flavors)
    requires versions.Keys == t.versions.Keys && owner == t.owner
    requires forall v | v in versions :: ShowsVersion(t, versions[v]) && versions[v].info.id == v
    ensures r.Keys == t.flavors.Keys && forall f | f in r :: ShowsFlavor(t, r[f]) && r[f].info.id == f
  {
    r := flavors;
    var todo := versions.Keys;
    while todo != {}
      invariant todo <= versions.Keys && Attached(t, r, todo)
      decreases todo
    {
      var id :| id in todo;
      var v := versions[id];
      var f := owner[v.info.id];
      AttachOne(t, r, todo, v, f);
      r := r[f := r[f].(versions := r[f].versions + [v])];
      todo := todo - {id};
    }
  }

  // ---- Sorting ----

  method SortFiles(v: Version, ghost t: Tables) returns (r: Version)
    requires ShowsVersion(t, v)
    ensures ShowsVersion(t, r) && r.info == v.info && StrictlySorted(ByPath, r.files)
  {
    ByPathWeak();
    var files := Sort(ByPath, v.files);
    forall i, j | 0 <= i < j < |v.files|
      ensures ByPath(v.files[i], v.files[j]) || ByPath(v.files[j], v.files[i])
    {
      BeforeTotal(v.files[i].path, v.files[j].path);
    }
    SortedStrictly(ByPath, v.files, files);
    forall i, j | 0 <= i < j < |files|
      ensures files[i].path != files[j].path
    {
      assert ByPath(files[i], files[j]);
      BeforeTotal(files[i].path, files[j].path);
    }
    r := Version(v.info, files);
  }

  lemma NewerWeak()
    ensures Weak(NewerVersion) && Weak(NewerFlavor)
  {
  }

  lemma PermutedVersions(t: Tables, f: string, s: seq<Version>, r: seq<Version>)
    requires ShowsVersions(t, f, s, {}) && multiset(r) == multiset(s)
    ensures ShowsVersions(t, f, r, {})
  {
    Permuted(OtherVersion, s, r);
    forall id | id in t.owner && t.owner[id] == f
      ensures Lists(r, id)
    {
      var v :| v in s && v.info.id == id;
      assert v in r;
    }
  }

  /** Versions that agree on everything but the order of their files. */
  lemma ReplacedVersions(t: Tables, f: string, s: seq<Version>, r: seq<Version>)
    requires ShowsVersions(t, f, s, {}) && Sorted(NewerVersion, s) && |r| == |s|
    requires forall i | 0 <= i < |s| :: r[i].info == s[i].info && ShowsVersion(t, r[i])
    ensures ShowsVersions(t, f, r, {}) && Sorted(NewerVersion, r)
  {
  }

  method SortFlavor(f: Flavor, ghost t: Tables) returns (r: Flavor)
    requires ShowsFlavor(t, f)
    ensures ShowsFlavor(t, r) && FlavorOrdered(r) && r.info == f.info
  {
    NewerWeak();
    var sorted := Sort(NewerVersion, f.versions);
    PermutedVersions(t, f.info.id, f.versions, sorted);
    var versions: seq<Version> := [];
    for i := 0 to |sorted|
      invariant |versions| == i
      invariant forall k | 0 <= k < i :: versions[k].info == sorted[k].info && ShowsVersion(t, versions[k])
      invariant forall k | 0 <= k < i :: StrictlySorted(ByPath, versions[k].files)
    {
      assert sorted[i] in sorted;
      var v := SortFiles(sorted[i], t);
      versions := versions + [v];
    }
    ReplacedVersions(t, f.info.id, sorted, versions);
    r := Flavor(f.info, versions);
  }

  /** The flavors taken from the map so far, the ids in `todo` still to come. */
  ghost predicate Taken(t: Tables, flavors: seq<Flavor>, todo: set<string>) {
    && (forall f | f in flavors :: ShowsFlavor(t, f) && FlavorOrdered(f) && f.info.id !in todo)
    && (forall id | id in t.flavors && id !in todo :: HasId(flavors, id))
    && Apart(OtherFlavor, flavors)
  }

  lemma TakeOne(t: Tables, flavors: seq<Flavor>, todo: set<string>, f: Flavor)
    requires Taken(t, flavors, todo) && ShowsFlavor(t, f) && FlavorOrdered(f) && f.info.id in todo
    ensures Taken(t, flavors + [f], todo - {f.info.id})
  {
  }

  lemma PermutedFlavors(t: Tables, s: seq<Flavor>, r: seq<Flavor>)
    requires Taken(t, s, {}) && multiset(r) == multiset(s)
    ensures Taken(t, r, {})
  {
    Permuted(OtherFlavor, s, r);
    forall id | id in t.flavors
      ensures HasId(r, id)
    {
      var f :| f in s && f.info.id == id;
      assert f in r;
    }
  }

  method TakeFlavors(flavors: map<string, Flavor>, ghost t: Tables) returns (r: seq<Flavor>)
    requires flavors.Keys == t.flavors.Keys && forall f | f in flavors :: ShowsFlavor(t, flavors[f]) && flavors[f].info.id == f
    ensures Taken(t, r, {}) && Sorted(NewerFlavor, r)
  {
    r := [];
    var todo := flavors.Keys;
    while todo != {}
      invariant todo <= flavors.Keys && Taken(t, r, todo)
      decreases todo
    {
      var id :| id in todo;
      var f := SortFlavor(flavors[id], t);
      TakeOne(t, r, todo, f);
      r := r + [f];
      todo := todo - {id};
    }
    NewerWeak();
    ghost var taken := r;
    r := Sort(NewerFlavor, r);
    PermutedFlavors(t, taken, r);
  }

  // ---- One chunk per tables ----

  lemma VersionUnique(t: Tables, v: Version, w: Version)
    requires ShowsVersion(t, v) && ShowsVersion(t, w) && v.info.id == w.info.id
    requires StrictlySorted(ByPath, v.files) && StrictlySorted(ByPath, w.files)
    ensures v == w
  {
    ByPathWeak();
    SortedUnique(ByPath, v.files, w.files);
  }

  lemma VersionIn(t: Tables, f: Flavor, g: Flavor, v: Version)
    requires ShowsFlavor(t, f) && ShowsFlavor(t, g) && f.info.id == g.info.id
    requires FlavorOrdered(f) && FlavorOrdered(g) && v in f.versions
    ensures v in g.versions
  {
    assert Lists(g.versions, v.info.id);
    var w :| w in g.versions && w.info.id == v.info.id;
    VersionUnique(t, v, w);
  }

  /** A permutation in weak order of a strictly ordered sequence is that sequence. */
  lemma OrderedUnique<T(!new)>(less: (T, T) -> bool, a: seq<T>, b: seq<T>)
    requires Weak(less) && StrictlySorted(less, a) && Sorted(less, b)
    requires forall x :: x in a <==> x in b
    requires forall i, j | 0 <= i < j < |b| :: b[i] != b[j]
    ensures a == b
  {
    forall i, j | 0 <= i < j < |b|
      ensures less(b[i], b[j])
    {
      assert b[i] in a && b[j] in a;
      var k :| 0 <= k < |a| && a[k] == b[i];
      var l :| 0 <= l < |a| && a[l] == b[j];
      assert k != l;
    }
    SortedUnique(less, a, b);
  }

  lemma FlavorUnique(t: Tables, f: Flavor, g: Flavor)
    requires ShowsFlavor(t, f) && ShowsFlavor(t, g) && f.info.id == g.info.id
    requires FlavorOrdered(f) && FlavorOrdered(g) && StrictlySorted(NewerVersion, f.versions)
    ensures f == g
  {
    forall v
      ensures v in f.versions <==> v in g.versions
    {
      if v in f.versions { VersionIn(t, f, g, v); }
      if v in g.versions { VersionIn(t, g, f, v); }
    }
    NewerWeak();
    forall i, j | 0 <= i < j < |g.versions|
      ensures g.versions[i] != g.versions[j]
    {
      assert OtherVersion(g.versions[i], g.versions[j]);
    }
    OrderedUnique(NewerVersion, f.versions, g.versions);
  }

  /** With pairwise different creation times the tables determine the chunk. */
  lemma ChunkUnique(t: Tables, c: Chunk, d: Chunk)
    requires Shows(t, c) && Shows(t, d) && StrictlyOrdered(c) && Ordered(d)
    ensures c == d
  {
    forall f
      ensures f in c.flavors <==> f in d.flavors
    {
      if f in c.flavors {
        assert HasId(d.flavors, f.info.id);
        var g :| g in d.flavors && g.info.id == f.info.id;
        FlavorUnique(t, f, g);
      }
      if f in d.flavors {
        assert HasId(c.flavors, f.info.id);
        var g :| g in c.flavors && g.info.id == f.info.id;
        FlavorUnique(t, g, f);
      }
    }
    NewerWeak();
    forall i, j | 0 <= i < j < |d.flavors|
      ensures d.flavors[i] != d.flavors[j]
    {
      assert OtherFlavor(d.flavors[i], d.flavors[j]);
    }
    OrderedUnique(NewerFlavor, c.flavors, d.flavors);
  }

  // ---- The whole function ----

  lemma AllVersions(t: Tables, versions: map<string, Version>, owner: map<string, string>, files: map<string, seq<FileHash>>)
    requires Consistent(t) && SoundVersions(t, versions, owner) && versions.Keys == files.Keys
    requires forall v | v in t.versions :: v in files
    ensures versions.Keys == t.versions.Keys && owner == t.owner
    ensures forall v | v in versions :: v in t.versions && t.versions[v].id == v && versions[v] == Version(t.versions[v], [])
  {
  }

  method FoldRows(rows: seq<Row>, ghost t: Tables) returns (r: seq<Flavor>)
    requires Consistent(t)
    requires forall r :: r in rows <==> IsRow(t, r)
    ensures Taken(t, r, {}) && Sorted(NewerFlavor, r)
  {
    var flavors, versions, files, owner := Gather(rows, t);
    AllRead(t, rows, flavors, files);
    AllVersions(t, versions, owner, files);
    versions := AttachFiles(versions, files, t);
    flavors := AttachVersions(flavors, versions, owner, t);
    r := TakeFlavors(flavors, t);
  }

  /** From all rows of the tables, in any order and with any repetition, to the chunk they hold,
      newest first; when creation times differ there is only one such chunk. */
  method CollectChunk(rows: seq<Row>, ghost t: Tables) returns (c: Chunk)
    requires Consistent(t) && rows != []
    requires forall r :: r in rows <==> IsRow(t, r)
    ensures Shows(t, c) && Ordered(c)
    ensures forall d | Shows(t, d) && StrictlyOrdered(d) :: c == d
  {
    var row := rows[0];
    assert row in rows;
    var flavors := FoldRows(rows, t);
    c := Chunk(row.chunk, if row.thumbnail.Some? then row.thumbnail.value else "", flavors);
    forall d | Shows(t, d) && StrictlyOrdered(d)
      ensures c == d
    {
      ChunkUnique(t, d, c);
    }
  }

  // ---- The tables of a chunk ----

  ghost function Pairs(c: Chunk): set<(Flavor, Version)> {
    set f, v | f in c.flavors && v in f.versions :: (f, v)
  }

  ghost predicate UniqueIds(pairs: set<(Flavor, Version)>) {
    forall p, q | p in pairs && q in pairs && p.1.info.id == q.1.info.id :: p == q
  }

  /** What the database keeps of a chunk: unique ids, at least one file per version, one per path. */
  ghost predicate WellFormed(c: Chunk) {
    && Apart(OtherFlavor, c.flavors)
    && (forall f | f in c.flavors :: Apart(OtherVersion, f.versions))
    && UniqueIds(Pairs(c))
    && (forall p | p in Pairs(c) :: p.1.files != [] && DistinctPaths(p.1.files))
  }

  lemma SameFlavor(flavors: seq<Flavor>, f: Flavor, g: Flavor)
    requires Apart(OtherFlavor, flavors) && f in flavors && g in flavors && f.info.id == g.info.id
    ensures f == g
  {
  }

  lemma FlavorTable(flavors: seq<Flavor>) returns (m: map<string, FlavorInfo>)
    requires Apart(OtherFlavor, flavors)
    ensures forall f | f in flavors :: f.info.id in m && m[f.info.id] == f.info
    ensures forall id | id in m :: m[id].id == id && HasId(flavors, id)
  {
    forall f, g | f in flavors && g in flavors && f.info.id == g.info.id
      ensures f == g
    {
      SameFlavor(flavors, f, g);
    }
    m := map f | f in flavors :: f.info.id := f.info;
  }

  lemma PairTable(pairs: set<(Flavor, Version)>) returns (m: map<string, (Flavor, Version)>)
    requires UniqueIds(pairs)
    ensures forall p | p in pairs :: p.1.info.id in m && m[p.1.info.id] == p
    ensures forall id | id in m :: m[id] in pairs && m[id].1.info.id == id
  {
    m := map p | p in pairs :: p.1.info.id := p;
  }

  ghost function FileTable(files: seq<FileHash>): (m: map<string, string>)
    requires DistinctPaths(files)
    ensures forall h :: h in files <==> h.path in m && m[h.path] == h.hash
  {
    map h | h in files :: h.path := h.hash
  }

  /** Every well-formed chunk is what some consistent tables hold. */
  lemma TablesOf(c: Chunk) returns (t: Tables)
    requires WellFormed(c)
    ensures Consistent(t) && Shows(t, c)
  {
    var flavors := FlavorTable(c.flavors);
    var pairs := PairTable(Pairs(c));
    t := Tables(c.info, c.thumbnail, flavors,
                map id | id in pairs :: pairs[id].1.info,
                map id | id in pairs :: pairs[id].0.info.id,
                map id | id in pairs :: FileTable(pairs[id].1.files));
    forall id | id in pairs
      ensures t.files[id] != map[]
    {
      assert pairs[id].1.files[0] in pairs[id].1.files;
    }
    forall f, v | f in c.flavors && v in f.versions
      ensures ShowsVersion(t, v) && v.info.id in t.owner && t.owner[v.info.id] == f.info.id
    {
      assert (f, v) in Pairs(c);
      assert pairs[v.info.id] == (f, v);
    }
    forall f | f in c.flavors
      ensures ShowsFlavor(t, f)
    {
      forall id | id in t.owner && t.owner[id] == f.info.id
        ensures Lists(f.versions, id)
      {
        SameFlavor(c.flavors, f, pairs[id].0);
        assert pairs[id].1 in f.versions;
      }
    }
  }

  /** Folding inverts flattening: any permutation of the rows of a chunk's tables, with any
      repetition, gives back the chunk. */
  method RoundTrip(rows: seq<Row>, ghost c: Chunk, ghost t: Tables) returns (d: Chunk)
    requires StrictlyOrdered(c) && Consistent(t) && Shows(t, c)
    requires rows != [] && forall r :: r in rows <==> IsRow(t, r)
    ensures d == c
  {
    d := CollectChunk(rows, t);
  }
}
