/** One pass of the archive worker over the database, with nothing in between and no failing call:
    exactly what it moves, whatever order the maps are walked in. */
module ArchivePass {
  import opened Option
  import opened Pipeline

  datatype Data = Data(
    chunks: map<Id, bool>, flavors: map<Id, Flavor>, versions: map<Id, Version>, instances: map<Id, Id>,
    oldChunks: set<Id>, oldFlavors: set<Id>, oldVersions: set<Id>)

  /** Keys live in one table only, and references point to rows. */
  ghost predicate Valid(d: Data) {
    && d.chunks.Keys !! d.oldChunks && d.flavors.Keys !! d.oldFlavors && d.versions.Keys !! d.oldVersions
    && (forall f | f in d.flavors :: d.flavors[f].chunk in d.chunks)
    && (forall v | v in d.versions :: d.versions[v].flavor in d.flavors)
    && (forall i | i in d.instances :: d.instances[i] in d.versions)
  }

  predicate InUse(d: Data, v: Id) {
    exists i | i in d.instances :: d.instances[i] == v
  }

  predicate OwnsVersion(d: Data, f: Id) {
    exists v | v in d.versions :: d.versions[v].flavor == f
  }

  predicate OwnsFlavor(d: Data, c: Id) {
    exists f | f in d.flavors :: d.flavors[f].chunk == c
  }

  class Database {
    var data: Data

    constructor (d: Data)
      ensures data == d
    {
      data := d;
    }

    // Each move is an insert and a delete in one transaction; `commits` is the answer to the commit.
    // An insert is refused when the key is there, a delete when a row still refers to it.

    method ArchiveVersion(v: Id, commits: bool) returns (ok: bool)
      modifies this
      ensures ok <==> v !in old(data).oldVersions && !InUse(old(data), v) && commits
      ensures data == if ok then old(data).(oldVersions := old(data).oldVersions + {v}, versions := old(data).versions - {v})
                      else old(data)
    {
      var begun := data;
      if v in data.oldVersions {
        return false;
      }
      data := data.(oldVersions := data.oldVersions + {v});
      if InUse(data, v) {
        data := begun;
        return false;
      }
      data := data.(versions := data.versions - {v});
      if !commits {
        data := begun;
        return false;
      }
      return true;
    }

    /** Deleting a flavor deletes its versions, unless an instance refers to one of them. */
    method ArchiveFlavor(f: Id, commits: bool) returns (ok: bool)
      modifies this
      ensures ok <==> f !in old(data).oldFlavors && commits
                      && forall v | v in old(data).versions && old(data).versions[v].flavor == f :: !InUse(old(data), v)
      ensures data == if ok then old(data).(oldFlavors := old(data).oldFlavors + {f}, flavors := old(data).flavors - {f},
                                            versions := WithoutFlavor(old(data).versions, f))
                      else old(data)
    {
      var begun := data;
      if f in data.oldFlavors {
        return false;
      }
      data := data.(oldFlavors := data.oldFlavors + {f});
      if exists v | v in data.versions && data.versions[v].flavor == f :: InUse(data, v) {
        data := begun;
        return false;
      }
      data := data.(flavors := data.flavors - {f}, versions := WithoutFlavor(data.versions, f));
      if !commits {
        data := begun;
        return false;
      }
      return true;
    }

    method ArchiveChunk(c: Id, commits: bool) returns (ok: bool)
      modifies this
      ensures ok <==> c !in old(data).oldChunks && !OwnsFlavor(old(data), c) && commits
      ensures data == if ok then old(data).(oldChunks := old(data).oldChunks + {c}, chunks := old(data).chunks - {c})
                      else old(data)
    {
      var begun := data;
      if c in data.oldChunks {
        return false;
      }
      data := data.(oldChunks := data.oldChunks + {c});
      if OwnsFlavor(data, c) {
        data := begun;
        return false;
      }
      data := data.(chunks := data.chunks - {c});
      if !commits {
        data := begun;
        return false;
      }
      return true;
    }
  }

  function WithoutFlavor(versions: map<Id, Version>, f: Id): map<Id, Version> {
    map v | v in versions && versions[v].flavor != f :: versions[v]
  }

  // ---- What a pass should move ----

  /** A version no instance uses and no job is building. */
  predicate Archivable(d: Data, v: Id)
    requires v in d.versions
  {
    !InUse(d, v) && Settled(d.versions[v].status)
  }

  predicate FlavorGoes(d: Data, f: Id)
    requires f in d.flavors
  {
    d.flavors[f].deleted && forall v | v in d.versions && d.versions[v].flavor == f :: Archivable(d, v)
  }

  /** All flavors of the chunk go, and it has one: whether the chunk itself is marked deleted is never
      asked, and a chunk without flavors is never looked at. */
  predicate ChunkGoes(d: Data, done: set<Id>, c: Id) {
    && OwnsFlavor(d, c)
    && (forall f | f in d.flavors && d.flavors[f].chunk == c :: f in done && FlavorGoes(d, f))
  }

  // What is gone when the deleted flavors in `done` have been visited.

  function ChunksGone(d: Data, done: set<Id>): set<Id> {
    set c | c in d.chunks && ChunkGoes(d, done, c)
  }

  function FlavorsGone(d: Data, done: set<Id>): set<Id> {
    set f | f in d.flavors && f in done && FlavorGoes(d, f)
  }

  function VersionsGone(d: Data, done: set<Id>): set<Id> {
    set v | v in d.versions && d.versions[v].flavor in done && Archivable(d, v)
  }

  function DeletedFlavors(d: Data): set<Id> {
    set f | f in d.flavors && d.flavors[f].deleted
  }

  /** The database with these rows moved to the archive, and nothing else changed. */
  function Moved(d: Data, cs: set<Id>, fs: set<Id>, vs: set<Id>): Data {
    Data(d.chunks - cs, d.flavors - fs, d.versions - vs, d.instances, d.oldChunks + cs, d.oldFlavors + fs, d.oldVersions + vs)
  }

  // ---- One flavor ----

  function OwnGone(d: Data, f: Id): set<Id> {
    set v | v in d.versions && d.versions[v].flavor == f && Archivable(d, v)
  }

  lemma MoveOne(d: Data, cs: set<Id>, fs: set<Id>, vs: set<Id>, v: Id)
    ensures var now := Moved(d, cs, fs, vs);
            now.(oldVersions := now.oldVersions + {v}, versions := now.versions - {v}) == Moved(d, cs, fs, vs + {v})
  {
  }

  /** The loop over the versions read with the flavor. */
  method ArchiveVersions(db: Database, f: Id, ghost d: Data, ghost cs: set<Id>, ghost fs: set<Id>, ghost vs: set<Id>)
    requires db.data == Moved(d, cs, fs, vs) && d.versions.Keys !! d.oldVersions
    requires forall v | v in vs :: v in d.versions && d.versions[v].flavor != f
    modifies db
    ensures db.data == Moved(d, cs, fs, vs + OwnGone(d, f))
  {
    var left := set v | v in db.data.versions && db.data.versions[v].flavor == f;
    ghost var own, gone := left, {};
    assert forall v :: v in own <==> v in d.versions && d.versions[v].flavor == f;
    while left != {}
      invariant left <= own
      invariant gone == set v | v in own && v !in left && Archivable(d, v)
      invariant db.data == Moved(d, cs, fs, vs + gone)
      decreases left
    {
      var v :| v in left;
      assert v in db.data.versions && v !in db.data.oldVersions && db.data.versions[v] == d.versions[v];
      assert InUse(db.data, v) <==> InUse(d, v);
      if !InUse(db.data, v) && Settled(db.data.versions[v].status) {
        MoveOne(d, cs, fs, vs + gone, v);
        var ok := db.ArchiveVersion(v, true);
        assert vs + gone + {v} == vs + (gone + {v});
        gone := gone + {v};
      }
      left := left - {v};
    }
    assert gone == OwnGone(d, f);
  }

  lemma MoveFlavor(d: Data, cs: set<Id>, fs: set<Id>, vs: set<Id>, f: Id)
    requires !OwnsVersion(Moved(d, cs, fs, vs), f)
    ensures var now := Moved(d, cs, fs, vs);
            && now.(oldFlavors := now.oldFlavors + {f}, flavors := now.flavors - {f}, versions := WithoutFlavor(now.versions, f))
               == Moved(d, cs, fs + {f}, vs)
            && forall v | v in now.versions :: now.versions[v].flavor != f
  {
  }

  lemma VersionsLeft(d: Data, cs: set<Id>, fs: set<Id>, vs: set<Id>, f: Id)
    requires f in d.flavors && d.flavors[f].deleted
    requires forall v | v in vs :: v in d.versions && d.versions[v].flavor != f
    ensures OwnsVersion(Moved(d, cs, fs, vs + OwnGone(d, f)), f) <==> !FlavorGoes(d, f)
  {
    var now := Moved(d, cs, fs, vs + OwnGone(d, f));
    if v :| v in d.versions && d.versions[v].flavor == f && !Archivable(d, v) {
      assert v in now.versions && now.versions[v].flavor == f;
    }
    if v :| v in now.versions && now.versions[v].flavor == f {
      assert v in d.versions && d.versions[v].flavor == f && !Archivable(d, v);
    }
  }

  function FlavorIf(d: Data, f: Id): set<Id>
    requires f in d.flavors
  {
    if FlavorGoes(d, f) then {f} else {}
  }

  method TryArchiveFlavor(db: Database, f: Id, ghost d: Data, ghost cs: set<Id>, ghost fs: set<Id>, ghost vs: set<Id>)
    requires Valid(d) && db.data == Moved(d, cs, fs, vs) && f in d.flavors && d.flavors[f].deleted && f !in fs
    requires forall v | v in vs :: v in d.versions && d.versions[v].flavor != f
    modifies db
    ensures db.data == Moved(d, cs, fs + FlavorIf(d, f), vs + OwnGone(d, f))
  {
    ArchiveVersions(db, f, d, cs, fs, vs);
    VersionsLeft(d, cs, fs, vs, f);
    if OwnsVersion(db.data, f) {
      assert fs + {} == fs;
      return;
    }
    MoveFlavor(d, cs, fs, vs + OwnGone(d, f), f);
    var ok := db.ArchiveFlavor(f, true);
  }

  function ChunkIf(d: Data, fs: set<Id>, c: Id): set<Id> {
    if forall f | f in d.flavors && d.flavors[f].chunk == c :: f in fs then {c} else {}
  }

  lemma ChunkLeft(d: Data, cs: set<Id>, fs: set<Id>, vs: set<Id>, c: Id)
    ensures OwnsFlavor(Moved(d, cs, fs, vs), c) <==> ChunkIf(d, fs, c) == {}
    ensures var now := Moved(d, cs, fs, vs);
            now.(oldChunks := now.oldChunks + {c}, chunks := now.chunks - {c}) == Moved(d, cs + {c}, fs, vs)
  {
    var now := Moved(d, cs, fs, vs);
    if f :| f in d.flavors && d.flavors[f].chunk == c && f !in fs {
      assert f in now.flavors && now.flavors[f].chunk == c;
    }
    assert d.chunks - cs - {c} == d.chunks - (cs + {c});
    assert now.oldChunks + {c} == d.oldChunks + (cs + {c});
  }

  /** One round of the worker's loop: the flavor, then its chunk. */
  method Visit(db: Database, f: Id, c: Id, ghost d: Data, ghost cs: set<Id>, ghost fs: set<Id>, ghost vs: set<Id>)
    requires Valid(d) && db.data == Moved(d, cs, fs, vs) && f in d.flavors && d.flavors[f].deleted && f !in fs
    requires c == d.flavors[f].chunk && c !in cs
    requires forall v | v in vs :: v in d.versions && d.versions[v].flavor != f
    modifies db
    ensures var fs' := fs + FlavorIf(d, f);
            db.data == Moved(d, cs + ChunkIf(d, fs', c), fs', vs + OwnGone(d, f))
  {
    ghost var fs', vs' := fs + FlavorIf(d, f), vs + OwnGone(d, f);
    TryArchiveFlavor(db, f, d, cs, fs, vs);
    ChunkLeft(d, cs, fs', vs', c);
    if c !in db.data.chunks || OwnsFlavor(db.data, c) {
      assert cs + {} == cs;
      return;
    }
    var ok := db.ArchiveChunk(c, true);
  }

  // ---- The whole pass ----

  lemma VisitedMore(d: Data, done: set<Id>, f: Id)
    requires f in d.flavors && d.flavors[f].deleted && f !in done
    ensures VersionsGone(d, done + {f}) == VersionsGone(d, done) + OwnGone(d, f)
    ensures FlavorsGone(d, done + {f}) == FlavorsGone(d, done) + FlavorIf(d, f)
  {
  }

  lemma ChunksMore(d: Data, done: set<Id>, f: Id)
    requires Valid(d) && f in d.flavors && d.flavors[f].deleted && f !in done
    ensures var c := d.flavors[f].chunk;
            && c !in ChunksGone(d, done)
            && ChunksGone(d, done + {f}) == ChunksGone(d, done) + ChunkIf(d, FlavorsGone(d, done + {f}), c)
  {
  }

  /** The database when the deleted flavors in `done` have been visited. */
  function After(d: Data, done: set<Id>): Data {
    Moved(d, ChunksGone(d, done), FlavorsGone(d, done), VersionsGone(d, done))
  }

  /** The flavors visited, each once, in their order. */
  ghost predicate Visits(order: seq<Id>, done: set<Id>) {
    (forall f :: f in order <==> f in done) && forall i, j | 0 <= i < j < |order| :: order[i] != order[j]
  }

  lemma VisitsOn(order: seq<Id>, done: set<Id>, f: Id)
    requires Visits(order, done) && f !in done
    ensures Visits(order + [f], done + {f})
  {
  }

  method VisitNext(db: Database, f: Id, c: Id, ghost d: Data, ghost done: set<Id>)
    requires Valid(d) && db.data == After(d, done)
    requires f in d.flavors && d.flavors[f].deleted && f !in done && c == d.flavors[f].chunk
    modifies db
    ensures db.data == After(d, done + {f})
  {
    VisitedMore(d, done, f);
    ChunksMore(d, done, f);
    Visit(db, f, c, d, ChunksGone(d, done), FlavorsGone(d, done), VersionsGone(d, done));
  }

  /** No instance runs the version, and it is not being built. */
  ghost predicate Unneeded(d: Data, v: Id)
    requires v in d.versions
  {
    && (forall i | i in d.instances :: d.instances[i] != v)
    && d.versions[v].status != IMAGE_BUILD && d.versions[v].status != CHECKPOINT_BUILD
  }

  /** What a pass is for: a version goes exactly when its flavor is deleted and it is unneeded, a flavor
      exactly when it is deleted and all its versions go, a chunk exactly when it has flavors and all of
      them go. What goes is in the archive, what stays is as it was, and instances are not touched. */
  ghost predicate Archived(d: Data, d': Data) {
    && (forall v :: v in d'.versions <==>
          v in d.versions && !(d.versions[v].flavor in d.flavors && d.flavors[d.versions[v].flavor].deleted && Unneeded(d, v)))
    && (forall f :: f in d'.flavors <==>
          f in d.flavors && !(d.flavors[f].deleted && forall v | v in d.versions && d.versions[v].flavor == f :: Unneeded(d, v)))
    && (forall c :: c in d'.chunks <==>
          && c in d.chunks
          && !((exists f | f in d.flavors :: d.flavors[f].chunk == c)
               && forall f | f in d.flavors && d.flavors[f].chunk == c :: f !in d'.flavors))
    && (forall v | v in d'.versions :: d'.versions[v] == d.versions[v])
    && (forall f | f in d'.flavors :: d'.flavors[f] == d.flavors[f])
    && (forall c | c in d'.chunks :: d'.chunks[c] == d.chunks[c])
    && d'.instances == d.instances
    && d'.oldVersions == d.oldVersions + (d.versions.Keys - d'.versions.Keys)
    && d'.oldFlavors == d.oldFlavors + (d.flavors.Keys - d'.flavors.Keys)
    && d'.oldChunks == d.oldChunks + (d.chunks.Keys - d'.chunks.Keys)
  }

  lemma ArchivedIs(d: Data)
    ensures Archived(d, After(d, DeletedFlavors(d)))
  {
    var d' := After(d, DeletedFlavors(d));
    forall v | v in d.versions
      ensures Archivable(d, v) <==> Unneeded(d, v)
    {
    }
    VersionsAndFlavors(d, d');
    ChunksArchived(d, d');
    assert d'.oldVersions == d.oldVersions + (d.versions.Keys - d'.versions.Keys);
    assert d'.oldFlavors == d.oldFlavors + (d.flavors.Keys - d'.flavors.Keys);
    assert d'.oldChunks == d.oldChunks + (d.chunks.Keys - d'.chunks.Keys);
  }

  lemma VersionsAndFlavors(d: Data, d': Data)
    requires d' == After(d, DeletedFlavors(d))
    requires forall v | v in d.versions :: Archivable(d, v) <==> Unneeded(d, v)
    ensures forall v :: v in d'.versions <==>
              v in d.versions && !(d.versions[v].flavor in d.flavors && d.flavors[d.versions[v].flavor].deleted && Unneeded(d, v))
    ensures forall f :: f in d'.flavors <==>
              f in d.flavors && !(d.flavors[f].deleted && forall v | v in d.versions && d.versions[v].flavor == f :: Unneeded(d, v))
  {
    forall f | f in d.flavors
      ensures FlavorGoes(d, f) <==> d.flavors[f].deleted && forall v | v in d.versions && d.versions[v].flavor == f :: Unneeded(d, v)
    {
    }
  }

  lemma ChunksArchived(d: Data, d': Data)
    requires d' == After(d, DeletedFlavors(d))
    ensures forall c :: c in d'.chunks <==>
              && c in d.chunks
              && !((exists f | f in d.flavors :: d.flavors[f].chunk == c)
                   && forall f | f in d.flavors && d.flavors[f].chunk == c :: f !in d'.flavors)
  {
    forall f | f in d.flavors
      ensures f in d'.flavors <==> !(f in DeletedFlavors(d) && FlavorGoes(d, f))
    {
    }
  }

  /** Exactly the archivable versions of deleted flavors, the deleted flavors left without versions and
      the chunks left without flavors are moved, for every order of the walk. */
  method Pass(db: Database) returns (ghost order: seq<Id>)
    requires Valid(db.data)
    modifies db
    ensures db.data == After(old(db.data), DeletedFlavors(old(db.data)))
    ensures Archived(old(db.data), db.data)
    ensures Visits(order, DeletedFlavors(old(db.data)))
  {
    ghost var d := db.data;
    order := Walk(db);
    ArchivedIs(d);
  }

  /** The loop over the deleted flavors. */
  method Walk(db: Database) returns (ghost order: seq<Id>)
    requires Valid(db.data)
    modifies db
    ensures db.data == After(old(db.data), DeletedFlavors(old(db.data)))
    ensures Visits(order, DeletedFlavors(old(db.data)))
  {
    ghost var d := db.data;
    var todo := DeletedFlavors(db.data);
    var chunkOf := map f | f in todo :: db.data.flavors[f].chunk;
    NothingYet(d);
    ghost var all, done := todo, {};
    order := [];
    while todo != {}
      invariant done + todo == all && done !! todo
      invariant Visits(order, done)
      invariant db.data == After(d, done)
      decreases todo
    {
      var f :| f in todo;
      VisitNext(db, f, chunkOf[f], d, done);
      VisitsOn(order, done, f);
      todo, done, order := todo - {f}, done + {f}, order + [f];
    }
  }

  lemma NothingYet(d: Data)
    ensures d == After(d, {})
  {
  }

  function Marked(d: Data, c: Id, mark: bool): Data {
    d.(chunks := d.chunks[c := mark])
  }

  /** The deletion mark of a chunk plays no part: marking or unmarking it before a pass is the same as
      doing it after the pass to a chunk that is still there, and one that goes, goes either way. */
  lemma ChunkMarkIgnored(d: Data, c: Id, mark: bool)
    requires c in d.chunks
    ensures var after := After(d, DeletedFlavors(d));
            After(Marked(d, c, mark), DeletedFlavors(Marked(d, c, mark))) ==
            if c in after.chunks then Marked(after, c, mark) else after
  {
    var d' := Marked(d, c, mark);
    var done := DeletedFlavors(d);
    assert DeletedFlavors(d') == done;
    assert forall v | v in d.versions :: Archivable(d', v) <==> Archivable(d, v);
    assert forall f | f in d.flavors :: FlavorGoes(d', f) <==> FlavorGoes(d, f);
    assert forall k :: ChunkGoes(d', done, k) <==> ChunkGoes(d, done, k);
    assert VersionsGone(d', done) == VersionsGone(d, done);
    assert FlavorsGone(d', done) == FlavorsGone(d, done);
    assert ChunksGone(d', done) == ChunksGone(d, done);
    var gone := ChunksGone(d, done);
    assert d'.chunks - gone == if c in gone then d.chunks - gone else (d.chunks - gone)[c := mark];
  }

  /** A chunk nobody deleted goes to the archive with its one flavor. */
  method UnmarkedArchived() returns (db: Database)
    ensures db.data == Data(map[], map[], map[], map[], {1}, {2}, {})
  {
    var d := Data(map[1 := false], map[2 := Flavor(1, true)], map[], map[], {}, {}, {});
    db := new Database(d);
    var _ := Walk(db);
    assert OwnsFlavor(d, 1) by {
      assert 2 in d.flavors && d.flavors[2].chunk == 1;
    }
    assert DeletedFlavors(d) == {2} && FlavorGoes(d, 2);
    assert ChunksGone(d, {2}) == {1} && FlavorsGone(d, {2}) == {2} && VersionsGone(d, {2}) == {};
    assert d.chunks - {1} == map[] && d.flavors - {2} == map[] && d.versions - {} == map[];
  }

  /** A pass leaves nothing behind that another one would move. */
  lemma PassIdempotent(d: Data)
    requires Valid(d)
    ensures var after := After(d, DeletedFlavors(d));
            var rest := DeletedFlavors(after);
            ChunksGone(after, rest) == {} && FlavorsGone(after, rest) == {} && VersionsGone(after, rest) == {}
  {
    var after := After(d, DeletedFlavors(d));
    forall v | v in after.versions && after.versions[v].flavor in DeletedFlavors(after)
      ensures !Archivable(after, v)
    {
      assert Archivable(after, v) <==> Archivable(d, v);
    }
    forall f | f in after.flavors
      ensures !FlavorGoes(after, f)
    {
      if after.flavors[f].deleted {
        assert !FlavorGoes(d, f);
        var v :| v in d.versions && d.versions[v].flavor == f && !Archivable(d, v);
        assert v in after.versions && !Archivable(after, v);
      }
    }
    forall c | c in after.chunks
      ensures !ChunkGoes(after, DeletedFlavors(after), c)
    {
      if f :| f in after.flavors && after.flavors[f].chunk == c {
        assert !FlavorGoes(after, f);
      }
    }
  }
}
