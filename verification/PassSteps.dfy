/** The archive pass of `ArchivePass` as steps of `Pipeline`: whatever order the maps are walked in, the
    machine can take the pass from the same tables to the same tables. */
module PassSteps {
  import opened Option
  import opened Pipeline
  import A = ArchivePass

  function DataOf(s: System): A.Data {
    A.Data(s.chunks, s.flavors, s.versions, s.instances, s.oldChunks, s.oldFlavors, s.oldVersions)
  }

  /** The system `s` with the tables `d`, and pass `p` where `a` says. */
  function With(s: System, d: A.Data, p: Id, a: Pass): System {
    s.(chunks := d.chunks, flavors := d.flavors, versions := d.versions, instances := d.instances,
       oldChunks := d.oldChunks, oldFlavors := d.oldFlavors, oldVersions := d.oldVersions,
       passes := s.passes[p := a])
  }

  /** Where the steps lead; `None` when one of them is not possible where it stands. */
  function Follow(s: System, p: Id, xs: seq<PassAct>): Option<System> {
    if xs == [] then Some(s)
    else
      match Follow(s, p, xs[..|xs| - 1])
      case None => None
      case Some(t) => if Steps(t, p, xs[|xs| - 1]) then Some(Step(t, p, xs[|xs| - 1])) else None
  }

  /** The steps `xs` of pass `p` lead from `s` to the tables `d` and to `a`. */
  predicate Reaches(s: System, p: Id, xs: seq<PassAct>, d: A.Data, a: Pass) {
    Follow(s, p, xs) == Some(With(s, d, p, a))
  }

  lemma Goes(s: System, p: Id, xs: seq<PassAct>, d: A.Data, a: Pass, x: PassAct, d': A.Data, a': Pass)
    requires Reaches(s, p, xs, d, a) && Steps(With(s, d, p, a), p, x)
    requires var t := With(s, d, p, a);
             var e := PassEffect(t, p, x);
             e.1 == a' && DataOf(Moved(t, e.0)) == d'
    ensures Reaches(s, p, xs + [x], d', a')
  {
    assert (xs + [x])[..|xs|] == xs;
    assert s.passes[p := a][p := a'] == s.passes[p := a'];
  }

  // ---- The versions of one flavor ----

  function WithoutVersions(d: A.Data, vs: set<Id>): A.Data {
    d.(versions := d.versions - vs, oldVersions := d.oldVersions + vs)
  }

  /** What the pass read with the flavor is still in the table. */
  predicate AsRead(d: A.Data, left: map<Id, BuildStatus>) {
    forall v | v in left :: v in d.versions && d.versions[v].status == left[v] && v !in d.oldVersions
  }

  lemma VersionPath(s: System, p: Id, xs: seq<PassAct>, d: A.Data, f: Id, c: Id, left: map<Id, BuildStatus>,
                    todo: map<Id, Id>, v: Id)
    returns (xs': seq<PassAct>)
    requires Reaches(s, p, xs, d, Scanning(f, c, left, todo)) && AsRead(d, left) && v in left
    ensures Reaches(s, p, xs', if A.Archivable(d, v) then WithoutVersions(d, {v}) else d, Scanning(f, c, left - {v}, todo))
  {
    var a := Scanning(f, c, left, todo);
    var t := With(s, d, p, a);
    assert HasInstances(t, v) <==> A.InUse(d, v);
    if !A.Archivable(d, v) {
      Goes(s, p, xs, d, a, SkipVersion(v), d, Scanning(f, c, left - {v}, todo));
      return xs + [SkipVersion(v)];
    }
    var a' := Moving(v, f, c, left - {v}, todo);
    Goes(s, p, xs, d, a, Count(v), d, a');
    Goes(s, p, xs + [Count(v)], d, a', MoveVersion(true), WithoutVersions(d, {v}), Scanning(f, c, left - {v}, todo));
    return xs + [Count(v)] + [MoveVersion(true)];
  }

  function GoneOf(d: A.Data, left: map<Id, BuildStatus>): set<Id>
    requires AsRead(d, left)
  {
    set v | v in left && A.Archivable(d, v)
  }

  lemma GoneStep(d: A.Data, left: map<Id, BuildStatus>, v: Id)
    requires AsRead(d, left) && v in left
    ensures var d' := if A.Archivable(d, v) then WithoutVersions(d, {v}) else d;
            && AsRead(d', left - {v})
            && WithoutVersions(d', GoneOf(d', left - {v})) == WithoutVersions(d, GoneOf(d, left))
  {
    var d' := if A.Archivable(d, v) then WithoutVersions(d, {v}) else d;
    forall w | w in left - {v}
      ensures A.Archivable(d', w) <==> A.Archivable(d, w)
    {
    }
    if A.Archivable(d, v) {
      assert GoneOf(d, left) == {v} + GoneOf(d', left - {v});
      assert d.versions - {v} - GoneOf(d', left - {v}) == d.versions - GoneOf(d, left);
      assert d.oldVersions + {v} + GoneOf(d', left - {v}) == d.oldVersions + GoneOf(d, left);
    } else {
      assert GoneOf(d, left) == GoneOf(d', left - {v});
    }
  }

  /** The loop over the versions, in any order. */
  lemma {:induction false} VersionsPath(s: System, p: Id, xs: seq<PassAct>, d: A.Data, f: Id, c: Id,
                                        left: map<Id, BuildStatus>, todo: map<Id, Id>)
    returns (xs': seq<PassAct>)
    requires Reaches(s, p, xs, d, Scanning(f, c, left, todo)) && AsRead(d, left)
    ensures Reaches(s, p, xs', WithoutVersions(d, GoneOf(d, left)), Scanning(f, c, map[], todo))
    decreases left.Keys
  {
    if left == map[] {
      assert GoneOf(d, left) == {};
      assert d.versions - {} == d.versions && d.oldVersions + {} == d.oldVersions;
      return xs;
    }
    var v :| v in left;
    xs' := VersionPath(s, p, xs, d, f, c, left, todo, v);
    GoneStep(d, left, v);
    assert (left - {v}).Keys == left.Keys - {v};
    xs' := VersionsPath(s, p, xs', if A.Archivable(d, v) then WithoutVersions(d, {v}) else d, f, c, left - {v}, todo);
  }

  // ---- One flavor and its chunk ----

  function WithoutFlavor(d: A.Data, f: Id): A.Data {
    d.(flavors := d.flavors - {f}, oldFlavors := d.oldFlavors + {f})
  }

  function WithoutChunk(d: A.Data, c: Id): A.Data {
    d.(chunks := d.chunks - {c}, oldChunks := d.oldChunks + {c})
  }

  function AfterVersions(d: A.Data, f: Id): A.Data {
    WithoutVersions(d, A.OwnGone(d, f))
  }

  function AfterFlavor(d: A.Data, f: Id): A.Data {
    var d' := AfterVersions(d, f);
    if A.OwnsVersion(d', f) then d' else WithoutFlavor(d', f)
  }

  function AfterRound(d: A.Data, f: Id, c: Id): A.Data {
    var d' := AfterFlavor(d, f);
    if c in d'.chunks && !A.OwnsFlavor(d', c) then WithoutChunk(d', c) else d'
  }

  predicate Apart(d: A.Data) {
    d.chunks.Keys !! d.oldChunks && d.flavors.Keys !! d.oldFlavors && d.versions.Keys !! d.oldVersions
  }

  lemma ScanPath(s: System, p: Id, xs: seq<PassAct>, d: A.Data, f: Id, todo: map<Id, Id>) returns (xs': seq<PassAct>)
    requires Reaches(s, p, xs, d, Visiting(todo)) && f in todo && f in d.flavors && Apart(d)
    ensures Reaches(s, p, xs', AfterVersions(d, f), Scanning(f, todo[f], map[], todo - {f}))
  {
    var left := VersionsOf(With(s, d, p, Visiting(todo)), f);
    Goes(s, p, xs, d, Visiting(todo), ReadFlavor(f), d, Scanning(f, todo[f], left, todo - {f}));
    xs' := VersionsPath(s, p, xs + [ReadFlavor(f)], d, f, todo[f], left, todo - {f});
    assert GoneOf(d, left) == A.OwnGone(d, f);
  }

  lemma NoVersions(t: System, f: Id)
    requires forall v | v in t.versions :: t.versions[v].flavor != f
    ensures VersionsOf(t, f) == map[]
    ensures t.versions == map v | v in t.versions && t.versions[v].flavor != f :: t.versions[v]
  {
  }

  lemma FlavorPath(s: System, p: Id, xs: seq<PassAct>, d: A.Data, f: Id, c: Id, todo: map<Id, Id>)
    returns (xs': seq<PassAct>)
    requires Reaches(s, p, xs, d, Scanning(f, c, map[], todo)) && f in d.flavors && Apart(d)
    ensures Reaches(s, p, xs', if A.OwnsVersion(d, f) then d else WithoutFlavor(d, f), AtChunk(c, todo))
  {
    var a := Scanning(f, c, map[], todo);
    var t := With(s, d, p, a);
    if v :| v in d.versions && d.versions[v].flavor == f {
      assert v in VersionsOf(t, f);
      Goes(s, p, xs, d, a, ReadAgain(true), d, AtChunk(c, todo));
      return xs + [ReadAgain(true)];
    }
    NoVersions(t, f);
    Goes(s, p, xs, d, a, ReadAgain(true), d, Bare(f, c, todo));
    xs' := BarePath(s, p, xs + [ReadAgain(true)], d, f, c, todo);
  }

  lemma BarePath(s: System, p: Id, xs: seq<PassAct>, d: A.Data, f: Id, c: Id, todo: map<Id, Id>)
    returns (xs': seq<PassAct>)
    requires Reaches(s, p, xs, d, Bare(f, c, todo)) && f in d.flavors && Apart(d) && !A.OwnsVersion(d, f)
    ensures Reaches(s, p, xs', WithoutFlavor(d, f), AtChunk(c, todo))
  {
    NoVersions(With(s, d, p, Bare(f, c, todo)), f);
    Goes(s, p, xs, d, Bare(f, c, todo), MoveFlavor(true), WithoutFlavor(d, f), AtChunk(c, todo));
    return xs + [MoveFlavor(true)];
  }

  lemma ChunkPath(s: System, p: Id, xs: seq<PassAct>, d: A.Data, c: Id, todo: map<Id, Id>) returns (xs': seq<PassAct>)
    requires Reaches(s, p, xs, d, AtChunk(c, todo)) && Apart(d)
    ensures Reaches(s, p, xs', if c in d.chunks && !A.OwnsFlavor(d, c) then WithoutChunk(d, c) else d, Visiting(todo))
  {
    var t := With(s, d, p, AtChunk(c, todo));
    assert HasFlavors(t, c) <==> A.OwnsFlavor(d, c);
    if c !in d.chunks || A.OwnsFlavor(d, c) {
      Goes(s, p, xs, d, AtChunk(c, todo), ReadChunk(true), d, Visiting(todo));
      return xs + [ReadChunk(true)];
    }
    Goes(s, p, xs, d, AtChunk(c, todo), ReadChunk(true), d, Childless(c, todo));
    assert HasFlavors(With(s, d, p, Childless(c, todo)), c) <==> A.OwnsFlavor(d, c);
    Goes(s, p, xs + [ReadChunk(true)], d, Childless(c, todo), MoveChunk(true), WithoutChunk(d, c), Visiting(todo));
    return xs + [ReadChunk(true)] + [MoveChunk(true)];
  }

  lemma RoundPath(s: System, p: Id, xs: seq<PassAct>, d: A.Data, f: Id, todo: map<Id, Id>) returns (xs': seq<PassAct>)
    requires Reaches(s, p, xs, d, Visiting(todo)) && f in todo && f in d.flavors && Apart(d)
    ensures Reaches(s, p, xs', AfterRound(d, f, todo[f]), Visiting(todo - {f}))
  {
    xs' := ScanPath(s, p, xs, d, f, todo);
    assert Apart(AfterVersions(d, f));
    xs' := FlavorPath(s, p, xs', AfterVersions(d, f), f, todo[f], todo - {f});
    assert Apart(AfterFlavor(d, f));
    xs' := ChunkPath(s, p, xs', AfterFlavor(d, f), todo[f], todo - {f});
  }

  // ---- The whole pass ----

  lemma OwnGoneStays(d: A.Data, cs: set<Id>, fs: set<Id>, vs: set<Id>, f: Id)
    requires forall v | v in vs :: v in d.versions && d.versions[v].flavor != f
    ensures AfterVersions(A.Moved(d, cs, fs, vs), f) == A.Moved(d, cs, fs, vs + A.OwnGone(d, f))
  {
    var now := A.Moved(d, cs, fs, vs);
    assert forall v :: A.InUse(now, v) <==> A.InUse(d, v);
    assert A.OwnGone(now, f) == A.OwnGone(d, f);
    assert d.versions - vs - A.OwnGone(d, f) == d.versions - (vs + A.OwnGone(d, f));
    assert d.oldVersions + vs + A.OwnGone(d, f) == d.oldVersions + (vs + A.OwnGone(d, f));
  }

  lemma AfterFlavorIs(d: A.Data, cs: set<Id>, fs: set<Id>, vs: set<Id>, f: Id)
    requires f in d.flavors && d.flavors[f].deleted
    requires forall v | v in vs :: v in d.versions && d.versions[v].flavor != f
    ensures AfterFlavor(A.Moved(d, cs, fs, vs), f) == A.Moved(d, cs, fs + A.FlavorIf(d, f), vs + A.OwnGone(d, f))
  {
    OwnGoneStays(d, cs, fs, vs, f);
    A.VersionsLeft(d, cs, fs, vs, f);
    assert d.flavors - fs - {f} == d.flavors - (fs + {f});
    assert d.oldFlavors + fs + {f} == d.oldFlavors + (fs + {f});
    assert fs + {} == fs;
  }

  /** A round of the machine is a round of the walk. */
  lemma RoundIs(d: A.Data, done: set<Id>, f: Id)
    requires A.Valid(d) && f in d.flavors && d.flavors[f].deleted && f !in done
    ensures AfterRound(A.After(d, done), f, d.flavors[f].chunk) == A.After(d, done + {f})
  {
    var cs, fs, vs := A.ChunksGone(d, done), A.FlavorsGone(d, done), A.VersionsGone(d, done);
    var c, fs', vs' := d.flavors[f].chunk, fs + A.FlavorIf(d, f), vs + A.OwnGone(d, f);
    A.VisitedMore(d, done, f);
    A.ChunksMore(d, done, f);
    AfterFlavorIs(d, cs, fs, vs, f);
    A.ChunkLeft(d, cs, fs', vs', c);
    assert cs + {} == cs;
  }

  /** The deleted flavors still to be visited, with their chunks. */
  function Unvisited(d: A.Data, done: set<Id>): map<Id, Id> {
    map f | f in d.flavors && d.flavors[f].deleted && f !in done :: d.flavors[f].chunk
  }

  lemma ListPath(s: System, p: Id) returns (xs: seq<PassAct>)
    requires p !in s.passes
    ensures Reaches(s, p, xs, DataOf(s), Visiting(Unvisited(DataOf(s), {})))
  {
    xs := [List];
    var todo := Unvisited(DataOf(s), {});
    var e := PassEffect(s, p, List);
    assert e.1.Visiting? && e.1.todo == todo;
    assert Follow(s, p, xs[..|xs| - 1]) == Some(s);
    assert Follow(s, p, xs) == Some(Step(s, p, List));
  }

  lemma StillThere(d: A.Data, done: set<Id>, f: Id)
    requires A.Valid(d) && f in d.flavors && f !in done
    ensures f in A.After(d, done).flavors && Apart(A.After(d, done))
  {
  }

  lemma VisitPath(s: System, p: Id, xs: seq<PassAct>, d: A.Data, done: set<Id>, f: Id) returns (xs': seq<PassAct>)
    requires A.Valid(d) && f in d.flavors && d.flavors[f].deleted && f !in done
    requires Reaches(s, p, xs, A.After(d, done), Visiting(Unvisited(d, done)))
    ensures Reaches(s, p, xs', A.After(d, done + {f}), Visiting(Unvisited(d, done + {f})))
  {
    StillThere(d, done, f);
    RoundIs(d, done, f);
    xs' := RoundPath(s, p, xs, A.After(d, done), f, Unvisited(d, done));
    assert Unvisited(d, done) - {f} == Unvisited(d, done + {f});
  }

  /** In whatever order the deleted flavors are visited, the pass is a path of the machine. */
  lemma {:induction false} PassIsPath(s: System, p: Id, order: seq<Id>, done: set<Id>) returns (xs: seq<PassAct>)
    requires p !in s.passes && A.Valid(DataOf(s)) && A.Visits(order, done) && done <= A.DeletedFlavors(DataOf(s))
    ensures Reaches(s, p, xs, A.After(DataOf(s), done), Visiting(Unvisited(DataOf(s), done)))
    decreases |order|
  {
    var d := DataOf(s);
    if order == [] {
      assert done == {};
      A.NothingYet(d);
      xs := ListPath(s, p);
    } else {
      var f, before := order[|order| - 1], order[..|order| - 1];
      assert order == before + [f];
      assert A.Visits(before, done - {f});
      assert done - {f} + {f} == done;
      xs := PassIsPath(s, p, before, done - {f});
      xs := VisitPath(s, p, xs, d, done - {f}, f);
    }
  }

  /** The worker's pass on the tables of a system `s`: the machine can take the steps `xs` of a new pass
      and ends with the same tables. */
  method PassInSystem(db: A.Database, ghost s: System, ghost p: Id) returns (ghost xs: seq<PassAct>)
    requires A.Valid(db.data) && db.data == DataOf(s) && p !in s.passes
    modifies db
    ensures Reaches(s, p, xs, db.data, Visiting(map[]))
  {
    ghost var d := db.data;
    ghost var order := A.Pass(db);
    xs := PassIsPath(s, p, order, A.DeletedFlavors(d));
    assert Unvisited(d, A.DeletedFlavors(d)) == map[];
  }
}
