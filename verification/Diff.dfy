/** Creating a flavor version: the uploaded manifest is cleaned, checked against its declared tree
    root, compared with the previous version's and stored as a full, sorted manifest. */
module Diff {
  import opened Option
  import opened Order
  import opened Paths

  /** A manifest as what it denotes; of several entries for a path the last one counts. */
  function ToMap(hashes: seq<FileHash>): map<string, string> {
    if hashes == [] then map[]
    else ToMap(hashes[..|hashes| - 1])[hashes[|hashes| - 1].path := hashes[|hashes| - 1].hash]
  }

  ghost predicate Entry(m: map<string, string>, h: FileHash) {
    h.path in m && m[h.path] == h.hash
  }

  /** `s` holds each entry of `m` once, in any order. */
  ghost predicate Holds(s: seq<FileHash>, m: map<string, string>) {
    && (forall i, j | 0 <= i < j < |s| :: s[i].path != s[j].path)
    && (forall h :: h in s <==> Entry(m, h))
  }

  /** `s` is the listing of `m`, strictly sorted by path. */
  ghost predicate Lists(s: seq<FileHash>, m: map<string, string>) {
    StrictlySorted(ByPath, s) && (forall h :: h in s <==> Entry(m, h))
  }

  /** A map has one listing. */
  lemma ListingUnique(a: seq<FileHash>, b: seq<FileHash>, m: map<string, string>)
    requires Lists(a, m) && Lists(b, m)
    ensures a == b
  {
    ByPathWeak();
    SortedUnique(ByPath, a, b);
  }

  /** A strictly sorted manifest lists what it denotes. */
  lemma {:induction false} SortedLists(s: seq<FileHash>)
    requires StrictlySorted(ByPath, s)
    ensures Lists(s, ToMap(s))
  {
    if s != [] {
      var n := |s| - 1;
      SortedLists(s[..n]);
      forall h
        ensures h in s <==> Entry(ToMap(s), h)
      {
        assert s == s[..n] + [s[n]];
        assert h in s[..n] ==> h.path != s[n].path by {
          if h in s[..n] {
            var k :| 0 <= k < n && s[k] == h;
            assert ByPath(s[k], s[n]);
            BeforeTotal(h.path, h.path);
          }
        }
        if h.path == s[n].path {
          assert h in s[..n] <==> Entry(ToMap(s[..n]), h);
        }
      }
    }
  }

  method SortByPath(s: seq<FileHash>, ghost m: map<string, string>) returns (r: seq<FileHash>)
    requires Holds(s, m)
    ensures Lists(r, m)
  {
    ByPathWeak();
    r := Sort(ByPath, s);
    forall i, j | 0 <= i < j < |s|
      ensures ByPath(s[i], s[j]) || ByPath(s[j], s[i])
    {
      BeforeTotal(s[i].path, s[j].path);
    }
    SortedStrictly(ByPath, s, r);
  }

  // ---- The four parts of a comparison ----

  function AddedIn(prev: map<string, string>, up: map<string, string>): map<string, string> {
    map p | p in up && p !in prev :: up[p]
  }

  function ChangedIn(prev: map<string, string>, up: map<string, string>): map<string, string> {
    map p | p in up && p in prev && up[p] != prev[p] :: up[p]
  }

  function UnchangedIn(prev: map<string, string>, up: map<string, string>): map<string, string> {
    map p | p in up && p in prev && up[p] == prev[p] :: up[p]
  }

  function RemovedIn(prev: map<string, string>, up: map<string, string>): map<string, string> {
    map p | p in prev && p !in up :: prev[p]
  }

  datatype FileDiff = FileDiff(added: seq<FileHash>, removed: seq<FileHash>, changed: seq<FileHash>)

  ghost predicate DiffOf(d: FileDiff, prev: map<string, string>, up: map<string, string>) {
    && Lists(d.added, AddedIn(prev, up))
    && Lists(d.removed, RemovedIn(prev, up))
    && Lists(d.changed, ChangedIn(prev, up))
  }

  /** Each part spelled out, and sorted by path. */
  ghost predicate DiffMeans(d: FileDiff, prev: map<string, string>, up: map<string, string>) {
    && (forall h :: h in d.added <==> h.path in up && h.path !in prev && h.hash == up[h.path])
    && (forall h :: h in d.removed <==> h.path in prev && h.path !in up && h.hash == prev[h.path])
    && (forall h :: h in d.changed <==> h.path in up && h.path in prev && h.hash == up[h.path] != prev[h.path])
    && InOrder(d.added) && InOrder(d.removed) && InOrder(d.changed)
  }

  ghost predicate InOrder(s: seq<FileHash>) {
    forall i, j | 0 <= i < j < |s| :: Before(s[i].path, s[j].path)
  }

  lemma SortedInOrder(s: seq<FileHash>)
    requires StrictlySorted(ByPath, s)
    ensures InOrder(s)
  {
    forall i, j | 0 <= i < j < |s|
      ensures Before(s[i].path, s[j].path)
    {
      assert ByPath(s[i], s[j]);
    }
  }

  lemma DiffOfMeans(d: FileDiff, prev: map<string, string>, up: map<string, string>)
    requires DiffOf(d, prev, up)
    ensures DiffMeans(d, prev, up)
  {
    SortedInOrder(d.added);
    SortedInOrder(d.removed);
    SortedInOrder(d.changed);
    forall h
      ensures h in d.added <==> h.path in up && h.path !in prev && h.hash == up[h.path]
      ensures h in d.removed <==> h.path in prev && h.path !in up && h.hash == prev[h.path]
      ensures h in d.changed <==> h.path in up && h.path in prev && h.hash == up[h.path] != prev[h.path]
    {
      assert h in d.added <==> Entry(AddedIn(prev, up), h);
      assert h in d.removed <==> Entry(RemovedIn(prev, up), h);
      assert h in d.changed <==> Entry(ChangedIn(prev, up), h);
    }
  }

  /** Of the entries for a path the last one is what a manifest says of it. */
  lemma {:induction false} ToMapLast(s: seq<FileHash>, p: string)
    ensures p in ToMap(s) <==> exists k | 0 <= k < |s| :: s[k].path == p
    ensures forall k | 0 <= k < |s| && s[k].path == p && (forall j | k < j < |s| :: s[j].path != p) ::
              p in ToMap(s) && ToMap(s)[p] == s[k].hash
  {
    if s != [] {
      var n := |s| - 1;
      ToMapLast(s[..n], p);
      assert forall k | 0 <= k < n :: s[..n][k] == s[k];
    }
  }

  function DropAll(m: map<string, string>, hs: seq<FileHash>): map<string, string> {
    if hs == [] then m else DropAll(m, hs[..|hs| - 1]) - {hs[|hs| - 1].path}
  }

  function PutAll(m: map<string, string>, hs: seq<FileHash>): map<string, string> {
    if hs == [] then m else PutAll(m, hs[..|hs| - 1])[hs[|hs| - 1].path := hs[|hs| - 1].hash]
  }

  /** Carrying a diff out on a manifest, file by file. */
  function Patch(m: map<string, string>, d: FileDiff): map<string, string> {
    PutAll(PutAll(DropAll(m, d.removed), d.changed), d.added)
  }

  lemma {:induction false} DropAllAt(m: map<string, string>, hs: seq<FileHash>, p: string)
    ensures p in DropAll(m, hs) <==> p in m && forall h | h in hs :: h.path != p
    ensures p in DropAll(m, hs) ==> DropAll(m, hs)[p] == m[p]
  {
    if hs != [] {
      DropAllAt(m, hs[..|hs| - 1], p);
      assert hs == hs[..|hs| - 1] + [hs[|hs| - 1]];
    }
  }

  lemma {:induction false} PutAllAt(m: map<string, string>, hs: seq<FileHash>, p: string, part: map<string, string>)
    requires forall h | h in hs :: Entry(part, h)
    ensures (exists h | h in hs :: h.path == p) ==> p in PutAll(m, hs) && p in part && PutAll(m, hs)[p] == part[p]
    ensures (forall h | h in hs :: h.path != p) ==> (p in PutAll(m, hs) <==> p in m) && (p in m ==> PutAll(m, hs)[p] == m[p])
  {
    if hs != [] {
      var last := hs[|hs| - 1];
      PutAllAt(m, hs[..|hs| - 1], p, part);
      assert hs == hs[..|hs| - 1] + [last];
      assert last in hs && Entry(part, last);
    }
  }

  lemma ListedPath(s: seq<FileHash>, m: map<string, string>, p: string)
    requires Lists(s, m)
    ensures p in m <==> exists h | h in s :: h.path == p
  {
    if p in m {
      assert Entry(m, FileHash(p, m[p]));
      assert FileHash(p, m[p]) in s;
    }
  }

  /** The diff is exact: carried out on the previous manifest it gives the uploaded one. */
  lemma PatchGivesUpload(d: FileDiff, prev: map<string, string>, up: map<string, string>)
    requires DiffOf(d, prev, up)
    ensures Patch(prev, d) == up
  {
    var dropped := DropAll(prev, d.removed);
    var changed := PutAll(dropped, d.changed);
    forall p
      ensures p in Patch(prev, d) <==> p in up
      ensures p in up ==> Patch(prev, d)[p] == up[p]
    {
      DropAllAt(prev, d.removed, p);
      PutAllAt(dropped, d.changed, p, ChangedIn(prev, up));
      PutAllAt(changed, d.added, p, AddedIn(prev, up));
      ListedPath(d.removed, RemovedIn(prev, up), p);
      ListedPath(d.changed, ChangedIn(prev, up), p);
      ListedPath(d.added, AddedIn(prev, up), p);
    }
  }

  /** The three parts and the unchanged files never share a path. */
  lemma PartsDisjoint(prev: map<string, string>, up: map<string, string>)
    ensures AddedIn(prev, up).Keys !! ChangedIn(prev, up).Keys !! UnchangedIn(prev, up).Keys !! RemovedIn(prev, up).Keys
    ensures AddedIn(prev, up).Keys + ChangedIn(prev, up).Keys + UnchangedIn(prev, up).Keys == up.Keys
  {
  }

  // ---- The comparison as carried out ----

  method Index(hashes: seq<FileHash>) returns (m: map<string, FileHash>)
    ensures m.Keys == ToMap(hashes).Keys
    ensures forall p | p in m :: m[p] == FileHash(p, ToMap(hashes)[p])
  {
    m := map[];
    for i := 0 to |hashes|
      invariant m.Keys == ToMap(hashes[..i]).Keys
      invariant forall p | p in m :: m[p] == FileHash(p, ToMap(hashes[..i])[p])
    {
      assert hashes[..i + 1][..i] == hashes[..i];
      m := m[hashes[i].path := hashes[i]];
    }
    assert hashes[..|hashes|] == hashes;
  }

  /** `s` grows by the entry at `p`. */
  lemma HoldsMore(s: seq<FileHash>, m: map<string, string>, p: string, hash: string)
    requires Holds(s, m) && p !in m
    ensures Holds(s + [FileHash(p, hash)], m[p := hash])
  {
    var s', m' := s + [FileHash(p, hash)], m[p := hash];
    forall h
      ensures h in s' <==> Entry(m', h)
    {
      assert h in s <==> Entry(m, h);
    }
    forall i, j | 0 <= i < j < |s'|
      ensures s'[i].path != s'[j].path
    {
      assert s'[i] in s && Entry(m, s'[i]);
      if j < |s| {
        assert s'[i] == s[i] && s'[j] == s[j];
      }
    }
  }

  lemma HoldsBoth(a: seq<FileHash>, ma: map<string, string>, b: seq<FileHash>, mb: map<string, string>, m: map<string, string>)
    requires Lists(a, ma) && Lists(b, mb)
    requires ma.Keys !! mb.Keys && m == ma + mb
    ensures Holds(a + b, m)
  {
    forall h
      ensures h in a + b <==> Entry(m, h)
    {
      assert h in a <==> Entry(ma, h);
      assert h in b <==> Entry(mb, h);
    }
    forall i, j | 0 <= i < j < |a + b|
      ensures (a + b)[i].path != (a + b)[j].path
    {
      BeforeTotal((a + b)[i].path, (a + b)[i].path);
      if i < |a| <= j {
        assert a[i] in a && b[j - |a|] in b;
      } else if j < |a| {
        assert ByPath(a[i], a[j]);
      } else {
        assert ByPath(b[i - |a|], b[j - |a|]);
      }
    }
  }

  function Restrict(m: map<string, string>, ps: set<string>): map<string, string> {
    map p | p in m && p in ps :: m[p]
  }

  /** One more path is looked at. */
  lemma RestrictStep(m: map<string, string>, keys: set<string>, todo: set<string>, p: string)
    requires p in todo && todo <= keys
    ensures p !in Restrict(m, keys - todo)
    ensures Restrict(m, keys - (todo - {p})) ==
            if p in m then Restrict(m, keys - todo)[p := m[p]] else Restrict(m, keys - todo)
  {
  }

  lemma RestrictAll(m: map<string, string>, keys: set<string>)
    requires m.Keys <= keys
    ensures Restrict(m, keys - {}) == m && Restrict(m, keys - keys) == map[]
  {
  }

  /** The loop over the previous files, in the order the map hands them out. */
  method CompareWithPrevious(prev: map<string, FileHash>, up: map<string, FileHash>,
                             ghost prevMap: map<string, string>, ghost upMap: map<string, string>)
    returns (same: seq<FileHash>, changed: seq<FileHash>, removed: seq<FileHash>)
    requires prev.Keys == prevMap.Keys && forall p | p in prev :: prev[p] == FileHash(p, prevMap[p])
    requires up.Keys == upMap.Keys && forall p | p in up :: up[p] == FileHash(p, upMap[p])
    ensures Holds(same, UnchangedIn(prevMap, upMap))
    ensures Holds(changed, ChangedIn(prevMap, upMap))
    ensures Holds(removed, RemovedIn(prevMap, upMap))
  {
    same, changed, removed := [], [], [];
    ghost var keys, u, c, r := prevMap.Keys, UnchangedIn(prevMap, upMap), ChangedIn(prevMap, upMap), RemovedIn(prevMap, upMap);
    RestrictAll(u, keys);
    RestrictAll(c, keys);
    RestrictAll(r, keys);
    var todo := prev.Keys;
    while todo != {}
      invariant todo <= keys
      invariant Holds(same, Restrict(u, keys - todo))
      invariant Holds(changed, Restrict(c, keys - todo))
      invariant Holds(removed, Restrict(r, keys - todo))
      decreases todo
    {
      var p :| p in todo;
      RestrictStep(u, keys, todo, p);
      RestrictStep(c, keys, todo, p);
      RestrictStep(r, keys, todo, p);
      if p in up {
        if up[p].hash == prev[p].hash {
          HoldsMore(same, Restrict(u, keys - todo), p, upMap[p]);
          same := same + [up[p]];
        } else {
          HoldsMore(changed, Restrict(c, keys - todo), p, upMap[p]);
          changed := changed + [up[p]];
        }
      } else {
        HoldsMore(removed, Restrict(r, keys - todo), p, prevMap[p]);
        removed := removed + [prev[p]];
      }
      todo := todo - {p};
    }
  }

  method FindAdded(prev: map<string, FileHash>, up: map<string, FileHash>,
                   ghost prevMap: map<string, string>, ghost upMap: map<string, string>)
    returns (added: seq<FileHash>)
    requires prev.Keys == prevMap.Keys
    requires up.Keys == upMap.Keys && forall p | p in up :: up[p] == FileHash(p, upMap[p])
    ensures Holds(added, AddedIn(prevMap, upMap))
  {
    added := [];
    ghost var keys, a := upMap.Keys, AddedIn(prevMap, upMap);
    RestrictAll(a, keys);
    var todo := up.Keys;
    while todo != {}
      invariant todo <= keys
      invariant Holds(added, Restrict(a, keys - todo))
      decreases todo
    {
      var p :| p in todo;
      RestrictStep(a, keys, todo, p);
      if p !in prev {
        HoldsMore(added, Restrict(a, keys - todo), p, upMap[p]);
        added := added + [up[p]];
      }
      todo := todo - {p};
    }
  }

  /** The full manifest, put together from the sorted parts. */
  method Assemble(changed: seq<FileHash>, added: seq<FileHash>, same: seq<FileHash>,
                  ghost pm: map<string, string>, ghost um: map<string, string>)
    returns (all: seq<FileHash>)
    requires Lists(changed, ChangedIn(pm, um)) && Lists(added, AddedIn(pm, um)) && Lists(same, UnchangedIn(pm, um))
    ensures Lists(all, um)
  {
    ghost var cm := ChangedIn(pm, um) + AddedIn(pm, um);
    HoldsBoth(changed, ChangedIn(pm, um), added, AddedIn(pm, um), cm);
    var changes := SortByPath(changed + added, cm);
    HoldsBoth(changes, cm, same, UnchangedIn(pm, um), um);
    all := SortByPath(changes + same, um);
  }

  /** The whole comparison: an exact diff, and the uploaded map's listing as the manifest to store. */
  method Compare(prev: seq<FileHash>, uploaded: seq<FileHash>) returns (d: FileDiff, all: seq<FileHash>)
    ensures DiffOf(d, ToMap(prev), ToMap(uploaded))
    ensures Lists(all, ToMap(uploaded))
  {
    ghost var pm, um := ToMap(prev), ToMap(uploaded);
    var prevMap := Index(prev);
    var upMap := Index(uploaded);
    var same, changed, removed := CompareWithPrevious(prevMap, upMap, pm, um);
    var added := FindAdded(prevMap, upMap, pm, um);

    same := SortByPath(same, UnchangedIn(pm, um));
    changed := SortByPath(changed, ChangedIn(pm, um));
    added := SortByPath(added, AddedIn(pm, um));
    removed := SortByPath(removed, RemovedIn(pm, um));

    all := Assemble(changed, added, same, pm, um);
    d := FileDiff(added, removed, changed);
  }

  // ---- The operation ----

  datatype Refusal =
    | NoActor | AccessDenied | FlavorQueryFailed | FlavorDeleted | VersionQueryFailed | VersionExists
    | MinecraftNotSupported | MinecraftQueryFailed | LatestQueryFailed | NotStored

  /** The answers of the calls around the comparison. */
  datatype Answers = Answers(
    actor: bool, access: bool, flavor: bool, deleted: bool, versionQuery: bool, taken: bool,
    minecraftKnown: bool, minecraftQuery: bool, latest: bool, stored: bool)

  datatype CreateResult =
    | Created(manifest: seq<FileHash>, diff: FileDiff)
    | Refused(why: Refusal)
    | InvalidPaths(violations: seq<Violation>)
    | NoContent
    | HashMismatch

  /** The request reaches the path cleaning. */
  predicate LetThrough(c: Answers) {
    c.actor && c.access && c.flavor && !c.deleted && c.versionQuery && !c.taken && c.minecraftQuery && c.minecraftKnown
  }

  /** The checks before it, in their order; an unknown Minecraft version is told from a failed query. */
  function Refuses(c: Answers): (r: Option<Refusal>)
    ensures r.None? <==> LetThrough(c)
    ensures r != Some(LatestQueryFailed) && r != Some(NotStored)
  {
    if !c.actor then Some(NoActor)
    else if !c.access then Some(AccessDenied)
    else if !c.flavor then Some(FlavorQueryFailed)
    else if c.deleted then Some(FlavorDeleted)
    else if !c.versionQuery then Some(VersionQueryFailed)
    else if c.taken then Some(VersionExists)
    else if !c.minecraftQuery then Some(MinecraftQueryFailed)
    else if !c.minecraftKnown then Some(MinecraftNotSupported)
    else None
  }

  ghost predicate AllGood(hashes: seq<FileHash>) {
    forall i | 0 <= i < |hashes| :: !Bad(hashes[i])
  }

  function HashesOf(s: seq<FileHash>): (r: seq<string>)
    ensures |r| == |s| && forall i | 0 <= i < |s| :: r[i] == s[i].hash
  {
    seq(|s|, i requires 0 <= i < |s| => s[i].hash)
  }

  /** `tree` is the root of the hash tree over a non-empty list of file hashes; an empty list has no
      tree. The request's own list is cleaned in place once the request is let through. */
  method CreateFlavorVersion(c: Answers, hashes: array<FileHash>, declared: string, prev: seq<FileHash>,
                             tree: seq<string> -> string)
    returns (r: CreateResult)
    modifies hashes
    // exactly when each error is returned
    ensures !LetThrough(c) ==> r.Refused? && hashes[..] == old(hashes[..])
    ensures r == Refused(NoActor) <==> !c.actor
    ensures r == Refused(AccessDenied) <==> c.actor && !c.access
    ensures r == Refused(FlavorQueryFailed) <==> c.actor && c.access && !c.flavor
    ensures r == Refused(FlavorDeleted) <==> c.actor && c.access && c.flavor && c.deleted
    ensures r == Refused(VersionQueryFailed) <==> c.actor && c.access && c.flavor && !c.deleted && !c.versionQuery
    ensures r == Refused(VersionExists) <==> c.actor && c.access && c.flavor && !c.deleted && c.versionQuery && c.taken
    ensures r == Refused(MinecraftQueryFailed) <==>
            c.actor && c.access && c.flavor && !c.deleted && c.versionQuery && !c.taken && !c.minecraftQuery
    ensures r == Refused(MinecraftNotSupported) <==>
            && c.actor && c.access && c.flavor && !c.deleted && c.versionQuery && !c.taken
            && c.minecraftQuery && !c.minecraftKnown
    ensures LetThrough(c) ==> forall i | 0 <= i < hashes.Length :: hashes[i] == Cleaned(old(hashes[i]))
    ensures r.InvalidPaths? <==> LetThrough(c) && !AllGood(old(hashes[..]))
    ensures r.InvalidPaths? ==> Reports(Bad, r.violations, old(hashes[..]), hashes.Length)
    ensures r == Refused(LatestQueryFailed) <==> LetThrough(c) && AllGood(old(hashes[..])) && !c.latest
    ensures r.NoContent? <==> LetThrough(c) && c.latest && hashes.Length == 0
    ensures LetThrough(c) && AllGood(old(hashes[..])) && c.latest && hashes.Length > 0 ==>
              && (r.HashMismatch? <==> tree(HashesOf(hashes[..])) != declared)
              && (r == Refused(NotStored) <==> tree(HashesOf(hashes[..])) == declared && !c.stored)
              && (r.Created? <==> tree(HashesOf(hashes[..])) == declared && c.stored)
    // what is stored and returned otherwise
    ensures r.Created? ==>
              && DiffOf(r.diff, ToMap(prev), ToMap(hashes[..])) && DiffMeans(r.diff, ToMap(prev), ToMap(hashes[..]))
              && Lists(r.manifest, ToMap(hashes[..]))
              && (forall h | h in r.manifest :: Good(h.path))
              && (r.manifest == hashes[..] <==> StrictlySorted(ByPath, hashes[..]))
  {
    if Refuses(c).Some? {
      return Refused(Refuses(c).value);
    }
    var violations := CleanFileHashPaths(hashes);
    if violations != [] {
      assert Bad(old(hashes[..])[violations[0].index]);
      return InvalidPaths(violations);
    }
    if !c.latest {
      return Refused(LatestQueryFailed);
    }
    if hashes.Length == 0 {
      return NoContent;
    }
    var uploaded := hashes[..];
    if tree(HashesOf(uploaded)) != declared {
      return HashMismatch;
    }
    var d, all := Compare(prev, uploaded);
    if !c.stored {
      return Refused(NotStored);
    }
    ManifestGood(uploaded, all);
    DiffOfMeans(d, ToMap(prev), ToMap(uploaded));
    if StrictlySorted(ByPath, uploaded) {
      SortedLists(uploaded);
      ListingUnique(uploaded, all, ToMap(uploaded));
    }
    return Created(all, d);
  }

  lemma {:induction false} FromMap(s: seq<FileHash>, p: string)
    requires p in ToMap(s)
    ensures FileHash(p, ToMap(s)[p]) in s
  {
    if s[|s| - 1].path != p {
      FromMap(s[..|s| - 1], p);
    }
  }

  lemma ManifestGood(uploaded: seq<FileHash>, all: seq<FileHash>)
    requires forall i | 0 <= i < |uploaded| :: Good(uploaded[i].path)
    requires Lists(all, ToMap(uploaded))
    ensures forall h | h in all :: Good(h.path)
  {
    forall h | h in all
      ensures Good(h.path)
    {
      assert Entry(ToMap(uploaded), h);
      FromMap(uploaded, h.path);
    }
  }
}
