/** Building an image: the worker unpacks the delta the client uploaded, uploads it to the
    content-addressed store, and fetches everything else of the manifest from there by hash. */
module ImageBuild {
  import opened Option
  import opened Paths
  import opened Diff
  import opened Blob
  import opened Byte

  datatype TarEntry = TarEntry(name: string, regular: bool, content: Bytes)

  type FileMap = map<string, Bytes>

  class Files {
    var content: FileMap

    constructor (c: FileMap)
      ensures content == c
    {
      content := c;
    }
  }

  /** Where a file of the tarball or the manifest is written. */
  function Target(job: string, name: string): string {
    JoinPath(ServerRoot(job), name)
  }

  // ---- Unpacking ----

  /** A later entry overwrites an earlier one; anything but a regular file is skipped. */
  function Unpack(job: string, entries: seq<TarEntry>, fs: FileMap): FileMap {
    if entries == [] then fs
    else
      var e, before := entries[|entries| - 1], Unpack(job, entries[..|entries| - 1], fs);
      if e.regular then before[Target(job, e.name) := e.content] else before
  }

  function Targets(job: string, entries: seq<TarEntry>): seq<string> {
    if entries == [] then []
    else
      var e, before := entries[|entries| - 1], Targets(job, entries[..|entries| - 1]);
      if e.regular then before + [Target(job, e.name)] else before
  }

  predicate Writes(job: string, e: TarEntry, t: string) {
    e.regular && Target(job, e.name) == t
  }

  /** Which file is where after unpacking, for any tarball: where no regular entry is written, what was there
      before. */
  lemma {:induction false} UnpackElsewhere(job: string, entries: seq<TarEntry>, fs: FileMap, t: string)
    requires forall i | 0 <= i < |entries| :: !Writes(job, entries[i], t)
    ensures var after := Unpack(job, entries, fs); (t in after <==> t in fs) && (t in fs ==> after[t] == fs[t])
  {
    if entries != [] {
      UnpackElsewhere(job, entries[..|entries| - 1], fs, t);
      assert !Writes(job, entries[|entries| - 1], t);
    }
  }

  /** And under each target the content of the last regular entry written there. */
  lemma {:induction false} UnpackLast(job: string, entries: seq<TarEntry>, fs: FileMap, t: string, k: nat)
    requires k < |entries| && Writes(job, entries[k], t) && forall i | k < i < |entries| :: !Writes(job, entries[i], t)
    ensures var after := Unpack(job, entries, fs); t in after && after[t] == entries[k].content
  {
    var n := |entries| - 1;
    if k < n {
      UnpackLast(job, entries[..n], fs, t, k);
      assert !Writes(job, entries[n], t);
    }
  }

  /** The paths handed on are the targets of the regular entries, and no others. */
  lemma {:induction false} TargetsMean(job: string, entries: seq<TarEntry>, t: string)
    ensures t in Targets(job, entries) <==>
            exists i | 0 <= i < |entries| :: Writes(job, entries[i], t)
  {
    if entries != [] {
      var n := |entries| - 1;
      TargetsMean(job, entries[..n], t);
      assert forall i | 0 <= i < n :: entries[..n][i] == entries[i];
      if i :| 0 <= i < n && Writes(job, entries[..n][i], t) {
        assert Writes(job, entries[i], t);
      }
    }
  }

  method Untar(fs: Files, job: string, entries: seq<TarEntry>, written: seq<bool>) returns (ok: bool, paths: seq<string>)
    requires |written| == |entries|
    modifies fs
    ensures ok ==> fs.content == Unpack(job, entries, old(fs.content)) && paths == Targets(job, entries)
    ensures ok <==> forall i | 0 <= i < |entries| && entries[i].regular :: written[i]
  {
    paths := [];
    for i := 0 to |entries|
      invariant fs.content == Unpack(job, entries[..i], old(fs.content)) && paths == Targets(job, entries[..i])
      invariant forall j | 0 <= j < i && entries[j].regular :: written[j]
    {
      assert entries[..i + 1][..i] == entries[..i];
      if !entries[i].regular {
        continue;
      }
      var target := Target(job, entries[i].name);
      paths := paths + [target];
      if !written[i] {
        return false, paths;
      }
      fs.content := fs.content[target := entries[i].content];
    }
    assert entries[..|entries|] == entries;
    ok := true;
  }

  // ---- Uploading ----

  method OpenFiles(hash: Bytes -> string, fs: Files, paths: seq<string>) returns (objs: seq<Object>)
    requires forall p | p in paths :: p in fs.content
    ensures |objs| == |paths|
    ensures forall j | 0 <= j < |objs| :: fresh(objs[j].data) && objs[j].data.Valid() && Ready(hash, objs[j])
    ensures forall j | 0 <= j < |objs| :: objs[j].data.data == fs.content[paths[j]] && !objs[j].data.closed
    ensures forall j, k | 0 <= j < k < |objs| :: objs[j].data != objs[k].data
  {
    objs := [];
    for i := 0 to |paths|
      invariant |objs| == i
      invariant forall j | 0 <= j < i :: fresh(objs[j].data) && objs[j].data.Valid() && Ready(hash, objs[j])
      invariant forall j | 0 <= j < i :: objs[j].data.data == fs.content[paths[j]] && !objs[j].data.closed
      invariant forall j, k | 0 <= j < k < i :: objs[j].data != objs[k].data
    {
      var file := new Reader(fs.content[paths[i]]);
      objs := objs + [Object(file, "")];
    }
  }

  /** Opens the files and hands them to the store. `opens` says whether they all could be opened. */
  method UploadFiles(hash: Bytes -> string, fs: Files, bucket: Bucket, paths: seq<string>, opens: bool, attempts: seq<Attempt>)
    returns (ok: bool)
    requires |attempts| == |paths|
    requires forall p | p in paths :: p in fs.content
    modifies bucket
    ensures Grows(hash, old(bucket.objects), bucket.objects, set p | p in paths :: fs.content[p])
    ensures ok ==> forall i | 0 <= i < |paths| :: hash(fs.content[paths[i]]) in bucket.objects
    ensures opens && (forall a | a in attempts :: !a.readFails && !a.headFails && a.upload == Stored) ==> ok
  {
    if !opens {
      return false;
    }
    var objs := OpenFiles(hash, fs, paths);
    assert forall j | 0 <= j < |objs| :: !Shared(objs, j);
    ok := bucket.PutBlob(hash, objs, attempts);
    assert forall i | 0 <= i < |objs| :: objs[i] in objs;
    assert (set o | o in objs :: o.data.data) == set p | p in paths :: fs.content[p] by {
      SameContents(objs, paths, fs.content);
    }
  }

  lemma SameContents(objs: seq<Object>, paths: seq<string>, content: FileMap)
    requires |objs| == |paths| && forall p | p in paths :: p in content
    requires forall j | 0 <= j < |objs| :: objs[j].data.data == content[paths[j]]
    ensures (set o | o in objs :: o.data.data) == set p | p in paths :: content[p]
  {
  }

  // ---- Fetching the rest ----

  function Missing(all: seq<FileHash>, have: set<string>): seq<FileHash> {
    if all == [] then []
    else
      var h, before := all[|all| - 1], Missing(all[..|all| - 1], have);
      if h.path in have then before else before + [h]
  }

  function FetchAll(job: string, want: seq<FileHash>, objects: map<string, Bytes>, fs: FileMap): FileMap
    requires forall h | h in want :: h.hash in objects
  {
    if want == [] then fs
    else
      var h := want[|want| - 1];
      FetchAll(job, want[..|want| - 1], objects, fs)[Target(job, h.path) := objects[h.hash]]
  }

  /** The unpacked paths as they are named in the manifest. */
  function Stripped(job: string, paths: seq<string>): set<string> {
    set p | p in paths :: RemoveFirst(p, ServerRoot(job) + "/")
  }

  method Wanted(job: string, all: seq<FileHash>, have: seq<string>) returns (want: seq<FileHash>)
    ensures want == Missing(all, Stripped(job, have)) && |want| <= |all|
  {
    var cleaned: set<string> := {};
    for i := 0 to |have|
      invariant cleaned == Stripped(job, have[..i])
    {
      assert have[..i + 1] == have[..i] + [have[i]];
      cleaned := cleaned + {RemoveFirst(have[i], ServerRoot(job) + "/")};
    }
    assert have[..|have|] == have;

    want := [];
    for i := 0 to |all|
      invariant want == Missing(all[..i], cleaned) && |want| <= i
    {
      assert all[..i + 1][..i] == all[..i];
      if all[i].path !in cleaned {
        want := want + [all[i]];
      }
    }
    assert all[..|all|] == all;
  }

  /** Creates the file and copies the blob into it. */
  method Fetch(fs: Files, bucket: Bucket, path: string, h: string, fetched: bool) returns (ok: bool)
    modifies fs
    ensures ok <==> fetched && h in bucket.objects
    ensures ok ==> fs.content == old(fs.content)[path := bucket.objects[h]]
  {
    fs.content := fs.content[path := []];
    if !fetched || h !in bucket.objects {
      return false;
    }
    fs.content := fs.content[path := bucket.objects[h]];
    return true;
  }

  method DownloadMissing(fs: Files, bucket: Bucket, job: string, all: seq<FileHash>, have: seq<string>, fetched: seq<bool>)
    returns (ok: bool)
    requires |fetched| == |all|
    modifies fs
    ensures var want := Missing(all, Stripped(job, have));
            && |want| <= |all|
            && (ok <==> forall i | 0 <= i < |want| :: fetched[i] && want[i].hash in bucket.objects)
            && (ok ==> (forall h | h in want :: h.hash in bucket.objects)
                       && fs.content == FetchAll(job, want, bucket.objects, old(fs.content)))
  {
    var want := Wanted(job, all, have);
    for i := 0 to |want|
      invariant forall k | 0 <= k < i :: fetched[k] && want[k].hash in bucket.objects
      invariant forall h | h in want[..i] :: h.hash in bucket.objects
      invariant fs.content == FetchAll(job, want[..i], bucket.objects, old(fs.content))
    {
      assert want[..i + 1][..i] == want[..i];
      ok := Fetch(fs, bucket, Target(job, want[i].path), want[i].hash, fetched[i]);
      if !ok {
        return false;
      }
    }
    assert want[..|want|] == want;
    ok := true;
  }

  // ---- A whole build ----

  /** Which calls of a build succeed, file by file. */
  datatype Io = Io(written: seq<bool>, opens: bool, attempts: seq<Attempt>, fetched: seq<bool>)

  predicate Fits(io: Io, job: string, entries: seq<TarEntry>, all: seq<FileHash>) {
    |io.written| == |entries| && |io.attempts| == |Targets(job, entries)| && |io.fetched| == |all|
  }

  predicate Flawless(io: Io) {
    && io.opens
    && (forall i | 0 <= i < |io.written| :: io.written[i])
    && (forall a | a in io.attempts :: !a.readFails && !a.headFails && a.upload == Stored)
    && (forall i | 0 <= i < |io.fetched| :: io.fetched[i])
  }

  /** The tarball holds only files of the manifest, with the content the manifest asks for. */
  ghost predicate Matches(hash: Bytes -> string, entries: seq<TarEntry>, m: map<string, string>) {
    forall i | 0 <= i < |entries| && entries[i].regular ::
      Good(entries[i].name) && Entry(m, FileHash(entries[i].name, hash(entries[i].content)))
  }

  /** The names of a tarball's regular files. */
  function Names(entries: seq<TarEntry>): set<string> {
    set i | 0 <= i < |entries| && entries[i].regular :: entries[i].name
  }

  function Contents(entries: seq<TarEntry>): set<Bytes> {
    set i | 0 <= i < |entries| && entries[i].regular :: entries[i].content
  }

  /** Exactly the manifest's files, each with a content that has its manifest hash. */
  ghost predicate Snapshot(hash: Bytes -> string, job: string, m: map<string, string>, fs: FileMap) {
    && (forall f | f in fs :: exists p | p in m :: f == Target(job, p))
    && (forall p | p in m :: Target(job, p) in fs && hash(fs[Target(job, p)]) == m[p])
  }

  /** Files an earlier attempt of the same job may have left behind, in any state. */
  ghost predicate Leftovers(job: string, m: map<string, string>, fs: FileMap) {
    forall f | f in fs :: exists p | p in m :: f == Target(job, p)
  }

  lemma TargetUnique(job: string, p: string, q: string)
    requires Name(job) && Good(p) && Good(q) && Target(job, p) == Target(job, q)
    ensures p == q
  {
    RootInjective(job, p, q);
  }

  /** The unpacked files, as the manifest names them. */
  lemma {:induction false} StrippedNames(hash: Bytes -> string, job: string, entries: seq<TarEntry>, m: map<string, string>)
    requires Name(job) && Matches(hash, entries, m)
    ensures Stripped(job, Targets(job, entries)) == Names(entries)
  {
    if entries != [] {
      var n := |entries| - 1;
      var e, before := entries[n], entries[..n];
      StrippedNames(hash, job, before, m);
      assert Names(entries) == Names(before) + if e.regular then {e.name} else {} by {
        assert forall i | 0 <= i < n :: before[i] == entries[i];
      }
      if e.regular {
        RootRoundTrip(job, e.name);
        var ts := Targets(job, before);
        assert Stripped(job, ts + [Target(job, e.name)]) == Stripped(job, ts) + {e.name};
      }
    }
  }

  /** After unpacking, every unpacked file is in place with its manifest hash, the rest is as before. */
  lemma {:induction false} UnpackAt(hash: Bytes -> string, job: string, entries: seq<TarEntry>, fs: FileMap, m: map<string, string>, p: string)
    requires Name(job) && Matches(hash, entries, m) && Good(p)
    ensures var after := Unpack(job, entries, fs);
            && (p in Names(entries) ==> p in m && Target(job, p) in after && hash(after[Target(job, p)]) == m[p])
            && (p !in Names(entries) ==>
                  && (Target(job, p) in after <==> Target(job, p) in fs)
                  && (Target(job, p) in fs ==> after[Target(job, p)] == fs[Target(job, p)]))
  {
    if entries != [] {
      var n := |entries| - 1;
      var e, before := entries[n], entries[..n];
      UnpackAt(hash, job, before, fs, m, p);
      assert p in Names(entries) <==> p in Names(before) || (e.regular && e.name == p) by {
        assert forall i | 0 <= i < n :: before[i] == entries[i];
      }
      if e.regular && e.name != p && Target(job, e.name) == Target(job, p) {
        TargetUnique(job, e.name, p);
      }
    }
  }

  lemma {:induction false} UnpackKeys(hash: Bytes -> string, job: string, entries: seq<TarEntry>, fs: FileMap, m: map<string, string>)
    requires Matches(hash, entries, m) && Leftovers(job, m, fs)
    ensures Leftovers(job, m, Unpack(job, entries, fs))
  {
    if entries != [] {
      UnpackKeys(hash, job, entries[..|entries| - 1], fs, m);
    }
  }

  lemma {:induction false} TargetsThere(job: string, entries: seq<TarEntry>, fs: FileMap)
    ensures forall t | t in Targets(job, entries) ::
              t in Unpack(job, entries, fs) && Unpack(job, entries, fs)[t] in Contents(entries)
  {
    if entries != [] {
      var n := |entries| - 1;
      TargetsThere(job, entries[..n], fs);
      assert forall i | 0 <= i < n :: entries[..n][i] == entries[i];
      assert Contents(entries[..n]) <= Contents(entries);
      assert entries[n].regular ==> entries[n].content in Contents(entries);
    }
  }

  lemma {:induction false} NameTarget(job: string, entries: seq<TarEntry>, p: string)
    requires p in Names(entries)
    ensures Target(job, p) in Targets(job, entries)
  {
    var n := |entries| - 1;
    if !(entries[n].regular && entries[n].name == p) {
      assert p in Names(entries[..n]) by {
        var i :| 0 <= i < |entries| && entries[i].regular && entries[i].name == p;
        assert entries[..n][i] == entries[i];
      }
      NameTarget(job, entries[..n], p);
    }
  }

  lemma {:induction false} MissingMeans(all: seq<FileHash>, have: set<string>, h: FileHash)
    ensures h in Missing(all, have) <==> h in all && h.path !in have
  {
    if all != [] {
      MissingMeans(all[..|all| - 1], have, h);
      assert all == all[..|all| - 1] + [all[|all| - 1]];
    }
  }

  lemma {:induction false} FetchAt(job: string, want: seq<FileHash>, objects: map<string, Bytes>, fs: FileMap, m: map<string, string>, p: string)
    requires Name(job) && Good(p)
    requires forall h | h in want :: h.hash in objects && Good(h.path) && Entry(m, h)
    ensures var after, t := FetchAll(job, want, objects, fs), Target(job, p);
            && (p in m && FileHash(p, m[p]) in want ==> m[p] in objects && t in after && after[t] == objects[m[p]])
            && ((forall h | h in want :: h.path != p) ==> (t in after <==> t in fs) && (t in fs ==> after[t] == fs[t]))
  {
    if want != [] {
      var n := |want| - 1;
      var h := want[n];
      assert h in want;
      FetchAt(job, want[..n], objects, fs, m, p);
      assert want == want[..n] + [h];
      if h.path != p && Target(job, h.path) == Target(job, p) {
        TargetUnique(job, h.path, p);
      }
    }
  }

  lemma {:induction false} FetchKeys(job: string, want: seq<FileHash>, objects: map<string, Bytes>, fs: FileMap, m: map<string, string>)
    requires forall h | h in want :: h.hash in objects && Entry(m, h)
    requires Leftovers(job, m, fs)
    ensures Leftovers(job, m, FetchAll(job, want, objects, fs))
  {
    if want != [] {
      FetchKeys(job, want[..|want| - 1], objects, fs, m);
      assert want[|want| - 1] in want;
    }
  }

  /** Unpacking a matching delta and fetching the rest by hash gives the whole snapshot. */
  lemma DeltaPlusStore(hash: Bytes -> string, job: string, entries: seq<TarEntry>, all: seq<FileHash>,
                       m: map<string, string>, objects: map<string, Bytes>, fs: FileMap)
    requires Name(job) && Matches(hash, entries, m) && Addressed(hash, objects) && Leftovers(job, m, fs)
    requires forall h :: h in all <==> Entry(m, h)
    requires forall h | h in all :: Good(h.path)
    requires forall h | h in Missing(all, Names(entries)) :: h.hash in objects
    ensures Snapshot(hash, job, m, FetchAll(job, Missing(all, Names(entries)), objects, Unpack(job, entries, fs)))
  {
    var want, unpacked := Missing(all, Names(entries)), Unpack(job, entries, fs);
    forall h | h in want
      ensures h in all && Entry(m, h)
    {
      MissingMeans(all, Names(entries), h);
    }
    UnpackKeys(hash, job, entries, fs, m);
    FetchKeys(job, want, objects, unpacked, m);
    forall p | p in m
      ensures var after := FetchAll(job, want, objects, unpacked);
              Target(job, p) in after && hash(after[Target(job, p)]) == m[p]
    {
      var h := FileHash(p, m[p]);
      assert Entry(m, h);
      assert h in all;
      MissingMeans(all, Names(entries), h);
      UnpackAt(hash, job, entries, fs, m, p);
      FetchAt(job, want, objects, unpacked, m, p);
      if p in Names(entries) {
        forall w | w in want
          ensures w.path != p
        {
          MissingMeans(all, Names(entries), w);
        }
      }
    }
  }

  /** What a build is given: the stored manifest `all` of `m`, a tarball that matches it, and a store
      addressed by content. */
  ghost predicate Proper(hash: Bytes -> string, job: string, entries: seq<TarEntry>, all: seq<FileHash>,
                         m: map<string, string>, objects: map<string, Bytes>, fs: FileMap)
  {
    && Name(job) && Matches(hash, entries, m) && Addressed(hash, objects) && Leftovers(job, m, fs)
    && Lists(all, m) && (forall h | h in all :: Good(h.path))
  }

  /** The store or the tarball has what the manifest asks for at `p`. */
  predicate Available(m: map<string, string>, names: set<string>, objects: map<string, Bytes>, p: string)
    requires p in m
  {
    m[p] in objects || exists q | q in names :: q in m && m[q] == m[p]
  }

  /** What the store holds once the delta is uploaded. */
  lemma UploadedHashes(hash: Bytes -> string, job: string, entries: seq<TarEntry>, m: map<string, string>,
                       fs: FileMap, before: map<string, Bytes>, after: map<string, Bytes>, p: string)
    requires Name(job) && Matches(hash, entries, m) && p in m
    requires Grows(hash, before, after, Contents(entries))
    requires forall t | t in Targets(job, entries) :: t in Unpack(job, entries, fs) && hash(Unpack(job, entries, fs)[t]) in after
    ensures m[p] in after <==> Available(m, Names(entries), before, p)
  {
    if m[p] in after && m[p] !in before {
      var i :| 0 <= i < |entries| && entries[i].regular && entries[i].content == after[m[p]];
      assert Entry(m, FileHash(entries[i].name, hash(entries[i].content)));
      assert entries[i].name in Names(entries);
    }
    forall q | q in Names(entries) && q in m && m[q] == m[p]
      ensures m[p] in after
    {
      NameTarget(job, entries, q);
      assert Good(q) by {
        var i :| 0 <= i < |entries| && entries[i].regular && entries[i].name == q;
      }
      UnpackAt(hash, job, entries, fs, m, q);
    }
  }

  method UnpackAndUpload(hash: Bytes -> string, fs: Files, bucket: Bucket, job: string, entries: seq<TarEntry>,
                         ghost all: seq<FileHash>, io: Io)
    returns (ok: bool, paths: seq<string>)
    requires Fits(io, job, entries, all)
    modifies fs, bucket
    ensures Grows(hash, old(bucket.objects), bucket.objects, Contents(entries))
    ensures ok ==> fs.content == Unpack(job, entries, old(fs.content)) && paths == Targets(job, entries)
    ensures ok ==> forall t | t in Targets(job, entries) :: t in fs.content && hash(fs.content[t]) in bucket.objects
    ensures Flawless(io) ==> ok
  {
    ghost var before, leftovers := bucket.objects, fs.content;
    ok, paths := Untar(fs, job, entries, io.written);
    if !ok {
      return;
    }
    TargetsThere(job, entries, leftovers);
    ok := UploadFiles(hash, fs, bucket, paths, io.opens, io.attempts);
    GrowsMore(hash, before, bucket.objects, set p | p in paths :: fs.content[p], Contents(entries));
  }

  /** Unpack, upload, fetch the rest. A successful build of a proper version leaves exactly the
      manifest's snapshot and the store complete for it; when no call fails, the build succeeds if and
      only if every file outside the tarball is available. */
  method Build(hash: Bytes -> string, fs: Files, bucket: Bucket, job: string, entries: seq<TarEntry>, all: seq<FileHash>,
               io: Io, ghost m: map<string, string>)
    returns (ok: bool)
    requires Fits(io, job, entries, all)
    modifies fs, bucket
    ensures Grows(hash, old(bucket.objects), bucket.objects, Contents(entries))
    ensures old(Proper(hash, job, entries, all, m, bucket.objects, fs.content)) ==>
              && (ok ==> Snapshot(hash, job, m, fs.content) && forall p | p in m :: m[p] in bucket.objects)
              && (Flawless(io) ==> (ok <==> forall p | p in m && p !in Names(entries) ::
                                              Available(m, Names(entries), old(bucket.objects), p)))
  {
    ghost var before, leftovers := bucket.objects, fs.content;
    var paths;
    ok, paths := UnpackAndUpload(hash, fs, bucket, job, entries, all, io);
    if !ok {
      return false;
    }
    ok := DownloadMissing(fs, bucket, job, all, paths, io.fetched);
    if Proper(hash, job, entries, all, m, before, leftovers) {
      BuildMeans(hash, job, entries, all, m, before, bucket.objects, leftovers);
    }
  }

  /** What a build with its delta uploaded still depends on, and what it then gives. */
  lemma BuildMeans(hash: Bytes -> string, job: string, entries: seq<TarEntry>, all: seq<FileHash>, m: map<string, string>,
                   before: map<string, Bytes>, after: map<string, Bytes>, fs: FileMap)
    requires Proper(hash, job, entries, all, m, before, fs)
    requires Grows(hash, before, after, Contents(entries))
    requires forall t | t in Targets(job, entries) :: t in Unpack(job, entries, fs) && hash(Unpack(job, entries, fs)[t]) in after
    ensures var want := Missing(all, Stripped(job, Targets(job, entries)));
            && ((forall h | h in want :: h.hash in after) <==>
                (forall p | p in m && p !in Names(entries) :: Available(m, Names(entries), before, p)))
            && ((forall h | h in want :: h.hash in after) ==>
                  && Snapshot(hash, job, m, FetchAll(job, want, after, Unpack(job, entries, fs)))
                  && forall p | p in m :: m[p] in after)
  {
    StrippedNames(hash, job, entries, m);
    GrowsAddressed(hash, before, after, Contents(entries));
    forall p | p in m
      ensures m[p] in after <==> Available(m, Names(entries), before, p)
    {
      UploadedHashes(hash, job, entries, m, fs, before, after, p);
    }
    FetchedAll(all, m, Names(entries), after);
    if forall h | h in Missing(all, Names(entries)) :: h.hash in after {
      DeltaPlusStore(hash, job, entries, all, m, after, fs);
    }
  }

  lemma GrowsMore(hash: Bytes -> string, before: map<string, Bytes>, after: map<string, Bytes>, some: set<Bytes>, more: set<Bytes>)
    requires Grows(hash, before, after, some) && some <= more
    ensures Grows(hash, before, after, more)
  {
  }

  /** Every blob wanted is there exactly when every file outside the tarball has its hash in the
      store. */
  lemma FetchedAll(all: seq<FileHash>, m: map<string, string>, names: set<string>, objects: map<string, Bytes>)
    requires Lists(all, m)
    ensures (forall h | h in Missing(all, names) :: h.hash in objects) <==>
            (forall p | p in m && p !in names :: m[p] in objects)
  {
    forall h
      ensures h in Missing(all, names) <==> Entry(m, h) && h.path !in names
    {
      MissingMeans(all, names, h);
    }
    forall p | p in m && p !in names && forall h | h in Missing(all, names) :: h.hash in objects
      ensures m[p] in objects
    {
      assert FileHash(p, m[p]) in Missing(all, names);
    }
  }
}
