/** A flavor's versions over time. Each version is a full manifest and a tarball that holds only what
    changed since the version before; builds of any versions, in any order, with any failures, share
    one store that other uploads also go to. */
module VersionHistory {
  import opened Paths
  import opened Diff
  import opened Blob
  import opened Byte
  import opened ImageBuild

  datatype Version = Version(manifest: map<string, string>, entries: seq<TarEntry>)

  /** The manifest a version was compared with; the first one with nothing. */
  function Previous(vs: seq<Version>, k: nat): map<string, string>
    requires k < |vs|
  {
    if k == 0 then map[] else vs[k - 1].manifest
  }

  /** The client sent at least the files its diff listed as added or changed, and sent them right. */
  ghost predicate Delta(hash: Bytes -> string, vs: seq<Version>, k: nat)
    requires k < |vs|
  {
    var prev, v := Previous(vs, k), vs[k];
    && Matches(hash, v.entries, v.manifest)
    && AddedIn(prev, v.manifest).Keys + ChangedIn(prev, v.manifest).Keys <= Names(v.entries)
  }

  /** One thing that happens to the store, with the objects it leaves. */
  datatype Step =
    | Built(k: nat, flawless: bool, ok: bool, after: map<string, Bytes>)
    | Uploaded(contents: set<Bytes>, after: map<string, Bytes>)

  /** A build has the effect `Build` is proved to have, any other upload that of `PutBlob`. */
  ghost predicate Does(hash: Bytes -> string, vs: seq<Version>, before: map<string, Bytes>, s: Step) {
    match s
    case Built(k, flawless, ok, after) =>
      && k < |vs|
      && var m, names := vs[k].manifest, Names(vs[k].entries);
      && Grows(hash, before, after, Contents(vs[k].entries))
      && (ok ==> forall p | p in m :: m[p] in after)
      && (flawless ==> (ok <==> forall p | p in m && p !in names :: Available(m, names, before, p)))
    case Uploaded(contents, after) => Grows(hash, before, after, contents)
  }

  /** The build method takes such a step. */
  method BuildVersion(hash: Bytes -> string, vs: seq<Version>, k: nat, fs: Files, bucket: Bucket, job: string,
                      all: seq<FileHash>, io: Io)
    returns (ok: bool)
    requires k < |vs| && Fits(io, job, vs[k].entries, all)
    requires Proper(hash, job, vs[k].entries, all, vs[k].manifest, bucket.objects, fs.content)
    modifies fs, bucket
    ensures Does(hash, vs, old(bucket.objects), Built(k, Flawless(io), ok, bucket.objects))
    ensures ok ==> Snapshot(hash, job, vs[k].manifest, fs.content)
  {
    ok := Build(hash, fs, bucket, job, vs[k].entries, all, io, vs[k].manifest);
  }

  function Store(steps: seq<Step>): map<string, Bytes> {
    if steps == [] then map[] else steps[|steps| - 1].after
  }

  function BuiltVersions(steps: seq<Step>): set<nat> {
    if steps == [] then {}
    else
      var s, before := steps[|steps| - 1], BuiltVersions(steps[..|steps| - 1]);
      if s.Built? && s.ok then before + {s.k} else before
  }

  ghost predicate History(hash: Bytes -> string, vs: seq<Version>, steps: seq<Step>) {
    steps == [] ||
    (History(hash, vs, steps[..|steps| - 1]) && Does(hash, vs, Store(steps[..|steps| - 1]), steps[|steps| - 1]))
  }

  /** The store stays addressed by content and complete for every version ever built. */
  lemma {:induction false} BuiltStaysComplete(hash: Bytes -> string, vs: seq<Version>, steps: seq<Step>)
    requires History(hash, vs, steps)
    ensures Addressed(hash, Store(steps))
    ensures forall k | k in BuiltVersions(steps) ::
              k < |vs| && forall p | p in vs[k].manifest :: vs[k].manifest[p] in Store(steps)
  {
    if steps != [] {
      var before, s := steps[..|steps| - 1], steps[|steps| - 1];
      BuiltStaysComplete(hash, vs, before);
      var contents := if s.Built? then Contents(vs[s.k].entries) else s.contents;
      assert Grows(hash, Store(before), s.after, contents);
      GrowsAddressed(hash, Store(before), s.after, contents);
    }
  }

  /** A version whose predecessor was built lacks nothing: what its tarball leaves out is unchanged,
      so the store has it. */
  lemma {:induction false} SuccessorLacksNothing(hash: Bytes -> string, vs: seq<Version>, steps: seq<Step>, k: nat)
    requires History(hash, vs, steps) && k < |vs| && Delta(hash, vs, k)
    requires k == 0 || k - 1 in BuiltVersions(steps)
    ensures var m, names := vs[k].manifest, Names(vs[k].entries);
            forall p | p in m && p !in names :: Available(m, names, Store(steps), p)
  {
    BuiltStaysComplete(hash, vs, steps);
    var prev, m := Previous(vs, k), vs[k].manifest;
    forall p | p in m && p !in Names(vs[k].entries)
      ensures m[p] in Store(steps)
    {
      assert p !in AddedIn(prev, m) && p !in ChangedIn(prev, m);
    }
  }

  /** So no build that meets no failing call ever fails for want of a blob, over whole histories. */
  lemma NeverLacksABlob(hash: Bytes -> string, vs: seq<Version>, steps: seq<Step>, s: Step)
    requires History(hash, vs, steps + [s]) && s.Built? && s.flawless
    requires s.k < |vs| && Delta(hash, vs, s.k)
    requires s.k == 0 || s.k - 1 in BuiltVersions(steps)
    ensures s.ok && s.k in BuiltVersions(steps + [s])
  {
    assert (steps + [s])[..|steps|] == steps;
    SuccessorLacksNothing(hash, vs, steps, s.k);
  }

  /** Building version after version, each without a failing call, builds them all. */
  lemma {:induction false} ChainBuilds(hash: Bytes -> string, vs: seq<Version>, steps: seq<Step>)
    requires History(hash, vs, steps) && |steps| <= |vs|
    requires forall k | 0 <= k < |vs| :: Delta(hash, vs, k)
    requires forall i | 0 <= i < |steps| :: steps[i].Built? && steps[i].k == i && steps[i].flawless
    ensures forall i | 0 <= i < |steps| :: steps[i].ok && i in BuiltVersions(steps)
  {
    if steps != [] {
      var n := |steps| - 1;
      ChainBuilds(hash, vs, steps[..n]);
      assert n > 0 ==> n - 1 in BuiltVersions(steps[..n]);
      assert steps == steps[..n] + [steps[n]];
      NeverLacksABlob(hash, vs, steps[..n], steps[n]);
    }
  }

  /** The predecessor must have been built: a version built first into an empty store succeeds if and
      only if each file its tarball leaves out has the hash of a file in it. */
  lemma BuiltFirstIff(hash: Bytes -> string, vs: seq<Version>, s: Step)
    requires History(hash, vs, [s]) && s.Built? && s.flawless
    ensures var m, names := vs[s.k].manifest, Names(vs[s.k].entries);
            s.ok <==> forall p | p in m && p !in names :: exists q | q in names :: q in m && m[q] == m[p]
  {
  }

  /** A history in which a version fails for want of an unchanged file: its predecessor, which would
      have uploaded the file, was never built. */
  lemma PredecessorSkipped(hash: Bytes -> string) returns (vs: seq<Version>, s: Step)
    ensures |vs| == 2 && Delta(hash, vs, 0) && Delta(hash, vs, 1)
    ensures History(hash, vs, [s]) && s.Built? && s.k == 1 && s.flawless && !s.ok
  {
    var m := map["a" := hash([])];
    vs := [Version(m, [TarEntry("a", true, [])]), Version(m, [])];
    s := Built(1, true, false, map[]);
    assert [s][..0] == [];
    SplitOne("a");
    GoodMeans("a");
    assert vs[0].entries[0].name in Names(vs[0].entries);
    assert "a" in m && "a" !in Names([]) && !Available(m, Names([]), map[], "a");
    assert Store([]) == map[] && History(hash, vs, []);
    assert Does(hash, vs, map[], s);
    assert [s][..|[s]| - 1] == [];
  }
}
