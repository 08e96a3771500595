/** Lexical path cleaning, as the control plane applies it to uploaded manifests and the image worker
    to the files of a server root. Paths are Unix paths: the separator is '/'. */
module Paths {
  import opened Option
  import opened Order

  /** The components between separators; there is always at least one, possibly empty. */
  function Split(p: string): (cs: seq<string>)
    ensures |cs| >= 1
  {
    if p == "" then [""]
    else if p[0] == '/' then [""] + Split(p[1..])
    else var cs := Split(p[1..]); [[p[0]] + cs[0]] + cs[1..]
  }

  function Join(cs: seq<string>): string {
    if cs == [] then ""
    else if |cs| == 1 then cs[0]
    else cs[0] + "/" + Join(cs[1..])
  }

  /** One component read while cleaning: "." and empty components vanish, ".." takes back the
      component before it, and a ".." with nothing to take back stays unless the path is rooted. */
  function Push(rooted: bool, stack: seq<string>, c: string): seq<string> {
    if c == "" || c == "." then stack
    else if c == ".." then
      if stack != [] && stack[|stack| - 1] != ".." then stack[..|stack| - 1]
      else if rooted then stack
      else stack + [c]
    else stack + [c]
  }

  function Walk(rooted: bool, cs: seq<string>): seq<string> {
    if cs == [] then [] else Push(rooted, Walk(rooted, cs[..|cs| - 1]), cs[|cs| - 1])
  }

  predicate IsAbs(p: string) {
    p != "" && p[0] == '/'
  }

  function Shown(rooted: bool, cs: seq<string>): string {
    if rooted then "/" + Join(cs) else if cs == [] then "." else Join(cs)
  }

  function Clean(p: string): string {
    Shown(IsAbs(p), Walk(IsAbs(p), Split(p)))
  }

  /** The paths a manifest may not contain, judged after cleaning. */
  predicate Rejected(clean: string) {
    clean == "." || IsAbs(clean) || clean == ".." || "../" <= clean
  }

  // ---- What cleaning gives ----

  predicate Plain(c: string) {
    c != "" && c != "." && '/' !in c
  }

  predicate Name(c: string) {
    Plain(c) && c != ".."
  }

  /** Cleaned components: ".." only at the front, and not at all under a root. */
  ghost predicate Normal(rooted: bool, cs: seq<string>) {
    && (forall i | 0 <= i < |cs| :: Plain(cs[i]))
    && (forall i | 0 <= i < |cs| && cs[i] == ".." :: !rooted && forall j | 0 <= j < i :: cs[j] == "..")
  }

  lemma {:induction false} SplitSlashFree(p: string)
    ensures forall c | c in Split(p) :: '/' !in c
  {
    if p != "" {
      SplitSlashFree(p[1..]);
      assert Split(p[1..])[0] in Split(p[1..]);
    }
  }

  lemma {:induction false} WalkNormal(rooted: bool, cs: seq<string>)
    requires forall c | c in cs :: '/' !in c
    ensures Normal(rooted, Walk(rooted, cs))
  {
    if cs != [] {
      WalkNormal(rooted, cs[..|cs| - 1]);
      assert cs[|cs| - 1] in cs;
    }
  }

  /** Cleaned components are not changed by walking them again, after any root. */
  lemma {:induction false} WalkFixed(rooted: bool, cs: seq<string>)
    requires Normal(rooted, cs)
    ensures Walk(rooted, cs) == cs
  {
    if cs != [] {
      var n := |cs| - 1;
      assert Normal(rooted, cs[..n]);
      WalkFixed(rooted, cs[..n]);
      assert cs == cs[..n] + [cs[n]];
      assert n > 0 && cs[n] == ".." ==> cs[n - 1] == "..";
    }
  }

  lemma {:induction false} SplitJoin(cs: seq<string>)
    requires cs != [] && forall c | c in cs :: '/' !in c
    ensures Split(Join(cs)) == cs
  {
    if |cs| == 1 {
      SplitOne(cs[0]);
    } else {
      SplitJoin(cs[1..]);
      SplitAt(cs[0], Join(cs[1..]));
      SplitOne(cs[0]);
      assert Join(cs) == cs[0] + "/" + Join(cs[1..]);
    }
  }

  lemma {:induction false} SplitOne(c: string)
    requires '/' !in c
    ensures Split(c) == [c]
  {
    if c != "" {
      SplitOne(c[1..]);
      assert c == [c[0]] + c[1..];
    }
  }

  lemma {:induction false} SplitAt(p: string, q: string)
    ensures Split(p + "/" + q) == Split(p) + Split(q)
  {
    var whole := p + "/" + q;
    if p == "" {
      assert whole[1..] == q;
    } else {
      SplitAt(p[1..], q);
      SplitStep(p[0], p[1..], q);
      assert p == [p[0]] + p[1..];
      assert whole == [p[0]] + (p[1..] + "/" + q);
    }
  }

  /** The components of a path with one more character in front. */
  function WithChar(c: char, cs: seq<string>): seq<string>
    requires cs != []
  {
    if c == '/' then [""] + cs else [[c] + cs[0]] + cs[1..]
  }

  lemma SplitCons(c: char, p: string)
    ensures Split([c] + p) == WithChar(c, Split(p))
  {
    assert ([c] + p)[1..] == p;
  }

  lemma SplitStep(c: char, p: string, q: string)
    requires Split(p + "/" + q) == Split(p) + Split(q)
    ensures Split([c] + (p + "/" + q)) == Split([c] + p) + Split(q)
  {
    SplitCons(c, p + "/" + q);
    SplitCons(c, p);
    ConsAppend(c, Split(p), Split(q));
  }

  lemma ConsAppend(c: char, xs: seq<string>, ys: seq<string>)
    requires xs != []
    ensures WithChar(c, xs + ys) == WithChar(c, xs) + ys
  {
    assert (xs + ys)[1..] == xs[1..] + ys;
  }

  lemma {:induction false} JoinAppend(a: seq<string>, b: seq<string>)
    requires a != [] && b != []
    ensures Join(a + b) == Join(a) + "/" + Join(b)
  {
    if |a| == 1 {
      assert (a + b)[1..] == b;
    } else {
      JoinAppend(a[1..], b);
      assert (a + b)[1..] == a[1..] + b;
      assert Join(a + b) == a[0] + "/" + (Join(a[1..]) + "/" + Join(b));
    }
  }

  lemma JoinFirst(cs: seq<string>)
    requires cs != [] && Plain(cs[0])
    ensures Join(cs) != "" && Join(cs)[0] != '/'
  {
  }

  lemma CleanIdempotent(p: string)
    ensures Clean(Clean(p)) == Clean(p)
  {
    var rooted, cs := IsAbs(p), Walk(IsAbs(p), Split(p));
    SplitSlashFree(p);
    WalkNormal(rooted, Split(p));
    if rooted {
      CleanRooted(cs);
    } else if cs == [] {
      SplitOne(".");
      assert ["."][..0] == [] && Walk(false, []) == [];
      assert Walk(false, ["."]) == [];
    } else {
      assert forall c | c in cs :: '/' !in c;
      SplitJoin(cs);
      WalkFixed(false, cs);
      JoinFirst(cs);
    }
  }

  lemma CleanRooted(cs: seq<string>)
    requires Normal(true, cs)
    ensures Clean("/" + Join(cs)) == "/" + Join(cs)
  {
    var p := "/" + Join(cs);
    assert p[1..] == Join(cs);
    assert Split(p) == [""] + Split(Join(cs));
    if cs == [] {
      assert Split(p) == ["", ""];
      EmptyWalk();
    } else {
      assert forall c | c in cs :: '/' !in c;
      SplitJoin(cs);
      WalkAppend(true, [""], cs);
      EmptyWalk();
      assert [] + cs == cs;
    }
  }

  lemma EmptyWalk()
    ensures Walk(true, [""]) == [] && Walk(true, ["", ""]) == []
  {
  }

  /** Walking on from a walked prefix: nothing in a ".."-free normal path reaches back into it. */
  lemma {:induction false} WalkAppend(rooted: bool, before: seq<string>, cs: seq<string>)
    requires Normal(true, cs)
    ensures Walk(rooted, before + cs) == Walk(rooted, before) + cs
  {
    if cs == [] {
      assert before + cs == before;
    } else {
      var n := |cs| - 1;
      assert Normal(true, cs[..n]);
      WalkAppend(rooted, before, cs[..n]);
      var all, walked := before + cs, Walk(rooted, before);
      assert all[..|all| - 1] == before + cs[..n] && all[|all| - 1] == cs[n];
      assert Walk(rooted, all) == walked + cs[..n] + [cs[n]];
      assert walked + cs[..n] + [cs[n]] == walked + cs;
    }
  }

  /** Walking on depends on the components walked so far only. */
  lemma {:induction false} WalkFrom(rooted: bool, a: seq<string>, a': seq<string>, b: seq<string>)
    requires Walk(rooted, a) == Walk(rooted, a')
    ensures Walk(rooted, a + b) == Walk(rooted, a' + b)
  {
    if b == [] {
      assert a + b == a && a' + b == a';
    } else {
      var n := |b| - 1;
      WalkFrom(rooted, a, a', b[..n]);
      assert (a + b)[..|a + b| - 1] == a + b[..n];
      assert (a' + b)[..|a' + b| - 1] == a' + b[..n];
    }
  }

  lemma WalkVanishing(rooted: bool, a: seq<string>, x: string)
    requires Name(x)
    ensures Walk(rooted, a + ["."]) == Walk(rooted, a + [""]) == Walk(rooted, a)
    ensures Walk(rooted, a + [x, ".."]) == Walk(rooted, a)
  {
    assert (a + ["."])[..|a|] == a && (a + [""])[..|a|] == a;
    assert (a + [x])[..|a|] == a;
    assert (a + [x, ".."])[..|a| + 1] == a + [x];
    assert (Walk(rooted, a) + [x])[..|Walk(rooted, a)|] == Walk(rooted, a);
  }

  ghost predicate SlashFree(cs: seq<string>) {
    forall c | c in cs :: '/' !in c
  }

  lemma CleanComponents(cs: seq<string>)
    requires |cs| >= 2 && SlashFree(cs)
    ensures Clean(Join(cs)) == Shown(cs[0] == "", Walk(cs[0] == "", cs))
  {
    SplitJoin(cs);
    if cs[0] == "" {
      assert Join(cs)[0] == '/';
    } else {
      assert cs[0] in cs && cs[0][0] in cs[0];
      assert Join(cs)[0] == cs[0][0];
    }
  }

  /** Cleaning keeps what a path names: a ".", a doubled separator and a name followed by ".." may be
      dropped anywhere behind the first component without changing the result. Every path is the join of
      its components (`JoinSplit`). */
  lemma CleanRules(a: seq<string>, b: seq<string>, x: string)
    requires a != [] && b != [] && SlashFree(a) && SlashFree(b) && Name(x)
    ensures Clean(Join(a + ["."] + b)) == Clean(Join(a + b))
    ensures Clean(Join(a + [""] + b)) == Clean(Join(a + b))
    ensures Clean(Join(a + [x, ".."] + b)) == Clean(Join(a + b))
  {
    var rooted := a[0] == "";
    WalkVanishing(rooted, a, x);
    Dropped(a, ["."], b);
    Dropped(a, [""], b);
    Dropped(a, [x, ".."], b);
  }

  lemma Dropped(a: seq<string>, mid: seq<string>, b: seq<string>)
    requires a != [] && b != [] && SlashFree(a) && SlashFree(mid) && SlashFree(b)
    requires Walk(a[0] == "", a + mid) == Walk(a[0] == "", a)
    ensures Clean(Join(a + mid + b)) == Clean(Join(a + b))
  {
    WalkFrom(a[0] == "", a + mid, a, b);
    CleanComponents(a + mid + b);
    CleanComponents(a + b);
  }

  // ---- Accepted paths ----

  predicate Good(p: string) {
    Clean(p) == p && !Rejected(p)
  }

  /** A good path is exactly a non-empty chain of proper names: relative, with no empty, "." or ".."
      component. */
  lemma GoodMeans(p: string)
    ensures Good(p) <==> forall c | c in Split(p) :: c != "" && c != "." && c != ".."
    ensures Good(p) ==> p != "" && !IsAbs(p) && Join(Split(p)) == p
  {
    var cs := Split(p);
    SplitSlashFree(p);
    JoinSplit(p);
    if Good(p) {
      var ws := Walk(false, cs);
      WalkNormal(false, cs);
      assert ws != [];
      forall c | c in ws
        ensures '/' !in c
      {
      }
      SplitJoin(ws);
      assert p == Join(ws);
      assert cs == ws;
      NoClimb(ws);
    }
    if forall c | c in cs :: c != "" && c != "." && c != ".." {
      assert forall i | 0 <= i < |cs| :: cs[i] in cs;
      WalkFixed(false, cs);
      JoinFirst(cs);
      NamesKept(cs);
    }
  }

  lemma NoClimb(cs: seq<string>)
    requires Normal(false, cs) && cs != [] && !Rejected(Join(cs))
    ensures ".." !in cs
  {
  }

  lemma NamesKept(cs: seq<string>)
    requires cs != []
    requires forall i | 0 <= i < |cs| :: Plain(cs[i]) && cs[i] != ".."
    ensures !Rejected(Join(cs))
  {
    assert forall c | c in cs :: '/' !in c;
    SplitJoin(cs);
    if Rejected(Join(cs)) {
      RejectedFirst(Join(cs));
      assert false;
    }
  }

  lemma RejectedFirst(p: string)
    requires Rejected(p)
    ensures Split(p)[0] == "" || Split(p)[0] == "." || Split(p)[0] == ".."
  {
    SplitOne(".");
    SplitOne("..");
    if "../" <= p {
      assert p == ".." + "/" + p[3..];
      SplitAt("..", p[3..]);
    }
  }

  lemma {:induction false} JoinSplit(p: string)
    ensures Join(Split(p)) == p
  {
    if p != "" {
      JoinSplit(p[1..]);
      var cs := Split(p[1..]);
      if p[0] == '/' {
        assert ([""] + cs)[1..] == cs;
        assert p == "/" + p[1..];
      } else {
        assert Split(p)[1..] == cs[1..];
        assert p == [p[0]] + p[1..];
      }
    }
  }

  /** How deep a walk ends below its start; none when it ever climbs above it. */
  function Depth(cs: seq<string>): Option<nat> {
    if cs == [] then Some(0)
    else
      var c := cs[|cs| - 1];
      match Depth(cs[..|cs| - 1])
      case None => None
      case Some(d) =>
        if c == "" || c == "." then Some(d)
        else if c == ".." then (if d == 0 then None else Some(d - 1))
        else Some(d + 1)
  }

  lemma {:induction false} WalkDepth(cs: seq<string>)
    requires forall c | c in cs :: '/' !in c
    ensures var ws := Walk(false, cs);
            match Depth(cs)
            case None => ws != [] && ws[0] == ".."
            case Some(d) => |ws| == d && ".." !in ws
  {
    if cs != [] {
      var n := |cs| - 1;
      WalkDepth(cs[..n]);
      WalkNormal(false, cs[..n]);
    }
  }

  /** Which uploaded paths are taken: the relative ones that never climb above their root and end
      strictly below it. */
  lemma AcceptedIff(p: string)
    ensures !Rejected(Clean(p)) <==>
            !IsAbs(p) && Depth(Split(p)).Some? && Depth(Split(p)).value > 0
    ensures !Rejected(Clean(p)) ==> Good(Clean(p))
  {
    CleanIdempotent(p);
    SplitSlashFree(p);
    if !IsAbs(p) {
      var ws := Walk(false, Split(p));
      WalkNormal(false, Split(p));
      WalkDepth(Split(p));
      if ws != [] {
        if ws[0] == ".." && |ws| > 1 {
          assert Join(ws)[..3] == "../";
        }
        if ".." !in ws {
          assert forall i | 0 <= i < |ws| :: ws[i] in ws;
          NamesKept(ws);
        }
      }
    }
  }

  // ---- Manifests ----

  datatype FileHash = FileHash(path: string, hash: string)

  predicate ByPath(a: FileHash, b: FileHash) {
    Before(a.path, b.path)
  }

  lemma ByPathWeak()
    ensures Weak(ByPath)
  {
    BeforeWeak();
  }

  datatype Violation = Violation(index: nat, path: string)

  predicate Bad(h: FileHash) {
    Rejected(Clean(h.path))
  }

  function Cleaned(h: FileHash): (r: FileHash)
    ensures r.hash == h.hash
    ensures r.path == if Rejected(Clean(h.path)) then h.path else Clean(h.path)
  {
    if Bad(h) then h else FileHash(Clean(h.path), h.hash)
  }

  /** The violations of the first `n` entries: exactly the bad ones, in order. */
  ghost predicate Reports(bad: FileHash -> bool, violations: seq<Violation>, hashes: seq<FileHash>, n: nat)
    requires n <= |hashes|
  {
    && (forall k | 0 <= k < |violations| ::
          violations[k].index < n && bad(hashes[violations[k].index])
          && violations[k].path == hashes[violations[k].index].path)
    && (forall k, l | 0 <= k < l < |violations| :: violations[k].index < violations[l].index)
    && (forall i | 0 <= i < n && bad(hashes[i]) :: Violation(i, hashes[i].path) in violations)
  }

  /** One round of the loop below. */
  method CleanEntry(hashes: array<FileHash>, i: nat) returns (bad: bool)
    requires i < hashes.Length
    modifies hashes
    ensures hashes[..] == old(hashes[..])[i := Cleaned(old(hashes[i]))]
    ensures bad == Bad(old(hashes[i]))
  {
    var clean := Clean(hashes[i].path);
    bad := Rejected(clean);
    if !bad {
      hashes[i] := FileHash(clean, hashes[i].hash);
    }
  }

  /** The entries with the first `n` of them cleaned. */
  ghost function CleanedTo(was: seq<FileHash>, n: nat): seq<FileHash> {
    seq(|was|, i requires 0 <= i < |was| => if i < n then Cleaned(was[i]) else was[i])
  }

  lemma CleanedNext(was: seq<FileHash>, n: nat)
    requires n < |was|
    ensures CleanedTo(was, n)[n] == was[n] && CleanedTo(was, n)[n := Cleaned(was[n])] == CleanedTo(was, n + 1)
  {
  }

  /** Cleans every acceptable path in place and reports the others. No violation means a manifest of
      good paths. */
  method CleanFileHashPaths(hashes: array<FileHash>) returns (violations: seq<Violation>)
    modifies hashes
    ensures forall i | 0 <= i < hashes.Length :: hashes[i] == Cleaned(old(hashes[i]))
    ensures Reports(Bad, violations, old(hashes[..]), hashes.Length)
    ensures violations == [] ==> forall i | 0 <= i < hashes.Length :: Good(hashes[i].path)
  {
    violations := [];
    ghost var was := hashes[..];
    assert was == CleanedTo(was, 0);
    for i := 0 to hashes.Length
      invariant hashes[..] == CleanedTo(was, i)
      invariant Reports(Bad, violations, was, i)
    {
      ReportsStep(Bad, violations, was, i);
      CleanedNext(was, i);
      var path := hashes[i].path;
      var bad := CleanEntry(hashes, i);
      if bad {
        violations := violations + [Violation(i, path)];
      }
    }
    if violations == [] {
      AllGood(was, hashes[..]);
    }
  }

  lemma ReportsStep(bad: FileHash -> bool, violations: seq<Violation>, hashes: seq<FileHash>, n: nat)
    requires n < |hashes| && Reports(bad, violations, hashes, n)
    ensures bad(hashes[n]) ==> Reports(bad, violations + [Violation(n, hashes[n].path)], hashes, n + 1)
    ensures !bad(hashes[n]) ==> Reports(bad, violations, hashes, n + 1)
  {
  }

  lemma AllGood(was: seq<FileHash>, now: seq<FileHash>)
    requires |was| == |now| && forall i | 0 <= i < |was| :: now[i] == Cleaned(was[i])
    requires Reports(Bad, [], was, |was|)
    ensures forall i | 0 <= i < |now| :: Good(now[i].path)
  {
    forall i | 0 <= i < |now|
      ensures Good(now[i].path)
    {
      AcceptedIff(was[i].path);
    }
  }

  // ---- Paths under the server root ----

  /** The directory the worker unpacks into; `job` is the decimal job number. */
  function ServerRoot(job: string): string {
    "/" + Join(["tmp", job, "files", "opt", "paper"])
  }

  function JoinPath(dir: string, p: string): string {
    Clean(dir + "/" + p)
  }

  /** Removes the first occurrence of a prefix-like piece from a path. */
  function RemoveFirst(s: string, piece: string): string {
    if piece <= s then s[|piece|..]
    else if s == "" then ""
    else [s[0]] + RemoveFirst(s[1..], piece)
  }

  lemma JoinBelow(root: seq<string>, p: string)
    requires Normal(true, root) && root != [] && Good(p)
    ensures JoinPath("/" + Join(root), p) == "/" + Join(root) + "/" + p
  {
    JoinedComponents(root, p);
    CleanRooted(root + Split(p));
  }

  lemma JoinedComponents(root: seq<string>, p: string)
    requires Normal(true, root) && root != [] && Good(p)
    ensures Normal(true, root + Split(p))
    ensures "/" + Join(root + Split(p)) == "/" + Join(root) + "/" + p
  {
    GoodNormal(p);
    JoinAppend(root, Split(p));
    assert Join(root + Split(p)) == Join(root) + "/" + p;
  }

  lemma GoodNormal(p: string)
    requires Good(p)
    ensures Normal(true, Split(p)) && Join(Split(p)) == p
  {
    var cs := Split(p);
    SplitSlashFree(p);
    GoodMeans(p);
    assert forall i | 0 <= i < |cs| :: cs[i] in cs;
  }

  lemma RootSpelled(job: string)
    ensures ServerRoot(job) == "/tmp/" + job + "/files/opt/paper"
  {
    var cs := ["tmp", job, "files", "opt", "paper"];
    assert cs[1..] == [job, "files", "opt", "paper"] && cs[1..][1..] == ["files", "opt", "paper"];
    assert ["files", "opt", "paper"][1..] == ["opt", "paper"] && ["opt", "paper"][1..] == ["paper"];
    assert Join(["paper"]) == "paper";
    assert Join(["opt", "paper"]) == "opt/paper";
    assert Join(["files", "opt", "paper"]) == "files/opt/paper";
    assert Join(cs[1..]) == job + "/" + "files/opt/paper";
    assert Join(cs) == "tmp" + "/" + (job + "/" + "files/opt/paper");
  }

  /** Joining a good path to the server root and stripping the root once returns the path. */
  lemma RootRoundTrip(job: string, p: string)
    requires Name(job) && Good(p)
    ensures JoinPath(ServerRoot(job), p) == ServerRoot(job) + "/" + p == "/tmp/" + job + "/files/opt/paper/" + p
    ensures RemoveFirst(JoinPath(ServerRoot(job), p), ServerRoot(job) + "/") == p
  {
    JoinBelow(["tmp", job, "files", "opt", "paper"], p);
    RootSpelled(job);
    assert "/tmp/" + job + "/files/opt/paper" + "/" + p == "/tmp/" + job + "/files/opt/paper/" + p;
    var root := ServerRoot(job) + "/";
    assert (root + p)[|root|..] == p;
  }

  /** So distinct good paths never meet below the root. */
  lemma RootInjective(job: string, p: string, q: string)
    requires Name(job) && Good(p) && Good(q)
    requires JoinPath(ServerRoot(job), p) == JoinPath(ServerRoot(job), q)
    ensures p == q
  {
    RootRoundTrip(job, p);
    RootRoundTrip(job, q);
  }
}
