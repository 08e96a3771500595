/** What holds in every run of `Pipeline`. */
module PipelineSafety {
  import opened Option
  import opened Pipeline

  // ---- The invariant, one entity at a time ----

  predicate Active(job: Job) {
    !job.stage.Over?
  }

  predicate StageFine(job: Job) {
    match job.stage
    case Waiting(n) => n < MAX_ATTEMPTS
    case Working(n) => 1 <= n <= MAX_ATTEMPTS
    case Pushed(n) => 1 <= n <= MAX_ATTEMPTS && job.kind == Image
    case SawCompleted(n) => 1 <= n <= MAX_ATTEMPTS && job.kind == Checkpoint
    case Failing(n) => 1 <= n <= MAX_ATTEMPTS
    case Over => true
  }

  /** An active job is the one its version is waiting for. */
  predicate JobFine(s: System, j: Id)
    requires j in s.jobs
  {
    var job := s.jobs[j];
    && StageFine(job)
    && (Active(job) ==>
          && job.version in s.versions
          && s.versions[job.version].status == Building(job.kind)
          && job.version in s.current && s.current[job.version] == j
          && job.version !in s.lost
          && (job.kind == Checkpoint || job.stage.Pushed? ==> job.version in s.based)
          && (job.stage.SawCompleted? ==> job.version in s.polled))
  }

  predicate Based(b: BuildStatus) {
    b == CHECKPOINT_BUILD || b == CHECKPOINT_BUILD_FAILED || b == COMPLETED
  }

  /** A version in a building status has an active job, unless a failure could not be recorded. */
  predicate VersionFine(s: System, v: Id)
    requires v in s.versions
  {
    var b := s.versions[v].status;
    && s.versions[v].flavor in s.flavors && v !in s.oldVersions
    && (!Settled(b) ==>
          || v in s.lost
          || (v in s.current && s.current[v] in s.jobs && s.jobs[s.current[v]].version == v && Active(s.jobs[s.current[v]])))
    && (v in s.lost ==> !Settled(b))
    && (Based(b) ==> v in s.based)
    && (b == COMPLETED ==> v in s.polled)
  }

  predicate FlavorFine(s: System, f: Id)
    requires f in s.flavors
  {
    s.flavors[f].chunk in s.chunks && f !in s.oldFlavors
  }

  ghost predicate TablesFine(s: System) {
    && (forall j | j in s.jobs :: JobFine(s, j))
    && (forall v | v in s.versions :: VersionFine(s, v))
    && (forall f | f in s.flavors :: FlavorFine(s, f))
    && (forall i | i in s.instances :: s.instances[i] in s.versions)
    && s.chunks.Keys !! s.oldChunks
    && (forall v | v in s.lost :: Known(s, v))
  }

  /** A flavor that can get no new versions, instances or build requests. */
  predicate Dead(s: System, f: Id) {
    (f in s.flavors && s.flavors[f].deleted) || f in s.oldFlavors
  }

  predicate Known(s: System, v: Id) {
    v in s.versions || v in s.oldVersions
  }

  /** A version read with a deleted flavor in status `b`. */
  predicate Seen(s: System, v: Id, f: Id, b: BuildStatus) {
    && Known(s, v)
    && (v in s.versions ==> s.versions[v].flavor == f && (Settled(b) ==> Settled(s.versions[v].status)))
  }

  /** What a pass read earlier and relies on is still so. */
  ghost predicate PassFine(s: System, a: Pass) {
    && (forall f | f in a.todo :: Dead(s, f))
    && (a.Scanning? || a.Moving? ==> Dead(s, a.f) && forall v | v in a.left :: Seen(s, v, a.f, a.left[v]))
    && (a.Moving? ==> Seen(s, a.v, a.f, PENDING) && (a.v in s.versions ==> !HasInstances(s, a.v)))
    && (a.Bare? ==> Dead(s, a.f) && VersionsOf(s, a.f) == map[])
    && (a.Childless? ==> a.c in s.chunks || a.c in s.oldChunks)
  }

  ghost predicate Inv(s: System) {
    TablesFine(s) && forall p | p in s.passes :: PassFine(s, s.passes[p])
  }

  // ---- Deletion is final ----

  /** What no step undoes, as far as versions of deleted flavors go. */
  predicate LaterAt(s: System, s': System, v: Id) {
    && (Known(s, v) ==> Known(s', v))
    && (v in s'.versions ==>
          if v in s.versions then
            && s'.versions[v].flavor == s.versions[v].flavor
            && (Dead(s, s.versions[v].flavor) ==>
                  && (Settled(s.versions[v].status) ==> Settled(s'.versions[v].status))
                  && (!HasInstances(s, v) ==> !HasInstances(s', v)))
          else
            !Known(s, v) && !Dead(s, s'.versions[v].flavor))
  }

  ghost predicate Later(s: System, s': System) {
    && (forall f :: Dead(s, f) ==> Dead(s', f))
    && (forall v :: LaterAt(s, s', v))
    && (forall c :: c in s.chunks || c in s.oldChunks ==> c in s'.chunks || c in s'.oldChunks)
  }

  lemma PassKept(s: System, s': System, a: Pass)
    requires PassFine(s, a) && Later(s, s')
    ensures PassFine(s', a)
  {
    if a.Scanning? || a.Moving? {
      forall v | v in a.left
        ensures Seen(s', v, a.f, a.left[v])
      {
        assert LaterAt(s, s', v);
      }
    }
    if a.Moving? {
      assert LaterAt(s, s', a.v);
    }
    if a.Bare? {
      var f, m := a.f, VersionsOf(s, a.f);
      forall v | v in s'.versions
        ensures s'.versions[v].flavor != f
      {
        assert LaterAt(s, s', v) && v !in m;
      }
    }
  }

  // ---- Requests ----

  lemma BuildJob(s: System, v: Id, changeset: bool, inserted: bool, j: Id, k: Id)
    requires Asks(s, Build(v, changeset, inserted, j)) && VersionFine(s, v)
    requires k in s.jobs ==> JobFine(s, k)
    ensures var s' := BuildVersion(s, v, changeset, inserted, j);
            k in s'.jobs ==> JobFine(s', k)
  {
  }

  lemma BuildVersionFine(s: System, v: Id, changeset: bool, inserted: bool, j: Id, w: Id)
    requires Asks(s, Build(v, changeset, inserted, j)) && VersionFine(s, v)
    requires w in s.versions && VersionFine(s, w)
    ensures var s' := BuildVersion(s, v, changeset, inserted, j);
            s'.versions.Keys == s.versions.Keys && VersionFine(s', w)
  {
  }

  lemma AskJob(s: System, r: Request, k: Id)
    requires Asks(s, r) && TablesFine(s) && k in Answer(s, r).jobs
    ensures JobFine(Answer(s, r), k)
  {
    if r.Build? {
      BuildJob(s, r.v, r.changeset, r.inserted, r.job, k);
    }
  }

  lemma AskVersion(s: System, r: Request, w: Id)
    requires Asks(s, r) && TablesFine(s) && w in Answer(s, r).versions
    ensures VersionFine(Answer(s, r), w)
  {
    if r.Build? {
      BuildVersionFine(s, r.v, r.changeset, r.inserted, r.job, w);
    } else if w in s.versions {
      assert VersionFine(s, w);
    }
  }

  lemma AskFlavors(s: System, r: Request)
    requires Asks(s, r) && TablesFine(s)
    ensures var s' := Answer(s, r);
            s'.chunks.Keys !! s'.oldChunks && forall f | f in s'.flavors :: FlavorFine(s', f)
  {
  }

  lemma AskRest(s: System, r: Request)
    requires Asks(s, r) && TablesFine(s)
    ensures var s' := Answer(s, r);
            && (forall i | i in s'.instances :: s'.instances[i] in s'.versions)
            && (forall v | v in s'.lost :: Known(s', v))
  {
  }

  lemma AskTables(s: System, r: Request)
    requires TablesFine(s) && Asks(s, r)
    ensures TablesFine(Answer(s, r))
  {
    var s' := Answer(s, r);
    forall k | k in s'.jobs
      ensures JobFine(s', k)
    {
      AskJob(s, r, k);
    }
    forall v | v in s'.versions
      ensures VersionFine(s', v)
    {
      AskVersion(s, r, v);
    }
    AskFlavors(s, r);
    AskRest(s, r);
  }

  lemma AskDead(s: System, r: Request)
    requires Asks(s, r)
    ensures var s' := Answer(s, r);
            && s'.passes == s.passes && s'.oldFlavors == s.oldFlavors && s'.oldChunks == s.oldChunks
            && (forall f | f in s.flavors :: f in s'.flavors && (s.flavors[f].deleted ==> s'.flavors[f].deleted))
            && (forall c | c in s.chunks :: c in s'.chunks)
  {
  }

  lemma AskLater(s: System, r: Request)
    requires TablesFine(s) && Asks(s, r)
    ensures Later(s, Answer(s, r)) && Answer(s, r).passes == s.passes
  {
    AskDead(s, r);
    forall v
      ensures LaterAt(s, Answer(s, r), v)
    {
      AskLaterAt(s, r, v);
    }
  }

  lemma AskInstances(s: System, r: Request, v: Id)
    requires Asks(s, r) && v in s.versions && Dead(s, s.versions[v].flavor) && s.versions[v].flavor !in s.oldFlavors
    requires !HasInstances(s, v)
    ensures !HasInstances(Answer(s, r), v)
  {
  }

  lemma AskStatus(s: System, r: Request, v: Id)
    requires Asks(s, r) && v in s.versions && s.versions[v].flavor in s.flavors
    ensures v in Answer(s, r).versions && Answer(s, r).versions[v].flavor == s.versions[v].flavor
    ensures s.flavors[s.versions[v].flavor].deleted ==> Answer(s, r).versions[v].status == s.versions[v].status
  {
  }

  lemma AskLaterAt(s: System, r: Request, v: Id)
    requires TablesFine(s) && Asks(s, r)
    ensures LaterAt(s, Answer(s, r), v)
  {
    if v in s.versions {
      assert VersionFine(s, v) && FlavorFine(s, s.versions[v].flavor);
      AskStatus(s, r, v);
      if Dead(s, s.versions[v].flavor) && !HasInstances(s, v) {
        AskInstances(s, r, v);
      }
    } else {
      AskNew(s, r, v);
    }
  }

  lemma AskNew(s: System, r: Request, v: Id)
    requires TablesFine(s) && Asks(s, r) && v !in s.versions
    ensures var s' := Answer(s, r);
            && (Known(s, v) ==> Known(s', v))
            && (v in s'.versions ==> !Known(s, v) && !Dead(s, s'.versions[v].flavor))
  {
  }

  // ---- Jobs ----

  /** What every step of a job may do to its version: status writes only come with the job's end, and
      the job's end always comes with one, unless recording a failure failed. */
  predicate Proper(job: Job, e: Effect) {
    && StageFine(job.(stage := e.stage))
    && (e.based <==> e.stage.Pushed?) && (e.polled <==> e.stage.SawCompleted?)
    && (!e.stage.Over? ==> e.status.None? && e.next.None? && !e.lost)
    && (e.stage.Over? ==>
          || (e.lost && e.status.None? && e.next.None?)
          || (!e.lost && e.next.Some? && e.status == Some(CHECKPOINT_BUILD) && job.stage.Pushed?)
          || (!e.lost && e.next.None? && e.status == Some(COMPLETED) && job.stage.SawCompleted?)
          || (!e.lost && e.next.None? && e.status == Some(Failed(job.kind)) && job.stage == Failing(MAX_ATTEMPTS)))
  }

  lemma EffectProper(s: System, j: Id, a: JobAct)
    requires Works(s, j, a) && StageFine(s.jobs[j])
    ensures Active(s.jobs[j])
    ensures Proper(s.jobs[j], JobEffect(s.jobs[j], a))
    ensures var next := JobEffect(s.jobs[j], a).next; next.Some? ==> next.value !in s.jobs
  {
  }

  lemma ApplyJob(s: System, j: Id, e: Effect, k: Id)
    requires j in s.jobs && Active(s.jobs[j]) && JobFine(s, j) && Proper(s.jobs[j], e)
    requires e.next.Some? ==> e.next.value !in s.jobs
    requires k in s.jobs ==> JobFine(s, k)
    ensures k in Apply(s, j, e).jobs ==> JobFine(Apply(s, j, e), k)
  {
  }

  lemma ApplyVersion(s: System, j: Id, e: Effect, v: Id)
    requires j in s.jobs && Active(s.jobs[j]) && JobFine(s, j) && Proper(s.jobs[j], e)
    requires e.next.Some? ==> e.next.value !in s.jobs
    requires v in s.versions && VersionFine(s, v)
    ensures v in Apply(s, j, e).versions && VersionFine(Apply(s, j, e), v)
  {
  }

  lemma ApplyRest(s: System, j: Id, e: Effect)
    requires j in s.jobs && Active(s.jobs[j]) && JobFine(s, j)
    ensures var s' := Apply(s, j, e);
            && s'.versions.Keys == s.versions.Keys
            && (forall v | v in s'.lost :: v in s.lost || v in s.versions)
  {
  }

  lemma WorkTables(s: System, j: Id, a: JobAct)
    requires TablesFine(s) && Works(s, j, a)
    ensures TablesFine(Work(s, j, a))
  {
    var e := JobEffect(s.jobs[j], a);
    EffectProper(s, j, a);
    ApplyTables(s, j, e);
  }

  lemma ApplyTables(s: System, j: Id, e: Effect)
    requires TablesFine(s) && j in s.jobs && Active(s.jobs[j]) && Proper(s.jobs[j], e)
    requires e.next.Some? ==> e.next.value !in s.jobs
    ensures TablesFine(Apply(s, j, e))
  {
    var s' := Apply(s, j, e);
    ApplyRest(s, j, e);
    forall k | k in s'.jobs
      ensures JobFine(s', k)
    {
      ApplyJob(s, j, e, k);
    }
    forall v | v in s'.versions
      ensures VersionFine(s', v)
    {
      ApplyVersion(s, j, e, v);
    }
  }

  lemma ApplyLater(s: System, j: Id, e: Effect)
    requires TablesFine(s) && j in s.jobs && Active(s.jobs[j]) && Proper(s.jobs[j], e)
    ensures Later(s, Apply(s, j, e))
  {
  }

  // ---- Archive passes ----

  /** What makes a move safe. */
  predicate MayMove(s: System, m: Move) {
    match m
    case Nothing => true
    case OfVersion(v) => Known(s, v) && (v in s.versions ==> Settled(s.versions[v].status) && !HasInstances(s, v))
    case OfFlavor(f) => Dead(s, f) && VersionsOf(s, f) == map[]
    case OfChunk(c) => (c in s.chunks || c in s.oldChunks) && !HasFlavors(s, c)
  }

  lemma VersionMoves(s: System, v: Id)
    requires TablesFine(s) && MayMove(s, OfVersion(v))
    ensures TablesFine(Moved(s, OfVersion(v)))
  {
  }

  lemma MoveTables(s: System, m: Move)
    requires TablesFine(s) && MayMove(s, m)
    ensures TablesFine(Moved(s, m))
  {
    match m
    case Nothing =>
    case OfVersion(v) => VersionMoves(s, v);
    case OfFlavor(f) => FlavorMoves(s, f);
    case OfChunk(_) =>
  }

  /** A flavor without versions takes none with it. */
  lemma FlavorMoves(s: System, f: Id)
    requires VersionsOf(s, f) == map[]
    ensures Moved(s, OfFlavor(f)).versions == s.versions
  {
    forall v | v in s.versions
      ensures s.versions[v].flavor != f
    {
      assert v !in VersionsOf(s, f);
    }
  }

  lemma MoveLater(s: System, m: Move)
    requires TablesFine(s) && MayMove(s, m)
    ensures Later(s, Moved(s, m))
  {
    if m.OfFlavor? {
      FlavorMoves(s, m.f);
    }
    var s' := Moved(s, m);
    forall v
      ensures LaterAt(s, s', v)
    {
    }
  }

  lemma PassMoves(s: System, p: Id, x: PassAct)
    requires Inv(s) && Steps(s, p, x)
    ensures MayMove(s, PassEffect(s, p, x).0)
  {
  }

  /** The pass's own new state holds of the tables it was read from. */
  lemma PassReads(s: System, p: Id, x: PassAct)
    requires Inv(s) && Steps(s, p, x)
    ensures PassFine(s, PassEffect(s, p, x).1)
  {
  }

  // ---- Every run ----

  lemma AllPassesKept(s: System, s': System)
    requires Inv(s) && Later(s, s')
    ensures forall p | p in s.passes :: PassFine(s', s.passes[p])
  {
    forall p | p in s.passes
      ensures PassFine(s', s.passes[p])
    {
      PassKept(s, s', s.passes[p]);
    }
  }

  /** Only tables matter to a pass, not the passes. */
  lemma PassesApart(s: System, passes: map<Id, Pass>)
    ensures TablesFine(s) <==> TablesFine(s.(passes := passes))
    ensures forall a :: PassFine(s, a) <==> PassFine(s.(passes := passes), a)
  {
  }

  lemma ArchivingInv(s: System, p: Id, x: PassAct)
    requires Inv(s) && Steps(s, p, x)
    ensures Inv(Step(s, p, x))
  {
    var e := PassEffect(s, p, x);
    var s1, passes := Moved(s, e.0), s.passes[p := e.1];
    PassMoves(s, p, x);
    PassReads(s, p, x);
    MoveTables(s, e.0);
    MoveLater(s, e.0);
    AllPassesKept(s, s1);
    PassKept(s, s1, e.1);
    PassesApart(s1, passes);
  }

  lemma StepInv(s: System, e: Event)
    requires Inv(s) && Enabled(s, e)
    ensures Inv(Next(s, e))
  {
    match e
    case Asked(r) =>
      AskTables(s, r);
      AskLater(s, r);
      AllPassesKept(s, Answer(s, r));
    case Worked(j, a) =>
      EffectProper(s, j, a);
      WorkTables(s, j, a);
      ApplyLater(s, j, JobEffect(s.jobs[j], a));
      AllPassesKept(s, Work(s, j, a));
    case Archiving(p, x) => ArchivingInv(s, p, x);
  }

  lemma {:induction false} LastStep(es: seq<Event>) returns (s: System)
    requires es != [] && Run(es).Some?
    ensures Run(es[..|es| - 1]) == Some(s)
    ensures Enabled(s, es[|es| - 1]) && Run(es) == Some(Next(s, es[|es| - 1]))
  {
    s := Run(es[..|es| - 1]).value;
  }

  lemma {:induction false} RunInv(es: seq<Event>)
    requires Run(es).Some?
    ensures Inv(Run(es).value)
  {
    if es != [] {
      var s := LastStep(es);
      RunInv(es[..|es| - 1]);
      StepInv(s, es[|es| - 1]);
    }
  }
}
