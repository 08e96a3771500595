/** What the build pipeline and the archive worker guarantee over whole runs. */
module PipelineTheorems {
  import opened Option
  import opened Pipeline
  import opened PipelineSafety

  /** Archive safety: although passes act on instance counts and build statuses read earlier, no live
      instance and no queued or running job ever refers to an archived version. */
  lemma ArchiveSafe(es: seq<Event>, v: Id)
    requires Run(es).Some? && v in Run(es).value.oldVersions
    ensures var s := Run(es).value;
            && v !in s.versions
            && (forall i | i in s.instances :: s.instances[i] != v)
            && (forall j | j in s.jobs && s.jobs[j].version == v :: s.jobs[j].stage.Over?)
  {
    RunInv(es);
    var s := Run(es).value;
    assert v in s.versions ==> VersionFine(s, v);
    forall j | j in s.jobs
      ensures JobFine(s, j)
    {
    }
  }

  /** At most one job per version is active, and its kind agrees with the build status; a version is
      at a later stage only if its base image was pushed. */
  lemma OneActiveJob(es: seq<Event>, j: Id, k: Id)
    requires Run(es).Some?
    requires var s := Run(es).value;
             && j in s.jobs && k in s.jobs && s.jobs[j].version == s.jobs[k].version
             && !s.jobs[j].stage.Over? && !s.jobs[k].stage.Over?
    ensures var s := Run(es).value;
            && j == k
            && s.jobs[j].version in s.versions
            && s.versions[s.jobs[j].version].status == Building(s.jobs[j].kind)
  {
    RunInv(es);
    var s := Run(es).value;
    assert JobFine(s, j) && JobFine(s, k);
  }

  predicate HasActiveJob(s: System, v: Id) {
    exists j | j in s.jobs :: s.jobs[j].version == v && !s.jobs[j].stage.Over?
  }

  /** A build request inserts a job only for a version none is active for. */
  lemma InsertsOnlyWhenIdle(es: seq<Event>, v: Id, changeset: bool, inserted: bool, job: Id)
    requires Run(es).Some? && Asks(Run(es).value, Build(v, changeset, inserted, job))
    requires job in Answer(Run(es).value, Build(v, changeset, inserted, job)).jobs
    ensures !HasActiveJob(Run(es).value, v)
  {
    RunInv(es);
    var s := Run(es).value;
    assert Wanted(s.versions[v].status).Some?;
    forall j | j in s.jobs && s.jobs[j].version == v
      ensures s.jobs[j].stage.Over?
    {
      assert JobFine(s, j);
    }
  }

  // ---- Who writes which status ----

  /** A failed status is written only by a job giving up after its last attempt, COMPLETED only by a
      checkpoint job that saw its checkpoint completed, and COMPLETED is never left. */
  predicate Allowed(s: System, e: Event, v: Id, b: BuildStatus, b': BuildStatus) {
    && (b == COMPLETED ==> b' == COMPLETED)
    && (b' != b ==>
          match b'
          case PENDING => false
          case IMAGE_BUILD => e.Asked? && e.r.Build? && e.r.v == v && (b == PENDING || b == IMAGE_BUILD_FAILED)
          case CHECKPOINT_BUILD =>
            || (e.Asked? && e.r.Build? && e.r.v == v && b == CHECKPOINT_BUILD_FAILED)
            || (e.Worked? && e.a.InsertNext? && e.j in s.jobs && s.jobs[e.j].version == v && s.jobs[e.j].stage.Pushed?)
          case COMPLETED =>
            e.Worked? && e.a.RecordCompleted? && e.j in s.jobs && s.jobs[e.j].version == v && s.jobs[e.j].stage.SawCompleted?
          case _ =>
            && e.Worked? && e.a == GiveUp(true) && e.j in s.jobs
            && s.jobs[e.j] == Job(if b' == IMAGE_BUILD_FAILED then Image else Checkpoint, v, Failing(MAX_ATTEMPTS)))
  }

  lemma StatusWrites(es: seq<Event>, e: Event, v: Id)
    requires Run(es).Some? && Enabled(Run(es).value, e)
    requires v in Run(es).value.versions && v in Next(Run(es).value, e).versions
    ensures var s := Run(es).value; Allowed(s, e, v, s.versions[v].status, Next(s, e).versions[v].status)
  {
    RunInv(es);
    var s := Run(es).value;
    match e
    case Asked(r) => AskWrites(s, r, v);
    case Worked(j, a) =>
      assert JobFine(s, j);
      WorkWrites(s, j, a, v);
    case Archiving(p, x) => MoveWrites(s, p, x, v);
  }

  lemma AskWrites(s: System, r: Request, v: Id)
    requires Asks(s, r) && v in s.versions && v in Answer(s, r).versions
    ensures Allowed(s, Asked(r), v, s.versions[v].status, Answer(s, r).versions[v].status)
  {
  }

  lemma WorkWrites(s: System, j: Id, a: JobAct, v: Id)
    requires Works(s, j, a) && JobFine(s, j) && v in s.versions && v in Work(s, j, a).versions
    ensures Allowed(s, Worked(j, a), v, s.versions[v].status, Work(s, j, a).versions[v].status)
  {
  }

  lemma MoveWrites(s: System, p: Id, x: PassAct, v: Id)
    requires Steps(s, p, x) && v in s.versions && v in Step(s, p, x).versions
    ensures Step(s, p, x).versions[v] == s.versions[v]
  {
  }

  // ---- What a status says about the past ----

  /** Some job of version `v` took the step `a`. */
  ghost predicate Happened(es: seq<Event>, s: System, a: JobAct, v: Id) {
    exists i | 0 <= i < |es| :: es[i].Worked? && es[i].a == a && es[i].j in s.jobs && s.jobs[es[i].j].version == v
  }

  lemma JobsStay(s: System, e: Event, j: Id)
    requires Enabled(s, e) && j in s.jobs
    ensures j in Next(s, e).jobs && Next(s, e).jobs[j].version == s.jobs[j].version
  {
    match e
    case Asked(r) =>
    case Worked(k, a) => assert Next(s, e).jobs == Advanced(s.jobs, k, JobEffect(s.jobs[k], a));
    case Archiving(p, x) => MoveMarks(s, p, x);
  }

  predicate Does(s: System, e: Event, a: JobAct, v: Id) {
    e.Worked? && e.a == a && e.j in s.jobs && s.jobs[e.j].version == v
  }

  lemma NewlyMarked(s: System, e: Event, v: Id)
    requires Enabled(s, e)
    ensures v in Next(s, e).polled <==> v in s.polled || Does(s, e, PollCompleted, v)
    ensures v in Next(s, e).based <==> v in s.based || Does(s, e, PushOk, v)
    ensures v in Next(s, e).lost <==> v in s.lost || Does(s, e, GiveUp(false), v)
  {
    match e
    case Asked(r) => AskMarks(s, r);
    case Worked(k, a) =>
    case Archiving(p, x) => MoveMarks(s, p, x);
  }

  lemma AskMarks(s: System, r: Request)
    requires Asks(s, r)
    ensures var s' := Answer(s, r); s'.polled == s.polled && s'.based == s.based && s'.lost == s.lost
  {
  }

  lemma MoveMarks(s: System, p: Id, x: PassAct)
    requires Steps(s, p, x)
    ensures var s' := Step(s, p, x);
            s'.polled == s.polled && s'.based == s.based && s'.lost == s.lost && s'.jobs == s.jobs
  {
  }

  /** Jobs are not forgotten, so one can tell from the last state whose they were. */
  lemma {:induction false} WorkedJobs(es: seq<Event>)
    requires Run(es).Some?
    ensures forall i | 0 <= i < |es| && es[i].Worked? :: es[i].j in Run(es).value.jobs
  {
    if es != [] {
      var s := LastStep(es);
      var before, e := es[..|es| - 1], es[|es| - 1];
      WorkedJobs(before);
      forall i | 0 <= i < |es| && es[i].Worked?
        ensures es[i].j in Next(s, e).jobs
      {
        assert i < |es| - 1 ==> before[i] == es[i];
        JobsStay(s, e, es[i].j);
      }
    }
  }

  lemma HappenedStep(es: seq<Event>, s: System, e: Event, a: JobAct, v: Id)
    requires Enabled(s, e) && forall i | 0 <= i < |es| && es[i].Worked? :: es[i].j in s.jobs
    ensures Happened(es + [e], Next(s, e), a, v) <==> Happened(es, s, a, v) || Does(s, e, a, v)
  {
    var all, s' := es + [e], Next(s, e);
    forall i | 0 <= i < |all| && all[i].Worked? && all[i].a == a
      ensures all[i].j in s.jobs && all[i].j in s'.jobs && s'.jobs[all[i].j].version == s.jobs[all[i].j].version
    {
      assert i < |es| ==> all[i] == es[i];
      JobsStay(s, e, all[i].j);
    }
    if Happened(es, s, a, v) {
      var i :| 0 <= i < |es| && es[i].Worked? && es[i].a == a && es[i].j in s.jobs && s.jobs[es[i].j].version == v;
      assert all[i] == es[i];
    }
    if Does(s, e, a, v) {
      assert all[|es|] == e;
    }
    if Happened(all, s', a, v) {
      var i :| 0 <= i < |all| && all[i].Worked? && all[i].a == a && all[i].j in s'.jobs && s'.jobs[all[i].j].version == v;
      assert i < |es| ==> all[i] == es[i];
    }
  }

  /** What the state remembers of the past is what happened. */
  lemma {:induction false} MarksHappened(es: seq<Event>, v: Id)
    requires Run(es).Some?
    ensures v in Run(es).value.polled <==> Happened(es, Run(es).value, PollCompleted, v)
    ensures v in Run(es).value.based <==> Happened(es, Run(es).value, PushOk, v)
    ensures v in Run(es).value.lost <==> Happened(es, Run(es).value, GiveUp(false), v)
  {
    if es != [] {
      var s := LastStep(es);
      var before, e := es[..|es| - 1], es[|es| - 1];
      assert es == before + [e];
      MarksHappened(before, v);
      WorkedJobs(before);
      NewlyMarked(s, e, v);
      HappenedStep(before, s, e, PollCompleted, v);
      HappenedStep(before, s, e, PushOk, v);
      HappenedStep(before, s, e, GiveUp(false), v);
    }
  }

  /** In every run: COMPLETED follows a poll that saw the checkpoint completed, and CHECKPOINT_BUILD or
      any later status follows a push of the base image. */
  lemma StatusEarned(es: seq<Event>, v: Id)
    requires Run(es).Some? && v in Run(es).value.versions
    ensures var s := Run(es).value;
            && (s.versions[v].status == COMPLETED ==> Happened(es, s, PollCompleted, v))
            && (Based(s.versions[v].status) ==> Happened(es, s, PushOk, v))
  {
    RunInv(es);
    assert VersionFine(Run(es).value, v);
    MarksHappened(es, v);
  }

  // ---- A failure that is not recorded ----

  /** A job of the version failed its last attempt, and the failure could not be written down. */
  ghost predicate Unrecorded(es: seq<Event>, s: System, v: Id) {
    Happened(es, s, GiveUp(false), v)
  }

  /** A version in a building status has a job at work, if and only if none of its jobs gave up without
      recording it. */
  lemma StuckIff(es: seq<Event>, v: Id)
    requires Run(es).Some? && v in Run(es).value.versions && !Settled(Run(es).value.versions[v].status)
    ensures var s := Run(es).value; HasActiveJob(s, v) <==> !Unrecorded(es, s, v)
  {
    RunInv(es);
    MarksHappened(es, v);
    var s := Run(es).value;
    assert VersionFine(s, v);
    if j :| j in s.jobs && s.jobs[j].version == v && !s.jobs[j].stage.Over? {
      assert JobFine(s, j);
    }
  }

  /** A build request that is let through leaves a job at work on the version, unless it is completed or
      stuck: either it inserted one, or one was there. */
  lemma RequestGetsWork(es: seq<Event>, v: Id, changeset: bool, job: Id)
    requires Run(es).Some? && Asks(Run(es).value, Build(v, changeset, true, job))
    requires var s := Run(es).value;
             && !s.flavors[s.versions[v].flavor].deleted && (s.versions[v].uploaded || changeset)
             && s.versions[v].status != COMPLETED && !Unrecorded(es, s, v)
    ensures HasActiveJob(Answer(Run(es).value, Build(v, changeset, true, job)), v)
  {
    var s := Run(es).value;
    var s' := BuildVersion(s, v, changeset, true, job);
    if Settled(s.versions[v].status) {
      assert job in s'.jobs && s'.jobs[job].version == v;
    } else {
      StuckIff(es, v);
      var j :| j in s.jobs && s.jobs[j].version == v && !s.jobs[j].stage.Over?;
      assert s'.jobs == s.jobs;
    }
  }

  /** A failure that could not be recorded is final: the version stays where it is, in a building status
      and without a job, whatever is requested, built or archived from then on. */
  lemma {:induction false} StuckForever(es: seq<Event>, more: seq<Event>, v: Id)
    requires Run(es).Some? && Run(es + more).Some? && Unrecorded(es, Run(es).value, v)
    ensures var s, s' := Run(es).value, Run(es + more).value;
            && v in s.versions && v in s'.versions && s'.versions[v].status == s.versions[v].status
            && !Settled(s'.versions[v].status) && Unrecorded(es + more, s', v) && !HasActiveJob(s', v)
    decreases |more|
  {
    MarksHappened(es, v);
    if more == [] {
      assert es + more == es;
      LostLive(es, v);
    } else {
      var before, e := es + more[..|more| - 1], more[|more| - 1];
      assert es + more == before + [e];
      assert (before + [e])[..|before|] == before;
      StuckForever(es, more[..|more| - 1], v);
      MarksHappened(before, v);
      StuckStep(before, e, v);
      MarksHappened(before + [e], v);
    }
    RunInv(es + more);
    assert VersionFine(Run(es + more).value, v);
    StuckIff(es + more, v);
  }

  /** Nothing but a giving up loses a version, and at that moment it is there. */
  lemma {:induction false} LostLive(es: seq<Event>, v: Id)
    requires Run(es).Some? && v in Run(es).value.lost
    ensures v in Run(es).value.versions
  {
    if es != [] {
      var s := LastStep(es);
      var before, e := es[..|es| - 1], es[|es| - 1];
      NewlyMarked(s, e, v);
      if v in s.lost {
        LostLive(before, v);
        StuckStep(before, e, v);
      } else {
        RunInv(before);
        assert JobFine(s, e.j);
      }
    }
  }

  lemma StuckStep(es: seq<Event>, e: Event, v: Id)
    requires Run(es).Some? && Enabled(Run(es).value, e)
    requires v in Run(es).value.lost && v in Run(es).value.versions
    ensures var s, s' := Run(es).value, Next(Run(es).value, e);
            v in s'.lost && v in s'.versions && s'.versions[v].status == s.versions[v].status
  {
    RunInv(es);
    var s := Run(es).value;
    assert VersionFine(s, v);
    match e
    case Asked(r) => StuckNotAsked(s, r, v);
    case Worked(j, a) => StuckNotWorked(s, j, a, v);
    case Archiving(p, x) => StuckNotMoved(s, p, x, v);
  }

  lemma StuckNotAsked(s: System, r: Request, v: Id)
    requires Asks(s, r) && v in s.versions && !Settled(s.versions[v].status)
    ensures v in Answer(s, r).versions && Answer(s, r).versions[v].status == s.versions[v].status
    ensures Answer(s, r).lost == s.lost
  {
    if r.Build? {
      StuckNotBuilt(s, r.v, r.changeset, r.inserted, r.job, v);
    }
  }

  lemma StuckNotBuilt(s: System, w: Id, changeset: bool, inserted: bool, j: Id, v: Id)
    requires w in s.versions && s.versions[w].flavor in s.flavors && v in s.versions && !Settled(s.versions[v].status)
    ensures var s' := BuildVersion(s, w, changeset, inserted, j);
            s'.lost == s.lost && v in s'.versions && s'.versions[v].status == s.versions[v].status
  {
  }

  lemma StuckNotWorked(s: System, j: Id, a: JobAct, v: Id)
    requires TablesFine(s) && Works(s, j, a) && v in s.versions && v in s.lost
    ensures var s' := Work(s, j, a);
            v in s'.lost && v in s'.versions && s'.versions[v].status == s.versions[v].status
  {
  }

  lemma StuckNotMoved(s: System, p: Id, x: PassAct, v: Id)
    requires Inv(s) && Steps(s, p, x) && v in s.versions && !Settled(s.versions[v].status)
    ensures v in Step(s, p, x).versions && Step(s, p, x).versions[v] == s.versions[v] && Step(s, p, x).lost == s.lost
  {
    var m := PassEffect(s, p, x).0;
    PassMoves(s, p, x);
    assert Step(s, p, x).versions == Moved(s, m).versions;
    if m.OfFlavor? {
      FlavorMoves(s, m.f);
    }
  }

  // a run that gets there

  /** One version whose image is being built, its job at `stage`. */
  function One(stage: Stage): System {
    Init().(chunks := map[0 := false], flavors := map[0 := Flavor(0, false)],
            versions := map[0 := Version(0, IMAGE_BUILD, true)], jobs := map[0 := Job(Image, 0, stage)],
            current := map[0 := 0])
  }

  lemma Extend(es: seq<Event>, s: System, e: Event)
    requires Run(es) == Some(s) && Enabled(s, e)
    ensures Run(es + [e]) == Some(Next(s, e))
  {
    assert (es + [e])[..|es|] == es;
  }

  lemma OneMoves(stage: Stage, a: JobAct, stage': Stage)
    requires Ready(Job(Image, 0, stage), a) && !a.InsertNext?
    requires JobEffect(Job(Image, 0, stage), a) == Effect(stage', None, None, false, false, false)
    ensures Enabled(One(stage), Worked(0, a)) && Next(One(stage), Worked(0, a)) == One(stage')
  {
    assert One(stage).jobs[0 := Job(Image, 0, stage')] == One(stage').jobs;
  }

  lemma Begin() returns (es: seq<Event>)
    ensures Run(es) == Some(One(Waiting(0)))
  {
    var s := Init();
    es := [];
    Extend(es, s, Asked(CreateChunk(0)));
    es, s := es + [Asked(CreateChunk(0))], s.(chunks := map[0 := false]);
    Extend(es, s, Asked(CreateFlavor(0, 0)));
    es, s := es + [Asked(CreateFlavor(0, 0))], s.(flavors := map[0 := Flavor(0, false)]);
    Extend(es, s, Asked(CreateVersion(0, 0)));
    es, s := es + [Asked(CreateVersion(0, 0))], s.(versions := map[0 := Version(0, PENDING, false)]);
    Extend(es, s, Asked(Build(0, true, true, 0)));
    assert s.versions[0 := Version(0, IMAGE_BUILD, true)] == map[0 := Version(0, IMAGE_BUILD, true)];
    es := es + [Asked(Build(0, true, true, 0))];
  }

  lemma Try(es: seq<Event>, k: nat) returns (more: seq<Event>)
    requires Run(es) == Some(One(Waiting(k))) && k < MAX_ATTEMPTS
    ensures Run(more) == Some(One(Failing(k + 1)))
  {
    OneMoves(Waiting(k), Start, Working(k + 1));
    Extend(es, One(Waiting(k)), Worked(0, Start));
    more := es + [Worked(0, Start)];
    OneMoves(Working(k + 1), AttemptFails, Failing(k + 1));
    Extend(more, One(Working(k + 1)), Worked(0, AttemptFails));
    more := more + [Worked(0, AttemptFails)];
  }

  lemma TryAgain(es: seq<Event>, k: nat) returns (more: seq<Event>)
    requires Run(es) == Some(One(Waiting(k))) && k + 1 < MAX_ATTEMPTS
    ensures Run(more) == Some(One(Waiting(k + 1)))
  {
    more := Try(es, k);
    OneMoves(Failing(k + 1), Retry, Waiting(k + 1));
    Extend(more, One(Failing(k + 1)), Worked(0, Retry));
    more := more + [Worked(0, Retry)];
  }

  lemma FiveFailed() returns (es: seq<Event>)
    ensures Run(es) == Some(One(Failing(5)))
  {
    es := Begin();
    es := TryAgain(es, 0);
    es := TryAgain(es, 1);
    es := TryAgain(es, 2);
    es := TryAgain(es, 3);
    es := Try(es, 4);
  }

  lemma GivesUp()
    ensures Enabled(One(Failing(5)), Worked(0, GiveUp(false)))
    ensures Next(One(Failing(5)), Worked(0, GiveUp(false))) == One(Over).(lost := {0})
  {
    assert One(Failing(5)).jobs[0 := Job(Image, 0, Over)] == One(Over).jobs;
  }

  /** Five failed attempts and then a failing write: the version is left in IMAGE_BUILD without a job. */
  lemma StuckRun() returns (es: seq<Event>)
    ensures Run(es).Some? && Unrecorded(es, Run(es).value, 0)
    ensures var s := Run(es).value;
            0 in s.versions && s.versions[0].status == IMAGE_BUILD && !HasActiveJob(s, 0)
  {
    es := FiveFailed();
    GivesUp();
    Extend(es, One(Failing(5)), Worked(0, GiveUp(false)));
    es := es + [Worked(0, GiveUp(false))];
    MarksHappened(es, 0);
    StuckIff(es, 0);
  }

  // ---- Conservation ----

  function CreatedVersions(es: seq<Event>): set<Id> {
    set i | 0 <= i < |es| && es[i].Asked? && es[i].r.CreateVersion? :: es[i].r.v
  }

  function CreatedFlavors(es: seq<Event>): set<Id> {
    set i | 0 <= i < |es| && es[i].Asked? && es[i].r.CreateFlavor? :: es[i].r.f
  }

  function CreatedChunks(es: seq<Event>): set<Id> {
    set i | 0 <= i < |es| && es[i].Asked? && es[i].r.CreateChunk? :: es[i].r.c
  }

  lemma CreatedStep(es: seq<Event>, e: Event)
    ensures CreatedVersions(es + [e]) == CreatedVersions(es) + if e.Asked? && e.r.CreateVersion? then {e.r.v} else {}
    ensures CreatedFlavors(es + [e]) == CreatedFlavors(es) + if e.Asked? && e.r.CreateFlavor? then {e.r.f} else {}
    ensures CreatedChunks(es + [e]) == CreatedChunks(es) + if e.Asked? && e.r.CreateChunk? then {e.r.c} else {}
  {
    var all := es + [e];
    assert all[|es|] == e;
    assert forall i | 0 <= i < |es| :: all[i] == es[i];
  }

  function VersionIds(s: System): set<Id> {
    s.versions.Keys + s.oldVersions
  }

  function FlavorIds(s: System): set<Id> {
    s.flavors.Keys + s.oldFlavors
  }

  function ChunkIds(s: System): set<Id> {
    s.chunks.Keys + s.oldChunks
  }

  lemma NothingVanishes(s: System, e: Event)
    requires Inv(s) && Enabled(s, e)
    ensures var s' := Next(s, e);
            && VersionIds(s') == VersionIds(s) + (if e.Asked? && e.r.CreateVersion? then {e.r.v} else {})
            && FlavorIds(s') == FlavorIds(s) + (if e.Asked? && e.r.CreateFlavor? then {e.r.f} else {})
            && ChunkIds(s') == ChunkIds(s) + (if e.Asked? && e.r.CreateChunk? then {e.r.c} else {})
  {
    match e
    case Asked(r) => AskKeeps(s, r);
    case Worked(j, a) => WorkKeeps(s, j, a);
    case Archiving(p, x) => StepKeeps(s, p, x);
  }

  lemma StepKeeps(s: System, p: Id, x: PassAct)
    requires Inv(s) && Steps(s, p, x)
    ensures var s' := Step(s, p, x);
            VersionIds(s') == VersionIds(s) && FlavorIds(s') == FlavorIds(s) && ChunkIds(s') == ChunkIds(s)
  {
    PassMoves(s, p, x);
    MovesKeep(s, PassEffect(s, p, x).0);
  }

  lemma AskKeeps(s: System, r: Request)
    requires Asks(s, r)
    ensures var s' := Answer(s, r);
            && VersionIds(s') == VersionIds(s) + (if r.CreateVersion? then {r.v} else {})
            && FlavorIds(s') == FlavorIds(s) + (if r.CreateFlavor? then {r.f} else {})
            && ChunkIds(s') == ChunkIds(s) + (if r.CreateChunk? then {r.c} else {})
  {
    match r
    case Build(v, changeset, inserted, j) => BuildKeeps(s, v, changeset, inserted, j);
    case DeleteChunk(c) => DeleteKeeps(s, c);
    case _ =>
  }

  lemma BuildKeeps(s: System, v: Id, changeset: bool, inserted: bool, j: Id)
    requires v in s.versions && s.versions[v].flavor in s.flavors
    ensures var s' := BuildVersion(s, v, changeset, inserted, j);
            && s'.versions.Keys == s.versions.Keys && s'.flavors == s.flavors && s'.chunks == s.chunks
            && s'.oldVersions == s.oldVersions && s'.oldFlavors == s.oldFlavors && s'.oldChunks == s.oldChunks
  {
  }

  lemma DeleteKeeps(s: System, c: Id)
    requires c in s.chunks
    ensures var s' := Answer(s, DeleteChunk(c));
            && s'.versions == s.versions && s'.flavors.Keys == s.flavors.Keys && s'.chunks.Keys == s.chunks.Keys
            && s'.oldVersions == s.oldVersions && s'.oldFlavors == s.oldFlavors && s'.oldChunks == s.oldChunks
  {
  }

  lemma WorkKeeps(s: System, j: Id, a: JobAct)
    requires Works(s, j, a)
    ensures var s' := Work(s, j, a);
            VersionIds(s') == VersionIds(s) && FlavorIds(s') == FlavorIds(s) && ChunkIds(s') == ChunkIds(s)
  {
  }

  lemma MovesKeep(s: System, m: Move)
    requires MayMove(s, m)
    ensures var s' := Moved(s, m);
            VersionIds(s') == VersionIds(s) && FlavorIds(s') == FlavorIds(s) && ChunkIds(s') == ChunkIds(s)
  {
    if m.OfFlavor? {
      FlavorMoves(s, m.f);
    }
  }

  /** Over all runs, every chunk, flavor and version ever created is in exactly one of the live and the
      archive tables, and nothing else is, however many transactions rolled back. */
  lemma {:induction false} ExactlyOneTable(es: seq<Event>)
    requires Run(es).Some?
    ensures var s := Run(es).value;
            && VersionIds(s) == CreatedVersions(es) && s.versions.Keys !! s.oldVersions
            && FlavorIds(s) == CreatedFlavors(es) && s.flavors.Keys !! s.oldFlavors
            && ChunkIds(s) == CreatedChunks(es) && s.chunks.Keys !! s.oldChunks
  {
    RunInv(es);
    var s' := Run(es).value;
    assert s'.versions.Keys !! s'.oldVersions && s'.flavors.Keys !! s'.oldFlavors by {
      assert forall v | v in s'.versions :: VersionFine(s', v);
      assert forall f | f in s'.flavors :: FlavorFine(s', f);
    }
    if es != [] {
      var s := LastStep(es);
      var before, e := es[..|es| - 1], es[|es| - 1];
      assert es == before + [e];
      ExactlyOneTable(before);
      RunInv(before);
      NothingVanishes(s, e);
      CreatedStep(before, e);
    }
  }
}
