/** What requests to the control plane do and what they leave alone, and what a build has behind it, over
    whole runs of `Pipeline`. */
module PipelineRequests {
  import opened Option
  import opened Pipeline
  import opened PipelineSafety
  import opened PipelineTheorems

  // ---- One request ----

  /** A build request is refused for a deleted flavor, and for a version whose files are not there. */
  predicate BuildRefused(s: System, v: Id, changeset: bool)
    requires v in s.versions && s.versions[v].flavor in s.flavors
  {
    s.flavors[s.versions[v].flavor].deleted || !(s.versions[v].uploaded || changeset)
  }

  /** The version's row and nothing else of its kind. */
  predicate OnlyVersion(s: System, s': System, v: Id, status: BuildStatus)
    requires v in s.versions
  {
    s'.versions == s.versions[v := Version(s.versions[v].flavor, status, true)]
  }

  /** A refused request changes nothing. Another one marks the files uploaded, and inserts, if the insert
      succeeds, an image job for a version that waits or whose image failed, a checkpoint job for one whose
      checkpoint failed, and no job otherwise; the status goes with the job. */
  lemma BuildDoes(s: System, v: Id, changeset: bool, inserted: bool, job: Id)
    requires Asks(s, Build(v, changeset, inserted, job))
    ensures var s', b := Answer(s, Build(v, changeset, inserted, job)), s.versions[v].status;
            if BuildRefused(s, v, changeset) then s' == s
            else if inserted && (b == PENDING || b == IMAGE_BUILD_FAILED) then
              OnlyVersion(s, s', v, IMAGE_BUILD) && s'.jobs == s.jobs[job := Job(Image, v, Waiting(0))]
            else if inserted && b == CHECKPOINT_BUILD_FAILED then
              OnlyVersion(s, s', v, CHECKPOINT_BUILD) && s'.jobs == s.jobs[job := Job(Checkpoint, v, Waiting(0))]
            else
              OnlyVersion(s, s', v, b) && s'.jobs == s.jobs
    ensures var s' := Answer(s, Build(v, changeset, inserted, job));
            s'.chunks == s.chunks && s'.flavors == s.flavors && s'.instances == s.instances && s'.passes == s.passes
  {
  }

  /** An instance is created exactly for a version of a flavor that is not deleted. */
  lemma RunDoes(s: System, i: Id, v: Id)
    requires Asks(s, RunVersion(i, v))
    ensures Answer(s, RunVersion(i, v)) ==
            if s.flavors[s.versions[v].flavor].deleted then s else s.(instances := s.instances[i := v])
  {
  }

  /** Deleting a flavor marks it; deleting a chunk for the first time marks it and all its flavors, and a
      second time nothing. Neither removes anything. */
  lemma DeleteDoes(s: System, r: Request, f: Id)
    requires Asks(s, r) && (r.DeleteFlavor? || r.DeleteChunk?) && f in s.flavors
    ensures var s' := Answer(s, r);
            && f in s'.flavors && s'.flavors[f].chunk == s.flavors[f].chunk
            && (s'.flavors[f].deleted <==>
                  || s.flavors[f].deleted
                  || r == DeleteFlavor(f)
                  || (r.DeleteChunk? && r.c == s.flavors[f].chunk && !s.chunks[r.c]))
            && s'.versions == s.versions && s'.instances == s.instances && s'.jobs == s.jobs
            && s'.flavors.Keys == s.flavors.Keys && s'.chunks.Keys == s.chunks.Keys
  {
  }

  // ---- Deletion over runs ----

  /** The event deletes the flavor, by itself or with its chunk. */
  predicate Deletes(s: System, e: Event, f: Id) {
    && e.Asked? && f in s.flavors
    && (e.r == DeleteFlavor(f) || (e.r.DeleteChunk? && e.r.c == s.flavors[f].chunk && e.r.c in s.chunks && !s.chunks[e.r.c]))
  }

  ghost predicate DeletedIn(es: seq<Event>, f: Id) {
    exists i | 0 <= i < |es| :: Run(es[..i]).Some? && Deletes(Run(es[..i]).value, es[i], f)
  }

  lemma DeletedStep(s: System, e: Event, f: Id)
    requires Enabled(s, e) && f in Next(s, e).flavors
    ensures Next(s, e).flavors[f].deleted <==> (f in s.flavors && s.flavors[f].deleted) || Deletes(s, e, f)
  {
    match e
    case Asked(r) => AskDeleted(s, r, f);
    case Worked(j, a) =>
    case Archiving(p, x) => MoveDeleted(s, p, x, f);
  }

  lemma AskKeepsFlavors(s: System, r: Request, f: Id)
    requires Asks(s, r) && !r.DeleteFlavor? && !r.DeleteChunk? && f in Answer(s, r).flavors
    ensures if f in s.flavors then Answer(s, r).flavors[f] == s.flavors[f] else !Answer(s, r).flavors[f].deleted
  {
  }

  lemma AskDeleted(s: System, r: Request, f: Id)
    requires Asks(s, r) && f in Answer(s, r).flavors
    ensures Answer(s, r).flavors[f].deleted <==> (f in s.flavors && s.flavors[f].deleted) || Deletes(s, Asked(r), f)
  {
    if r.DeleteFlavor? || r.DeleteChunk? {
      if f in s.flavors {
        DeleteDoes(s, r, f);
      }
    } else {
      AskKeepsFlavors(s, r, f);
    }
  }

  lemma MoveDeleted(s: System, p: Id, x: PassAct, f: Id)
    requires Steps(s, p, x) && f in Step(s, p, x).flavors
    ensures f in s.flavors && Step(s, p, x).flavors[f] == s.flavors[f]
  {
  }

  lemma DeletedInStep(es: seq<Event>, s: System, e: Event, f: Id)
    requires Run(es) == Some(s)
    ensures DeletedIn(es + [e], f) <==> DeletedIn(es, f) || Deletes(s, e, f)
  {
    var all := es + [e];
    assert all[..|es|] == es;
    assert forall i | 0 <= i < |es| :: all[i] == es[i] && all[..i] == es[..i];
    if Deletes(s, e, f) {
      assert all[|es|] == e;
    }
  }

  /** In every run a flavor is marked deleted if and only if a request deleted it or its chunk. */
  lemma {:induction false} DeletedIff(es: seq<Event>, f: Id)
    requires Run(es).Some? && f in Run(es).value.flavors
    ensures Run(es).value.flavors[f].deleted <==> DeletedIn(es, f)
  {
    if es != [] {
      var s := LastStep(es);
      var before, e := es[..|es| - 1], es[|es| - 1];
      assert es == before + [e];
      DeletedStep(s, e, f);
      DeletedInStep(before, s, e, f);
      if f in s.flavors {
        DeletedIff(before, f);
      } else {
        NotYetDeleted(before, f);
      }
    }
  }

  /** What is in no table was not deleted before: ids are used once. */
  lemma {:induction false} NotYetDeleted(es: seq<Event>, f: Id)
    requires Run(es).Some? && f !in Run(es).value.flavors && f !in Run(es).value.oldFlavors
    ensures !DeletedIn(es, f)
  {
    if es != [] {
      var s := LastStep(es);
      var before, e := es[..|es| - 1], es[|es| - 1];
      assert es == before + [e];
      RunInv(before);
      NothingVanishes(s, e);
      assert f !in FlavorIds(Next(s, e));
      assert f !in FlavorIds(s);
      NotYetDeleted(before, f);
      DeletedInStep(before, s, e, f);
    }
  }

  // ---- Uploads over runs ----

  /** A build request that is let through finds the version's change set in the store. */
  predicate Uploads(s: System, e: Event, v: Id) {
    && e.Asked? && e.r.Build? && e.r.v == v && e.r.changeset
    && v in s.versions && s.versions[v].flavor in s.flavors && !s.flavors[s.versions[v].flavor].deleted
  }

  ghost predicate UploadedIn(es: seq<Event>, v: Id) {
    exists i | 0 <= i < |es| :: Run(es[..i]).Some? && Uploads(Run(es[..i]).value, es[i], v)
  }

  lemma UploadedInStep(es: seq<Event>, s: System, e: Event, v: Id)
    requires Run(es) == Some(s)
    ensures UploadedIn(es + [e], v) <==> UploadedIn(es, v) || Uploads(s, e, v)
  {
    var all := es + [e];
    assert all[..|es|] == es;
    assert forall i | 0 <= i < |es| :: all[i] == es[i] && all[..i] == es[..i];
    if Uploads(s, e, v) {
      assert all[|es|] == e;
    }
  }

  lemma UploadedStep(s: System, e: Event, v: Id)
    requires Enabled(s, e) && v in Next(s, e).versions
    ensures Next(s, e).versions[v].uploaded <==> (v in s.versions && s.versions[v].uploaded) || Uploads(s, e, v)
  {
    match e
    case Asked(r) => AskUploaded(s, r, v);
    case Worked(j, a) =>
    case Archiving(p, x) => MoveWritesNothing(s, p, x, v);
  }

  lemma AskUploaded(s: System, r: Request, v: Id)
    requires Asks(s, r) && v in Answer(s, r).versions
    ensures Answer(s, r).versions[v].uploaded <==> (v in s.versions && s.versions[v].uploaded) || Uploads(s, Asked(r), v)
  {
    if r.Build? {
      BuildDoes(s, r.v, r.changeset, r.inserted, r.job);
    }
  }

  lemma MoveWritesNothing(s: System, p: Id, x: PassAct, v: Id)
    requires Steps(s, p, x) && v in Step(s, p, x).versions
    ensures v in s.versions && Step(s, p, x).versions[v] == s.versions[v]
  {
  }

  /** In every run a version is marked uploaded if and only if a build request that was let through found
      its change set. */
  lemma {:induction false} UploadedIff(es: seq<Event>, v: Id)
    requires Run(es).Some? && v in Run(es).value.versions
    ensures Run(es).value.versions[v].uploaded <==> UploadedIn(es, v)
  {
    if es != [] {
      var s := LastStep(es);
      var before, e := es[..|es| - 1], es[|es| - 1];
      assert es == before + [e];
      UploadedStep(s, e, v);
      UploadedInStep(before, s, e, v);
      if v in s.versions {
        UploadedIff(before, v);
      } else {
        RunInv(before);
        FreshVersion(s, e, v);
        NotYetUploaded(before, v);
      }
    }
  }

  lemma FreshVersion(s: System, e: Event, v: Id)
    requires Inv(s) && Enabled(s, e) && v in Next(s, e).versions && v !in s.versions
    ensures v !in s.oldVersions
  {
    match e
    case Asked(r) => AskFresh(s, r, v);
    case Worked(j, a) =>
    case Archiving(p, x) => MoveWritesNothing(s, p, x, v);
  }

  lemma AskFresh(s: System, r: Request, v: Id)
    requires Asks(s, r) && v in Answer(s, r).versions && v !in s.versions
    ensures r.CreateVersion? && r.v == v
  {
  }

  lemma {:induction false} NotYetUploaded(es: seq<Event>, v: Id)
    requires Run(es).Some? && v !in Run(es).value.versions && v !in Run(es).value.oldVersions
    ensures !UploadedIn(es, v)
  {
    if es != [] {
      var s := LastStep(es);
      var before, e := es[..|es| - 1], es[|es| - 1];
      assert es == before + [e];
      RunInv(before);
      NothingVanishes(s, e);
      assert v !in VersionIds(Next(s, e));
      assert v !in VersionIds(s);
      NotYetUploaded(before, v);
      UploadedInStep(before, s, e, v);
    }
  }

  /** A request leaves the jobs alone, save that a build request may insert its own. */
  lemma AskJobs(s: System, r: Request, j: Id)
    requires Asks(s, r) && j in Answer(s, r).jobs
    ensures var job := Answer(s, r).jobs[j];
            || (j in s.jobs && job == s.jobs[j])
            || (j !in s.jobs && r.Build? && job.version == r.v && job.stage == Waiting(0) && !BuildRefused(s, r.v, r.changeset))
  {
    if r.Build? {
      BuildDoes(s, r.v, r.changeset, r.inserted, r.job);
    }
  }

  /** A job's step moves the job, and may insert one for the same version. */
  lemma WorkJobs(s: System, k: Id, a: JobAct, j: Id)
    requires Works(s, k, a) && j in Work(s, k, a).jobs
    ensures var job := Work(s, k, a).jobs[j];
            if j == k then job == s.jobs[j].(stage := JobEffect(s.jobs[j], a).stage)
            else if j in s.jobs then job == s.jobs[j]
            else job.version == s.jobs[k].version && job.stage == Waiting(0)
  {
    assert Work(s, k, a).jobs == Advanced(s.jobs, k, JobEffect(s.jobs[k], a));
  }

  lemma NewJob(s: System, e: Event, j: Id)
    requires Enabled(s, e) && j in Next(s, e).jobs
    ensures var v := Next(s, e).jobs[j].version;
            || (j in s.jobs && s.jobs[j].version == v)
            || Uploads(s, e, v)
            || (v in s.versions && s.versions[v].uploaded)
            || (e.Worked? && e.j in s.jobs && s.jobs[e.j].version == v)
  {
    match e
    case Asked(r) => AskJobs(s, r, j);
    case Worked(k, a) => WorkJobs(s, k, a, j);
    case Archiving(p, x) => MoveMarks(s, p, x);
  }

  /** Nothing is built before its files are there: the version of every job had such a request before. */
  lemma {:induction false} JobsUploaded(es: seq<Event>, j: Id)
    requires Run(es).Some? && j in Run(es).value.jobs
    ensures UploadedIn(es, Run(es).value.jobs[j].version)
  {
    if es != [] {
      var s := LastStep(es);
      var before, e := es[..|es| - 1], es[|es| - 1];
      assert es == before + [e];
      var v := Next(s, e).jobs[j].version;
      NewJob(s, e, j);
      UploadedInStep(before, s, e, v);
      if j in s.jobs && s.jobs[j].version == v {
        JobsUploaded(before, j);
      } else if v in s.versions && s.versions[v].uploaded {
        UploadedIff(before, v);
      } else if e.Worked? {
        JobsUploaded(before, e.j);
      }
    }
  }

  ghost predicate BuildAsked(es: seq<Event>, v: Id) {
    exists i | 0 <= i < |es| :: es[i].Asked? && es[i].r.Build? && es[i].r.v == v
  }

  lemma UploadsAsked(es: seq<Event>, v: Id)
    requires UploadedIn(es, v)
    ensures BuildAsked(es, v)
  {
    var i :| 0 <= i < |es| && Run(es[..i]).Some? && Uploads(Run(es[..i]).value, es[i], v);
    assert es[i].Asked? && es[i].r.Build? && es[i].r.v == v;
  }

  lemma StillAsked(es: seq<Event>, e: Event, v: Id)
    ensures BuildAsked(es + [e], v) <==> BuildAsked(es, v) || (e.Asked? && e.r.Build? && e.r.v == v)
  {
    var all := es + [e];
    assert all[|es|] == e && forall i | 0 <= i < |es| :: all[i] == es[i];
    if i :| 0 <= i < |es| && es[i].Asked? && es[i].r.Build? && es[i].r.v == v {
      assert all[i].Asked? && all[i].r.Build? && all[i].r.v == v;
    }
  }

  lemma CreatedPending(s: System, e: Event, v: Id)
    requires Inv(s) && Enabled(s, e) && v in Next(s, e).versions && v !in s.versions
    ensures Next(s, e).versions[v].status == PENDING
  {
    match e
    case Asked(r) => AskFresh(s, r, v);
    case Worked(j, a) =>
    case Archiving(p, x) => MoveWritesNothing(s, p, x, v);
  }

  /** In every run a version nobody asked to build waits, without files and without a job. */
  lemma {:induction false} PendingUntilAsked(es: seq<Event>, v: Id)
    requires Run(es).Some? && v in Run(es).value.versions && !BuildAsked(es, v)
    ensures var s := Run(es).value;
            && s.versions[v].status == PENDING && !s.versions[v].uploaded
            && forall j | j in s.jobs :: s.jobs[j].version != v
  {
    var s' := Run(es).value;
    UploadedIff(es, v);
    if UploadedIn(es, v) {
      UploadsAsked(es, v);
    }
    forall j | j in s'.jobs
      ensures s'.jobs[j].version != v
    {
      JobsUploaded(es, j);
    }
    if es != [] {
      var s := LastStep(es);
      var before, e := es[..|es| - 1], es[|es| - 1];
      assert es == before + [e];
      RunInv(before);
      if v in s.versions {
        StillAsked(before, e, v);
        PendingUntilAsked(before, v);
        StatusWrites(before, e, v);
      } else {
        CreatedPending(s, e, v);
      }
    }
  }

  // ---- Attempts over runs ----

  function Starts(es: seq<Event>, j: Id): nat {
    if es == [] then 0 else Starts(es[..|es| - 1], j) + if es[|es| - 1] == Worked(j, Start) then 1 else 0
  }

  /** The attempts a job has begun, as its stage tells. */
  function Begun(stage: Stage): Option<nat> {
    match stage
    case Waiting(n) => Some(n)
    case Working(n) => Some(n)
    case Pushed(n) => Some(n)
    case SawCompleted(n) => Some(n)
    case Failing(n) => Some(n)
    case Over => None
  }

  lemma JobStage(s: System, e: Event, j: Id)
    requires Enabled(s, e) && j in Next(s, e).jobs
    ensures j in s.jobs && e.Worked? && e.j == j ==> Next(s, e).jobs[j].stage == JobEffect(s.jobs[j], e.a).stage
    ensures j in s.jobs && !(e.Worked? && e.j == j) ==> Next(s, e).jobs[j].stage == s.jobs[j].stage
    ensures j !in s.jobs ==> Next(s, e).jobs[j].stage == Waiting(0) && !(e.Worked? && e.j == j)
  {
    match e
    case Asked(r) => AskJobs(s, r, j);
    case Worked(k, a) => WorkJobs(s, k, a, j);
    case Archiving(p, x) => MoveMarks(s, p, x);
  }

  lemma {:induction false} NoStarts(es: seq<Event>, j: Id)
    requires Run(es).Some? && j !in Run(es).value.jobs
    ensures Starts(es, j) == 0
  {
    if es != [] {
      var s := LastStep(es);
      var e := es[|es| - 1];
      if j in s.jobs {
        JobsStay(s, e, j);
      }
      NoStarts(es[..|es| - 1], j);
    }
  }

  /** In every run a job is attempted at most five times, and it gives up only in the fifth attempt. */
  lemma {:induction false} FiveAttempts(es: seq<Event>, j: Id)
    requires Run(es).Some? && j in Run(es).value.jobs
    ensures Starts(es, j) <= 5
    ensures var stage := Run(es).value.jobs[j].stage; Begun(stage).Some? ==> Begun(stage).value == Starts(es, j)
    ensures forall recorded | Worked(j, GiveUp(recorded)) in es :: Starts(es, j) == 5
    ensures Run(es).value.jobs[j].stage.Over? || forall recorded :: Worked(j, GiveUp(recorded)) !in es
  {
    if es != [] {
      var s := LastStep(es);
      var before, e := es[..|es| - 1], es[|es| - 1];
      assert es == before + [e];
      JobStage(s, e, j);
      if j in s.jobs {
        FiveAttempts(before, j);
      } else {
        NoStarts(before, j);
        WorkedJobs(before);
      }
    }
  }
}
