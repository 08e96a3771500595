/** One attempt of an image or checkpoint job, as its worker runs it. Each worker is proved to take a
    path of steps of `Pipeline`, so what holds of every run of that machine holds of the workers. */
module BuildJobs {
  import opened Option
  import opened Pipeline
  import Safety = PipelineSafety
  import Theorems = PipelineTheorems

  /** The job takes the steps `acts`, one after the other, and ends as `end`. */
  ghost predicate Takes(job: Job, acts: seq<JobAct>, end: Job)
    decreases |acts|
  {
    if acts == [] then job == end
    else Ready(job, acts[0]) && Takes(job.(stage := JobEffect(job, acts[0]).stage), acts[1..], end)
  }

  /** The statuses a path of steps writes. */
  function Writes(job: Job, acts: seq<JobAct>): seq<BuildStatus>
    decreases |acts|
  {
    if acts == [] || !Ready(job, acts[0]) then []
    else
      var e := JobEffect(job, acts[0]);
      (if e.status.Some? then [e.status.value] else []) + Writes(job.(stage := e.stage), acts[1..])
  }

  lemma {:induction false} TakesOn(job: Job, acts: seq<JobAct>, end: Job, a: JobAct)
    requires Takes(job, acts, end) && Ready(end, a)
    ensures Takes(job, acts + [a], end.(stage := JobEffect(end, a).stage))
    ensures Writes(job, acts + [a]) ==
            Writes(job, acts) + if JobEffect(end, a).status.Some? then [JobEffect(end, a).status.value] else []
    decreases |acts|
  {
    if acts == [] {
      assert (acts + [a])[1..] == [];
    } else {
      assert (acts + [a])[1..] == acts[1..] + [a];
      TakesOn(job.(stage := JobEffect(job, acts[0]).stage), acts[1..], end, a);
    }
  }

  // ---- The deferred function ----

  /** Runs after an attempt that returned an error: nothing before the last attempt, then one try to
      record the failure. */
  method Deferred(job: Job, acts: seq<JobAct>, now: Job, recorded: bool) returns (acts': seq<JobAct>, end: Job)
    requires Takes(job, acts, now) && now.stage.Failing?
    ensures Takes(job, acts', end)
    ensures acts' == acts + [if now.stage.attempt < MAX_ATTEMPTS then Retry else GiveUp(recorded)]
    ensures now.stage.attempt < MAX_ATTEMPTS ==> end.stage == Waiting(now.stage.attempt) && Writes(job, acts') == Writes(job, acts)
    ensures now.stage.attempt >= MAX_ATTEMPTS ==>
              end.stage.Over? && Writes(job, acts') == Writes(job, acts) + if recorded then [Failed(now.kind)] else []
  {
    var a := if now.stage.attempt < MAX_ATTEMPTS then Retry else GiveUp(recorded);
    TakesOn(job, acts, now, a);
    acts', end := acts + [a], now.(stage := JobEffect(now, a).stage);
  }

  // ---- The image worker ----

  /** Which of an image attempt's calls succeed; `built` stands for unpacking, uploading and fetching. */
  datatype ImageCalls = ImageCalls(
    valid: bool, pulled: bool, found: bool, downloaded: bool, built: bool, sanitized: bool, layered: bool,
    pushed: bool, inserted: bool, recorded: bool)

  predicate ReachesPush(c: ImageCalls) {
    c.valid && c.pulled && c.found && c.downloaded && c.built && c.sanitized && c.layered && c.pushed
  }

  method ImageWork(job: Job, c: ImageCalls, next: Id) returns (ok: bool, acts: seq<JobAct>, end: Job)
    requires job.kind == Image && Ready(job, Start)
    ensures Takes(job, acts, end)
    // the base image is pushed before anything is written, and the checkpoint job only follows a push
    ensures ok <==> ReachesPush(c) && c.inserted
    ensures PushOk in acts <==> ReachesPush(c)
    ensures ok ==> end.stage.Over? && Writes(job, acts) == [CHECKPOINT_BUILD]
    ensures !ok && job.stage.tries + 1 < MAX_ATTEMPTS ==> end.stage == Waiting(job.stage.tries + 1) && Writes(job, acts) == []
    ensures !ok && job.stage.tries + 1 == MAX_ATTEMPTS ==>
              end.stage.Over? && Writes(job, acts) == if c.recorded then [IMAGE_BUILD_FAILED] else []
  {
    var n := job.stage.tries + 1;
    TakesOn(job, [], job, Start);
    acts, end := [] + [Start], job.(stage := Working(n));
    ok := false;
    if !(c.valid && c.pulled && c.found && c.downloaded && c.built && c.sanitized && c.layered && c.pushed) {
      TakesOn(job, acts, end, AttemptFails);
      acts, end := acts + [AttemptFails], end.(stage := Failing(n));
      acts, end := Deferred(job, acts, end, c.recorded);
      return;
    }
    TakesOn(job, acts, end, PushOk);
    acts, end := acts + [PushOk], end.(stage := Pushed(n));
    TakesOn(job, acts, end, InsertNext(c.inserted, next));
    acts, end := acts + [InsertNext(c.inserted, next)], end.(stage := if c.inserted then Over else Failing(n));
    if !c.inserted {
      acts, end := Deferred(job, acts, end, c.recorded);
      return;
    }
    ok := true;
  }

  // ---- The checkpoint worker ----

  datatype Response = NotFound | OtherError | Running | Completed | SomeFailure

  /** What the worker's select sees: a tick with the node's answer, or the end of its context. */
  datatype Seen = Tick(r: Response) | Cancelled

  /** The first event that ends the polling; transient errors and a running checkpoint do not. A worker
      that sees no such event is cut off by its timeout. */
  function Verdict(events: seq<Seen>): Seen {
    if events == [] then Cancelled
    else if events[0] == Tick(OtherError) || events[0] == Tick(Running) then Verdict(events[1..])
    else events[0]
  }

  /** Whatever would end the polling otherwise comes after a cancellation. */
  ghost predicate CancelledFirst(events: seq<Seen>) {
    forall k | 0 <= k < |events| && events[k] != Tick(OtherError) && events[k] != Tick(Running) && events[k] != Cancelled ::
      exists i | 0 <= i < k :: events[i] == Cancelled
  }

  lemma CancelledStep(events: seq<Seen>)
    requires events != []
    ensures CancelledFirst(events) <==>
            if events[0] == Tick(OtherError) || events[0] == Tick(Running) then CancelledFirst(events[1..])
            else events[0] == Cancelled
  {
    var rest := events[1..];
    assert forall k | 0 <= k < |rest| :: rest[k] == events[k + 1];
    if events[0] == Tick(OtherError) || events[0] == Tick(Running) {
      if CancelledFirst(rest) {
        forall k | 0 <= k < |events| && events[k] != Tick(OtherError) && events[k] != Tick(Running) && events[k] != Cancelled
          ensures exists i | 0 <= i < k :: events[i] == Cancelled
        {
          assert rest[k - 1] == events[k];
          var i :| 0 <= i < k - 1 && rest[i] == Cancelled;
          assert events[i + 1] == Cancelled;
        }
      }
      if CancelledFirst(events) {
        forall k | 0 <= k < |rest| && rest[k] != Tick(OtherError) && rest[k] != Tick(Running) && rest[k] != Cancelled
          ensures exists i | 0 <= i < k :: rest[i] == Cancelled
        {
          assert events[k + 1] == rest[k];
          var i :| 0 <= i < k + 1 && events[i] == Cancelled;
          assert rest[i - 1] == Cancelled;
        }
      }
    }
  }

  lemma {:induction false} VerdictMeans(events: seq<Seen>)
    ensures Verdict(events) == Tick(Completed) <==>
            exists k | 0 <= k < |events| ::
              && events[k] == Tick(Completed)
              && forall i | 0 <= i < k :: events[i] == Tick(OtherError) || events[i] == Tick(Running)
    ensures Verdict(events) == Cancelled <==> CancelledFirst(events)
  {
    if events != [] {
      VerdictMeans(events[1..]);
      CancelledStep(events);
      if events[0] == Tick(OtherError) || events[0] == Tick(Running) {
        if k :| 0 <= k < |events[1..]| && events[1..][k] == Tick(Completed)
                && forall i | 0 <= i < k :: events[1..][i] == Tick(OtherError) || events[1..][i] == Tick(Running) {
          assert events[k + 1] == Tick(Completed);
          assert forall i | 1 <= i < k + 1 :: events[i] == events[1..][i - 1];
        }
        if k :| 0 <= k < |events| && events[k] == Tick(Completed)
                && forall i | 0 <= i < k :: events[i] == Tick(OtherError) || events[i] == Tick(Running) {
          assert events[1..][k - 1] == Tick(Completed);
          assert forall i | 0 <= i < k - 1 :: events[1..][i] == events[i + 1];
        }
      }
    }
  }

  /** The polling loop. */
  method Poll(events: seq<Seen>) returns (completed: bool, cancelled: bool)
    ensures completed <==> Verdict(events) == Tick(Completed)
    ensures cancelled <==> Verdict(events) == Cancelled
  {
    var i := 0;
    while i < |events|
      invariant i <= |events| && Verdict(events) == Verdict(events[i..])
    {
      assert events[i..][1..] == events[i + 1..];
      match events[i]
      case Cancelled => return false, true;
      case Tick(r) =>
        if r == NotFound {
          return false, false;
        }
        if r != OtherError && r != Running {
          return r == Completed, false;
        }
        i := i + 1;
    }
    return false, true;
  }

  datatype CheckpointCalls = CheckpointCalls(
    valid: bool, node: bool, client: bool, created: bool, events: seq<Seen>, updated: bool, recorded: bool)

  predicate ReachesPoll(c: CheckpointCalls) {
    c.valid && c.node && c.client && c.created
  }

  /** The deferred update goes through the worker's own context: once that has ended it cannot succeed. */
  predicate Recorded(c: CheckpointCalls) {
    c.recorded && !(ReachesPoll(c) && Verdict(c.events) == Cancelled)
  }

  method CheckpointWork(job: Job, c: CheckpointCalls) returns (ok: bool, acts: seq<JobAct>, end: Job)
    requires job.kind == Checkpoint && Ready(job, Start)
    ensures Takes(job, acts, end)
    // COMPLETED is written only after a poll that saw the checkpoint completed
    ensures ok <==> ReachesPoll(c) && Verdict(c.events) == Tick(Completed) && c.updated
    ensures ok ==> end.stage.Over? && Writes(job, acts) == [COMPLETED] && PollCompleted in acts
    ensures !ok && job.stage.tries + 1 < MAX_ATTEMPTS ==> end.stage == Waiting(job.stage.tries + 1) && Writes(job, acts) == []
    ensures !ok && job.stage.tries + 1 == MAX_ATTEMPTS ==>
              end.stage.Over? && Writes(job, acts) == if Recorded(c) then [CHECKPOINT_BUILD_FAILED] else []
    // a last attempt that is cancelled while polling ends unrecorded
    ensures job.stage.tries + 1 == MAX_ATTEMPTS && ReachesPoll(c) && Verdict(c.events) == Cancelled ==>
              acts == [Start, AttemptFails, GiveUp(false)]
  {
    var n := job.stage.tries + 1;
    TakesOn(job, [], job, Start);
    acts, end := [] + [Start], job.(stage := Working(n));
    ok := c.valid && c.node && c.client && c.created;
    var cancelled := false;
    if ok {
      ok, cancelled := Poll(c.events);
    }
    if !ok {
      TakesOn(job, acts, end, AttemptFails);
      acts, end := acts + [AttemptFails], end.(stage := Failing(n));
      acts, end := Deferred(job, acts, end, c.recorded && !cancelled);
      return;
    }
    TakesOn(job, acts, end, PollCompleted);
    acts, end := acts + [PollCompleted], end.(stage := SawCompleted(n));
    TakesOn(job, acts, end, RecordCompleted(c.updated));
    acts, end := acts + [RecordCompleted(c.updated)], end.(stage := if c.updated then Over else Failing(n));
    if !c.updated {
      ok := false;
      acts, end := Deferred(job, acts, end, c.recorded);
    }
  }

  // ---- What an unrecorded end means ----

  lemma {:induction false} PrefixRuns(es: seq<Event>, more: seq<Event>)
    requires Run(es + more).Some?
    ensures Run(es).Some?
    decreases |more|
  {
    if more == [] {
      assert es + more == es;
    } else {
      var n := |more| - 1;
      assert (es + more)[..|es + more| - 1] == es + more[..n];
      PrefixRuns(es, more[..n]);
    }
  }

  /** A job that ends unrecorded, as every one whose last attempt is cancelled while polling, leaves its
      version in the building status of its kind and without a job, in every continuation of the run. */
  lemma EndedUnrecorded(es: seq<Event>, j: Id, more: seq<Event>)
    requires Run(es + [Worked(j, GiveUp(false))] + more).Some?
    ensures Run(es).Some? && j in Run(es).value.jobs
    ensures var job, s := Run(es).value.jobs[j], Run(es + [Worked(j, GiveUp(false))] + more).value;
            && job.version in s.versions && s.versions[job.version].status == Building(job.kind)
            && !Theorems.HasActiveJob(s, job.version)
  {
    var e := Worked(j, GiveUp(false));
    var all := es + [e];
    PrefixRuns(all, more);
    var s := Safety.LastStep(all);
    assert all[..|all| - 1] == es;
    var v := s.jobs[j].version;
    Safety.RunInv(es);
    assert Safety.JobFine(s, j);
    Theorems.WorkedJobs(es);
    Theorems.HappenedStep(es, s, e, GiveUp(false), v);
    Theorems.StuckForever(all, more, v);
  }
}
