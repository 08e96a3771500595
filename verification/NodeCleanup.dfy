/** The two cleanup loops on the shared store: the reconciler forgets finished workloads, the garbage
    collector forgets finished checkpoints. */
module NodeCleanup {
  import opened Option
  import opened Status
  import opened NodeProtocol
  import opened NodeSafety
  import opened NodeTheorems

  // ---- Who drops what ----

  /** An entry leaves the store in two ways only: the reconciler drops a terminal workload, the
      collector a checkpoint that finished more than the retention period ago. */
  lemma DropsOnlyOwn(c: Config, es: seq<Event>, e: Event, id: Id)
    requires Run(c, es).Some? && Enabled(c, Run(c, es).value, e)
    requires id in Run(c, es).value.store && id !in Next(c, Run(c, es).value, e).store
    ensures var s := Run(c, es).value;
            || (e == Tick(Forget(id)) && IsWorkload(s, id) && Terminal(s.store[id].workload.value.state))
            || (e == GcStep(GcVisit(id)) && IsCheckpoint(s, id) && id in s.jobs && s.jobs[id].pc == Finished
                && s.now > s.store[id].checkpoint.value.completedAt.value + c.retention)
  {
    var s := Run(c, es).value;
    RunInv(c, es);
    assert Fine(TrackOf(s, id));
    if e.Tick? {
      TickDrops(s, e.t, id);
    } else if e.GcStep? {
      GcDrops(c, s, e.g, id);
    } else {
      OthersDropNothing(c, s, e, id);
    }
  }

  lemma OthersDropNothing(c: Config, s: Node, e: Event, id: Id)
    requires Enabled(c, s, e) && !e.Tick? && !e.GcStep? && id in s.store
    ensures id in Next(c, s, e).store
  {
    match e
    case Go(g, out) => if g != id { GoFrame(c, s, g, out, id); }
    case Request(q, r) => if q != id { RequestFrame(s, q, r, id); }
    case JobStep(q, j) => if q != id { JobFrame(c, s, q, j, id); }
    case Clock =>
  }

  lemma GcDrops(c: Config, s: Node, g: GcAct, id: Id)
    requires Fine(TrackOf(s, id)) && GcEnabled(s, g)
    requires id in s.store && id !in GcNext(c, s, g).store
    ensures g == GcVisit(id) && IsCheckpoint(s, id) && Expired(c, s.now, s.store[id].checkpoint.value)
  {
  }

  lemma TickDrops(s: Node, t: TickAct, id: Id)
    requires Fine(TrackOf(s, id)) && TickEnabled(s, t)
    requires id in s.store && id !in TickNext(s, t).store
    ensures t == Forget(id) && IsWorkload(s, id) && Terminal(s.store[id].workload.value.state)
  {
  }

  // ---- Checkpoint statuses ----

  lemma {:induction false} RunSplit(c: Config, es: seq<Event>, e: Event)
    ensures Run(c, es + [e]) ==
            match Run(c, es)
            case None => None
            case Some(s) => if Enabled(c, s, e) then Some(Next(c, s, e)) else None
  {
  }

  /** The finished status of a job as it was recorded, as long as it is there. */
  predicate ShowsFinish(t: Track, ck: CheckpointStatus) {
    t.job.Some? && t.job.value.pc == Finished && (HasCheckpoint(t) ==> t.entry.value.checkpoint.value == ck)
  }

  predicate WithinRetention(c: Config, now: nat, ck: CheckpointStatus) {
    ck.completedAt.Some? && now <= ck.completedAt.value + c.retention
  }

  lemma TickFinishStays(s: Node, t: TickAct, id: Id, ck: CheckpointStatus)
    requires TickEnabled(s, t) && Fine(TrackOf(s, id)) && ShowsFinish(TrackOf(s, id), ck)
    ensures var t' := TrackOf(TickNext(s, t), id);
            ShowsFinish(t', ck) && (HasCheckpoint(TrackOf(s, id)) ==> HasCheckpoint(t'))
  {
    TickKeepsJob(s, t, id);
  }

  lemma OwnFinishStays(c: Config, s: Node, e: Event, id: Id, ck: CheckpointStatus)
    requires Enabled(c, s, e) && (e.Request? || e.JobStep?) && e.id == id
    requires Fine(TrackOf(s, id)) && ShowsFinish(TrackOf(s, id), ck)
    ensures var t' := TrackOf(Next(c, s, e), id);
            ShowsFinish(t', ck) && (HasCheckpoint(TrackOf(s, id)) ==> HasCheckpoint(t'))
  {
  }

  lemma GcFinishStays(c: Config, s: Node, g: GcAct, id: Id, ck: CheckpointStatus)
    requires Fine(TrackOf(s, id)) && GcEnabled(s, g) && ShowsFinish(TrackOf(s, id), ck)
    ensures var t' := TrackOf(GcNext(c, s, g), id);
            && ShowsFinish(t', ck)
            && (HasCheckpoint(TrackOf(s, id)) && WithinRetention(c, s.now, ck) ==> HasCheckpoint(t'))
  {
    if (g.GcVisit? || g.GcFree?) && g.id != id {
      GcFrame(c, s, g, id);
    }
  }

  lemma FinishStays(c: Config, s: Node, e: Event, id: Id, ck: CheckpointStatus)
    requires Inv(s) && Enabled(c, s, e) && ShowsFinish(TrackOf(s, id), ck)
    ensures var t' := TrackOf(Next(c, s, e), id);
            && ShowsFinish(t', ck)
            && (HasCheckpoint(TrackOf(s, id)) && WithinRetention(c, s.now, ck) ==> HasCheckpoint(t'))
  {
    assert Fine(TrackOf(s, id));
    match e
    case Tick(t) => TickFinishStays(s, t, id, ck);
    case Go(g, out) =>
      assert Fine(TrackOf(s, g));
      GoFrame(c, s, g, out, id);
    case Request(q, r) => if q != id { RequestFrame(s, q, r, id); } else { OwnFinishStays(c, s, e, id, ck); }
    case JobStep(q, j) => if q != id { JobFrame(c, s, q, j, id); } else { OwnFinishStays(c, s, e, id, ck); }
    case GcStep(g) => GcFinishStays(c, s, g, id, ck);
    case Clock => assert TrackOf(Next(c, s, e), id) == TrackOf(s, id);
  }

  /** The status a job leaves: as given at the end, with the port it saved, if any. */
  function FinalStatus(s: Node, id: Id, state: CheckpointState, message: string): CheckpointStatus
    requires id in s.jobs
  {
    CheckpointStatus(state, message, Some(s.now), SavedPort(s.jobs[id]))
  }

  /** A job's final status is readable, unchanged in all its fields, for the whole retention period after
      the job finished, whatever happens in between. */
  lemma {:induction false} FinishedReadable(
    c: Config, before: seq<Event>, id: Id, state: CheckpointState, message: string, after: seq<Event>)
    requires Run(c, before + [JobStep(id, Finish(state, message))] + after).Some?
    ensures Run(c, before).Some? && id in Run(c, before).value.jobs
    ensures var ck := FinalStatus(Run(c, before).value, id, state, message);
            var s := Run(c, before + [JobStep(id, Finish(state, message))] + after).value;
            && ck.completedAt.value <= s.now
            && ShowsFinish(TrackOf(s, id), ck)
            && (WithinRetention(c, s.now, ck) ==> id in s.store && s.store[id] == Status(Some(ck), None))
    decreases after
  {
    var start := before + [JobStep(id, Finish(state, message))];
    if after == [] {
      assert start + after == start;
      RunSplit(c, before, JobStep(id, Finish(state, message)));
      RunInv(c, before);
      FinishShows(c, Run(c, before).value, id, state, message);
    } else {
      var es, e := start + after[..|after| - 1], after[|after| - 1];
      assert start + after == es + [e];
      RunSplit(c, es, e);
      FinishedReadable(c, before, id, state, message, after[..|after| - 1]);
      RunInv(c, es);
      FinishStays(c, Run(c, es).value, e, id, FinalStatus(Run(c, before).value, id, state, message));
      ClockForward(c, Run(c, es).value, e);
    }
    RunInv(c, start + after);
    assert Fine(TrackOf(Run(c, start + after).value, id));
  }

  lemma FinishShows(c: Config, s: Node, id: Id, state: CheckpointState, message: string)
    requires Inv(s) && JobEnabled(c, s, id, Finish(state, message))
    ensures var s' := JobNext(c, s, id, Finish(state, message));
            ShowsFinish(TrackOf(s', id), FinalStatus(s, id, state, message)) && IsCheckpoint(s', id) && s'.now == s.now
  {
    assert Fine(TrackOf(s, id));
  }

  // What the steps of each actor leave alone.

  lemma TickLeaves(s: Node, t: TickAct)
    requires TickEnabled(s, t)
    ensures TickNext(s, t).now == s.now && TickNext(s, t).gc == s.gc
  {
  }

  lemma RequestLeaves(s: Node, q: Id, r: RequestAct)
    requires RequestEnabled(s, q, r)
    ensures RequestNext(s, q, r).now == s.now && RequestNext(s, q, r).gc == s.gc
  {
  }

  lemma JobLeaves(c: Config, s: Node, id: Id, j: JobAct)
    requires JobEnabled(c, s, id, j)
    ensures JobNext(c, s, id, j).now == s.now && JobNext(c, s, id, j).phase == s.phase
    ensures JobNext(c, s, id, j).gc.since == s.gc.since + if j == Start then {id} else {}
  {
  }

  lemma GcLeaves(c: Config, s: Node, g: GcAct)
    requires GcEnabled(s, g)
    ensures GcNext(c, s, g).now == s.now && GcNext(c, s, g).phase == s.phase
    ensures GcNext(c, s, g).gc.since == if g == GcView then {} else s.gc.since
  {
  }

  lemma ClockForward(c: Config, s: Node, e: Event)
    requires Enabled(c, s, e)
    ensures s.now <= Next(c, s, e).now
  {
    match e
    case Tick(t) => TickLeaves(s, t);
    case Request(q, r) => RequestLeaves(s, q, r);
    case JobStep(id, j) => JobLeaves(c, s, id, j);
    case GcStep(g) => GcLeaves(c, s, g);
    case _ =>
  }

  // ---- Checkpoint ports are freed once ----

  function Frees(es: seq<Event>, id: Id): nat {
    if es == [] then 0
    else Frees(es[..|es| - 1], id) + if es[|es| - 1] == GcStep(GcFree(id)) then 1 else 0
  }

  lemma FreeStep(c: Config, s: Node, e: Event, id: Id)
    requires Inv(s) && Enabled(c, s, e)
    ensures var t, t' := TrackOf(s, id), TrackOf(Next(c, s, e), id);
            if e == GcStep(GcFree(id)) then !Collected(t) && Collected(t') else Collected(t) == Collected(t')
  {
    assert Fine(TrackOf(s, id));
    match e
    case Tick(t) => if id in s.jobs { TickKeepsJob(s, t, id); }
    case Go(g, out) =>
      assert Fine(TrackOf(s, g));
      if g != id { GoFrame(c, s, g, out, id); }
    case Request(q, r) =>
      if q != id {
        RequestFrame(s, q, r, id);
      } else if r == StopWorkload {
        StopTrack(s, id);
        StoppedHeld(TrackOf(s, id));
      }
    case JobStep(q, j) => if q != id { JobFrame(c, s, q, j, id); } else { JobCollected(c, s, q, j); }
    case GcStep(g) => GcCollected(c, s, g, id);
    case Clock =>
  }

  lemma JobCollected(c: Config, s: Node, q: Id, j: JobAct)
    requires Fine(TrackOf(s, q)) && JobEnabled(c, s, q, j)
    ensures !Collected(TrackOf(s, q)) && !Collected(TrackOf(JobNext(c, s, q, j), q))
  {
  }

  lemma GcCollected(c: Config, s: Node, g: GcAct, id: Id)
    requires Fine(TrackOf(s, id)) && Tidy(s) && GcEnabled(s, g)
    ensures var t, t' := TrackOf(s, id), TrackOf(GcNext(c, s, g), id);
            if g == GcFree(id) then !Collected(t) && Collected(t') else Collected(t) == Collected(t')
  {
    if (g.GcVisit? || g.GcFree?) && g.id != id {
      GcFrame(c, s, g, id);
    }
  }

  /** In every run the collector frees a job's port at most once, and only when the job has finished
      and its status is gone. */
  lemma {:induction false} FreedOnce(c: Config, es: seq<Event>, id: Id)
    requires Run(c, es).Some?
    ensures Frees(es, id) == if Collected(TrackOf(Run(c, es).value, id)) then 1 else 0
  {
    if es != [] {
      var s := LastStep(c, es);
      FreedOnce(c, es[..|es| - 1], id);
      RunInv(c, es[..|es| - 1]);
      FreeStep(c, s, es[|es| - 1], id);
    }
  }

  // ---- Files and pods ----

  /** The job started after the latest collection pass took its view. */
  ghost predicate StartedSinceView(es: seq<Event>, id: Id) {
    exists i | 0 <= i < |es| ::
      es[i] == JobStep(id, Start) && forall k | i < k < |es| :: es[k] != GcStep(GcView)
  }

  lemma StartedSinceStep(es: seq<Event>, e: Event, id: Id)
    ensures StartedSinceView(es + [e], id) <==>
            e == JobStep(id, Start) || (StartedSinceView(es, id) && e != GcStep(GcView))
  {
    var all := es + [e];
    if StartedSinceView(all, id) && e != JobStep(id, Start) {
      var i :| 0 <= i < |all| && all[i] == JobStep(id, Start) && forall k | i < k < |all| :: all[k] != GcStep(GcView);
      assert all[|es|] == e && es[i] == JobStep(id, Start);
      assert forall k | i < k < |es| :: es[k] == all[k];
    }
    if e == JobStep(id, Start) {
      assert all[|es|] == e;
    } else if StartedSinceView(es, id) && e != GcStep(GcView) {
      var i :| 0 <= i < |es| && es[i] == JobStep(id, Start) && forall k | i < k < |es| :: es[k] != GcStep(GcView);
      assert all[i] == es[i] && forall k | i < k < |es| :: all[k] == es[k];
    }
  }

  lemma SinceStep(c: Config, s: Node, e: Event, id: Id)
    requires Enabled(c, s, e)
    ensures id in Next(c, s, e).gc.since <==> e == JobStep(id, Start) || (id in s.gc.since && e != GcStep(GcView))
  {
    match e
    case Tick(t) => TickLeaves(s, t);
    case Request(q, r) => RequestLeaves(s, q, r);
    case JobStep(q, j) => JobLeaves(c, s, q, j);
    case GcStep(g) => GcLeaves(c, s, g);
    case _ =>
  }

  lemma {:induction false} SinceMeans(c: Config, es: seq<Event>, id: Id)
    requires Run(c, es).Some?
    ensures id in Run(c, es).value.gc.since <==> StartedSinceView(es, id)
  {
    if es != [] {
      var before, e := es[..|es| - 1], es[|es| - 1];
      var s := LastStep(c, es);
      SinceMeans(c, before, id);
      SinceStep(c, s, e, id);
      assert es == before + [e];
      StartedSinceStep(before, e, id);
    }
  }

  /** When the latest pass listed the pods, the job's had been run. */
  predicate PodAtList(es: seq<Event>, id: Id) {
    es != [] &&
    var before, e := es[..|es| - 1], es[|es| - 1];
    if e == GcStep(GcList) then JobStep(id, RunPod) in before else PodAtList(before, id)
  }

  /** No pod was run for the id so far. */
  predicate Unhosted(s: Node, id: Id) {
    id in s.jobs ==> s.jobs[id].pc != Hosting && s.jobs[id].pc != Finished
  }

  /** How a step may change the pod of an id and the list of the pass. */
  predicate PodMove(s: Node, s': Node, e: Event, id: Id) {
    && (id in s'.pods ==> id in s.pods || e == JobStep(id, RunPod))
    && (s'.gc.sweep.Cleaning? ==>
          if e == GcStep(GcList) then s'.gc.sweep.listed == s.pods
          else s.gc.sweep.Cleaning? && s'.gc.sweep.listed == s.gc.sweep.listed)
    && (Unhosted(s', id) ==> Unhosted(s, id) && e != JobStep(id, RunPod))
    && (e == JobStep(id, RunPod) ==> Unhosted(s, id))
  }

  lemma TickPods(s: Node, t: TickAct)
    requires TickEnabled(s, t)
    ensures TickNext(s, t).pods == s.pods && TickNext(s, t).jobs == s.jobs && TickNext(s, t).gc == s.gc
  {
  }

  lemma RequestPods(s: Node, q: Id, r: RequestAct, id: Id)
    requires RequestEnabled(s, q, r)
    ensures PodMove(s, RequestNext(s, q, r), Request(q, r), id)
  {
  }

  lemma JobPods(c: Config, s: Node, q: Id, j: JobAct, id: Id)
    requires JobEnabled(c, s, q, j)
    ensures PodMove(s, JobNext(c, s, q, j), JobStep(q, j), id)
  {
  }

  lemma GcPods(c: Config, s: Node, g: GcAct, id: Id)
    requires GcEnabled(s, g)
    ensures PodMove(s, GcNext(c, s, g), GcStep(g), id)
  {
  }

  lemma PodStep(c: Config, s: Node, e: Event, id: Id)
    requires Enabled(c, s, e)
    ensures PodMove(s, Next(c, s, e), e, id)
  {
    match e
    case Tick(t) => TickPods(s, t);
    case Request(q, r) => RequestPods(s, q, r, id);
    case JobStep(q, j) => JobPods(c, s, q, j, id);
    case GcStep(g) => GcPods(c, s, g, id);
    case _ =>
  }

  lemma {:induction false} PodAtListRan(es: seq<Event>, id: Id)
    requires PodAtList(es, id)
    ensures JobStep(id, RunPod) in es
  {
    if es[|es| - 1] != GcStep(GcList) {
      PodAtListRan(es[..|es| - 1], id);
    }
  }

  /** A pod that is there is on the list of the pass exactly when it had been run by then. */
  lemma {:induction false} ListedMeans(c: Config, es: seq<Event>, id: Id)
    requires Run(c, es).Some?
    ensures var s := Run(c, es).value;
            && (id in s.pods ==> JobStep(id, RunPod) in es)
            && (Unhosted(s, id) ==> JobStep(id, RunPod) !in es)
            && (s.gc.sweep.Cleaning? && id in s.gc.sweep.listed ==> PodAtList(es, id))
            && (s.gc.sweep.Cleaning? && id in s.pods && PodAtList(es, id) ==> id in s.gc.sweep.listed)
  {
    if es != [] {
      var before, e := es[..|es| - 1], es[|es| - 1];
      var s := LastStep(c, es);
      ListedMeans(c, before, id);
      PodStep(c, s, e, id);
      assert es == before + [e];
      if PodAtList(before, id) {
        PodAtListRan(before, id);
      }
    }
  }

  /** Once nothing is left to visit, a job at work is either kept or started since. */
  lemma KeptOrRecent(t: Track)
    requires Fine(t) && t.job.Some? && AtWork(t.job.value) && t.sweeping && t.visit.Clear?
    ensures t.kept <==> !t.recent
  {
  }

  /** A pass that is removing pods takes the pod of an unfinished job if and only if the job started after
      the pass took its view and its pod was there when the pass listed them: every job it saw running it
      keeps, and a pod run later it does not know. */
  lemma RemovesRunningIff(c: Config, es: seq<Event>, id: Id)
    requires Run(c, es).Some?
    requires var s := Run(c, es).value; s.gc.sweep.Cleaning? && id in s.pods && id in s.jobs && s.jobs[id].pc != Finished
    ensures GcEnabled(Run(c, es).value, GcRemove(id)) <==> StartedSinceView(es, id) && PodAtList(es, id)
  {
    RunInv(c, es);
    var s := Run(c, es).value;
    SinceMeans(c, es, id);
    ListedMeans(c, es, id);
    KeptOrRecent(TrackOf(s, id));
  }

  // ---- Terminal workload statuses ----

  predicate TerminalReport(r: Report) {
    r.state == DELETED || r.state == CREATION_FAILED
  }

  /** A stop request for `id` was handled in this tick after its report item was built. */
  ghost predicate StoppedSinceBuilt(es: seq<Event>, id: Id) {
    exists i | 0 <= i < |es| ::
      es[i] == Request(id, StopWorkload) && forall k | i < k < |es| :: es[k] != Tick(View) && es[k] != Tick(Build(id))
  }

  lemma StoppedSinceStep(es: seq<Event>, e: Event, id: Id)
    ensures StoppedSinceBuilt(es + [e], id) <==>
            e == Request(id, StopWorkload) || (StoppedSinceBuilt(es, id) && e != Tick(View) && e != Tick(Build(id)))
  {
    var all := es + [e];
    if StoppedSinceBuilt(all, id) && e != Request(id, StopWorkload) {
      var i :| 0 <= i < |all| && all[i] == Request(id, StopWorkload)
               && forall k | i < k < |all| :: all[k] != Tick(View) && all[k] != Tick(Build(id));
      assert all[|es|] == e && es[i] == Request(id, StopWorkload);
      assert forall k | i < k < |es| :: es[k] == all[k];
    }
    if e == Request(id, StopWorkload) {
      assert all[|es|] == e;
    } else if StoppedSinceBuilt(es, id) && e != Tick(View) && e != Tick(Build(id)) {
      var i :| 0 <= i < |es| && es[i] == Request(id, StopWorkload)
               && forall k | i < k < |es| :: es[k] != Tick(View) && es[k] != Tick(Build(id));
      assert all[i] == es[i] && forall k | i < k < |es| :: all[k] == es[k];
    }
  }

  /** The ids a phase has noted as stopped too late for their report item. */
  function Noted(p: Phase): set<Id> {
    match p
    case Collecting(_, _, late) => late
    case Forgetting(_, _, tardy) => tardy
    case _ => {}
  }

  predicate Reporting(p: Phase) {
    p.Collecting? || p.Forgetting?
  }

  lemma NotedStep(c: Config, s: Node, e: Event, id: Id)
    requires Inv(s) && Enabled(c, s, e) && Reporting(Next(c, s, e).phase)
    ensures id in Noted(Next(c, s, e).phase) <==>
            e == Request(id, StopWorkload) || (id in Noted(s.phase) && e != Tick(View) && e != Tick(Build(id)))
    ensures Reporting(s.phase) || e == Tick(View)
  {
    match e
    case Tick(t) =>
      if t.Build? {
        BuildsWorkload(s, t.id);
      }
      TickNoted(s, t, id);
    case JobStep(q, j) => JobLeaves(c, s, q, j);
    case GcStep(g) => GcLeaves(c, s, g);
    case Request(q, r) => RequestNoted(s, q, r, id);
    case _ =>
  }

  lemma BuildsWorkload(s: Node, id: Id)
    requires Inv(s) && TickEnabled(s, Build(id))
    ensures IsWorkload(s, id)
  {
    assert Fine(TrackOf(s, id));
  }

  lemma TickNoted(s: Node, t: TickAct, id: Id)
    requires TickEnabled(s, t) && Reporting(TickNext(s, t).phase) && (t.Build? ==> IsWorkload(s, t.id))
    ensures id in Noted(TickNext(s, t).phase) <==> id in Noted(s.phase) && t != View && t != Build(id)
    ensures Reporting(s.phase) || t == View
  {
  }

  lemma RequestNoted(s: Node, q: Id, r: RequestAct, id: Id)
    requires RequestEnabled(s, q, r) && Reporting(RequestNext(s, q, r).phase)
    ensures id in Noted(RequestNext(s, q, r).phase) <==> (q == id && r == StopWorkload) || id in Noted(s.phase)
    ensures Reporting(s.phase)
  {
  }

  lemma {:induction false} NotedMeans(c: Config, es: seq<Event>, id: Id)
    requires Run(c, es).Some? && Reporting(Run(c, es).value.phase)
    ensures id in Noted(Run(c, es).value.phase) <==> StoppedSinceBuilt(es, id)
  {
    if es != [] {
      var before, e := es[..|es| - 1], es[|es| - 1];
      var s := LastStep(c, es);
      RunInv(c, before);
      NotedStep(c, s, e, id);
      assert es == before + [e];
      StoppedSinceStep(before, e, id);
      if e != Tick(View) {
        NotedMeans(c, before, id);
      }
    }
  }

  /** An entry the reconciler drops was reported terminal, and the control plane has applied that
      report, EXCEPT when a stop request for it was handled after its report item was built and the
      item said otherwise. In that case, and only then, the entry goes unreported. */
  lemma DroppedUnreportedIff(c: Config, es: seq<Event>, id: Id)
    requires Run(c, es).Some? && Enabled(c, Run(c, es).value, Tick(Forget(id)))
    ensures var s := Run(c, es).value;
            && id in s.phase.sent && IsWorkload(s, id)
            && var sent := s.phase.sent[id];
               && (!TerminalReport(sent) ==>
                     (id !in Next(c, s, Tick(Forget(id))).store <==> StoppedSinceBuilt(es, id)))
               && (sent.state == DELETED ==> id !in s.rows)
               && (id in s.rows ==> s.rows[id].state == sent.state || s.rows[id].state == DELETING)
  {
    RunInv(c, es);
    assert Fine(TrackOf(Run(c, es).value, id));
    NotedMeans(c, es, id);
  }
}
