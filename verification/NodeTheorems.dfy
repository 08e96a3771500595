/** What holds in every run of the node, for every schedule and every failure. */
module NodeTheorems {
  import opened Option
  import opened Status
  import opened NodeProtocol
  import opened NodeSafety

  // ---- The invariant over runs ----

  ghost predicate Inv(s: Node) {
    Tidy(s) && forall id: Id :: Fine(TrackOf(s, id))
  }

  /** A stop request for an id under which the store holds a checkpoint. */
  predicate StopsCheckpoint(s: Node, e: Event) {
    e.Request? && e.r == StopWorkload && IsCheckpoint(s, e.id)
  }

  /** A job's first write, under whose id the store holds a workload. */
  predicate StartsOnWorkload(s: Node, e: Event) {
    e.JobStep? && e.j == Start && IsWorkload(s, e.id)
  }

  lemma StepFine(c: Config, s: Node, e: Event, id: Id)
    requires Inv(s) && Enabled(c, s, e)
    ensures Fine(TrackOf(Next(c, s, e), id))
    ensures Next(c, s, e).crashed <==> StopsCheckpoint(s, e) || StartsOnWorkload(s, e)
  {
    match e
    case Tick(t) => TickFine(s, t, id);
    case Go(g, out) => GoFine(c, s, g, out, id);
    case Request(q, r) => RequestFine(s, q, r, id);
    case JobStep(q, j) => JobFine(c, s, q, j, id);
    case GcStep(g) => GcFine(c, s, g, id);
    case Clock => assert TrackOf(Next(c, s, e), id) == TrackOf(s, id);
  }

  lemma StepTidy(c: Config, s: Node, e: Event)
    requires Inv(s) && Enabled(c, s, e)
    ensures Tidy(Next(c, s, e))
  {
    match e
    case Tick(t) => TickFine(s, t, 0);
    case Go(g, out) =>
    case Request(q, r) => RequestTidy(s, q, r);
    case JobStep(q, j) => JobTidy(c, s, q, j);
    case GcStep(g) => GcFine(c, s, g, 0);
    case Clock =>
  }

  lemma RequestTidy(s: Node, q: Id, r: RequestAct)
    requires Tidy(s) && RequestEnabled(s, q, r)
    ensures Tidy(RequestNext(s, q, r))
  {
  }

  lemma JobTidy(c: Config, s: Node, q: Id, j: JobAct)
    requires Tidy(s) && JobEnabled(c, s, q, j)
    ensures Tidy(JobNext(c, s, q, j))
  {
  }

  lemma StepInv(c: Config, s: Node, e: Event)
    requires Inv(s) && Enabled(c, s, e)
    ensures Inv(Next(c, s, e))
    ensures Next(c, s, e).crashed <==> StopsCheckpoint(s, e) || StartsOnWorkload(s, e)
  {
    StepFine(c, s, e, 0);
    StepTidy(c, s, e);
    forall id: Id
      ensures Fine(TrackOf(Next(c, s, e), id))
    {
      StepFine(c, s, e, id);
    }
  }

  /** The state before the last event of a run. */
  lemma {:induction false} LastStep(c: Config, es: seq<Event>) returns (s: Node)
    requires es != [] && Run(c, es).Some?
    ensures Run(c, es[..|es| - 1]) == Some(s)
    ensures Enabled(c, s, es[|es| - 1]) && Run(c, es) == Some(Next(c, s, es[|es| - 1]))
  {
    s := Run(c, es[..|es| - 1]).value;
  }

  /** The invariant holds in every state of every run, also in the one a run crashes in. */
  lemma {:induction false} RunInv(c: Config, es: seq<Event>)
    requires Run(c, es).Some?
    ensures Inv(Run(c, es).value)
  {
    if es == [] {
      forall id: Id ensures Fine(TrackOf(Init(), id)) {
      }
    } else {
      var s := LastStep(c, es);
      RunInv(c, es[..|es| - 1]);
      StepInv(c, s, es[|es| - 1]);
    }
  }

  /** The node crashes in two ways only: a stop request names a checkpoint the store still has, or the
      first write of a checkpoint job meets the entry a stop request left. No view ever leads to a vanished
      entry, and no other update meets an entry of the wrong kind. */
  lemma CrashedIff(c: Config, es: seq<Event>)
    requires Run(c, es).Some?
    ensures Run(c, es).value.crashed <==>
            && es != [] && Run(c, es[..|es| - 1]).Some?
            && var s, e := Run(c, es[..|es| - 1]).value, es[|es| - 1];
               StopsCheckpoint(s, e) || StartsOnWorkload(s, e)
  {
    if es != [] {
      var s := LastStep(c, es);
      RunInv(c, es[..|es| - 1]);
      StepInv(c, s, es[|es| - 1]);
    }
  }

  /** Since the id was handed out it was stopped, and the reconciler has not forgotten that yet. */
  predicate StopStands(es: seq<Event>, id: Id) {
    es != [] &&
    var before, e := es[..|es| - 1], es[|es| - 1];
    e == Request(id, StopWorkload) ||
    (e != Tick(Forget(id)) && e != JobStep(id, Issue) && StopStands(before, id))
  }

  predicate IsIssued(s: Node, id: Id) {
    id in s.jobs && s.jobs[id].pc == Issued
  }

  lemma StandsStep(c: Config, s: Node, e: Event, id: Id)
    requires Inv(s) && Enabled(c, s, e) && IsIssued(Next(c, s, e), id)
    ensures e == JobStep(id, Issue) || IsIssued(s, id)
    ensures id in Next(c, s, e).store <==>
            e == Request(id, StopWorkload) || (id in s.store && e != Tick(Forget(id)) && e != JobStep(id, Issue))
  {
    assert Fine(TrackOf(s, id));
    match e
    case Tick(t) => TickStands(s, t, id);
    case Go(g, out) =>
      assert Fine(TrackOf(s, g));
      GoFrame(c, s, g, out, id);
    case Request(q, r) => if q != id { RequestFrame(s, q, r, id); }
    case JobStep(q, j) => if q != id { JobFrame(c, s, q, j, id); } else { JobStands(c, s, id, j); }
    case GcStep(g) => GcStands(c, s, g, id);
    case Clock =>
  }

  lemma TickStands(s: Node, t: TickAct, id: Id)
    requires TickEnabled(s, t) && Fine(TrackOf(s, id)) && IsIssued(TickNext(s, t), id)
    ensures IsIssued(s, id)
    ensures id in TickNext(s, t).store <==> id in s.store && t != Forget(id)
  {
  }

  lemma JobStands(c: Config, s: Node, id: Id, j: JobAct)
    requires JobEnabled(c, s, id, j) && Fine(TrackOf(s, id)) && IsIssued(JobNext(c, s, id, j), id)
    ensures j == Issue || IsIssued(s, id)
    ensures id in JobNext(c, s, id, j).store <==> id in s.store && j != Issue
  {
  }

  lemma GcStands(c: Config, s: Node, g: GcAct, id: Id)
    requires GcEnabled(s, g) && Fine(TrackOf(s, id)) && IsIssued(GcNext(c, s, g), id)
    ensures IsIssued(s, id) && (id in GcNext(c, s, g).store <==> id in s.store)
  {
    if (g.GcVisit? || g.GcFree?) && g.id != id {
      GcFrame(c, s, g, id);
    }
  }

  /** Under an id that is handed out and not yet written there is an entry exactly when a stop stands. */
  lemma {:induction false} StandsMeans(c: Config, es: seq<Event>, id: Id)
    requires Run(c, es).Some? && IsIssued(Run(c, es).value, id)
    ensures id in Run(c, es).value.store <==> StopStands(es, id)
  {
    if es != [] {
      var before, e := es[..|es| - 1], es[|es| - 1];
      var s := LastStep(c, es);
      RunInv(c, before);
      StandsStep(c, s, e, id);
      if e != JobStep(id, Issue) {
        StandsMeans(c, before, id);
      }
    }
  }

  /** The event after `es` stops a checkpoint, or starts one that was stopped before. */
  ghost predicate Clashes(c: Config, es: seq<Event>, e: Event) {
    && Run(c, es).Some?
    && (|| StopsCheckpoint(Run(c, es).value, e)
        || (e.JobStep? && e.j == Start && StopStands(es, e.id)))
  }

  ghost predicate Clashed(c: Config, es: seq<Event>) {
    exists i | 0 <= i < |es| :: Clashes(c, es[..i], es[i])
  }

  lemma ClashIff(c: Config, es: seq<Event>, e: Event)
    requires Run(c, es).Some? && Enabled(c, Run(c, es).value, e)
    ensures Next(c, Run(c, es).value, e).crashed <==> Clashes(c, es, e)
  {
    RunInv(c, es);
    var s := Run(c, es).value;
    StepInv(c, s, e);
    if e.JobStep? && e.j == Start {
      StandsMeans(c, es, e.id);
      assert Fine(TrackOf(s, e.id));
    }
  }

  /** Over whole runs: crashed if and only if some stop request, at its time, named a checkpoint in the
      store, or some job wrote its first status while a stop request for its id stood. */
  lemma {:induction false} CrashedIffClashed(c: Config, es: seq<Event>)
    requires Run(c, es).Some?
    ensures Run(c, es).value.crashed <==> Clashed(c, es)
  {
    if es != [] {
      var n := |es| - 1;
      var s := LastStep(c, es);
      CrashedIffClashed(c, es[..n]);
      ClashIff(c, es[..n], es[n]);
      forall i | 0 <= i < n
        ensures es[..n][..i] == es[..i] && es[..n][i] == es[i]
      {
      }
    }
  }

  // ---- Attempts and successful runs ----

  predicate FailedAttempt(e: Event, id: Id) {
    e == Go(id, NoPort) || e == Go(id, RunFailed)
  }

  function FailedAttempts(es: seq<Event>, id: Id): nat {
    if es == [] then 0
    else FailedAttempts(es[..|es| - 1], id) + if FailedAttempt(es[|es| - 1], id) then 1 else 0
  }

  function SuccessfulRuns(es: seq<Event>, id: Id): nat {
    if es == [] then 0
    else SuccessfulRuns(es[..|es| - 1], id) + if es[|es| - 1] == Go(id, RunOk) then 1 else 0
  }

  /** Failures an id's counters stand for: one more than recorded while one is being undone. */
  function Failures(t: Track): nat {
    t.attempts + if t.stage.At? && (t.stage.pc.Undo? || t.stage.pc.TearDown?) then 1 else 0
  }

  /** `ran` and the failure count before and after a step that is, or is not, a goroutine's. */
  predicate Counts(t: Track, t': Track, failed: bool, ranOk: bool) {
    && Failures(t') == Failures(t) + (if failed then 1 else 0)
    && (if ranOk then t.ran.None? && t'.ran.Some? else t'.ran == t.ran)
  }

  lemma AdvanceCounts(c: Config, taken: set<Port>, t: Track, l: Local, out: Outcome)
    requires t == WithLocal(t, l) && Fine(t) && Possible(c, taken, l.pc, out)
    ensures Counts(t, WithLocal(t, Advance(l, out)), out == NoPort || out == RunFailed, out == RunOk)
  {
  }

  lemma TickCounts(s: Node, t: TickAct, id: Id)
    requires TickEnabled(s, t)
    ensures Counts(TrackOf(s, id), TrackOf(TickNext(s, t), id), false, false)
  {
  }

  lemma RequestCounts(s: Node, q: Id, r: RequestAct, id: Id)
    requires RequestEnabled(s, q, r)
    ensures Counts(TrackOf(s, id), TrackOf(RequestNext(s, q, r), id), false, false)
  {
  }

  lemma JobCounts(c: Config, s: Node, q: Id, j: JobAct, id: Id)
    requires JobEnabled(c, s, q, j)
    ensures Counts(TrackOf(s, id), TrackOf(JobNext(c, s, q, j), id), false, false)
  {
  }

  lemma GcCounts(c: Config, s: Node, g: GcAct, id: Id)
    requires GcEnabled(s, g)
    ensures Counts(TrackOf(s, id), TrackOf(GcNext(c, s, g), id), false, false)
  {
  }

  lemma GoCounts(c: Config, s: Node, g: Id, out: Outcome, id: Id)
    requires Enabled(c, s, Go(g, out)) && Fine(TrackOf(s, g))
    ensures Counts(TrackOf(s, id), TrackOf(Next(c, s, Go(g, out)), id),
                   g == id && (out == NoPort || out == RunFailed), g == id && out == RunOk)
  {
    if g == id {
      AdvanceCounts(c, s.taken, TrackOf(s, g), LocalOf(s, g, s.phase.pcs[g]), out);
      GoTrack(c, s, g, out);
    } else {
      GoFrame(c, s, g, out, id);
    }
  }

  lemma CountStep(c: Config, s: Node, e: Event, id: Id)
    requires Inv(s) && Enabled(c, s, e)
    ensures Counts(TrackOf(s, id), TrackOf(Next(c, s, e), id), FailedAttempt(e, id), e == Go(id, RunOk))
  {
    match e
    case Tick(t) => TickCounts(s, t, id);
    case Go(g, out) => assert Fine(TrackOf(s, g)); GoCounts(c, s, g, out, id);
    case Request(q, r) => RequestCounts(s, q, r, id);
    case JobStep(q, j) => JobCounts(c, s, q, j, id);
    case GcStep(g) => GcCounts(c, s, g, id);
    case Clock =>
  }

  /** In every run each instance has at most five failed creation attempts and at most one
      successful RunWorkload. */
  lemma {:induction false} AtMostOneRun(c: Config, es: seq<Event>, id: Id)
    requires Run(c, es).Some?
    ensures var t := TrackOf(Run(c, es).value, id);
            && FailedAttempts(es, id) == Failures(t) <= MAX_ATTEMPTS
            && SuccessfulRuns(es, id) == if t.ran.Some? then 1 else 0
  {
    RunInv(c, es);
    assert Fine(TrackOf(Run(c, es).value, id));
    if es != [] {
      var s := LastStep(c, es);
      AtMostOneRun(c, es[..|es| - 1], id);
      RunInv(c, es[..|es| - 1]);
      CountStep(c, s, es[|es| - 1], id);
    }
  }

  // ---- Ports ----

  /** The port an id holds: a workload from drawing it until the attempt fails, and for ever once it
      ran; a checkpoint job from drawing it until the collector freed it. */
  function Held(t: Track): Option<Port> {
    match t.job
    case Some(j) => if Collected(t) then None else j.port
    case None =>
      if t.stage.At? && (t.stage.pc.SavePort? || t.stage.pc.Launch? || t.stage.pc.Undo?) then
        Some(t.stage.pc.port)
      else
        t.ran
  }

  /** A job whose status is gone and whose port the collector is done with. */
  predicate Collected(t: Track) {
    t.job.Some? && t.job.value.pc == Finished && !HasCheckpoint(t) && !t.visit.ToFree?
  }

  ghost predicate Exclusive(c: Config, s: Node) {
    && (forall id: Id :: Held(TrackOf(s, id)).Some? ==>
          Held(TrackOf(s, id)).value in s.taken && c.portMin <= Held(TrackOf(s, id)).value)
    && (forall i: Id, j: Id :: i != j && Held(TrackOf(s, i)).Some? ==> Held(TrackOf(s, i)) != Held(TrackOf(s, j)))
  }

  /** How a step that changes one id's holding, or frees nothing anyone holds, changes the allocator. */
  predicate PortMove(c: Config, before: Option<Port>, after: Option<Port>, taken: set<Port>, taken': set<Port>) {
    || (after == before && (taken' == taken || taken' == taken - {NO_PORT}))
    || (before.None? && after.Some? && c.portMin <= after.value && after.value !in taken && taken' == taken + {after.value})
    || (before.Some? && after.None? && taken' == taken - {before.value})
  }

  lemma AdvancePorts(c: Config, taken: set<Port>, t: Track, l: Local, out: Outcome)
    requires t == WithLocal(t, l) && Fine(t) && t.job.None? && Possible(c, taken, l.pc, out)
    requires l.takes == l.gives == {}
    ensures var l' := Advance(l, out);
            PortMove(c, Held(t), Held(WithLocal(t, l')), taken, taken + l'.takes - l'.gives)
  {
  }

  lemma GoPorts(c: Config, s: Node, g: Id, out: Outcome)
    requires Enabled(c, s, Go(g, out)) && Fine(TrackOf(s, g))
    ensures var s' := Next(c, s, Go(g, out));
            PortMove(c, Held(TrackOf(s, g)), Held(TrackOf(s', g)), s.taken, s'.taken)
  {
    AdvancePorts(c, s.taken, TrackOf(s, g), LocalOf(s, g, s.phase.pcs[g]), out);
    GoTrack(c, s, g, out);
  }

  lemma JobHolds(c: Config, s: Node, q: Id, j: JobAct)
    requires Fine(TrackOf(s, q)) && JobEnabled(c, s, q, j) && !j.Draw?
    ensures Held(TrackOf(JobNext(c, s, q, j), q)) == Held(TrackOf(s, q)) && JobNext(c, s, q, j).taken == s.taken
  {
  }

  lemma JobPorts(c: Config, s: Node, q: Id, j: JobAct)
    requires Fine(TrackOf(s, q)) && JobEnabled(c, s, q, j)
    ensures PortMove(c, Held(TrackOf(s, q)), Held(TrackOf(JobNext(c, s, q, j), q)), s.taken, JobNext(c, s, q, j).taken)
  {
    if !j.Draw? {
      JobHolds(c, s, q, j);
    }
  }

  lemma GcPorts(c: Config, s: Node, g: GcAct, id: Id)
    requires Fine(TrackOf(s, id)) && Tidy(s) && GcEnabled(s, g)
    requires g.GcVisit? || g.GcFree? ==> id == g.id
    ensures PortMove(c, Held(TrackOf(s, id)), Held(TrackOf(GcNext(c, s, g), id)), s.taken, GcNext(c, s, g).taken)
  {
  }

  lemma TickTaken(s: Node, t: TickAct)
    requires TickEnabled(s, t)
    ensures TickNext(s, t).taken == s.taken
  {
  }

  lemma TickPorts(s: Node, t: TickAct, id: Id)
    requires TickEnabled(s, t) && Fine(TrackOf(s, id))
    ensures Held(TrackOf(TickNext(s, t), id)) == Held(TrackOf(s, id)) && TickNext(s, t).taken == s.taken
  {
    TickTaken(s, t);
    if id in s.jobs {
      TickKeepsJob(s, t, id);
    } else if !(t.Build? || t.Forget?) {
      PhasePorts(s, t, id);
    } else if t.id != id {
      TickFrame(s, t, id);
    }
  }

  lemma PhasePorts(s: Node, t: TickAct, id: Id)
    requires TickEnabled(s, t) && !t.Build? && !t.Forget? && Fine(TrackOf(s, id)) && id !in s.jobs
    ensures Held(TrackOf(TickNext(s, t), id)) == Held(TrackOf(s, id))
  {
  }

  lemma TickKeepsJob(s: Node, t: TickAct, id: Id)
    requires TickEnabled(s, t) && Fine(TrackOf(s, id)) && id in s.jobs
    ensures var s' := TickNext(s, t);
            && s'.jobs == s.jobs && s'.gc == s.gc
            && (IsCheckpoint(s, id) <==> IsCheckpoint(s', id))
            && (IsCheckpoint(s, id) ==> s'.store[id] == s.store[id])
  {
    if t.Forget? {
      ForgetKeepsJob(s, t.id, id);
    }
  }

  lemma ForgetKeepsJob(s: Node, f: Id, id: Id)
    requires TickEnabled(s, Forget(f)) && Fine(TrackOf(s, id)) && id in s.jobs
    ensures var s' := TickNext(s, Forget(f));
            && s'.jobs == s.jobs && s'.gc == s.gc
            && (IsCheckpoint(s, id) <==> IsCheckpoint(s', id))
            && (IsCheckpoint(s, id) ==> s'.store[id] == s.store[id])
  {
  }

  lemma StopPorts(s: Node, id: Id)
    requires Fine(TrackOf(s, id))
    ensures Held(TrackOf(RequestNext(s, id, StopWorkload), id)) == Held(TrackOf(s, id))
  {
    StopTrack(s, id);
    StoppedHeld(TrackOf(s, id));
  }

  lemma StoppedHeld(t: Track)
    requires Fine(t)
    ensures Held(Stopped(t)) == Held(t) && Collected(Stopped(t)) == Collected(t)
  {
  }

  lemma RequestPorts(s: Node, q: Id, r: RequestAct, id: Id)
    requires RequestEnabled(s, q, r) && Fine(TrackOf(s, id))
    ensures Held(TrackOf(RequestNext(s, q, r), id)) == Held(TrackOf(s, id)) && RequestNext(s, q, r).taken == s.taken
  {
    if q != id {
      RequestFrame(s, q, r, id);
    } else if r == StopWorkload {
      StopPorts(s, id);
    }
  }

  /** The id whose holding a step may change; for steps that change nobody's, any id does. */
  function Mover(e: Event): Id {
    match e
    case Go(id, _) => id
    case JobStep(id, _) => id
    case GcStep(GcVisit(id)) => id
    case GcStep(GcFree(id)) => id
    case _ => 0
  }

  lemma MoveOne(c: Config, s: Node, e: Event)
    requires Inv(s) && Enabled(c, s, e)
    ensures var m := Mover(e);
            PortMove(c, Held(TrackOf(s, m)), Held(TrackOf(Next(c, s, e), m)), s.taken, Next(c, s, e).taken)
  {
    var m := Mover(e);
    assert Fine(TrackOf(s, m));
    match e
    case Tick(t) => TickPorts(s, t, m);
    case Go(g, out) => GoPorts(c, s, g, out);
    case JobStep(q, j) => JobPorts(c, s, q, j);
    case GcStep(g) => GcPorts(c, s, g, m);
    case Request(q, r) => RequestPorts(s, q, r, m);
    case Clock =>
  }

  lemma OthersKeep(c: Config, s: Node, e: Event, id: Id)
    requires Inv(s) && Enabled(c, s, e) && id != Mover(e)
    ensures Held(TrackOf(Next(c, s, e), id)) == Held(TrackOf(s, id))
  {
    assert Fine(TrackOf(s, id));
    match e
    case Tick(t) => TickPorts(s, t, id);
    case Go(g, out) => GoFrame(c, s, g, out, id);
    case JobStep(q, j) => JobFrame(c, s, q, j, id);
    case GcStep(g) => GcKeeps(c, s, g, id);
    case Request(q, r) => RequestPorts(s, q, r, id);
    case Clock =>
  }

  lemma GcKeeps(c: Config, s: Node, g: GcAct, id: Id)
    requires Fine(TrackOf(s, id)) && GcEnabled(s, g)
    requires g.GcVisit? || g.GcFree? ==> id != g.id
    ensures Held(TrackOf(GcNext(c, s, g), id)) == Held(TrackOf(s, id))
  {
    if g.GcVisit? || g.GcFree? {
      GcFrame(c, s, g, id);
    }
  }

  lemma ExclusiveStep(c: Config, s: Node, e: Event)
    requires 0 < c.portMin && Inv(s) && Exclusive(c, s) && Enabled(c, s, e)
    ensures Exclusive(c, Next(c, s, e))
  {
    var s', m := Next(c, s, e), Mover(e);
    MoveOne(c, s, e);
    forall id: Id | id != m
      ensures Held(TrackOf(s', id)) == Held(TrackOf(s, id))
    {
      OthersKeep(c, s, e, id);
    }
    ExclusiveAfter(c, s, s', m);
  }

  lemma ExclusiveAfter(c: Config, s: Node, s': Node, m: Id)
    requires 0 < c.portMin && Exclusive(c, s)
    requires PortMove(c, Held(TrackOf(s, m)), Held(TrackOf(s', m)), s.taken, s'.taken)
    requires forall id: Id | id != m :: Held(TrackOf(s', id)) == Held(TrackOf(s, id))
    ensures Exclusive(c, s')
  {
  }

  /** With a positive lower port bound: in every reachable state the running workloads, the creation
      attempts in flight and the checkpoints not yet collected hold pairwise distinct allocated ports. */
  lemma {:induction false} PortsExclusive(c: Config, es: seq<Event>)
    requires 0 < c.portMin && Run(c, es).Some?
    ensures Exclusive(c, Run(c, es).value)
  {
    if es != [] {
      var s := LastStep(c, es);
      PortsExclusive(c, es[..|es| - 1]);
      RunInv(c, es[..|es| - 1]);
      ExclusiveStep(c, s, es[|es| - 1]);
    }
  }
}
