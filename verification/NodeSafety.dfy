/** Safety of the node over every run of `NodeProtocol`.

    Everything the node knows about one id is collected in a `Track`. The invariant `Fine` is about
    one track; a step moves the track of the id it is about and leaves the others as they are. */
module NodeSafety {
  import opened Option
  import opened Status
  import opened NodeProtocol

  /** Where an id stands in the current tick. */
  datatype Stage =
    | Outside
    | At(pc: Pc)
    | Queued                             // in the view, not yet read
    | Built(item: Report, late: bool)    // read into the report
    | Reported(sent: Report, tardy: bool) // report acknowledged, about to be dropped if terminal

  /** Where an id stands in the current garbage collection. */
  datatype Visit = Clear | ToVisit | ToFree(port: Port)

  datatype Track = Track(
    entry: Option<Status>, attempts: nat, row: Option<Row>, born: bool, job: Option<Job>,
    ran: Option<Port>, stage: Stage, visit: Visit, sweeping: bool, kept: bool, recent: bool)

  function StageOf(p: Phase, id: Id): Stage {
    match p
    case Idle => Outside
    case Reconciling(pcs) => if id in pcs then At(pcs[id]) else Outside
    case Collecting(todo, items, late) =>
      if id in todo then Queued else if id in items then Built(items[id], id in late) else Outside
    case Forgetting(left, sent, tardy) =>
      if id in left && id in sent then Reported(sent[id], id in tardy) else Outside
  }

  function VisitOf(g: Sweep, id: Id): Visit {
    match g
    case Sweeping(visit) => if id in visit then ToVisit else Clear
    case Freeing(f, port, rest) => if id == f then ToFree(port) else if id in rest then ToVisit else Clear
    case _ => Clear
  }

  function TrackOf(s: Node, id: Id): Track {
    Track(Lookup(s.store, id), Attempts(s, id), Lookup(s.rows, id), id in s.born, Lookup(s.jobs, id),
          Lookup(s.ran, id), StageOf(s.phase, id), VisitOf(s.gc.sweep, id),
          !s.gc.sweep.Resting?, id in s.gc.keep, id in s.gc.since)
  }

  // ---- The invariant of one id ----

  /** Between recording Creating and the end of the attempt. */
  predicate InAttempt(pc: Pc) {
    pc.Allocate? || pc.SavePort? || pc.Launch? || pc.Undo? || pc.TearDown? || pc.Confirm?
  }

  /** Inside an attempt whose RunWorkload has not succeeded. */
  predicate Unlaunched(pc: Pc) {
    pc.Mark? || (InAttempt(pc) && !pc.Confirm?)
  }

  function SavedPort(j: Job): Port {
    if (j.pc == Working || j.pc == Hosting || j.pc == Finished) && j.port.Some? then j.port.value else NO_PORT
  }

  /** Between its first and its last write. */
  predicate AtWork(j: Job) {
    j.pc != Issued && j.pc != Finished
  }

  /** The entry of an id that is no checkpoint job is a workload entry with a state. */
  predicate WorkloadEntry(t: Track) {
    && t.visit.Clear? && !t.kept
    && (t.entry.Some? ==>
          && t.entry.value.checkpoint.None?
          && t.entry.value.workload.Some?
          && t.entry.value.workload.value.state != Unset)
    && (t.row.Some? ==> t.born)
    && (t.stage.At? ==> t.born && (InAttempt(t.stage.pc) ==> t.entry.Some?))
    && (t.stage.Queued? || t.stage.Built? || t.stage.Reported? ==> t.entry.Some?)
  }

  predicate HasCheckpoint(t: Track) {
    t.entry.Some? && t.entry.value.checkpoint.Some?
  }

  /** What is under the id of a checkpoint before its first write and after it was collected: nothing, or
      the entry a stop request for it put there, on its way out. */
  predicate Leftover(t: Track) {
    && (t.entry.Some? ==> t.entry.value.workload.Some? && t.entry.value.workload.value.state == Deleted)
    && !t.stage.At?
    && (t.stage.Queued? || t.stage.Built? || t.stage.Reported? ==> t.entry.Some?)
    && (t.stage.Built? ==> t.stage.item.state == DELETED)
    && (t.stage.Reported? ==> t.stage.sent.state == DELETED)
  }

  /** The entry of a checkpoint job mirrors the job and outlives it; a pass that saw the job
      running keeps it, and knows nothing of jobs that started since. */
  predicate CheckpointEntry(t: Track)
    requires t.job.Some?
  {
    var j := t.job.value;
    && !t.born && t.row.None? && t.ran.None?
    && (j.pc == Issued || j.pc == Pulling ==> j.port.None?)
    && (j.pc == Saving || j.pc == Working || j.pc == Hosting ==> j.port.Some?)
    && (j.pc == Issued ==> !HasCheckpoint(t) && t.visit.Clear? && !t.kept)
    && (AtWork(j) ==> HasCheckpoint(t))
    && (HasCheckpoint(t) ==>
          && t.stage.Outside?
          && t.entry.value.workload.None?
          && var ck := t.entry.value.checkpoint.value;
             && (ck.completedAt.Some? <==> j.pc == Finished)
             && (ck.state == InProgress <==> j.pc != Finished)
             && (AtWork(j) ==> ck.message == "")
             && ck.port == SavedPort(j))
    && (!HasCheckpoint(t) ==> Leftover(t))
    && (t.visit.ToVisit? ==> HasCheckpoint(t))
    && (t.visit.ToFree? ==> !HasCheckpoint(t) && t.visit.port == SavedPort(j))
    && (t.sweeping && AtWork(j) ==> t.recent || t.kept || t.visit.ToVisit?)
    && (t.recent ==> !t.kept && !t.visit.ToVisit?)
  }

  /** The row is gone or in a state that never leads to a creation attempt. */
  predicate RowSafe(t: Track) {
    t.row.None? || (t.row.value.state != PENDING && t.row.value.state != CREATING)
  }

  /** A workload that ran once is not run again: its entry prevents it, or else its row does. */
  predicate RunsOnce(t: Track)
    requires WorkloadEntry(t)
  {
    && t.attempts <= MAX_ATTEMPTS
    && (t.stage.At? && Unlaunched(t.stage.pc) ==> t.attempts < MAX_ATTEMPTS && t.ran.None?)
    && (t.stage.At? && t.stage.pc.Confirm? ==> t.ran == Some(t.stage.pc.port))
    && (t.ran.Some? ==>
          && t.born
          && t.attempts < MAX_ATTEMPTS
          && (if t.entry.Some? then
                || (t.stage.At? && t.stage.pc.Confirm?)
                || t.entry.value.workload.value.state == Running
                || t.entry.value.workload.value.state == Deleted
              else
                RowSafe(t))
          && (t.stage == At(Todo(PENDING)) || t.stage == At(Todo(CREATING)) ==> t.entry.Some?)
          && (t.stage.Built? ==> t.stage.item.state == RUNNING || t.stage.item.state == DELETED)
          && (t.stage.Reported? ==> RowSafe(t)))
  }

  /** The live state is the reported one, unless a stop request came in between; an acknowledged
      report is in the row, unless the row was since marked for deletion. */
  predicate InStep(t: Track)
    requires WorkloadEntry(t)
  {
    && (t.stage.Built? ==>
          var live := t.entry.value.workload.value.state;
          if t.stage.late then live == Deleted else ToInstanceState(live) == t.stage.item.state)
    && (t.stage.Reported? ==>
          var live := t.entry.value.workload.value.state;
          && (if t.stage.tardy then live == Deleted else ToInstanceState(live) == t.stage.sent.state)
          && (t.row.Some? ==>
                && t.stage.sent.state != DELETED
                && (t.row.value.state == t.stage.sent.state || t.row.value.state == DELETING)))
  }

  predicate Fine(t: Track) {
    if t.job.Some? then CheckpointEntry(t) else WorkloadEntry(t) && RunsOnce(t) && InStep(t)
  }

  /** The two facts about the loops that no single track shows. */
  predicate Tidy(s: Node) {
    && (s.phase.Forgetting? ==> s.phase.left <= s.phase.sent.Keys)
    && (s.gc.sweep.Freeing? ==> s.gc.sweep.id !in s.gc.sweep.rest)
  }

  // ---- Preservation, one id at a time ----

  function WithLocal(t: Track, l: Local): Track {
    t.(entry := l.entry, attempts := l.attempts, ran := l.ran, stage := At(l.pc))
  }

  /** A goroutine step keeps its own track fine and never panics. */
  lemma AdvanceFine(t: Track, l: Local, out: Outcome)
    requires t == WithLocal(t, l) && !l.panics
    requires Fine(t)
    ensures !Advance(l, out).panics
    ensures Fine(WithLocal(t, Advance(l, out)))
  {
    if l.pc.Todo? {
      DecideFine(t, l, out);
    }
  }

  lemma DecideFine(t: Track, l: Local, out: Outcome)
    requires t == WithLocal(t, l) && !l.panics && l.pc.Todo?
    requires Fine(t)
    ensures !Decide(l, l.pc.seen, out).panics
    ensures Fine(WithLocal(t, Decide(l, l.pc.seen, out)))
  {
  }

  // A step about one id leaves the other ids' tracks alone.

  lemma GoFrame(c: Config, s: Node, g: Id, out: Outcome, id: Id)
    requires Enabled(c, s, Go(g, out)) && id != g
    ensures TrackOf(Next(c, s, Go(g, out)), id) == TrackOf(s, id)
  {
  }

  lemma RequestFrame(s: Node, q: Id, r: RequestAct, id: Id)
    requires RequestEnabled(s, q, r) && id != q
    ensures TrackOf(RequestNext(s, q, r), id) == TrackOf(s, id)
  {
  }

  lemma JobFrame(c: Config, s: Node, q: Id, j: JobAct, id: Id)
    requires JobEnabled(c, s, q, j) && id != q
    ensures TrackOf(JobNext(c, s, q, j), id) == TrackOf(s, id)
  {
  }

  lemma GcVisitFrame(c: Config, s: Node, v: Id, id: Id)
    requires GcEnabled(s, GcVisit(v)) && id != v
    ensures TrackOf(GcNext(c, s, GcVisit(v)), id) == TrackOf(s, id)
  {
    if IsCheckpoint(s, v) {
      var s' := Visited(c, s, v, s.gc.sweep.visit - {v});
      assert Lookup(s'.store, id) == Lookup(s.store, id);
    }
  }

  lemma GcFrame(c: Config, s: Node, g: GcAct, id: Id)
    requires GcEnabled(s, g) && (g.GcVisit? || g.GcFree?) && id != g.id
    ensures TrackOf(GcNext(c, s, g), id) == TrackOf(s, id)
  {
    if g.GcVisit? {
      GcVisitFrame(c, s, g.id, id);
    }
  }

  lemma AdvanceKeeps(l: Local, out: Outcome)
    ensures l.entry.Some? ==> Advance(l, out).entry.Some?
    ensures l.ran.Some? ==> Advance(l, out).ran.Some?
  {
  }

  lemma WriteBackTrack(s: Node, g: Id, l: Local)
    requires s.phase.Reconciling?
    requires g in s.store ==> l.entry.Some?
    requires g in s.ran ==> l.ran.Some?
    ensures TrackOf(WriteBack(s, g, l), g) == WithLocal(TrackOf(s, g), l)
  {
  }

  /** What a goroutine step makes of its own track. */
  lemma GoTrack(c: Config, s: Node, g: Id, out: Outcome)
    requires Enabled(c, s, Go(g, out))
    ensures TrackOf(Next(c, s, Go(g, out)), g) ==
            WithLocal(TrackOf(s, g), Advance(LocalOf(s, g, s.phase.pcs[g]), out))
  {
    var l := LocalOf(s, g, s.phase.pcs[g]);
    AdvanceKeeps(l, out);
    WriteBackTrack(s, g, Advance(l, out));
  }

  lemma GoFine(c: Config, s: Node, g: Id, out: Outcome, id: Id)
    requires Fine(TrackOf(s, g)) && Fine(TrackOf(s, id)) && Enabled(c, s, Go(g, out))
    ensures Fine(TrackOf(Next(c, s, Go(g, out)), id))
    ensures Next(c, s, Go(g, out)).crashed == s.crashed
  {
    AdvanceFine(TrackOf(s, g), LocalOf(s, g, s.phase.pcs[g]), out);
    if id == g {
      GoTrack(c, s, g, out);
    } else {
      GoFrame(c, s, g, out, id);
    }
  }

  /** A tick step that moves all ids in the same way. */
  lemma TickAllFine(s: Node, t: TickAct, id: Id)
    requires Fine(TrackOf(s, id)) && TickEnabled(s, t) && !t.Build? && !t.Forget?
    requires Tidy(s)
    ensures Fine(TrackOf(TickNext(s, t), id)) && Tidy(TickNext(s, t))
    ensures TickNext(s, t).crashed == s.crashed
  {
  }

  lemma TickFrame(s: Node, t: TickAct, id: Id)
    requires TickEnabled(s, t) && (t.Build? || t.Forget?) && id != t.id
    ensures TrackOf(TickNext(s, t), id) == TrackOf(s, id)
  {
  }

  lemma BuildFine(s: Node, id: Id)
    requires Fine(TrackOf(s, id)) && TickEnabled(s, Build(id))
    ensures Fine(TrackOf(TickNext(s, Build(id)), id)) && TickNext(s, Build(id)).crashed == s.crashed
  {
  }

  lemma ForgetFine(s: Node, id: Id)
    requires Fine(TrackOf(s, id)) && Tidy(s) && TickEnabled(s, Forget(id))
    ensures Fine(TrackOf(TickNext(s, Forget(id)), id)) && TickNext(s, Forget(id)).crashed == s.crashed
  {
  }

  lemma TickFine(s: Node, t: TickAct, id: Id)
    requires Fine(TrackOf(s, id)) && Tidy(s) && TickEnabled(s, t)
    requires t.Build? || t.Forget? ==> Fine(TrackOf(s, t.id))
    ensures Fine(TrackOf(TickNext(s, t), id)) && Tidy(TickNext(s, t))
    ensures TickNext(s, t).crashed == s.crashed
  {
    match t
    case Build(b) =>
      BuildFine(s, b);
      if b != id { TickFrame(s, t, id); }
    case Forget(f) =>
      ForgetFine(s, f);
      if f != id { TickFrame(s, t, id); }
    case _ => TickAllFine(s, t, id);
  }

  function NotedStage(g: Stage): Stage {
    match g
    case Built(item, _) => Built(item, true)
    case Reported(sent, _) => Reported(sent, true)
    case _ => g
  }

  /** What a stop request makes of the track of the id it names. */
  function Stopped(t: Track): Track {
    var st := OfWorkload(Deleted, NO_PORT);
    t.(entry := if Updatable(t.entry, st) then Some(Merge(t.entry, st)) else t.entry, stage := NotedStage(t.stage))
  }

  lemma StopTrack(s: Node, q: Id)
    ensures TrackOf(RequestNext(s, q, StopWorkload), q) == Stopped(TrackOf(s, q))
  {
  }

  lemma StoppedFine(t: Track)
    requires Fine(t)
    ensures Fine(Stopped(t))
    ensures Updatable(t.entry, OfWorkload(Deleted, NO_PORT)) <==> !HasCheckpoint(t)
  {
  }

  lemma StopFine(s: Node, q: Id)
    requires Fine(TrackOf(s, q))
    ensures Fine(TrackOf(RequestNext(s, q, StopWorkload), q))
    ensures RequestNext(s, q, StopWorkload).crashed == (s.crashed || IsCheckpoint(s, q))
  {
    StopTrack(s, q);
    StoppedFine(TrackOf(s, q));
  }

  lemma RequestOwnFine(s: Node, q: Id, r: RequestAct)
    requires Fine(TrackOf(s, q)) && RequestEnabled(s, q, r)
    ensures Fine(TrackOf(RequestNext(s, q, r), q))
    ensures RequestNext(s, q, r).crashed == (s.crashed || (r == StopWorkload && IsCheckpoint(s, q)))
  {
    if r == StopWorkload {
      StopFine(s, q);
    }
  }

  lemma RequestFine(s: Node, q: Id, r: RequestAct, id: Id)
    requires Fine(TrackOf(s, id)) && Fine(TrackOf(s, q)) && RequestEnabled(s, q, r)
    ensures Fine(TrackOf(RequestNext(s, q, r), id))
    ensures RequestNext(s, q, r).crashed == (s.crashed || (r == StopWorkload && IsCheckpoint(s, q)))
  {
    RequestOwnFine(s, q, r);
    if id != q {
      RequestFrame(s, q, r, id);
    }
  }

  lemma JobOwnFine(c: Config, s: Node, q: Id, j: JobAct)
    requires Fine(TrackOf(s, q)) && JobEnabled(c, s, q, j) && j != Start
    ensures Fine(TrackOf(JobNext(c, s, q, j), q))
    ensures JobNext(c, s, q, j).crashed == s.crashed
  {
  }

  lemma StartFine(c: Config, s: Node, q: Id)
    requires Fine(TrackOf(s, q)) && JobEnabled(c, s, q, Start)
    ensures Fine(TrackOf(JobNext(c, s, q, Start), q))
    ensures JobNext(c, s, q, Start).crashed == (s.crashed || IsWorkload(s, q))
  {
  }

  lemma JobFine(c: Config, s: Node, q: Id, j: JobAct, id: Id)
    requires Fine(TrackOf(s, id)) && Fine(TrackOf(s, q)) && JobEnabled(c, s, q, j)
    ensures Fine(TrackOf(JobNext(c, s, q, j), id))
    ensures JobNext(c, s, q, j).crashed == (s.crashed || (j == Start && IsWorkload(s, q)))
  {
    if j == Start {
      StartFine(c, s, q);
    } else {
      JobOwnFine(c, s, q, j);
    }
    if id != q {
      JobFrame(c, s, q, j, id);
    }
  }

  lemma GcOwnFine(c: Config, s: Node, g: GcAct)
    requires Tidy(s) && GcEnabled(s, g) && (g.GcVisit? || g.GcFree?)
    requires Fine(TrackOf(s, g.id))
    ensures Fine(TrackOf(GcNext(c, s, g), g.id)) && Tidy(GcNext(c, s, g))
    ensures GcNext(c, s, g).crashed == s.crashed
  {
  }

  lemma GcFine(c: Config, s: Node, g: GcAct, id: Id)
    requires Fine(TrackOf(s, id)) && Tidy(s) && GcEnabled(s, g)
    requires g.GcVisit? || g.GcFree? ==> Fine(TrackOf(s, g.id))
    ensures Fine(TrackOf(GcNext(c, s, g), id)) && Tidy(GcNext(c, s, g))
    ensures GcNext(c, s, g).crashed == s.crashed
  {
    if g.GcVisit? || g.GcFree? {
      GcOwnFine(c, s, g);
      if g.id != id {
        GcFrame(c, s, g, id);
      }
    }
  }
}
