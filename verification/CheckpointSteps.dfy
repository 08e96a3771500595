/** The checkpoint job and the collector's sweep as steps of `NodeProtocol`: what the code of
    `Checkpoint` writes, in its order, is what the machine writes along a path of enabled steps, so what
    holds of every run of the machine holds of this code. */
module CheckpointSteps {
  import opened Option
  import opened Status
  import opened PortAllocator
  import opened Checkpoint
  import N = NodeProtocol

  // ---- The job ----

  /** Where a path of one job's steps leads, and the store writes on the way. */
  datatype Traced = Traced(node: N.Node, log: seq<Logged>)

  predicate Writes(j: N.JobAct) {
    j.Start? || j.Save? || j.Finish?
  }

  function Written(s: N.Node, id: Id, j: N.JobAct): seq<Logged> {
    if Writes(j) && !s.crashed && id in s.store then [Logged(id, s.store[id])] else []
  }

  /** `None` when some step is not enabled where it stands. */
  function Trace(cfg: N.Config, n: N.Node, id: Id, acts: seq<N.JobAct>): Option<Traced> {
    if acts == [] then Some(Traced(n, []))
    else
      match Trace(cfg, n, id, acts[..|acts| - 1])
      case None => None
      case Some(t) =>
        var j := acts[|acts| - 1];
        if !N.Enabled(cfg, t.node, N.JobStep(id, j)) then None
        else
          var s := N.Next(cfg, t.node, N.JobStep(id, j));
          Some(Traced(s, t.log + Written(s, id, j)))
  }

  lemma TraceOn(cfg: N.Config, n: N.Node, id: Id, acts: seq<N.JobAct>, t: Traced, j: N.JobAct)
    requires Trace(cfg, n, id, acts) == Some(t) && N.Enabled(cfg, t.node, N.JobStep(id, j))
    ensures var s := N.Next(cfg, t.node, N.JobStep(id, j));
            Trace(cfg, n, id, acts + [j]) == Some(Traced(s, t.log + Written(s, id, j)))
  {
    assert (acts + [j])[..|acts|] == acts;
  }

  /** The node `n` after some of the job's steps. */
  function At(n: N.Node, id: Id, st: Status, job: N.Job, taken: set<Port>, pods: set<Id>): N.Node {
    n.(store := n.store[id := st], jobs := n.jobs[id := job], taken := taken, pods := pods,
       gc := n.gc.(since := n.gc.since + {id}))
  }

  /** The steps of a job whose calls go as `c` says. */
  function JobActs(c: Calls, drawn: Option<Port>, message: string): seq<N.JobAct> {
    [N.Start] + WorkActs(c, drawn) + [N.Finish(FinalState(c, drawn.Some?), message)]
  }

  function WorkActs(c: Calls, drawn: Option<Port>): seq<N.JobAct> {
    if !c.pullBase then []
    else if drawn.None? then [N.Draw(None)]
    else [N.Draw(drawn), N.Save] + if c.runPod then [N.RunPod] else []
  }

  function JobAfter(c: Calls, drawn: Option<Port>): N.Job {
    if drawn.Some? then N.Job(if c.runPod then N.Hosting else N.Working, drawn) else N.Job(N.Pulling, None)
  }

  function Pods(n: N.Node, id: Id, c: Calls, drawn: Option<Port>): set<Id> {
    if drawn.Some? && c.runPod then n.pods + {id} else n.pods
  }

  function Taken(n: N.Node, drawn: Option<Port>): set<Port> {
    if drawn.Some? then n.taken + {drawn.value} else n.taken
  }

  /** The id is handed out and nothing is written under it yet. */
  predicate IsIssued(n: N.Node, id: Id) {
    !n.crashed && id in n.jobs && n.jobs[id] == N.Job(N.Issued, None)
  }

  /** The job may run, no stop having come before it, and `drawn` is what its draw may give. */
  predicate MayRun(cfg: N.Config, n: N.Node, id: Id, c: Calls, drawn: Option<Port>) {
    && IsIssued(n, id) && id !in n.store
    && (drawn.Some? ==> c.pullBase && cfg.portMin <= drawn.value <= cfg.portMax && drawn.value !in n.taken)
  }

  function Begun(n: N.Node, id: Id): N.Node {
    At(n, id, OfCheckpoint(InProgress, "", None, NO_PORT), N.Job(N.Pulling, None), n.taken, n.pods)
  }

  function Worked(n: N.Node, id: Id, c: Calls, drawn: Option<Port>): N.Node {
    At(n, id, OfCheckpoint(InProgress, "", None, PortOf(drawn)), JobAfter(c, drawn), Taken(n, drawn),
       Pods(n, id, c, drawn))
  }

  // one step each

  lemma Twice<V>(m: map<Id, V>, id: Id, v: V, w: V)
    ensures m[id := v][id := w] == m[id := w]
  {
  }

  lemma StartNext(cfg: N.Config, n: N.Node, id: Id, c: Calls)
    requires MayRun(cfg, n, id, c, None)
    ensures N.JobEnabled(cfg, n, id, N.Start) && N.JobNext(cfg, n, id, N.Start) == Begun(n, id)
  {
  }

  lemma PodNext(cfg: N.Config, n: N.Node, id: Id, p: Port, taken: set<Port>)
    ensures var st := OfCheckpoint(InProgress, "", None, p);
            var s := At(n, id, st, N.Job(N.Working, Some(p)), taken, n.pods);
            N.JobEnabled(cfg, s, id, N.RunPod)
            && N.JobNext(cfg, s, id, N.RunPod) == At(n, id, st, N.Job(N.Hosting, Some(p)), taken, n.pods + {id})
  {
    Twice(n.jobs, id, N.Job(N.Working, Some(p)), N.Job(N.Hosting, Some(p)));
  }

  lemma DrawNext(cfg: N.Config, n: N.Node, id: Id, c: Calls, p: Port)
    requires MayRun(cfg, n, id, c, Some(p))
    ensures var s := Begun(n, id);
            N.JobEnabled(cfg, s, id, N.Draw(Some(p)))
            && N.JobNext(cfg, s, id, N.Draw(Some(p))) ==
               At(n, id, OfCheckpoint(InProgress, "", None, NO_PORT), N.Job(N.Saving, Some(p)), n.taken + {p}, n.pods)
  {
    Twice(n.jobs, id, N.Job(N.Pulling, None), N.Job(N.Saving, Some(p)));
  }

  lemma SaveNext(cfg: N.Config, n: N.Node, id: Id, p: Port, taken: set<Port>)
    ensures var st := OfCheckpoint(InProgress, "", None, NO_PORT);
            var s := At(n, id, st, N.Job(N.Saving, Some(p)), taken, n.pods);
            N.JobEnabled(cfg, s, id, N.Save)
            && N.JobNext(cfg, s, id, N.Save) ==
               At(n, id, OfCheckpoint(InProgress, "", None, p), N.Job(N.Working, Some(p)), taken, n.pods)
  {
    Twice(n.jobs, id, N.Job(N.Saving, Some(p)), N.Job(N.Working, Some(p)));
    Twice(n.store, id, OfCheckpoint(InProgress, "", None, NO_PORT), OfCheckpoint(InProgress, "", None, p));
  }

  lemma FinishNext(cfg: N.Config, n: N.Node, id: Id, p: Port, job: N.Job, taken: set<Port>, pods: set<Id>,
                   state: CheckpointState, message: string)
    requires (job.pc == N.Pulling || job.pc == N.Working || job.pc == N.Hosting) && state != InProgress && state != Unspecified
    ensures var s := At(n, id, OfCheckpoint(InProgress, "", None, p), job, taken, pods);
            N.JobEnabled(cfg, s, id, N.Finish(state, message))
            && N.JobNext(cfg, s, id, N.Finish(state, message)) ==
               At(n, id, OfCheckpoint(state, message, Some(n.now), p), job.(pc := N.Finished), taken, pods)
  {
    Twice(n.jobs, id, job, job.(pc := N.Finished));
    Twice(n.store, id, OfCheckpoint(InProgress, "", None, p), OfCheckpoint(state, message, Some(n.now), p));
  }

  // paths

  lemma TraceStart(cfg: N.Config, n: N.Node, id: Id, c: Calls)
    requires MayRun(cfg, n, id, c, None)
    ensures Trace(cfg, n, id, [N.Start]) ==
            Some(Traced(Begun(n, id), [Logged(id, OfCheckpoint(InProgress, "", None, NO_PORT))]))
  {
    StartNext(cfg, n, id, c);
    var acts, log := [], [];
    TraceOn(cfg, n, id, acts, Traced(n, log), N.Start);
    assert acts + [N.Start] == [N.Start];
    assert log + Written(Begun(n, id), id, N.Start) == Written(Begun(n, id), id, N.Start);
  }

  lemma TraceDraw(cfg: N.Config, n: N.Node, id: Id, c: Calls, p: Port, log: seq<Logged>)
    requires MayRun(cfg, n, id, c, Some(p)) && Trace(cfg, n, id, [N.Start]) == Some(Traced(Begun(n, id), log))
    ensures Trace(cfg, n, id, [N.Start] + [N.Draw(Some(p))] + [N.Save]) ==
            Some(Traced(At(n, id, OfCheckpoint(InProgress, "", None, p), N.Job(N.Working, Some(p)), n.taken + {p}, n.pods),
                        log + WorkLog(id, Some(p))))
  {
    DrawNext(cfg, n, id, c, p);
    var s := At(n, id, OfCheckpoint(InProgress, "", None, NO_PORT), N.Job(N.Saving, Some(p)), n.taken + {p}, n.pods);
    TraceOn(cfg, n, id, [N.Start], Traced(Begun(n, id), log), N.Draw(Some(p)));
    assert log + [] == log;
    SaveNext(cfg, n, id, p, n.taken + {p});
    TraceOn(cfg, n, id, [N.Start] + [N.Draw(Some(p))], Traced(s, log), N.Save);
  }

  lemma TracePod(cfg: N.Config, n: N.Node, id: Id, c: Calls, p: Port, log: seq<Logged>)
    requires MayRun(cfg, n, id, c, Some(p)) && c.runPod
    requires Trace(cfg, n, id, [N.Start] + [N.Draw(Some(p))] + [N.Save]) ==
             Some(Traced(At(n, id, OfCheckpoint(InProgress, "", None, p), N.Job(N.Working, Some(p)), n.taken + {p}, n.pods), log))
    ensures Trace(cfg, n, id, [N.Start] + WorkActs(c, Some(p))) == Some(Traced(Worked(n, id, c, Some(p)), log))
  {
    var s := At(n, id, OfCheckpoint(InProgress, "", None, p), N.Job(N.Working, Some(p)), n.taken + {p}, n.pods);
    var acts := [N.Start] + [N.Draw(Some(p))] + [N.Save];
    PodNext(cfg, n, id, p, n.taken + {p});
    TraceOn(cfg, n, id, acts, Traced(s, log), N.RunPod);
    assert log + [] == log;
    assert acts + [N.RunPod] == [N.Start] + WorkActs(c, Some(p));
  }

  lemma TraceDrawn(cfg: N.Config, n: N.Node, id: Id, c: Calls, p: Port, log: seq<Logged>)
    requires MayRun(cfg, n, id, c, Some(p)) && Trace(cfg, n, id, [N.Start]) == Some(Traced(Begun(n, id), log))
    ensures Trace(cfg, n, id, [N.Start] + WorkActs(c, Some(p))) ==
            Some(Traced(Worked(n, id, c, Some(p)), log + WorkLog(id, Some(p))))
  {
    TraceDraw(cfg, n, id, c, p, log);
    if c.runPod {
      TracePod(cfg, n, id, c, p, log + WorkLog(id, Some(p)));
    } else {
      assert [N.Start] + [N.Draw(Some(p))] + [N.Save] == [N.Start] + WorkActs(c, Some(p));
    }
  }

  lemma TraceWork(cfg: N.Config, n: N.Node, id: Id, c: Calls, drawn: Option<Port>)
    requires MayRun(cfg, n, id, c, drawn)
    ensures Trace(cfg, n, id, [N.Start] + WorkActs(c, drawn)) ==
            Some(Traced(Worked(n, id, c, drawn), [Logged(id, OfCheckpoint(InProgress, "", None, NO_PORT))] + WorkLog(id, drawn)))
  {
    TraceStart(cfg, n, id, c);
    var log := [Logged(id, OfCheckpoint(InProgress, "", None, NO_PORT))];
    assert log + [] == log;
    if drawn.Some? {
      TraceDrawn(cfg, n, id, c, drawn.value, log);
    } else if c.pullBase {
      TraceOn(cfg, n, id, [N.Start], Traced(Begun(n, id), log), N.Draw(None));
    } else {
      assert [N.Start] + [] == [N.Start];
    }
  }

  /** Every job is a path of the machine on which the same statuses are written in the same order. */
  lemma JobIsPath(cfg: N.Config, n: N.Node, id: Id, c: Calls, drawn: Option<Port>, message: string)
    requires MayRun(cfg, n, id, c, drawn)
    ensures Trace(cfg, n, id, JobActs(c, drawn, message)) ==
            Some(Traced(At(n, id, OfCheckpoint(FinalState(c, drawn.Some?), message, Some(n.now), PortOf(drawn)),
                           JobAfter(c, drawn).(pc := N.Finished), Taken(n, drawn), Pods(n, id, c, drawn)),
                        JobLog(id, c, drawn, message, n.now)))
  {
    var state := FinalState(c, drawn.Some?);
    TraceWork(cfg, n, id, c, drawn);
    FinishNext(cfg, n, id, PortOf(drawn), JobAfter(c, drawn), Taken(n, drawn), Pods(n, id, c, drawn), state, message);
    TraceOn(cfg, n, id, [N.Start] + WorkActs(c, drawn),
            Traced(Worked(n, id, c, drawn), [Logged(id, OfCheckpoint(InProgress, "", None, NO_PORT))] + WorkLog(id, drawn)),
            N.Finish(state, message));
  }

  /** And a job whose id was stopped first is the one step that crashes the machine. */
  lemma PanicIsPath(cfg: N.Config, n: N.Node, id: Id)
    requires IsIssued(n, id) && N.IsWorkload(n, id)
    ensures var t := Trace(cfg, n, id, [N.Start]);
            t.Some? && t.value.log == [] && t.value.node.crashed
            && t.value.node.store == n.store && t.value.node.taken == n.taken
  {
    var acts, log := [], [];
    TraceOn(cfg, n, id, acts, Traced(n, log), N.Start);
    assert acts + [N.Start] == [N.Start];
  }

  lemma RanIsPath(cfg: N.Config, n: N.Node, id: Id, c: Calls, message: string, pushed: bool, drawn: Option<Port>,
                  store: map<Id, Status>, taken: set<Port>, written: seq<Logged>)
    requires MayRun(cfg, n, id, c, None)
    requires Ran(id, c, n.now, message, pushed, drawn, n.store, store, written)
    requires Draws(c, cfg.portMin, cfg.portMax, n.taken, drawn, taken)
    ensures var t := Trace(cfg, n, id, JobActs(c, drawn, message));
            && t.Some? && t.value.log == written && !t.value.node.crashed
            && t.value.node.store == store && t.value.node.taken == taken
  {
    JobIsPath(cfg, n, id, c, drawn, message);
  }

  /** A job on the store and the allocator of a node `n` that handed out its id: the node's machine can
      take the steps `acts`, on the way it writes what the store logs, it ends with the same store and
      allocator, and it crashes exactly when the code panics. */
  method RunInNode(store: MemStore, alloc: PortAllocator, id: Id, c: Calls, ghost cfg: N.Config, ghost n: N.Node, now: nat)
    returns (panics: bool, ghost acts: seq<N.JobAct>)
    requires store.Valid() && alloc.Valid()
    requires |c.draws| == MAX_TRIES && forall d | d in c.draws :: d < alloc.portMax + 1 - alloc.portMin
    requires cfg.portMin == alloc.portMin && cfg.portMax == alloc.portMax
    requires n.store == store.Contents() && n.taken == alloc.taken && n.now == now
    requires IsIssued(n, id) && (id in n.store ==> N.IsWorkload(n, id) && !N.IsCheckpoint(n, id))
    modifies store, store.data.Values, alloc
    ensures var t := Trace(cfg, n, id, acts);
            && t.Some? && store.log == old(store.log) + t.value.log
            && t.value.node.store == store.Contents() && t.value.node.taken == alloc.taken
            && (t.value.node.crashed <==> panics)
  {
    ghost var log := store.log;
    var message, pushed, drawn;
    panics, message, pushed, drawn := Checkpoint.Run(store, alloc, id, c, now);
    if panics {
      acts := [N.Start];
      PanicIsPath(cfg, n, id);
    } else {
      acts := JobActs(c, drawn, message);
      RanIsPath(cfg, n, id, c, message, pushed, drawn, store.Contents(), alloc.taken, store.log[|log|..]);
    }
  }

  // ---- The sweep ----

  function Follow(cfg: N.Config, n: N.Node, acts: seq<N.GcAct>): Option<N.Node> {
    if acts == [] then Some(n)
    else
      match Follow(cfg, n, acts[..|acts| - 1])
      case None => None
      case Some(s) =>
        if N.Enabled(cfg, s, N.GcStep(acts[|acts| - 1])) then Some(N.Next(cfg, s, N.GcStep(acts[|acts| - 1]))) else None
  }

  lemma FollowOn(cfg: N.Config, n: N.Node, acts: seq<N.GcAct>, s: N.Node, g: N.GcAct)
    requires Follow(cfg, n, acts) == Some(s) && N.Enabled(cfg, s, N.GcStep(g))
    ensures Follow(cfg, n, acts + [g]) == Some(N.Next(cfg, s, N.GcStep(g)))
  {
    assert (acts + [g])[..|acts|] == acts;
  }

  /** The machine's steps for one round: none for an entry without a checkpoint status. */
  function RoundActs(id: Id, st: Status, now: nat, retention: nat): seq<N.GcAct> {
    if st.checkpoint.None? then []
    else [N.GcVisit(id)] + if Past(st, now, retention) then [N.GcFree(id)] else []
  }

  function SweepActs(m: map<Id, Status>, order: seq<Id>, now: nat, retention: nat): seq<N.GcAct>
    requires forall id | id in order :: id in m
  {
    if order == [] then [N.GcView]
    else
      var id := order[|order| - 1];
      SweepActs(m, order[..|order| - 1], now, retention) + RoundActs(id, m[id], now, retention)
  }

  function Checkpoints(m: map<Id, Status>, todo: set<Id>): set<Id> {
    set id | id in m && id in todo && m[id].checkpoint.Some?
  }

  /** The node `n` with `todo` still to be visited. */
  function SweepAt(cfg: N.Config, n: N.Node, todo: set<Id>): N.Node {
    n.(store := Kept(n.store, todo, n.now, cfg.retention),
       taken := n.taken - Freed(n.store, todo, n.now, cfg.retention),
       gc := N.Gc(N.Sweeping(Checkpoints(n.store, todo)), Checkpoint.Running(n.store, todo), {}))
  }

  /** Between dropping an expired status and freeing its port; otherwise the round is over. */
  function Visiting(cfg: N.Config, n: N.Node, todo: set<Id>, id: Id): N.Node
    requires id in n.store
  {
    var s := SweepAt(cfg, n, todo - {id});
    if Past(n.store[id], n.now, cfg.retention) then
      s.(taken := SweepAt(cfg, n, todo).taken,
         gc := s.gc.(sweep := N.Freeing(id, n.store[id].checkpoint.value.port, s.gc.sweep.visit)))
    else s
  }

  lemma VisitNext(cfg: N.Config, n: N.Node, todo: set<Id>, id: Id)
    requires !n.crashed && id in n.store && id in todo && n.store[id].checkpoint.Some?
    ensures var s := SweepAt(cfg, n, todo);
            N.Enabled(cfg, s, N.GcStep(N.GcVisit(id)))
            && N.Next(cfg, s, N.GcStep(N.GcVisit(id))) == Visiting(cfg, n, todo, id)
  {
    var s := SweepAt(cfg, n, todo);
    assert id in s.store && s.store[id] == n.store[id];
    assert Checkpoints(n.store, todo - {id}) == Checkpoints(n.store, todo) - {id};
    RoundParts(n.store, todo, id, n.now, cfg.retention);
  }

  lemma RoundParts(m: map<Id, Status>, todo: set<Id>, id: Id, now: nat, retention: nat)
    requires id in m && id in todo
    ensures var expired := Past(m[id], now, retention);
            && Kept(m, todo - {id}, now, retention) ==
               (if expired then Kept(m, todo, now, retention) - {id} else Kept(m, todo, now, retention))
            && (!expired ==> Freed(m, todo - {id}, now, retention) == Freed(m, todo, now, retention))
            && Checkpoint.Running(m, todo - {id}) ==
               (if InFlight(m[id]) then Checkpoint.Running(m, todo) + {id} else Checkpoint.Running(m, todo))
  {
    SweepStep(m, todo, id, now, retention);
    WithoutKeys(m, Dropped(m, todo, now, retention), Drops(id, m[id], now, retention));
    assert !Past(m[id], now, retention) ==> Dropped(m, todo - {id}, now, retention) == Dropped(m, todo, now, retention);
  }

  lemma FreeNext(cfg: N.Config, n: N.Node, todo: set<Id>, id: Id)
    requires !n.crashed && id in n.store && id in todo && Past(n.store[id], n.now, cfg.retention)
    ensures var s := Visiting(cfg, n, todo, id);
            N.Enabled(cfg, s, N.GcStep(N.GcFree(id)))
            && N.Next(cfg, s, N.GcStep(N.GcFree(id))) == SweepAt(cfg, n, todo - {id})
  {
    SweepStep(n.store, todo, id, n.now, cfg.retention);
    Without(n.taken, Freed(n.store, todo, n.now, cfg.retention), Gives(n.store[id], n.now, cfg.retention));
  }

  lemma SkipNext(cfg: N.Config, n: N.Node, todo: set<Id>, id: Id)
    requires id in n.store && n.store[id].checkpoint.None?
    ensures SweepAt(cfg, n, todo - {id}) == SweepAt(cfg, n, todo)
  {
    var m := n.store;
    assert Dropped(m, todo - {id}, n.now, cfg.retention) == Dropped(m, todo, n.now, cfg.retention);
    assert Checkpoints(m, todo - {id}) == Checkpoints(m, todo);
    assert Checkpoint.Running(m, todo - {id}) == Checkpoint.Running(m, todo);
  }

  lemma RoundFollows(cfg: N.Config, n: N.Node, acts: seq<N.GcAct>, todo: set<Id>, id: Id)
    requires !n.crashed && id in n.store && id in todo
    requires Follow(cfg, n, acts) == Some(SweepAt(cfg, n, todo))
    ensures Follow(cfg, n, acts + RoundActs(id, n.store[id], n.now, cfg.retention)) == Some(SweepAt(cfg, n, todo - {id}))
  {
    if n.store[id].checkpoint.None? {
      SkipNext(cfg, n, todo, id);
      assert acts + [] == acts;
      return;
    }
    VisitNext(cfg, n, todo, id);
    FollowOn(cfg, n, acts, SweepAt(cfg, n, todo), N.GcVisit(id));
    if Past(n.store[id], n.now, cfg.retention) {
      FreeNext(cfg, n, todo, id);
      FollowOn(cfg, n, acts + [N.GcVisit(id)], Visiting(cfg, n, todo, id), N.GcFree(id));
      assert acts + [N.GcVisit(id)] + [N.GcFree(id)] == acts + ([N.GcVisit(id)] + [N.GcFree(id)]);
    } else {
      assert acts + ([N.GcVisit(id)] + []) == acts + [N.GcVisit(id)];
    }
  }

  /** In whatever order the map is ranged over, the sweep is a path of the machine. */
  lemma {:induction false} SweepIsPath(cfg: N.Config, n: N.Node, order: seq<Id>, todo: set<Id>)
    requires !n.crashed && n.gc.sweep.Resting? && Visits(order, n.store.Keys, todo)
    ensures Follow(cfg, n, SweepActs(n.store, order, n.now, cfg.retention)) == Some(SweepAt(cfg, n, todo))
  {
    if order == [] {
      assert todo == n.store.Keys;
      ViewNext(cfg, n);
    } else {
      var id, before := order[|order| - 1], order[..|order| - 1];
      assert order == before + [id];
      assert Visits(before, n.store.Keys, todo + {id});
      SweepIsPath(cfg, n, before, todo + {id});
      RoundFollows(cfg, n, SweepActs(n.store, before, n.now, cfg.retention), todo + {id}, id);
      assert todo + {id} - {id} == todo;
    }
  }

  lemma ViewNext(cfg: N.Config, n: N.Node)
    requires !n.crashed && n.gc.sweep.Resting?
    ensures Follow(cfg, n, [N.GcView]) == Some(SweepAt(cfg, n, n.store.Keys))
  {
    var none: seq<N.GcAct> := [];
    FollowOn(cfg, n, none, n, N.GcView);
    assert none + [N.GcView] == [N.GcView];
    var m := n.store;
    assert Dropped(m, m.Keys, n.now, cfg.retention) == {} && Freed(m, m.Keys, n.now, cfg.retention) == {};
    assert m - {} == m && n.taken - {} == n.taken;
    assert Checkpoint.Running(m, m.Keys) == {};
    assert Checkpoints(m, m.Keys) == set id | id in m && N.IsCheckpoint(n, id);
  }

  /** The sweep on the store and the allocator of a node `n`: the machine can take the steps `acts` and
      ends with the same store, allocator and set of checkpoints to keep. */
  method SweepInNode(store: MemStore, alloc: PortAllocator, retention: nat, now: nat, ghost cfg: N.Config, ghost n: N.Node)
    returns (keep: set<Id>, ghost acts: seq<N.GcAct>)
    requires store.Valid() && alloc.Valid()
    requires n.store == store.Contents() && n.taken == alloc.taken && n.now == now && cfg.retention == retention
    requires !n.crashed && n.gc.sweep.Resting?
    modifies store, alloc
    ensures Follow(cfg, n, acts) ==
            Some(n.(store := store.Contents(), taken := alloc.taken, gc := N.Gc(N.Sweeping({}), keep, {})))
  {
    ghost var order;
    keep, order := Checkpoint.Sweep(store, alloc, retention, now);
    acts := SweepActs(n.store, order, now, retention);
    SweepIsPath(cfg, n, order, {});
    assert Checkpoints(n.store, {}) == {};
  }
}
