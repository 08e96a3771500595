/** Runs that show where the node's guarantees end. */
module NodeWitnesses {
  import opened Option
  import opened Status
  import opened NodeProtocol
  import opened NodeSafety
  import opened NodeTheorems
  import opened NodeCleanup
  import opened NodePorts

  /** `es` leads to `s`, and on from there. */
  ghost predicate Leads(c: Config, es: seq<Event>, s: Node) {
    Run(c, es) == Some(s) && !s.crashed
  }

  lemma Extend(c: Config, es: seq<Event>, s: Node, e: Event) returns (es': seq<Event>, s': Node)
    requires Leads(c, es, s) && Enabled(c, s, e) && !Next(c, s, e).crashed
    ensures Leads(c, es', s') && s' == Next(c, s, e)
  {
    RunSplit(c, es, e);
    es', s' := es + [e], Next(c, s, e);
  }

  lemma {:induction false} Wait(c: Config, es: seq<Event>, s: Node, n: nat) returns (es': seq<Event>, s': Node)
    requires Leads(c, es, s)
    ensures Leads(c, es', s') && s' == s.(now := s.now + n)
    decreases n
  {
    es', s' := es, s;
    if n > 0 {
      es', s' := Extend(c, es, s, Clock);
      es', s' := Wait(c, es', s', n - 1);
    }
  }

  /** The goroutine of `id` takes the step that leaves it at `l`. */
  lemma GoTo(c: Config, es: seq<Event>, s: Node, id: Id, out: Outcome, l: Local) returns (es': seq<Event>, s': Node)
    requires Leads(c, es, s) && Enabled(c, s, Go(id, out)) && !l.panics
    requires l == Advance(LocalOf(s, id, s.phase.pcs[id]), out)
    ensures Leads(c, es', s') && s' == WriteBack(s, id, l)
  {
    es', s' := Extend(c, es, s, Go(id, out));
  }

  /** Two writes to one goroutine's place are one. */
  lemma WriteTwice(s: Node, id: Id, l: Local, l': Local)
    requires s.phase.Reconciling?
    requires l.entry.Some? ==> l'.entry.Some?
    requires l.ran.Some? ==> l'.ran.Some?
    requires l.takes == l.gives == {} && !l.panics
    ensures WriteBack(WriteBack(s, id, l), id, l') == WriteBack(s, id, l')
  {
    assert s.phase.pcs[id := l.pc][id := l'.pc] == s.phase.pcs[id := l'.pc];
    assert s.attempts[id := l.attempts][id := l'.attempts] == s.attempts[id := l'.attempts];
    assert Set(Set(s.store, id, l.entry), id, l'.entry) == Set(s.store, id, l'.entry);
    assert Set(Set(s.ran, id, l.ran), id, l'.ran) == Set(s.ran, id, l'.ran);
  }

  /** Instance `id` draws port `p` while no other goroutine moves. */
  lemma DrawPort(c: Config, es: seq<Event>, s: Node, id: Id, p: Port) returns (es': seq<Event>, s': Node)
    requires Leads(c, es, s)
    requires s.phase.Reconciling? && id in s.phase.pcs && s.phase.pcs[id] == Todo(PENDING)
    requires id !in s.store && Attempts(s, id) == 0 && c.portMin <= p <= c.portMax && p !in s.taken
    ensures Leads(c, es', s')
    ensures s' == WriteBack(s, id, Local(Some(OfWorkload(Creating, NO_PORT)), 0, Lookup(s.ran, id), SavePort(p),
                                         {p}, {}, false))
  {
    var ran, entry := Lookup(s.ran, id), Some(OfWorkload(Creating, NO_PORT));
    var l1 := Local(None, 0, ran, Mark, {}, {}, false);
    var l2 := Local(entry, 0, ran, Allocate, {}, {}, false);
    var l3 := Local(entry, 0, ran, SavePort(p), {p}, {}, false);
    es', s' := GoTo(c, es, s, id, Quiet, l1);
    es', s' := GoTo(c, es', s', id, Quiet, l2);
    WriteTwice(s, id, l1, l2);
    es', s' := GoTo(c, es', s', id, Drawn(p), l3);
    WriteTwice(s, id, l2, l3);
  }

  /** Instance `id` holds port `p` and its RunWorkload succeeds. */
  lemma LaunchOk(c: Config, es: seq<Event>, s: Node, id: Id, p: Port) returns (es': seq<Event>, s': Node)
    requires Leads(c, es, s) && p != NO_PORT
    requires s.phase.Reconciling? && id in s.phase.pcs && s.phase.pcs[id] == SavePort(p)
    requires id in s.store && s.store[id] == OfWorkload(Creating, NO_PORT) && id !in s.ran
    ensures Leads(c, es', s')
    ensures s'.store == s.store[id := OfWorkload(Running, p)] && s'.rows == s.rows && s'.ran == s.ran[id := p]
    ensures s'.phase == Reconciling(s.phase.pcs[id := Done]) && s'.jobs == s.jobs
  {
    var n, entry := Attempts(s, id), Some(OfWorkload(Creating, p));
    var l1 := Local(entry, n, None, Launch(p), {}, {}, false);
    var l2 := Local(entry, n, Some(p), Confirm(p), {}, {}, false);
    var l3 := Local(Some(OfWorkload(Running, p)), n, Some(p), Done, {}, {}, false);
    es', s' := GoTo(c, es, s, id, Quiet, l1);
    es', s' := GoTo(c, es', s', id, RunOk, l2);
    WriteTwice(s, id, l1, l2);
    es', s' := GoTo(c, es', s', id, Quiet, l3);
    WriteTwice(s, id, l2, l3);
  }

  /** A checkpoint failed before it drew a port. */
  lemma FailedJob(c: Config) returns (es: seq<Event>, s: Node)
    ensures Leads(c, es, s)
    ensures s == Init().(store := map[1 := OfCheckpoint(PullBaseImageFailed, "pull base image", Some(0), NO_PORT)],
                         jobs := map[1 := Job(Finished, None)], gc := Gc(Resting, {}, {1}))
  {
    es, s := [], Init();
    es, s := StartsJob(c, es, s, 1);
    es, s := Extend(c, es, s, JobStep(1, Finish(PullBaseImageFailed, "pull base image")));
  }

  /** And two instances wait to be created. */
  lemma FailedJobAndTwoInstances(c: Config) returns (es: seq<Event>, s: Node)
    ensures Leads(c, es, s)
    ensures s.store == map[1 := OfCheckpoint(PullBaseImageFailed, "pull base image", Some(0), NO_PORT)]
    ensures s.phase == Reconciling(map[2 := Todo(PENDING), 3 := Todo(PENDING)])
    ensures s.attempts == map[] && s.taken == {} && s.now == 0 && s.gc.sweep.Resting?
    ensures s.jobs.Keys == {1} && s.ran == map[]
  {
    es, s := FailedJob(c);
    es, s := Extend(c, es, s, Request(2, RunFlavorVersion));
    es, s := Extend(c, es, s, Request(3, RunFlavorVersion));
    es, s := Extend(c, es, s, Tick(Discover));
  }

  /** With port 0 in the range exclusivity fails: a checkpoint that never drew a port has port 0 in
      its status, so collecting it frees port 0 under the workload that holds it. */
  lemma PortZeroShared(c: Config) returns (es: seq<Event>, s: Node)
    requires c.portMin == 0
    ensures Run(c, es) == Some(s) && !Exclusive(c, s)
  {
    es, s := FailedJobAndTwoInstances(c);
    es, s := Wait(c, es, s, c.retention + 1);
    es, s := DrawPort(c, es, s, 2, 0);
    es, s := CollectOne(c, es, s, 1);
    es, s := DrawPort(c, es, s, 3, 0);
    assert Held(TrackOf(s, 2)) == Some(0) == Held(TrackOf(s, 3));
  }

  /** One garbage collection up to freeing the port of the only checkpoint, long finished. */
  lemma CollectOne(c: Config, es: seq<Event>, s: Node, id: Id) returns (es': seq<Event>, s': Node)
    requires Leads(c, es, s) && s.gc.sweep.Resting?
    requires IsCheckpoint(s, id) && Expired(c, s.now, s.store[id].checkpoint.value)
    ensures Leads(c, es', s')
    ensures s'.store == s.store - {id} && s'.taken == s.taken - {s.store[id].checkpoint.value.port}
    ensures s'.phase == s.phase && s'.attempts == s.attempts && s'.jobs == s.jobs
  {
    es', s' := Extend(c, es, s, GcStep(GcView));
    es', s' := Extend(c, es', s', GcStep(GcVisit(id)));
    es', s' := Extend(c, es', s', GcStep(GcFree(id)));
  }

  /** Exclusivity of ports holds in every run if and only if the port range starts above 0. */
  lemma PortsExclusiveIff(c: Config)
    ensures (forall es :: Run(c, es).Some? ==> Exclusive(c, Run(c, es).value)) <==> 0 < c.portMin
  {
    if 0 < c.portMin {
      forall es | Run(c, es).Some?
        ensures Exclusive(c, Run(c, es).value)
      {
        PortsExclusive(c, es);
      }
    } else {
      var es, s := PortZeroShared(c);
      assert Run(c, es).Some?;
    }
  }

  /** One instance, discovered. */
  lemma OnePending(c: Config) returns (es: seq<Event>, s: Node)
    ensures Leads(c, es, s)
    ensures s == Init().(rows := map[7 := Row(PENDING, NO_PORT)], born := {7}, phase := Reconciling(map[7 := Todo(PENDING)]))
  {
    es, s := [], Init();
    es, s := Extend(c, es, s, Request(7, RunFlavorVersion));
    es, s := Extend(c, es, s, Tick(Discover));
    assert s.phase.pcs == map[7 := Todo(PENDING)];
  }

  /** One instance, launched and with its tick's goroutines done. */
  lemma OneRunning(c: Config) returns (es: seq<Event>, s: Node)
    requires 0 < c.portMin <= c.portMax
    ensures Leads(c, es, s)
    ensures s.store == map[7 := OfWorkload(Running, c.portMin)] && s.rows == map[7 := Row(PENDING, NO_PORT)]
    ensures s.phase == Reconciling(map[7 := Done]) && s.jobs == map[]
  {
    es, s := OnePending(c);
    es, s := DrawPort(c, es, s, 7, c.portMin);
    es, s := LaunchOk(c, es, s, 7, c.portMin);
  }

  /** The same instance with its status reported, nothing forgotten yet. */
  lemma OneReported(c: Config) returns (es: seq<Event>, s: Node)
    requires 0 < c.portMin <= c.portMax
    ensures Leads(c, es, s)
    ensures s.store == map[7 := OfWorkload(Running, c.portMin)] && s.rows == map[7 := Row(RUNNING, c.portMin)]
    ensures s.phase.Forgetting? && s.phase.left == {7} && s.jobs == map[]
  {
    es, s := OneRunning(c);
    es, s := Extend(c, es, s, Tick(View));
    es, s := Extend(c, es, s, Tick(Build(7)));
    es, s := Extend(c, es, s, Tick(ReportOk));
    assert s.rows[7] == Row(RUNNING, c.portMin);
  }

  /** A stop request between report and cleanup makes a terminal status vanish: the instance is
      RUNNING at the control plane while the node has forgotten it. */
  lemma StatusLost(c: Config) returns (es: seq<Event>, s: Node)
    requires 0 < c.portMin <= c.portMax
    ensures Run(c, es) == Some(s) && s.phase.Forgetting?
    ensures s.rows == map[7 := Row(RUNNING, c.portMin)] && s.store == map[]
  {
    es, s := OneReported(c);
    es, s := Extend(c, es, s, Request(7, StopWorkload));
    es, s := Extend(c, es, s, Tick(Forget(7)));
  }

  /** A collection pass has taken its view of an empty store. */
  lemma PassUnderWay(c: Config) returns (es: seq<Event>, s: Node)
    ensures Leads(c, es, s) && s == Init().(gc := Gc(Sweeping({}), {}, {}))
  {
    es, s := [], Init();
    es, s := Extend(c, es, s, GcStep(GcView));
    assert s.gc.sweep.visit == {};
  }

  /** The id of a job is handed out, and the job writes its first status. */
  lemma StartsJob(c: Config, es: seq<Event>, s: Node, id: Id) returns (es': seq<Event>, s': Node)
    requires Leads(c, es, s) && id !in s.jobs && id !in s.born && id !in s.store
    ensures Leads(c, es', s')
    ensures s' == s.(store := s.store[id := OfCheckpoint(InProgress, "", None, NO_PORT)],
                     jobs := s.jobs[id := Job(Pulling, None)], gc := s.gc.(since := s.gc.since + {id}))
  {
    es', s' := Extend(c, es, s, JobStep(id, Issue));
    es', s' := Extend(c, es', s', JobStep(id, Start));
    assert s.jobs[id := Job(Issued, None)][id := Job(Pulling, None)] == s.jobs[id := Job(Pulling, None)];
  }

  /** Then a job starts and gets as far as running its pod. */
  lemma StartedDuringPass(c: Config) returns (es: seq<Event>, s: Node)
    requires 0 < c.portMin <= c.portMax
    ensures Leads(c, es, s)
    ensures s.jobs == map[9 := Job(Working, Some(c.portMin))] && s.pods == {} && s.gc == Gc(Sweeping({}), {}, {9})
  {
    es, s := PassUnderWay(c);
    es, s := StartsJob(c, es, s, 9);
    es, s := Extend(c, es, s, JobStep(9, Draw(Some(c.portMin))));
    es, s := Extend(c, es, s, JobStep(9, Save));
  }

  /** A job that starts while a collection pass is under way can have its pod removed by it. */
  lemma RunningPodRemoved(c: Config) returns (es: seq<Event>, s: Node)
    requires 0 < c.portMin <= c.portMax
    ensures Run(c, es) == Some(s)
    ensures s.jobs == map[9 := Job(Hosting, Some(c.portMin))] && 9 in s.pods
    ensures Enabled(c, s, GcStep(GcRemove(9)))
  {
    es, s := StartedDuringPass(c);
    es, s := Extend(c, es, s, JobStep(9, RunPod));
    es, s := Extend(c, es, s, GcStep(GcList));
  }

  /** The same job running its pod after the pass listed the pods is spared. */
  lemma RunningPodSpared(c: Config) returns (es: seq<Event>, s: Node)
    requires 0 < c.portMin <= c.portMax
    ensures Run(c, es) == Some(s) && s.gc.sweep.Cleaning?
    ensures s.jobs == map[9 := Job(Hosting, Some(c.portMin))] && 9 in s.pods
    ensures StartedSinceView(es, 9) && !Enabled(c, s, GcStep(GcRemove(9)))
  {
    es, s := StartedDuringPass(c);
    es, s := Extend(c, es, s, GcStep(GcList));
    es, s := Extend(c, es, s, JobStep(9, RunPod));
    SinceMeans(c, es, 9);
  }

  // ---- Crashing ----

  /** A checkpoint that wrote its first status is stopped as if it were a workload: the node crashes. */
  lemma StopCrashes(c: Config) returns (es: seq<Event>, s: Node)
    ensures es == [JobStep(1, Issue), JobStep(1, Start), Request(1, StopWorkload)]
    ensures Run(c, es) == Some(s) && s.crashed
  {
    var s1 := Next(c, Init(), JobStep(1, Issue));
    var s2 := Next(c, s1, JobStep(1, Start));
    RunSplit(c, [], JobStep(1, Issue));
    RunSplit(c, [JobStep(1, Issue)], JobStep(1, Start));
    RunSplit(c, [JobStep(1, Issue)] + [JobStep(1, Start)], Request(1, StopWorkload));
    es, s := [JobStep(1, Issue)] + [JobStep(1, Start)] + [Request(1, StopWorkload)], Next(c, s2, Request(1, StopWorkload));
  }

  /** A checkpoint is stopped when its id is handed out and nothing is written under it yet: no stop names
      a stored checkpoint, and the job's first write crashes the node. */
  lemma FirstWriteCrashes(c: Config) returns (es: seq<Event>, s: Node)
    ensures es == [JobStep(1, Issue), Request(1, StopWorkload), JobStep(1, Start)]
    ensures Run(c, es) == Some(s) && s.crashed
    ensures forall i | 0 <= i < |es| && Run(c, es[..i]).Some? :: !StopsCheckpoint(Run(c, es[..i]).value, es[i])
  {
    var s1 := Next(c, Init(), JobStep(1, Issue));
    var s2 := Next(c, s1, Request(1, StopWorkload));
    RunSplit(c, [], JobStep(1, Issue));
    RunSplit(c, [JobStep(1, Issue)], Request(1, StopWorkload));
    RunSplit(c, [JobStep(1, Issue)] + [Request(1, StopWorkload)], JobStep(1, Start));
    es, s := [JobStep(1, Issue)] + [Request(1, StopWorkload)] + [JobStep(1, Start)], Next(c, s2, JobStep(1, Start));
    assert es[..1] == [JobStep(1, Issue)] && !IsCheckpoint(s1, 1);
  }

  // ---- The port a running instance is shown with ----

  /** Instance `id` draws port `p` with the entry of an earlier attempt in place. */
  lemma DrawAgain(c: Config, es: seq<Event>, s: Node, id: Id, old_: Port, p: Port) returns (es': seq<Event>, s': Node)
    requires Leads(c, es, s)
    requires s.phase.Reconciling? && id in s.phase.pcs && s.phase.pcs[id] == Todo(PENDING)
    requires id in s.store && s.store[id] == OfWorkload(Creating, old_) && Attempts(s, id) == 1
    requires c.portMin <= p <= c.portMax && p !in s.taken
    ensures Leads(c, es', s')
    ensures s' == WriteBack(s, id, Local(Some(OfWorkload(Creating, old_)), 1, Lookup(s.ran, id), SavePort(p), {p}, {}, false))
  {
    var ran, entry := Lookup(s.ran, id), Some(OfWorkload(Creating, old_));
    var l1 := Local(entry, 1, ran, Mark, {}, {}, false);
    var l2 := Local(entry, 1, ran, Allocate, {}, {}, false);
    var l3 := Local(entry, 1, ran, SavePort(p), {p}, {}, false);
    es', s' := GoTo(c, es, s, id, Quiet, l1);
    es', s' := GoTo(c, es', s', id, Quiet, l2);
    WriteTwice(s, id, l1, l2);
    es', s' := GoTo(c, es', s', id, Drawn(p), l3);
    WriteTwice(s, id, l2, l3);
  }

  /** One instance whose first attempt ran on port 1 and failed, at the start of its second. */
  lemma OneFailed(c: Config) returns (es: seq<Event>, s: Node)
    requires c.portMin == 0 && 1 <= c.portMax
    ensures Leads(c, es, s)
    ensures s.store == map[7 := OfWorkload(Creating, 1)] && s.attempts == map[7 := 1] && s.taken == {} && s.ran == map[]
    ensures s.phase == Reconciling(map[7 := Done]) && s.rows == map[7 := Row(PENDING, NO_PORT)]
  {
    es, s := OnePending(c);
    es, s := DrawPort(c, es, s, 7, 1);
    es, s := LaunchFails(c, es, s, 7, 1);
    es, s := TornDown(c, es, s, 7, 1);
  }

  /** Instance `id` holds port `p`, its RunWorkload fails, and the port is given back. */
  lemma LaunchFails(c: Config, es: seq<Event>, s: Node, id: Id, p: Port) returns (es': seq<Event>, s': Node)
    requires Leads(c, es, s) && p != NO_PORT
    requires s.phase.Reconciling? && id in s.phase.pcs && s.phase.pcs[id] == SavePort(p)
    requires id in s.store && s.store[id] == OfWorkload(Creating, NO_PORT) && id !in s.ran
    ensures Leads(c, es', s')
    ensures s'.store == s.store[id := OfWorkload(Creating, p)] && s'.rows == s.rows && s'.ran == s.ran && s'.jobs == s.jobs
    ensures s'.phase == Reconciling(s.phase.pcs[id := TearDown(p)]) && s'.taken == s.taken - {p}
    ensures s'.attempts == s.attempts[id := Attempts(s, id)]
  {
    var n, entry := Attempts(s, id), Some(OfWorkload(Creating, p));
    var l1 := Local(entry, n, None, Launch(p), {}, {}, false);
    var l2 := Local(entry, n, None, Undo(p), {}, {}, false);
    var l3 := Local(entry, n, None, TearDown(p), {}, {p}, false);
    es', s' := GoTo(c, es, s, id, Quiet, l1);
    es', s' := GoTo(c, es', s', id, RunFailed, l2);
    WriteTwice(s, id, l1, l2);
    es', s' := GoTo(c, es', s', id, Quiet, l3);
    WriteTwice(s, id, l2, l3);
  }

  /** The failed pod of instance `id` is removed, and the attempt counted. */
  lemma TornDown(c: Config, es: seq<Event>, s: Node, id: Id, p: Port) returns (es': seq<Event>, s': Node)
    requires Leads(c, es, s)
    requires s.phase.Reconciling? && id in s.phase.pcs && s.phase.pcs[id] == TearDown(p)
    ensures Leads(c, es', s')
    ensures s'.store == s.store && s'.rows == s.rows && s'.ran == s.ran && s'.taken == s.taken
    ensures s'.phase == Reconciling(s.phase.pcs[id := Done])
    ensures s'.attempts == s.attempts[id := Attempts(s, id) + 1]
  {
    var l := Local(Lookup(s.store, id), Attempts(s, id) + 1, Lookup(s.ran, id), Done, {}, {}, false);
    es', s' := GoTo(c, es, s, id, Quiet, l);
  }

  /** The same instance, discovered again after a tick whose report failed. */
  lemma OneRetried(c: Config) returns (es: seq<Event>, s: Node)
    requires c.portMin == 0 && 1 <= c.portMax
    ensures Leads(c, es, s)
    ensures s.store == map[7 := OfWorkload(Creating, 1)] && s.attempts == map[7 := 1] && s.taken == {} && s.ran == map[]
    ensures s.phase == Reconciling(map[7 := Todo(PENDING)])
  {
    es, s := OneFailed(c);
    es, s := Extend(c, es, s, Tick(View));
    es, s := Extend(c, es, s, Tick(Build(7)));
    es, s := Extend(c, es, s, Tick(ReportFailed(Nothing)));
    es, s := Extend(c, es, s, Tick(Discover));
  }

  /** Instance `id` runs on port 0 while its entry shows port `shown`. */
  lemma RunsOnZero(c: Config, es: seq<Event>, s: Node, id: Id, shown: Port) returns (es': seq<Event>, s': Node)
    requires Leads(c, es, s)
    requires s.phase.Reconciling? && id in s.phase.pcs && s.phase.pcs[id] == SavePort(0)
    requires id in s.store && s.store[id] == OfWorkload(Creating, shown) && id !in s.ran
    ensures Leads(c, es', s')
    ensures s'.store == s.store[id := OfWorkload(Running, shown)] && s'.ran == s.ran[id := 0]
  {
    var n, entry := Attempts(s, id), Some(OfWorkload(Creating, shown));
    var l1 := Local(entry, n, None, Launch(0), {}, {}, false);
    var l2 := Local(entry, n, Some(0), Confirm(0), {}, {}, false);
    var l3 := Local(Some(OfWorkload(Running, shown)), n, Some(0), Done, {}, {}, false);
    es', s' := GoTo(c, es, s, id, Quiet, l1);
    es', s' := GoTo(c, es', s', id, RunOk, l2);
    WriteTwice(s, id, l1, l2);
    es', s' := GoTo(c, es', s', id, Quiet, l3);
    WriteTwice(s, id, l2, l3);
  }

  /** With 0 in a range of more than one port, the second attempt can run on 0 while the store keeps, and
      reports, the port of the first. */
  lemma WrongPortShown(c: Config) returns (es: seq<Event>, s: Node)
    requires c.portMin == 0 && 1 <= c.portMax
    ensures Run(c, es) == Some(s) && !PortTrue(TrackOf(s, 7))
    ensures s.store == map[7 := OfWorkload(Running, 1)] && s.ran == map[7 := 0]
  {
    es, s := OneRetried(c);
    es, s := DrawAgain(c, es, s, 7, 1, 0);
    es, s := RunsOnZero(c, es, s, 7, 1);
  }

  /** Running instances are shown with the port they run on, in every run, if and only if the range
      starts above 0 or holds nothing but 0. */
  lemma RunningPortTrueIff(c: Config)
    ensures (forall es, id :: Run(c, es).Some? ==> PortTrue(TrackOf(Run(c, es).value, id))) <==>
            0 < c.portMin || c.portMax == 0
  {
    if Writable(c) {
      forall es, id | Run(c, es).Some?
        ensures PortTrue(TrackOf(Run(c, es).value, id))
      {
        RunningPortTrue(c, es, id);
      }
    } else {
      var es, s := WrongPortShown(c);
      assert Run(c, es).Some?;
    }
  }
}
