/** The node agent as a state machine: reconciler ticks, stop requests, checkpoint jobs and the
    garbage collector, interleaved one shared-memory access at a time, together with the rows the
    control plane keeps for this node.

    An `Event` is one atomic action of one actor together with the outcome of the external call it
    makes (a failed RPC, a port drawn, a container that did not start). Every theorem about runs
    quantifies over all event sequences, hence over all schedules and all failures. */
module NodeProtocol {
  import opened Option
  import opened Status

  const MAX_ATTEMPTS := 5

  /** Instance states as the control plane stores them. */
  datatype InstanceState = PENDING | CREATING | RUNNING | DELETING | DELETED | CREATION_FAILED

  datatype Row = Row(state: InstanceState, port: Port)

  datatype Report = Report(state: InstanceState, port: Port)

  /** The enum lookup by name in the reports: an unknown name becomes value 0. */
  function ToInstanceState(s: WorkloadState): InstanceState {
    match s
    case Unset => PENDING
    case Creating => CREATING
    case Running => RUNNING
    case Deleted => DELETED
    case CreationFailed => CREATION_FAILED
  }

  predicate Terminal(s: WorkloadState) {
    s == Deleted || s == CreationFailed
  }

  // ---- The control plane's end ----

  /** Rows after a report was applied: rows reported `Deleted` go, other reported rows take state and port. */
  function Apply(rows: map<Id, Row>, items: map<Id, Report>): map<Id, Row> {
    map id | id in rows && !(id in items && items[id].state == DELETED) ::
      if id in items then Row(items[id].state, items[id].port) else rows[id]
  }

  /** Rows after the update half only: the deletes are a second statement, outside any transaction. */
  function ApplyUpdates(rows: map<Id, Row>, items: map<Id, Report>): map<Id, Row> {
    map id | id in rows ::
      if id in items && items[id].state != DELETED then Row(items[id].state, items[id].port) else rows[id]
  }

  /** How far a report call that returned an error got at the other end. */
  datatype Applied = Nothing | UpdatesOnly | Everything

  function ApplyPartly(rows: map<Id, Row>, items: map<Id, Report>, applied: Applied): map<Id, Row> {
    match applied
    case Nothing => rows
    case UpdatesOnly => ApplyUpdates(rows, items)
    case Everything => Apply(rows, items)
  }

  // ---- One instance's goroutine ----

  /** Where the goroutine that reconciles one discovered instance stands. */
  datatype Pc =
    | Todo(seen: InstanceState)   // about to look at attempts and store
    | Mark                        // about to record Creating
    | Allocate                    // about to draw a port
    | SavePort(port: Port)        // holds a port, about to record it
    | Launch(port: Port)          // RunWorkload in flight
    | Undo(port: Port)            // RunWorkload failed, about to free the port
    | TearDown(port: Port)        // port freed, RemoveWorkload of the failed pod in flight
    | Confirm(port: Port)         // RunWorkload succeeded, about to record Running
    | Remove(seen: InstanceState) // RemoveWorkload in flight
    | MarkDeleted                 // removed, about to record Deleted
    | Done

  /** Outcome of the external call a goroutine step makes, if it makes one. */
  datatype Outcome =
    | Quiet
    | Drawn(port: Port)
    | NoPort
    | RunOk
    | RunFailed
    | Removed
    | NotFound
    | Failed
    | Healthy
    | Unhealthy

  /** What a reconciling goroutine touches: its own instance's entry and counters, and one port. */
  datatype Local = Local(
    entry: Option<Status>,
    attempts: nat,
    ran: Option<Port>,
    pc: Pc,
    takes: set<Port>,
    gives: set<Port>,
    panics: bool
  )

  predicate Possible(c: Config, taken: set<Port>, pc: Pc, out: Outcome) {
    match pc
    case Todo(RUNNING) => out == Healthy || out == Unhealthy || out == Failed
    case Todo(_) => out == Quiet
    case Allocate =>
      out == NoPort || (out.Drawn? && c.portMin <= out.port <= c.portMax && out.port !in taken)
    case Launch(_) => out == RunOk || out == RunFailed
    case Remove(_) => out == Removed || out == NotFound || out == Failed
    case Done => false
    case _ => out == Quiet
  }

  /** A store write; the source panics when the update lacks a part the entry has. */
  function Record(l: Local, st: Status): Local {
    if Updatable(l.entry, st) then l.(entry := Some(Merge(l.entry, st))) else l.(panics := true)
  }

  function RecordState(l: Local, state: WorkloadState): Local {
    Record(l, OfWorkload(state, NO_PORT))
  }

  /** The first look at a discovered instance. */
  function Decide(l: Local, seen: InstanceState, out: Outcome): Local {
    match seen
    case PENDING | CREATING =>
      if l.attempts >= MAX_ATTEMPTS then
        RecordState(l, CreationFailed).(pc := Done)
      else if l.entry.Some? && l.entry.value.workload.Some? && l.entry.value.workload.value.state != Creating then
        l.(pc := Done)
      else
        l.(pc := Mark)
    case DELETING | CREATION_FAILED => l.(pc := Remove(seen))
    case RUNNING => l.(pc := if out == Unhealthy then Remove(seen) else Done)
    case DELETED => l.(pc := Done)
  }

  /** One step of the goroutine, given the outcome of its external call. */
  function Advance(l: Local, out: Outcome): Local {
    match l.pc
    case Todo(seen) => Decide(l, seen, out)
    case Mark => RecordState(l, Creating).(pc := Allocate)
    case Allocate =>
      if out.Drawn? then
        l.(takes := {out.port}, pc := SavePort(out.port))
      else
        l.(attempts := l.attempts + 1, pc := Done)
    case SavePort(port) => Record(l, OfWorkload(Unset, port)).(pc := Launch(port))
    case Launch(port) =>
      if out == RunOk then l.(ran := Some(port), pc := Confirm(port)) else l.(pc := Undo(port))
    case Undo(port) => l.(gives := {port}, pc := TearDown(port))
    case TearDown(_) => l.(attempts := l.attempts + 1, pc := Done) // an error is only logged
    case Confirm(_) => RecordState(l, Running).(pc := Done)
    case Remove(seen) =>
      // only the handlers of DELETING and RUNNING take "not found" for an answer
      l.(pc := if out == Removed || (out == NotFound && seen != CREATION_FAILED) then MarkDeleted else Done)
    case MarkDeleted => RecordState(l, Deleted).(pc := Done)
    case Done => l
  }

  // ---- The node ----

  datatype Phase =
    | Idle
    | Reconciling(pcs: map<Id, Pc>)
      // `late` (then `tardy`): ids stopped since their report item was built
    | Collecting(todo: set<Id>, items: map<Id, Report>, late: set<Id>)
    | Forgetting(left: set<Id>, sent: map<Id, Report>, tardy: set<Id>)

  /** `Issued`: the id is handed out, nothing is written yet; `Hosting`: its pod was run. */
  datatype JobPc = Issued | Pulling | Saving | Working | Hosting | Finished

  /** A checkpoint job and the port it drew. */
  datatype Job = Job(pc: JobPc, port: Option<Port>)

  datatype Sweep =
    | Resting
    | Sweeping(visit: set<Id>)
    | Freeing(id: Id, port: Port, rest: set<Id>)
    | Cleaning(listed: set<Id>) // the pods the pass goes through

  /** The garbage collector; `since` are the jobs started after the current pass took its view. */
  datatype Gc = Gc(sweep: Sweep, keep: set<Id>, since: set<Id>)

  datatype Config = Config(portMin: nat, portMax: nat, retention: nat)

  datatype Node = Node(
    store: map<Id, Status>,
    attempts: map<Id, nat>,
    taken: set<Port>,
    rows: map<Id, Row>,
    phase: Phase,
    jobs: map<Id, Job>,
    pods: set<Id>,      // checkpoint pods on the node, by checkpoint id
    gc: Gc,
    now: nat,
    born: set<Id>,      // instance ids ever created
    ran: map<Id, Port>, // instances whose RunWorkload succeeded, with their port
    crashed: bool       // a nil status was dereferenced, or a view pointed at a vanished entry; nothing follows
  )

  datatype TickAct =
    | Discover
    | View
    | Build(id: Id)
    | ReportOk
    | ReportFailed(applied: Applied)
    | Forget(id: Id)
    | EndTick

  datatype RequestAct = StopWorkload | RunFlavorVersion | DeleteInstance

  datatype JobAct =
    | Issue
    | Start
    | Draw(drawn: Option<Port>)
    | Save
    | RunPod
    | Finish(state: CheckpointState, message: string)

  datatype GcAct = GcView | GcVisit(id: Id) | GcFree(id: Id) | GcList | GcRemove(id: Id) | GcEnd

  datatype Event =
    | Tick(t: TickAct)
    | Go(id: Id, out: Outcome)
    | Request(id: Id, r: RequestAct)
    | JobStep(id: Id, j: JobAct)
    | GcStep(g: GcAct)
    | Clock

  function Init(): Node {
    Node(map[], map[], {}, map[], Idle, map[], {}, Gc(Resting, {}, {}), 0, {}, map[], false)
  }

  function Attempts(s: Node, id: Id): nat {
    if id in s.attempts then s.attempts[id] else 0
  }

  function LocalOf(s: Node, id: Id, pc: Pc): Local {
    Local(Lookup(s.store, id), Attempts(s, id), Lookup(s.ran, id), pc, {}, {}, false)
  }

  function Set<V>(m: map<Id, V>, id: Id, v: Option<V>): map<Id, V> {
    if v.Some? then m[id := v.value] else m
  }

  function WriteBack(s: Node, id: Id, l: Local): Node
    requires s.phase.Reconciling?
  {
    s.(store := Set(s.store, id, l.entry),
       attempts := s.attempts[id := l.attempts],
       ran := Set(s.ran, id, l.ran),
       taken := s.taken + l.takes - l.gives,
       phase := Reconciling(s.phase.pcs[id := l.pc]),
       crashed := s.crashed || l.panics)
  }

  function Crash(s: Node): Node {
    s.(crashed := true)
  }

  function Put(s: Node, id: Id, st: Status): Node {
    if Updatable(Lookup(s.store, id), st) then
      s.(store := s.store[id := Merge(Lookup(s.store, id), st)])
    else
      Crash(s)
  }

  predicate IsWorkload(s: Node, id: Id) {
    id in s.store && s.store[id].workload.Some?
  }

  predicate IsCheckpoint(s: Node, id: Id) {
    id in s.store && s.store[id].checkpoint.Some?
  }

  // ---- The tick outside the goroutines ----

  predicate TickEnabled(s: Node, t: TickAct) {
    match t
    case Discover => s.phase.Idle?
    case View => s.phase.Reconciling? && forall id | id in s.phase.pcs :: s.phase.pcs[id] == Done
    case Build(id) => s.phase.Collecting? && id in s.phase.todo
    case ReportOk => s.phase.Collecting? && s.phase.todo == {}
    case ReportFailed(_) => s.phase.Collecting? && s.phase.todo == {}
    case Forget(id) => s.phase.Forgetting? && id in s.phase.left
    case EndTick => s.phase.Forgetting? && s.phase.left == {}
  }

  function TickNext(s: Node, t: TickAct): Node
    requires TickEnabled(s, t)
  {
    match t
    case Discover => s.(phase := Reconciling(map id | id in s.rows :: Todo(s.rows[id].state)))
    case View => s.(phase := Collecting(set id | id in s.store && IsWorkload(s, id), map[], {}))
    case Build(id) =>
      if !IsWorkload(s, id) then Crash(s) else
      var w := s.store[id].workload.value;
      s.(phase := Collecting(s.phase.todo - {id},
                             s.phase.items[id := Report(ToInstanceState(w.state), w.port)],
                             s.phase.late - {id}))
    case ReportOk =>
      s.(rows := Apply(s.rows, s.phase.items),
         phase := Forgetting(s.phase.items.Keys, s.phase.items, s.phase.late))
    case ReportFailed(applied) => s.(rows := ApplyPartly(s.rows, s.phase.items, applied), phase := Idle)
    case Forget(id) =>
      if !IsWorkload(s, id) then Crash(s) else
      // the view's pointer leads to the live status
      s.(store := if Terminal(s.store[id].workload.value.state) then s.store - {id} else s.store,
         phase := s.phase.(left := s.phase.left - {id}))
    case EndTick => s.(phase := Idle)
  }

  // ---- Requests: stopping a workload on the node, running and deleting an instance at the control plane ----

  predicate RequestEnabled(s: Node, id: Id, r: RequestAct) {
    match r
    case StopWorkload => true // any id, also that of a checkpoint
    case RunFlavorVersion => id !in s.born && id !in s.jobs && id !in s.store // a fresh UUID
    case DeleteInstance => id in s.rows // an allowance: the node handles DELETING, nothing yet writes it
  }

  function NoteStop(p: Phase, id: Id): Phase {
    match p
    case Collecting(todo, items, late) => Collecting(todo, items, late + {id})
    case Forgetting(left, sent, tardy) => Forgetting(left, sent, tardy + {id})
    case _ => p
  }

  function RequestNext(s: Node, id: Id, r: RequestAct): Node
    requires RequestEnabled(s, id, r)
  {
    match r
    case StopWorkload =>
      // whatever pod carries the id is removed first
      Put(s, id, OfWorkload(Deleted, NO_PORT)).(phase := NoteStop(s.phase, id), pods := s.pods - {id})
    case RunFlavorVersion => s.(rows := s.rows[id := Row(PENDING, NO_PORT)], born := s.born + {id})
    case DeleteInstance => s.(rows := s.rows[id := s.rows[id].(state := DELETING)])
  }

  // ---- Checkpoint jobs ----

  predicate JobEnabled(c: Config, s: Node, id: Id, j: JobAct) {
    match j
    case Issue => id !in s.jobs && id !in s.born && id !in s.store // a fresh UUID
    case Start => id in s.jobs && s.jobs[id].pc == Issued
    case Draw(drawn) =>
      && id in s.jobs && s.jobs[id].pc == Pulling
      && (drawn.Some? ==> c.portMin <= drawn.value <= c.portMax && drawn.value !in s.taken)
    case Save => id in s.jobs && s.jobs[id].pc == Saving
    case RunPod => id in s.jobs && s.jobs[id].pc == Working
    case Finish(state, _) =>
      && id in s.jobs && (s.jobs[id].pc == Pulling || s.jobs[id].pc == Working || s.jobs[id].pc == Hosting)
      && state != InProgress && state != Unspecified
  }

  /** The first write of a job; a stop request may have been there before. */
  function Started(s: Node, id: Id): Node {
    var st := OfCheckpoint(InProgress, "", None, NO_PORT);
    if Updatable(Lookup(s.store, id), st) then Put(s, id, st).(jobs := s.jobs[id := Job(Pulling, None)]) else Crash(s)
  }

  function JobNext(c: Config, s: Node, id: Id, j: JobAct): Node
    requires JobEnabled(c, s, id, j)
  {
    match j
    case Issue => s.(jobs := s.jobs[id := Job(Issued, None)])
    case Start => Started(s, id).(gc := s.gc.(since := s.gc.since + {id}))
    case Draw(None) => s
    case Draw(Some(p)) => s.(taken := s.taken + {p}, jobs := s.jobs[id := Job(Saving, Some(p))])
    case Save =>
      var p := if s.jobs[id].port.Some? then s.jobs[id].port.value else NO_PORT;
      Put(s, id, OfCheckpoint(InProgress, "", None, p)).(jobs := s.jobs[id := s.jobs[id].(pc := Working)])
    case RunPod => s.(pods := s.pods + {id}, jobs := s.jobs[id := s.jobs[id].(pc := Hosting)])
    case Finish(state, message) =>
      Put(s, id, OfCheckpoint(state, message, Some(s.now), NO_PORT)).(jobs := s.jobs[id := s.jobs[id].(pc := Finished)])
  }

  // ---- Garbage collection ----

  predicate GcEnabled(s: Node, g: GcAct) {
    match g
    case GcView => s.gc.sweep.Resting?
    case GcVisit(id) => s.gc.sweep.Sweeping? && id in s.gc.sweep.visit
    case GcFree(id) => s.gc.sweep.Freeing? && s.gc.sweep.id == id
    case GcList => s.gc.sweep.Sweeping? && s.gc.sweep.visit == {}
    case GcRemove(id) => s.gc.sweep.Cleaning? && id in s.gc.sweep.listed && id in s.pods && id !in s.gc.keep
    case GcEnd => s.gc.sweep.Cleaning?
  }

  predicate Expired(c: Config, now: nat, ck: CheckpointStatus) {
    ck.completedAt.Some? && now > ck.completedAt.value + c.retention
  }

  /** One round of the loop over the view: keep running jobs, drop expired statuses. */
  function Visited(c: Config, s: Node, id: Id, rest: set<Id>): Node
    requires IsCheckpoint(s, id)
  {
    var ck := s.store[id].checkpoint.value;
    var expired := Expired(c, s.now, ck);
    s.(store := if expired then s.store - {id} else s.store,
       gc := Gc(if expired then Freeing(id, ck.port, rest) else Sweeping(rest),
                if ck.state == InProgress then s.gc.keep + {id} else s.gc.keep,
                s.gc.since))
  }

  function GcNext(c: Config, s: Node, g: GcAct): Node
    requires GcEnabled(s, g)
  {
    match g
    case GcView => s.(gc := Gc(Sweeping(set id | id in s.store && IsCheckpoint(s, id)), {}, {}))
    case GcVisit(id) => if IsCheckpoint(s, id) then Visited(c, s, id, s.gc.sweep.visit - {id}) else Crash(s)
    case GcFree(_) => s.(taken := s.taken - {s.gc.sweep.port}, gc := s.gc.(sweep := Sweeping(s.gc.sweep.rest)))
    case GcList => s.(gc := s.gc.(sweep := Cleaning(s.pods)))
    case GcRemove(id) => s.(pods := s.pods - {id})
    case GcEnd => s.(gc := s.gc.(sweep := Resting))
  }

  // ---- All steps ----

  predicate Enabled(c: Config, s: Node, e: Event) {
    !s.crashed && match e
    case Tick(t) => TickEnabled(s, t)
    case Go(id, out) => s.phase.Reconciling? && id in s.phase.pcs && Possible(c, s.taken, s.phase.pcs[id], out)
    case Request(id, r) => RequestEnabled(s, id, r)
    case JobStep(id, j) => JobEnabled(c, s, id, j)
    case GcStep(g) => GcEnabled(s, g)
    case Clock => true
  }

  function Next(c: Config, s: Node, e: Event): Node
    requires Enabled(c, s, e)
  {
    match e
    case Tick(t) => TickNext(s, t)
    case Go(id, out) => WriteBack(s, id, Advance(LocalOf(s, id, s.phase.pcs[id]), out))
    case Request(id, r) => RequestNext(s, id, r)
    case JobStep(id, j) => JobNext(c, s, id, j)
    case GcStep(g) => GcNext(c, s, g)
    case Clock => s.(now := s.now + 1)
  }

  /** The state a run ends in; `None` when some event was not enabled where it stands. */
  function Run(c: Config, es: seq<Event>): Option<Node> {
    if es == [] then
      Some(Init())
    else
      match Run(c, es[..|es| - 1])
      case None => None
      case Some(s) => if Enabled(c, s, es[|es| - 1]) then Some(Next(c, s, es[|es| - 1])) else None
  }
}
