/** The control plane's build pipeline and its archive worker as one state machine: requests, build
    jobs with their retries, and any number of archive passes, interleaved. Requests and transactions
    are atomic; a database write that reports an error has not been applied. */
module Pipeline {
  import opened Option

  type Id = nat

  const MAX_ATTEMPTS := 5

  datatype BuildStatus = PENDING | IMAGE_BUILD | IMAGE_BUILD_FAILED | CHECKPOINT_BUILD | CHECKPOINT_BUILD_FAILED | COMPLETED

  datatype Kind = Image | Checkpoint

  function Building(k: Kind): BuildStatus {
    match k case Image => IMAGE_BUILD case Checkpoint => CHECKPOINT_BUILD
  }

  function Failed(k: Kind): BuildStatus {
    match k case Image => IMAGE_BUILD_FAILED case Checkpoint => CHECKPOINT_BUILD_FAILED
  }

  /** A job between its attempts, or within one. */
  datatype Stage =
    | Waiting(tries: nat)
    | Working(attempt: nat)
    | Pushed(attempt: nat)       // base image pushed, about to insert the checkpoint job
    | SawCompleted(attempt: nat) // the node reported the checkpoint completed, about to record it
    | Failing(attempt: nat)      // the attempt returned an error, the deferred function is about to run
    | Over                       // no further status write

  datatype Job = Job(kind: Kind, version: Id, stage: Stage)

  datatype Version = Version(flavor: Id, status: BuildStatus, uploaded: bool)

  datatype Flavor = Flavor(chunk: Id, deleted: bool)

  /** The statuses in which the archive worker takes a version for not being built. */
  predicate Settled(b: BuildStatus) {
    b == PENDING || b == IMAGE_BUILD_FAILED || b == CHECKPOINT_BUILD_FAILED || b == COMPLETED
  }

  /** Where an archive pass stands, with what it read earlier. `todo` maps the deleted flavors it has
      still to visit to their chunks. */
  datatype Pass =
    | Visiting(todo: map<Id, Id>)
    | Scanning(f: Id, c: Id, left: map<Id, BuildStatus>, todo: map<Id, Id>) // versions as read with the flavor
    | Moving(v: Id, f: Id, c: Id, left: map<Id, BuildStatus>, todo: map<Id, Id>) // counted no instances of v
    | Bare(f: Id, c: Id, todo: map<Id, Id>)  // read the flavor again: no versions
    | AtChunk(c: Id, todo: map<Id, Id>)
    | Childless(c: Id, todo: map<Id, Id>)    // read the chunk: no flavors

  datatype System = System(
    chunks: map<Id, bool>, // whether marked deleted
    flavors: map<Id, Flavor>,
    versions: map<Id, Version>,
    instances: map<Id, Id>, // to their version
    jobs: map<Id, Job>,
    passes: map<Id, Pass>,
    oldChunks: set<Id>, oldFlavors: set<Id>, oldVersions: set<Id>, // the archive tables
    // what happened, for stating properties
    current: map<Id, Id>, // the last job inserted for a version
    based: set<Id>,       // versions whose base image was pushed
    polled: set<Id>,      // versions whose checkpoint was seen completed
    lost: set<Id>         // versions whose failure could not be recorded
  )

  datatype Request =
    | CreateChunk(c: Id)
    | CreateFlavor(f: Id, c: Id)
    | CreateVersion(v: Id, f: Id)
    | Build(v: Id, changeset: bool, inserted: bool, job: Id)
    | RunVersion(i: Id, v: Id)
    | RemoveInstance(i: Id)
    | DeleteFlavor(f: Id)
    | DeleteChunk(c: Id)

  datatype JobAct =
    | Start
    | PushOk
    | InsertNext(ok: bool, next: Id)
    | PollCompleted
    | RecordCompleted(ok: bool)
    | AttemptFails
    | Retry
    | GiveUp(recorded: bool)

  datatype PassAct =
    | List
    | ReadFlavor(f: Id)
    | SkipFlavor(f: Id)
    | Count(v: Id)
    | SkipVersion(v: Id)
    | MoveVersion(ok: bool)
    | ReadAgain(ok: bool)
    | MoveFlavor(ok: bool)
    | ReadChunk(ok: bool)
    | MoveChunk(ok: bool)

  datatype Event = Asked(r: Request) | Worked(j: Id, a: JobAct) | Archiving(p: Id, x: PassAct)

  function Init(): System {
    System(map[], map[], map[], map[], map[], map[], {}, {}, {}, map[], {}, {}, {})
  }

  // ---- Requests ----

  predicate Asks(s: System, r: Request) {
    match r
    case CreateChunk(c) => c !in s.chunks && c !in s.oldChunks
    case CreateFlavor(f, c) => f !in s.flavors && f !in s.oldFlavors && c in s.chunks
    case CreateVersion(v, f) => v !in s.versions && v !in s.oldVersions && f in s.flavors && !s.flavors[f].deleted
    case Build(v, _, _, job) => v in s.versions && s.versions[v].flavor in s.flavors && job !in s.jobs
    case RunVersion(i, v) => i !in s.instances && v in s.versions && s.versions[v].flavor in s.flavors
    case RemoveInstance(i) => i in s.instances
    case DeleteFlavor(f) => f in s.flavors
    case DeleteChunk(c) => c in s.chunks
  }

  /** The job a build request asks for; none while a job is at work or all is done. */
  function Wanted(b: BuildStatus): Option<Kind> {
    match b
    case PENDING => Some(Image)
    case IMAGE_BUILD_FAILED => Some(Image)
    case CHECKPOINT_BUILD_FAILED => Some(Checkpoint)
    case _ => None
  }

  /** A new job and the status that goes with it, in one transaction. */
  function Inserted(s: System, v: Id, uploaded: bool, k: Kind, j: Id): System
    requires v in s.versions
  {
    s.(versions := s.versions[v := Version(s.versions[v].flavor, Building(k), uploaded)],
       jobs := s.jobs[j := Job(k, v, Waiting(0))],
       current := s.current[v := j])
  }

  function BuildVersion(s: System, v: Id, changeset: bool, inserted: bool, j: Id): System
    requires v in s.versions && s.versions[v].flavor in s.flavors
  {
    var version := s.versions[v];
    if s.flavors[version.flavor].deleted || (!version.uploaded && !changeset) then s
    else if inserted && Wanted(version.status).Some? then Inserted(s, v, true, Wanted(version.status).value, j)
    else s.(versions := s.versions[v := version.(uploaded := true)])
  }

  function Answer(s: System, r: Request): System
    requires Asks(s, r)
  {
    match r
    case CreateChunk(c) => s.(chunks := s.chunks[c := false])
    case CreateFlavor(f, c) => s.(flavors := s.flavors[f := Flavor(c, false)]) // the chunk's deletion is not looked at
    case CreateVersion(v, f) => s.(versions := s.versions[v := Version(f, PENDING, false)])
    case Build(v, changeset, inserted, job) => BuildVersion(s, v, changeset, inserted, job)
    case RunVersion(i, v) => if s.flavors[s.versions[v].flavor].deleted then s else s.(instances := s.instances[i := v])
    case RemoveInstance(i) => s.(instances := s.instances - {i})
    case DeleteFlavor(f) => s.(flavors := s.flavors[f := s.flavors[f].(deleted := true)])
    case DeleteChunk(c) =>
      if s.chunks[c] then s else
      s.(chunks := s.chunks[c := true],
         flavors := map f | f in s.flavors :: if s.flavors[f].chunk == c then s.flavors[f].(deleted := true) else s.flavors[f])
  }

  // ---- Build jobs ----

  /** The step a job can take next, as far as the job itself decides. */
  predicate Ready(job: Job, a: JobAct) {
    match a
    case Start => job.stage.Waiting? && job.stage.tries < MAX_ATTEMPTS
    case PushOk => job.stage.Working? && job.kind == Image
    case InsertNext(_, _) => job.stage.Pushed?
    case PollCompleted => job.stage.Working? && job.kind == Checkpoint
    case RecordCompleted(_) => job.stage.SawCompleted?
    case AttemptFails => job.stage.Working?
    case Retry => job.stage.Failing? && job.stage.attempt < MAX_ATTEMPTS
    case GiveUp(_) => job.stage.Failing? && job.stage.attempt >= MAX_ATTEMPTS
  }

  predicate Works(s: System, j: Id, a: JobAct) {
    j in s.jobs && Ready(s.jobs[j], a) && (a.InsertNext? ==> a.next !in s.jobs)
  }

  /** What a step of a job does: its new stage, and what it writes about its version. */
  datatype Effect = Effect(
    stage: Stage, status: Option<BuildStatus>, next: Option<Id>, based: bool, polled: bool, lost: bool)

  function JobEffect(job: Job, a: JobAct): Effect
    requires Ready(job, a)
  {
    match a
    case Start => Effect(Working(job.stage.tries + 1), None, None, false, false, false)
    case PushOk => Effect(Pushed(job.stage.attempt), None, None, true, false, false)
    case InsertNext(ok, next) =>
      if ok then Effect(Over, Some(CHECKPOINT_BUILD), Some(next), false, false, false)
      else Effect(Failing(job.stage.attempt), None, None, false, false, false)
    case PollCompleted => Effect(SawCompleted(job.stage.attempt), None, None, false, true, false)
    case RecordCompleted(ok) =>
      if ok then Effect(Over, Some(COMPLETED), None, false, false, false)
      else Effect(Failing(job.stage.attempt), None, None, false, false, false)
    case AttemptFails => Effect(Failing(job.stage.attempt), None, None, false, false, false)
    case Retry => Effect(Waiting(job.stage.attempt), None, None, false, false, false)
    case GiveUp(recorded) =>
      if recorded then Effect(Over, Some(Failed(job.kind)), None, false, false, false)
      else Effect(Over, None, None, false, false, true)
  }

  /** An update of a row that is gone changes nothing. */
  function Updated(versions: map<Id, Version>, v: Id, b: Option<BuildStatus>): map<Id, Version> {
    if v in versions && b.Some? then versions[v := versions[v].(status := b.value)] else versions
  }

  function Advanced(jobs: map<Id, Job>, j: Id, e: Effect): map<Id, Job>
    requires j in jobs
  {
    var moved := jobs[j := jobs[j].(stage := e.stage)];
    if e.next.Some? then moved[e.next.value := Job(Checkpoint, jobs[j].version, Waiting(0))] else moved
  }

  function Put(m: set<Id>, v: Id, b: bool): set<Id> {
    if b then m + {v} else m
  }

  function Apply(s: System, j: Id, e: Effect): System
    requires j in s.jobs
  {
    var v := s.jobs[j].version;
    s.(versions := Updated(s.versions, v, e.status),
       jobs := Advanced(s.jobs, j, e),
       current := if e.next.Some? then s.current[v := e.next.value] else s.current,
       based := Put(s.based, v, e.based), polled := Put(s.polled, v, e.polled), lost := Put(s.lost, v, e.lost))
  }

  function Work(s: System, j: Id, a: JobAct): System
    requires Works(s, j, a)
  {
    Apply(s, j, JobEffect(s.jobs[j], a))
  }

  // ---- Archive passes ----

  function VersionsOf(s: System, f: Id): map<Id, BuildStatus> {
    map v | v in s.versions && s.versions[v].flavor == f :: s.versions[v].status
  }

  predicate HasFlavors(s: System, c: Id) {
    exists f | f in s.flavors :: s.flavors[f].chunk == c
  }

  predicate HasInstances(s: System, v: Id) {
    exists i | i in s.instances :: s.instances[i] == v
  }

  predicate Steps(s: System, p: Id, x: PassAct) {
    match x
    case List => p !in s.passes
    case ReadFlavor(f) => p in s.passes && s.passes[p].Visiting? && f in s.passes[p].todo && f in s.flavors
    case SkipFlavor(f) => p in s.passes && s.passes[p].Visiting? && f in s.passes[p].todo
    case Count(v) =>
      p in s.passes && s.passes[p].Scanning? && v in s.passes[p].left && !HasInstances(s, v) && Settled(s.passes[p].left[v])
    case SkipVersion(v) => p in s.passes && s.passes[p].Scanning? && v in s.passes[p].left
    case MoveVersion(_) => p in s.passes && s.passes[p].Moving?
    case ReadAgain(_) => p in s.passes && s.passes[p].Scanning? && s.passes[p].left == map[]
    case MoveFlavor(_) => p in s.passes && s.passes[p].Bare?
    case ReadChunk(_) => p in s.passes && s.passes[p].AtChunk?
    case MoveChunk(ok) =>
      // the database refuses to delete a chunk a flavor refers to
      p in s.passes && s.passes[p].Childless? && (ok ==> !HasFlavors(s, s.passes[p].c))
  }

  /** What a pass moves to the archive in one transaction. */
  datatype Move = Nothing | OfVersion(v: Id) | OfFlavor(f: Id) | OfChunk(c: Id)

  /** The insert into the archive is refused when the id is there already; deleting an id that is gone
      does nothing. Instances are not looked at: safety does not hang on the foreign key. Deleting a
      flavor takes its versions with it. */
  function Moved(s: System, m: Move): System {
    match m
    case Nothing => s
    case OfVersion(v) =>
      if v in s.oldVersions then s else s.(oldVersions := s.oldVersions + {v}, versions := s.versions - {v})
    case OfFlavor(f) =>
      if f in s.oldFlavors then s
      else s.(oldFlavors := s.oldFlavors + {f}, flavors := s.flavors - {f},
              versions := map v | v in s.versions && s.versions[v].flavor != f :: s.versions[v])
    case OfChunk(c) =>
      if c in s.oldChunks then s else s.(oldChunks := s.oldChunks + {c}, chunks := s.chunks - {c})
  }

  /** What a step of a pass moves, and where the pass then stands. */
  function PassEffect(s: System, p: Id, x: PassAct): (Move, Pass)
    requires Steps(s, p, x)
  {
    if x.List? then
      (Nothing, Visiting(map f | f in s.flavors && s.flavors[f].deleted :: s.flavors[f].chunk))
    else
      var a := s.passes[p];
      match x
      case ReadFlavor(f) => (Nothing, Scanning(f, a.todo[f], VersionsOf(s, f), a.todo - {f}))
      case SkipFlavor(f) => (Nothing, Visiting(a.todo - {f}))
      case Count(v) => (Nothing, Moving(v, a.f, a.c, a.left - {v}, a.todo))
      case SkipVersion(v) => (Nothing, Scanning(a.f, a.c, a.left - {v}, a.todo))
      case MoveVersion(ok) => (if ok then OfVersion(a.v) else Nothing, Scanning(a.f, a.c, a.left, a.todo))
      case ReadAgain(ok) =>
        (Nothing,
         if !ok || a.f !in s.flavors then Visiting(a.todo)
         else if VersionsOf(s, a.f) != map[] then AtChunk(a.c, a.todo)
         else Bare(a.f, a.c, a.todo))
      case MoveFlavor(ok) => if ok then (OfFlavor(a.f), AtChunk(a.c, a.todo)) else (Nothing, Visiting(a.todo))
      case ReadChunk(ok) =>
        (Nothing, if ok && a.c in s.chunks && !HasFlavors(s, a.c) then Childless(a.c, a.todo) else Visiting(a.todo))
      case MoveChunk(ok) => (if ok then OfChunk(a.c) else Nothing, Visiting(a.todo))
  }

  function Step(s: System, p: Id, x: PassAct): System
    requires Steps(s, p, x)
  {
    var e := PassEffect(s, p, x);
    Moved(s, e.0).(passes := s.passes[p := e.1])
  }

  // ---- Runs ----

  predicate Enabled(s: System, e: Event) {
    match e
    case Asked(r) => Asks(s, r)
    case Worked(j, a) => Works(s, j, a)
    case Archiving(p, x) => Steps(s, p, x)
  }

  function Next(s: System, e: Event): System
    requires Enabled(s, e)
  {
    match e
    case Asked(r) => Answer(s, r)
    case Worked(j, a) => Work(s, j, a)
    case Archiving(p, x) => Step(s, p, x)
  }

  function Run(es: seq<Event>): Option<System> {
    if es == [] then Some(Init())
    else
      match Run(es[..|es| - 1])
      case None => None
      case Some(s) => if Enabled(s, es[|es| - 1]) then Some(Next(s, es[|es| - 1])) else None
  }
}
