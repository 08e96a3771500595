/** One checkpoint job from start to its deferred status update, and one garbage collection pass, as
    the node executes them on its store and port allocator. */
module Checkpoint {
  import opened Option
  import opened Status
  import opened PortAllocator

  /** Which of the calls a job makes succeed; `draws` are the allocator's random numbers. */
  datatype Calls = Calls(
    pullBase: bool,
    draws: seq<nat>,
    runPod: bool, runContainer: bool, attach: bool, executor: bool, ready: bool,
    info: bool, block: bool, netns: bool, destroySocks: bool,
    checkpoint: bool, createImage: bool, push: bool)

  predicate WaitOk(c: Calls, drawn: bool) {
    drawn && c.runPod && c.runContainer && c.attach && c.executor && c.ready
  }

  /** The preparation between the container being ready and the checkpoint proper. */
  predicate PrepareOk(c: Calls) {
    c.info && c.block && c.netns && c.destroySocks
  }

  /** The checkpoint image reaches the registry: every call on the way succeeded. */
  predicate Pushed(c: Calls, drawn: bool) {
    c.pullBase && WaitOk(c, drawn) && PrepareOk(c) && c.checkpoint && c.createImage && c.push
  }

  /** The state a job ends in. A failure of the preparation leaves the state at `Completed`. */
  function FinalState(c: Calls, drawn: bool): CheckpointState {
    if !c.pullBase then PullBaseImageFailed
    else if !WaitOk(c, drawn) then ContainerWaitReadyFailed
    else if !PrepareOk(c) then Completed
    else if !c.checkpoint then ContainerCheckpointFailed
    else if !c.createImage || !c.push then PushCheckpointFailed
    else Completed
  }

  function PortOf(drawn: Option<Port>): Port {
    if drawn.Some? then drawn.value else NO_PORT
  }

  /** The final message is empty exactly when the image was pushed, that is, when no call failed. */
  predicate Ends(c: Calls, drawn: Option<Port>, message: string, pushed: bool) {
    (pushed <==> Pushed(c, drawn.Some?)) && (message == "" <==> pushed)
  }

  /** A free port of the range is taken, or none is and, unless the job ended before, no draw was free. */
  predicate Draws(c: Calls, lo: nat, hi: nat, before: set<Port>, drawn: Option<Port>, after: set<Port>) {
    if drawn.Some? then
      c.pullBase && lo <= drawn.value <= hi && drawn.value !in before && after == before + {drawn.value}
    else
      after == before && (c.pullBase ==> forall d | d in c.draws :: d + lo in before)
  }

  /** The status goes from running to final exactly once: what the store logged is a series of running
      statuses without a completion time and then one final status with the time `at`. */
  ghost predicate OneTransition(writes: seq<Logged>, id: Id, at: nat) {
    && |writes| >= 2
    && (forall w | w in writes :: w.id == id && w.status.workload.None? && w.status.checkpoint.Some?)
    && (forall k | 0 <= k < |writes| - 1 ::
          writes[k].status.checkpoint.value.state == InProgress && writes[k].status.checkpoint.value.completedAt.None?)
    && var last := writes[|writes| - 1].status.checkpoint.value;
       last.state != InProgress && last.state != Unspecified && last.completedAt == Some(at)
  }

  /** What a job writes once it runs: the port, if it draws one. */
  function WorkLog(id: Id, drawn: Option<Port>): seq<Logged> {
    if drawn.Some? then [Logged(id, OfCheckpoint(InProgress, "", None, drawn.value))] else []
  }

  function JobLog(id: Id, c: Calls, drawn: Option<Port>, message: string, at: nat): seq<Logged> {
    [Logged(id, OfCheckpoint(InProgress, "", None, NO_PORT))] + WorkLog(id, drawn)
    + [Logged(id, OfCheckpoint(FinalState(c, drawn.Some?), message, Some(at), PortOf(drawn)))]
  }

  lemma JobLogOnce(before: seq<Logged>, after: seq<Logged>, id: Id, c: Calls, drawn: Option<Port>, message: string, at: nat)
    requires after == before + [Logged(id, OfCheckpoint(InProgress, "", None, NO_PORT))] + WorkLog(id, drawn)
                      + [Logged(id, OfCheckpoint(FinalState(c, drawn.Some?), message, Some(at), PortOf(drawn)))]
    ensures before <= after && after[|before|..] == JobLog(id, c, drawn, message, at)
    ensures OneTransition(after[|before|..], id, at)
  {
    assert after[|before|..] == JobLog(id, c, drawn, message, at);
  }

  /** Each final state by the calls that lead to it: the first failing one decides, save that a failure
      between the container being ready and the checkpoint proper still ends as completed. */
  predicate Earned(c: Calls, drawn: bool, state: CheckpointState, pushed: bool) {
    var ready := c.pullBase && drawn && c.runPod && c.runContainer && c.attach && c.executor && c.ready;
    var prepared := ready && c.info && c.block && c.netns && c.destroySocks;
    && (state == PullBaseImageFailed <==> !c.pullBase)
    && (state == ContainerWaitReadyFailed <==> c.pullBase && !ready)
    && (state == ContainerCheckpointFailed <==> prepared && !c.checkpoint)
    && (state == PushCheckpointFailed <==> prepared && c.checkpoint && !(c.createImage && c.push))
    && (state == Completed && !pushed <==> ready && !prepared)
    && (pushed <==> prepared && c.checkpoint && c.createImage && c.push)
    && (pushed ==> state == Completed)
  }

  lemma FinalStateEarned(c: Calls, drawn: bool)
    ensures Earned(c, drawn, FinalState(c, drawn), Pushed(c, drawn))
  {
  }

  /** What a job that did not panic has done to the store, by what it wrote and what is there now. */
  ghost predicate Ran(id: Id, c: Calls, at: nat, message: string, pushed: bool, drawn: Option<Port>,
                      before: map<Id, Status>, after: map<Id, Status>, written: seq<Logged>) {
    && written == JobLog(id, c, drawn, message, at)
    && OneTransition(written, id, at)
    && Ends(c, drawn, message, pushed)
    && after == before[id := OfCheckpoint(FinalState(c, drawn.Some?), message, Some(at), PortOf(drawn))]
    && Earned(c, drawn.Some?, after[id].checkpoint.value.state, pushed)
  }

  lemma RanIs(id: Id, c: Calls, at: nat, message: string, pushed: bool, drawn: Option<Port>,
              before: map<Id, Status>, after: map<Id, Status>, log: seq<Logged>, log': seq<Logged>)
    requires Ends(c, drawn, message, pushed)
    requires after == before[id := OfCheckpoint(InProgress, "", None, NO_PORT)][
               id := OfCheckpoint(FinalState(c, drawn.Some?), message, Some(at), PortOf(drawn))]
    requires log' == log + [Logged(id, OfCheckpoint(InProgress, "", None, NO_PORT))] + WorkLog(id, drawn)
                     + [Logged(id, OfCheckpoint(FinalState(c, drawn.Some?), message, Some(at), PortOf(drawn)))]
    ensures log <= log' && Ran(id, c, at, message, pushed, drawn, before, after, log'[|log|..])
  {
    JobLogOnce(log, log', id, c, drawn, message, at);
    FinalStateEarned(c, drawn.Some?);
  }

  /** Runs the job, whose id has been handed out: only a stop request can have left an entry under it, and
      exactly then the first write panics. On every other path the status goes from running to final
      exactly once, with a completion time, and the final message is empty exactly when the image was
      pushed. `Completed` does not mean pushed: it is also the final state exactly when the preparation
      fails. The port, if one was drawn, stays allocated and is in the status for the collector to free. */
  method Run(store: MemStore, alloc: PortAllocator, id: Id, c: Calls, at: nat)
    returns (panics: bool, message: string, pushed: bool, drawn: Option<Port>)
    requires store.Valid() && alloc.Valid()
    requires id in store.Contents() ==> store.Contents()[id].workload.Some? && store.Contents()[id].checkpoint.None?
    requires |c.draws| == MAX_TRIES && forall d | d in c.draws :: d < alloc.portMax + 1 - alloc.portMin
    modifies store, store.data.Values, alloc
    ensures panics <==> id in old(store.Contents())
    ensures panics ==> store.Contents() == old(store.Contents()) && store.log == old(store.log)
                       && alloc.taken == old(alloc.taken)
    ensures !panics ==>
              && store.Valid() && alloc.Valid() && fresh(store.data.Values - old(store.data.Values))
              && old(store.log) <= store.log
              && Ran(id, c, at, message, pushed, drawn, old(store.Contents()), store.Contents(),
                     store.log[|old(store.log)|..])
              && Draws(c, alloc.portMin, alloc.portMax, old(alloc.taken), drawn, alloc.taken)
  {
    ghost var m, log := store.Contents(), store.log;
    message, pushed, drawn := "", false, None;
    panics := Begin(store, id);
    if panics {
      return;
    }
    message, pushed, drawn := Continue(store, alloc, id, c, at);
    RanIs(id, c, at, message, pushed, drawn, m, store.Contents(), log, store.log);
  }

  /** The first status. */
  method Begin(store: MemStore, id: Id) returns (panics: bool)
    requires store.Valid()
    requires id in store.Contents() ==> store.Contents()[id].workload.Some? && store.Contents()[id].checkpoint.None?
    modifies store, store.data.Values
    ensures panics <==> id in old(store.Contents())
    ensures panics ==> store.Contents() == old(store.Contents()) && store.log == old(store.log)
    ensures !panics ==>
              && store.Valid() && fresh(store.data.Values - old(store.data.Values))
              && store.Contents() == old(store.Contents())[id := OfCheckpoint(InProgress, "", None, NO_PORT)]
              && store.log == old(store.log) + [Logged(id, OfCheckpoint(InProgress, "", None, NO_PORT))]
  {
    panics := store.TryUpdate(id, OfCheckpoint(InProgress, "", None, NO_PORT));
  }

  /** The job from its first status on: the work, then the deferred update. */
  method Continue(store: MemStore, alloc: PortAllocator, id: Id, c: Calls, at: nat)
    returns (message: string, pushed: bool, drawn: Option<Port>)
    requires store.Valid() && alloc.Valid()
    requires id in store.Contents() && store.Contents()[id] == OfCheckpoint(InProgress, "", None, NO_PORT)
    requires |c.draws| == MAX_TRIES && forall d | d in c.draws :: d < alloc.portMax + 1 - alloc.portMin
    modifies store, store.data.Values, alloc
    ensures store.Valid() && alloc.Valid() && store.data == old(store.data)
    ensures store.log == old(store.log) + WorkLog(id, drawn)
                         + [Logged(id, OfCheckpoint(FinalState(c, drawn.Some?), message, Some(at), PortOf(drawn)))]
    ensures Ends(c, drawn, message, pushed)
    ensures store.Contents() == old(store.Contents())[
              id := OfCheckpoint(FinalState(c, drawn.Some?), message, Some(at), PortOf(drawn))]
    ensures Draws(c, alloc.portMin, alloc.portMax, old(alloc.taken), drawn, alloc.taken)
  {
    ghost var m := store.Contents();
    var state;
    state, message, pushed, drawn := Work(store, alloc, id, c);
    assert store.Contents() == m[id := OfCheckpoint(InProgress, "", None, PortOf(drawn))];
    Finish(store, id, state, message, at, PortOf(drawn));
  }

  /** The deferred update: one write, which is final. */
  method Finish(store: MemStore, id: Id, state: CheckpointState, message: string, at: nat, ghost port: Port)
    requires store.Valid() && id in store.Contents()
    requires store.Contents()[id] == OfCheckpoint(InProgress, "", None, port)
    requires state != InProgress && state != Unspecified
    modifies store, store.data.Values
    ensures store.Valid() && store.data == old(store.data)
    ensures store.Contents() == old(store.Contents())[id := OfCheckpoint(state, message, Some(at), port)]
    ensures store.log == old(store.log) + [Logged(id, OfCheckpoint(state, message, Some(at), port))]
  {
    store.Update(id, OfCheckpoint(state, message, Some(at), NO_PORT));
  }

  method Work(store: MemStore, alloc: PortAllocator, id: Id, c: Calls)
    returns (state: CheckpointState, message: string, pushed: bool, drawn: Option<Port>)
    requires store.Valid() && alloc.Valid()
    requires id in store.Contents() && store.Contents()[id] == OfCheckpoint(InProgress, "", None, NO_PORT)
    requires |c.draws| == MAX_TRIES && forall d | d in c.draws :: d < alloc.portMax + 1 - alloc.portMin
    modifies store, store.data.Values, alloc
    ensures store.Valid() && alloc.Valid() && store.data == old(store.data)
    ensures state == FinalState(c, drawn.Some?) && Earned(c, drawn.Some?, state, pushed)
    ensures Ends(c, drawn, message, pushed)
    ensures store.Contents() == old(store.Contents())[id := OfCheckpoint(InProgress, "", None, PortOf(drawn))]
    ensures store.log == old(store.log) + WorkLog(id, drawn)
    ensures Draws(c, alloc.portMin, alloc.portMax, old(alloc.taken), drawn, alloc.taken)
  {
    drawn := None;
    if c.pullBase {
      drawn := DrawAndSave(store, alloc, id, c);
    }
    state, message, pushed := Proceed(c, drawn.Some?);
  }

  /** A port for the pod, recorded before the pod runs. */
  method DrawAndSave(store: MemStore, alloc: PortAllocator, id: Id, c: Calls) returns (drawn: Option<Port>)
    requires store.Valid() && alloc.Valid() && c.pullBase
    requires id in store.Contents() && store.Contents()[id] == OfCheckpoint(InProgress, "", None, NO_PORT)
    requires |c.draws| == MAX_TRIES && forall d | d in c.draws :: d < alloc.portMax + 1 - alloc.portMin
    modifies store, store.data.Values, alloc
    ensures store.Valid() && alloc.Valid() && store.data == old(store.data)
    ensures store.Contents() == old(store.Contents())[id := OfCheckpoint(InProgress, "", None, PortOf(drawn))]
    ensures store.log == old(store.log) + WorkLog(id, drawn)
    ensures Draws(c, alloc.portMin, alloc.portMax, old(alloc.taken), drawn, alloc.taken)
  {
    drawn := alloc.Allocate(c.draws);
    if drawn.Some? {
      store.Update(id, OfCheckpoint(InProgress, "", None, drawn.value));
    }
  }

  /** The message names the first call that failed. */
  predicate Tells(c: Calls, drawn: bool, message: string) {
    if !c.pullBase then message == "pull base image"
    else if !drawn then message == "wait ctr ready: run and attach container: allocate port"
    else if !(c.runPod && c.runContainer && c.attach && c.executor && c.ready) then message == "wait ctr ready"
    else if !c.info then message == "container info"
    else if !c.block then message == "block"
    else if !c.netns then message == "find netns"
    else if !c.destroySocks then message == "kill sockets"
    else if !c.checkpoint then message == "checkpoint container"
    else if !c.createImage then message == "create image"
    else if !c.push then message == "push image"
    else message == ""
  }

  /** The calls before and after the draw, none of which touches the store. */
  method Proceed(c: Calls, drawn: bool) returns (state: CheckpointState, message: string, pushed: bool)
    ensures state == FinalState(c, drawn) && Earned(c, drawn, state, pushed)
    ensures pushed <==> Pushed(c, drawn)
    ensures message == "" <==> pushed
    ensures Tells(c, drawn, message)
  {
    state := Completed;
    if !c.pullBase {
      return PullBaseImageFailed, "pull base image", false;
    }
    if !drawn {
      return ContainerWaitReadyFailed, "wait ctr ready: run and attach container: allocate port", false;
    }
    if !(c.runPod && c.runContainer && c.attach && c.executor && c.ready) {
      return ContainerWaitReadyFailed, "wait ctr ready", false;
    }
    if !c.info {
      return state, "container info", false;
    }
    if !c.block {
      return state, "block", false;
    }
    if !c.netns {
      return state, "find netns", false;
    }
    if !c.destroySocks {
      return state, "kill sockets", false;
    }
    if !c.checkpoint {
      return ContainerCheckpointFailed, "checkpoint container", false;
    }
    if !c.createImage {
      return PushCheckpointFailed, "create image", false;
    }
    if !c.push {
      return PushCheckpointFailed, "push image", false;
    }
    return state, "", true;
  }

  /** A job on a fresh node for which only the container's info cannot be read: its status says
      `Completed`, and no image was pushed. */
  method CompletedWithoutPush() returns (final: Status, pushed: bool)
    ensures final.checkpoint.Some? && final.checkpoint.value.state == Completed
    ensures final.checkpoint.value.message != "" && !pushed
  {
    var store := new MemStore();
    var alloc := new PortAllocator(30000, 31000);
    var c := Calls(true, [0, 0, 0, 0, 0], true, true, true, true, true, false, true, true, true, true, true, true);
    var panics, message, drawn;
    assert c.draws[0] in c.draws;
    panics, message, pushed, drawn := Run(store, alloc, 1, c, 0);
    var cell := store.Get(1);
    final := cell.value.value;
  }

  // ---- Garbage collection ----

  predicate Past(st: Status, now: nat, retention: nat) {
    st.checkpoint.Some? && st.checkpoint.value.completedAt.Some?
    && now > st.checkpoint.value.completedAt.value + retention
  }

  predicate InFlight(st: Status) {
    st.checkpoint.Some? && st.checkpoint.value.state == InProgress
  }

  /** The ids dropped, the statuses left, the ports given back and the checkpoints seen running when
      only the ids in `todo` are still to be visited. */
  function Dropped(m: map<Id, Status>, todo: set<Id>, now: nat, retention: nat): set<Id> {
    set id | id in m && id !in todo && Past(m[id], now, retention)
  }

  function Kept(m: map<Id, Status>, todo: set<Id>, now: nat, retention: nat): map<Id, Status> {
    m - Dropped(m, todo, now, retention)
  }

  function Freed(m: map<Id, Status>, todo: set<Id>, now: nat, retention: nat): set<Port> {
    set id | id in Dropped(m, todo, now, retention) :: m[id].checkpoint.value.port
  }

  function Running(m: map<Id, Status>, todo: set<Id>): set<Id> {
    set id | id in m && id !in todo && InFlight(m[id])
  }

  /** What one visit drops, gives back and keeps. */
  function Drops(id: Id, st: Status, now: nat, retention: nat): set<Id> {
    if Past(st, now, retention) then {id} else {}
  }

  function Gives(st: Status, now: nat, retention: nat): set<Port> {
    if Past(st, now, retention) then {st.checkpoint.value.port} else {}
  }

  function Keeps(id: Id, st: Status): set<Id> {
    if InFlight(st) then {id} else {}
  }

  predicate IsExpired(st: Status, now: nat, retention: nat) {
    match st.checkpoint
    case None => false
    case Some(ck) => ck.completedAt.Some? && now > ck.completedAt.value + retention
  }

  /** What a sweep is for: the statuses of checkpoints that finished more than the retention period ago go
      and give back their ports, all others stay as they are, and the running checkpoints are kept. */
  ghost predicate Swept(before: map<Id, Status>, after: map<Id, Status>, taken: set<Port>, taken': set<Port>,
                        keep: set<Id>, now: nat, retention: nat) {
    && (forall id :: id in after <==> id in before && !IsExpired(before[id], now, retention))
    && (forall id | id in after :: after[id] == before[id])
    && (forall p :: p in taken' <==>
          p in taken && forall id | id in before && IsExpired(before[id], now, retention) :: before[id].checkpoint.value.port != p)
    && (forall id :: id in keep <==>
          id in before && before[id].checkpoint.Some? && before[id].checkpoint.value.state == InProgress)
  }

  lemma SweptIs(m: map<Id, Status>, taken: set<Port>, now: nat, retention: nat)
    ensures Swept(m, Kept(m, {}, now, retention), taken, taken - Freed(m, {}, now, retention), Running(m, {}), now, retention)
  {
    forall p
      ensures p in Freed(m, {}, now, retention) <==>
              exists id | id in m && IsExpired(m[id], now, retention) :: m[id].checkpoint.value.port == p
    {
    }
  }

  lemma SweepStep(m: map<Id, Status>, todo: set<Id>, id: Id, now: nat, retention: nat)
    requires id in m && id in todo
    ensures Dropped(m, todo - {id}, now, retention) == Dropped(m, todo, now, retention) + Drops(id, m[id], now, retention)
    ensures Freed(m, todo - {id}, now, retention) == Freed(m, todo, now, retention) + Gives(m[id], now, retention)
    ensures Running(m, todo - {id}) == Running(m, todo) + Keeps(id, m[id])
  {
    var before, after := Dropped(m, todo, now, retention), Dropped(m, todo - {id}, now, retention);
    assert after == before + Drops(id, m[id], now, retention);
    FreedStep(m, before, id, now, retention);
  }

  lemma FreedStep(m: map<Id, Status>, before: set<Id>, id: Id, now: nat, retention: nat)
    requires id in m && forall k | k in before :: k in m && m[k].checkpoint.Some?
    ensures (set k | k in before + Drops(id, m[id], now, retention) :: m[k].checkpoint.value.port) ==
            (set k | k in before :: m[k].checkpoint.value.port) + Gives(m[id], now, retention)
  {
  }

  lemma Without<T>(all: set<T>, gone: set<T>, more: set<T>)
    ensures all - gone - more == all - (gone + more)
  {
  }

  lemma WithoutKeys<V>(all: map<Id, V>, gone: set<Id>, more: set<Id>)
    ensures all - gone - more == all - (gone + more)
  {
  }

  /** One visit more, in the view's map, the allocator and the ids to keep. */
  lemma SweepOn<V>(m: map<Id, Status>, view: map<Id, V>, taken: set<Port>, todo: set<Id>, id: Id, now: nat, retention: nat)
    requires id in m && id in todo
    ensures view - Dropped(m, todo, now, retention) - Drops(id, m[id], now, retention) ==
            view - Dropped(m, todo - {id}, now, retention)
    ensures taken - Freed(m, todo, now, retention) - Gives(m[id], now, retention) ==
            taken - Freed(m, todo - {id}, now, retention)
    ensures Running(m, todo) + Keeps(id, m[id]) == Running(m, todo - {id})
  {
    SweepStep(m, todo, id, now, retention);
    Without(taken, Freed(m, todo, now, retention), Gives(m[id], now, retention));
    WithoutKeys(view, Dropped(m, todo, now, retention), Drops(id, m[id], now, retention));
  }

  /** One round of the loop: `st` is the entry's status, read through the view. */
  method Visit(store: MemStore, alloc: PortAllocator, retention: nat, now: nat, id: Id, st: Status, keep: set<Id>)
    returns (keep': set<Id>)
    requires alloc.Valid()
    modifies store, alloc
    ensures alloc.Valid()
    ensures store.data == old(store.data) - Drops(id, st, now, retention) && store.log == old(store.log)
    ensures alloc.taken == old(alloc.taken) - Gives(st, now, retention)
    ensures keep' == keep + Keeps(id, st)
  {
    keep' := keep;
    if st.checkpoint.None? {
      return;
    }
    if st.checkpoint.value.state == InProgress {
      keep' := keep + {id};
    }
    if st.checkpoint.value.completedAt.Some? && now > st.checkpoint.value.completedAt.value + retention {
      store.Del(id);
      alloc.Free(st.checkpoint.value.port);
    }
  }

  /** The loop: after it, the ids dropped are gone from the store's map, and only they. */
  method Walk(store: MemStore, alloc: PortAllocator, retention: nat, now: nat, view: map<Id, Cell>, ghost m: map<Id, Status>)
    returns (keep: set<Id>, ghost order: seq<Id>)
    requires alloc.Valid() && store.data == view
    requires view.Keys == m.Keys && forall id | id in view :: view[id].value == m[id]
    modifies store, alloc
    ensures alloc.Valid() && store.log == old(store.log)
    ensures store.data == view - Dropped(m, {}, now, retention)
    ensures alloc.taken == old(alloc.taken) - Freed(m, {}, now, retention)
    ensures keep == Running(m, {})
    ensures Visits(order, m.Keys, {})
  {
    keep, order := {}, [];
    var todo := view.Keys;
    assert view - {} == view;
    while todo != {}
      invariant Visits(order, m.Keys, todo)
      invariant alloc.Valid() && store.log == old(store.log)
      invariant store.data == view - Dropped(m, todo, now, retention)
      invariant alloc.taken == old(alloc.taken) - Freed(m, todo, now, retention)
      invariant keep == Running(m, todo)
      decreases todo
    {
      var id :| id in todo;
      SweepOn(m, view, old(alloc.taken), todo, id, now, retention);
      keep := Visit(store, alloc, retention, now, id, view[id].value, keep);
      VisitsOn(order, m.Keys, todo, id);
      order := order + [id];
      todo := todo - {id};
    }
  }

  /** The sweep of the view: expired checkpoint statuses go and give back their ports; workload entries,
      running checkpoints and finished ones within retention stay. `order` is the order in which the map
      was ranged over. */
  method Sweep(store: MemStore, alloc: PortAllocator, retention: nat, now: nat)
    returns (keep: set<Id>, ghost order: seq<Id>)
    requires store.Valid() && alloc.Valid()
    modifies store, alloc
    ensures store.Valid() && alloc.Valid() && store.log == old(store.log)
    ensures store.Contents() == Kept(old(store.Contents()), {}, now, retention)
    ensures alloc.taken == old(alloc.taken) - Freed(old(store.Contents()), {}, now, retention)
    ensures keep == Running(old(store.Contents()), {})
    ensures Swept(old(store.Contents()), store.Contents(), old(alloc.taken), alloc.taken, keep, now, retention)
    ensures Visits(order, old(store.Contents()).Keys, {})
  {
    ghost var m := store.Contents();
    var view := store.View();
    SweptIs(m, alloc.taken, now, retention);
    keep, order := Walk(store, alloc, retention, now, view, m);
  }

  /** The ids visited so far, each once, when `todo` is left of `all`. */
  ghost predicate Visits(order: seq<Id>, all: set<Id>, todo: set<Id>) {
    && todo <= all
    && (forall i, j | 0 <= i < j < |order| :: order[i] != order[j])
    && (forall id :: id in order <==> id in all && id !in todo)
  }

  lemma VisitsOn(order: seq<Id>, all: set<Id>, todo: set<Id>, id: Id)
    requires Visits(order, all, todo) && id in todo
    ensures Visits(order + [id], all, todo - {id})
  {
  }

  /** The loop over the files, and the one over the pods: what is kept is skipped, and the first
      removal that fails ends the pass. */
  method RemoveAllBut(ids: seq<Id>, keep: set<Id>, fails: set<Id>) returns (ok: bool, left: set<Id>)
    ensures ok <==> forall id | id in ids :: id in keep || id !in fails
    ensures ok ==> left == set id | id in ids && id in keep
    ensures (set id | id in ids && id in keep) <= left <= (set id | id in ids)
  {
    left := set id | id in ids;
    for i := 0 to |ids|
      invariant forall k | 0 <= k < i :: ids[k] in keep || ids[k] !in fails
      invariant left == set id | id in ids && (id in keep || id !in ids[..i])
    {
      assert ids[..i + 1] == ids[..i] + [ids[i]];
      if ids[i] in keep {
        continue;
      }
      if ids[i] in fails {
        return false, left;
      }
      left := left - {ids[i]};
    }
    assert ids[..|ids|] == ids;
    ok := true;
  }

  /** Which calls of a pass succeed; `stuckFiles` and `stuckPods` cannot be removed. */
  datatype GcCalls = GcCalls(readDir: bool, listPods: bool, stuckFiles: set<Id>, stuckPods: set<Id>)

  /** A pass no other actor interferes with. `files` and `pods` are the checkpoint ids with a file or
      pod on the node. Those of running checkpoints survive every pass, a pass without a failing call
      removes all others, and the statuses are done before anything else can fail. */
  method CollectGarbage(store: MemStore, alloc: PortAllocator, retention: nat, now: nat,
                        files: seq<Id>, pods: seq<Id>, c: GcCalls)
    returns (ok: bool, filesLeft: set<Id>, podsLeft: set<Id>)
    requires store.Valid() && alloc.Valid()
    modifies store, alloc
    ensures store.Valid() && alloc.Valid()
    ensures store.Contents() == Kept(old(store.Contents()), {}, now, retention)
    ensures alloc.taken == old(alloc.taken) - Freed(old(store.Contents()), {}, now, retention)
    ensures var running := Running(old(store.Contents()), {});
            && (set id | id in files && id in running) <= filesLeft
            && (set id | id in pods && id in running) <= podsLeft
            && (ok ==> filesLeft == (set id | id in files && id in running)
                       && podsLeft == (set id | id in pods && id in running))
            && (ok <==> c.readDir && c.listPods
                        && (forall id | id in files :: id in running || id !in c.stuckFiles)
                        && (forall id | id in pods :: id in running || id !in c.stuckPods))
  {
    var keep, _ := Sweep(store, alloc, retention, now);
    filesLeft, podsLeft := set id | id in files, set id | id in pods;
    if !c.readDir {
      return false, filesLeft, podsLeft;
    }
    ok, filesLeft := RemoveAllBut(files, keep, c.stuckFiles);
    if !ok || !c.listPods {
      return false, filesLeft, podsLeft;
    }
    ok, podsLeft := RemoveAllBut(pods, keep, c.stuckPods);
  }
}
