/** The reconciler's handling of one discovered instance as it runs on the node's store, allocator and
    attempt counters. Each of its accesses is proved to be a step of `NodeProtocol`, so what holds of
    every run of that machine holds of this code. */
module Reconciler {
  import opened Option
  import opened Status
  import opened PortAllocator
  import opened NodeProtocol

  /** What the goroutine of one instance sees: its own state and the allocator's. */
  datatype Scene = Scene(l: Local, taken: set<Port>)

  /** One step of the machine, with the port it takes or gives back. */
  function Take(c: Scene, out: Outcome): Scene {
    var l := Advance(c.l, out);
    Scene(l.(takes := {}, gives := {}), c.taken + l.takes - l.gives)
  }

  function Follow(c: Scene, outs: seq<Outcome>): Scene {
    if outs == [] then c else Take(Follow(c, outs[..|outs| - 1]), outs[|outs| - 1])
  }

  /** Every outcome on the way is one the machine allows where it stands. */
  predicate Legal(cfg: Config, c: Scene, outs: seq<Outcome>) {
    outs == [] ||
    var before := outs[..|outs| - 1];
    Legal(cfg, c, before) && Possible(cfg, Follow(c, before).taken, Follow(c, before).l.pc, outs[|outs| - 1])
  }

  /** The outcomes lead from `start` to `now`. */
  predicate Leads(cfg: Config, start: Scene, outs: seq<Outcome>, now: Scene) {
    Legal(cfg, start, outs) && Follow(start, outs) == now
  }

  lemma {:induction false} LeadsOn(cfg: Config, start: Scene, outs: seq<Outcome>, out: Outcome)
    requires Legal(cfg, start, outs) && Possible(cfg, Follow(start, outs).taken, Follow(start, outs).l.pc, out)
    ensures Leads(cfg, start, outs + [out], Take(Follow(start, outs), out))
  {
    assert (outs + [out])[..|outs|] == outs;
  }

  /** The first look at an instance that waits to be created and was not given up. */
  lemma {:induction false} FirstLook(cfg: Config, start: Scene)
    requires (start.l.pc == Todo(PENDING) || start.l.pc == Todo(CREATING)) && start.l.attempts < MAX_ATTEMPTS
    requires start.l.takes == start.l.gives == {}
    ensures var skips := start.l.entry.Some? && start.l.entry.value.workload.Some?
                         && start.l.entry.value.workload.value.state != Creating;
            Leads(cfg, start, [Quiet], Scene(start.l.(pc := if skips then Done else Mark), start.taken))
  {
    var none: seq<Outcome> := [];
    assert Legal(cfg, start, none) && Follow(start, none) == start;
    LeadsOn(cfg, start, none, Quiet);
    assert none + [Quiet] == [Quiet];
    LookLeaves(start);
  }

  /** The first look at any other one. */
  lemma {:induction false} FirstGlance(cfg: Config, start: Scene, seen: InstanceState, out: Outcome)
    requires start.l.pc == Todo(seen) && seen != PENDING && seen != CREATING && Possible(cfg, start.taken, start.l.pc, out)
    requires start.l.takes == start.l.gives == {}
    ensures var stays := seen == DELETED || (seen == RUNNING && out != Unhealthy);
            Leads(cfg, start, [out], Scene(start.l.(pc := if stays then Done else Remove(seen)), start.taken))
  {
    var none: seq<Outcome> := [];
    assert Legal(cfg, start, none) && Follow(start, none) == start;
    LeadsOn(cfg, start, none, out);
    assert none + [out] == [out];
    assert start.taken + {} - {} == start.taken;
  }

  lemma LookLeaves(start: Scene)
    requires (start.l.pc == Todo(PENDING) || start.l.pc == Todo(CREATING)) && start.l.attempts < MAX_ATTEMPTS
    requires start.l.takes == start.l.gives == {}
    ensures var skips := start.l.entry.Some? && start.l.entry.value.workload.Some?
                         && start.l.entry.value.workload.value.state != Creating;
            Take(start, Quiet) == Scene(start.l.(pc := if skips then Done else Mark), start.taken)
  {
  }

  /** The calls of one reconciliation: the allocator's random numbers, whether the workload runs, how
      removing it ends, and what the health check says. */
  datatype Calls = Calls(draws: seq<nat>, runs: bool, removal: Outcome, health: Outcome)

  predicate Proper(c: Calls, portMin: nat, portMax: nat) {
    && |c.draws| == MAX_TRIES && (forall d | d in c.draws :: portMin <= portMax && d < portMax + 1 - portMin)
    && (c.removal == Removed || c.removal == NotFound || c.removal == Outcome.Failed)
    && (c.health == Healthy || c.health == Unhealthy || c.health == Outcome.Failed)
  }

  /** The step is a write of `st` and nothing else. */
  predicate Writes(l: Local, st: Status, pc': Pc) {
    Advance(l, Quiet) == Record(l, st).(pc := pc')
  }

  // ---- What is left, spelled out ----

  /** The port in an entry; 0 when there is none. */
  function PortIn(entry: Option<Status>): Port {
    if entry.Some? && entry.value.workload.Some? then entry.value.workload.value.port else NO_PORT
  }

  function StateIn(entry: Option<Status>): WorkloadState {
    if entry.Some? && entry.value.workload.Some? then entry.value.workload.value.state else Unset
  }

  predicate Has(now: Scene, state: WorkloadState, port: Port, attempts: nat, ran: Option<Port>, taken: set<Port>) {
    now.l.entry == Some(OfWorkload(state, port)) && now.l.attempts == attempts && now.l.ran == ran && now.taken == taken
  }

  /** An attempt to create: without a port it only counts; with one the workload runs and is recorded with
      it, or the port is free again and the attempt counts. Port 0 does not replace the one in the entry. */
  predicate Tried(was: Scene, now: Scene, drawn: Option<Port>, runs: bool) {
    var n := was.l.attempts;
    if drawn.None? then
      Has(now, Creating, PortIn(was.l.entry), n + 1, was.l.ran, was.taken)
    else
      var p := drawn.value;
      var shown := if p != 0 then p else PortIn(was.l.entry);
      if runs then Has(now, Running, shown, n, Some(p), was.taken + {p})
      else Has(now, Creating, shown, n + 1, was.l.ran, was.taken)
  }

  /** The end of one, from the launch on port `port`. */
  predicate Launched(was: Scene, now: Scene, port: Port, runs: bool) {
    if runs then Has(now, Running, PortIn(was.l.entry), was.l.attempts, Some(port), was.taken)
    else Has(now, StateIn(was.l.entry), PortIn(was.l.entry), was.l.attempts + 1, was.l.ran, was.taken - {port})
  }

  /** The same from saving the port on. */
  predicate SavedAndLaunched(was: Scene, now: Scene, port: Port, runs: bool) {
    var shown := if port != 0 then port else PortIn(was.l.entry);
    if runs then Has(now, Running, shown, was.l.attempts, Some(port), was.taken)
    else Has(now, StateIn(was.l.entry), shown, was.l.attempts + 1, was.l.ran, was.taken - {port})
  }

  class Reconciler {
    const store: MemStore
    const alloc: PortAllocator
    var attempts: map<Id, nat>
    var ran: map<Id, Port> // the workloads started, with their ports

    constructor (store: MemStore, alloc: PortAllocator)
      ensures this.store == store && this.alloc == alloc && attempts == map[] && ran == map[]
    {
      this.store, this.alloc, attempts, ran := store, alloc, map[], map[];
    }

    ghost predicate Valid()
      reads this, store, alloc
    {
      store.Valid() && alloc.Valid()
    }

    ghost function Range(): Config {
      Config(alloc.portMin, alloc.portMax, 0)
    }

    ghost function View(id: Id, pc: Pc): Scene
      reads this, store, store.data.Values, alloc
    {
      Scene(Local(Lookup(store.Contents(), id), if id in attempts then attempts[id] else 0, Lookup(ran, id), pc, {}, {}, false),
            alloc.taken)
    }

    /** Nobody else's entries, counters or workloads are touched. */
    twostate predicate OthersKept(id: Id)
      reads this, store, store.data.Values
    {
      && store.Contents() - {id} == old(store.Contents()) - {id}
      && attempts - {id} == old(attempts) - {id} && ran - {id} == old(ran) - {id}
    }

    /** `id` is no checkpoint: what is under it, if anything, is a workload. */
    ghost predicate Own(id: Id)
      reads this, store, store.data.Values
    {
      id in store.Contents() ==> store.Contents()[id].checkpoint.None? && store.Contents()[id].workload.Some?
    }

    /** Nothing at all is touched. */
    twostate predicate Untouched()
      reads this, store, store.data.Values, alloc
    {
      && store.Contents() == old(store.Contents()) && attempts == old(attempts) && ran == old(ran)
      && alloc.taken == old(alloc.taken)
    }

    /** Only the entry of `id` changes: its state, not its port. */
    twostate predicate OnlyState(id: Id, state: WorkloadState)
      reads this, store, store.data.Values, alloc
    {
      && store.Contents() == old(store.Contents())[
           id := OfWorkload(state, PortIn(Lookup(old(store.Contents()), id)))]
      && attempts == old(attempts) && ran == old(ran) && alloc.taken == old(alloc.taken)
    }

    /** What every access below keeps, and that it is the machine's step from `pc` to `pc'`. */
    twostate predicate Steps(id: Id, pc: Pc, out: Outcome, pc': Pc)
      reads this, store, store.data.Values, alloc
    {
      Valid() && Own(id) && OthersKept(id) && View(id, pc') == Take(old(View(id, pc)), out)
    }

    /** A store write. */
    method Write(id: Id, state: WorkloadState, port: Port, ghost pc: Pc, ghost pc': Pc)
      requires Valid() && Own(id)
      requires Writes(View(id, pc).l, OfWorkload(state, port), pc')
      modifies store, store.data.Values
      ensures fresh(store.data.Values - old(store.data.Values)) && Steps(id, pc, Quiet, pc')
      ensures state != Unset && port == NO_PORT ==> OnlyState(id, state)
    {
      ghost var m := store.Contents();
      store.Update(id, OfWorkload(state, port));
      assert store.Contents() - {id} == m - {id};
    }

    method DrawPort(id: Id, draws: seq<nat>) returns (port: Option<Port>)
      requires Valid() && Own(id)
      requires |draws| == MAX_TRIES && forall d | d in draws :: d < alloc.portMax + 1 - alloc.portMin
      modifies alloc, this
      ensures port.Some? ==> Steps(id, Allocate, Drawn(port.value), SavePort(port.value))
      ensures port.None? ==> Steps(id, Allocate, NoPort, Done)
      ensures Possible(Range(), old(alloc.taken), Allocate,
                       if port.Some? then Drawn(port.value) else NoPort)
      ensures port == FirstFree(draws, alloc.portMin, old(alloc.taken))
    {
      port := alloc.Allocate(draws);
      if port.None? {
        attempts := attempts[id := (if id in attempts then attempts[id] else 0) + 1];
      }
    }

    method RunWorkload(id: Id, port: Port, runs: bool)
      requires Valid() && Own(id)
      modifies this
      ensures runs ==> Steps(id, Launch(port), RunOk, Confirm(port))
      ensures !runs ==> Steps(id, Launch(port), RunFailed, Undo(port))
    {
      if runs {
        ran := ran[id := port];
      }
    }

    /** The port goes first, the failed pod after it. */
    method GiveBack(id: Id, port: Port)
      requires Valid() && Own(id)
      modifies alloc
      ensures Steps(id, Undo(port), Quiet, TearDown(port))
    {
      alloc.Free(port);
    }

    /** Removing the failed pod may fail, which is only logged; the attempt counts. */
    method RemoveFailed(id: Id, port: Port)
      requires Valid() && Own(id)
      modifies this
      ensures Steps(id, TearDown(port), Quiet, Done)
    {
      attempts := attempts[id := (if id in attempts then attempts[id] else 0) + 1];
    }

    /** The attempt from drawing a port on. */
    method Attempt(id: Id, c: Calls, ghost start: Scene, before: seq<Outcome>) returns (outs: seq<Outcome>)
      requires Valid() && Own(id) && Proper(c, alloc.portMin, alloc.portMax)
      requires StateIn(View(id, Allocate).l.entry) == Creating
      requires Leads(Range(), start, before, View(id, Allocate))
      modifies this, store, store.data.Values, alloc
      ensures fresh(store.data.Values - old(store.data.Values))
      ensures Valid() && Own(id) && OthersKept(id)
      ensures Leads(Range(), start, outs, View(id, Done))
      ensures Tried(old(View(id, Allocate)), View(id, Done), FirstFree(c.draws, alloc.portMin, old(alloc.taken)), c.runs)
    {
      var drawn := DrawPort(id, c.draws);
      if drawn.None? {
        outs := before + [NoPort];
        LeadsOn(Range(), start, before, NoPort);
        return;
      }
      var port := drawn.value;
      LeadsOn(Range(), start, before, Drawn(port));
      outs := SaveAndRun(id, port, c.runs, start, before + [Drawn(port)]);
    }

    method SaveAndRun(id: Id, port: Port, runs: bool, ghost start: Scene, before: seq<Outcome>) returns (outs: seq<Outcome>)
      requires Valid() && Own(id) && id in store.Contents()
      requires Leads(Range(), start, before, View(id, SavePort(port)))
      modifies this, store, store.data.Values, alloc
      ensures fresh(store.data.Values - old(store.data.Values))
      ensures Valid() && Own(id) && OthersKept(id)
      ensures Leads(Range(), start, outs, View(id, Done))
      ensures SavedAndLaunched(old(View(id, SavePort(port))), View(id, Done), port, runs)
    {
      Write(id, Unset, port, SavePort(port), Launch(port));
      LeadsOn(Range(), start, before, Quiet);
      outs := Finish(id, port, runs, start, before + [Quiet]);
    }

    method Finish(id: Id, port: Port, runs: bool, ghost start: Scene, before: seq<Outcome>) returns (outs: seq<Outcome>)
      requires Valid() && Own(id) && id in store.Contents()
      requires Leads(Range(), start, before, View(id, Launch(port)))
      modifies this, store, store.data.Values, alloc
      ensures fresh(store.data.Values - old(store.data.Values))
      ensures Valid() && Own(id) && OthersKept(id)
      ensures Leads(Range(), start, outs, View(id, Done))
      ensures Launched(old(View(id, Launch(port))), View(id, Done), port, runs)
    {
      RunWorkload(id, port, runs);
      if !runs {
        LeadsOn(Range(), start, before, RunFailed);
        outs := Undone(id, port, start, before + [RunFailed]);
        return;
      }
      LeadsOn(Range(), start, before, RunOk);
      outs := Confirmed(id, port, start, before + [RunOk]);
    }

    method Confirmed(id: Id, port: Port, ghost start: Scene, before: seq<Outcome>) returns (outs: seq<Outcome>)
      requires Valid() && Own(id) && id in store.Contents()
      requires Leads(Range(), start, before, View(id, Confirm(port)))
      modifies store, store.data.Values
      ensures fresh(store.data.Values - old(store.data.Values))
      ensures Valid() && Own(id) && OthersKept(id) && OnlyState(id, Running)
      ensures Leads(Range(), start, outs, View(id, Done))
    {
      Write(id, Running, NO_PORT, Confirm(port), Done);
      LeadsOn(Range(), start, before, Quiet);
      return before + [Quiet];
    }

    /** A failed launch is undone: the port, then the pod. */
    method Undone(id: Id, port: Port, ghost start: Scene, before: seq<Outcome>) returns (outs: seq<Outcome>)
      requires Valid() && Own(id) && id in store.Contents()
      requires Leads(Range(), start, before, View(id, Undo(port)))
      modifies this, alloc
      ensures Valid() && Own(id) && OthersKept(id)
      ensures Leads(Range(), start, outs, View(id, Done))
      ensures Launched(old(View(id, Undo(port))), View(id, Done), port, false)
    {
      GiveBack(id, port);
      LeadsOn(Range(), start, before, Quiet);
      RemoveFailed(id, port);
      LeadsOn(Range(), start, before + [Quiet], Quiet);
      return before + [Quiet] + [Quiet];
    }

    /** A pending instance: given up after five failures, left alone once it has left CREATING, and
        otherwise tried. */
    method HandleCreation(id: Id, seen: InstanceState, c: Calls) returns (outs: seq<Outcome>)
      requires Valid() && Own(id) && Proper(c, alloc.portMin, alloc.portMax) && (seen == PENDING || seen == CREATING)
      modifies this, store, store.data.Values, alloc
      ensures fresh(store.data.Values - old(store.data.Values))
      ensures Valid() && Own(id) && OthersKept(id)
      ensures Leads(Range(), old(View(id, Todo(seen))), outs, View(id, Done))
      ensures var was := old(View(id, Todo(seen)));
              if was.l.attempts >= 5 then OnlyState(id, CreationFailed)
              else if was.l.entry.Some? && StateIn(was.l.entry) != Creating then Untouched()
              else Tried(was, View(id, Done), FirstFree(c.draws, alloc.portMin, was.taken), c.runs)
    {
      if id in attempts && attempts[id] >= MAX_ATTEMPTS {
        outs := GiveUp(id, seen);
      } else {
        outs := Consider(id, seen, c);
      }
    }

    /** It has attempts left: its status decides whether to use one. */
    method Consider(id: Id, seen: InstanceState, c: Calls) returns (outs: seq<Outcome>)
      requires Valid() && Own(id) && Proper(c, alloc.portMin, alloc.portMax) && (seen == PENDING || seen == CREATING)
      requires View(id, Todo(seen)).l.attempts < MAX_ATTEMPTS
      modifies this, store, store.data.Values, alloc
      ensures fresh(store.data.Values - old(store.data.Values))
      ensures Valid() && Own(id) && OthersKept(id)
      ensures Leads(Range(), old(View(id, Todo(seen))), outs, View(id, Done))
      ensures var was := old(View(id, Todo(seen)));
              if was.l.entry.Some? && StateIn(was.l.entry) != Creating then Untouched()
              else Tried(was, View(id, Done), FirstFree(c.draws, alloc.portMin, was.taken), c.runs)
    {
      ghost var start := View(id, Todo(seen));
      outs := [Quiet];
      FirstLook(Range(), start);
      var st := store.Get(id);
      if st.Some? && st.value.value.workload.Some? && st.value.value.workload.value.state != Creating {
        return;
      }
      outs := Begin(id, c, start, outs);
    }

    method GiveUp(id: Id, seen: InstanceState) returns (outs: seq<Outcome>)
      requires Valid() && Own(id) && (seen == PENDING || seen == CREATING)
      requires View(id, Todo(seen)).l.attempts >= MAX_ATTEMPTS
      modifies store, store.data.Values
      ensures fresh(store.data.Values - old(store.data.Values))
      ensures Valid() && Own(id) && OthersKept(id) && OnlyState(id, CreationFailed)
      ensures Leads(Range(), old(View(id, Todo(seen))), outs, View(id, Done))
    {
      outs := [Quiet];
      LeadsOn(Range(), View(id, Todo(seen)), [], Quiet);
      Write(id, CreationFailed, NO_PORT, Todo(seen), Done);
    }

    method Begin(id: Id, c: Calls, ghost start: Scene, before: seq<Outcome>) returns (outs: seq<Outcome>)
      requires Valid() && Own(id) && Proper(c, alloc.portMin, alloc.portMax)
      requires Leads(Range(), start, before, View(id, Mark))
      modifies this, store, store.data.Values, alloc
      ensures fresh(store.data.Values - old(store.data.Values))
      ensures Valid() && Own(id) && OthersKept(id)
      ensures Leads(Range(), start, outs, View(id, Done))
      ensures Tried(old(View(id, Mark)), View(id, Done), FirstFree(c.draws, alloc.portMin, old(alloc.taken)), c.runs)
    {
      Write(id, Creating, NO_PORT, Mark, Allocate);
      LeadsOn(Range(), start, before, Quiet);
      outs := Attempt(id, c, start, before + [Quiet]);
    }

    /** Removing a workload; only where "not found" is taken for an answer does it count as removed. */
    method HandleRemoval(id: Id, seen: InstanceState, c: Calls, ghost start: Scene, before: seq<Outcome>)
      returns (outs: seq<Outcome>)
      requires Valid() && Own(id) && Proper(c, alloc.portMin, alloc.portMax)
      requires Leads(Range(), start, before, View(id, Remove(seen)))
      modifies store, store.data.Values
      ensures fresh(store.data.Values - old(store.data.Values))
      ensures Valid() && Own(id) && OthersKept(id)
      ensures Leads(Range(), start, outs, View(id, Done))
      ensures if c.removal == Removed || (c.removal == NotFound && seen != CREATION_FAILED) then OnlyState(id, Deleted)
              else Untouched()
    {
      outs := before + [c.removal];
      LeadsOn(Range(), start, before, c.removal);
      if c.removal == Outcome.Failed || (c.removal == NotFound && seen == CREATION_FAILED) {
        return;
      }
      Write(id, Deleted, NO_PORT, MarkDeleted, Done);
      LeadsOn(Range(), start, outs, Quiet);
      outs := outs + [Quiet];
    }

    /** One discovered instance. Whatever the calls answer, what happens to it is a path of the machine
        from its first look to its end, and nothing else on the node changes. */
    method Reconcile(id: Id, seen: InstanceState, c: Calls) returns (outs: seq<Outcome>)
      requires Valid() && Own(id) && Proper(c, alloc.portMin, alloc.portMax)
      modifies this, store, store.data.Values, alloc
      ensures fresh(store.data.Values - old(store.data.Values))
      ensures Valid() && Own(id) && OthersKept(id)
      ensures Leads(Range(), old(View(id, Todo(seen))), outs, View(id, Done))
      // a deleted instance, and a running one that is healthy or could not be asked, is left alone
      ensures seen == DELETED || (seen == RUNNING && c.health != Unhealthy) ==> Untouched()
      // an unhealthy or unwanted one is deleted once it is removed; "not found" counts except after a failed creation
      ensures (seen == RUNNING && c.health == Unhealthy) || seen == DELETING ==>
                if c.removal == Removed || c.removal == NotFound then OnlyState(id, Deleted) else Untouched()
      ensures seen == CREATION_FAILED ==> if c.removal == Removed then OnlyState(id, Deleted) else Untouched()
      // a pending one is given up after five attempts, skipped or tried
      ensures seen == PENDING || seen == CREATING ==>
                var was := old(View(id, Todo(seen)));
                if was.l.attempts >= 5 then OnlyState(id, CreationFailed)
                else if was.l.entry.Some? && StateIn(was.l.entry) != Creating then Untouched()
                else Tried(was, View(id, Done), FirstFree(c.draws, alloc.portMin, was.taken), c.runs)
    {
      if seen == PENDING || seen == CREATING {
        outs := HandleCreation(id, seen, c);
      } else {
        outs := HandleOther(id, seen, c);
      }
    }

    /** One that is not to be created. */
    method HandleOther(id: Id, seen: InstanceState, c: Calls) returns (outs: seq<Outcome>)
      requires Valid() && Own(id) && Proper(c, alloc.portMin, alloc.portMax) && seen != PENDING && seen != CREATING
      modifies store, store.data.Values
      ensures fresh(store.data.Values - old(store.data.Values))
      ensures Valid() && Own(id) && OthersKept(id)
      ensures Leads(Range(), old(View(id, Todo(seen))), outs, View(id, Done))
      ensures if seen == DELETED || (seen == RUNNING && c.health != Unhealthy) then Untouched()
              else if c.removal == Removed || (c.removal == NotFound && seen != CREATION_FAILED) then OnlyState(id, Deleted)
              else Untouched()
    {
      ghost var start := View(id, Todo(seen));
      outs := [if seen == RUNNING then c.health else Quiet];
      FirstGlance(Range(), start, seen, outs[0]);
      if seen == DELETED {
        return;
      }
      if seen == RUNNING && c.health != Unhealthy {
        return;
      }
      outs := HandleRemoval(id, seen, c, start, outs);
    }
  }
}
