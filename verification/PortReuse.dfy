/** A failed attempt gives its port back before its pod is removed, and the CNI DEL of that pod finds the
    map entries by port: what the DEL of one instance does to the entries of another. */
module PortReuse {
  import opened Option
  import opened Status
  import opened NodeProtocol
  import opened NodeSafety
  import opened NodeTheorems
  import opened NodeCleanup
  import opened NodePorts
  import opened NodeWitnesses
  import opened Datapath

  /** The port the DEL of an instance's pod is told: the one in its status, unless there is none. */
  function DelPort(s: Node, id: Id): Option<U16> {
    if IsWorkload(s, id) && s.store[id].workload.value.port != NO_PORT then
      Some(s.store[id].workload.value.port % 0x1_0000)
    else
      None
  }

  lemma DelPortShown(s: Node, id: Id, p: U16)
    requires Shows(TrackOf(s, id), p) && 0 < p
    ensures DelPort(s, id) == Some(p)
  {
    assert p % 0x1_0000 == p;
  }

  /** While a pod is torn down, the status shows the port of its attempt. */
  lemma TearDownShows(c: Config, es: seq<Event>, a: Id, p: Port)
    requires Writable(c) && Run(c, es).Some? && TrackOf(Run(c, es).value, a).stage == At(TearDown(p))
    ensures Shows(TrackOf(Run(c, es).value, a), p)
  {
    RunningPortTrue(c, es, a);
  }

  /** In every run: the DEL of a failed attempt, outstanding while its pod is torn down, spares the entries
      of another container exactly when that one has not got the attempt's port. */
  lemma TearDownSparesIff(c: Config, es: seq<Event>, a: Id, p: U16, m: Maps, e: Entry)
    requires Writable(c) && Run(c, es).Some? && TrackOf(Run(c, es).value, a).stage == At(TearDown(p)) && 0 < p
    requires Usable(e) && HasEntries(m, e) && OthersApart(m, e)
    ensures HasEntries(AfterDel(m, DelPort(Run(c, es).value, a)), e) <==> e.port != p
  {
    TearDownShows(c, es, a, p);
    DelPortShown(Run(c, es).value, a, p);
    SparedIff(m, e, Some(p));
  }

  /** An instance holds the port of a failed attempt of another one whose pod is still there. */
  ghost predicate Reused(s: Node, a: Id, b: Id, p: Port) {
    a != b && TrackOf(s, a).stage == At(TearDown(p)) && Held(TrackOf(s, b)) == Some(p) && 0 < p
  }

  predicate InRange(c: Config, g: Stage) {
    g.At? && (g.pc.SavePort? || g.pc.Launch? || g.pc.Undo? || g.pc.TearDown? || g.pc.Confirm?) ==>
      c.portMin <= g.pc.port <= c.portMax
  }

  lemma AdvanceRange(c: Config, taken: set<Port>, l: Local, out: Outcome)
    requires InRange(c, At(l.pc)) && Possible(c, taken, l.pc, out)
    ensures InRange(c, At(Advance(l, out).pc))
  {
  }

  lemma TickPhase(s: Node, t: TickAct)
    requires TickEnabled(s, t) && TickNext(s, t).phase.Reconciling?
    ensures t == Discover
  {
  }

  lemma TickRange(c: Config, s: Node, t: TickAct, id: Id)
    requires TickEnabled(s, t)
    ensures InRange(c, StageOf(TickNext(s, t).phase, id))
  {
    if TickNext(s, t).phase.Reconciling? {
      TickPhase(s, t);
    }
  }

  lemma RequestRange(c: Config, s: Node, q: Id, r: RequestAct, id: Id)
    requires RequestEnabled(s, q, r) && InRange(c, StageOf(s.phase, id))
    ensures InRange(c, StageOf(RequestNext(s, q, r).phase, id))
  {
  }

  lemma RangeStep(c: Config, s: Node, e: Event, id: Id)
    requires Enabled(c, s, e) && InRange(c, StageOf(s.phase, id))
    ensures InRange(c, StageOf(Next(c, s, e).phase, id))
  {
    match e
    case Tick(t) => TickRange(c, s, t, id);
    case Go(g, out) => if g == id { AdvanceRange(c, s.taken, LocalOf(s, g, s.phase.pcs[g]), out); }
    case Request(q, r) => RequestRange(c, s, q, r, id);
    case JobStep(q, j) => JobLeaves(c, s, q, j);
    case GcStep(g) => GcLeaves(c, s, g);
    case Clock =>
  }

  lemma {:induction false} PortsInRange(c: Config, es: seq<Event>, id: Id)
    requires Run(c, es).Some?
    ensures InRange(c, StageOf(Run(c, es).value.phase, id))
  {
    if es != [] {
      var s := LastStep(c, es);
      PortsInRange(c, es[..|es| - 1], id);
      RangeStep(c, s, es[|es| - 1], id);
    }
  }

  /** Two instances, discovered. */
  lemma TwoPending(c: Config) returns (es: seq<Event>, s: Node)
    ensures Leads(c, es, s)
    ensures s.phase == Reconciling(map[7 := Todo(PENDING), 8 := Todo(PENDING)])
    ensures s.store == map[] && s.attempts == map[] && s.taken == {} && s.ran == map[] && s.jobs == map[]
  {
    es, s := [], Init();
    es, s := Extend(c, es, s, Request(7, RunFlavorVersion));
    es, s := Extend(c, es, s, Request(8, RunFlavorVersion));
    es, s := Extend(c, es, s, Tick(Discover));
    assert s.phase.pcs == map[7 := Todo(PENDING), 8 := Todo(PENDING)];
  }

  /** The first one's attempt failed on port `p`, its pod being torn down. */
  lemma OneTearingDown(c: Config, p: Port) returns (es: seq<Event>, s: Node)
    requires c.portMin <= p <= c.portMax && 0 < p
    ensures Leads(c, es, s)
    ensures s.phase == Reconciling(map[7 := TearDown(p), 8 := Todo(PENDING)])
    ensures s.store == map[7 := OfWorkload(Creating, p)] && s.attempts == map[7 := 0] && s.taken == {}
    ensures s.ran == map[] && s.jobs == map[]
  {
    es, s := TwoPending(c);
    es, s := DrawPort(c, es, s, 7, p);
    es, s := LaunchFails(c, es, s, 7, p);
    assert s.phase.pcs == map[7 := TearDown(p), 8 := Todo(PENDING)];
  }

  /** And the second one runs on it. */
  lemma ReusedRun(c: Config, p: Port) returns (es: seq<Event>, s: Node)
    requires c.portMin <= p <= c.portMax && 0 < p
    ensures Run(c, es) == Some(s) && Reused(s, 7, 8, p) && s.ran == map[8 := p]
  {
    es, s := OneTearingDown(c, p);
    es, s := DrawPort(c, es, s, 8, p);
    es, s := LaunchOk(c, es, s, 8, p);
    assert s.phase.pcs == map[7 := TearDown(p), 8 := Done];
  }

  /** Such a reuse happens in some run if and only if the range has a port other than 0. */
  lemma ReusedIff(c: Config)
    ensures (exists es, a, b, p :: Run(c, es).Some? && Reused(Run(c, es).value, a, b, p)) <==>
            c.portMin <= c.portMax && 0 < c.portMax
  {
    if c.portMin <= c.portMax && 0 < c.portMax {
      var es, s := ReusedRun(c, c.portMax);
      assert Reused(Run(c, es).value, 7, 8, c.portMax);
    }
    forall es, a, b, p | Run(c, es).Some? && Reused(Run(c, es).value, a, b, p)
      ensures c.portMin <= c.portMax && 0 < c.portMax
    {
      PortsInRange(c, es, a);
    }
  }
}
