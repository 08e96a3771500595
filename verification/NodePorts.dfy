/** The port the control plane shows for a running instance is the port its workload runs on. */
module NodePorts {
  import opened Option
  import opened Status
  import opened NodeProtocol
  import opened NodeSafety
  import opened NodeTheorems

  predicate RunsOn(t: Track, port: Port) {
    t.ran == Some(port)
  }

  /** The ranges in which a port, once written, is the entry's port: 0 is never drawn, or nothing else. */
  predicate Writable(c: Config) {
    0 < c.portMin || c.portMax == 0
  }

  predicate Shows(t: Track, port: Port) {
    t.entry.Some? && t.entry.value.workload.Some? && t.entry.value.workload.value.port == port
  }

  /** The goroutine's port is in the entry from the time the workload is launched. */
  predicate PortSaved(c: Config, t: Track) {
    && (c.portMax == 0 && t.entry.Some? && t.entry.value.workload.Some? ==> t.entry.value.workload.value.port == NO_PORT)
    && (t.stage.At? ==>
          match t.stage.pc
          case SavePort(p) => c.portMin <= p <= c.portMax
          case Launch(p) => Shows(t, p)
          case Undo(p) => Shows(t, p)
          case TearDown(p) => Shows(t, p)
          case Confirm(p) => Shows(t, p)
          case _ => true)
  }

  /** Wherever the instance is called running, it is with the port its workload runs on. */
  predicate PortTrue(t: Track) {
    && (t.entry.Some? && t.entry.value.workload.Some? && t.entry.value.workload.value.state == Running ==>
          RunsOn(t, t.entry.value.workload.value.port))
    && (t.stage.Built? && t.stage.item.state == RUNNING ==> RunsOn(t, t.stage.item.port))
    && (t.row.Some? && t.row.value.state == RUNNING ==> RunsOn(t, t.row.value.port))
  }

  predicate PortFine(c: Config, t: Track) {
    PortSaved(c, t) && PortTrue(t)
  }

  lemma AdvancePort(c: Config, taken: set<Port>, t: Track, l: Local, out: Outcome)
    requires Writable(c) && t == WithLocal(t, l) && Fine(t) && PortFine(c, t) && t.job.None?
    requires Possible(c, taken, l.pc, out)
    ensures PortFine(c, WithLocal(t, Advance(l, out)))
  {
  }

  lemma GoPort(c: Config, s: Node, g: Id, out: Outcome, id: Id)
    requires Writable(c) && Fine(TrackOf(s, id)) && PortFine(c, TrackOf(s, id)) && Enabled(c, s, Go(g, out))
    ensures PortFine(c, TrackOf(Next(c, s, Go(g, out)), id))
  {
    if id == g {
      GoTrack(c, s, g, out);
      AdvancePort(c, s.taken, TrackOf(s, g), LocalOf(s, g, s.phase.pcs[g]), out);
    } else {
      GoFrame(c, s, g, out, id);
    }
  }

  lemma TickAllPort(c: Config, s: Node, t: TickAct, id: Id)
    requires PortFine(c, TrackOf(s, id)) && TickEnabled(s, t) && !t.Build? && !t.Forget?
    ensures PortFine(c, TrackOf(TickNext(s, t), id))
  {
  }

  lemma BuildPort(c: Config, s: Node, id: Id)
    requires TickEnabled(s, Build(id)) && Fine(TrackOf(s, id)) && PortFine(c, TrackOf(s, id))
    ensures PortFine(c, TrackOf(TickNext(s, Build(id)), id))
  {
  }

  lemma ForgetPort(c: Config, s: Node, id: Id)
    requires TickEnabled(s, Forget(id)) && Fine(TrackOf(s, id)) && PortFine(c, TrackOf(s, id))
    ensures PortFine(c, TrackOf(TickNext(s, Forget(id)), id))
  {
  }

  lemma TickPort(c: Config, s: Node, t: TickAct, id: Id)
    requires Fine(TrackOf(s, id)) && PortFine(c, TrackOf(s, id)) && TickEnabled(s, t)
    ensures PortFine(c, TrackOf(TickNext(s, t), id))
  {
    if !t.Build? && !t.Forget? {
      TickAllPort(c, s, t, id);
    } else if t.id != id {
      TickFrame(s, t, id);
    } else if t.Build? {
      BuildPort(c, s, id);
    } else {
      ForgetPort(c, s, id);
    }
  }

  lemma StoppedPort(c: Config, t: Track)
    requires Fine(t) && PortFine(c, t)
    ensures PortFine(c, Stopped(t))
  {
  }

  lemma OwnRequestPort(c: Config, s: Node, id: Id, r: RequestAct)
    requires PortFine(c, TrackOf(s, id)) && RequestEnabled(s, id, r) && r != StopWorkload
    ensures PortFine(c, TrackOf(RequestNext(s, id, r), id))
  {
  }

  lemma RequestPort(c: Config, s: Node, q: Id, r: RequestAct, id: Id)
    requires Fine(TrackOf(s, id)) && PortFine(c, TrackOf(s, id)) && RequestEnabled(s, q, r)
    ensures PortFine(c, TrackOf(RequestNext(s, q, r), id))
  {
    if q != id {
      RequestFrame(s, q, r, id);
    } else if r == StopWorkload {
      StopTrack(s, id);
      StoppedPort(c, TrackOf(s, id));
    } else {
      OwnRequestPort(c, s, id, r);
    }
  }

  lemma CheckpointPort(c: Config, t: Track)
    requires Fine(t) && t.job.Some? && HasCheckpoint(t)
    ensures PortFine(c, t)
  {
  }

  lemma JobHasCheckpoint(c: Config, s: Node, id: Id, j: JobAct)
    requires Fine(TrackOf(s, id)) && JobEnabled(c, s, id, j) && j != Issue && j != Start
    ensures var t := TrackOf(JobNext(c, s, id, j), id); t.job.Some? && HasCheckpoint(t)
  {
  }

  lemma NewJobPort(c: Config, s: Node, id: Id, j: JobAct)
    requires Fine(TrackOf(s, id)) && PortFine(c, TrackOf(s, id)) && JobEnabled(c, s, id, j) && (j == Issue || j == Start)
    ensures PortFine(c, TrackOf(JobNext(c, s, id, j), id))
  {
  }

  lemma JobPort(c: Config, s: Node, q: Id, j: JobAct, id: Id)
    requires Fine(TrackOf(s, id)) && PortFine(c, TrackOf(s, id)) && JobEnabled(c, s, q, j)
    ensures PortFine(c, TrackOf(JobNext(c, s, q, j), id))
  {
    if q != id {
      JobFrame(c, s, q, j, id);
    } else if j == Issue || j == Start {
      NewJobPort(c, s, id, j);
    } else {
      JobFine(c, s, q, j, id);
      JobHasCheckpoint(c, s, id, j);
      CheckpointPort(c, TrackOf(JobNext(c, s, q, j), id));
    }
  }

  lemma GcPort(c: Config, s: Node, g: GcAct, id: Id)
    requires Fine(TrackOf(s, id)) && PortFine(c, TrackOf(s, id)) && GcEnabled(s, g)
    ensures PortFine(c, TrackOf(GcNext(c, s, g), id))
  {
    if (g.GcVisit? || g.GcFree?) && g.id != id {
      GcFrame(c, s, g, id);
    }
  }

  /** In every reachable state, for such a range: a row that says RUNNING carries the
      port its workload runs on, and so does a running entry of the node's store. */
  lemma {:induction false} RunningPortTrue(c: Config, es: seq<Event>, id: Id)
    requires Writable(c) && Run(c, es).Some?
    ensures PortFine(c, TrackOf(Run(c, es).value, id))
  {
    if es != [] {
      var s := LastStep(c, es);
      var e := es[|es| - 1];
      RunningPortTrue(c, es[..|es| - 1], id);
      RunInv(c, es[..|es| - 1]);
      assert Fine(TrackOf(s, id));
      match e
      case Tick(t) => TickPort(c, s, t, id);
      case Go(g, out) => GoPort(c, s, g, out, id);
      case Request(q, r) => RequestPort(c, s, q, r, id);
      case JobStep(q, j) => JobPort(c, s, q, j, id);
      case GcStep(g) => GcPort(c, s, g, id);
      case Clock => assert TrackOf(Next(c, s, e), id) == TrackOf(s, id);
    }
  }
}
