/** What a tick of the reconciler covers: it looks at every instance, reports every workload of its view, and
    has forgotten what it reported as terminal when it ends. */
module NodeTicks {
  import opened Option
  import opened Status
  import opened NodeProtocol
  import opened NodeSafety
  import opened NodeTheorems
  import opened NodeCleanup

  /** A tick starts on exactly the instances of the node, each as the control plane has it. */
  lemma DiscoversAll(s: Node, id: Id)
    requires TickEnabled(s, Discover)
    ensures StageOf(TickNext(s, Discover).phase, id) == if id in s.rows then At(Todo(s.rows[id].state)) else Outside
  {
  }

  /** An item carries the port of the entry and its state, by the name the control plane has for it. */
  lemma ItemTells(s: Node, id: Id)
    requires TickEnabled(s, Build(id)) && IsWorkload(s, id)
    ensures var items, w := TickNext(s, Build(id)).phase.items, s.store[id].workload.value;
            && id in items && items[id].port == w.port
            && (items[id].state == CREATING <==> w.state == Creating)
            && (items[id].state == RUNNING <==> w.state == Running)
            && (items[id].state == DELETED <==> w.state == Deleted)
            && (items[id].state == CREATION_FAILED <==> w.state == CreationFailed)
  {
  }

  // ---- What is reported ----

  /** The workloads in the store when the latest view was taken. */
  ghost function Viewed(c: Config, es: seq<Event>): set<Id> {
    if es == [] then {}
    else
      var n := |es| - 1;
      if es[n] == Tick(View) && Run(c, es[..n]).Some? then
        set id | id in Run(c, es[..n]).value.store && IsWorkload(Run(c, es[..n]).value, id)
      else
        Viewed(c, es[..n])
  }

  /** The ids of the view a phase accounts for. */
  function Covered(p: Phase): set<Id> {
    match p
    case Collecting(todo, items, _) => todo + items.Keys
    case Forgetting(_, sent, _) => sent.Keys
    case _ => {}
  }

  lemma CoveredStep(c: Config, s: Node, e: Event)
    requires Inv(s) && Enabled(c, s, e) && Reporting(Next(c, s, e).phase) && e != Tick(View)
    ensures Reporting(s.phase) && Covered(Next(c, s, e).phase) == Covered(s.phase)
  {
    match e
    case Tick(t) =>
      if t.Build? {
        BuildsWorkload(s, t.id);
      }
      TickCovered(s, t);
    case JobStep(q, j) => JobLeaves(c, s, q, j);
    case GcStep(g) => GcLeaves(c, s, g);
    case Request(q, r) => RequestCovered(s, q, r);
    case _ =>
  }

  lemma TickCovered(s: Node, t: TickAct)
    requires TickEnabled(s, t) && Reporting(TickNext(s, t).phase) && t != View && (t.Build? ==> IsWorkload(s, t.id))
    ensures Reporting(s.phase) && Covered(TickNext(s, t).phase) == Covered(s.phase)
  {
  }

  lemma RequestCovered(s: Node, q: Id, r: RequestAct)
    requires RequestEnabled(s, q, r) && Reporting(RequestNext(s, q, r).phase)
    ensures Reporting(s.phase) && Covered(RequestNext(s, q, r).phase) == Covered(s.phase)
  {
  }

  /** In every run the report of a tick covers exactly the workloads its view had. */
  lemma {:induction false} ReportsAll(c: Config, es: seq<Event>)
    requires Run(c, es).Some? && Reporting(Run(c, es).value.phase)
    ensures Covered(Run(c, es).value.phase) == Viewed(c, es)
  {
    if es != [] {
      var before, e := es[..|es| - 1], es[|es| - 1];
      var s := LastStep(c, es);
      RunInv(c, before);
      if e == Tick(View) {
        assert Covered(Next(c, s, e).phase) == set id | id in s.store && IsWorkload(s, id);
      } else {
        CoveredStep(c, s, e);
        ReportsAll(c, before);
      }
    }
  }

  // ---- What is forgotten ----

  /** An id whose report was terminal and whose turn in the cleanup is over. */
  predicate Forgotten(p: Phase, id: Id) {
    p.Forgetting? && id in p.sent && id !in p.left && (p.sent[id].state == DELETED || p.sent[id].state == CREATION_FAILED)
  }

  lemma ForgottenWhen(s: Node, t: TickAct, id: Id)
    requires TickEnabled(s, t) && Forgotten(TickNext(s, t).phase, id)
    ensures t.Forget? && s.phase.Forgetting?
  {
  }

  lemma ForgottenNow(s: Node, id: Id)
    requires Fine(TrackOf(s, id)) && Tidy(s) && TickEnabled(s, Forget(id)) && Forgotten(TickNext(s, Forget(id)).phase, id)
    ensures id !in TickNext(s, Forget(id)).store || id in Noted(s.phase)
  {
  }

  lemma ForgottenBefore(s: Node, f: Id, id: Id)
    requires TickEnabled(s, Forget(f)) && Forgotten(TickNext(s, Forget(f)).phase, id) && f != id
    ensures Forgotten(s.phase, id)
    ensures Lookup(TickNext(s, Forget(f)).store, id) == Lookup(s.store, id)
  {
    TickFrame(s, Forget(f), id);
  }

  lemma ForgottenJob(c: Config, s: Node, q: Id, j: JobAct, id: Id)
    requires JobEnabled(c, s, q, j) && (id !in s.store || IsCheckpoint(s, id))
    ensures var s' := JobNext(c, s, q, j); id !in s'.store || IsCheckpoint(s', id)
  {
    if q != id {
      JobFrame(c, s, q, j, id);
    }
  }

  lemma ForgottenGc(c: Config, s: Node, g: GcAct, id: Id)
    requires GcEnabled(s, g) && (id !in s.store || IsCheckpoint(s, id))
    ensures var s' := GcNext(c, s, g); id !in s'.store || IsCheckpoint(s', id)
  {
    if (g.GcVisit? || g.GcFree?) && g.id != id {
      GcFrame(c, s, g, id);
    }
  }

  lemma ForgottenRequest(s: Node, q: Id, r: RequestAct, id: Id)
    requires RequestEnabled(s, q, r) && Forgotten(RequestNext(s, q, r).phase, id)
    ensures Forgotten(s.phase, id)
    ensures !(q == id && r == StopWorkload) ==>
              (id in RequestNext(s, q, r).store <==> id in s.store) && (IsCheckpoint(RequestNext(s, q, r), id) <==> IsCheckpoint(s, id))
  {
    if q != id {
      RequestFrame(s, q, r, id);
    }
  }

  /** In every run, what a tick reported as deleted or failed is out of the store once its turn in the cleanup
      is over, so when the tick ends; unless it was stopped after its item was built, or a checkpoint has
      written its first status under the id since. */
  lemma {:induction false} ReportedForgotten(c: Config, es: seq<Event>, id: Id)
    requires Run(c, es).Some? && Forgotten(Run(c, es).value.phase, id)
    ensures var s := Run(c, es).value; id !in s.store || IsCheckpoint(s, id) || StoppedSinceBuilt(es, id)
  {
    if es != [] {
      var before, e := es[..|es| - 1], es[|es| - 1];
      var s := LastStep(c, es);
      RunInv(c, before);
      assert Fine(TrackOf(s, id));
      assert es == before + [e];
      StoppedSinceStep(before, e, id);
      match e
      case Tick(t) =>
        ForgottenWhen(s, t, id);
        if t.id == id {
          ForgottenNow(s, id);
          NotedMeans(c, before, id);
        } else {
          ForgottenBefore(s, t.id, id);
          ReportedForgotten(c, before, id);
        }
      case Request(q, r) =>
        ForgottenRequest(s, q, r, id);
        ReportedForgotten(c, before, id);
      case JobStep(q, j) =>
        JobLeaves(c, s, q, j);
        ReportedForgotten(c, before, id);
        if !StoppedSinceBuilt(before, id) {
          ForgottenJob(c, s, q, j, id);
        }
      case GcStep(g) =>
        GcLeaves(c, s, g);
        ReportedForgotten(c, before, id);
        if !StoppedSinceBuilt(before, id) {
          ForgottenGc(c, s, g, id);
        }
      case Clock => ReportedForgotten(c, before, id);
      case Go(_, _) =>
    }
  }
}
