/** Progress: an instance that can never be started leaves the system after seven error-free ticks,
    however the ticks are scheduled and however many failing ticks lie between them. */
module NodeProgress {
  import opened Option
  import opened Status
  import opened NodeProtocol
  import opened NodeSafety
  import opened NodeTheorems
  import opened NodeCleanup

  /** No start of `id` succeeds, every removal of it does, and nobody stops or deletes it. */
  predicate Hapless(e: Event, id: Id) {
    && e != Go(id, RunOk) && e != Go(id, NotFound) && e != Go(id, Failed)
    && !(e.Request? && e.id == id)
  }

  predicate StateIs(t: Track, s: WorkloadState) {
    t.entry.Some? && t.entry.value.workload.Some? && t.entry.value.workload.value.state == s
  }

  predicate RowIs(t: Track, s: InstanceState) {
    t.row.Some? && t.row.value.state == s
  }

  predicate Gone(t: Track) {
    t.row.None? && t.entry.None?
  }

  /** Waiting to be created, or to be declared failed once the attempts are used up. */
  predicate Waiting(t: Track) {
    && (RowIs(t, PENDING) || RowIs(t, CREATING))
    && (t.entry.None? || StateIs(t, Creating) || (StateIs(t, CreationFailed) && t.attempts == MAX_ATTEMPTS))
  }

  /** Requested after the current tick had asked for the instances. */
  predicate Missed(t: Track) {
    Waiting(t) && t.entry.None?
  }

  /** Declared failed; what is left is to remove it. */
  predicate Leaving(t: Track) {
    || (RowIs(t, CREATION_FAILED) && (t.entry.None? || StateIs(t, CreationFailed) || StateIs(t, Deleted)))
    || (t.row.None? && StateIs(t, Deleted))
  }

  /** Error-free ticks the instance still needs when no tick is under way. */
  function Ticks(t: Track): nat {
    if Gone(t) then 0
    else if Leaving(t) || t.attempts > MAX_ATTEMPTS then 1
    else 7 - t.attempts
  }

  /** Error-free ticks needed after the current one, once this tick has settled the entry. */
  function AfterReport(t: Track): nat {
    if StateIs(t, Deleted) then 0
    else if StateIs(t, CreationFailed) || t.attempts > MAX_ATTEMPTS then 1
    else 7 - t.attempts
  }

  /** A track an instance that never starts can be in, by phase of the tick. */
  predicate Hopeless(p: Phase, t: Track) {
    && t.born && t.job.None? && t.ran.None? && t.attempts <= MAX_ATTEMPTS
    && (match t.stage
        case Outside =>
          if p.Idle? || p.Forgetting? then Gone(t) || Waiting(t) || Leaving(t)
          else Gone(t) || (p.Reconciling? && t.row.None? && StateIs(t, Deleted)) || Missed(t)
        case At(pc) =>
          (match pc
           case Todo(seen) => RowIs(t, seen) && (Waiting(t) || Leaving(t))
           case Mark => Waiting(t)
           case Allocate => Waiting(t)
           case SavePort(_) => Waiting(t)
           case Launch(_) => Waiting(t)
           case Undo(_) => Waiting(t)
           case TearDown(_) => Waiting(t)
           case Confirm(_) => false
           case Remove(seen) => RowIs(t, seen) && Leaving(t)
           case MarkDeleted => RowIs(t, CREATION_FAILED) && Leaving(t)
           case Done => t.entry.Some? && (Waiting(t) || (Leaving(t) && StateIs(t, Deleted))))
        case Queued => t.entry.Some? && (Waiting(t) || (Leaving(t) && StateIs(t, Deleted)))
        case Built(_, late) => !late && t.entry.Some? && (Waiting(t) || (Leaving(t) && StateIs(t, Deleted)))
        case Reported(sent, tardy) =>
          && !tardy
          && (|| (sent.state == CREATING && RowIs(t, CREATING) && StateIs(t, Creating))
              || (sent.state == CREATION_FAILED && RowIs(t, CREATION_FAILED) && StateIs(t, CreationFailed))
              || (sent.state == DELETED && t.row.None? && StateIs(t, Deleted))))
  }

  /** Ticks needed, counting the current one: it falls when an error-free tick ends, and at no other
      time does it rise. */
  function Potential(p: Phase, t: Track): nat {
    match t.stage
    case Outside =>
      if Gone(t) then 0
      else if p.Idle? then Ticks(t)
      else if p.Forgetting? || Missed(t) then Ticks(t) + 1
      else 1
    case At(Done) => AfterReport(t) + 1
    case At(_) => Ticks(t)
    case _ => AfterReport(t) + 1
  }

  /** The step towards leaving: one less when an error-free tick ends. */
  predicate Falls(before: nat, after: nat, ended: bool) {
    after <= before && (ended ==> after < before || before == 0)
  }

  lemma AdvanceFalls(c: Config, taken: set<Port>, p: Phase, t: Track, l: Local, out: Outcome)
    requires p.Reconciling? && t == WithLocal(t, l) && Fine(t) && Possible(c, taken, l.pc, out)
    requires Hopeless(p, t) && out != RunOk && out != NotFound && out != Failed
    ensures var t' := WithLocal(t, Advance(l, out));
            Hopeless(p, t') && Potential(p, t') <= Potential(p, t)
  {
  }

  lemma GoOwnFalls(c: Config, s: Node, id: Id, out: Outcome)
    requires Fine(TrackOf(s, id)) && Enabled(c, s, Go(id, out)) && Hapless(Go(id, out), id)
    requires Hopeless(s.phase, TrackOf(s, id))
    ensures var s' := Next(c, s, Go(id, out));
            && Hopeless(s.phase, TrackOf(s', id))
            && Potential(s.phase, TrackOf(s', id)) <= Potential(s.phase, TrackOf(s, id))
  {
    GoTrack(c, s, id, out);
    AdvanceFalls(c, s.taken, s.phase, TrackOf(s, id), LocalOf(s, id, s.phase.pcs[id]), out);
  }

  /** Only the kind of phase matters. */
  lemma SamePhase(p: Phase, p': Phase, t: Track)
    requires p.Reconciling? && p'.Reconciling?
    ensures Hopeless(p, t) == Hopeless(p', t) && Potential(p, t) == Potential(p', t)
  {
  }

  lemma GoFalls(c: Config, s: Node, g: Id, out: Outcome, id: Id)
    requires Fine(TrackOf(s, g)) && Fine(TrackOf(s, id)) && Enabled(c, s, Go(g, out)) && Hapless(Go(g, out), id)
    requires Hopeless(s.phase, TrackOf(s, id))
    ensures var s' := Next(c, s, Go(g, out));
            && Hopeless(s'.phase, TrackOf(s', id))
            && Potential(s'.phase, TrackOf(s', id)) <= Potential(s.phase, TrackOf(s, id))
  {
    var s' := Next(c, s, Go(g, out));
    SamePhase(s.phase, s'.phase, TrackOf(s', id));
    if g == id {
      GoOwnFalls(c, s, id, out);
    } else {
      GoFrame(c, s, g, out, id);
    }
  }

  lemma ReportFalls(s: Node, a: TickAct, id: Id)
    requires Fine(TrackOf(s, id)) && TickEnabled(s, a) && Hopeless(s.phase, TrackOf(s, id))
    requires a.ReportOk? || a.ReportFailed?
    ensures var s' := TickNext(s, a);
            && Hopeless(s'.phase, TrackOf(s', id))
            && Potential(s'.phase, TrackOf(s', id)) <= Potential(s.phase, TrackOf(s, id))
  {
  }

  lemma PhaseFalls(s: Node, a: TickAct, id: Id)
    requires Fine(TrackOf(s, id)) && TickEnabled(s, a) && Hopeless(s.phase, TrackOf(s, id))
    requires a.Discover? || a.View? || a.EndTick?
    ensures var s' := TickNext(s, a);
            && Hopeless(s'.phase, TrackOf(s', id))
            && Falls(Potential(s.phase, TrackOf(s, id)), Potential(s'.phase, TrackOf(s', id)), a == EndTick)
  {
  }

  lemma TickOwnFalls(s: Node, a: TickAct, id: Id)
    requires Fine(TrackOf(s, id)) && Tidy(s) && TickEnabled(s, a) && Hopeless(s.phase, TrackOf(s, id))
    requires (a.Build? || a.Forget?) && a.id == id && IsWorkload(s, id)
    ensures var s' := TickNext(s, a);
            && Hopeless(s'.phase, TrackOf(s', id))
            && Potential(s'.phase, TrackOf(s', id)) <= Potential(s.phase, TrackOf(s, id))
  {
  }

  lemma TickFalls(s: Node, a: TickAct, id: Id)
    requires Fine(TrackOf(s, id)) && Tidy(s) && TickEnabled(s, a) && Hopeless(s.phase, TrackOf(s, id))
    requires a.Build? || a.Forget? ==> IsWorkload(s, a.id)
    ensures var s' := TickNext(s, a);
            && Hopeless(s'.phase, TrackOf(s', id))
            && Falls(Potential(s.phase, TrackOf(s, id)), Potential(s'.phase, TrackOf(s', id)), a == EndTick)
  {
    if a.ReportOk? || a.ReportFailed? {
      ReportFalls(s, a, id);
    } else if !a.Build? && !a.Forget? {
      PhaseFalls(s, a, id);
    } else if a.id == id {
      TickOwnFalls(s, a, id);
    } else {
      TickFrame(s, a, id);
    }
  }

  lemma StepFalls(c: Config, s: Node, e: Event, id: Id)
    requires Inv(s) && Enabled(c, s, e) && Hapless(e, id) && Hopeless(s.phase, TrackOf(s, id))
    ensures var s' := Next(c, s, e);
            && Hopeless(s'.phase, TrackOf(s', id))
            && Falls(Potential(s.phase, TrackOf(s, id)), Potential(s'.phase, TrackOf(s', id)), e == Tick(EndTick))
  {
    assert Fine(TrackOf(s, id));
    match e
    case Tick(a) =>
      if a.Build? || a.Forget? { assert Fine(TrackOf(s, a.id)); }
      TickFalls(s, a, id);
    case Go(g, out) => assert Fine(TrackOf(s, g)); GoFalls(c, s, g, out, id);
    case Request(q, r) => RequestFalls(s, q, r, id);
    case JobStep(q, j) => JobFalls(c, s, q, j, id);
    case GcStep(g) => GcFalls(c, s, g, id);
    case Clock =>
  }

  lemma RequestFalls(s: Node, q: Id, r: RequestAct, id: Id)
    requires RequestEnabled(s, q, r) && q != id && Hopeless(s.phase, TrackOf(s, id))
    ensures var s' := RequestNext(s, q, r);
            && Hopeless(s'.phase, TrackOf(s', id))
            && Potential(s'.phase, TrackOf(s', id)) == Potential(s.phase, TrackOf(s, id))
  {
    RequestFrame(s, q, r, id);
  }

  lemma JobFalls(c: Config, s: Node, q: Id, j: JobAct, id: Id)
    requires JobEnabled(c, s, q, j) && Hopeless(s.phase, TrackOf(s, id))
    ensures var s' := JobNext(c, s, q, j);
            && Hopeless(s'.phase, TrackOf(s', id))
            && Potential(s'.phase, TrackOf(s', id)) == Potential(s.phase, TrackOf(s, id))
  {
    assert q != id;
    JobFrame(c, s, q, j, id);
  }

  lemma GcFalls(c: Config, s: Node, g: GcAct, id: Id)
    requires Fine(TrackOf(s, id)) && GcEnabled(s, g) && Hopeless(s.phase, TrackOf(s, id))
    ensures var s' := GcNext(c, s, g);
            && Hopeless(s'.phase, TrackOf(s', id))
            && Potential(s'.phase, TrackOf(s', id)) == Potential(s.phase, TrackOf(s, id))
  {
    if g.GcVisit? || g.GcFree? {
      assert g.id != id;
      GcFrame(c, s, g, id);
    }
  }

  function EndedTicks(es: seq<Event>): nat {
    if es == [] then 0 else EndedTicks(es[..|es| - 1]) + if es[|es| - 1] == Tick(EndTick) then 1 else 0
  }

  /** Along any continuation in which the instance stays hapless, the ticks it still needs never
      rise, and fall with every tick that ends without an error. */
  lemma {:induction false} NeedsFewer(c: Config, before: seq<Event>, after: seq<Event>, id: Id)
    requires Run(c, before).Some? && Run(c, before + after).Some?
    requires forall e | e in after :: Hapless(e, id)
    requires Hopeless(Run(c, before).value.phase, TrackOf(Run(c, before).value, id))
    ensures var s, s' := Run(c, before).value, Run(c, before + after).value;
            && Hopeless(s'.phase, TrackOf(s', id))
            && Potential(s'.phase, TrackOf(s', id)) <= Potential(s.phase, TrackOf(s, id))
            && (Potential(s'.phase, TrackOf(s', id)) + EndedTicks(after) <= Potential(s.phase, TrackOf(s, id))
                || Potential(s'.phase, TrackOf(s', id)) == 0)
    decreases after
  {
    if after == [] {
      assert before + after == before;
    } else {
      var es, e := before + after[..|after| - 1], after[|after| - 1];
      assert before + after == es + [e];
      RunSplit(c, es, e);
      NeedsFewer(c, before, after[..|after| - 1], id);
      RunInv(c, es);
      StepFalls(c, Run(c, es).value, e, id);
    }
  }

  /** A freshly requested instance that can never be started is gone from the control plane and from
      the node after seven error-free ticks that began after the request: whatever else happens, in any
      interleaving, and wherever in a later tick one looks. A tick already under way when the request
      comes does not count, so then eight have to end. */
  lemma GoneAfterSevenTicks(c: Config, before: seq<Event>, after: seq<Event>, id: Id)
    requires Run(c, before).Some? && Run(c, before + [Request(id, RunFlavorVersion)] + after).Some?
    requires forall e | e in after :: Hapless(e, id)
    requires EndedTicks(after) >= if Run(c, before).value.phase.Idle? then 7 else 8
    ensures var s := Run(c, before + [Request(id, RunFlavorVersion)] + after).value;
            id !in s.rows && id !in s.store
  {
    var start := before + [Request(id, RunFlavorVersion)];
    PrefixRuns(c, start, after);
    RunSplit(c, before, Request(id, RunFlavorVersion));
    RunInv(c, before);
    Fresh(Run(c, before).value, id);
    NeedsFewer(c, start, after, id);
    var s := Run(c, start + after).value;
    ZeroGone(s.phase, TrackOf(s, id));
  }

  lemma Fresh(s: Node, id: Id)
    requires Inv(s) && RequestEnabled(s, id, RunFlavorVersion)
    ensures var s' := RequestNext(s, id, RunFlavorVersion);
            && Hopeless(s'.phase, TrackOf(s', id))
            && Potential(s'.phase, TrackOf(s', id)) <= if s.phase.Idle? then 7 else 8
  {
    assert Fine(TrackOf(s, id));
  }

  lemma ZeroGone(p: Phase, t: Track)
    requires Hopeless(p, t) && Potential(p, t) == 0
    ensures Gone(t)
  {
  }

  lemma {:induction false} PrefixRuns(c: Config, es: seq<Event>, more: seq<Event>)
    requires Run(c, es + more).Some?
    ensures Run(c, es).Some?
    decreases more
  {
    if more == [] {
      assert es + more == es;
    } else {
      assert es + more == (es + more[..|more| - 1]) + [more[|more| - 1]];
      RunSplit(c, es + more[..|more| - 1], more[|more| - 1]);
      PrefixRuns(c, es, more[..|more| - 1]);
    }
  }
}
