/** The control plane's end of the status protocol: applying a batch of reports to the instance rows. */
module Reports {
  import opened Option
  import opened Status
  import opened NodeProtocol

  datatype StatusReport = StatusReport(id: Id, state: InstanceState, port: Port)

  /** Some report of the batch says that the instance is gone. */
  predicate SaysDeleted(reports: seq<StatusReport>, id: Id) {
    reports != [] &&
    var r := reports[|reports| - 1];
    (r.id == id && r.state == DELETED) || SaysDeleted(reports[..|reports| - 1], id)
  }

  /** The state and port of the last report about `id` that does not say so. */
  function LastSeen(reports: seq<StatusReport>, id: Id): Option<Row> {
    if reports == [] then None
    else
      var r := reports[|reports| - 1];
      if r.id == id && r.state != DELETED then Some(Row(r.state, r.port))
      else LastSeen(reports[..|reports| - 1], id)
  }

  function AfterUpdates(rows: map<Id, Row>, reports: seq<StatusReport>): map<Id, Row> {
    map id | id in rows :: match LastSeen(reports, id) case Some(row) => row case None => rows[id]
  }

  /** The rows a batch leads to, whatever its order and repetitions: reported-deleted rows are gone,
      the others carry the last reported state and port, rows nobody reported are as they were. */
  function AfterReports(rows: map<Id, Row>, reports: seq<StatusReport>): map<Id, Row> {
    map id | id in rows && !SaysDeleted(reports, id) ::
      match LastSeen(reports, id) case Some(row) => row case None => rows[id]
  }

  /** The two batches a list of reports is split into. */
  function Updates(reports: seq<StatusReport>): seq<StatusReport> {
    if reports == [] then []
    else
      var r, rest := reports[|reports| - 1], Updates(reports[..|reports| - 1]);
      if r.state == DELETED then rest else rest + [r]
  }

  function Removals(reports: seq<StatusReport>): seq<Id> {
    if reports == [] then []
    else
      var r, rest := reports[|reports| - 1], Removals(reports[..|reports| - 1]);
      if r.state == DELETED then rest + [r.id] else rest
  }

  lemma {:induction false} SplitAbout(reports: seq<StatusReport>, id: Id)
    ensures LastSeen(Updates(reports), id) == LastSeen(reports, id)
    ensures id in Removals(reports) <==> SaysDeleted(reports, id)
    ensures forall r | r in Updates(reports) :: r.state != DELETED
    ensures Updates(reports) == [] && Removals(reports) == [] ==> reports == []
  {
    if reports != [] {
      var rest, r := reports[..|reports| - 1], reports[|reports| - 1];
      SplitAbout(rest, id);
      if r.state != DELETED {
        assert (Updates(rest) + [r])[..|Updates(rest)|] == Updates(rest);
      }
    }
  }

  /** Updating with the one batch and deleting with the other is what the reports ask for. */
  lemma SplitReports(rows: map<Id, Row>, reports: seq<StatusReport>)
    ensures AfterUpdates(rows, Updates(reports)) == AfterUpdates(rows, reports)
    ensures (map id | id in rows && id !in Removals(reports) :: AfterUpdates(rows, reports)[id]) ==
            AfterReports(rows, reports)
    ensures forall r | r in Updates(reports) :: r.state != DELETED
    ensures Updates(reports) == [] && Removals(reports) == [] ==> AfterReports(rows, reports) == rows
    ensures Removals(reports) == [] ==> AfterReports(rows, reports) == AfterUpdates(rows, reports)
  {
    forall id
      ensures LastSeen(Updates(reports), id) == LastSeen(reports, id)
      ensures id in Removals(reports) <==> SaysDeleted(reports, id)
    {
      SplitAbout(reports, id);
    }
    SplitAbout(reports, 0);
  }

  /** What a batch leads to, report by report: a row goes exactly when some report calls it deleted; one that
      stays has the state and port of the last report about it, or is as it was. */
  lemma ReportsMean(rows: map<Id, Row>, reports: seq<StatusReport>, id: Id)
    requires id in rows
    ensures var after := AfterReports(rows, reports);
            && (id in after <==> forall k | 0 <= k < |reports| && reports[k].id == id :: reports[k].state != DELETED)
            && (id in after && (forall k | 0 <= k < |reports| :: reports[k].id != id) ==> after[id] == rows[id])
            && (id in after ==>
                  forall k | 0 <= k < |reports| && reports[k].id == id && (forall i | k < i < |reports| :: reports[i].id != id) ::
                    after[id] == Row(reports[k].state, reports[k].port))
  {
    SaysDeletedAt(reports, id);
    LastSeenAt(reports, id);
  }

  lemma {:induction false} SaysDeletedAt(reports: seq<StatusReport>, id: Id)
    ensures SaysDeleted(reports, id) <==> exists k | 0 <= k < |reports| :: reports[k].id == id && reports[k].state == DELETED
  {
    if reports != [] {
      var n := |reports| - 1;
      SaysDeletedAt(reports[..n], id);
      assert forall k | 0 <= k < n :: reports[..n][k] == reports[k];
      if k :| 0 <= k < n && reports[..n][k].id == id && reports[..n][k].state == DELETED {
        assert reports[k].id == id && reports[k].state == DELETED;
      }
    }
  }

  lemma {:induction false} LastSeenAt(reports: seq<StatusReport>, id: Id)
    ensures (forall k | 0 <= k < |reports| :: reports[k].id != id) ==> LastSeen(reports, id) == None
    ensures forall k | 0 <= k < |reports| && reports[k].id == id && reports[k].state != DELETED
                       && (forall i | k < i < |reports| :: reports[i].id != id || reports[i].state == DELETED) ::
              LastSeen(reports, id) == Some(Row(reports[k].state, reports[k].port))
  {
    if reports != [] {
      var n := |reports| - 1;
      LastSeenAt(reports[..n], id);
      assert forall k | 0 <= k < n :: reports[..n][k] == reports[k];
    }
  }

  class InstanceTable {
    var rows: map<Id, Row>

    /** `updateOk` and `deleteOk` say whether the two bulk statements succeed; each is all or nothing.
        They do not share a transaction: a failed delete leaves the updates in place. */
    method ApplyStatusReports(reports: seq<StatusReport>, updateOk: bool, deleteOk: bool) returns (ok: bool)
      modifies this
      ensures ok ==> rows == AfterReports(old(rows), reports)
      ensures !ok ==> rows == if updateOk then AfterUpdates(old(rows), reports) else old(rows)
      ensures updateOk && deleteOk ==> ok
    {
      var toUpdate: seq<StatusReport>, toRemove: seq<Id> := [], [];
      for i := 0 to |reports|
        invariant toUpdate == Updates(reports[..i]) && toRemove == Removals(reports[..i])
      {
        assert reports[..i + 1][..i] == reports[..i];
        if reports[i].state == DELETED {
          toRemove := toRemove + [reports[i].id];
          continue;
        }
        toUpdate := toUpdate + [reports[i]];
      }
      assert reports[..|reports|] == reports;
      SplitReports(old(rows), reports);

      if toRemove == [] && toUpdate == [] {
        return true;
      }
      if !updateOk {
        return false;
      }
      BulkUpdate(toUpdate);
      if toRemove != [] {
        if !deleteOk {
          return false;
        }
        BulkDelete(toRemove);
      }
      return true;
    }

    /** One UPDATE per element; an id without a row matches nothing. */
    method BulkUpdate(updates: seq<StatusReport>)
      requires forall r | r in updates :: r.state != DELETED
      modifies this
      ensures rows == AfterUpdates(old(rows), updates)
    {
      for i := 0 to |updates|
        invariant rows == AfterUpdates(old(rows), updates[..i])
      {
        var r := updates[i];
        assert updates[..i + 1] == updates[..i] + [r];
        if r.id in rows {
          rows := rows[r.id := Row(r.state, r.port)];
        }
      }
      assert updates[..|updates|] == updates;
    }

    method BulkDelete(ids: seq<Id>)
      modifies this
      ensures rows == map id | id in old(rows) && id !in ids :: old(rows)[id]
    {
      for i := 0 to |ids|
        invariant rows == map id | id in old(rows) && id !in ids[..i] :: old(rows)[id]
      {
        rows := rows - {ids[i]};
      }
    }
  }

  // ---- The batch a node sends ----

  /** The batch carries each item of the node's report once, in some order. */
  ghost predicate Carries(reports: seq<StatusReport>, items: map<Id, Report>) {
    && (forall r | r in reports :: r.id in items && items[r.id] == Report(r.state, r.port))
    && (forall id | id in items :: StatusReport(id, items[id].state, items[id].port) in reports)
  }

  lemma {:induction false} DeletedInReport(reports: seq<StatusReport>, id: Id)
    ensures SaysDeleted(reports, id) <==> exists r | r in reports :: r.id == id && r.state == DELETED
  {
    if reports != [] {
      DeletedInReport(reports[..|reports| - 1], id);
      assert reports == reports[..|reports| - 1] + [reports[|reports| - 1]];
    }
  }

  lemma {:induction false} LastSeenInReport(reports: seq<StatusReport>, items: map<Id, Report>, id: Id)
    requires forall r | r in reports :: r.id in items && items[r.id] == Report(r.state, r.port)
    ensures var seen := LastSeen(reports, id);
            && (seen.Some? ==> id in items && items[id].state != DELETED && seen.value == Row(items[id].state, items[id].port))
            && (seen.None? && id in items && StatusReport(id, items[id].state, items[id].port) in reports
                ==> items[id].state == DELETED)
  {
    if reports != [] {
      LastSeenInReport(reports[..|reports| - 1], items, id);
    }
  }

  /** Whatever the order of the batch, the rows end up as the node's protocol expects: this is the
      step `ReportOk`, and a failure between the two statements is `ReportFailed(UpdatesOnly)`. */
  lemma BatchIsApply(rows: map<Id, Row>, reports: seq<StatusReport>, items: map<Id, Report>)
    requires Carries(reports, items)
    ensures AfterReports(rows, reports) == Apply(rows, items)
    ensures AfterUpdates(rows, reports) == ApplyUpdates(rows, items)
  {
    forall id | id in rows
      ensures SaysDeleted(reports, id) <==> id in items && items[id].state == DELETED
      ensures LastSeen(reports, id) ==
              if id in items && items[id].state != DELETED then Some(Row(items[id].state, items[id].port)) else None
    {
      LastSeenInReport(reports, items, id);
      DeletedInReport(reports, id);
    }
  }
}
