/** The node's in-memory status store, shared by the reconciler, the checkpoint jobs and the
    garbage collector.

    The store maps an id to a record of pointers. `Update` writes THROUGH those pointers and `View`
    copies only the outer map, so a view taken earlier observes later updates. The class below keeps
    that aliasing: statuses are heap cells, and the entries handed out are references to them. */
module Status {
  import opened Option

  /** An id is a UUID, taken as its 128-bit integer value. */
  type Id = nat

  /** A host port; 0 stands for "no port set", as in the source. */
  type Port = nat

  const NO_PORT: Port := 0

  /** `Unset` is the empty string: a field left out of an update. */
  datatype WorkloadState = Unset | Creating | Running | Deleted | CreationFailed

  datatype WorkloadStatus = WorkloadStatus(state: WorkloadState, port: Port)

  datatype CheckpointState =
    | Unspecified
    | InProgress
    | PullBaseImageFailed
    | ContainerWaitReadyFailed
    | ContainerCheckpointFailed
    | PushCheckpointFailed
    | Completed

  datatype CheckpointStatus =
    CheckpointStatus(state: CheckpointState, message: string, completedAt: Option<nat>, port: Port)

  datatype Status = Status(checkpoint: Option<CheckpointStatus>, workload: Option<WorkloadStatus>)

  function OfWorkload(state: WorkloadState, port: Port): Status {
    Status(None, Some(WorkloadStatus(state, port)))
  }

  function OfCheckpoint(state: CheckpointState, message: string, completedAt: Option<nat>, port: Port): Status {
    Status(Some(CheckpointStatus(state, message, completedAt, port)), None)
  }

  function MergeWorkload(curr: WorkloadStatus, new_: WorkloadStatus): WorkloadStatus {
    WorkloadStatus(if new_.state != Unset then new_.state else curr.state,
                   if new_.port != NO_PORT then new_.port else curr.port)
  }

  function MergeCheckpoint(curr: CheckpointStatus, new_: CheckpointStatus): CheckpointStatus {
    CheckpointStatus(if new_.state != Unspecified then new_.state else curr.state,
                     if new_.message != "" then new_.message else curr.message,
                     if new_.completedAt != None then new_.completedAt else curr.completedAt,
                     if new_.port != NO_PORT then new_.port else curr.port)
  }

  /** An update must carry every part the entry already has: the source dereferences the
      corresponding pointer of the update without a check. */
  predicate Updatable(curr: Option<Status>, new_: Status) {
    curr.Some? ==>
      && (curr.value.workload.Some? ==> new_.workload.Some?)
      && (curr.value.checkpoint.Some? ==> new_.checkpoint.Some?)
  }

  /** What an entry becomes: a new entry is stored as given, an existing one takes over the
      fields that are set and ignores parts it does not have. */
  function Merge(curr: Option<Status>, new_: Status): Status
    requires Updatable(curr, new_)
  {
    match curr
    case None => new_
    case Some(c) =>
      Status(if c.checkpoint.Some? then Some(MergeCheckpoint(c.checkpoint.value, new_.checkpoint.value)) else None,
             if c.workload.Some? then Some(MergeWorkload(c.workload.value, new_.workload.value)) else None)
  }

  /** What an update of an existing entry leaves, field by field: what the update sets, and otherwise what was
      there; a part the entry does not have it does not get. */
  lemma MergeMeans(curr: Status, new_: Status)
    requires Updatable(Some(curr), new_)
    ensures var r := Merge(Some(curr), new_);
            && (r.workload.Some? <==> curr.workload.Some?) && (r.checkpoint.Some? <==> curr.checkpoint.Some?)
            && (curr.workload.Some? ==>
                  var was, set_, now := curr.workload.value, new_.workload.value, r.workload.value;
                  && now.state == (if set_.state == Unset then was.state else set_.state)
                  && now.port == (if set_.port == 0 then was.port else set_.port))
            && (curr.checkpoint.Some? ==>
                  var was, set_, now := curr.checkpoint.value, new_.checkpoint.value, r.checkpoint.value;
                  && now.state == (if set_.state == Unspecified then was.state else set_.state)
                  && now.message == (if set_.message == "" then was.message else set_.message)
                  && now.completedAt == (if set_.completedAt.None? then was.completedAt else set_.completedAt)
                  && now.port == (if set_.port == 0 then was.port else set_.port))
    ensures Merge(None, new_) == new_
  {
  }

  /** Not both a workload and a checkpoint, as every entry of the node's store. */
  predicate OneKind(st: Status) {
    st.workload.None? || st.checkpoint.None?
  }

  function Lookup<V>(m: map<Id, V>, id: Id): Option<V> {
    if id in m then Some(m[id]) else None
  }

  /** The statuses behind one entry's pointers. Which of them are null is fixed when the entry is
      inserted, so one cell per entry is enough. */
  class Cell {
    var value: Status

    constructor (v: Status)
      ensures value == v
    {
      value := v;
    }
  }

  /** One write to the store: the entry's status after it. */
  datatype Logged = Logged(id: Id, status: Status)

  class MemStore {
    var data: map<Id, Cell>
    ghost var log: seq<Logged> // every update so far, in order

    /** No two ids share a cell. */
    ghost predicate Valid()
      reads this
    {
      forall i, j | i in data && j in data && i != j :: data[i] != data[j]
    }

    ghost function Contents(): map<Id, Status>
      reads this, data.Values
    {
      map id | id in data :: data[id].value
    }

    constructor ()
      ensures Valid() && data == map[] && Contents() == map[] && log == []
    {
      data, log := map[], [];
    }

    /** Merges field by field. An existing entry is changed in place: `data` itself does not move,
        so every view that holds the entry sees the new value. */
    method Update(id: Id, new_: Status)
      requires Valid()
      requires Updatable(Lookup(Contents(), id), new_)
      modifies this, data.Values
      ensures Valid() && fresh(data.Values - old(data.Values))
      ensures Contents() == old(Contents())[id := Merge(Lookup(old(Contents()), id), new_)]
      ensures id in old(data) ==> data == old(data)
      ensures log == old(log) + [Logged(id, Contents()[id])]
    {
      if id !in data {
        var c := new Cell(new_);
        data := data[id := c];
        log := log + [Logged(id, new_)];
        return;
      }
      var c := data[id];
      if c.value.workload.Some? {
        c.value := c.value.(workload := Some(MergeWorkload(c.value.workload.value, new_.workload.value)));
      }
      if c.value.checkpoint.Some? {
        c.value := c.value.(checkpoint := Some(MergeCheckpoint(c.value.checkpoint.value, new_.checkpoint.value)));
      }
      log := log + [Logged(id, c.value)];
    }

    /** The same for a caller who cannot know what is under the id. An entry of the other kind makes it
        dereference nil, before anything is written. */
    method TryUpdate(id: Id, new_: Status) returns (panics: bool)
      requires Valid() && (id in Contents() ==> OneKind(Contents()[id]))
      modifies this, data.Values
      ensures panics <==> !Updatable(Lookup(old(Contents()), id), new_)
      ensures panics ==> data == old(data) && Contents() == old(Contents()) && log == old(log)
      ensures !panics ==>
                && Valid() && fresh(data.Values - old(data.Values))
                && Contents() == old(Contents())[id := Merge(Lookup(old(Contents()), id), new_)]
                && log == old(log) + [Logged(id, Contents()[id])]
    {
      if id in data && !Updatable(Some(data[id].value), new_) {
        return true;
      }
      Update(id, new_);
      return false;
    }

    /** The caller gets the same pointers the store holds. */
    method Get(id: Id) returns (r: Option<Cell>)
      ensures r == Lookup(data, id)
      ensures r.Some? ==> r.value.value == Contents()[id]
    {
      r := if id in data then Some(data[id]) else None;
    }

    method Del(id: Id)
      modifies this
      ensures old(Valid()) ==> Valid()
      ensures data == old(data) - {id}
      ensures Contents() == old(Contents()) - {id} && log == old(log)
    {
      data := data - {id};
    }

    /** A shallow copy: the cells returned are the live ones. */
    method View() returns (v: map<Id, Cell>)
      ensures v == data
      ensures forall id | id in v :: v[id].value == Contents()[id]
    {
      v := data;
    }
  }

  /** `View` is not a snapshot: a workload entry seen in a view taken BEFORE a stop request reads
      `Deleted` AFTER it, because the update lands in the shared cell. */
  method ViewObservesLaterUpdate(store: MemStore, id: Id) returns (before: WorkloadState, after: WorkloadState)
    requires store.Valid()
    requires id in store.Contents()
    requires store.Contents()[id].workload.Some? && store.Contents()[id].checkpoint.None?
    modifies store, store.data.Values
    ensures before == old(store.Contents()[id].workload.value.state)
    ensures after == Deleted
  {
    var view := store.View();
    before := view[id].value.workload.value.state;
    store.Update(id, OfWorkload(Deleted, NO_PORT));
    assert view[id].value == store.Contents()[id];
    after := view[id].value.workload.value.state;
  }
}
