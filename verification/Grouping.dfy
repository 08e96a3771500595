/** Splitting the rows of several entities by id, in order of first appearance: how the list queries
    turn joined rows back into a page of entities. */
module Grouping {
  import opened Option
  import opened Order
  import opened Collect

  /** The rows of one entity, in their order. */
  function RowsOf<R>(rows: seq<R>, key: R -> string, id: string): seq<R> {
    if rows == [] then []
    else
      var r, before := rows[|rows| - 1], RowsOf(rows[..|rows| - 1], key, id);
      if key(r) == id then before + [r] else before
  }

  /** The ids in order of first appearance. */
  function FirstSeen<R>(rows: seq<R>, key: R -> string): seq<string> {
    if rows == [] then []
    else
      var r, before := rows[|rows| - 1], FirstSeen(rows[..|rows| - 1], key);
      if key(r) in before then before else before + [key(r)]
  }

  method Group<R>(rows: seq<R>, key: R -> string) returns (order: seq<string>, groups: map<string, seq<R>>)
    ensures order == FirstSeen(rows, key)
    ensures groups.Keys == set id | id in order
    ensures forall id | id in groups :: groups[id] == RowsOf(rows, key, id) && groups[id] != []
  {
    order, groups := [], map[];
    for i := 0 to |rows|
      invariant order == FirstSeen(rows[..i], key)
      invariant groups.Keys == set id | id in order
      invariant forall id | id in groups :: groups[id] == RowsOf(rows[..i], key, id) && groups[id] != []
      invariant forall id | id !in groups :: RowsOf(rows[..i], key, id) == []
    {
      assert rows[..i + 1][..i] == rows[..i];
      var id := key(rows[i]);
      if id !in groups {
        order := order + [id];
      }
      groups := groups[id := (if id in groups then groups[id] else []) + [rows[i]]];
    }
    assert rows[..|rows|] == rows;
  }

  lemma {:induction false} RowsOfMeans<R>(rows: seq<R>, key: R -> string, id: string, r: R)
    ensures r in RowsOf(rows, key, id) <==> r in rows && key(r) == id
  {
    if rows != [] {
      RowsOfMeans(rows[..|rows| - 1], key, id, r);
      assert rows == rows[..|rows| - 1] + [rows[|rows| - 1]];
    }
  }

  lemma {:induction false} FirstSeenMeans<R>(rows: seq<R>, key: R -> string, id: string)
    ensures id in FirstSeen(rows, key) <==> exists r | r in rows :: key(r) == id
  {
    if rows != [] {
      var r := rows[|rows| - 1];
      FirstSeenMeans(rows[..|rows| - 1], key, id);
      assert rows == rows[..|rows| - 1] + [r];
    }
  }

  /** A group keeps the order of the rows: it grows with them. */
  lemma {:induction false} RowsOfAppend<R>(a: seq<R>, b: seq<R>, key: R -> string, id: string)
    ensures RowsOf(a + b, key, id) == RowsOf(a, key, id) + RowsOf(b, key, id)
  {
    if b == [] {
      assert a + b == a;
    } else {
      var n := |b| - 1;
      RowsOfAppend(a, b[..n], key, id);
      assert (a + b)[..|a + b| - 1] == a + b[..n];
    }
  }

  /** The ids come in the order of their first rows: later rows only add behind, and each id once. */
  lemma {:induction false} FirstSeenAppend<R>(a: seq<R>, b: seq<R>, key: R -> string)
    ensures FirstSeen(a, key) <= FirstSeen(a + b, key)
    ensures forall i, j | 0 <= i < j < |FirstSeen(a + b, key)| :: FirstSeen(a + b, key)[i] != FirstSeen(a + b, key)[j]
    decreases |a| + |b|
  {
    if b != [] {
      var n := |b| - 1;
      FirstSeenAppend(a, b[..n], key);
      assert (a + b)[..|a + b| - 1] == a + b[..n];
    } else if a != [] {
      var n := |a| - 1;
      FirstSeenAppend(a[..n], b, key);
      assert a[..n] + b == a[..n] && a + b == a;
    } else {
      assert a + b == [];
    }
  }

  /** Rows that come ordered by id give ids in strict order. */
  lemma {:induction false} FirstSeenSorted<R(!new)>(rows: seq<R>, key: R -> string)
    requires forall i, j | 0 <= i < j < |rows| :: !Before(key(rows[j]), key(rows[i]))
    ensures StrictlySorted(Before, FirstSeen(rows, key))
  {
    if rows != [] {
      var n := |rows| - 1;
      var before, id := FirstSeen(rows[..n], key), key(rows[n]);
      FirstSeenSorted(rows[..n], key);
      if id !in before {
        forall i | 0 <= i < |before|
          ensures Before(before[i], id)
        {
          FirstSeenMeans(rows[..n], key, before[i]);
          var r :| r in rows[..n] && key(r) == before[i];
          var k :| 0 <= k < n && rows[k] == r;
          BeforeTotal(before[i], id);
        }
      }
    }
  }

  // ---- A page of chunks ----

  /** The tables of the chunks on a page, in the order of their ids. */
  ghost predicate PageTables(ts: seq<Tables>) {
    && (forall i | 0 <= i < |ts| :: Consistent(ts[i]))
    && (forall i, j | 0 <= i < j < |ts| :: Before(ts[i].chunk.id, ts[j].chunk.id))
  }

  /** The page's rows: those of its chunks' tables, ordered by chunk id and otherwise in any order. */
  ghost predicate PageRows(ts: seq<Tables>, rows: seq<Row>) {
    && (forall i, r | 0 <= i < |ts| && IsRow(ts[i], r) :: r in rows)
    && (forall r | r in rows :: exists i | 0 <= i < |ts| :: IsRow(ts[i], r))
    && (forall i, j | 0 <= i < j < |rows| :: !Before(rows[j].chunk.id, rows[i].chunk.id))
  }

  /** Every chunk has a row, even one without flavors. */
  lemma HasRow(t: Tables) returns (r: Row)
    requires Consistent(t)
    ensures IsRow(t, r)
  {
    var thumb := if t.thumbnail == "" then None else Some(t.thumbnail);
    if t.flavors == map[] {
      r := Row(t.chunk, thumb, None, None, "", "");
    } else {
      var f :| f in t.flavors;
      if v :| v in t.owner && t.owner[v] == f {
        var p :| p in t.files[v];
        r := Row(t.chunk, thumb, Some(t.flavors[f]), Some(t.versions[v]), p, t.files[v][p]);
      } else {
        assert f !in t.owner.Values;
        r := Row(t.chunk, thumb, Some(t.flavors[f]), None, "", "");
      }
    }
  }

  function ChunkId(r: Row): string {
    r.chunk.id
  }

  lemma OwnRows(ts: seq<Tables>, rows: seq<Row>, i: nat, r: Row)
    requires PageTables(ts) && PageRows(ts, rows) && i < |ts|
    ensures r in RowsOf(rows, ChunkId, ts[i].chunk.id) <==> IsRow(ts[i], r)
  {
    RowsOfMeans(rows, ChunkId, ts[i].chunk.id, r);
    if r in rows && ChunkId(r) == ts[i].chunk.id {
      var j :| 0 <= j < |ts| && IsRow(ts[j], r);
      BeforeTotal(ts[i].chunk.id, ts[j].chunk.id);
    }
  }

  lemma PageOrder(ts: seq<Tables>, rows: seq<Row>)
    requires PageTables(ts) && PageRows(ts, rows)
    ensures FirstSeen(rows, ChunkId) == seq(|ts|, i requires 0 <= i < |ts| => ts[i].chunk.id)
  {
    var ids := seq(|ts|, i requires 0 <= i < |ts| => ts[i].chunk.id);
    FirstSeenSorted(rows, ChunkId);
    BeforeWeak();
    forall id
      ensures id in FirstSeen(rows, ChunkId) <==> id in ids
    {
      FirstSeenMeans(rows, ChunkId, id);
      if id in ids {
        var i :| 0 <= i < |ts| && ids[i] == id;
        var r := HasRow(ts[i]);
        assert r in rows && ChunkId(r) == id;
      }
      if r :| r in rows && ChunkId(r) == id {
        var i :| 0 <= i < |ts| && IsRow(ts[i], r);
        assert ids[i] == id;
      }
    }
    SortedUnique(Before, FirstSeen(rows, ChunkId), ids);
  }

  /** The chunk is what its tables hold, newest first. */
  ghost predicate Given(t: Tables, c: Chunk) {
    Shows(t, c) && Ordered(c)
  }

  /** The group has the rows of the tables, and one at least. */
  ghost predicate HasRows(t: Tables, group: seq<Row>) {
    Consistent(t) && group != [] && forall r :: r in group <==> IsRow(t, r)
  }

  lemma OwnGroup(ts: seq<Tables>, rows: seq<Row>, i: nat, group: seq<Row>)
    requires PageTables(ts) && PageRows(ts, rows) && i < |ts|
    requires group == RowsOf(rows, ChunkId, ts[i].chunk.id) && group != []
    ensures HasRows(ts[i], group)
  {
    forall r
      ensures r in group <==> IsRow(ts[i], r)
    {
      OwnRows(ts, rows, i, r);
    }
  }

  method CollectOne(group: seq<Row>, ghost t: Tables) returns (c: Chunk)
    requires HasRows(t, group)
    ensures Given(t, c)
  {
    c := CollectChunk(group, t);
  }

  /** The loop over the ids. */
  method CollectAll(order: seq<string>, groups: map<string, seq<Row>>, ghost ts: seq<Tables>) returns (chunks: seq<Chunk>)
    requires |order| == |ts| && forall i | 0 <= i < |order| :: order[i] in groups && HasRows(ts[i], groups[order[i]])
    ensures |chunks| == |ts| && forall i | 0 <= i < |ts| :: Given(ts[i], chunks[i])
  {
    chunks := [];
    for i := 0 to |order|
      invariant |chunks| == i && forall k | 0 <= k < i :: Given(ts[k], chunks[k])
    {
      var c := CollectOne(groups[order[i]], ts[i]);
      chunks := chunks + [c];
    }
  }

  /** The page comes out complete and in order: chunk by chunk what the tables hold. */
  method ListChunks(rows: seq<Row>, ghost ts: seq<Tables>) returns (chunks: seq<Chunk>)
    requires PageTables(ts) && PageRows(ts, rows)
    ensures |chunks| == |ts| && forall i | 0 <= i < |ts| :: Given(ts[i], chunks[i])
  {
    var order, groups := Group(rows, ChunkId);
    PageOrder(ts, rows);
    forall i | 0 <= i < |order|
      ensures order[i] in groups && HasRows(ts[i], groups[order[i]])
    {
      assert order[i] in order;
      OwnGroup(ts, rows, i, groups[order[i]]);
    }
    chunks := CollectAll(order, groups, ts);
  }
}
