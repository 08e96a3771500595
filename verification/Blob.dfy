/** The content-addressed part of the blob store. Keys are content hashes; `hash` is the hash of a
    whole content and is a parameter, nothing about it is assumed. */
module Blob {
  import opened Byte
  import opened Option

  /** An open file: reading moves its position, a closed one cannot be read. */
  class Reader {
    const data: Bytes
    var pos: nat
    var closed: bool

    ghost predicate Valid()
      reads this
    {
      pos <= |data|
    }

    constructor (content: Bytes)
      ensures Valid() && data == content && pos == 0 && !closed
    {
      data, pos, closed := content, 0, false;
    }

    /** Copies everything from the position on; a failing read stops anywhere (`stop`). */
    method ReadAll(fails: bool, stop: nat) returns (r: Option<Bytes>)
      requires Valid()
      modifies this
      ensures Valid() && closed == old(closed)
      ensures r.Some? <==> !fails && !closed
      ensures r.Some? ==> r.value == data[old(pos)..] && pos == |data|
    {
      if closed {
        return None;
      }
      if fails {
        pos := if pos <= stop <= |data| then stop else pos;
        return None;
      }
      r := Some(data[pos..]);
      pos := |data|;
    }

    method SeekStart()
      requires Valid()
      modifies this
      ensures Valid() && pos == 0 && closed == old(closed)
    {
      pos := 0;
    }

    method Close()
      requires Valid()
      modifies this
      ensures Valid() && closed && pos == old(pos)
    {
      closed := true;
    }
  }

  /** An object to upload; `cached` is "" until its hash was computed. Objects are passed by value:
      the cache of a copy is not seen by the original. */
  datatype Object = Object(data: Reader, cached: string)

  /** Hashes what is left of the file, then rewinds it. */
  method ComputeHashStr(hash: Bytes -> string, file: Reader, fails: bool, stop: nat) returns (h: Option<string>)
    requires file.Valid()
    modifies file
    ensures file.Valid() && file.closed == old(file.closed)
    ensures h.Some? <==> !fails && !file.closed
    ensures h.Some? ==> h.value == hash(file.data[old(file.pos)..]) && file.pos == 0
  {
    var content := file.ReadAll(fails, stop);
    if content.None? {
      return None;
    }
    file.SeekStart();
    h := Some(hash(content.value));
  }

  /** The object's hash; computed at most once, and with a cached hash the file is not touched. */
  method ObjectHash(hash: Bytes -> string, o: Object, fails: bool, stop: nat) returns (o': Object, h: Option<string>)
    requires o.data.Valid()
    modifies o.data
    ensures o.data.Valid() && o.data.closed == old(o.data.closed) && o'.data == o.data
    ensures o.cached != "" ==> h == Some(o.cached) && o' == o && o.data.pos == old(o.data.pos)
    ensures o.cached == "" && h.Some? ==>
              h.value == hash(o.data.data[old(o.data.pos)..]) == o'.cached && o.data.pos == 0
    ensures h.None? <==> o.cached == "" && (fails || o.data.closed)
  {
    o' := o;
    if o.cached != "" {
      return o, Some(o.cached);
    }
    h := ComputeHashStr(hash, o.data, fails, stop);
    if h.Some? {
      o' := o.(cached := h.value);
    }
  }

  /** What the bucket does with an upload; an object is stored whole or not at all, but a stored one
      may still be answered with an error. */
  datatype Upload = Stored | StoredButError | NotStored

  datatype Attempt = Attempt(readFails: bool, stop: nat, headFails: bool, upload: Upload)

  /** Every key is the hash of the whole content stored under it. */
  ghost predicate Addressed(hash: Bytes -> string, objects: map<string, Bytes>) {
    forall k | k in objects :: hash(objects[k]) == k
  }

  /** Nothing stored is overwritten or dropped, and whatever is new is one of `contents`, whole,
      under its own hash. */
  ghost predicate Grows(hash: Bytes -> string, before: map<string, Bytes>, after: map<string, Bytes>, contents: set<Bytes>) {
    && (forall k | k in before :: k in after && after[k] == before[k])
    && (forall k | k in after && k !in before :: after[k] in contents && hash(after[k]) == k)
  }

  lemma GrowsAddressed(hash: Bytes -> string, before: map<string, Bytes>, after: map<string, Bytes>, contents: set<Bytes>)
    requires Grows(hash, before, after, contents) && Addressed(hash, before)
    ensures Addressed(hash, after)
  {
  }

  /** Over any number of calls, each of which may have failed midway. */
  lemma {:induction false} GrowsForEver(hash: Bytes -> string, states: seq<map<string, Bytes>>, contents: seq<set<Bytes>>)
    requires |states| == |contents| + 1 && Addressed(hash, states[0])
    requires forall i | 0 <= i < |contents| :: Grows(hash, states[i], states[i + 1], contents[i])
    ensures Addressed(hash, states[|contents|])
    ensures forall k | k in states[0] :: k in states[|contents|] && states[|contents|][k] == states[0][k]
  {
    var n := |contents|;
    if n > 0 {
      GrowsForEver(hash, states[..n], contents[..n - 1]);
      GrowsAddressed(hash, states[n - 1], states[n], contents[n - 1]);
    }
  }

  lemma NewKey(hash: Bytes -> string, objects: map<string, Bytes>, key: string, body: Bytes)
    requires Addressed(hash, objects) && key !in objects
    ensures Addressed(hash, objects[key := body]) <==> hash(body) == key
  {
    var objects' := objects[key := body];
    assert key in objects' && objects'[key] == body;
    assert forall i | i in objects' && i != key :: objects'[i] == objects[i];
  }

  /** An object whose file is at its start and whose cached hash, if any, is right. */
  ghost predicate Ready(hash: Bytes -> string, o: Object)
    reads o.data
  {
    o.data.pos == 0 && (o.cached == "" || o.cached == hash(o.data.data))
  }

  /** An object of a `PutBlob` under way: ready, or its file was uploaded through another object. */
  ghost predicate Pending(hash: Bytes -> string, o: Object, objects: map<string, Bytes>)
    reads o.data
  {
    && (o.data.pos == 0 || (o.data.closed && hash(o.data.data) in objects))
    && (o.cached == "" || o.cached == hash(o.data.data))
  }

  /** An earlier object has the same file. */
  predicate Shared(blobs: seq<Object>, i: nat)
    requires i < |blobs|
  {
    Among(blobs, i, blobs[i].data)
  }

  predicate Among(blobs: seq<Object>, n: nat, file: Reader)
    requires n <= |blobs|
  {
    exists j | 0 <= j < n :: blobs[j].data == file
  }

  class Bucket {
    var objects: map<string, Bytes>

    constructor ()
      ensures objects == map[]
    {
      objects := map[];
    }

    /** One round of `PutBlob`, for any object: the key is the hash of what is left of the file (or
        the cached one), the body what is left of it after hashing. */
    method PutOne(hash: Bytes -> string, o: Object, a: Attempt) returns (ok: bool)
      requires o.data.Valid()
      modifies this, o.data
      ensures o.data.Valid()
      ensures ok ==>
                var key := if o.cached != "" then o.cached else hash(o.data.data[old(o.data.pos)..]);
                var body := if o.cached != "" then o.data.data[old(o.data.pos)..] else o.data.data;
                objects == if key in old(objects) then old(objects) else old(objects)[key := body]
      ensures !ok ==>
                || objects == old(objects)
                || (a.upload == StoredButError
                    && var key := if o.cached != "" then o.cached else hash(o.data.data[old(o.data.pos)..]);
                       var body := if o.cached != "" then o.data.data[old(o.data.pos)..] else o.data.data;
                       key !in old(objects) && objects == old(objects)[key := body])
      ensures old(o.data.closed) ==> objects == old(objects)
      // the file is closed once uploaded; otherwise it is left at its start, or not moved at all
      ensures o.data.closed == (old(o.data.closed) || (ok && objects != old(objects)))
      ensures ok && objects == old(objects) ==> o.data.pos == 0 || o.data.pos == old(o.data.pos)
      ensures !a.readFails && !a.headFails && a.upload == Stored && !old(o.data.closed) ==> ok
    {
      var o', h := ObjectHash(hash, o, a.readFails, a.stop);
      if h.None? {
        return false;
      }
      if a.headFails {
        return false;
      }
      if h.value in objects {
        return true;
      }
      // the upload manager reads the body from where the file stands
      if a.upload == NotStored || o'.data.closed {
        return false;
      }
      var body := o'.data.ReadAll(false, 0);
      objects := objects[h.value := body.value];
      if a.upload == StoredButError {
        return false;
      }
      o'.data.Close();
      return true;
    }

    /** The same for an object of a batch: its whole content is stored under its hash. */
    method PutPending(hash: Bytes -> string, o: Object, a: Attempt) returns (ok: bool)
      requires o.data.Valid() && Pending(hash, o, objects)
      modifies this, o.data
      ensures o.data.Valid() && (ok ==> Pending(hash, o, objects))
      ensures objects == old(objects)
              || (hash(o.data.data) !in old(objects) && objects == old(objects)[hash(o.data.data) := o.data.data])
      ensures ok ==> hash(o.data.data) in objects
      ensures !ok ==> a.readFails || a.headFails || a.upload != Stored || old(o.data.closed)
    {
      assert o.data.data[0..] == o.data.data;
      ok := PutOne(hash, o, a);
    }

    /** Uploads the objects one by one and stops at the first error. Objects may share a file. */
    method PutBlob(hash: Bytes -> string, blobs: seq<Object>, attempts: seq<Attempt>) returns (ok: bool)
      requires |attempts| == |blobs|
      requires forall o | o in blobs :: o.data.Valid() && Ready(hash, o)
      modifies this, set o | o in blobs :: o.data
      ensures Grows(hash, old(objects), objects, set o | o in blobs :: o.data.data)
      ensures ok ==> forall o | o in blobs :: hash(o.data.data) in objects
      ensures !ok ==> exists i | 0 <= i < |blobs| ::
                || attempts[i].readFails || attempts[i].headFails || attempts[i].upload != Stored
                || old(blobs[i].data.closed) || Shared(blobs, i)
    {
      ghost var contents := set o | o in blobs :: o.data.data;
      for i := 0 to |blobs|
        invariant Grows(hash, old(objects), objects, contents)
        invariant forall j | 0 <= j < i :: hash(blobs[j].data.data) in objects
        invariant forall o | o in blobs :: o.data.Valid() && Pending(hash, o, objects)
        invariant forall o | o in blobs && o.data.closed :: old(o.data.closed) || Among(blobs, i, o.data)
      {
        assert blobs[i] in blobs && blobs[i].data.data in contents;
        ok := PutPending(hash, blobs[i], attempts[i]);
        if !ok {
          return;
        }
      }
      ok := true;
    }
  }

  /** Starting at position 0 matters: a file hashed from somewhere else on is stored whole, under the hash
      of its tail. Unless there is an object under that key already, or the two hashes collide, the store
      stays addressed by content if and only if the file stood at its start. */
  method PutAnywhere(b: Bucket, hash: Bytes -> string, o: Object, a: Attempt) returns (ok: bool)
    requires o.data.Valid() && o.cached == "" && Addressed(hash, b.objects)
    modifies b, o.data
    ensures var tail := o.data.data[old(o.data.pos)..];
            && (Addressed(hash, b.objects) <==> b.objects == old(b.objects) || hash(tail) == hash(o.data.data))
            && (ok && hash(tail) !in old(b.objects) && (hash(tail) == hash(o.data.data) ==> tail == o.data.data) ==>
                  (Addressed(hash, b.objects) <==> old(o.data.pos) == 0))
  {
    ghost var tail := o.data.data[o.data.pos..];
    assert o.data.pos == 0 <==> tail == o.data.data;
    if hash(tail) !in b.objects {
      NewKey(hash, b.objects, hash(tail), o.data.data);
    }
    ok := b.PutOne(hash, o, a);
  }

  /** Two bytes, one of them read before: with a hash that tells lengths apart they are stored under the
      key of the second one alone. */
  method MidwayKey() returns (b: Bucket, hash: Bytes -> string)
    ensures b.objects == map["x" := [1, 2]] && hash([1, 2]) == "xx" && !Addressed(hash, b.objects)
  {
    hash := (content: Bytes) => seq(|content|, _ => 'x');
    b := new Bucket();
    var file := new Reader([1, 2]);
    file.pos := 1;
    var tail: Bytes := [1, 2][1..];
    assert hash(tail) == "x" && hash([1, 2]) == "xx";
    var ok := b.PutOne(hash, Object(file, ""), Attempt(false, 0, false, Stored));
    assert "x" in b.objects && b.objects["x"] == [1, 2];
  }
}
