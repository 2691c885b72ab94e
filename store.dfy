/** The external stores the core talks to: the document database (one
    collection per entity), the blob storage, and the in-memory progress
    cache. Only the behaviour the core depends on is modelled. */
module Store {
  import opened Wrappers
  import opened Values

  /** One collection of the document database: document id to stored fields. */
  type Docs = map<string, Record>

  /** `get_by_id`: the stored fields with the document id added under "id",
      or None when there is no such document. */
  function Lookup(docs: Docs, id: Value): (r: Option<Record>)
    ensures r.Some? <==> id.Str? && id.s in docs
    ensures r.Some? ==> r.value == docs[id.s]["id" := id]
  {
    if id.Str? && id.s in docs then Some(docs[id.s]["id" := id]) else None
  }

  /** `get_all_by_ids`: the documents of the listed ids that exist, in list
      order; ids without a document are skipped. */
  function LookupAll(docs: Docs, ids: seq<Value>): (r: seq<Record>)
    ensures |r| <= |ids|
    ensures forall k :: 0 <= k < |r| ==> exists j :: 0 <= j < |ids| && Lookup(docs, ids[j]) == Some(r[k])
    ensures forall j :: 0 <= j < |ids| && Lookup(docs, ids[j]).Some? ==> Lookup(docs, ids[j]).value in r
  {
    if ids == [] then []
    else
      var rest := LookupAll(docs, ids[1..]);
      assert forall k :: 0 <= k < |rest| ==> exists j :: 1 <= j < |ids| && Lookup(docs, ids[j]) == Some(rest[k]) by {
        forall k | 0 <= k < |rest|
          ensures exists j :: 1 <= j < |ids| && Lookup(docs, ids[j]) == Some(rest[k])
        {
          var j :| 0 <= j < |ids[1..]| && Lookup(docs, ids[1..][j]) == Some(rest[k]);
          assert Lookup(docs, ids[j + 1]) == Some(rest[k]);
        }
      }
      assert forall j :: 1 <= j < |ids| && Lookup(docs, ids[j]).Some? ==> Lookup(docs, ids[j]).value in rest by {
        forall j | 1 <= j < |ids| && Lookup(docs, ids[j]).Some?
          ensures Lookup(docs, ids[j]).value in rest
        {
          assert ids[j] == ids[1..][j - 1];
        }
      }
      match Lookup(docs, ids[0])
      case Some(d) => [d] + rest
      case None => rest
  }

  /** The documents come back in list order: looking up two lists one after
      the other is looking up their concatenation. */
  lemma {:induction false} LookupAllAppend(docs: Docs, a: seq<Value>, b: seq<Value>)
    ensures LookupAll(docs, a + b) == LookupAll(docs, a) + LookupAll(docs, b)
    decreases |a|
  {
    if a != [] {
      assert (a + b)[0] == a[0] && (a + b)[1..] == a[1..] + b;
      LookupAllAppend(docs, a[1..], b);
    } else {
      assert a + b == b;
    }
  }

  /** One id gives its document, or nothing when it has none. */
  lemma LookupAllOne(docs: Docs, id: Value)
    ensures LookupAll(docs, [id]) == if id.Str? && id.s in docs then [docs[id.s]["id" := id]] else []
  {
    assert [id][1..] == [];
  }

  /** The id list handed to `get_all_by_ids`. The database client is not
      part of this model; it is taken to need a list. */
  function IdList(ids: Value): (r: Result<seq<Value>>)
    ensures r.Ok? <==> ids.List?
    ensures ids.List? ==> r.value == ids.items
  {
    if ids.List? then Ok(ids.items) else Err(TypeError("'" + TypeName(ids) + "' object is not iterable"))
  }

  /** The collection after `update(id, patch)`, or None when the update fails
      because there is no such document. */
  function Patched(docs: Docs, id: Value, patch: Record): (r: Option<Docs>)
    ensures r.Some? <==> id.Str? && id.s in docs
  {
    if id.Str? && id.s in docs then Some(docs[id.s := docs[id.s] + patch]) else None
  }

  /** A successful update keeps the set of documents and every other
      document, and gives the one updated the fields of the patch on top of
      the fields it had. */
  lemma PatchedFields(docs: Docs, id: Value, patch: Record)
    requires Patched(docs, id, patch).Some?
    ensures var d := Patched(docs, id, patch).value;
      && d.Keys == docs.Keys
      && (forall k :: k in docs && k != id.s ==> d[k] == docs[k])
      && d[id.s].Keys == docs[id.s].Keys + patch.Keys
      && (forall f :: f in patch ==> f in d[id.s] && d[id.s][f] == patch[f])
      && (forall f :: f in docs[id.s] && f !in patch ==> f in d[id.s] && d[id.s][f] == docs[id.s][f])
  {
  }

  /** What `update` raises for a missing document. */
  const MissingDocument := Raised("NotFound", "No document to update")

  /** The outcome of `update(id, patch)`. */
  function UpdateResult(docs: Docs, id: Value, patch: Record): Result<()> {
    if Patched(docs, id, patch).Some? then Ok(()) else Err(MissingDocument)
  }

  /** The collection after `update(id, patch)`, whether or not it failed. */
  function AfterUpdate(docs: Docs, id: Value, patch: Record): Docs {
    match Patched(docs, id, patch)
    case Some(d) => d
    case None => docs
  }

  /** The id the database gives to the n-th document it creates. Ids of
      different lengths differ, which is all the model needs of them. */
  function IdFor(n: nat): (id: string)
    ensures |id| == n + 1
  {
    seq(n + 1, _ => '#')
  }

  /** `id` is one of the first `n` ids the database hands out, or shorter. */
  predicate IssuedBefore(id: string, n: nat) {
    |id| <= n
  }

  class Collection {
    var docs: Docs
    var created: nat

    /** Every id in use was handed out earlier, so the next one is fresh. */
    ghost predicate Valid()
      reads this
    {
      forall k :: k in docs ==> IssuedBefore(k, created)
    }

    constructor ()
      ensures Valid() && docs == map[]
    {
      docs := map[];
      created := 0;
    }

    /** `create(fields)`: stores the fields under a new id and returns it. */
    method Create(fields: Record) returns (id: string)
      requires Valid()
      modifies this
      ensures Valid()
      ensures id !in old(docs) && docs == old(docs)[id := fields]
      ensures id == IdFor(old(created)) && created == old(created) + 1
    {
      id := IdFor(created);
      docs := docs[id := fields];
      created := created + 1;
    }

    /** `update(id, patch)`: merges the patch into an existing document; a
        missing document or a non-string id is an error, as in Firestore. */
    method Update(id: Value, patch: Record) returns (r: Result<()>)
      requires Valid()
      modifies this`docs
      ensures Valid()
      ensures r == UpdateResult(old(docs), id, patch)
      ensures docs == AfterUpdate(old(docs), id, patch)
    {
      if id.Str? && id.s in docs {
        docs := docs[id.s := docs[id.s] + patch];
        r := Ok(());
      } else {
        r := Err(MissingDocument);
      }
    }

    /** `delete(id)`: removes the document if it exists. */
    method Delete(id: Value)
      requires Valid()
      modifies this`docs
      ensures Valid()
      ensures docs == if id.Str? then old(docs) - {id.s} else old(docs)
    {
      if id.Str? {
        docs := docs - {id.s};
      }
    }
  }

  type Bytes = seq<bv8>

  /** What the storage service answers to an upload. */
  datatype UploadReply = UploadFailed(message: string) | Uploaded(path: string, url: string)

  /** Blob storage: path to file bytes. */
  class BlobStore {
    var objects: map<string, Bytes>

    constructor ()
      ensures objects == map[]
    {
      objects := map[];
    }

    /** `upload(data, filename, content_type)`: where the file goes, or the
        failure, is the storage service's answer `reply`. */
    method Upload(data: Bytes, reply: UploadReply) returns (r: Result<(Value, Value)>)
      modifies this
      ensures reply.UploadFailed? ==> r == Err(Raised("StorageError", reply.message)) && objects == old(objects)
      ensures reply.Uploaded? ==>
                r == Ok((Str(reply.path), Str(reply.url))) && objects == old(objects)[reply.path := data]
    {
      match reply
      case UploadFailed(message) =>
        r := Err(Raised("StorageError", message));
      case Uploaded(path, url) =>
        objects := objects[path := data];
        r := Ok((Str(path), Str(url)));
    }

    /** `remove(path)`. */
    method Remove(path: Value)
      modifies this
      ensures objects == if path.Str? then old(objects) - {path.s} else old(objects)
    {
      if path.Str? {
        objects := objects - {path.s};
      }
    }
  }

  /** One entry of the progress cache: per-file percent (-1 = failed) and
      per-file error text. */
  datatype Progress = Progress(percent: map<string, int>, error: map<string, string>)

  const EmptyProgress := Progress(map[], map[])

  /** The process-wide `memory_cacher`: watch id to progress entry. */
  class ProgressCache {
    var entries: map<string, Progress>

    constructor ()
      ensures entries == map[]
    {
      entries := map[];
    }

    /** `memory_cacher.set(watch_id, value)`. */
    method Set(watchId: string, p: Progress)
      modifies this
      ensures entries == old(entries)[watchId := p]
    {
      entries := entries[watchId := p];
    }

    /** `memory_cacher.remove(watch_id)`. */
    method Remove(watchId: string)
      modifies this
      ensures entries == old(entries) - {watchId}
    {
      entries := entries - {watchId};
    }

    /** `memory_cacher.get(watch_id)["percent"][filename] = value`. */
    method SetPercent(watchId: string, filename: string, value: int)
      requires watchId in entries
      modifies this
      ensures entries == old(entries)[watchId := old(entries)[watchId].(percent := old(entries)[watchId].percent[filename := value])]
    {
      var p := entries[watchId];
      entries := entries[watchId := p.(percent := p.percent[filename := value])];
    }

    /** `memory_cacher.get(watch_id)["percent"][filename] += delta`; the key
        must be there, or Python raises KeyError. */
    method AddPercent(watchId: string, filename: string, delta: int)
      requires watchId in entries && filename in entries[watchId].percent
      modifies this
      ensures entries == old(entries)[watchId := old(entries)[watchId].(percent := old(entries)[watchId].percent[filename := old(entries)[watchId].percent[filename] + delta])]
    {
      var p := entries[watchId];
      entries := entries[watchId := p.(percent := p.percent[filename := p.percent[filename] + delta])];
    }

    /** `memory_cacher.get(watch_id)["error"][filename] = message`. */
    method SetError(watchId: string, filename: string, message: string)
      requires watchId in entries
      modifies this
      ensures entries == old(entries)[watchId := old(entries)[watchId].(error := old(entries)[watchId].error[filename := message])]
    {
      var p := entries[watchId];
      entries := entries[watchId := p.(error := p.error[filename := message])];
    }
  }
}
