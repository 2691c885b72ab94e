/** apis/v1/schemas/cv_schema.py: a CV, its record, and the updates that
    change one or two of its fields in memory and in the store. */
module Cv {
  import opened Wrappers
  import opened Values
  import opened Store

  datatype CVStatus = Applying | Accepted | Interviewing | Hired

  /** `status.value`. */
  function StatusValue(s: CVStatus): (r: string)
    ensures r in {"APPLYING", "ACCEPTED", "INTERVIEWING", "HIRED"}
  {
    match s
    case Applying => "APPLYING"
    case Accepted => "ACCEPTED"
    case Interviewing => "INTERVIEWING"
    case Hired => "HIRED"
  }

  /** `CVStatus(v)`: a ValueError unless `v` is one of the four values. */
  function ParseCvStatus(v: Value): (r: Result<CVStatus>)
    ensures r.Ok? <==> v.Str? && v.s in {"APPLYING", "ACCEPTED", "INTERVIEWING", "HIRED"}
    ensures r.Ok? ==> Str(StatusValue(r.value)) == v
    ensures r.Err? ==> r.error.Raised? && r.error.kind == "ValueError"
  {
    if v == Str("APPLYING") then Ok(Applying)
    else if v == Str("ACCEPTED") then Ok(Accepted)
    else if v == Str("INTERVIEWING") then Ok(Interviewing)
    else if v == Str("HIRED") then Ok(Hired)
    else Err(ValueError(Repr(v) + " is not a valid CVStatus"))
  }

  /** The eleven fields of a `CVSchema` object. */
  datatype CVData = CVData(
    id: Value, name: Value, path: Value, url: Value, weight: Value,
    matching: Value, summary: Value, content: Value, labels: Value,
    status: CVStatus, uploadAt: Value)

  /** `CVSchema(name=n)`: the defaults of the constructor. `upload_at`
      defaults to the clock reading taken once, when the module was loaded. */
  function Fresh(name: Value, loadTime: Value): (c: CVData)
    ensures c.id == Null && c.name == name && c.status == Applying && c.uploadAt == loadTime
    ensures c.labels == List([]) && c.weight == Dict(map[])
  {
    CVData(Null, name, Str(""), Str(""), Dict(map[]), Str(""), Str(""), Str(""), List([]), Applying, loadTime)
  }

  /** The fields every record holds. */
  const StoredFields: set<string> :=
    {"name", "path", "url", "weight", "matching", "summary", "content", "labels", "status", "upload_at"}

  /** `to_dict(include_id)`: every field, the status as its value string. */
  function ToDict(c: CVData, includeId: bool): (r: Record)
  {
    var base := map["name" := c.name, "path" := c.path, "url" := c.url, "weight" := c.weight,
                    "matching" := c.matching, "summary" := c.summary, "content" := c.content,
                    "labels" := c.labels, "status" := Str(StatusValue(c.status)), "upload_at" := c.uploadAt];
    if includeId then base["id" := c.id] else base
  }

  /** `to_dict` stores every field under its own key, the status by its
      value, and adds the id only when asked to. */
  lemma ToDictFields(c: CVData, includeId: bool)
    ensures var r := ToDict(c, includeId);
      && r.Keys == StoredFields + (if includeId then {"id"} else {})
      && r["status"] == Str(StatusValue(c.status))
      && r["name"] == c.name && r["path"] == c.path && r["url"] == c.url && r["weight"] == c.weight
      && r["matching"] == c.matching && r["summary"] == c.summary && r["content"] == c.content
      && r["labels"] == c.labels && r["upload_at"] == c.uploadAt
      && (includeId ==> r["id"] == c.id)
  {
  }

  /** `to_dict(include_id=False)` does not look at the id. */
  lemma ToDictIgnoresId(c: CVData, id: Value)
    ensures ToDict(c.(id := id), false) == ToDict(c, false)
  {
  }

  /** `to_dict(include_id=False)` leaves out the id and nothing else. */
  lemma WithoutIdDropsOnlyId(c: CVData)
    ensures ToDict(c, false) == ToDict(c, true) - {"id"}
  {
  }

  /** `from_dict`: fails exactly when the stored status is not a CVStatus value. */
  function FromDict(d: Record): (r: Result<CVData>)
    ensures r.Err? <==> ParseCvStatus(Get(d, "status")).Err?
    ensures r.Ok? ==> r.value.id == Get(d, "id") && Str(StatusValue(r.value.status)) == Get(d, "status")
  {
    var status :- ParseCvStatus(Get(d, "status"));
    Ok(CVData(Get(d, "id"), Get(d, "name"), Get(d, "path"), Get(d, "url"), Get(d, "weight"),
              Get(d, "matching"), Get(d, "summary"), Get(d, "content"), Get(d, "labels"),
              status, Get(d, "upload_at")))
  }

  /** `from_dict(to_dict(c))` gives back all eleven fields. */
  lemma RoundTrip(c: CVData)
    ensures FromDict(ToDict(c, true)) == Ok(c)
  {
  }

  /** `find_by_id`: None exactly when there is no record; a record whose
      status is not a CVStatus value raises. */
  function FindById(docs: Docs, id: Value): (r: Result<Option<CVData>>)
    ensures r == Ok(None) <==> !(id.Str? && id.s in docs)
    ensures id.Str? && id.s in docs ==>
              match FromDict(docs[id.s]["id" := id])
              case Ok(c) => r == Ok(Some(c))
              case Err(e) => r == Err(e)
    ensures r.Ok? && r.value.Some? ==> r.value.value.id == id
  {
    match Lookup(docs, id)
    case None => Ok(None)
    case Some(d) =>
      assert "id" in d;
      if !Truthy(Dict(d)) then Ok(None)
      else
        var c :- FromDict(d);
        Ok(Some(c))
  }

  /** `[from_dict(r) for r in records]`: the first failure, or all of them. */
  function FromDictAll(records: seq<Record>): (r: Result<seq<CVData>>)
    ensures r.Ok? <==> forall k :: 0 <= k < |records| ==> FromDict(records[k]).Ok?
    ensures r.Ok? ==> |r.value| == |records| && forall k :: 0 <= k < |records| ==> r.value[k] == FromDict(records[k]).value
  {
    if records == [] then Ok([])
    else
      var c :- FromDict(records[0]);
      var rest :- FromDictAll(records[1..]);
      Ok([c] + rest)
  }

  /** `find_by_ids`: one CV per id that has a record, in list order. */
  function FindByIds(docs: Docs, ids: seq<Value>): (r: Result<seq<CVData>>)
    ensures r.Ok? ==> |r.value| == |LookupAll(docs, ids)| <= |ids|
    ensures r.Ok? ==> forall k :: 0 <= k < |r.value| ==> exists j :: 0 <= j < |ids| && ids[j] == r.value[k].id && Lookup(docs, ids[j]).Some?
    ensures r.Ok? && r.value == [] ==> forall j :: 0 <= j < |ids| ==> !(ids[j].Str? && ids[j].s in docs)
  {
    var found := LookupAll(docs, ids);
    var cvs :- FromDictAll(found);
    forall k | 0 <= k < |cvs| ensures exists j :: 0 <= j < |ids| && ids[j] == cvs[k].id && Lookup(docs, ids[j]).Some? {
      var j :| 0 <= j < |ids| && Lookup(docs, ids[j]) == Some(found[k]);
      assert found[k]["id"] == ids[j];
    }
    forall j | 0 <= j < |ids| ensures !(ids[j].Str? && ids[j].s in docs) || |found| > 0 {
      if ids[j].Str? && ids[j].s in docs {
        assert Lookup(docs, ids[j]).value in found;
      }
    }
    Ok(cvs)
  }

  /** `find_by_ids` on a stored id list, which may hold any value. */
  function FindByIdList(docs: Docs, ids: Value): Result<seq<CVData>> {
    var xs :- IdList(ids);
    FindByIds(docs, xs)
  }

  /** The single-field updates of `CVSchema`. */
  datatype Update =
    | PathUrl(path: Value, url: Value)
    | Weight(weight: Value)
    | Summary(summary: Value)
    | Labels(labels: Value)
    | Matching(matching: Value)
    | Content(content: Value)
    | Status(status: CVStatus)

  /** What each update writes to the store. */
  function Patch(u: Update): Record {
    match u
    case PathUrl(path, url) => map["path" := path, "url" := url]
    case Weight(weight) => map["weight" := weight]
    case Summary(summary) => map["summary" := summary]
    case Labels(labels) => map["labels" := labels]
    case Matching(matching) => map["matching" := matching]
    case Content(content) => map["content" := content]
    case Status(status) => map["status" := Str(StatusValue(status))]
  }

  /** What each update assigns in memory; `update_labels` assigns the labels
      to `summary`. */
  function Apply(c: CVData, u: Update): (r: CVData)
    ensures r.id == c.id && r.name == c.name && r.labels == c.labels && r.uploadAt == c.uploadAt
  {
    match u
    case PathUrl(path, url) => c.(path := path, url := url)
    case Weight(weight) => c.(weight := weight)
    case Summary(summary) => c.(summary := summary)
    case Labels(labels) => c.(summary := labels)
    case Matching(matching) => c.(matching := matching)
    case Content(content) => c.(content := content)
    case Status(status) => c.(status := status)
  }

  /** The record in the store says what the object in memory says. */
  predicate InSync(docs: Docs, c: CVData) {
    c.id.Str? && c.id.s in docs && docs[c.id.s] == ToDict(c, false)
  }

  /** Every update but `update_labels` keeps a stored CV in step with the
      object: the store holds `to_dict` of the updated object. */
  lemma UpdateKeepsInSync(docs: Docs, c: CVData, u: Update)
    requires InSync(docs, c) && !u.Labels?
    ensures UpdateResult(docs, c.id, Patch(u)).Ok?
    ensures InSync(AfterUpdate(docs, c.id, Patch(u)), Apply(c, u))
  {
    var after := AfterUpdate(docs, c.id, Patch(u));
    assert after[c.id.s] == ToDict(c, false) + Patch(u);
    PatchIsToDict(c, u);
  }

  /** Merging an update's patch into `to_dict(c)` gives `to_dict` of the
      updated object. */
  lemma PatchIsToDict(c: CVData, u: Update)
    requires !u.Labels?
    ensures ToDict(c, false) + Patch(u) == ToDict(Apply(c, u), false)
  {
    match u {
      case PathUrl(path, url) => PatchPathUrl(c, path, url);
      case Weight(v) => SetWeight(c, v);
      case Summary(v) => SetSummary(c, v);
      case Matching(v) => SetMatching(c, v);
      case Content(v) => SetContent(c, v);
      case Status(v) => SetStatus(c, v);
    }
  }

  /** `update_path_url` writes the two fields it assigns. */
  lemma PatchPathUrl(c: CVData, path: Value, url: Value)
    ensures ToDict(c, false) + map["path" := path, "url" := url] == ToDict(c.(path := path, url := url), false)
  {
    SetPath(c, path);
    SetUrl(c.(path := path), url);
    MergeTwo(ToDict(c, false), "path", path, "url", url);
  }

  // One field written to the record is that field assigned in the object.

  lemma SetPath(c: CVData, v: Value)
    ensures ToDict(c, false) + map["path" := v] == ToDict(c.(path := v), false)
  {
    SetOneField(c, c.(path := v), "path", v);
  }

  lemma SetUrl(c: CVData, v: Value)
    ensures ToDict(c, false) + map["url" := v] == ToDict(c.(url := v), false)
  {
    SetOneField(c, c.(url := v), "url", v);
  }

  lemma SetWeight(c: CVData, v: Value)
    ensures ToDict(c, false) + map["weight" := v] == ToDict(c.(weight := v), false)
  {
    SetOneField(c, c.(weight := v), "weight", v);
  }

  lemma SetSummary(c: CVData, v: Value)
    ensures ToDict(c, false) + map["summary" := v] == ToDict(c.(summary := v), false)
  {
    SetOneField(c, c.(summary := v), "summary", v);
  }

  lemma SetMatching(c: CVData, v: Value)
    ensures ToDict(c, false) + map["matching" := v] == ToDict(c.(matching := v), false)
  {
    SetOneField(c, c.(matching := v), "matching", v);
  }

  lemma SetContent(c: CVData, v: Value)
    ensures ToDict(c, false) + map["content" := v] == ToDict(c.(content := v), false)
  {
    SetOneField(c, c.(content := v), "content", v);
  }

  lemma SetStatus(c: CVData, v: CVStatus)
    ensures ToDict(c, false) + map["status" := Str(StatusValue(v))] == ToDict(c.(status := v), false)
  {
    SetOneField(c, c.(status := v), "status", Str(StatusValue(v)));
  }

  /** Merging a two-entry map is merging its entries one after the other. */
  lemma MergeTwo(d: Record, k1: string, v1: Value, k2: string, v2: Value)
    requires k1 != k2
    ensures d + map[k1 := v1, k2 := v2] == (d + map[k1 := v1]) + map[k2 := v2]
  {
  }

  /** When two objects' records differ in one field only, the second is the
      first with that field overwritten. */
  lemma SetOneField(c: CVData, c2: CVData, k: string, v: Value)
    requires k in StoredFields
    requires ToDict(c2, false)[k] == v
    requires forall f :: f in StoredFields && f != k ==> ToDict(c2, false)[f] == ToDict(c, false)[f]
    ensures ToDict(c, false) + map[k := v] == ToDict(c2, false)
  {
    var a := ToDict(c, false) + map[k := v];
    var b := ToDict(c2, false);
    assert a.Keys == b.Keys;
    forall f | f in a ensures a[f] == b[f] {
      if f != k { assert f in StoredFields; }
    }
  }

  /** `update_labels` breaks that: the store gets the new labels, the object
      keeps its old labels and gets them as its summary instead. */
  lemma UpdateLabelsMixUp(docs: Docs, c: CVData, labels: Value)
    requires InSync(docs, c) && labels != c.labels
    ensures var after := AfterUpdate(docs, c.id, Patch(Labels(labels)));
      && after[c.id.s]["labels"] == labels
      && Apply(c, Labels(labels)).labels == c.labels
      && Apply(c, Labels(labels)).summary == labels
      && !InSync(after, Apply(c, Labels(labels)))
  {
    var after := AfterUpdate(docs, c.id, Patch(Labels(labels)));
    assert after[c.id.s]["labels"] == labels;
    assert ToDict(Apply(c, Labels(labels)), false)["labels"] == c.labels;
  }

  class CVSchema {
    var id: Value
    var name: Value
    var path: Value
    var url: Value
    var weight: Value
    var matching: Value
    var summary: Value
    var content: Value
    var labels: Value
    var status: CVStatus
    var uploadAt: Value

    function Data(): CVData
      reads this
    {
      CVData(id, name, path, url, weight, matching, summary, content, labels, status, uploadAt)
    }

    constructor (c: CVData)
      ensures Data() == c
    {
      id, name, path, url, weight, matching := c.id, c.name, c.path, c.url, c.weight, c.matching;
      summary, content, labels, status, uploadAt := c.summary, c.content, c.labels, c.status, c.uploadAt;
    }

    /** `create_cv`: stores the record without an id and takes the id the
        store returns; the new record is then in step with the object. */
    method CreateCv(db: Collection)
      requires db.Valid()
      modifies this`id, db
      ensures db.Valid()
      ensures id.Str? && id.s !in old(db.docs)
      ensures id == Str(IdFor(old(db.created))) && db.created == old(db.created) + 1
      ensures db.docs == old(db.docs)[id.s := ToDict(old(Data()), false)]
      ensures Data() == old(Data()).(id := id)
      ensures InSync(db.docs, Data())
    {
      var before := Data();
      var newId := db.Create(ToDict(before, false));
      id := Str(newId);
      assert Data() == before.(id := id);
      ToDictIgnoresId(before, id);
    }

    /** The shared body of the `update_*` methods: assign in memory, then
        write the patch for the object's id. */
    method Change(db: Collection, u: Update) returns (r: Result<()>)
      requires db.Valid()
      modifies this, db`docs
      ensures db.Valid()
      ensures Data() == Apply(old(Data()), u)
      ensures r == UpdateResult(old(db.docs), id, Patch(u))
      ensures db.docs == AfterUpdate(old(db.docs), id, Patch(u))
    {
      var d := Apply(Data(), u);
      path, url, weight, summary, matching, content, status := d.path, d.url, d.weight, d.summary, d.matching, d.content, d.status;
      assert Data() == d;
      r := db.Update(id, Patch(u));
    }

    /** `update_path_url(path, url)`. */
    method UpdatePathUrl(db: Collection, newPath: Value, newUrl: Value) returns (r: Result<()>)
      requires db.Valid()
      modifies this, db`docs
      ensures db.Valid()
      ensures Data() == old(Data()).(path := newPath, url := newUrl)
      ensures r == UpdateResult(old(db.docs), id, map["path" := newPath, "url" := newUrl])
      ensures db.docs == AfterUpdate(old(db.docs), id, map["path" := newPath, "url" := newUrl])
    {
      r := Change(db, PathUrl(newPath, newUrl));
    }

    /** `update_weight(weight)`. */
    method UpdateWeight(db: Collection, newWeight: Value) returns (r: Result<()>)
      requires db.Valid()
      modifies this, db`docs
      ensures db.Valid()
      ensures Data() == old(Data()).(weight := newWeight)
      ensures r == UpdateResult(old(db.docs), id, map["weight" := newWeight])
      ensures db.docs == AfterUpdate(old(db.docs), id, map["weight" := newWeight])
    {
      r := Change(db, Weight(newWeight));
    }

    /** `update_summary(summary)` (defined twice in the class, the same way). */
    method UpdateSummary(db: Collection, newSummary: Value) returns (r: Result<()>)
      requires db.Valid()
      modifies this, db`docs
      ensures db.Valid()
      ensures Data() == old(Data()).(summary := newSummary)
      ensures r == UpdateResult(old(db.docs), id, map["summary" := newSummary])
      ensures db.docs == AfterUpdate(old(db.docs), id, map["summary" := newSummary])
    {
      r := Change(db, Summary(newSummary));
    }

    /** `update_labels(labels)`: stores the labels but assigns them to
        `summary` in memory; `labels` in memory keeps its old value. */
    method UpdateLabels(db: Collection, newLabels: Value) returns (r: Result<()>)
      requires db.Valid()
      modifies this, db`docs
      ensures db.Valid()
      ensures Data() == old(Data()).(summary := newLabels)
      ensures labels == old(labels)
      ensures r == UpdateResult(old(db.docs), id, map["labels" := newLabels])
      ensures db.docs == AfterUpdate(old(db.docs), id, map["labels" := newLabels])
    {
      r := Change(db, Labels(newLabels));
    }

    /** `update_matching(matching)`. */
    method UpdateMatching(db: Collection, newMatching: Value) returns (r: Result<()>)
      requires db.Valid()
      modifies this, db`docs
      ensures db.Valid()
      ensures Data() == old(Data()).(matching := newMatching)
      ensures r == UpdateResult(old(db.docs), id, map["matching" := newMatching])
      ensures db.docs == AfterUpdate(old(db.docs), id, map["matching" := newMatching])
    {
      r := Change(db, Matching(newMatching));
    }

    /** `update_content(content)`. */
    method UpdateContent(db: Collection, newContent: Value) returns (r: Result<()>)
      requires db.Valid()
      modifies this, db`docs
      ensures db.Valid()
      ensures Data() == old(Data()).(content := newContent)
      ensures r == UpdateResult(old(db.docs), id, map["content" := newContent])
      ensures db.docs == AfterUpdate(old(db.docs), id, map["content" := newContent])
    {
      r := Change(db, Content(newContent));
    }

    /** `update_status(status)`: the enum in memory, its value in the store. */
    method UpdateStatus(db: Collection, newStatus: CVStatus) returns (r: Result<()>)
      requires db.Valid()
      modifies this, db`docs
      ensures db.Valid()
      ensures Data() == old(Data()).(status := newStatus)
      ensures r == UpdateResult(old(db.docs), id, map["status" := Str(StatusValue(newStatus))])
      ensures db.docs == AfterUpdate(old(db.docs), id, map["status" := Str(StatusValue(newStatus))])
    {
      r := Change(db, Status(newStatus));
    }

    /** `delete_cv`: deletes the record, then the stored file at `path`. */
    method DeleteCv(db: Collection, blobs: BlobStore)
      requires db.Valid()
      modifies db`docs, blobs
      ensures db.Valid()
      ensures db.docs == if id.Str? then old(db.docs) - {id.s} else old(db.docs)
      ensures blobs.objects == if path.Str? then old(blobs.objects) - {path.s} else old(blobs.objects)
    {
      db.Delete(id);
      blobs.Remove(path);
    }
  }
}
