/** apis/v1/schemas/position_schema.py: a hiring position, its CV list and
    its status. The object in memory and the stored record are kept apart:
    several updates write only to the store. */
module Position {
  import opened Wrappers
  import opened Values
  import opened Store

  datatype PositionStatus = Open | Processing | Closed | Cancelled

  /** The string each status is stored as. */
  function StatusValue(s: PositionStatus): (r: string)
    ensures r in {"open", "processing", "closed", "cancelled"}
  {
    match s
    case Open => "open"
    case Processing => "processing"
    case Closed => "closed"
    case Cancelled => "cancelled"
  }

  /** `PositionStatus(v)`: a ValueError unless `v` is one of the four strings. */
  function ParseStatus(v: Value): (r: Result<PositionStatus>)
    ensures r.Ok? <==> v.Str? && v.s in {"open", "processing", "closed", "cancelled"}
    ensures r.Ok? ==> Str(StatusValue(r.value)) == v
    ensures r.Err? ==> r.error.Raised? && r.error.kind == "ValueError"
  {
    if v == Str("open") then Ok(Open)
    else if v == Str("processing") then Ok(Processing)
    else if v == Str("closed") then Ok(Closed)
    else if v == Str("cancelled") then Ok(Cancelled)
    else Err(ValueError(Repr(v) + " is not a valid PositionStatus"))
  }

  lemma ParseStatusValue(s: PositionStatus)
    ensures ParseStatus(Str(StatusValue(s))) == Ok(s)
  {
  }

  /** The fields of a `PositionSchema` object. Only `status` is typed: every
      other field holds whatever the record held. */
  datatype PositionData = PositionData(
    id: Value, name: Value, description: Value, alias: Value,
    status: PositionStatus, startDate: Value, endDate: Value,
    cvs: Value, jd: Value, reAnalyzing: Value, matchDetail: Value)

  /** The fields `to_dict(minimal=True)` leaves out. */
  const DetailFields: set<string> := {"start_date", "end_date", "cvs", "re_analyzing", "match_detail"}

  /** `to_dict(include_id, minimal)`. A `jd` that is not a string is asked for
      its own `to_dict`, which a stored dict does not have. */
  function ToDict(p: PositionData, includeId: bool, minimal: bool): (r: Result<Record>)
    ensures r.Err? <==> !p.jd.Str?
    ensures r.Ok? ==> "name" in r.value && "description" in r.value && "alias" in r.value && "status" in r.value && "jd" in r.value
    ensures r.Ok? ==> r.value["status"] == Str(StatusValue(p.status)) && r.value["jd"] == p.jd
    ensures r.Ok? ==> forall f :: f in DetailFields ==> (f in r.value <==> !minimal)
    ensures r.Ok? ==> ("id" in r.value <==> includeId) && (includeId ==> r.value["id"] == p.id)
    ensures r.Ok? ==> r.value.Keys <= {"name", "description", "alias", "status", "jd", "id"} + DetailFields
  {
    if !p.jd.Str? then Err(AttributeError("'" + TypeName(p.jd) + "' object has no attribute 'to_dict'"))
    else
      var base := map["name" := p.name, "description" := p.description, "alias" := p.alias,
                      "status" := Str(StatusValue(p.status)), "jd" := p.jd];
      var full := if minimal then base
        else base["start_date" := p.startDate]["end_date" := p.endDate]["cvs" := p.cvs]
                 ["re_analyzing" := p.reAnalyzing]["match_detail" := p.matchDetail];
      Ok(if includeId then full["id" := p.id] else full)
  }

  /** `from_dict`: an absent status means OPEN, any other unknown status raises. */
  function FromDict(d: Record): (r: Result<PositionData>)
    ensures r.Err? <==> "status" in d && ParseStatus(d["status"]).Err?
    ensures r.Ok? ==> r.value.status == (if "status" in d then ParseStatus(d["status"]).value else Open)
    ensures r.Ok? ==> r.value.cvs == Get(d, "cvs") && r.value.jd == Get(d, "jd") && r.value.id == Get(d, "id")
  {
    var status :- if "status" in d then ParseStatus(d["status"]) else Ok(Open);
    Ok(PositionData(Get(d, "id"), Get(d, "name"), Get(d, "description"), Get(d, "alias"), status,
                    Get(d, "start_date"), Get(d, "end_date"), Get(d, "cvs"), Get(d, "jd"),
                    Get(d, "re_analyzing"), Get(d, "match_detail")))
  }

  /** `from_dict(to_dict(p))` gives back every field when `jd` is a string. */
  lemma RoundTrip(p: PositionData)
    requires p.jd.Str?
    ensures ToDict(p, true, false).Ok? && FromDict(ToDict(p, true, false).value) == Ok(p)
  {
    ParseStatusValue(p.status);
  }

  /** A record without a status reads as an OPEN position. */
  lemma MissingStatusIsOpen(d: Record)
    requires "status" !in d
    ensures FromDict(d).Ok? && FromDict(d).value.status == Open
  {
  }

  /** `find_by_id`: a missing record is handed to `from_dict` as None, which
      raises; the caller's "Position not found" branch is never reached. */
  function FindById(docs: Docs, id: Value): (r: Result<PositionData>)
    ensures !(id.Str? && id.s in docs) ==> r == Err(AttributeError("'NoneType' object has no attribute 'get'"))
    ensures id.Str? && id.s in docs ==> r == FromDict(docs[id.s]["id" := id])
    ensures r.Ok? ==> r.value.id == id
  {
    match Lookup(docs, id)
    case None => Err(AttributeError("'NoneType' object has no attribute 'get'"))
    case Some(d) => FromDict(d)
  }

  /** `[from_dict(r) for r in records]`: the first failure, or all of them. */
  function FromDictAll(records: seq<Record>): (r: Result<seq<PositionData>>)
    ensures r.Ok? <==> forall k :: 0 <= k < |records| ==> FromDict(records[k]).Ok?
    ensures r.Ok? ==> |r.value| == |records| && forall k :: 0 <= k < |records| ==> r.value[k] == FromDict(records[k]).value
  {
    if records == [] then Ok([])
    else
      var p :- FromDict(records[0]);
      var rest :- FromDictAll(records[1..]);
      Ok([p] + rest)
  }

  /** `find_all_by_ids`: one position per listed id that has a record, in
      list order. */
  function FindAllByIds(docs: Docs, ids: Value): (r: Result<seq<PositionData>>)
    ensures r.Ok? ==> ids.List? && |r.value| == |LookupAll(docs, ids.items)| <= |ids.items|
  {
    var xs :- IdList(ids);
    FromDictAll(LookupAll(docs, ids.items))
  }

  /** The positions are read from the stored records of the listed ids, one
      for one and in order; a non-list or a record that cannot be read
      raises. */
  lemma FindAllByIdsReads(docs: Docs, ids: Value)
    ensures !ids.List? ==> FindAllByIds(docs, ids).Err?
    ensures ids.List? ==> var found := LookupAll(docs, ids.items); var r := FindAllByIds(docs, ids);
      && (r.Ok? <==> forall k :: 0 <= k < |found| ==> FromDict(found[k]).Ok?)
      && (r.Ok? ==> |r.value| == |found| && forall k :: 0 <= k < |found| ==> r.value[k] == FromDict(found[k]).value)
  {
    if ids.List? {
      assert FindAllByIds(docs, ids) == FromDictAll(LookupAll(docs, ids.items));
    }
  }

  /** `xs.remove(x)`: drops the first occurrence; None when there is none. */
  function RemoveFirst(xs: seq<Value>, x: Value): (r: Option<seq<Value>>)
    ensures r.None? <==> x !in xs
  {
    if xs == [] then None
    else if xs[0] == x then Some(xs[1..])
    else match RemoveFirst(xs[1..], x)
      case None => None
      case Some(rest) => Some([xs[0]] + rest)
  }

  /** `xs.index(x)`: the position of the first `x`. */
  function IndexOf(xs: seq<Value>, x: Value): (i: nat)
    requires x in xs
    ensures i < |xs| && xs[i] == x && x !in xs[..i]
  {
    if xs[0] == x then 0
    else
      var i := IndexOf(xs[1..], x);
      assert xs[..i + 1] == [xs[0]] + xs[1..][..i];
      i + 1
  }

  /** The result of `remove` is the list without its first `x`. */
  lemma {:induction false} RemoveFirstSpec(xs: seq<Value>, x: Value)
    requires x in xs
    ensures RemoveFirst(xs, x) == Some(xs[..IndexOf(xs, x)] + xs[IndexOf(xs, x) + 1..])
  {
    var i := IndexOf(xs, x);
    if xs[0] == x {
      assert i == 0;
      assert xs[..i] + xs[i + 1..] == xs[1..];
    } else {
      var tail := xs[1..];
      RemoveFirstSpec(tail, x);
      var j := IndexOf(tail, x);
      assert i == j + 1;
      var rest := tail[..j] + tail[j + 1..];
      assert RemoveFirst(xs, x) == Some([xs[0]] + rest);
      assert xs[..i] == [xs[0]] + tail[..j];
      assert xs[i + 1..] == tail[j + 1..];
      assert [xs[0]] + rest == xs[..i] + xs[i + 1..];
    }
  }

  /** The list `update_cv` leaves in memory, or the exception it raises:
      `append` and `remove` need a list, and `remove` needs the id in it. */
  function CvsAfter(cvs: Value, cvId: string, isAdd: bool): (r: Result<seq<Value>>)
    ensures !cvs.List? ==> r.Err? && r.error.Raised? && r.error.kind == "AttributeError"
    ensures cvs.List? && isAdd ==> r == Ok(cvs.items + [Str(cvId)])
    ensures cvs.List? && !isAdd ==> (r.Err? <==> Str(cvId) !in cvs.items)
    ensures cvs.List? && !isAdd && r.Ok? ==> |r.value| == |cvs.items| - 1
  {
    if !cvs.List? then
      Err(AttributeError("'" + TypeName(cvs) + "' object has no attribute '" + (if isAdd then "append" else "remove") + "'"))
    else if isAdd then Ok(cvs.items + [Str(cvId)])
    else match RemoveFirst(cvs.items, Str(cvId))
      case None => Err(ValueError("list.remove(x): x not in list"))
      case Some(rest) =>
        RemoveFirstSpec(cvs.items, Str(cvId));
        Ok(rest)
  }

  /** The status `update_cv` writes to the store, if any: PROCESSING on an add
      to an OPEN position, OPEN when the last CV of a PROCESSING one goes. */
  function StatusWrite(status: PositionStatus, isAdd: bool, newCvs: seq<Value>): (r: Option<PositionStatus>)
    ensures r == Some(Processing) <==> isAdd && status == Open
    ensures r == Some(Open) <==> !isAdd && newCvs == [] && status == Processing
    ensures r.Some? ==> r == Some(Processing) || r == Some(Open)
  {
    if isAdd then (if status == Open then Some(Processing) else None)
    else if newCvs == [] && status == Processing then Some(Open)
    else None
  }

  /** The object, the position collection and the outcome after a call. */
  datatype Outcome = Outcome(data: PositionData, docs: Docs, result: Result<()>)

  /** `position_db.update(id, patch)` seen from a position. */
  function Write(p: PositionData, docs: Docs, patch: Record): Outcome {
    Outcome(p, AfterUpdate(docs, p.id, patch), UpdateResult(docs, p.id, patch))
  }

  /** `update_cv(cv_id, is_add)`: change the list in memory, maybe write a
      status, then write the whole list. A failed write stops the method. */
  function UpdateCvSpec(p: PositionData, docs: Docs, cvId: string, isAdd: bool): Outcome {
    match CvsAfter(p.cvs, cvId, isAdd)
    case Err(e) => Outcome(p, docs, Err(e))
    case Ok(newCvs) =>
      var q := p.(cvs := List(newCvs));
      match StatusWrite(p.status, isAdd, newCvs)
      case None => Write(q, docs, map["cvs" := List(newCvs)])
      case Some(s) =>
        var first := Write(q, docs, map["status" := Str(StatusValue(s))]);
        if first.result.Err? then first else Write(q, first.docs, map["cvs" := List(newCvs)])
  }

  /** `update_cv` touches no field of the object but `cvs`; in particular the
      status in memory never changes. */
  lemma UpdateCvKeepsOtherFields(p: PositionData, docs: Docs, cvId: string, isAdd: bool)
    ensures var o := UpdateCvSpec(p, docs, cvId, isAdd); o.data == p.(cvs := o.data.cvs)
  {
  }

  /** Adding appends the id and keeps the earlier entries; when the stored
      position exists, the list written equals the list in memory. */
  lemma AddAppends(p: PositionData, docs: Docs, cvId: string)
    requires p.cvs.List?
    ensures var o := UpdateCvSpec(p, docs, cvId, true);
      && o.data.cvs == List(p.cvs.items + [Str(cvId)])
      && o.data.cvs.items[..|p.cvs.items|] == p.cvs.items
      && (p.id.Str? && p.id.s in docs ==> o.result.Ok? && "cvs" in o.docs[p.id.s] && o.docs[p.id.s]["cvs"] == o.data.cvs)
      && (!(p.id.Str? && p.id.s in docs) ==> o.result == Err(MissingDocument) && o.docs == docs)
  {
  }

  /** An add stores PROCESSING exactly when the status in memory is OPEN;
      otherwise the stored status is left as it was. */
  lemma AddStatus(p: PositionData, docs: Docs, cvId: string)
    requires p.cvs.List? && p.id.Str? && p.id.s in docs
    ensures var o := UpdateCvSpec(p, docs, cvId, true);
      && (p.status == Open ==> "status" in o.docs[p.id.s] && o.docs[p.id.s]["status"] == Str("processing"))
      && (p.status != Open ==> ("status" in o.docs[p.id.s] <==> "status" in docs[p.id.s])
                                && ("status" in docs[p.id.s] ==> o.docs[p.id.s]["status"] == docs[p.id.s]["status"]))
  {
  }

  /** Removing an id that is not in the list raises ValueError, as
      `list.remove` does, and nothing is written. */
  lemma RemoveAbsentRaises(p: PositionData, docs: Docs, cvId: string)
    requires p.cvs.List? && Str(cvId) !in p.cvs.items
    ensures UpdateCvSpec(p, docs, cvId, false) == Outcome(p, docs, Err(ValueError("list.remove(x): x not in list")))
  {
  }

  /** Removing drops the first occurrence of the id and nothing else. */
  lemma RemoveDropsFirst(p: PositionData, docs: Docs, cvId: string)
    requires p.cvs.List? && Str(cvId) in p.cvs.items
    ensures var o := UpdateCvSpec(p, docs, cvId, false);
      var i := IndexOf(p.cvs.items, Str(cvId));
      o.data.cvs == List(p.cvs.items[..i] + p.cvs.items[i + 1..])
  {
    RemoveFirstSpec(p.cvs.items, Str(cvId));
  }

  /** A removal stores OPEN only when the list becomes empty on a PROCESSING
      position; otherwise the stored status is untouched. */
  lemma RemoveStatus(p: PositionData, docs: Docs, cvId: string)
    requires p.cvs.List? && Str(cvId) in p.cvs.items && p.id.Str? && p.id.s in docs
    ensures var o := UpdateCvSpec(p, docs, cvId, false);
      && o.result.Ok?
      && (o.data.cvs == List([]) && p.status == Processing ==> "status" in o.docs[p.id.s] && o.docs[p.id.s]["status"] == Str("open"))
      && (!(o.data.cvs == List([]) && p.status == Processing) ==>
            ("status" in o.docs[p.id.s] <==> "status" in docs[p.id.s])
            && ("status" in docs[p.id.s] ==> o.docs[p.id.s]["status"] == docs[p.id.s]["status"]))
  {
  }

  /** Since the status in memory stays OPEN, every further add on the same
      object stores PROCESSING again. */
  lemma RepeatedAddsRewriteStatus(p: PositionData, docs: Docs, a: string, b: string)
    requires p.cvs.List? && p.status == Open && p.id.Str? && p.id.s in docs
    ensures var o1 := UpdateCvSpec(p, docs, a, true);
      && o1.data.status == Open
      && StatusWrite(o1.data.status, true, o1.data.cvs.items + [Str(b)]) == Some(Processing)
      && var o2 := UpdateCvSpec(o1.data, o1.docs, b, true);
         o2.result.Ok? && o2.docs[p.id.s]["status"] == Str("processing")
         && o2.data.cvs == List(p.cvs.items + [Str(a), Str(b)])
  {
    AddAppends(p, docs, a);
    var o1 := UpdateCvSpec(p, docs, a, true);
    AddAppends(o1.data, o1.docs, b);
    AddStatus(o1.data, o1.docs, b);
  }

  /** `get_jd_by_cvs(cv_id)`: the position's jd when the id is in its list,
      None otherwise (a TypeError when `cvs` cannot be searched). */
  function JdByCvs(p: PositionData, cvId: string): (r: Result<Value>)
    ensures r.Err? <==> Contains(p.cvs, cvId).Err?
    ensures p.cvs.List? ==> r.Ok? && (Str(cvId) in p.cvs.items ==> r.value == p.jd) && (Str(cvId) !in p.cvs.items ==> r.value == Null)
  {
    var found :- Contains(p.cvs, cvId);
    Ok(if found then p.jd else Null)
  }

  /** After an add of `c`, `get_jd_by_cvs(c)` gives the position's jd. */
  lemma JdAfterAdd(p: PositionData, docs: Docs, c: string)
    requires p.cvs.List?
    ensures JdByCvs(UpdateCvSpec(p, docs, c, true).data, c) == Ok(p.jd)
  {
    AddAppends(p, docs, c);
  }

  class PositionSchema {
    var id: Value
    var name: Value
    var description: Value
    var alias: Value
    var status: PositionStatus
    var startDate: Value
    var endDate: Value
    var cvs: Value
    var jd: Value
    var reAnalyzing: Value
    var matchDetail: Value

    function Data(): PositionData
      reads this
    {
      PositionData(id, name, description, alias, status, startDate, endDate, cvs, jd, reAnalyzing, matchDetail)
    }

    /** The object `PositionSchema.from_dict` builds. */
    constructor (p: PositionData)
      ensures Data() == p
    {
      id, name, description, alias, status := p.id, p.name, p.description, p.alias, p.status;
      startDate, endDate, cvs, jd := p.startDate, p.endDate, p.cvs, p.jd;
      reAnalyzing, matchDetail := p.reAnalyzing, p.matchDetail;
    }

    /** `update_position(data)`: the store only. */
    method UpdatePosition(db: Collection, patch: Record) returns (r: Result<()>)
      requires db.Valid()
      modifies db`docs
      ensures db.Valid()
      ensures r == UpdateResult(old(db.docs), id, patch)
      ensures db.docs == AfterUpdate(old(db.docs), id, patch)
    {
      r := db.Update(id, patch);
    }

    /** `update_status(new_status)`: the store only; `status` in memory is
        not changed. */
    method UpdateStatus(db: Collection, newStatus: PositionStatus) returns (r: Result<()>)
      requires db.Valid()
      modifies db`docs
      ensures db.Valid()
      ensures r == UpdateResult(old(db.docs), id, map["status" := Str(StatusValue(newStatus))])
      ensures db.docs == AfterUpdate(old(db.docs), id, map["status" := Str(StatusValue(newStatus))])
    {
      r := UpdatePosition(db, map["status" := Str(StatusValue(newStatus))]);
    }

    /** `update_jd(jd_id)`: the store only; `jd` in memory is not changed. */
    method UpdateJd(db: Collection, jdId: Value) returns (r: Result<()>)
      requires db.Valid()
      modifies db`docs
      ensures db.Valid()
      ensures r == UpdateResult(old(db.docs), id, map["jd" := jdId])
      ensures db.docs == AfterUpdate(old(db.docs), id, map["jd" := jdId])
    {
      r := UpdatePosition(db, map["jd" := jdId]);
    }

    /** `update_cv(cv_id, is_add)`. */
    method UpdateCv(db: Collection, cvId: string, isAdd: bool) returns (r: Result<()>)
      requires db.Valid()
      modifies this`cvs, db`docs
      ensures db.Valid()
      ensures Outcome(Data(), db.docs, r) == UpdateCvSpec(old(Data()), old(db.docs), cvId, isAdd)
    {
      var after := CvsAfter(cvs, cvId, isAdd);
      if after.Err? {
        return Err(after.error);
      }
      var newCvs := after.value;
      cvs := List(newCvs);
      var write := StatusWrite(status, isAdd, newCvs);
      if write.Some? {
        r := UpdateStatus(db, write.value);
        if r.Err? {
          return;
        }
      }
      r := UpdatePosition(db, map["cvs" := cvs]);
    }
  }
}
