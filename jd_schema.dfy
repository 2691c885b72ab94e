/** apis/v1/schemas/jd_schema.py: a job description and its record. */
module Jd {
  import opened Wrappers
  import opened Values
  import opened Store

  /** The fields a `JDSchema` object keeps; `extraction` is not one of them. */
  datatype JdData = JdData(id: Value, content: Value)

  /** `to_dict(include_id, minimal)`: the content, and the id iff asked for;
      `minimal` changes nothing. */
  function ToDict(j: JdData, includeId: bool, minimal: bool): (r: Record)
    ensures "content" in r && r["content"] == j.content
    ensures ("id" in r) <==> includeId
    ensures includeId ==> r["id"] == j.id
    ensures r.Keys <= {"content", "id"}
  {
    var base := map["content" := j.content];
    if includeId then base["id" := j.id] else base
  }

  /** `from_dict`: reads only "id" and "content". */
  function FromDict(d: Record): JdData {
    JdData(Get(d, "id"), Get(d, "content"))
  }

  lemma MinimalHasNoEffect(j: JdData, includeId: bool)
    ensures ToDict(j, includeId, true) == ToDict(j, includeId, false)
  {
  }

  /** `from_dict(to_dict(j))` gives `j` back. */
  lemma RoundTrip(j: JdData, minimal: bool)
    ensures FromDict(ToDict(j, true, minimal)) == j
  {
  }

  /** `find_by_id`: None exactly when the store has no such document;
      otherwise the object carries the id it was looked up by. */
  function FindById(docs: Docs, id: Value): (r: Option<JdData>)
    ensures r.None? <==> !(id.Str? && id.s in docs)
    ensures r.Some? ==> r.value == JdData(id, Get(docs[id.s], "content"))
  {
    match Lookup(docs, id)
    case None => None
    case Some(d) =>
      assert "id" in d;
      if !Truthy(Dict(d)) then None else Some(FromDict(d))
  }

  class JDSchema {
    var id: Value
    var content: Value

    function Data(): JdData
      reads this
    {
      JdData(id, content)
    }

    /** `JDSchema(jd_id, content, extraction)`: `extraction` is dropped. */
    constructor (jdId: Value, content: Value, extraction: Value)
      ensures Data() == JdData(jdId, content)
    {
      this.id := jdId;
      this.content := content;
    }

    /** `create_jd`: stores only the content and takes the id the store returns. */
    method CreateJd(db: Collection)
      requires db.Valid()
      modifies this`id, db
      ensures db.Valid()
      ensures id.Str? && id.s !in old(db.docs)
      ensures db.docs == old(db.docs)[id.s := map["content" := content]]
      ensures content == old(content)
    {
      var newId := db.Create(ToDict(Data(), false, true));
      id := Str(newId);
    }

    /** `update_summary`: writes the summary to the store only. */
    method UpdateSummary(db: Collection, summary: Value) returns (r: Result<()>)
      requires db.Valid()
      modifies db`docs
      ensures db.Valid()
      ensures r == UpdateResult(old(db.docs), id, map["summary" := summary])
      ensures db.docs == AfterUpdate(old(db.docs), id, map["summary" := summary])
    {
      r := db.Update(id, map["summary" := summary]);
    }

    /** `update_content`: sets the content in memory and in the store. */
    method UpdateContent(db: Collection, newContent: Value) returns (r: Result<()>)
      requires db.Valid()
      modifies this`content, db`docs
      ensures db.Valid()
      ensures Data() == old(Data()).(content := newContent)
      ensures r == UpdateResult(old(db.docs), id, map["content" := newContent])
      ensures db.docs == AfterUpdate(old(db.docs), id, map["content" := newContent])
    {
      content := newContent;
      r := db.Update(id, map["content" := newContent]);
    }
  }
}
