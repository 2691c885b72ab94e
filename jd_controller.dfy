/** apis/v1/controllers/jd_controller.py: the position's job description,
    created on first access and created or updated on upload. */
module JdController {
  import opened Wrappers
  import opened Values
  import opened Store
  import opened Position
  import opened Permissions
  import Jd

  const JdNotFound := Http(NotFound, "JD not found.")
  const EmptyContent := Http(BadRequest, "JD content is required or not be empty.")

  /** `not position.jd or position.jd == ""`: the position has no JD yet. */
  predicate NoJd(p: PositionData) {
    !Truthy(p.jd) || p.jd == Str("")
  }

  /** The `or` adds nothing: an empty string is already falsy. */
  lemma NoJdIsFalsy(p: PositionData)
    ensures NoJd(p) <==> !Truthy(p.jd)
  {
  }

  /** `get_current_jd`: after the checks, a position without a JD gets a new
      empty one, whose id is written to the position without any lookup; a
      position with one gets the stored JD, or 404 when it is gone. */
  method GetCurrentJd(user: Caller, projects: Projects, positionDb: Collection, jdDb: Collection,
                      projectId: string, positionId: string) returns (r: Result<Jd.JdData>, ghost newId: string)
    requires positionDb.Valid() && jdDb.Valid() && positionDb != jdDb
    modifies positionDb, jdDb
    ensures positionDb.Valid() && jdDb.Valid()
    ensures var v := ValidatePermissions(user, projects, old(positionDb.docs), projectId, positionId);
      && (v.Err? ==> r == Err(v.error) && positionDb.docs == old(positionDb.docs) && jdDb.docs == old(jdDb.docs))
      && (v.Ok? && NoJd(v.value) ==>
              && newId !in old(jdDb.docs)
              && jdDb.docs == old(jdDb.docs)[newId := map["content" := Str("")]]
              && positionDb.docs == AfterUpdate(old(positionDb.docs), Str(positionId), map["jd" := Str(newId)])
              && r == Ok(Jd.JdData(Str(newId), Str(""))))
      && (v.Ok? && !NoJd(v.value) ==>
            && positionDb.docs == old(positionDb.docs) && jdDb.docs == old(jdDb.docs)
            && r == match Jd.FindById(old(jdDb.docs), v.value.jd)
                    case None => Err(JdNotFound)
                    case Some(j) => Ok(j))
  {
    var v := ValidatePermissions(user, projects, positionDb.docs, projectId, positionId);
    if v.Err? {
      return Err(v.error), "";
    }
    r, newId := CurrentJdOf(v.value, positionDb, jdDb);
  }

  /** The body of `get_current_jd` once the checks have passed on a stored
      position `p`. */
  method CurrentJdOf(p: PositionData, positionDb: Collection, jdDb: Collection) returns (r: Result<Jd.JdData>, ghost newId: string)
    requires positionDb.Valid() && jdDb.Valid() && positionDb != jdDb
    requires p.id.Str? && p.id.s in positionDb.docs
    modifies positionDb, jdDb
    ensures positionDb.Valid() && jdDb.Valid()
    ensures NoJd(p) ==>
              && newId !in old(jdDb.docs)
              && jdDb.docs == old(jdDb.docs)[newId := map["content" := Str("")]]
              && positionDb.docs == AfterUpdate(old(positionDb.docs), p.id, map["jd" := Str(newId)])
              && r == Ok(Jd.JdData(Str(newId), Str("")))
    ensures !NoJd(p) ==>
              && positionDb.docs == old(positionDb.docs) && jdDb.docs == old(jdDb.docs)
              && r == match Jd.FindById(old(jdDb.docs), p.jd)
                      case None => Err(JdNotFound)
                      case Some(j) => Ok(j)
  {
    newId := "";
    if NoJd(p) {
      r, newId := AttachNewJd(p, positionDb, jdDb);
      return;
    }
    match Jd.FindById(jdDb.docs, p.jd) {
      case None => r := Err(JdNotFound);
      case Some(j) => r := Ok(j);
    }
  }

  /** The first branch of `get_current_jd`: a new empty JD, whose id is
      written to the position. */
  method AttachNewJd(p: PositionData, positionDb: Collection, jdDb: Collection) returns (r: Result<Jd.JdData>, ghost newId: string)
    requires positionDb.Valid() && jdDb.Valid() && positionDb != jdDb
    requires p.id.Str? && p.id.s in positionDb.docs
    modifies positionDb, jdDb
    ensures positionDb.Valid() && jdDb.Valid()
    ensures newId !in old(jdDb.docs)
    ensures jdDb.docs == old(jdDb.docs)[newId := map["content" := Str("")]]
    ensures positionDb.docs == AfterUpdate(old(positionDb.docs), p.id, map["jd" := Str(newId)])
    ensures r == Ok(Jd.JdData(Str(newId), Str("")))
  {
    var position := new PositionSchema(p);
    var jd := new Jd.JDSchema(Null, Str(""), Dict(map[]));
    jd.CreateJd(jdDb);
    newId := jd.id.s;
    var w := position.UpdateJd(positionDb, jd.id);
    assert w.Ok?;
    return Ok(jd.Data()), newId;
  }

  /** `_upload_jd_content` up to the analysis call: update the content of the
      JD the position refers to, or create a JD holding it when there is none;
      then write the JD id to the position only if the position had no JD. A
      stale reference is not replaced, even by a JD created just now. */
  method UploadJdContent(p: PositionData, positionDb: Collection, jdDb: Collection, content: Value)
    returns (j: Jd.JdData)
    requires positionDb.Valid() && jdDb.Valid() && positionDb != jdDb
    requires p.id.Str? && p.id.s in positionDb.docs
    modifies positionDb, jdDb
    ensures positionDb.Valid() && jdDb.Valid()
    ensures j.content == content
    ensures Jd.FindById(old(jdDb.docs), p.jd).Some? ==>
              j.id == p.jd && jdDb.docs == AfterUpdate(old(jdDb.docs), p.jd, map["content" := content])
    ensures Jd.FindById(old(jdDb.docs), p.jd).None? ==>
              j.id.Str? && j.id.s !in old(jdDb.docs) && jdDb.docs == old(jdDb.docs)[j.id.s := map["content" := content]]
    ensures NoJd(p) ==> positionDb.docs == AfterUpdate(old(positionDb.docs), p.id, map["jd" := j.id])
    ensures !NoJd(p) ==> positionDb.docs == old(positionDb.docs)
  {
    j := SaveJdContent(jdDb, p.jd, content);
    if NoJd(p) {
      var position := new PositionSchema(p);
      var w := position.UpdateJd(positionDb, j.id);
    }
  }

  /** The first half of `_upload_jd_content`: `find_by_id`, then
      `update_content` on the JD found or `create_jd` on a new one. */
  method SaveJdContent(jdDb: Collection, jdRef: Value, content: Value) returns (j: Jd.JdData)
    requires jdDb.Valid()
    modifies jdDb
    ensures jdDb.Valid()
    ensures j.content == content
    ensures Jd.FindById(old(jdDb.docs), jdRef).Some? ==>
              j.id == jdRef && jdDb.docs == AfterUpdate(old(jdDb.docs), jdRef, map["content" := content])
    ensures Jd.FindById(old(jdDb.docs), jdRef).None? ==>
              j.id.Str? && j.id.s !in old(jdDb.docs) && jdDb.docs == old(jdDb.docs)[j.id.s := map["content" := content]]
  {
    var jd: Jd.JDSchema;
    match Jd.FindById(jdDb.docs, jdRef) {
      case None =>
        jd := new Jd.JDSchema(Null, content, Dict(map[]));
        jd.CreateJd(jdDb);
      case Some(found) =>
        jd := new Jd.JDSchema(found.id, found.content, Dict(map[]));
        var u := jd.UpdateContent(jdDb, content);
    }
    j := jd.Data();
  }

  /** `update_current_jd`: the checks, then 400 for empty content before any
      JD is read or written, then the upload. The route returns None, so
      success carries no value. */
  method UpdateCurrentJd(user: Caller, projects: Projects, positionDb: Collection, jdDb: Collection,
                         projectId: string, positionId: string, content: string) returns (r: Result<()>)
    requires positionDb.Valid() && jdDb.Valid() && positionDb != jdDb
    modifies positionDb, jdDb
    ensures positionDb.Valid() && jdDb.Valid()
    ensures var v := ValidatePermissions(user, projects, old(positionDb.docs), projectId, positionId);
      && (v.Err? ==> r == Err(v.error))
      && (v.Ok? && content == "" ==> r == Err(EmptyContent))
      && (v.Ok? && content != "" ==> r == Ok(()))
      && (v.Err? || content == "" ==> positionDb.docs == old(positionDb.docs) && jdDb.docs == old(jdDb.docs))
      && (v.Ok? && content != "" && Jd.FindById(old(jdDb.docs), v.value.jd).Some? ==>
            jdDb.docs == AfterUpdate(old(jdDb.docs), v.value.jd, map["content" := Str(content)]))
      && (v.Ok? && content != "" && !NoJd(v.value) ==> positionDb.docs == old(positionDb.docs))
  {
    var v := ValidatePermissions(user, projects, positionDb.docs, projectId, positionId);
    if v.Err? {
      return Err(v.error);
    }
    if content == "" {
      return Err(EmptyContent);
    }
    var _ := UploadJdContent(v.value, positionDb, jdDb, Str(content));
    r := Ok(());
  }
}
