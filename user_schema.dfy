/** apis/v1/schemas/user_schema.py: a user and its record. */
module User {
  import opened Wrappers
  import opened Values
  import opened Store

  /** `PLACEHOLDER_IMAGE`, the default avatar. */
  const PlaceholderImage := "https://i.pravatar.cc/150"

  datatype UserData = UserData(id: Value, name: Value, email: Value, avatar: Value, createdAt: Value)

  /** `to_dict(include_id, minimal)`: name, email and avatar always,
      created_at unless minimal, id iff asked for. */
  function ToDict(u: UserData, includeId: bool, minimal: bool): (r: Record)
    ensures "name" in r && "email" in r && "avatar" in r
    ensures r["name"] == u.name && r["email"] == u.email && r["avatar"] == u.avatar
    ensures ("created_at" in r) <==> !minimal
    ensures !minimal ==> r["created_at"] == u.createdAt
    ensures ("id" in r) <==> includeId
    ensures includeId ==> r["id"] == u.id
    ensures r.Keys <= {"name", "email", "avatar", "created_at", "id"}
  {
    var base := map["name" := u.name, "email" := u.email, "avatar" := u.avatar];
    var full := if minimal then base else base["created_at" := u.createdAt];
    if includeId then full["id" := u.id] else full
  }

  /** `from_dict`: an absent field reads as None (no placeholder avatar). */
  function FromDict(d: Record): UserData {
    UserData(Get(d, "id"), Get(d, "name"), Get(d, "email"), Get(d, "avatar"), Get(d, "created_at"))
  }

  /** `from_dict(to_dict(u))` gives `u` back. */
  lemma RoundTrip(u: UserData)
    ensures FromDict(ToDict(u, true, false)) == u
  {
  }

  /** A minimal dict has lost `created_at`: reading it back gives None there. */
  lemma MinimalLosesCreatedAt(u: UserData)
    ensures FromDict(ToDict(u, true, true)) == u.(createdAt := Null)
  {
  }

  /** `query_equal(field, value)`: the documents whose field equals the value,
      in `order`, the order in which the database returns documents. */
  function QueryEqual(docs: Docs, order: seq<string>, field: string, value: Value): (r: seq<Record>)
    ensures |r| <= |order|
    ensures forall k :: 0 <= k < |r| ==> Get(r[k], field) == value || field == "id"
  {
    if order == [] then []
    else
      var rest := QueryEqual(docs, order[1..], field, value);
      if order[0] in docs && Get(docs[order[0]], field) == value
      then [docs[order[0]]["id" := Str(order[0])]] + rest
      else rest
  }

  /** The first id of `order` whose document has this email, if any. */
  ghost predicate FirstWithEmail(docs: Docs, order: seq<string>, email: string, k: nat)
  {
    && k < |order| && order[k] in docs && Get(docs[order[k]], "email") == Str(email)
    && forall j :: 0 <= j < k ==> !(order[j] in docs && Get(docs[order[j]], "email") == Str(email))
  }

  /** `find_by_email`: the first query result, or None when there is none. */
  function FindByEmail(docs: Docs, order: seq<string>, email: string): (r: Option<UserData>)
    ensures r.None? <==> forall j :: 0 <= j < |order| ==> !(order[j] in docs && Get(docs[order[j]], "email") == Str(email))
    ensures r.Some? ==> exists k: nat :: FirstWithEmail(docs, order, email, k) && r.value == FromDict(docs[order[k]]["id" := Str(order[k])])
  {
    QueryFirst(docs, order, email);
    var results := QueryEqual(docs, order, "email", Str(email));
    if |results| == 0 then None else Some(FromDict(results[0]))
  }

  /** The head of the query is the document of the first matching id. */
  lemma {:induction false} QueryFirst(docs: Docs, order: seq<string>, email: string)
    ensures var q := QueryEqual(docs, order, "email", Str(email));
      && (q == [] <==> forall j :: 0 <= j < |order| ==> !(order[j] in docs && Get(docs[order[j]], "email") == Str(email)))
      && (q != [] ==> exists k: nat :: FirstWithEmail(docs, order, email, k) && q[0] == docs[order[k]]["id" := Str(order[k])])
  {
    if order != [] {
      QueryFirst(docs, order[1..], email);
      var q := QueryEqual(docs, order, "email", Str(email));
      if order[0] in docs && Get(docs[order[0]], "email") == Str(email) {
        assert FirstWithEmail(docs, order, email, 0);
      } else {
        var rest := QueryEqual(docs, order[1..], "email", Str(email));
        assert q == rest;
        forall j | 0 <= j < |order[1..]| ensures order[1..][j] == order[j + 1] { }
        if rest != [] {
          var k: nat :| FirstWithEmail(docs, order[1..], email, k) && rest[0] == docs[order[1..][k]]["id" := Str(order[1..][k])];
          assert order[k + 1] == order[1..][k];
          assert FirstWithEmail(docs, order, email, k + 1) by {
            forall j | 0 <= j < k + 1
              ensures !(order[j] in docs && Get(docs[order[j]], "email") == Str(email))
            {
              if j > 0 { assert order[j] == order[1..][j - 1]; }
            }
          }
        } else {
          forall j | 0 <= j < |order|
            ensures !(order[j] in docs && Get(docs[order[j]], "email") == Str(email))
          {
            if j > 0 { assert order[j] == order[1..][j - 1]; }
          }
        }
      }
    }
  }

  /** `find_all_by_ids`: the users of the ids that have a document, dropping
      empty (falsy) records. */
  function FindAllByIds(docs: Docs, ids: seq<Value>): (r: seq<UserData>)
    ensures |r| <= |ids|
    ensures forall k :: 0 <= k < |r| ==> r[k].id.Str? && r[k].id.s in docs
    ensures forall j :: 0 <= j < |ids| && ids[j].Str? && ids[j].s in docs ==>
              FromDict(docs[ids[j].s]["id" := ids[j]]) in r
  {
    var found := LookupAll(docs, ids);
    KeepTruthyRecords(found);
    var kept := KeepTruthy(found);
    forall j | 0 <= j < |ids| && ids[j].Str? && ids[j].s in docs
      ensures FromDict(docs[ids[j].s]["id" := ids[j]]) in MapFromDict(kept)
    {
      var d := Lookup(docs, ids[j]).value;
      assert d in found;
      assert "id" in d;
      assert d in kept;
    }
    forall k | 0 <= k < |kept| ensures MapFromDict(kept)[k].id.Str? && MapFromDict(kept)[k].id.s in docs {
      assert kept[k] in found;
      var i :| 0 <= i < |found| && found[i] == kept[k];
      var j :| 0 <= j < |ids| && Lookup(docs, ids[j]) == Some(found[i]);
    }
    MapFromDict(kept)
  }

  /** `[r for r in records if r]`. */
  function KeepTruthy(records: seq<Record>): (r: seq<Record>)
    ensures |r| <= |records|
  {
    if records == [] then []
    else if records[0] != map[] then [records[0]] + KeepTruthy(records[1..])
    else KeepTruthy(records[1..])
  }

  lemma {:induction false} KeepTruthyRecords(records: seq<Record>)
    ensures forall d :: d in KeepTruthy(records) <==> d in records && d != map[]
  {
    if records != [] {
      KeepTruthyRecords(records[1..]);
      assert forall d :: d in records <==> d == records[0] || d in records[1..];
    }
  }

  function MapFromDict(records: seq<Record>): (r: seq<UserData>)
    ensures |r| == |records|
    ensures forall k :: 0 <= k < |r| ==> r[k] == FromDict(records[k])
  {
    if records == [] then [] else [FromDict(records[0])] + MapFromDict(records[1..])
  }

  lemma MapFromDictMembers(records: seq<Record>)
    ensures forall d :: d in records ==> FromDict(d) in MapFromDict(records)
  {
    forall d | d in records ensures FromDict(d) in MapFromDict(records) {
      var i :| 0 <= i < |records| && records[i] == d;
      assert MapFromDict(records)[i] == FromDict(d);
    }
  }

  class UserSchema {
    var id: Value
    var name: Value
    var email: Value
    var avatar: Value
    var createdAt: Value

    function Data(): UserData
      reads this
    {
      UserData(id, name, email, avatar, createdAt)
    }

    /** The `user_id` property: reads `id`. */
    function UserId(): Value
      reads this
    {
      id
    }

    /** The `user_id` setter: writes `id`. */
    method SetUserId(value: Value)
      modifies this`id
      ensures id == value && UserId() == value
      ensures name == old(name) && email == old(email) && avatar == old(avatar) && createdAt == old(createdAt)
    {
      id := value;
    }

    /** `UserSchema(id, name, email, avatar, created_at)`: the id goes through
        the `user_id` setter, so `user_id` and `id` agree from the start. */
    constructor (userId: Value, name: Value, email: Value, avatar: Value, createdAt: Value)
      ensures Data() == UserData(userId, name, email, avatar, createdAt)
      ensures UserId() == id
    {
      this.name := name;
      this.email := email;
      this.avatar := avatar;
      this.createdAt := createdAt;
      new;
      SetUserId(userId);
    }

    /** `create_user`: stores every field but the id, and takes the id the
        store returns. */
    method CreateUser(db: Collection)
      requires db.Valid()
      modifies this`id, db
      ensures db.Valid()
      ensures id.Str? && id.s !in old(db.docs)
      ensures db.docs == old(db.docs)[id.s := ToDict(old(Data()), false, false)]
      ensures Data() == old(Data()).(id := id)
    {
      var newId := db.Create(ToDict(Data(), false, false));
      id := Str(newId);
    }
  }
}
