/** The owner-scoped annotation table behind GET, POST, PUT /:id and DELETE /:id
    (server/routes/annotations.js). Every query is keyed on the caller's id, so a
    caller can neither see nor change another user's documents. */
module AnnotationRoutes {
  import opened Common
  import opened AnnotationSchema

  const NOT_FOUND_MSG := "Annotation not found"
  const REMOVED_MSG := "Annotation removed"

  /** A reply: a JSON body with status 200, or status 404 with a message. */
  datatype Reply<T> = Ok(value: T) | NotFound(msg: string) {
    function Status(): int {
      if Ok? then 200 else 404
    }
  }

  /** The filter `{ id, userId }` used by findOne and deleteOne. */
  predicate Matches(a: Annotation, id: string, user: UserId) {
    a.id == id && a.userId == user
  }

  /** findOne: the position of the first document matching (id, user), if any. */
  function FirstMatch(s: seq<Annotation>, id: string, user: UserId): (r: Option<nat>)
    ensures r.None? <==> forall k :: 0 <= k < |s| ==> !Matches(s[k], id, user)
    ensures r.Some? ==> r.value < |s| && Matches(s[r.value], id, user)
    ensures r.Some? ==> forall k :: 0 <= k < r.value ==> !Matches(s[k], id, user)
  {
    if s == [] then None
    else if Matches(s[0], id, user) then Some(0)
    else match FirstMatch(s[1..], id, user)
      case None => None
      case Some(i) => Some(i + 1)
  }

  /** find({ userId }): the caller's documents, in table order. */
  function OwnedBy(s: seq<Annotation>, user: UserId): (r: seq<Annotation>)
    ensures |r| <= |s|
    ensures forall a :: a in r <==> a in s && a.userId == user
  {
    if s == [] then []
    else (if s[0].userId == user then [s[0]] else []) + OwnedBy(s[1..], user)
  }

  /** How many documents match (id, user). */
  function MatchCount(s: seq<Annotation>, id: string, user: UserId): (n: nat)
    ensures n <= |s|
    ensures n == 0 <==> FirstMatch(s, id, user).None?
  {
    if s == [] then 0
    else (if Matches(s[0], id, user) then 1 else 0) + MatchCount(s[1..], id, user)
  }

  function RemoveAt(s: seq<Annotation>, i: nat): seq<Annotation>
    requires i < |s|
  {
    s[..i] + s[i + 1..]
  }

  lemma {:induction false} OwnedByConcat(s: seq<Annotation>, t: seq<Annotation>, user: UserId)
    ensures OwnedBy(s + t, user) == OwnedBy(s, user) + OwnedBy(t, user)
  {
    if s == [] {
      assert s + t == t;
    } else {
      assert (s + t)[1..] == s[1..] + t;
      OwnedByConcat(s[1..], t, user);
    }
  }

  /** Listing after a create: the caller's earlier documents, then the new one. */
  lemma CreatedIsListedLast(s: seq<Annotation>, a: Annotation)
    ensures OwnedBy(s + [a], a.userId) == OwnedBy(s, a.userId) + [a]
  {
    OwnedByConcat(s, [a], a.userId);
    assert [a][1..] == [];
  }

  /** Appending another user's document leaves the caller's listing as it was. */
  lemma AppendIsolated(s: seq<Annotation>, a: Annotation, user: UserId)
    requires a.userId != user
    ensures OwnedBy(s + [a], user) == OwnedBy(s, user)
  {
    OwnedByConcat(s, [a], user);
    assert [a][1..] == [];
  }

  /** Replacing another user's document by one with the same owner leaves the
      caller's listing as it was. */
  lemma {:induction false} ReplaceIsolated(s: seq<Annotation>, i: nat, a: Annotation, user: UserId)
    requires i < |s| && s[i].userId != user && a.userId == s[i].userId
    ensures OwnedBy(s[i := a], user) == OwnedBy(s, user)
  {
    if i > 0 {
      assert s[i := a][1..] == s[1..][i - 1 := a];
      ReplaceIsolated(s[1..], i - 1, a, user);
    }
  }

  /** Removing another user's document leaves the caller's listing as it was. */
  lemma RemoveIsolated(s: seq<Annotation>, i: nat, user: UserId)
    requires i < |s| && s[i].userId != user
    ensures OwnedBy(RemoveAt(s, i), user) == OwnedBy(s, user)
  {
    assert s == s[..i] + [s[i]] + s[i + 1..];
    OwnedByConcat(s[..i] + [s[i]], s[i + 1..], user);
    OwnedByConcat(s[..i], [s[i]], user);
    OwnedByConcat(s[..i], s[i + 1..], user);
    assert [s[i]][1..] == [];
  }

  /** deleteOne removes exactly one of the matching documents. */
  lemma {:induction false} RemoveMatchCount(s: seq<Annotation>, i: nat, id: string, user: UserId)
    requires i < |s| && Matches(s[i], id, user)
    ensures MatchCount(RemoveAt(s, i), id, user) == MatchCount(s, id, user) - 1
  {
    if i > 0 {
      assert RemoveAt(s, i)[1..] == RemoveAt(s[1..], i - 1);
      assert RemoveAt(s, i)[0] == s[0];
      RemoveMatchCount(s[1..], i - 1, id, user);
    } else {
      assert RemoveAt(s, i) == s[1..];
    }
  }

  class AnnotationTable {
    /** Every stored document of every user, in insertion order. */
    var records: seq<Annotation>

    constructor ()
      ensures records == []
    {
      records := [];
    }

    /** GET /: the caller's documents and nobody else's. */
    method List(user: UserId) returns (found: seq<Annotation>)
      ensures forall a :: a in found <==> a in records && a.userId == user
      ensures found == OwnedBy(records, user)
    {
      found := OwnedBy(records, user);
    }

    /** POST /: stores one new document owned by the caller and returns it. */
    method Create(user: UserId, body: Payload) returns (created: Annotation)
      modifies this
      ensures created == NewDocument(body, user)
      ensures records == old(records) + [created]
      ensures OwnedBy(records, user) == OwnedBy(old(records), user) + [created]
      ensures forall u :: u != user ==> OwnedBy(records, u) == OwnedBy(old(records), u)
    {
      created := NewDocument(body, user);
      CreatedIsListedLast(records, created);
      forall u | u != user
        ensures OwnedBy(records + [created], u) == OwnedBy(records, u)
      {
        AppendIsolated(records, created, u);
      }
      records := records + [created];
    }

    /** PUT /:id: a 404 when the caller owns no document with that id; otherwise
        the first such document gets the body's geometry and fill and is returned. */
    method Update(user: UserId, id: string, body: Payload) returns (reply: Reply<Annotation>)
      modifies this
      ensures old(FirstMatch(records, id, user)).None? ==>
                reply == NotFound(NOT_FOUND_MSG) && records == old(records)
      ensures old(FirstMatch(records, id, user)).Some? ==>
                var i := old(FirstMatch(records, id, user)).value;
                records == old(records)[i := Overwrite(old(records)[i], body)] &&
                reply == Ok(records[i])
      ensures reply.Ok? ==> reply.value.id == id && reply.value.userId == user
      ensures reply.Status() == 404 <==> old(FirstMatch(records, id, user)).None?
      ensures forall u :: u != user ==> OwnedBy(records, u) == OwnedBy(old(records), u)
    {
      var found := FirstMatch(records, id, user);
      if found.None? {
        reply := NotFound(NOT_FOUND_MSG);
        return;
      }
      var i := found.value;
      var doc := records[i];
      doc := doc.(x := body.x, y := body.y, width := body.width, height := body.height);
      doc := doc.(fill := body.fill);
      forall u | u != user
        ensures OwnedBy(records[i := doc], u) == OwnedBy(records, u)
      {
        ReplaceIsolated(records, i, doc, u);
      }
      records := records[i := doc];
      reply := Ok(doc);
    }

    /** DELETE /:id: a 404 when the caller owns no document with that id;
        otherwise the first such document is removed. */
    method Delete(user: UserId, id: string) returns (reply: Reply<string>)
      modifies this
      ensures old(FirstMatch(records, id, user)).None? ==>
                reply == NotFound(NOT_FOUND_MSG) && records == old(records)
      ensures old(FirstMatch(records, id, user)).Some? ==>
                records == RemoveAt(old(records), old(FirstMatch(records, id, user)).value) &&
                reply == Ok(REMOVED_MSG)
      ensures (records, reply) == DeleteFrom(old(records), id, user)
      ensures reply.Status() == 404 <==> old(FirstMatch(records, id, user)).None?
      ensures MatchCount(records, id, user) ==
                if old(MatchCount(records, id, user)) == 0 then 0 else old(MatchCount(records, id, user)) - 1
      ensures forall u :: u != user ==> OwnedBy(records, u) == OwnedBy(old(records), u)
    {
      var found := FirstMatch(records, id, user);
      if found.None? {
        reply := NotFound(NOT_FOUND_MSG);
        return;
      }
      var i := found.value;
      RemoveMatchCount(records, i, id, user);
      forall u | u != user
        ensures OwnedBy(RemoveAt(records, i), u) == OwnedBy(records, u)
      {
        RemoveIsolated(records, i, u);
      }
      records := RemoveAt(records, i);
      reply := Ok(REMOVED_MSG);
    }
  }

  /** The pure counterpart of Delete, for stating facts about repeated deletes. */
  function DeleteFrom(s: seq<Annotation>, id: string, user: UserId): (r: (seq<Annotation>, Reply<string>))
    ensures FirstMatch(s, id, user).None? ==> r == (s, NotFound(NOT_FOUND_MSG))
    ensures FirstMatch(s, id, user).Some? ==> r.1 == Ok(REMOVED_MSG) && |r.0| == |s| - 1
    ensures FirstMatch(s, id, user).Some? ==> r.0 == RemoveAt(s, FirstMatch(s, id, user).value)
    ensures FirstMatch(s, id, user).Some? ==> MatchCount(r.0, id, user) == MatchCount(s, id, user) - 1
    ensures FirstMatch(s, id, user).Some? ==> forall u :: u != user ==> OwnedBy(r.0, u) == OwnedBy(s, u)
  {
    match FirstMatch(s, id, user)
    case None => (s, NotFound(NOT_FOUND_MSG))
    case Some(i) =>
      RemoveMatchCount(s, i, id, user);
      assert forall u :: u != user ==> OwnedBy(RemoveAt(s, i), u) == OwnedBy(s, u) by {
        forall u | u != user
          ensures OwnedBy(RemoveAt(s, i), u) == OwnedBy(s, u)
        {
          RemoveIsolated(s, i, u);
        }
      }
      (RemoveAt(s, i), Ok(REMOVED_MSG))
  }

  /** With one matching document, the first delete removes it and a second
      delete is a 404 that leaves the table as the first one left it. */
  lemma RepeatedDeleteIsNotFound(s: seq<Annotation>, id: string, user: UserId)
    requires MatchCount(s, id, user) == 1
    ensures DeleteFrom(s, id, user).1 == Ok(REMOVED_MSG)
    ensures var t := DeleteFrom(s, id, user).0;
            DeleteFrom(t, id, user) == (t, NotFound(NOT_FOUND_MSG))
  {
    var i := FirstMatch(s, id, user).value;
    RemoveMatchCount(s, i, id, user);
  }
}
