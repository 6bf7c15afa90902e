/**
 * Resources addressed by id alone: get, partial update and delete of
 * `<base>/resource/<id>`, which report a missing resource when the server's
 * detail says "not found" in any letter case, and the cross-dataset resource
 * search, which never does.
 */
module Resource {
  import opened Wrappers
  import opened Text
  import opened Http

  /** The three operations on a single resource and the verb each message uses. */
  datatype ResourceOp = GetOp | PatchOp | DeleteOp

  function Verb(op: ResourceOp): Http.Verb
  {
    match op
    case GetOp => Get
    case PatchOp => Patch
    case DeleteOp => Delete
  }

  function Doing(op: ResourceOp): string
  {
    match op
    case GetOp => "getting"
    case PatchOp => "updating"
    case DeleteOp => "deleting"
  }

  function ResourceUrl(base: string, id: string): string
  {
    base + "/resource/" + id
  }

  function NotFoundMessage(id: string): string
  {
    "Resource '" + id + "' not found"
  }

  function FailurePrefix(op: ResourceOp): string
  {
    "Error " + Doing(op) + " resource: "
  }

  const SearchFailurePrefix: string := "Error searching resources: "

  /**
   * The detail these handlers read: a string `detail` of a JSON object, else
   * the reply's raw text. A `detail` that is present but not a string has no
   * `lower()`, so reading it ends in an `AttributeError`.
   */
  function ResourceDetail(r: Reply): (d: Result<string, Error>)
    ensures HasDetail(r.body) ==> d == Success(r.body.fields["detail"].s)
    ensures d.Failure? <==> r.body.JsonObject? && "detail" in r.body.fields && !r.body.fields["detail"].JStr?
    ensures d.Failure? ==> d.error == AttributeError
    ensures d.Success? && !HasDetail(r.body) ==> d.value == r.text
  {
    if r.body.JsonObject? && "detail" in r.body.fields then
      if r.body.fields["detail"].JStr? then Success(r.body.fields["detail"].s) else Failure(AttributeError)
    else Success(r.text)
  }

  /** `"not found" in detail.lower()`. */
  predicate SaysNotFound(detail: string)
  {
    Contains(Lower(detail), "not found")
  }

  /** The `ValueError` a failed get, update or delete raises, given the detail. */
  function FailureMessage(op: ResourceOp, id: string, detail: string): (m: string)
    ensures SaysNotFound(detail) ==> m == NotFoundMessage(id)
    ensures !SaysNotFound(detail) ==> m == FailurePrefix(op) + detail
  {
    if SaysNotFound(detail) then NotFoundMessage(id) else FailurePrefix(op) + detail
  }

  /**
   * The not-found message is reported exactly when the detail says
   * "not found"; it is the same for all three operations, and every other
   * message starts with the operation's own prefix.
   */
  lemma FailureMessageClasses(op: ResourceOp, id: string, detail: string)
    ensures FailureMessage(op, id, detail) == NotFoundMessage(id) <==> SaysNotFound(detail)
    ensures !SaysNotFound(detail) ==> StartsWith(FailureMessage(op, id, detail), FailurePrefix(op))
  {
    var m := FailureMessage(op, id, detail);
    if !SaysNotFound(detail) {
      StartsWithConcat(FailurePrefix(op), detail);
      assert m[0] == 'E';
      assert NotFoundMessage(id)[0] == 'R';
    }
  }

  /** Letter case does not matter: "Resource Not Found" counts. */
  lemma NotFoundIgnoresCase()
    ensures SaysNotFound("Resource Not Found")
    ensures !SaysNotFound("Resource missing")
  {
    var l := Lower("Resource Not Found");
    assert l[9..18] == "not found";
    assert OccursAt(l, "not found", 9);
    var m := Lower("Resource missing");
    forall i: nat | i <= |m|
      ensures !OccursAt(m, "not found", i)
    {
      if i + 9 <= |m| {
        assert m[i..i + 9][0] == m[i];
        assert m[i..i + 9][3] == m[i + 3];
      }
    }
  }

  /** The handler of a failed get, update or delete. */
  function OnFailure(op: ResourceOp, id: string, r: Reply): (e: Error)
  {
    match ResourceDetail(r)
    case Failure(err) => err
    case Success(detail) => ValueError(FailureMessage(op, id, detail))
  }

  /** The body of `patch_resource`: exactly the fields that were given. */
  function PatchBody(name: Option<string>, url: Option<string>, description: Option<string>, format: Option<string>)
    : (d: map<string, Json>)
    ensures "name" in d <==> name.Some?
    ensures "url" in d <==> url.Some?
    ensures "description" in d <==> description.Some?
    ensures "format" in d <==> format.Some?
    ensures name.Some? ==> d["name"] == JStr(name.value)
    ensures url.Some? ==> d["url"] == JStr(url.value)
    ensures description.Some? ==> d["description"] == JStr(description.value)
    ensures format.Some? ==> d["format"] == JStr(format.value)
    ensures d.Keys <= {"name", "url", "description", "format"}
  {
    var d0: map<string, Json> := map[];
    var d1 := if name.Some? then d0["name" := JStr(name.value)] else d0;
    var d2 := if url.Some? then d1["url" := JStr(url.value)] else d1;
    var d3 := if description.Some? then d2["description" := JStr(description.value)] else d2;
    if format.Some? then d3["format" := JStr(format.value)] else d3
  }

  /**
   * `get_resource`, `patch_resource`, `delete_resource`: one request to
   * `<base>/resource/<id>` with the `server` query; an error status ends in the
   * not-found message exactly when the detail says so.
   */
  function ResourceCall(op: ResourceOp, base: string, net: Outcome, id: string, payload: Payload, server: string)
    : (c: Call)
    ensures c.sent == Some(Request(Verb(op), ResourceUrl(base, id), map["server" := JStr(server)], payload))
    ensures net.Unreachable? ==> c.result == Failure(Raised(net.err))
    ensures c.result.Success? <==> net.Answered? && !IsHttpError(net.reply.status) && !net.reply.body.NotJson?
    ensures net.Answered? && !IsHttpError(net.reply.status) && net.reply.body.NotJson? ==>
      c.result == Failure(DecodeError(net.reply.body.why))
    ensures net.Answered? && IsHttpError(net.reply.status) ==> c.result == Failure(OnFailure(op, id, net.reply))
  {
    Call(Some(Request(Verb(op), ResourceUrl(base, id), map["server" := JStr(server)], payload)),
         Decoded(SettleWith(net, (r: Reply) => OnFailure(op, id, r))))
  }

  /**
   * A failed get, update or delete reports the missing resource exactly when
   * the server's detail says "not found"; otherwise a readable detail follows
   * the operation's prefix.
   */
  lemma ResourceCallNotFound(op: ResourceOp, base: string, net: Outcome, id: string, payload: Payload, server: string)
    ensures RaisesValueError(ResourceCall(op, base, net, id, payload, server), NotFoundMessage(id)) <==>
      net.Answered? && IsHttpError(net.reply.status)
      && ResourceDetail(net.reply).Success? && SaysNotFound(ResourceDetail(net.reply).value)
    ensures (net.Answered? && IsHttpError(net.reply.status) && ResourceDetail(net.reply).Success?
             && !SaysNotFound(ResourceDetail(net.reply).value)) ==>
      RaisesValueError(ResourceCall(op, base, net, id, payload, server), FailurePrefix(op) + ResourceDetail(net.reply).value)
  {
    if net.Answered? && IsHttpError(net.reply.status) && ResourceDetail(net.reply).Success? {
      FailureMessageClasses(op, id, ResourceDetail(net.reply).value);
    }
  }

  function GetResource(base: string, net: Outcome, id: string, server: string := "local"): (c: Call)
    ensures c == ResourceCall(GetOp, base, net, id, NoPayload, server)
    ensures c.sent.value.verb == Get && c.sent.value.payload == NoPayload
  {
    ResourceCall(GetOp, base, net, id, NoPayload, server)
  }

  function PatchResource(base: string, net: Outcome, id: string,
                         name: Option<string> := None, url: Option<string> := None,
                         description: Option<string> := None, format: Option<string> := None,
                         server: string := "local"): (c: Call)
    ensures c == ResourceCall(PatchOp, base, net, id, JsonBody(PatchBody(name, url, description, format)), server)
    ensures c.sent.value.verb == Patch
  {
    ResourceCall(PatchOp, base, net, id, JsonBody(PatchBody(name, url, description, format)), server)
  }

  function DeleteResource(base: string, net: Outcome, id: string, server: string := "local"): (c: Call)
    ensures c == ResourceCall(DeleteOp, base, net, id, NoPayload, server)
    ensures c.sent.value.verb == Delete && c.sent.value.payload == NoPayload
  {
    ResourceCall(DeleteOp, base, net, id, NoPayload, server)
  }

  /** The query of `search_resources`: server, limit and offset always, each filter iff given. */
  function SearchParams(q: Option<string>, name: Option<string>, url: Option<string>, format: Option<string>,
                        description: Option<string>, limit: int, offset: int, server: string)
    : (p: map<string, Json>)
    ensures "server" in p && p["server"] == JStr(server)
    ensures "limit" in p && p["limit"] == JInt(limit)
    ensures "offset" in p && p["offset"] == JInt(offset)
    ensures "q" in p <==> q.Some?
    ensures "name" in p <==> name.Some?
    ensures "url" in p <==> url.Some?
    ensures "format" in p <==> format.Some?
    ensures "description" in p <==> description.Some?
    ensures q.Some? ==> p["q"] == JStr(q.value)
    ensures name.Some? ==> p["name"] == JStr(name.value)
    ensures url.Some? ==> p["url"] == JStr(url.value)
    ensures format.Some? ==> p["format"] == JStr(format.value)
    ensures description.Some? ==> p["description"] == JStr(description.value)
    ensures p.Keys <= {"server", "limit", "offset", "q", "name", "url", "format", "description"}
  {
    var p0 := map["server" := JStr(server), "limit" := JInt(limit), "offset" := JInt(offset)];
    var p1 := if q.Some? then p0["q" := JStr(q.value)] else p0;
    var p2 := if name.Some? then p1["name" := JStr(name.value)] else p1;
    var p3 := if url.Some? then p2["url" := JStr(url.value)] else p2;
    var p4 := if format.Some? then p3["format" := JStr(format.value)] else p3;
    if description.Some? then p4["description" := JStr(description.value)] else p4
  }

  /**
   * The detail `search_resources` quotes: `response.json().get("detail",
   * response.text)` rendered by the f-string, so a `detail` that is present
   * is quoted whatever its type; the reply text when there is no `detail` or
   * the body is not a JSON object (the handler's `except` catches both).
   */
  function SearchDetail(r: Reply): string
  {
    if r.body.JsonObject? && "detail" in r.body.fields then PyStr(r.body.fields["detail"]) else r.text
  }

  /**
   * Search and the single-resource handlers read the same detail whenever the
   * latter can read it at all; where they cannot (a `detail` that is not a
   * string), search still quotes it.
   */
  lemma SearchDetailAgrees(r: Reply)
    ensures ResourceDetail(r).Success? ==> SearchDetail(r) == ResourceDetail(r).value
    ensures ResourceDetail(r).Failure? ==> SearchDetail(r) == PyStr(r.body.fields["detail"])
  {
  }

  /**
   * `search_resources`: one GET of `<base>/resources/search`; every error
   * status ends in the search prefix and the quoted detail, never in a
   * not-found message.
   */
  function SearchResources(base: string, net: Outcome,
                           q: Option<string> := None, name: Option<string> := None, url: Option<string> := None,
                           format: Option<string> := None, description: Option<string> := None,
                           limit: int := 100, offset: int := 0, server: string := "local"): (c: Call)
    ensures c.sent == Some(Request(Get, base + "/resources/search",
                                   SearchParams(q, name, url, format, description, limit, offset, server), NoPayload))
    ensures net.Unreachable? ==> c.result == Failure(Raised(net.err))
    ensures c.result.Success? <==> net.Answered? && !IsHttpError(net.reply.status) && !net.reply.body.NotJson?
    ensures net.Answered? && !IsHttpError(net.reply.status) && net.reply.body.NotJson? ==>
      c.result == Failure(DecodeError(net.reply.body.why))
    ensures net.Answered? && IsHttpError(net.reply.status) ==>
      RaisesValueError(c, SearchFailurePrefix + SearchDetail(net.reply))
  {
    Call(Some(Request(Get, base + "/resources/search",
                      SearchParams(q, name, url, format, description, limit, offset, server), NoPayload)),
         Decoded(Settle(net, (r: Reply) => SearchFailurePrefix + SearchDetail(r))))
  }

  /**
   * Every failed search after the request raises a `ValueError` with the
   * search prefix, whatever the detail, and never the not-found message.
   */
  lemma SearchNeverNotFound(base: string, net: Outcome, id: string)
    ensures net.Answered? && IsHttpError(net.reply.status) ==>
      RaisesWithPrefix(SearchResources(base, net), SearchFailurePrefix)
    ensures !RaisesValueError(SearchResources(base, net), NotFoundMessage(id))
  {
    var c := SearchResources(base, net);
    if net.Answered? && IsHttpError(net.reply.status) {
      StartsWithConcat(SearchFailurePrefix, SearchDetail(net.reply));
      assert c.result.error.msg[0] == 'E';
      assert NotFoundMessage(id)[0] == 'R';
    }
  }

  /** With no arguments, the search asks the "local" server for the first 100 resources. */
  lemma SearchDefaults(base: string, net: Outcome)
    ensures SearchResources(base, net).sent.value.params
      == map["server" := JStr("local"), "limit" := JInt(100), "offset" := JInt(0)]
  {
    var p := SearchResources(base, net).sent.value.params;
    assert p.Keys == {"server", "limit", "offset"};
  }
}
