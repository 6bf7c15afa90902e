/**
 * `get_user_info`: one GET of `<base>/user/info`, whose failures are sorted
 * by status code, each class with its own message and, for 401 and 403, a
 * default text when the server gives no detail.
 */
module UserInfo {
  import opened Wrappers
  import opened Text
  import opened Http

  const NotAuthenticated: string := "Not authenticated: "
  const Forbidden: string := "Forbidden: "
  const ServiceUnavailable: string := "Authentication service unavailable: "
  const FetchFailed: string := "Failed to fetch user info: "
  const FetchErrorPrefix: string := "An error occurred while fetching user info: "

  const MissingToken: string := "Invalid or missing token"
  const NoPermission: string := "Insufficient permissions"

  function UserInfoRequest(base: string): Request
  {
    Request(Get, base + "/user/info", map[], NoPayload)
  }

  /**
   * The handler's `detail`: the member of a JSON object reply, "" when the
   * reply is not JSON, not an object, or has no such member. The member is
   * kept as decoded, so it can be any JSON value.
   */
  function UserDetail(b: Body): (d: Json)
    ensures b.JsonObject? && "detail" in b.fields ==> d == b.fields["detail"]
    ensures !(b.JsonObject? && "detail" in b.fields) ==> d == JStr("")
  {
    if b.JsonObject? && "detail" in b.fields then b.fields["detail"] else JStr("")
  }

  /** The `ValueError` an error status ends in, by status code. */
  function StatusMessage(r: Reply): (m: string)
  {
    var d := UserDetail(r.body);
    if r.status == 401 then NotAuthenticated + PyStr(Or(d, JStr(MissingToken)))
    else if r.status == 403 then Forbidden + PyStr(Or(d, JStr(NoPermission)))
    else if r.status == 502 then ServiceUnavailable + PyStr(d)
    else FetchFailed + HttpErrorText(r)
  }

  /**
   * `get_user_info`. A transport failure, and a success reply whose body is
   * not JSON (the decoder's error is itself a transport exception of the
   * `requests` library), become "An error occurred while fetching user
   * info: " and the exception's text; an error status becomes its class's
   * message.
   */
  function GetUserInfo(base: string, net: Outcome): (c: Call)
    ensures c.sent == Some(UserInfoRequest(base))
    ensures net.Unreachable? ==> c.result == Failure(ValueError(FetchErrorPrefix + net.err.text))
    ensures c.result.Success? <==> net.Answered? && !IsHttpError(net.reply.status) && !net.reply.body.NotJson?
    ensures c.result.Success? ==> c.result.value == net.reply
    ensures net.Answered? && !IsHttpError(net.reply.status) && net.reply.body.NotJson? ==>
      c.result == Failure(ValueError(FetchErrorPrefix + net.reply.body.why))
    ensures net.Answered? && IsHttpError(net.reply.status) ==> RaisesValueError(c, StatusMessage(net.reply))
  {
    var result :=
      match net
      case Unreachable(e) => Failure(ValueError(FetchErrorPrefix + e.text))
      case Answered(r) =>
        if IsHttpError(r.status) then Failure(ValueError(StatusMessage(r)))
        else if r.body.NotJson? then Failure(ValueError(FetchErrorPrefix + r.body.why))
        else Success(r);
    Call(Some(UserInfoRequest(base)), result)
  }

  /**
   * Without a usable detail (no JSON object, or no `detail` in it) 401 and
   * 403 fall back on their default texts and 502 on nothing; a non-empty
   * string detail is quoted as is by all three.
   */
  lemma StatusMessageDetail(r: Reply)
    ensures !(r.body.JsonObject? && "detail" in r.body.fields) ==>
      (r.status == 401 ==> StatusMessage(r) == NotAuthenticated + MissingToken)
      && (r.status == 403 ==> StatusMessage(r) == Forbidden + NoPermission)
      && (r.status == 502 ==> StatusMessage(r) == ServiceUnavailable)
    ensures HasDetail(r.body) && r.body.fields["detail"].s != "" ==>
      var s := r.body.fields["detail"].s;
      (r.status == 401 ==> StatusMessage(r) == NotAuthenticated + s)
      && (r.status == 403 ==> StatusMessage(r) == Forbidden + s)
      && (r.status == 502 ==> StatusMessage(r) == ServiceUnavailable + s)
    ensures r.status !in {401, 403, 502} ==> StatusMessage(r) == FetchFailed + HttpErrorText(r)
  {
    if !(r.body.JsonObject? && "detail" in r.body.fields) && r.status == 502 {
      assert ServiceUnavailable + "" == ServiceUnavailable;
    }
  }

  /**
   * The way a failure's message starts tells its cause, in both directions:
   * 401, 403, 502, any other error status, or a transport or decoding
   * failure.
   */
  lemma UserInfoFailureClasses(base: string, net: Outcome)
    ensures var c := GetUserInfo(base, net);
      && (RaisesWithPrefix(c, NotAuthenticated) <==> net.Answered? && net.reply.status == 401)
      && (RaisesWithPrefix(c, Forbidden) <==> net.Answered? && net.reply.status == 403)
      && (RaisesWithPrefix(c, ServiceUnavailable) <==> net.Answered? && net.reply.status == 502)
      && (RaisesWithPrefix(c, FetchFailed) <==>
          net.Answered? && IsHttpError(net.reply.status) && net.reply.status !in {401, 403, 502})
      && (RaisesWithPrefix(c, FetchErrorPrefix) <==>
          net.Unreachable? || (!IsHttpError(net.reply.status) && net.reply.body.NotJson?))
  {
    var c := GetUserInfo(base, net);
    if c.result.Failure? {
      var m := c.result.error.msg;
      var p := if net.Unreachable? || !IsHttpError(net.reply.status) then FetchErrorPrefix
               else if net.reply.status == 401 then NotAuthenticated
               else if net.reply.status == 403 then Forbidden
               else if net.reply.status == 502 then ServiceUnavailable
               else FetchFailed;
      assert m == p + m[|p|..];
      StartsWithConcat(p, m[|p|..]);
      OnlyPrefix(m, p);
    }
  }

  /**
   * A message built on one of the five prefixes starts with that one and with
   * none of the others.
   */
  lemma OnlyPrefix(m: string, p: string)
    requires p in [NotAuthenticated, Forbidden, ServiceUnavailable, FetchFailed, FetchErrorPrefix]
    requires StartsWith(m, p)
    ensures StartsWith(m, NotAuthenticated) <==> p == NotAuthenticated
    ensures StartsWith(m, Forbidden) <==> p == Forbidden
    ensures StartsWith(m, ServiceUnavailable) <==> p == ServiceUnavailable
    ensures StartsWith(m, FetchFailed) <==> p == FetchFailed
    ensures StartsWith(m, FetchErrorPrefix) <==> p == FetchErrorPrefix
  {
    assert NotAuthenticated[0] == 'N' && Forbidden[0] == 'F' && ServiceUnavailable[0] == 'A';
    assert FetchFailed[1] == 'a' && FetchErrorPrefix[0] == 'A' && FetchErrorPrefix[1] == 'n';
    var all := [NotAuthenticated, Forbidden, ServiceUnavailable, FetchFailed, FetchErrorPrefix];
    forall q | q in all && q != p
      ensures !StartsWith(m, q)
    {
      var k := if (p[0] == 'F' && q[0] == 'F') || (p[0] == 'A' && q[0] == 'A') then 1 else 0;
      ExclusivePrefixes(m, p, q, k);
    }
  }
}
