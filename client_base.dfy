/**
 * The session bootstrap of the API client: base-URL normalisation, the choice
 * between a given token, a username/password exchange and an anonymous
 * reachability probe, and the wording of every failure on the way.
 */
module ClientBase {
  import opened Wrappers
  import opened Text
  import opened Http

  predicate IsAsciiLetter(c: char)
  {
    ('a' <= c <= 'z') || ('A' <= c <= 'Z')
  }

  /** The characters `urlparse` allows in a scheme (section 3.1 of RFC 3986). */
  predicate IsSchemeChar(c: char)
  {
    IsAsciiLetter(c) || IsDigit(c) || c == '+' || c == '-' || c == '.'
  }

  /** The index of the first `c` in `s`, or `|s|` when there is none (Python `s.find(c)`). */
  function FirstIndex(s: string, c: char): (i: nat)
    ensures i <= |s| && c !in s[..i]
    ensures i < |s| ==> s[i] == c
    decreases |s|
  {
    if |s| == 0 then 0
    else if s[0] == c then 0
    else
      var j := FirstIndex(s[1..], c);
      assert s[..j + 1] == [s[0]] + s[1..][..j];
      j + 1
  }

  /** Any position holding the first `c` is the one `FirstIndex` finds. */
  lemma FirstIndexAt(s: string, c: char, i: nat)
    requires i < |s| && s[i] == c && c !in s[..i]
    ensures FirstIndex(s, c) == i
  {
  }

  /**
   * `urlparse(url).scheme` is non-empty: the first ':' comes after at least one
   * character, the first character is an ASCII letter and everything before the
   * ':' is a scheme character. So "host:8080" has the scheme "host", while
   * "127.0.0.1:8080" has none.
   */
  predicate HasScheme(url: string)
  {
    var i := FirstIndex(url, ':');
    0 < i < |url| && IsAsciiLetter(url[0]) && forall k :: 0 <= k < i ==> IsSchemeChar(url[k])
  }

  /** `_ensure_protocol`: prepend "http://" when the URL has no scheme. */
  function EnsureProtocol(url: string): (r: string)
    ensures HasScheme(r)
    ensures HasScheme(url) ==> r == url
    ensures !HasScheme(url) ==> r == "http://" + url
  {
    if HasScheme(url) then url
    else
      var r := "http://" + url;
      FirstIndexAt(r, ':', 4);
      r
  }

  /** Stripping trailing slashes never removes the scheme. */
  lemma RStripKeepsScheme(s: string)
    requires HasScheme(s)
    ensures HasScheme(RStrip(s, '/'))
  {
    var i := FirstIndex(s, ':');
    var r := RStrip(s, '/');
    RStripKeepsPrefix(s, i, '/');
    assert r[..i] == s[..i] && r[i] == ':' && r[0] == s[0];
    FirstIndexAt(r, ':', i);
  }

  /**
   * The stored `base_url`: scheme ensured, then every trailing '/' stripped.
   * The result always has a scheme and never ends in '/'.
   */
  function NormalizeBaseUrl(url: string): (r: string)
    ensures HasScheme(r)
    ensures |r| > 0 && r[|r| - 1] != '/'
  {
    RStripKeepsScheme(EnsureProtocol(url));
    RStrip(EnsureProtocol(url), '/')
  }

  /** Normalising a normalised base URL changes nothing. */
  lemma NormalizeIdempotent(url: string)
    ensures NormalizeBaseUrl(NormalizeBaseUrl(url)) == NormalizeBaseUrl(url)
  {
    var r := NormalizeBaseUrl(url);
    assert EnsureProtocol(r) == r;
  }

  /** A URL without a scheme gets "http://" in front and loses its trailing slashes. */
  lemma NormalizeSchemeless(url: string)
    requires !HasScheme(url)
    ensures NormalizeBaseUrl(url) == RStrip("http://" + url, '/')
    ensures StartsWith(NormalizeBaseUrl(url), "http:")
  {
    RStripKeepsPrefix("http://" + url, 4, '/');
    assert NormalizeBaseUrl(url)[..5] == ("http://" + url)[..5];
  }

  const Authorization: string := "Authorization"

  function Bearer(token: string): string
  {
    "Bearer " + token
  }

  const BothGiven: string := "Provide either a token or username/password, not both."
  const AuthFailed: string := "Authentication failed: "
  const InvalidCredentials: string := AuthFailed + "Invalid username or password."
  const NoAccessToken: string := AuthFailed + "No access token received."

  function ConnectFailure(base: string): string
  {
    "Failed to connect to the API at " + base + ". Please check if the URL is correct and reachable."
  }

  /** The reachability probe: a plain GET of the base URL. */
  function ProbeRequest(base: string): Request
  {
    Request(Get, base, map[], NoPayload)
  }

  /** The token exchange: a form POST of the credentials to `<base>/token`. */
  function TokenRequest(base: string, username: string, password: string): Request
  {
    Request(Post, base + "/token", map[], FormBody(map["username" := username, "password" := password]))
  }

  const StatusFailurePrefix: string := "API connection check failed with status code "
  const ErrorOccurred: string := "An error occurred"
  const ProbeErrorPrefix: string := ErrorOccurred + " while attempting to connect to the API: "

  /** What `_check_api_availability` raises for the probe's outcome, if anything. */
  function ProbeError(base: string, net: Outcome): Option<Error>
  {
    match net
    case Unreachable(ConnectionError(_)) => Some(ValueError(ConnectFailure(base)))
    case Unreachable(RequestError(t)) => Some(ValueError(ProbeErrorPrefix + t))
    case Answered(r) =>
      if IsHttpError(r.status) then
        Some(ValueError(StatusFailurePrefix + IntToString(r.status) + ": " + HttpErrorText(r)))
      else None
  }

  /** `e` is a `ValueError` whose message starts with `prefix`. */
  predicate RaisedWith(e: Option<Error>, prefix: string)
  {
    e.Some? && e.value.ValueError? && StartsWith(e.value.msg, prefix)
  }

  /**
   * The probe fails exactly on a transport failure or an error status, and the
   * three causes are told apart by how the message starts; a failed status is
   * named in the message.
   */
  lemma ProbeErrorClasses(base: string, net: Outcome)
    ensures ProbeError(base, net).None? <==> net.Answered? && !IsHttpError(net.reply.status)
    ensures RaisedWith(ProbeError(base, net), "Failed to connect")
      <==> net.Unreachable? && net.err.ConnectionError?
    ensures RaisedWith(ProbeError(base, net), "API connection check failed")
      <==> net.Answered? && IsHttpError(net.reply.status)
    ensures RaisedWith(ProbeError(base, net), ErrorOccurred)
      <==> net.Unreachable? && net.err.RequestError?
    ensures net.Answered? && IsHttpError(net.reply.status) ==>
      RaisedWith(ProbeError(base, net), StatusFailurePrefix + IntToString(net.reply.status))
  {
    match net {
      case Unreachable(ConnectionError(_)) =>
        ConnectFailureStarts(base);
      case Unreachable(RequestError(t)) =>
        ProbeOccurredStarts(t);
      case Answered(r) =>
        if IsHttpError(r.status) {
          StatusFailureStarts(IntToString(r.status), HttpErrorText(r));
        }
    }
  }

  /** The connection failure starts "Failed to connect", which no other message does. */
  lemma ConnectFailureStarts(base: string)
    ensures var m := ConnectFailure(base);
      StartsWith(m, "Failed to connect") && !StartsWith(m, "API connection check failed")
      && !StartsWith(m, ErrorOccurred) && !StartsWith(m, AuthFailed)
  {
    var m := ConnectFailure(base);
    var head := "Failed to connect to the API at ";
    assert m == head + (base + ". Please check if the URL is correct and reachable.");
    StartsWithConcat(head, base + ". Please check if the URL is correct and reachable.");
    StartsWithTrans(m, head, "Failed to connect");
    ExclusivePrefixes(m, "Failed to connect", "API connection check failed", 0);
    ExclusivePrefixes(m, "Failed to connect", ErrorOccurred, 0);
    ExclusivePrefixes(m, "Failed to connect", AuthFailed, 0);
  }

  /** A wrapped transport error of the probe starts "An error occurred". */
  lemma ProbeOccurredStarts(t: string)
    ensures var m := ProbeErrorPrefix + t;
      StartsWith(m, ErrorOccurred) && !StartsWith(m, "Failed to connect")
      && !StartsWith(m, "API connection check failed")
  {
    var m := ProbeErrorPrefix + t;
    assert m == ErrorOccurred + (" while attempting to connect to the API: " + t);
    StartsWithConcat(ErrorOccurred, " while attempting to connect to the API: " + t);
    ExclusivePrefixes(m, ErrorOccurred, "Failed to connect", 0);
    ExclusivePrefixes(m, ErrorOccurred, "API connection check failed", 1);
  }

  /** A failed status starts with the status prefix and the code. */
  lemma StatusFailureStarts(code: string, text: string)
    ensures var m := StatusFailurePrefix + code + ": " + text;
      StartsWith(m, StatusFailurePrefix + code) && StartsWith(m, "API connection check failed")
      && !StartsWith(m, "Failed to connect") && !StartsWith(m, ErrorOccurred)
  {
    var head := StatusFailurePrefix + code;
    var m := head + ": " + text;
    assert m == head + (": " + text);
    StartsWithConcat(head, ": " + text);
    StartsWithConcat(StatusFailurePrefix, code);
    StartsWithTrans(m, head, StatusFailurePrefix);
    StartsWithTrans(m, StatusFailurePrefix, "API connection check failed");
    ExclusivePrefixes(m, "API connection check failed", "Failed to connect", 0);
    ExclusivePrefixes(m, "API connection check failed", ErrorOccurred, 1);
  }

  /** The token exchange answered with a JSON object, so `self.token` is reassigned. */
  predicate TokenDecoded(net: Outcome)
  {
    net.Answered? && !IsHttpError(net.reply.status) && net.reply.body.JsonObject?
  }

  /** `token_data.get("access_token")` for a string or null value. */
  function AccessToken(fields: map<string, Json>): (t: Option<string>)
    ensures t.Some? <==> "access_token" in fields && fields["access_token"].JStr?
    ensures t.Some? ==> fields["access_token"] == JStr(t.value)
  {
    if "access_token" in fields && fields["access_token"].JStr? then Some(fields["access_token"].s) else None
  }

  const HttpErrorOccurred: string := "HTTP error occurred: "
  const TokenErrorPrefix: string := ErrorOccurred + " while attempting to obtain the token: "

  /** What `get_token` raises for the exchange's outcome, if anything. */
  function TokenError(base: string, net: Outcome): Option<Error>
  {
    match net
    case Unreachable(ConnectionError(_)) => Some(ValueError(ConnectFailure(base)))
    case Unreachable(RequestError(t)) => Some(ValueError(TokenErrorPrefix + t))
    case Answered(r) =>
      if IsHttpError(r.status) then
        if r.status == 401 then Some(ValueError(InvalidCredentials))
        else Some(ValueError(HttpErrorOccurred + HttpErrorText(r)))
      else
        match r.body
        case NotJson(why) => Some(ValueError(TokenErrorPrefix + why))
        case JsonOther(_) => Some(AttributeError)
        case JsonObject(fields) =>
          if Truthy(AccessToken(fields)) then None else Some(ValueError(NoAccessToken))
  }

  /**
   * The exchange succeeds exactly when a JSON object with a non-empty access
   * token comes back; a 401 and only a 401 reports invalid credentials; a
   * decoded object without a usable token and only that reports a missing
   * token; a refused connection and only that reports the connection failure;
   * transport errors never escape.
   */
  lemma TokenErrorClasses(base: string, net: Outcome)
    ensures TokenError(base, net).None?
      <==> TokenDecoded(net) && Truthy(AccessToken(net.reply.body.fields))
    ensures TokenError(base, net) == Some(ValueError(InvalidCredentials))
      <==> net.Answered? && net.reply.status == 401
    ensures TokenError(base, net) == Some(ValueError(NoAccessToken))
      <==> TokenDecoded(net) && !Truthy(AccessToken(net.reply.body.fields))
    ensures TokenError(base, net) == Some(ValueError(ConnectFailure(base)))
      <==> net.Unreachable? && net.err.ConnectionError?
    ensures TokenError(base, net) == Some(AttributeError)
      <==> net.Answered? && !IsHttpError(net.reply.status) && net.reply.body.JsonOther?
    ensures TokenError(base, net).Some? ==> !TokenError(base, net).value.Raised?
  {
    TokenMessagesDiffer(base);
    match net {
      case Unreachable(RequestError(t)) =>
        OccurredDiffers(base, t);
      case Unreachable(ConnectionError(_)) =>
      case Answered(r) =>
        if IsHttpError(r.status) && r.status != 401 {
          HttpOccurredDiffers(base, HttpErrorText(r));
        } else if !IsHttpError(r.status) && r.body.NotJson? {
          OccurredDiffers(base, r.body.why);
        }
    }
  }

  /** The two refusals of `get_token` both say "Authentication failed: ", then part ways. */
  lemma AuthMessagesStart()
    ensures StartsWith(InvalidCredentials, "Authentication failed: I")
    ensures StartsWith(NoAccessToken, "Authentication failed: N")
    ensures StartsWith(InvalidCredentials, AuthFailed) && StartsWith(NoAccessToken, AuthFailed)
    ensures InvalidCredentials != NoAccessToken
  {
    var invalid := "Authentication failed: I";
    var missing := "Authentication failed: N";
    assert InvalidCredentials == invalid + "nvalid username or password.";
    StartsWithConcat(invalid, "nvalid username or password.");
    ExclusivePrefixes(InvalidCredentials, invalid, missing, 23);
    assert NoAccessToken == missing + "o access token received.";
    StartsWithConcat(missing, "o access token received.");
    StartsWithTrans(InvalidCredentials, invalid, AuthFailed);
    StartsWithTrans(NoAccessToken, missing, AuthFailed);
  }

  /** The three fixed messages of `get_token` are distinct, each starting its own way. */
  lemma TokenMessagesDiffer(base: string)
    ensures StartsWith(InvalidCredentials, "Authentication failed: I")
    ensures StartsWith(NoAccessToken, "Authentication failed: N")
    ensures StartsWith(ConnectFailure(base), "Failed to connect")
    ensures InvalidCredentials != NoAccessToken
    ensures InvalidCredentials != ConnectFailure(base) && NoAccessToken != ConnectFailure(base)
  {
    AuthMessagesStart();
    ConnectFailureStarts(base);
    assert !StartsWith(ConnectFailure(base), AuthFailed);
  }

  /** A wrapped transport or decoding error is none of the fixed messages. */
  lemma OccurredDiffers(base: string, t: string)
    ensures var m := TokenErrorPrefix + t;
      m != InvalidCredentials && m != NoAccessToken && m != ConnectFailure(base)
  {
    TokenMessagesDiffer(base);
    var m := TokenErrorPrefix + t;
    assert m == ErrorOccurred + (" while attempting to obtain the token: " + t);
    StartsWithConcat(ErrorOccurred, " while attempting to obtain the token: " + t);
    StartsWithTrans(m, ErrorOccurred, "An");
    ExclusivePrefixes(m, "An", "Failed to connect", 0);
    ExclusivePrefixes(m, "An", "Authentication failed: I", 1);
    ExclusivePrefixes(m, "An", "Authentication failed: N", 1);
  }

  /** A wrapped error status is none of the fixed messages. */
  lemma HttpOccurredDiffers(base: string, t: string)
    ensures var m := HttpErrorOccurred + t;
      m != InvalidCredentials && m != NoAccessToken && m != ConnectFailure(base)
  {
    TokenMessagesDiffer(base);
    var m := HttpErrorOccurred + t;
    StartsWithConcat(HttpErrorOccurred, t);
    StartsWithTrans(m, HttpErrorOccurred, "H");
    ExclusivePrefixes(m, "H", "Failed to connect", 0);
    ExclusivePrefixes(m, "H", "Authentication failed: I", 0);
    ExclusivePrefixes(m, "H", "Authentication failed: N", 0);
  }

  /**
   * The client's session state: the normalised base URL, the current token and
   * the headers the session adds to every request.
   */
  class Client {
    var baseUrl: string
    var token: Option<string>
    var headers: map<string, string>

    /** The base URL is normalised and any `Authorization` header carries a bearer token. */
    predicate Valid()
      reads this
    {
      && HasScheme(baseUrl)
      && |baseUrl| > 0 && baseUrl[|baseUrl| - 1] != '/'
      && (Authorization in headers ==> StartsWith(headers[Authorization], "Bearer "))
    }

    /** The state `__init__` sets up before it looks at the credentials. */
    constructor (url: string)
      ensures baseUrl == NormalizeBaseUrl(url)
      ensures token == None && headers == map[]
      ensures Valid()
    {
      baseUrl := NormalizeBaseUrl(url);
      token := None;
      headers := map[];
    }

    /** `_check_api_availability`: one GET of the base URL; nothing changes. */
    method CheckApiAvailability(net: Outcome) returns (sent: Request, err: Option<Error>)
      ensures sent == ProbeRequest(baseUrl)
      ensures err == ProbeError(baseUrl, net)
      ensures err.Some? ==> err.value.ValueError?
    {
      sent := ProbeRequest(baseUrl);
      err := ProbeError(baseUrl, net);
      ProbeErrorClasses(baseUrl, net);
    }

    /**
     * `get_token`: POST the credentials; a decoded JSON object overwrites the
     * token (even when it then turns out to be empty), and only a usable token
     * reaches the `Authorization` header.
     */
    method GetToken(username: string, password: string, net: Outcome) returns (sent: Request, err: Option<Error>)
      requires Valid()
      modifies this
      ensures Valid()
      ensures baseUrl == old(baseUrl)
      ensures sent == TokenRequest(baseUrl, username, password)
      ensures err == TokenError(baseUrl, net)
      ensures token == if TokenDecoded(net) then AccessToken(net.reply.body.fields) else old(token)
      ensures err.None? ==> Truthy(token) && headers == old(headers)[Authorization := Bearer(token.value)]
      ensures err.Some? ==> headers == old(headers)
    {
      sent := TokenRequest(baseUrl, username, password);
      err := TokenError(baseUrl, net);
      TokenErrorClasses(baseUrl, net);
      if TokenDecoded(net) {
        token := AccessToken(net.reply.body.fields);
        if err.None? {
          headers := headers[Authorization := Bearer(token.value)];
        }
      }
    }

    /**
     * The credential handling of `__init__`, run on a freshly constructed
     * client: reject a token together with a username or password, else use
     * the token, else exchange the credentials, else probe the API.
     */
    method Authenticate(tok: Option<string>, username: Option<string>, password: Option<string>, net: Outcome)
      returns (sent: Option<Request>, err: Option<Error>)
      requires Valid()
      modifies this
      ensures Valid()
      ensures baseUrl == old(baseUrl)
      ensures Truthy(tok) && (Truthy(username) || Truthy(password)) ==>
        sent == None && err == Some(ValueError(BothGiven))
        && token == old(token) && headers == old(headers)
      ensures Truthy(tok) && !Truthy(username) && !Truthy(password) ==>
        sent == None && err == None
        && token == tok && headers == old(headers)[Authorization := Bearer(tok.value)]
      ensures !Truthy(tok) && Truthy(username) && Truthy(password) ==>
        sent == Some(TokenRequest(baseUrl, username.value, password.value))
        && err == TokenError(baseUrl, net)
        && token == (if TokenDecoded(net) then AccessToken(net.reply.body.fields) else old(token))
        && (err.None? ==> Truthy(token) && headers == old(headers)[Authorization := Bearer(token.value)])
        && (err.Some? ==> headers == old(headers))
      ensures !Truthy(tok) && !(Truthy(username) && Truthy(password)) ==>
        sent == Some(ProbeRequest(baseUrl)) && err == ProbeError(baseUrl, net)
        && token == old(token) && headers == old(headers)
    {
      if Truthy(tok) && (Truthy(username) || Truthy(password)) {
        sent, err := None, Some(ValueError(BothGiven));
      } else if Truthy(tok) {
        token := tok;
        headers := headers[Authorization := Bearer(tok.value)];
        sent, err := None, None;
      } else if Truthy(username) && Truthy(password) {
        var r;
        r, err := GetToken(username.value, password.value, net);
        sent := Some(r);
      } else {
        var r;
        r, err := CheckApiAvailability(net);
        sent := Some(r);
      }
    }
  }

  /**
   * `APIClientBase(base_url, token, username, password)`: normalise the URL,
   * start without a token, then run the credential handling. A non-`None`
   * error means the constructor raised and no client is handed back.
   */
  method NewClient(url: string, tok: Option<string>, username: Option<string>, password: Option<string>, net: Outcome)
    returns (c: Client, sent: Option<Request>, err: Option<Error>)
    ensures c.Valid() && c.baseUrl == NormalizeBaseUrl(url)
    ensures Truthy(tok) && (Truthy(username) || Truthy(password)) ==> sent == None && err == Some(ValueError(BothGiven))
    ensures Truthy(tok) && !Truthy(username) && !Truthy(password) ==>
      sent == None && err == None && c.token == tok && c.headers == map[Authorization := Bearer(tok.value)]
    ensures !Truthy(tok) && Truthy(username) && Truthy(password) ==>
      sent == Some(TokenRequest(c.baseUrl, username.value, password.value))
      && err == TokenError(c.baseUrl, net)
      && (err.None? <==> Truthy(c.token) && c.headers == map[Authorization := Bearer(c.token.value)])
    ensures !Truthy(tok) && !(Truthy(username) && Truthy(password)) ==>
      sent == Some(ProbeRequest(c.baseUrl)) && err == ProbeError(c.baseUrl, net)
      && c.token == None && c.headers == map[]
  {
    c := new Client(url);
    sent, err := c.Authenticate(tok, username, password, net);
    TokenErrorClasses(c.baseUrl, net);
  }
}
