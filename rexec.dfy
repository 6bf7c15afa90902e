/**
 * Remote-execution set-up: where the rexec endpoint lives, which requirement
 * lines reach the environment file, which token identifies the user, and how
 * the broker address, port and API URL from the server's configuration are
 * handed to the shared `remote_func` helper.
 */
module Rexec {
  import opened Wrappers
  import opened Text
  import opened Http
  import opened ClientBase

  const NotInstalled: string := "SciDx-rexec is not installed. Install it to enable remote execution."
  const TokenRequired: string := "Token is required. Provide a token argument or initialize the client with an authentication token."
  const InvalidToken: string := "Invalid token provided."
  const MissingSub: string := "Token missing required 'sub' claim."
  const ConfigFailurePrefix: string := "Failed to retrieve Rexec configuration: "
  const ConfigInvalidJson: string := "Rexec configuration endpoint returned invalid JSON."

  /**
   * `_build_rexec_url`: a given `api_url` without its trailing slashes, else
   * the base URL without trailing slashes followed by `api_path`, which gets a
   * leading '/' when it has none.
   */
  function BuildRexecUrl(base: string, apiUrl: Option<string>, apiPath: string): (r: string)
    ensures Truthy(apiUrl) ==> r == RStrip(apiUrl.value, '/')
    ensures !Truthy(apiUrl) && StartsWith(apiPath, "/") ==> r == RStrip(base, '/') + apiPath
    ensures !Truthy(apiUrl) && !StartsWith(apiPath, "/") ==> r == RStrip(base, '/') + "/" + apiPath
  {
    if Truthy(apiUrl) then RStrip(apiUrl.value, '/')
    else
      var path := if StartsWith(apiPath, "/") then apiPath else "/" + apiPath;
      RStrip(base, '/') + path
  }

  /** Without an `api_url`, "rexec" and "/rexec" name the same endpoint. */
  lemma RexecPathSlashOptional(base: string, apiPath: string)
    requires !StartsWith(apiPath, "/")
    ensures BuildRexecUrl(base, None, apiPath) == BuildRexecUrl(base, None, "/" + apiPath)
  {
    StartsWithConcat("/", apiPath);
  }

  /** A given `api_url` never ends in '/', and the derived URL always contains the path after a '/'. */
  lemma RexecUrlShape(base: string, apiUrl: Option<string>, apiPath: string)
    ensures Truthy(apiUrl) ==> var r := BuildRexecUrl(base, apiUrl, apiPath); |r| == 0 || r[|r| - 1] != '/'
    ensures !Truthy(apiUrl) ==>
      var r := BuildRexecUrl(base, apiUrl, apiPath);
      StartsWith(r, RStrip(base, '/')) && r[|RStrip(base, '/')|] == '/'
  {
    if !Truthy(apiUrl) {
      var b := RStrip(base, '/');
      if StartsWith(apiPath, "/") {
        StartsWithConcat(b, apiPath);
      } else {
        assert BuildRexecUrl(base, apiUrl, apiPath) == b + ("/" + apiPath);
        StartsWithConcat(b, "/" + apiPath);
      }
    }
  }

  /** The configuration endpoint: the rexec URL without trailing slashes, then "/config". */
  function ConfigUrl(rexecUrl: string): (r: string)
    ensures StartsWith(r, RStrip(rexecUrl, '/'))
    ensures r[|RStrip(rexecUrl, '/')|..] == "/config"
  {
    StartsWithConcat(RStrip(rexecUrl, '/'), "/config");
    RStrip(rexecUrl, '/') + "/config"
  }

  /** Extra trailing slashes on the rexec URL do not change the configuration URL. */
  lemma ConfigUrlIgnoresSlashes(rexecUrl: string)
    ensures ConfigUrl(rexecUrl + "/") == ConfigUrl(rexecUrl)
  {
    RStripAppend(rexecUrl, "/", '/');
  }

  /** A requirement survives the filter when, once stripped, it is neither blank nor a comment. */
  predicate KeepRequirement(line: string)
  {
    line != "" && !StartsWith(line, "#")
  }

  /** What one specifier contributes: its stripped text and a newline, unless that is blank or a comment. */
  function RequirementLine(item: string): (r: seq<string>)
    ensures |r| <= 1
    ensures |r| == 1 <==> KeepRequirement(Strip(item))
    ensures |r| == 1 ==> r[0] == Strip(item) + "\n"
  {
    var line := Strip(item);
    if KeepRequirement(line) then [line + "\n"] else []
  }

  /** The lines `_prepare_requirements` writes for a sequence of specifiers, in order. */
  function RequirementLines(items: seq<string>): seq<string>
  {
    if |items| == 0 then [] else RequirementLine(items[0]) + RequirementLines(items[1..])
  }

  /** Filtering a concatenation filters each part. */
  lemma {:induction false} RequirementLinesAppend(a: seq<string>, b: seq<string>)
    ensures RequirementLines(a + b) == RequirementLines(a) + RequirementLines(b)
    decreases |a|
  {
    if |a| == 0 {
      assert a + b == b;
    } else {
      var ab := a + b;
      assert ab[0] == a[0] && ab[1..] == a[1..] + b;
      RequirementLinesAppend(a[1..], b);
      var first := RequirementLine(a[0]);
      calc {
        RequirementLines(ab);
        first + RequirementLines(a[1..] + b);
        first + (RequirementLines(a[1..]) + RequirementLines(b));
        (first + RequirementLines(a[1..])) + RequirementLines(b);
      }
    }
  }

  /** One more specifier adds at most its own line at the end. */
  lemma RequirementLinesSnoc(items: seq<string>, item: string)
    ensures RequirementLines(items + [item]) == RequirementLines(items) + RequirementLine(item)
  {
    RequirementLinesAppend(items, [item]);
    assert [item][1..] == [];
    assert RequirementLines([item]) == RequirementLine(item) + RequirementLines([]);
  }

  /**
   * A line as it reaches the file: a non-blank, non-comment specifier with no
   * white space at either end, then a newline.
   */
  predicate CleanLine(l: string)
  {
    |l| >= 2 && l[|l| - 1] == '\n' && KeepRequirement(l[..|l| - 1])
    && !IsSpace(l[0]) && !IsSpace(l[|l| - 2])
  }

  /** What one specifier contributes is a clean line, if anything. */
  lemma RequirementLineClean(item: string)
    ensures forall k :: 0 <= k < |RequirementLine(item)| ==> CleanLine(RequirementLine(item)[k])
  {
    var line := Strip(item);
    if KeepRequirement(line) {
      var l := line + "\n";
      assert l[..|l| - 1] == line;
      assert RequirementLine(item)[0] == l;
    }
  }

  /** Every written line is clean, and there are never more lines than items. */
  lemma {:induction false} RequirementLinesShape(items: seq<string>)
    ensures |RequirementLines(items)| <= |items|
    ensures forall k :: 0 <= k < |RequirementLines(items)| ==> CleanLine(RequirementLines(items)[k])
    decreases |items|
  {
    if |items| > 0 {
      var head, tail := RequirementLine(items[0]), RequirementLines(items[1..]);
      RequirementLinesShape(items[1..]);
      RequirementLineClean(items[0]);
      assert RequirementLines(items) == head + tail;
      forall k | 0 <= k < |head + tail|
        ensures CleanLine((head + tail)[k])
      {
        if k >= |head| {
          assert (head + tail)[k] == tail[k - |head|];
        }
      }
    }
  }

  /** Specifiers that are already clean are written as they are, one per line. */
  lemma {:induction false} RequirementLinesClean(items: seq<string>)
    requires forall k :: 0 <= k < |items| ==> Strip(items[k]) == items[k] && KeepRequirement(items[k])
    ensures |RequirementLines(items)| == |items|
    ensures forall k :: 0 <= k < |items| ==> RequirementLines(items)[k] == items[k] + "\n"
    decreases |items|
  {
    if |items| > 0 {
      RequirementLinesClean(items[1..]);
    }
  }

  /** The temporary requirements file, which only ever grows by whole lines. */
  class TempFile {
    const name: string
    var lines: seq<string>

    constructor (name: string)
      ensures this.name == name && lines == []
    {
      this.name := name;
      lines := [];
    }

    method Write(line: string)
      modifies this
      ensures lines == old(lines) + [line]
    {
      lines := lines + [line];
    }
  }

  /** What `requirements` may be: a path (a string or `Path`), or a sequence of specifiers. */
  datatype Requirements = RequirementsPath(path: string) | Specifiers(items: seq<string>)

  function RequirementsNotFound(path: string): string
  {
    "Requirements file not found: " + path
  }

  /** The file handed to `set_environment`: the user's own, or the temporary one with its lines. */
  datatype RequirementsFile = UserFile(path: string) | WrittenFile(path: string, lines: seq<string>)

  /**
   * `_prepare_requirements`: a path must exist (`pathExists` stands for the
   * file system); a sequence is filtered line by line into a new temporary
   * file named `tmpName`.
   */
  method PrepareRequirements(requirements: Requirements, pathExists: bool, tmpName: string)
    returns (r: Result<RequirementsFile, Error>)
    ensures requirements.RequirementsPath? && !pathExists ==>
      r == Failure(ValueError(RequirementsNotFound(requirements.path)))
    ensures requirements.RequirementsPath? && pathExists ==> r == Success(UserFile(requirements.path))
    ensures requirements.Specifiers? ==>
      r == Success(WrittenFile(tmpName, RequirementLines(requirements.items)))
  {
    match requirements
    case RequirementsPath(path) =>
      if !pathExists {
        return Failure(ValueError(RequirementsNotFound(path)));
      }
      return Success(UserFile(path));
    case Specifiers(items) =>
      var tmp := new TempFile(tmpName);
      WriteRequirements(tmp, items);
      assert tmp.lines == RequirementLines(items);
      return Success(WrittenFile(tmp.name, tmp.lines));
  }

  /** The loop of `_prepare_requirements`: each specifier, stripped, unless blank or a comment. */
  method WriteRequirements(tmp: TempFile, items: seq<string>)
    modifies tmp
    ensures tmp.lines == old(tmp.lines) + RequirementLines(items)
  {
    ghost var start := tmp.lines;
    var i := 0;
    while i < |items|
      invariant 0 <= i <= |items|
      invariant tmp.lines == start + RequirementLines(items[..i])
    {
      WriteRequirement(tmp, items[i]);
      WriteStep(start, items, i);
      i := i + 1;
    }
    assert items[..|items|] == items;
  }

  /** One turn of the loop's body: the specifier, stripped, unless blank or a comment. */
  method WriteRequirement(tmp: TempFile, item: string)
    modifies tmp
    ensures tmp.lines == old(tmp.lines) + RequirementLine(item)
  {
    var line := Strip(item);
    if KeepRequirement(line) {
      tmp.Write(line + "\n");
    }
  }

  /** One turn of the loop: the lines so far, then what the next specifier contributes. */
  lemma WriteStep(start: seq<string>, items: seq<string>, i: int)
    requires 0 <= i < |items|
    ensures start + RequirementLines(items[..i + 1]) == (start + RequirementLines(items[..i])) + RequirementLine(items[i])
  {
    assert items[..i + 1] == items[..i] + [items[i]];
    RequirementLinesSnoc(items[..i], items[i]);
  }

  /** `token or self.token`, refused when neither is a non-empty string. */
  function ResolveToken(token: Option<string>, clientToken: Option<string>): (r: Result<string, Error>)
    ensures r.Success? <==> Truthy(token) || Truthy(clientToken)
    ensures Truthy(token) ==> r == Success(token.value)
    ensures !Truthy(token) && Truthy(clientToken) ==> r == Success(clientToken.value)
    ensures r.Failure? ==> r.error == ValueError(TokenRequired)
  {
    if Truthy(token) then Success(token.value)
    else if Truthy(clientToken) then Success(clientToken.value)
    else Failure(ValueError(TokenRequired))
  }

  /**
   * `_decode_user_id` after the signature check: `claims` is the decoded
   * token, or `None` when decoding failed. The `sub` claim must be truthy and
   * is returned as `str(sub)`.
   */
  function UserId(claims: Option<map<string, Json>>): (r: Result<string, Error>)
    ensures claims.None? ==> r == Failure(ValueError(InvalidToken))
    ensures claims.Some? ==> (r.Success? <==> JsonTruthy(Lookup(claims.value, "sub")))
    ensures claims.Some? && r.Success? ==> r.value == PyStr(claims.value["sub"])
    ensures claims.Some? && r.Failure? ==> r.error == ValueError(MissingSub)
  {
    match claims
    case None => Failure(ValueError(InvalidToken))
    case Some(c) =>
      var sub := Lookup(c, "sub");
      if JsonTruthy(sub) then Success(PyStr(sub)) else Failure(ValueError(MissingSub))
  }

  /** The broker and API settings `_configure_remote_func` derives from the configuration. */
  datatype Broker = Broker(addr: Json, port: Json, apiUrl: Json)

  /**
   * The explicit settings, external ones first; when the address or the port
   * is still missing and `broker_external_url` is set, a "host:port" split of
   * it fills in what is missing (the part after the last ':' is the port).
   */
  function ResolveBroker(config: map<string, Json>, defaultApiUrl: string): (b: Broker)
    ensures JsonTruthy(Lookup(config, "broker_external_host")) ==> b.addr == config["broker_external_host"]
    ensures JsonTruthy(Lookup(config, "broker_external_port")) ==> b.port == config["broker_external_port"]
    ensures JsonTruthy(Or(Lookup(config, "broker_external_host"), Lookup(config, "broker_addr")))
      ==> b.addr == Or(Lookup(config, "broker_external_host"), Lookup(config, "broker_addr"))
    ensures JsonTruthy(Or(Lookup(config, "broker_external_port"), Lookup(config, "broker_port")))
      ==> b.port == Or(Lookup(config, "broker_external_port"), Lookup(config, "broker_port"))
    ensures !JsonTruthy(Lookup(config, "broker_external_url")) ==>
      b.addr == Or(Lookup(config, "broker_external_host"), Lookup(config, "broker_addr"))
      && b.port == Or(Lookup(config, "broker_external_port"), Lookup(config, "broker_port"))
    ensures JsonTruthy(Lookup(config, "api_url")) ==> b.apiUrl == config["api_url"]
    ensures !JsonTruthy(Lookup(config, "api_url")) ==> b.apiUrl == JStr(defaultApiUrl)
  {
    var addr := Or(Lookup(config, "broker_external_host"), Lookup(config, "broker_addr"));
    var port := Or(Lookup(config, "broker_external_port"), Lookup(config, "broker_port"));
    var apiUrl := Or(Lookup(config, "api_url"), JStr(defaultApiUrl));
    if (!JsonTruthy(addr) || !JsonTruthy(port)) && JsonTruthy(Lookup(config, "broker_external_url")) then
      var parts := Split(PyStr(config["broker_external_url"]), ':');
      if |parts| >= 2 then
        Broker(Or(addr, JStr(Join(parts[..|parts| - 1], ':'))), Or(port, JStr(parts[|parts| - 1])), apiUrl)
      else Broker(addr, port, apiUrl)
    else Broker(addr, port, apiUrl)
  }

  /**
   * The fall-back on `broker_external_url`: when the address or the port is
   * missing and the URL has a ':', a missing address becomes the text before
   * the last ':' and a missing port the text after it (a part that was set
   * is kept, see `ResolveBroker`); without a ':' nothing changes. With both missing, address, a
   * ':' and the port give back the URL.
   */
  lemma BrokerFromExternalUrl(config: map<string, Json>, defaultApiUrl: string)
    requires JsonTruthy(Lookup(config, "broker_external_url"))
    ensures var b := ResolveBroker(config, defaultApiUrl);
      var addr := Or(Lookup(config, "broker_external_host"), Lookup(config, "broker_addr"));
      var port := Or(Lookup(config, "broker_external_port"), Lookup(config, "broker_port"));
      var url := PyStr(config["broker_external_url"]);
      && (':' !in url ==> b.addr == addr && b.port == port)
      && (':' in url && !JsonTruthy(addr) ==>
            b.addr.JStr? && StartsWith(url, b.addr.s + ":") && ':' !in url[|b.addr.s| + 1..])
      && (':' in url && !JsonTruthy(port) ==>
            b.port.JStr? && ':' !in b.port.s && |b.port.s| < |url| && url[|url| - |b.port.s| - 1..] == ":" + b.port.s)
      && (':' in url && !JsonTruthy(addr) && !JsonTruthy(port) ==> b.addr.s + ":" + b.port.s == url)
  {
    var b := ResolveBroker(config, defaultApiUrl);
    var addr := Or(Lookup(config, "broker_external_host"), Lookup(config, "broker_addr"));
    var port := Or(Lookup(config, "broker_external_port"), Lookup(config, "broker_port"));
    var url := PyStr(config["broker_external_url"]);
    SplitAtColons(url);
    BrokerFallback(config, defaultApiUrl);
    FallbackPieces(b, addr, port, url, Split(url, ':'));
  }

  /** The fall-back's outcome read back against the URL, given how it was split. */
  lemma FallbackPieces(b: Broker, addr: Json, port: Json, url: string, parts: seq<string>)
    requires |parts| >= 2 <==> ':' in url
    requires |parts| >= 2 ==>
      ':' !in parts[|parts| - 1] && url == Join(parts[..|parts| - 1], ':') + [':'] + parts[|parts| - 1]
    requires |parts| < 2 ==> b.addr == addr && b.port == port
    requires |parts| >= 2 ==>
      b.addr == Or(addr, JStr(Join(parts[..|parts| - 1], ':'))) && b.port == Or(port, JStr(parts[|parts| - 1]))
    ensures ':' !in url ==> b.addr == addr && b.port == port
    ensures ':' in url && !JsonTruthy(addr) ==>
      b.addr.JStr? && StartsWith(url, b.addr.s + ":") && ':' !in url[|b.addr.s| + 1..]
    ensures ':' in url && !JsonTruthy(port) ==>
      b.port.JStr? && ':' !in b.port.s && |b.port.s| < |url| && url[|url| - |b.port.s| - 1..] == ":" + b.port.s
    ensures ':' in url && !JsonTruthy(addr) && !JsonTruthy(port) ==> b.addr.s + ":" + b.port.s == url
  {
    if |parts| >= 2 {
      var host, last := Join(parts[..|parts| - 1], ':'), parts[|parts| - 1];
      LastColon(url, host, last);
      if !JsonTruthy(addr) {
        assert b.addr == JStr(host);
      }
      if !JsonTruthy(port) {
        assert b.port == JStr(last);
      }
    }
  }

  /** What the fall-back assigns, in terms of the pieces of the external URL. */
  lemma BrokerFallback(config: map<string, Json>, defaultApiUrl: string)
    requires JsonTruthy(Lookup(config, "broker_external_url"))
    ensures var b := ResolveBroker(config, defaultApiUrl);
      var addr := Or(Lookup(config, "broker_external_host"), Lookup(config, "broker_addr"));
      var port := Or(Lookup(config, "broker_external_port"), Lookup(config, "broker_port"));
      var parts := Split(PyStr(config["broker_external_url"]), ':');
      && (|parts| < 2 || (JsonTruthy(addr) && JsonTruthy(port)) ==> b.addr == addr && b.port == port)
      && (|parts| >= 2 ==> b.addr == Or(addr, JStr(Join(parts[..|parts| - 1], ':'))))
      && (|parts| >= 2 ==> b.port == Or(port, JStr(parts[|parts| - 1])))
  {
  }

  /** `str.split(':')` gives two parts or more exactly when there is a ':', the last part after the last ':'. */
  lemma SplitAtColons(url: string)
    ensures var parts := Split(url, ':');
      && (|parts| >= 2 <==> ':' in url)
      && (|parts| >= 2 ==>
            ':' !in parts[|parts| - 1] && url == Join(parts[..|parts| - 1], ':') + [':'] + parts[|parts| - 1])
  {
    var parts := Split(url, ':');
    JoinSplit(url, ':');
    if ':' in url {
      assert |parts| >= 2;
      JoinLast(parts, ':');
    } else {
      SplitNoSep(url, ':');
    }
  }

  /** A URL cut at its last ':' into a host and a port without ':'. */
  lemma LastColon(url: string, host: string, port: string)
    requires url == host + [':'] + port && ':' !in port
    ensures StartsWith(url, host + ":") && url[|host| + 1..] == port && ':' !in url[|host| + 1..]
    ensures |port| < |url| && url[|url| - |port| - 1..] == ":" + port
    ensures host + ":" + port == url
  {
    assert url == (host + ":") + port;
    StartsWithConcat(host + ":", port);
  }

  /** One call on the shared `remote_func` helper. */
  datatype RemoteCall =
    | SetApiUrl(url: Json)
    | SetRemoteAddr(addr: Json)
    | SetRemotePort(port: string)
    | SetEnvironment(file: RequirementsFile, userId: string)

  /** The calls `_configure_remote_func` makes: address and port only when set, the API URL always and last. */
  function ConfigureCalls(config: map<string, Json>, defaultApiUrl: string): (calls: seq<RemoteCall>)
    ensures |calls| > 0 && calls[|calls| - 1] == SetApiUrl(ResolveBroker(config, defaultApiUrl).apiUrl)
    ensures var b := ResolveBroker(config, defaultApiUrl);
      (SetRemoteAddr(b.addr) in calls <==> JsonTruthy(b.addr))
      && (SetRemotePort(PyStr(b.port)) in calls <==> JsonTruthy(b.port))
    ensures var b := ResolveBroker(config, defaultApiUrl);
      |calls| == 1 + (if JsonTruthy(b.addr) then 1 else 0) + (if JsonTruthy(b.port) then 1 else 0)
    ensures var b := ResolveBroker(config, defaultApiUrl);
      JsonTruthy(b.addr) ==> calls[0] == SetRemoteAddr(b.addr)
    ensures var b := ResolveBroker(config, defaultApiUrl);
      JsonTruthy(b.port) ==> calls[|calls| - 2] == SetRemotePort(PyStr(b.port))
  {
    var b := ResolveBroker(config, defaultApiUrl);
    (if JsonTruthy(b.addr) then [SetRemoteAddr(b.addr)] else [])
    + (if JsonTruthy(b.port) then [SetRemotePort(PyStr(b.port))] else [])
    + [SetApiUrl(b.apiUrl)]
  }

  /** Before the final API URL there are only address and port calls: at most two of them. */
  lemma ConfigureCallsOrder(config: map<string, Json>, defaultApiUrl: string)
    ensures var calls := ConfigureCalls(config, defaultApiUrl);
      |calls| <= 3 && forall k :: 0 <= k < |calls| - 1 ==> calls[k].SetRemoteAddr? || calls[k].SetRemotePort?
  {
  }

  /** A numeric external port reaches `set_remote_port` in decimal. */
  lemma PortStringified(config: map<string, Json>, defaultApiUrl: string, port: nat)
    requires Lookup(config, "broker_external_port") == JInt(port) && port != 0
    ensures SetRemotePort(NatToString(port)) in ConfigureCalls(config, defaultApiUrl)
  {
  }

  /** The shared `remote_func` helper of the rexec package, seen through the calls it receives. */
  class RemoteFunc {
    var calls: seq<RemoteCall>

    constructor ()
      ensures calls == []
    {
      calls := [];
    }

    method Record(c: RemoteCall)
      modifies this
      ensures calls == old(calls) + [c]
    {
      calls := calls + [c];
    }

    /** `_configure_remote_func` applied to this helper. */
    method Configure(config: map<string, Json>, defaultApiUrl: string)
      modifies this
      ensures calls == old(calls) + ConfigureCalls(config, defaultApiUrl)
    {
      var b := ResolveBroker(config, defaultApiUrl);
      ghost var before := calls;
      if JsonTruthy(b.addr) {
        Record(SetRemoteAddr(b.addr));
      }
      if JsonTruthy(b.port) {
        Record(SetRemotePort(PyStr(b.port)));
      }
      Record(SetApiUrl(b.apiUrl));
    }
  }

  /** The GET of the configuration endpoint. */
  function ConfigRequest(rexecUrl: string): Request
  {
    Request(Get, ConfigUrl(rexecUrl), map[], NoPayload)
  }

  /**
   * `_fetch_rexec_config`: transport failures escape; an error status names
   * the reply text, or the error when the text is empty; a body that is not
   * JSON is reported as such; otherwise the decoded configuration.
   */
  function FetchRexecConfig(net: Outcome): (r: Result<Json, Error>)
    ensures net.Unreachable? ==> r == Failure(Raised(net.err))
    ensures net.Answered? && IsHttpError(net.reply.status) && net.reply.text != "" ==>
      r == Failure(ValueError(ConfigFailurePrefix + net.reply.text))
    ensures net.Answered? && IsHttpError(net.reply.status) && net.reply.text == "" ==>
      r == Failure(ValueError(ConfigFailurePrefix + HttpErrorText(net.reply)))
    ensures net.Answered? && !IsHttpError(net.reply.status) ==>
      (r == Failure(ValueError(ConfigInvalidJson)) <==> net.reply.body.NotJson?)
    ensures net.Answered? && !IsHttpError(net.reply.status) && net.reply.body.JsonObject? ==>
      r == Success(JObject(net.reply.body.fields))
    ensures net.Answered? && !IsHttpError(net.reply.status) && net.reply.body.JsonOther? ==>
      r == Success(net.reply.body.value)
  {
    match net
    case Unreachable(e) => Failure(Raised(e))
    case Answered(reply) =>
      if IsHttpError(reply.status) then
        Failure(ValueError(ConfigFailurePrefix + (if reply.text != "" then reply.text else HttpErrorText(reply))))
      else
        match reply.body
        case NotJson(_) => Failure(ValueError(ConfigInvalidJson))
        case JsonObject(fields) => Success(JObject(fields))
        case JsonOther(v) => Success(v)
  }

  /** `_prepare_requirements` succeeds: a sequence of specifiers, or a path that exists. */
  predicate RequirementsReady(requirements: Requirements, pathExists: bool)
  {
    requirements.RequirementsPath? ==> pathExists
  }

  /** The file `_prepare_requirements` hands on when it succeeds. */
  function PreparedFile(requirements: Requirements, tmpName: string): RequirementsFile
  {
    if requirements.RequirementsPath? then UserFile(requirements.path)
    else WrittenFile(tmpName, RequirementLines(requirements.items))
  }

  /**
   * The second half of `setup_rexec_environment`, once the user is known:
   * point the helper at `url`, hand it the requirements file, fetch the
   * configuration and configure the helper with it.
   */
  method ConnectRemote(rf: RemoteFunc, url: string, userId: string, requirements: Requirements,
                       pathExists: bool, tmpName: string, net: Outcome)
    returns (sent: Option<Request>, r: Result<map<string, Json>, Error>)
    modifies rf
    ensures |rf.calls| > |old(rf.calls)| && rf.calls[..|old(rf.calls)| + 1] == old(rf.calls) + [SetApiUrl(JStr(url))]
    ensures r.Success? <==>
      RequirementsReady(requirements, pathExists)
      && FetchRexecConfig(net).Success? && FetchRexecConfig(net).value.JObject?
    ensures !RequirementsReady(requirements, pathExists) ==>
      sent == None && r == Failure(ValueError(RequirementsNotFound(requirements.path)))
      && rf.calls == old(rf.calls) + [SetApiUrl(JStr(url))]
    ensures RequirementsReady(requirements, pathExists) ==> sent == Some(ConfigRequest(url))
    ensures RequirementsReady(requirements, pathExists) && FetchRexecConfig(net).Failure? ==>
      r == Failure(FetchRexecConfig(net).error)
    ensures (RequirementsReady(requirements, pathExists) && FetchRexecConfig(net).Success?
             && !FetchRexecConfig(net).value.JObject?) ==> r == Failure(AttributeError)
    ensures RequirementsReady(requirements, pathExists) && r.Failure? ==>
      rf.calls == old(rf.calls) + [SetApiUrl(JStr(url)), SetEnvironment(PreparedFile(requirements, tmpName), userId)]
    ensures r.Success? ==>
      FetchRexecConfig(net) == Success(JObject(r.value))
      && rf.calls == old(rf.calls) + [SetApiUrl(JStr(url)), SetEnvironment(PreparedFile(requirements, tmpName), userId)]
                     + ConfigureCalls(r.value, url)
  {
    ghost var before := rf.calls;
    rf.Record(SetApiUrl(JStr(url)));
    assert rf.calls[..|before| + 1] == rf.calls;
    var file := PrepareRequirements(requirements, pathExists, tmpName);
    if file.Failure? {
      return None, Failure(file.error);
    }
    assert file.value == PreparedFile(requirements, tmpName);
    var environment := SetEnvironment(file.value, userId);
    rf.Record(environment);
    ghost var handed := rf.calls;
    sent, r := ConfigureFromServer(rf, url, net);
    LogShape(before, SetApiUrl(JStr(url)), environment, rf.calls[|handed|..]);
    assert r.Failure? ==> rf.calls == handed;
  }

  /** How the log of `ConnectRemote` is laid out: what was there, the API URL, the environment, the rest. */
  lemma LogShape(log: seq<RemoteCall>, first: RemoteCall, second: RemoteCall, rest: seq<RemoteCall>)
    ensures ((log + [first]) + [second]) + rest == log + [first, second] + rest
    ensures (log + [first]) + [second] == log + [first, second]
    ensures (log + [first, second] + rest)[..|log| + 1] == log + [first]
  {
    assert (log + [first, second] + rest)[..|log| + 1] == log + [first];
  }

  /** The end of `setup_rexec_environment`: fetch the configuration and configure the helper with it. */
  method ConfigureFromServer(rf: RemoteFunc, url: string, net: Outcome)
    returns (sent: Option<Request>, r: Result<map<string, Json>, Error>)
    modifies rf
    ensures sent == Some(ConfigRequest(url))
    ensures r.Success? <==> FetchRexecConfig(net).Success? && FetchRexecConfig(net).value.JObject?
    ensures FetchRexecConfig(net).Failure? ==> r == Failure(FetchRexecConfig(net).error)
    ensures FetchRexecConfig(net).Success? && !FetchRexecConfig(net).value.JObject? ==> r == Failure(AttributeError)
    ensures r.Success? ==> FetchRexecConfig(net) == Success(JObject(r.value))
    ensures rf.calls == old(rf.calls) + (if r.Success? then ConfigureCalls(r.value, url) else [])
  {
    sent := Some(ConfigRequest(url));
    var config := FetchRexecConfig(net);
    if config.Failure? {
      return sent, Failure(config.error);
    }
    if !config.value.JObject? {
      return sent, Failure(AttributeError);
    }
    rf.Configure(config.value.fields, url);
    assert rf.calls == old(rf.calls) + ConfigureCalls(config.value.fields, url);
    r := Success(config.value.fields);
  }

  /**
   * `setup_rexec_environment` for `client`: check the helper is installed
   * (`installed`), resolve the token and the user id (`claims` is what the
   * signature check decoded), then connect the helper. Each failure stops the
   * sequence where it happens.
   */
  method SetupRexecEnvironment(client: Client, rf: RemoteFunc, installed: bool, claims: Option<map<string, Json>>,
                               requirements: Requirements, pathExists: bool, tmpName: string, net: Outcome,
                               token: Option<string> := None, apiUrl: Option<string> := None,
                               apiPath: string := "/rexec")
    returns (sent: Option<Request>, r: Result<map<string, Json>, Error>)
    modifies rf
    ensures !installed ==> sent == None && r == Failure(ValueError(NotInstalled)) && rf.calls == old(rf.calls)
    ensures installed && ResolveToken(token, client.token).Failure? ==>
      sent == None && r == Failure(ValueError(TokenRequired)) && rf.calls == old(rf.calls)
    ensures installed && ResolveToken(token, client.token).Success? && UserId(claims).Failure? ==>
      sent == None && r == Failure(UserId(claims).error) && rf.calls == old(rf.calls)
    ensures installed && ResolveToken(token, client.token).Success? && UserId(claims).Success? ==>
      var url := BuildRexecUrl(client.baseUrl, apiUrl, apiPath);
      |rf.calls| > |old(rf.calls)| && rf.calls[..|old(rf.calls)| + 1] == old(rf.calls) + [SetApiUrl(JStr(url))]
    ensures r.Success? ==>
      var url := BuildRexecUrl(client.baseUrl, apiUrl, apiPath);
      sent == Some(ConfigRequest(url)) && FetchRexecConfig(net) == Success(JObject(r.value))
      && rf.calls == old(rf.calls) + [SetApiUrl(JStr(url)), SetEnvironment(PreparedFile(requirements, tmpName), UserId(claims).value)]
                     + ConfigureCalls(r.value, url)
    ensures r.Success? <==>
      installed && ResolveToken(token, client.token).Success? && UserId(claims).Success?
      && RequirementsReady(requirements, pathExists)
      && FetchRexecConfig(net).Success? && FetchRexecConfig(net).value.JObject?
    ensures (installed && ResolveToken(token, client.token).Success? && UserId(claims).Success?
             && !RequirementsReady(requirements, pathExists)) ==>
      var url := BuildRexecUrl(client.baseUrl, apiUrl, apiPath);
      sent == None && r == Failure(ValueError(RequirementsNotFound(requirements.path)))
      && rf.calls == old(rf.calls) + [SetApiUrl(JStr(url))]
    ensures (installed && ResolveToken(token, client.token).Success? && UserId(claims).Success?
             && RequirementsReady(requirements, pathExists)) ==>
      var url := BuildRexecUrl(client.baseUrl, apiUrl, apiPath);
      && sent == Some(ConfigRequest(url))
      && (FetchRexecConfig(net).Failure? ==> r == Failure(FetchRexecConfig(net).error))
      && (FetchRexecConfig(net).Success? && !FetchRexecConfig(net).value.JObject? ==> r == Failure(AttributeError))
      && (r.Failure? ==>
            rf.calls == old(rf.calls) + [SetApiUrl(JStr(url)), SetEnvironment(PreparedFile(requirements, tmpName), UserId(claims).value)])
  {
    if !installed {
      return None, Failure(ValueError(NotInstalled));
    }
    var resolved := ResolveToken(token, client.token);
    if resolved.Failure? {
      return None, Failure(resolved.error);
    }
    var userId := UserId(claims);
    if userId.Failure? {
      return None, Failure(userId.error);
    }
    var url := BuildRexecUrl(client.baseUrl, apiUrl, apiPath);
    sent, r := ConnectRemote(rf, url, userId.value, requirements, pathExists, tmpName, net);
  }
}
