/**
 * Dataset search: the keyword search (`GET /search`), whose query carries the
 * terms, the server and the optional per-term keys, and the advanced search
 * (`POST /search`), which forwards a request document unchanged.
 */
module Search {
  import opened Wrappers
  import opened Text
  import opened Http

  const KeysMismatch: string := "The number of terms must match the number of keys, or keys must be omitted."
  const SearchErrorPrefix: string := "Error searching for datasets: "
  const AdvancedErrorPrefix: string := "Error in advanced search: "

  /** A list of strings as a JSON array. */
  function Strings(xs: seq<string>): (j: Json)
    ensures j.JList? && |j.items| == |xs|
    ensures forall i :: 0 <= i < |xs| ==> j.items[i] == JStr(xs[i])
  {
    JList(seq(|xs|, i requires 0 <= i < |xs| => JStr(xs[i])))
  }

  /** Keys sent to the API: a missing key (`None`) becomes the word "null". */
  function ProcessKeys(keys: seq<Option<string>>): (r: seq<string>)
    ensures |r| == |keys|
    ensures forall i :: 0 <= i < |keys| && keys[i].Some? ==> r[i] == keys[i].value
    ensures forall i :: 0 <= i < |keys| && keys[i].None? ==> r[i] == "null"
  {
    if |keys| == 0 then []
    else [if keys[0].Some? then keys[0].value else "null"] + ProcessKeys(keys[1..])
  }

  /** A list of given keys passes through unchanged. */
  lemma ProcessKeysPresent(keys: seq<string>)
    ensures ProcessKeys(seq(|keys|, i requires 0 <= i < |keys| => Some(keys[i]))) == keys
  {
  }

  /** The query of the keyword search; `keys` is added only when non-empty. */
  function SearchParams(terms: seq<string>, keys: seq<string>, server: string): (p: map<string, Json>)
    ensures "terms" in p && p["terms"] == Strings(terms)
    ensures "server" in p && p["server"] == JStr(server)
    ensures "keys" in p <==> |keys| > 0
    ensures "keys" in p ==> p["keys"] == Strings(keys)
    ensures p.Keys <= {"terms", "server", "keys"}
  {
    var p := map["terms" := Strings(terms), "server" := JStr(server)];
    if |keys| > 0 then p["keys" := Strings(keys)] else p
  }

  /**
   * `search_datasets`: a key list of the wrong length is refused before any
   * request; otherwise one GET of `<base>/search`, whose error statuses become
   * "Error searching for datasets: " and the server's detail (or the error
   * text); transport failures escape.
   */
  function SearchDatasets(base: string, net: Outcome, terms: seq<string>,
                          keys: Option<seq<Option<string>>> := None, server: string := "global"): (c: Call)
    ensures keys.Some? && |keys.value| != |terms| ==> c == Call(None, Failure(ValueError(KeysMismatch)))
    ensures !(keys.Some? && |keys.value| != |terms|) ==>
      var sentKeys := if keys.Some? then ProcessKeys(keys.value) else [];
      c.sent == Some(Request(Get, base + "/search", SearchParams(terms, sentKeys, server), NoPayload))
    ensures !(keys.Some? && |keys.value| != |terms|) && net.Answered? && IsHttpError(net.reply.status) ==>
      c.result == Failure(ValueError(SearchErrorPrefix + DetailOr(net.reply.body, HttpErrorText(net.reply))))
    ensures !(keys.Some? && |keys.value| != |terms|) && net.Unreachable? ==> c.result == Failure(Raised(net.err))
    ensures c.result.Success? <==>
      !(keys.Some? && |keys.value| != |terms|) && net.Answered? && !IsHttpError(net.reply.status)
      && !net.reply.body.NotJson?
    ensures (!(keys.Some? && |keys.value| != |terms|) && net.Answered? && !IsHttpError(net.reply.status)
             && net.reply.body.NotJson?) ==> c.result == Failure(DecodeError(net.reply.body.why))
  {
    if keys.Some? && |keys.value| != |terms| then Call(None, Failure(ValueError(KeysMismatch)))
    else
      var sentKeys := if keys.Some? then ProcessKeys(keys.value) else [];
      var req := Request(Get, base + "/search", SearchParams(terms, sentKeys, server), NoPayload);
      Call(Some(req), Decoded(Settle(net, (r: Reply) => SearchErrorPrefix + DetailOrError(r))))
  }

  /** Without keys or a server, the query holds the terms and the "global" server only. */
  lemma SearchDefaults(base: string, net: Outcome, terms: seq<string>)
    ensures SearchDatasets(base, net, terms).sent
      == Some(Request(Get, base + "/search", map["terms" := Strings(terms), "server" := JStr("global")], NoPayload))
  {
    var p := SearchParams(terms, [], "global");
    assert p.Keys == {"terms", "server"};
    assert p == map["terms" := Strings(terms), "server" := JStr("global")];
  }

  /** Every refused search, whatever the cause, carries the search prefix. */
  lemma SearchErrorsPrefixed(base: string, net: Outcome, terms: seq<string>, keys: Option<seq<Option<string>>>, server: string)
    requires !(keys.Some? && |keys.value| != |terms|)
    ensures var c := SearchDatasets(base, net, terms, keys, server);
      c.result.Failure? && c.result.error.ValueError? ==> StartsWith(c.result.error.msg, SearchErrorPrefix)
  {
    if net.Answered? && IsHttpError(net.reply.status) {
      StartsWithConcat(SearchErrorPrefix, DetailOrError(net.reply));
    }
  }

  /**
   * `advanced_search`: the request document is POSTed unchanged to
   * `<base>/search`; error statuses become "Error in advanced search: " and
   * the detail (or the error text).
   */
  function AdvancedSearch(base: string, net: Outcome, searchData: map<string, Json>): (c: Call)
    ensures c.sent == Some(Request(Post, base + "/search", map[], JsonBody(searchData)))
    ensures net.Answered? && IsHttpError(net.reply.status) ==>
      c.result == Failure(ValueError(AdvancedErrorPrefix + DetailOr(net.reply.body, HttpErrorText(net.reply))))
    ensures net.Unreachable? ==> c.result == Failure(Raised(net.err))
    ensures c.result.Success? <==> net.Answered? && !IsHttpError(net.reply.status) && !net.reply.body.NotJson?
    ensures net.Answered? && !IsHttpError(net.reply.status) && net.reply.body.NotJson? ==>
      c.result == Failure(DecodeError(net.reply.body.why))
  {
    Call(Some(Request(Post, base + "/search", map[], JsonBody(searchData))),
         Decoded(Settle(net, (r: Reply) => AdvancedErrorPrefix + DetailOrError(r))))
  }
}
