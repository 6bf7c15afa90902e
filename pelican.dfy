/**
 * Pelican federation operations: listing federations, browsing a namespace,
 * file metadata, downloads, and importing a Pelican file into the catalog.
 * Browse and info single out a 404; the others never do.
 */
module Pelican {
  import opened Wrappers
  import opened Text
  import opened Http

  const DefaultFederation: string := "osdf"
  const SchemeRequired: string := "URL must start with pelican://"

  /** `str(flag).lower()`. */
  function FlagParam(flag: bool): (s: string)
    ensures s == "true" || s == "false"
    ensures s == "true" <==> flag
  {
    if flag then "true" else "false"
  }

  /** `list_federations`: GET `<base>/pelican/federations`. */
  function ListFederations(base: string, net: Outcome): (c: Call)
    ensures c.sent == Some(Request(Get, base + "/pelican/federations", map[], NoPayload))
    ensures net.Unreachable? ==> c.result == Failure(Raised(net.err))
    ensures c.result.Success? <==> net.Answered? && !IsHttpError(net.reply.status) && !net.reply.body.NotJson?
    ensures net.Answered? && !IsHttpError(net.reply.status) && net.reply.body.NotJson? ==>
      c.result == Failure(DecodeError(net.reply.body.why))
    ensures net.Answered? && IsHttpError(net.reply.status) ==>
      RaisesValueError(c, "Error listing federations: " + DetailOrError(net.reply))
  {
    Call(Some(Request(Get, base + "/pelican/federations", map[], NoPayload)),
         Decoded(Settle(net, (r: Reply) => "Error listing federations: " + DetailOrError(r))))
  }

  /**
   * The query of `browse_pelican` and `download_pelican`: the path, the
   * federation, and one flag (`detail` or `stream`) as "true"/"false".
   */
  function FlagQuery(path: string, federation: string, flagName: string, flag: bool): (p: map<string, Json>)
    requires flagName != "path" && flagName != "federation"
    ensures p.Keys == {"path", "federation", flagName}
    ensures p["path"] == JStr(path) && p["federation"] == JStr(federation)
    ensures p[flagName] == JStr(FlagParam(flag))
  {
    map["path" := JStr(path), "federation" := JStr(federation), flagName := JStr(FlagParam(flag))]
  }

  /** `browse_pelican`: GET `<base>/pelican/browse`; a 404 means the path is missing. */
  function BrowsePelican(base: string, net: Outcome, path: string,
                         federation: string := DefaultFederation, detail: bool := false): (c: Call)
    ensures c.sent == Some(Request(Get, base + "/pelican/browse", FlagQuery(path, federation, "detail", detail), NoPayload))
    ensures net.Unreachable? ==> c.result == Failure(Raised(net.err))
    ensures c.result.Success? <==> net.Answered? && !IsHttpError(net.reply.status) && !net.reply.body.NotJson?
    ensures net.Answered? && !IsHttpError(net.reply.status) && net.reply.body.NotJson? ==>
      c.result == Failure(DecodeError(net.reply.body.why))
    ensures net.Answered? && net.reply.status == 404 ==> RaisesValueError(c, "Path not found: " + path)
    ensures net.Answered? && IsHttpError(net.reply.status) && net.reply.status != 404 ==>
      RaisesValueError(c, "Error browsing Pelican: " + DetailOrError(net.reply))
  {
    Call(Some(Request(Get, base + "/pelican/browse", FlagQuery(path, federation, "detail", detail), NoPayload)),
         Decoded(Settle(net, (r: Reply) =>
           if r.status == 404 then "Path not found: " + path else "Error browsing Pelican: " + DetailOrError(r))))
  }

  /** A browse reports a missing path exactly on a 404, whatever the detail says. */
  lemma BrowseNotFoundIff(base: string, net: Outcome, path: string, federation: string, detail: bool)
    ensures RaisesValueError(BrowsePelican(base, net, path, federation, detail), "Path not found: " + path)
      <==> net.Answered? && net.reply.status == 404
  {
    if net.Answered? && IsHttpError(net.reply.status) && net.reply.status != 404 {
      var m := "Error browsing Pelican: " + DetailOrError(net.reply);
      assert m[0] != ("Path not found: " + path)[0];
    }
  }

  /** The query of `get_pelican_info`. */
  function InfoParams(path: string, federation: string): (p: map<string, Json>)
    ensures p.Keys == {"path", "federation"}
    ensures p["path"] == JStr(path) && p["federation"] == JStr(federation)
  {
    map["path" := JStr(path), "federation" := JStr(federation)]
  }

  /** `get_pelican_info`: GET `<base>/pelican/info`; a 404 means the file is missing. */
  function GetPelicanInfo(base: string, net: Outcome, path: string, federation: string := DefaultFederation): (c: Call)
    ensures c.sent == Some(Request(Get, base + "/pelican/info", InfoParams(path, federation), NoPayload))
    ensures net.Unreachable? ==> c.result == Failure(Raised(net.err))
    ensures c.result.Success? <==> net.Answered? && !IsHttpError(net.reply.status) && !net.reply.body.NotJson?
    ensures net.Answered? && !IsHttpError(net.reply.status) && net.reply.body.NotJson? ==>
      c.result == Failure(DecodeError(net.reply.body.why))
    ensures net.Answered? && net.reply.status == 404 ==> RaisesValueError(c, "File not found: " + path)
    ensures net.Answered? && IsHttpError(net.reply.status) && net.reply.status != 404 ==>
      RaisesValueError(c, "Error getting Pelican info: " + DetailOrError(net.reply))
  {
    Call(Some(Request(Get, base + "/pelican/info", InfoParams(path, federation), NoPayload)),
         Decoded(Settle(net, (r: Reply) =>
           if r.status == 404 then "File not found: " + path else "Error getting Pelican info: " + DetailOrError(r))))
  }

  /** An info request reports a missing file exactly on a 404. */
  lemma InfoNotFoundIff(base: string, net: Outcome, path: string, federation: string)
    ensures RaisesValueError(GetPelicanInfo(base, net, path, federation), "File not found: " + path)
      <==> net.Answered? && net.reply.status == 404
  {
    if net.Answered? && IsHttpError(net.reply.status) && net.reply.status != 404 {
      var m := "Error getting Pelican info: " + DetailOrError(net.reply);
      assert m[0] != ("File not found: " + path)[0];
    }
  }

  /** `download_pelican`: GET `<base>/pelican/download`; no status is singled out. */
  function DownloadPelican(base: string, net: Outcome, path: string,
                           federation: string := DefaultFederation, stream: bool := false): (c: Call)
    ensures c.sent == Some(Request(Get, base + "/pelican/download", FlagQuery(path, federation, "stream", stream), NoPayload))
    ensures net.Unreachable? ==> c.result == Failure(Raised(net.err))
    ensures c.result.Success? <==> net.Answered? && !IsHttpError(net.reply.status)
    ensures net.Answered? && !IsHttpError(net.reply.status) ==> c.result == Success(net.reply)
    ensures net.Answered? && IsHttpError(net.reply.status) ==>
      RaisesValueError(c, "Error downloading from Pelican: " + DetailOrError(net.reply))
  {
    Call(Some(Request(Get, base + "/pelican/download", FlagQuery(path, federation, "stream", stream), NoPayload)),
         Settle(net, (r: Reply) => "Error downloading from Pelican: " + DetailOrError(r)))
  }

  /** With no options, browse and download ask the "osdf" federation, without detail or streaming. */
  lemma PelicanDefaults(base: string, net: Outcome, path: string)
    ensures BrowsePelican(base, net, path).sent.value.params
      == map["path" := JStr(path), "federation" := JStr("osdf"), "detail" := JStr("false")]
    ensures DownloadPelican(base, net, path).sent.value.params
      == map["path" := JStr(path), "federation" := JStr("osdf"), "stream" := JStr("false")]
    ensures GetPelicanInfo(base, net, path).sent.value.params
      == map["path" := JStr(path), "federation" := JStr("osdf")]
  {
  }

  /** The body of `import_pelican_metadata`: URL and dataset always, name and description iff given. */
  function ImportPayload(pelicanUrl: string, packageId: string,
                         resourceName: Option<string>, resourceDescription: Option<string>): (p: map<string, Json>)
    ensures "pelican_url" in p && p["pelican_url"] == JStr(pelicanUrl)
    ensures "package_id" in p && p["package_id"] == JStr(packageId)
    ensures "resource_name" in p <==> resourceName.Some?
    ensures "resource_description" in p <==> resourceDescription.Some?
    ensures resourceName.Some? ==> p["resource_name"] == JStr(resourceName.value)
    ensures resourceDescription.Some? ==> p["resource_description"] == JStr(resourceDescription.value)
    ensures p.Keys <= {"pelican_url", "package_id", "resource_name", "resource_description"}
  {
    var p0 := map["pelican_url" := JStr(pelicanUrl), "package_id" := JStr(packageId)];
    var p1 := if resourceName.Some? then p0["resource_name" := JStr(resourceName.value)] else p0;
    if resourceDescription.Some? then p1["resource_description" := JStr(resourceDescription.value)] else p1
  }

  /**
   * `import_pelican_metadata`: a URL that does not start with "pelican://" is
   * refused before any request; otherwise the payload is POSTed to
   * `<base>/pelican/import-metadata` and no status is singled out.
   */
  function ImportPelicanMetadata(base: string, net: Outcome, pelicanUrl: string, packageId: string,
                                 resourceName: Option<string> := None,
                                 resourceDescription: Option<string> := None): (c: Call)
    ensures !StartsWith(pelicanUrl, "pelican://") ==> c == Call(None, Failure(ValueError(SchemeRequired)))
    ensures StartsWith(pelicanUrl, "pelican://") ==>
      c.sent == Some(Request(Post, base + "/pelican/import-metadata", map[],
                             JsonBody(ImportPayload(pelicanUrl, packageId, resourceName, resourceDescription))))
    ensures c.sent.Some? <==> StartsWith(pelicanUrl, "pelican://")
    ensures StartsWith(pelicanUrl, "pelican://") && net.Unreachable? ==> c.result == Failure(Raised(net.err))
    ensures c.result.Success? <==>
      StartsWith(pelicanUrl, "pelican://") && net.Answered? && !IsHttpError(net.reply.status)
      && !net.reply.body.NotJson?
    ensures (StartsWith(pelicanUrl, "pelican://") && net.Answered? && !IsHttpError(net.reply.status)
             && net.reply.body.NotJson?) ==> c.result == Failure(DecodeError(net.reply.body.why))
    ensures StartsWith(pelicanUrl, "pelican://") && net.Answered? && IsHttpError(net.reply.status) ==>
      RaisesValueError(c, "Error importing Pelican metadata: " + DetailOrError(net.reply))
  {
    if !StartsWith(pelicanUrl, "pelican://") then Call(None, Failure(ValueError(SchemeRequired)))
    else
      Call(Some(Request(Post, base + "/pelican/import-metadata", map[],
                        JsonBody(ImportPayload(pelicanUrl, packageId, resourceName, resourceDescription)))),
           Decoded(Settle(net, (r: Reply) => "Error importing Pelican metadata: " + DetailOrError(r))))
  }

  /** Only the scheme decides: "pelican://" and a path goes out, "https://" and the same path does not. */
  lemma ImportSchemeExamples(base: string, net: Outcome, path: string, packageId: string)
    ensures ImportPelicanMetadata(base, net, "pelican://" + path, packageId).sent.Some?
    ensures ImportPelicanMetadata(base, net, "https://" + path, packageId).sent.None?
  {
    StartsWithConcat("pelican://", path);
    assert "https://" + path == "h" + ("ttps://" + path);
    StartsWithConcat("h", "ttps://" + path);
    ExclusivePrefixes("https://" + path, "h", "pelican://", 0);
  }
}
