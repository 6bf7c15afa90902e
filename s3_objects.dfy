/**
 * Objects in the S3-compatible store: listing a bucket, uploading, and, for
 * one object, downloading, deleting, reading its metadata and asking for
 * presigned upload and download URLs. All live under
 * `<base>/s3/objects/<bucket>`; only the operations on an existing object
 * single out a 404.
 */
module S3Objects {
  import opened Wrappers
  import opened Text
  import opened Http

  function BucketUrl(base: string, bucket: string): string
  {
    base + "/s3/objects/" + bucket
  }

  function ObjectUrl(base: string, bucket: string, key: string): string
  {
    BucketUrl(base, bucket) + "/" + key
  }

  /** The message of a 404 on an existing-object operation; it ignores the server's detail. */
  function ObjectNotFound(bucket: string, key: string): string
  {
    "S3 object '" + key + "' not found in bucket '" + bucket + "'"
  }

  const ListFailurePrefix: string := "Error listing S3 objects: "
  const UploadFailurePrefix: string := "Error uploading S3 object: "

  /** The query of `list_objects`: `prefix` only when it is a non-empty string. */
  function ListParams(prefix: Option<string>): (p: map<string, Json>)
    ensures "prefix" in p <==> Truthy(prefix)
    ensures Truthy(prefix) ==> p["prefix"] == JStr(prefix.value)
    ensures p.Keys <= {"prefix"}
  {
    if Truthy(prefix) then map["prefix" := JStr(prefix.value)] else map[]
  }

  /** `list_objects`: GET `<base>/s3/objects/<bucket>`; no status is singled out. */
  function ListObjects(base: string, net: Outcome, bucket: string, prefix: Option<string> := None): (c: Call)
    ensures c.sent == Some(Request(Get, BucketUrl(base, bucket), ListParams(prefix), NoPayload))
    ensures net.Unreachable? ==> c.result == Failure(Raised(net.err))
    ensures c.result.Success? <==> net.Answered? && !IsHttpError(net.reply.status) && !net.reply.body.NotJson?
    ensures net.Answered? && !IsHttpError(net.reply.status) && net.reply.body.NotJson? ==>
      c.result == Failure(DecodeError(net.reply.body.why))
    ensures net.Answered? && IsHttpError(net.reply.status) ==>
      RaisesValueError(c, ListFailurePrefix + DetailOrError(net.reply))
  {
    Call(Some(Request(Get, BucketUrl(base, bucket), ListParams(prefix), NoPayload)),
         Decoded(Settle(net, (r: Reply) => ListFailurePrefix + DetailOrError(r))))
  }

  /** An empty prefix filters nothing: it is left out of the query like a missing one. */
  lemma ListEmptyPrefix(base: string, net: Outcome, bucket: string)
    ensures ListObjects(base, net, bucket, Some("")) == ListObjects(base, net, bucket)
    ensures ListObjects(base, net, bucket).sent.value.params == map[]
  {
  }

  /**
   * The body of `upload_object`: one file part in the field "file", named
   * after the key, and the key again as a form field.
   */
  function UploadPayload(key: string, content: seq<bv8>, contentType: Option<string>): (p: Payload)
    ensures p.Multipart? && p.field == "file"
    ensures p.fileName == key && p.content == content && p.contentType == contentType
    ensures p.form.Keys == {"object_key"} && p.form["object_key"] == key
  {
    Multipart("file", key, content, contentType, map["object_key" := key])
  }

  /** `upload_object`: POST of the file to `<base>/s3/objects/<bucket>`; no status is singled out. */
  function UploadObject(base: string, net: Outcome, bucket: string, key: string, content: seq<bv8>,
                        contentType: Option<string> := None): (c: Call)
    ensures c.sent == Some(Request(Post, BucketUrl(base, bucket), map[], UploadPayload(key, content, contentType)))
    ensures net.Unreachable? ==> c.result == Failure(Raised(net.err))
    ensures c.result.Success? <==> net.Answered? && !IsHttpError(net.reply.status) && !net.reply.body.NotJson?
    ensures net.Answered? && !IsHttpError(net.reply.status) && net.reply.body.NotJson? ==>
      c.result == Failure(DecodeError(net.reply.body.why))
    ensures net.Answered? && IsHttpError(net.reply.status) ==>
      RaisesValueError(c, UploadFailurePrefix + DetailOrError(net.reply))
  {
    Call(Some(Request(Post, BucketUrl(base, bucket), map[], UploadPayload(key, content, contentType))),
         Decoded(Settle(net, (r: Reply) => UploadFailurePrefix + DetailOrError(r))))
  }

  /** The operations on one existing object, which turn a 404 into the not-found message. */
  datatype ObjectOp = DownloadObject | DeleteObject | GetObjectMetadata

  function OpVerb(op: ObjectOp): Verb
  {
    match op
    case DownloadObject => Get
    case DeleteObject => Delete
    case GetObjectMetadata => Get
  }

  function OpUrl(op: ObjectOp, base: string, bucket: string, key: string): string
  {
    match op
    case GetObjectMetadata => ObjectUrl(base, bucket, key) + "/metadata"
    case _ => ObjectUrl(base, bucket, key)
  }

  function OpFailurePrefix(op: ObjectOp): string
  {
    match op
    case DownloadObject => "Error downloading S3 object: "
    case DeleteObject => "Error deleting S3 object: "
    case GetObjectMetadata => "Error getting S3 object metadata: "
  }

  /**
   * `download_object`, `delete_object`, `get_object_metadata`: one request
   * without query or body; a 404 names the object and the bucket, any other
   * error status gives the operation's prefix and the detail (or the error
   * text). A download hands back the raw content; the other two decode it.
   */
  function ObjectCall(op: ObjectOp, base: string, net: Outcome, bucket: string, key: string): (c: Call)
    ensures c.sent == Some(Request(OpVerb(op), OpUrl(op, base, bucket, key), map[], NoPayload))
    ensures net.Unreachable? ==> c.result == Failure(Raised(net.err))
    ensures c.result.Success? <==>
      net.Answered? && !IsHttpError(net.reply.status) && (op == DownloadObject || !net.reply.body.NotJson?)
    ensures op == DownloadObject && net.Answered? && !IsHttpError(net.reply.status) ==> c.result == Success(net.reply)
    ensures (op != DownloadObject && net.Answered? && !IsHttpError(net.reply.status) && net.reply.body.NotJson?)
      ==> c.result == Failure(DecodeError(net.reply.body.why))
    ensures net.Answered? && net.reply.status == 404 ==> RaisesValueError(c, ObjectNotFound(bucket, key))
    ensures net.Answered? && IsHttpError(net.reply.status) && net.reply.status != 404 ==>
      RaisesValueError(c, OpFailurePrefix(op) + DetailOrError(net.reply))
  {
    var settled := Settle(net, (r: Reply) =>
      if r.status == 404 then ObjectNotFound(bucket, key) else OpFailurePrefix(op) + DetailOrError(r));
    Call(Some(Request(OpVerb(op), OpUrl(op, base, bucket, key), map[], NoPayload)),
         if op == DownloadObject then settled else Decoded(settled))
  }

  /** An object operation reports the missing object exactly on a 404, whatever the detail says. */
  lemma ObjectNotFoundIff(op: ObjectOp, base: string, net: Outcome, bucket: string, key: string)
    ensures RaisesValueError(ObjectCall(op, base, net, bucket, key), ObjectNotFound(bucket, key))
      <==> net.Answered? && net.reply.status == 404
  {
    if net.Answered? && IsHttpError(net.reply.status) && net.reply.status != 404 {
      var m := OpFailurePrefix(op) + DetailOrError(net.reply);
      assert m[0] == 'E';
      assert ObjectNotFound(bucket, key)[0] == 'S';
    }
  }

  /** The body of the presigned-URL requests: `expiration` only when it is given and not zero. */
  function PresignedBody(expiration: Option<int>): (d: map<string, Json>)
    ensures "expiration" in d <==> expiration.Some? && expiration.value != 0
    ensures "expiration" in d ==> d["expiration"] == JInt(expiration.value)
    ensures d.Keys <= {"expiration"}
  {
    if expiration.Some? && expiration.value != 0 then map["expiration" := JInt(expiration.value)] else map[]
  }

  /** The two presigned-URL requests. */
  datatype Direction = PresignUpload | PresignDownload

  function PresignedUrl(dir: Direction, base: string, bucket: string, key: string): string
  {
    match dir
    case PresignUpload => ObjectUrl(base, bucket, key) + "/presigned-upload"
    case PresignDownload => ObjectUrl(base, bucket, key) + "/presigned-download"
  }

  function PresignedFailurePrefix(dir: Direction): string
  {
    match dir
    case PresignUpload => "Error generating presigned upload URL: "
    case PresignDownload => "Error generating presigned download URL: "
  }

  /**
   * `generate_presigned_upload_url`, `generate_presigned_download_url`: a
   * POST whose JSON body holds the expiration when one is set; no status is
   * singled out.
   */
  function PresignedCall(dir: Direction, base: string, net: Outcome, bucket: string, key: string,
                         expiration: Option<int> := None): (c: Call)
    ensures c.sent == Some(Request(Post, PresignedUrl(dir, base, bucket, key), map[], JsonBody(PresignedBody(expiration))))
    ensures net.Unreachable? ==> c.result == Failure(Raised(net.err))
    ensures c.result.Success? <==> net.Answered? && !IsHttpError(net.reply.status) && !net.reply.body.NotJson?
    ensures net.Answered? && !IsHttpError(net.reply.status) && net.reply.body.NotJson? ==>
      c.result == Failure(DecodeError(net.reply.body.why))
    ensures net.Answered? && IsHttpError(net.reply.status) ==>
      RaisesValueError(c, PresignedFailurePrefix(dir) + DetailOrError(net.reply))
  {
    Call(Some(Request(Post, PresignedUrl(dir, base, bucket, key), map[], JsonBody(PresignedBody(expiration)))),
         Decoded(Settle(net, (r: Reply) => PresignedFailurePrefix(dir) + DetailOrError(r))))
  }

  /** An expiration of zero is sent like none at all: an empty JSON object. */
  lemma PresignedZeroExpiration(dir: Direction, base: string, net: Outcome, bucket: string, key: string)
    ensures PresignedCall(dir, base, net, bucket, key, Some(0)) == PresignedCall(dir, base, net, bucket, key)
    ensures PresignedCall(dir, base, net, bucket, key).sent.value.payload == JsonBody(map[])
  {
  }

  /**
   * Listing, uploading and presigning never report a missing object, whatever
   * the status: their every `ValueError` starts with "Error".
   */
  lemma OnlyObjectOpsReportMissing(dir: Direction, base: string, net: Outcome, bucket: string, key: string,
                                   prefix: Option<string>, content: seq<bv8>, contentType: Option<string>,
                                   expiration: Option<int>)
    ensures !RaisesValueError(ListObjects(base, net, bucket, prefix), ObjectNotFound(bucket, key))
    ensures !RaisesValueError(UploadObject(base, net, bucket, key, content, contentType), ObjectNotFound(bucket, key))
    ensures !RaisesValueError(PresignedCall(dir, base, net, bucket, key, expiration), ObjectNotFound(bucket, key))
  {
    ListNeverMissing(base, net, bucket, key, prefix);
    UploadNeverMissing(base, net, bucket, key, content, contentType);
    PresignNeverMissing(dir, base, net, bucket, key, expiration);
  }

  /** A listing's every `ValueError` starts with its own prefix, never with the not-found message. */
  lemma ListNeverMissing(base: string, net: Outcome, bucket: string, key: string, prefix: Option<string>)
    ensures !RaisesValueError(ListObjects(base, net, bucket, prefix), ObjectNotFound(bucket, key))
  {
    if net.Answered? && IsHttpError(net.reply.status) {
      NotObjectNotFound(ListFailurePrefix, DetailOrError(net.reply), bucket, key);
    }
  }

  /** Likewise for an upload. */
  lemma UploadNeverMissing(base: string, net: Outcome, bucket: string, key: string,
                           content: seq<bv8>, contentType: Option<string>)
    ensures !RaisesValueError(UploadObject(base, net, bucket, key, content, contentType), ObjectNotFound(bucket, key))
  {
    if net.Answered? && IsHttpError(net.reply.status) {
      NotObjectNotFound(UploadFailurePrefix, DetailOrError(net.reply), bucket, key);
    }
  }

  /** Likewise for a presigned-URL request. */
  lemma PresignNeverMissing(dir: Direction, base: string, net: Outcome, bucket: string, key: string,
                            expiration: Option<int>)
    ensures !RaisesValueError(PresignedCall(dir, base, net, bucket, key, expiration), ObjectNotFound(bucket, key))
  {
    if net.Answered? && IsHttpError(net.reply.status) {
      NotObjectNotFound(PresignedFailurePrefix(dir), DetailOrError(net.reply), bucket, key);
    }
  }

  /** A message that starts with "E" is not the not-found message, which starts with "S". */
  lemma NotObjectNotFound(p: string, d: string, bucket: string, key: string)
    requires |p| > 0 && p[0] == 'E'
    ensures p + d != ObjectNotFound(bucket, key)
  {
    assert (p + d)[0] == 'E';
    assert ObjectNotFound(bucket, key)[0] == 'S';
  }

  /** Every URL of an object lies under its bucket's URL. */
  lemma UrlsUnderBucket(op: ObjectOp, dir: Direction, base: string, bucket: string, key: string)
    ensures StartsWith(OpUrl(op, base, bucket, key), BucketUrl(base, bucket) + "/" + key)
    ensures StartsWith(PresignedUrl(dir, base, bucket, key), BucketUrl(base, bucket) + "/" + key)
  {
    var u := BucketUrl(base, bucket) + "/" + key;
    StartsWithConcat(u, "/metadata");
    StartsWithConcat(u, "");
    assert u + "" == u;
    StartsWithConcat(u, "/presigned-upload");
    StartsWithConcat(u, "/presigned-download");
  }
}
