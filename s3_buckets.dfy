/**
 * Buckets in the S3-compatible store: listing and creating them through
 * `<base>/s3/buckets/` (with its trailing slash), and reading or deleting
 * one through `<base>/s3/buckets/<name>`, where a 404 names the bucket.
 */
module S3Buckets {
  import opened Wrappers
  import opened Text
  import opened Http

  /** The collection URL, trailing slash included. */
  function BucketsUrl(base: string): string
  {
    base + "/s3/buckets/"
  }

  function BucketUrl(base: string, name: string): string
  {
    base + "/s3/buckets/" + name
  }

  /** The message of a 404 on an existing-bucket operation; it ignores the server's detail. */
  function BucketNotFound(name: string): string
  {
    "S3 bucket '" + name + "' not found"
  }

  const ListFailurePrefix: string := "Error listing S3 buckets: "
  const CreateFailurePrefix: string := "Error creating S3 bucket: "

  /** `list_buckets`: GET of the collection; no status is singled out. */
  function ListBuckets(base: string, net: Outcome): (c: Call)
    ensures c.sent == Some(Request(Get, BucketsUrl(base), map[], NoPayload))
    ensures net.Unreachable? ==> c.result == Failure(Raised(net.err))
    ensures c.result.Success? <==> net.Answered? && !IsHttpError(net.reply.status) && !net.reply.body.NotJson?
    ensures net.Answered? && !IsHttpError(net.reply.status) && net.reply.body.NotJson? ==>
      c.result == Failure(DecodeError(net.reply.body.why))
    ensures net.Answered? && IsHttpError(net.reply.status) ==>
      RaisesValueError(c, ListFailurePrefix + DetailOrError(net.reply))
  {
    Call(Some(Request(Get, BucketsUrl(base), map[], NoPayload)),
         Decoded(Settle(net, (r: Reply) => ListFailurePrefix + DetailOrError(r))))
  }

  /**
   * The body of `create_bucket`, `{"name": name, **options}`: the name and
   * every option, where an option called "name" replaces the positional name.
   */
  function CreateBody(name: string, options: map<string, Json>): (d: map<string, Json>)
    ensures d.Keys == options.Keys + {"name"}
    ensures forall k :: k in options ==> d[k] == options[k]
    ensures "name" !in options ==> d["name"] == JStr(name)
  {
    map["name" := JStr(name)] + options
  }

  /** Without options the body is the name alone. */
  lemma CreateBodyPlain(name: string)
    ensures CreateBody(name, map[]) == map["name" := JStr(name)]
  {
  }

  /** `create_bucket`: POST of the body to the collection; no status is singled out. */
  function CreateBucket(base: string, net: Outcome, name: string, options: map<string, Json> := map[]): (c: Call)
    ensures c.sent == Some(Request(Post, BucketsUrl(base), map[], JsonBody(CreateBody(name, options))))
    ensures net.Unreachable? ==> c.result == Failure(Raised(net.err))
    ensures c.result.Success? <==> net.Answered? && !IsHttpError(net.reply.status) && !net.reply.body.NotJson?
    ensures net.Answered? && !IsHttpError(net.reply.status) && net.reply.body.NotJson? ==>
      c.result == Failure(DecodeError(net.reply.body.why))
    ensures net.Answered? && IsHttpError(net.reply.status) ==>
      RaisesValueError(c, CreateFailurePrefix + DetailOrError(net.reply))
  {
    Call(Some(Request(Post, BucketsUrl(base), map[], JsonBody(CreateBody(name, options)))),
         Decoded(Settle(net, (r: Reply) => CreateFailurePrefix + DetailOrError(r))))
  }

  /** The operations on one existing bucket, which turn a 404 into the not-found message. */
  datatype BucketOp = GetBucketInfo | DeleteBucket

  function OpVerb(op: BucketOp): Verb
  {
    match op
    case GetBucketInfo => Get
    case DeleteBucket => Delete
  }

  function OpFailurePrefix(op: BucketOp): string
  {
    match op
    case GetBucketInfo => "Error getting S3 bucket info: "
    case DeleteBucket => "Error deleting S3 bucket: "
  }

  /**
   * `get_bucket_info`, `delete_bucket`: one request to `<base>/s3/buckets/<name>`;
   * a 404 names the bucket, any other error status gives the operation's
   * prefix and the detail (or the error text).
   */
  function BucketCall(op: BucketOp, base: string, net: Outcome, name: string): (c: Call)
    ensures c.sent == Some(Request(OpVerb(op), BucketUrl(base, name), map[], NoPayload))
    ensures net.Unreachable? ==> c.result == Failure(Raised(net.err))
    ensures c.result.Success? <==> net.Answered? && !IsHttpError(net.reply.status) && !net.reply.body.NotJson?
    ensures net.Answered? && !IsHttpError(net.reply.status) && net.reply.body.NotJson? ==>
      c.result == Failure(DecodeError(net.reply.body.why))
    ensures net.Answered? && net.reply.status == 404 ==> RaisesValueError(c, BucketNotFound(name))
    ensures net.Answered? && IsHttpError(net.reply.status) && net.reply.status != 404 ==>
      RaisesValueError(c, OpFailurePrefix(op) + DetailOrError(net.reply))
  {
    Call(Some(Request(OpVerb(op), BucketUrl(base, name), map[], NoPayload)),
         Decoded(Settle(net, (r: Reply) =>
           if r.status == 404 then BucketNotFound(name) else OpFailurePrefix(op) + DetailOrError(r))))
  }

  /** A bucket operation reports the missing bucket exactly on a 404, whatever the detail says. */
  lemma BucketNotFoundIff(op: BucketOp, base: string, net: Outcome, name: string)
    ensures RaisesValueError(BucketCall(op, base, net, name), BucketNotFound(name))
      <==> net.Answered? && net.reply.status == 404
  {
    if net.Answered? && IsHttpError(net.reply.status) && net.reply.status != 404 {
      var m := OpFailurePrefix(op) + DetailOrError(net.reply);
      assert m[0] == 'E';
      assert BucketNotFound(name)[0] == 'S';
    }
  }

  /** Listing and creating never report a missing bucket, whatever the status. */
  lemma CollectionNeverNotFound(base: string, net: Outcome, name: string, other: string, options: map<string, Json>)
    ensures !RaisesValueError(ListBuckets(base, net), BucketNotFound(other))
    ensures !RaisesValueError(CreateBucket(base, net, name, options), BucketNotFound(other))
  {
    assert BucketNotFound(other)[0] == 'S';
    if net.Answered? && IsHttpError(net.reply.status) {
      assert (ListFailurePrefix + DetailOrError(net.reply))[0] == 'E';
      assert (CreateFailurePrefix + DetailOrError(net.reply))[0] == 'E';
    }
  }

  /**
   * The collection URL is the bucket URL of the empty name: listing and
   * creating go to `<base>/s3/buckets/`, not to `<base>/s3/buckets`.
   */
  lemma CollectionUrlSlash(base: string)
    ensures BucketsUrl(base) == BucketUrl(base, "")
    ensures BucketsUrl(base)[|BucketsUrl(base)| - 1] == '/'
  {
  }
}
