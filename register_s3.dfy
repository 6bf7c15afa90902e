/**
 * `register_s3_link`: POST of the S3 link description to `<base>/s3`. A
 * missing organisation and a reserved key are recognised, in this order; an
 * invalid input is tested for next but reported like any other detail.
 */
module RegisterS3 {
  import opened Wrappers
  import opened Text
  import opened Http
  import opened Registration

  const Prefix: string := "Error creating S3 resource: "
  const OrganizationNeedle: string := "Organization does not exist"
  const ReservedNeedle: string := "Reserved key error"
  const InvalidNeedle: string := "Invalid input"
  const OrganizationMessage: string := Prefix + "Organization (owner_org) does not exist"
  const ReservedMessage: string := Prefix + "Reserved key conflict."

  const Rules: seq<Rule> := [
    Rule(OrganizationNeedle, Some(OrganizationMessage)),
    Rule(ReservedNeedle, Some(ReservedMessage)),
    Rule(InvalidNeedle, None)
  ]

  /** The message a failed registration raises, given the detail. */
  function S3Message(detail: string): string
  {
    Classify(Rules, Prefix, detail)
  }

  /**
   * A missing organisation, then a reserved key, give their fixed messages;
   * every other detail, an invalid input included, is quoted after the
   * prefix, which every message starts with.
   */
  lemma S3Messages(detail: string)
    ensures Contains(detail, OrganizationNeedle) ==> S3Message(detail) == OrganizationMessage
    ensures !Contains(detail, OrganizationNeedle) && Contains(detail, ReservedNeedle) ==>
      S3Message(detail) == ReservedMessage
    ensures !Contains(detail, OrganizationNeedle) && !Contains(detail, ReservedNeedle) ==>
      S3Message(detail) == Prefix + detail
    ensures StartsWith(S3Message(detail), Prefix)
  {
    if Contains(detail, OrganizationNeedle) {
      ClassifyFirstMatch(Rules, Prefix, detail, 0);
    } else if Contains(detail, ReservedNeedle) {
      ClassifyFirstMatch(Rules, Prefix, detail, 1);
    } else if Contains(detail, InvalidNeedle) {
      ClassifyFirstMatch(Rules, Prefix, detail, 2);
    } else {
      ClassifyNoMatch(Rules, Prefix, detail);
    }
    StartsWithConcat(Prefix, "Organization (owner_org) does not exist");
    StartsWithConcat(Prefix, "Reserved key conflict.");
    ClassifyPrefixed(Rules, Prefix, detail);
  }

  /** `register_s3_link`, on the "local" server unless told otherwise. */
  function RegisterS3Link(base: string, net: Outcome, data: map<string, Json>, server: string := "local"): (c: Call)
    ensures c.sent == Some(Request(Post, base + "/s3", map["server" := JStr(server)], JsonBody(data)))
    ensures net.Unreachable? ==> c.result == Failure(Raised(net.err))
    ensures c.result.Success? <==> net.Answered? && !IsHttpError(net.reply.status) && !net.reply.body.NotJson?
    ensures net.Answered? && !IsHttpError(net.reply.status) && net.reply.body.NotJson? ==>
      c.result == Failure(DecodeError(net.reply.body.why))
    ensures net.Answered? && IsHttpError(net.reply.status) ==>
      RaisesValueError(c, S3Message(DetailOrError(net.reply)))
  {
    Register("/s3", Rules, Prefix, base, net, data, server)
  }

  /** Every refused registration carries the S3 prefix. */
  lemma S3ErrorsPrefixed(base: string, net: Outcome, data: map<string, Json>, server: string)
    ensures net.Answered? && IsHttpError(net.reply.status) ==>
      RaisesWithPrefix(RegisterS3Link(base, net, data, server), Prefix)
  {
    if net.Answered? && IsHttpError(net.reply.status) {
      S3Messages(DetailOrError(net.reply));
    }
  }
}
