/**
 * `register_url`: POST of the URL resource description to `<base>/url`. A
 * missing organisation and a name already taken are recognised, in this
 * order.
 */
module RegisterUrl {
  import opened Wrappers
  import opened Text
  import opened Http
  import opened Registration

  const Prefix: string := "Error creating URL resource: "
  const OrganizationNeedle: string := "Organization does not exist"
  const NameNeedle: string := "Group name already exists in database"
  const OrganizationMessage: string := Prefix + "Organization (owner_org) does not exist."
  const NameMessage: string := Prefix + "Name already exists."

  const Rules: seq<Rule> := [
    Rule(OrganizationNeedle, Some(OrganizationMessage)),
    Rule(NameNeedle, Some(NameMessage))
  ]

  /** The message a failed registration raises, given the detail. */
  function UrlMessage(detail: string): string
  {
    Classify(Rules, Prefix, detail)
  }

  /**
   * A missing organisation wins over a taken name; any other detail is
   * quoted after the prefix, which every message starts with.
   */
  lemma UrlMessages(detail: string)
    ensures Contains(detail, OrganizationNeedle) ==> UrlMessage(detail) == OrganizationMessage
    ensures !Contains(detail, OrganizationNeedle) && Contains(detail, NameNeedle) ==> UrlMessage(detail) == NameMessage
    ensures !Contains(detail, OrganizationNeedle) && !Contains(detail, NameNeedle) ==> UrlMessage(detail) == Prefix + detail
    ensures StartsWith(UrlMessage(detail), Prefix)
  {
    if Contains(detail, OrganizationNeedle) {
      ClassifyFirstMatch(Rules, Prefix, detail, 0);
    } else if Contains(detail, NameNeedle) {
      ClassifyFirstMatch(Rules, Prefix, detail, 1);
    } else {
      ClassifyNoMatch(Rules, Prefix, detail);
    }
    StartsWithConcat(Prefix, "Organization (owner_org) does not exist.");
    StartsWithConcat(Prefix, "Name already exists.");
    ClassifyPrefixed(Rules, Prefix, detail);
  }

  /** `register_url`, on the "local" server unless told otherwise. */
  function RegisterUrl(base: string, net: Outcome, data: map<string, Json>, server: string := "local"): (c: Call)
    ensures c.sent == Some(Request(Post, base + "/url", map["server" := JStr(server)], JsonBody(data)))
    ensures net.Unreachable? ==> c.result == Failure(Raised(net.err))
    ensures c.result.Success? <==> net.Answered? && !IsHttpError(net.reply.status) && !net.reply.body.NotJson?
    ensures net.Answered? && !IsHttpError(net.reply.status) && net.reply.body.NotJson? ==>
      c.result == Failure(DecodeError(net.reply.body.why))
    ensures net.Answered? && IsHttpError(net.reply.status) ==>
      RaisesValueError(c, UrlMessage(DetailOrError(net.reply)))
  {
    Register("/url", Rules, Prefix, base, net, data, server)
  }

  /** Every refused registration carries the URL-resource prefix. */
  lemma UrlErrorsPrefixed(base: string, net: Outcome, data: map<string, Json>, server: string)
    ensures net.Answered? && IsHttpError(net.reply.status) ==>
      RaisesWithPrefix(RegisterUrl(base, net, data, server), Prefix)
  {
    if net.Answered? && IsHttpError(net.reply.status) {
      UrlMessages(DetailOrError(net.reply));
    }
  }
}
