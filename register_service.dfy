/**
 * `register_service`: POST of the service description to `<base>/services`.
 * Three server complaints are recognised, in this order: the organisation
 * must be "services", the server is not configured, the service is a
 * duplicate.
 */
module RegisterService {
  import opened Wrappers
  import opened Text
  import opened Http
  import opened Registration

  const Prefix: string := "Error creating service: "
  const OwnerOrgNeedle: string := "owner_org must be 'services'"
  const ServerNeedle: string := "Server is not configured"
  const DuplicateNeedle: string := "Duplicate Service"
  const OwnerOrgMessage: string := Prefix + "owner_org must be 'services' for service registration"
  const ServerMessage: string := Prefix + "Server is not configured or unreachable"
  const DuplicateMessage: string := Prefix + "A service with the given name or URL already exists"

  const Rules: seq<Rule> := [
    Rule(OwnerOrgNeedle, Some(OwnerOrgMessage)),
    Rule(ServerNeedle, Some(ServerMessage)),
    Rule(DuplicateNeedle, Some(DuplicateMessage))
  ]

  /** The message a failed registration raises, given the detail. */
  function ServiceMessage(detail: string): string
  {
    Classify(Rules, Prefix, detail)
  }

  /**
   * Each recognised complaint gives its own fixed message, an earlier one
   * winning over a later one; any other detail is quoted after the prefix,
   * which every message starts with.
   */
  lemma ServiceMessages(detail: string)
    ensures Contains(detail, OwnerOrgNeedle) ==> ServiceMessage(detail) == OwnerOrgMessage
    ensures !Contains(detail, OwnerOrgNeedle) && Contains(detail, ServerNeedle) ==>
      ServiceMessage(detail) == ServerMessage
    ensures !Contains(detail, OwnerOrgNeedle) && !Contains(detail, ServerNeedle) && Contains(detail, DuplicateNeedle) ==>
      ServiceMessage(detail) == DuplicateMessage
    ensures !Contains(detail, OwnerOrgNeedle) && !Contains(detail, ServerNeedle) && !Contains(detail, DuplicateNeedle) ==>
      ServiceMessage(detail) == Prefix + detail
    ensures StartsWith(ServiceMessage(detail), Prefix)
  {
    if Contains(detail, OwnerOrgNeedle) {
      ClassifyFirstMatch(Rules, Prefix, detail, 0);
    } else if Contains(detail, ServerNeedle) {
      ClassifyFirstMatch(Rules, Prefix, detail, 1);
    } else if Contains(detail, DuplicateNeedle) {
      ClassifyFirstMatch(Rules, Prefix, detail, 2);
    } else {
      ClassifyNoMatch(Rules, Prefix, detail);
    }
    StartsWithConcat(Prefix, "owner_org must be 'services' for service registration");
    StartsWithConcat(Prefix, "Server is not configured or unreachable");
    StartsWithConcat(Prefix, "A service with the given name or URL already exists");
    ClassifyPrefixed(Rules, Prefix, detail);
  }

  /** `register_service`, on the "local" server unless told otherwise. */
  function RegisterService(base: string, net: Outcome, data: map<string, Json>, server: string := "local"): (c: Call)
    ensures c.sent == Some(Request(Post, base + "/services", map["server" := JStr(server)], JsonBody(data)))
    ensures net.Unreachable? ==> c.result == Failure(Raised(net.err))
    ensures c.result.Success? <==> net.Answered? && !IsHttpError(net.reply.status) && !net.reply.body.NotJson?
    ensures net.Answered? && !IsHttpError(net.reply.status) && net.reply.body.NotJson? ==>
      c.result == Failure(DecodeError(net.reply.body.why))
    ensures net.Answered? && IsHttpError(net.reply.status) ==>
      RaisesValueError(c, ServiceMessage(DetailOrError(net.reply)))
  {
    Register("/services", Rules, Prefix, base, net, data, server)
  }

  /** Every refused registration carries the service prefix. */
  lemma ServiceErrorsPrefixed(base: string, net: Outcome, data: map<string, Json>, server: string)
    ensures net.Answered? && IsHttpError(net.reply.status) ==>
      RaisesWithPrefix(RegisterService(base, net, data, server), Prefix)
  {
    if net.Answered? && IsHttpError(net.reply.status) {
      ServiceMessages(DetailOrError(net.reply));
    }
  }
}
