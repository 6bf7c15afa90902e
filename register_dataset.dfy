/**
 * `register_general_dataset`: POST of the dataset description to
 * `<base>/dataset`. An unconfigured server and a duplicate dataset are
 * recognised, in this order.
 */
module RegisterDataset {
  import opened Wrappers
  import opened Text
  import opened Http
  import opened Registration

  const Prefix: string := "Error creating dataset: "
  const ServerNeedle: string := "Server is not configured"
  const DuplicateNeedle: string := "Duplicate Dataset"
  const ServerMessage: string := Prefix + "Server is not configured or unreachable"
  const DuplicateMessage: string := Prefix + "A dataset with the given name already exists"

  const Rules: seq<Rule> := [
    Rule(ServerNeedle, Some(ServerMessage)),
    Rule(DuplicateNeedle, Some(DuplicateMessage))
  ]

  /** The message a failed registration raises, given the detail. */
  function DatasetMessage(detail: string): string
  {
    Classify(Rules, Prefix, detail)
  }

  /**
   * An unconfigured server wins over a duplicate; any other detail is quoted
   * after the prefix, which every message starts with.
   */
  lemma DatasetMessages(detail: string)
    ensures Contains(detail, ServerNeedle) ==> DatasetMessage(detail) == ServerMessage
    ensures !Contains(detail, ServerNeedle) && Contains(detail, DuplicateNeedle) ==>
      DatasetMessage(detail) == DuplicateMessage
    ensures !Contains(detail, ServerNeedle) && !Contains(detail, DuplicateNeedle) ==>
      DatasetMessage(detail) == Prefix + detail
    ensures StartsWith(DatasetMessage(detail), Prefix)
  {
    if Contains(detail, ServerNeedle) {
      ClassifyFirstMatch(Rules, Prefix, detail, 0);
    } else if Contains(detail, DuplicateNeedle) {
      ClassifyFirstMatch(Rules, Prefix, detail, 1);
    } else {
      ClassifyNoMatch(Rules, Prefix, detail);
    }
    StartsWithConcat(Prefix, "Server is not configured or unreachable");
    StartsWithConcat(Prefix, "A dataset with the given name already exists");
    ClassifyPrefixed(Rules, Prefix, detail);
  }

  /** `register_general_dataset`, on the "local" server unless told otherwise. */
  function RegisterGeneralDataset(base: string, net: Outcome, data: map<string, Json>, server: string := "local")
    : (c: Call)
    ensures c.sent == Some(Request(Post, base + "/dataset", map["server" := JStr(server)], JsonBody(data)))
    ensures net.Unreachable? ==> c.result == Failure(Raised(net.err))
    ensures c.result.Success? <==> net.Answered? && !IsHttpError(net.reply.status) && !net.reply.body.NotJson?
    ensures net.Answered? && !IsHttpError(net.reply.status) && net.reply.body.NotJson? ==>
      c.result == Failure(DecodeError(net.reply.body.why))
    ensures net.Answered? && IsHttpError(net.reply.status) ==>
      RaisesValueError(c, DatasetMessage(DetailOrError(net.reply)))
  {
    Register("/dataset", Rules, Prefix, base, net, data, server)
  }

  /** Every refused registration carries the dataset prefix. */
  lemma DatasetErrorsPrefixed(base: string, net: Outcome, data: map<string, Json>, server: string)
    ensures net.Answered? && IsHttpError(net.reply.status) ==>
      RaisesWithPrefix(RegisterGeneralDataset(base, net, data, server), Prefix)
  {
    if net.Answered? && IsHttpError(net.reply.status) {
      DatasetMessages(DetailOrError(net.reply));
    }
  }
}
