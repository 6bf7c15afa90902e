/**
 * What the four registration calls (service, S3 link, URL resource, general
 * dataset) share: the data is POSTed unchanged with a `server` query, and a
 * failure's detail is run through an ordered chain of substring tests, the
 * first test that matches choosing the message.
 */
module Registration {
  import opened Wrappers
  import opened Text
  import opened Http

  /**
   * One link of the chain: when the detail contains `needle`, the message is
   * `fixed`, or, when there is none, the prefix followed by the detail.
   */
  datatype Rule = Rule(needle: string, fixed: Option<string>)

  /** The message a matching rule gives. */
  function RuleMessage(rule: Rule, prefix: string, detail: string): string
  {
    if rule.fixed.Some? then rule.fixed.value else prefix + detail
  }

  /** Rule `i` is the first whose needle occurs in the detail. */
  predicate FirstMatch(rules: seq<Rule>, detail: string, i: int)
  {
    && 0 <= i < |rules|
    && Contains(detail, rules[i].needle)
    && forall j :: 0 <= j < i ==> !Contains(detail, rules[j].needle)
  }

  /** No needle occurs in the detail. */
  predicate NoMatch(rules: seq<Rule>, detail: string)
  {
    forall j :: 0 <= j < |rules| ==> !Contains(detail, rules[j].needle)
  }

  /** The `if`/`elif`/`else` chain: the rules tried in order, the prefix and the detail when none matches. */
  function Classify(rules: seq<Rule>, prefix: string, detail: string): string
    decreases |rules|
  {
    if |rules| == 0 then prefix + detail
    else if Contains(detail, rules[0].needle) then RuleMessage(rules[0], prefix, detail)
    else Classify(rules[1..], prefix, detail)
  }

  /** The first matching rule decides, whatever the later ones would say. */
  lemma {:induction false} ClassifyFirstMatch(rules: seq<Rule>, prefix: string, detail: string, i: int)
    requires FirstMatch(rules, detail, i)
    ensures Classify(rules, prefix, detail) == RuleMessage(rules[i], prefix, detail)
    decreases |rules|
  {
    if i > 0 {
      assert !Contains(detail, rules[0].needle);
      ClassifyFirstMatch(rules[1..], prefix, detail, i - 1);
    }
  }

  /** When no rule matches, the message is the prefix and the detail. */
  lemma {:induction false} ClassifyNoMatch(rules: seq<Rule>, prefix: string, detail: string)
    requires NoMatch(rules, detail)
    ensures Classify(rules, prefix, detail) == prefix + detail
    decreases |rules|
  {
    if |rules| > 0 {
      assert !Contains(detail, rules[0].needle);
      ClassifyNoMatch(rules[1..], prefix, detail);
    }
  }

  /** When every fixed message carries the prefix, so does every outcome. */
  lemma {:induction false} ClassifyPrefixed(rules: seq<Rule>, prefix: string, detail: string)
    requires forall j :: 0 <= j < |rules| && rules[j].fixed.Some? ==> StartsWith(rules[j].fixed.value, prefix)
    ensures StartsWith(Classify(rules, prefix, detail), prefix)
    decreases |rules|
  {
    if |rules| == 0 || (Contains(detail, rules[0].needle) && rules[0].fixed.None?) {
      StartsWithConcat(prefix, detail);
    } else if !Contains(detail, rules[0].needle) {
      ClassifyPrefixed(rules[1..], prefix, detail);
    }
  }

  /**
   * One registration: a POST of `data`, unchanged, to `<base><path>` with the
   * `server` query; an error status becomes the chain's message for the
   * detail (or the error text).
   */
  function Register(path: string, rules: seq<Rule>, prefix: string,
                    base: string, net: Outcome, data: map<string, Json>, server: string): (c: Call)
    ensures c.sent == Some(Request(Post, base + path, map["server" := JStr(server)], JsonBody(data)))
    ensures net.Unreachable? ==> c.result == Failure(Raised(net.err))
    ensures c.result.Success? <==> net.Answered? && !IsHttpError(net.reply.status) && !net.reply.body.NotJson?
    ensures net.Answered? && !IsHttpError(net.reply.status) && net.reply.body.NotJson? ==>
      c.result == Failure(DecodeError(net.reply.body.why))
    ensures net.Answered? && IsHttpError(net.reply.status) ==>
      RaisesValueError(c, Classify(rules, prefix, DetailOrError(net.reply)))
  {
    Call(Some(Request(Post, base + path, map["server" := JStr(server)], JsonBody(data))),
         Decoded(Settle(net, (r: Reply) => Classify(rules, prefix, DetailOrError(r)))))
  }
}
