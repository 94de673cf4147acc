/**
 * The three agents, each reduced to what it does with the model's answer,
 * and the benchmark query handed from the first to the second.
 */
module Agents {
  import opened Wrappers
  import opened PyString
  import opened Cleanup
  import opened Json
  import opened Delegate

  /** Why a stage raised. */
  datatype Failure =
    | DelegateError   // the call to the model service raised
    | NoLeadingText   // `message.content[0].text` raised
    | NotJson         // `json.loads` raised on the cleaned text
    | NoRate          // `bill_analysis['ratePerKwh']` raised

  /** Agents 1 and 3 (`run_agent_1`, `run_agent_3`) treat the answer the same
      way: take the first block's text, clean it and parse it, with no
      recovery. A parse failure escapes as an error of the stage. */
  function StrictOutcome(reply: Reply, parse: Parser): (r: Result<Value, Failure>)
    ensures reply.Raised? ==> r == Err(DelegateError)
    ensures reply.Answered? && LeadingText(reply.content).None? ==> r == Err(NoLeadingText)
    ensures reply.Answered? && LeadingText(reply.content).Some? ==>
              var cleaned := Clean(LeadingText(reply.content).value);
              && (parse(cleaned).None? ==> r == Err(NotJson))
              && (parse(cleaned).Some? ==> r == Ok(parse(cleaned).value))
  {
    match reply
    case Raised => Err(DelegateError)
    case Answered(content) =>
      match LeadingText(content)
      case None => Err(NoLeadingText)
      case Some(text) =>
        match parse(Clean(text))
        case None => Err(NotJson)
        case Some(v) => Ok(v)
  }

  /** The record agent 2 returns when its answer does not parse. */
  const Fallback: Value := Object(map[
    "averageRate" := Number("0.13"),
    "typicalUsage" := Str("Based on industry standards"),
    "recommendations" := Array([Str("Monitor peak usage"),
                                Str("Consider energy-efficient appliances")]),
    "sources" := Array([Str("Industry data")])
  ])

  /** Agent 2 (`run_agent_2`): join the text blocks, clean, parse; a parse
      failure is caught and replaced by `Fallback`. Only a failed call to the
      model service makes the stage fail. */
  function LenientOutcome(reply: Reply, parse: Parser): (r: Result<Value, Failure>)
    ensures r.Err? <==> reply.Raised?
    ensures r.Err? ==> r.error == DelegateError
    ensures reply.Answered? ==>
              var cleaned := Clean(JoinedText(reply.content));
              && (parse(cleaned).None? ==> r.value == Fallback)
              && (parse(cleaned).Some? ==> r.value == parse(cleaned).value)
  {
    match reply
    case Raised => Err(DelegateError)
    case Answered(content) =>
      match parse(Clean(JoinedText(content)))
      case None => Ok(Fallback)
      case Some(v) => Ok(v)
  }

  /** The fallback-versus-fail asymmetry: when both read the same text, agent
      2 agrees with agents 1 and 3 wherever they succeed, and returns the
      fallback record exactly where they raise. */
  lemma LenientRecoversWhereStrictFails(reply: Reply, parse: Parser)
    requires reply.Answered?
    requires LeadingText(reply.content) == Some(JoinedText(reply.content))
    ensures StrictOutcome(reply, parse).Ok? ==>
              LenientOutcome(reply, parse) == StrictOutcome(reply, parse)
    ensures StrictOutcome(reply, parse).Err? ==>
              StrictOutcome(reply, parse) == Err(NotJson)
              && LenientOutcome(reply, parse) == Ok(Fallback)
  {
  }

  /** Agents 1 and 3 read nothing past the first block: what follows a
      leading text block cannot change their outcome. */
  lemma StrictReadsOnlyFirstBlock(t: string, more: seq<ContentBlock>, parse: Parser)
    ensures StrictOutcome(Answered([TextBlock(t)] + more), parse)
            == StrictOutcome(Answered([TextBlock(t)]), parse)
  {
    assert ([TextBlock(t)] + more)[0] == TextBlock(t);
  }

  /** An answer that opens with a tool block makes the strict agents raise
      whatever follows it, while agent 2 reads past it as if it were not
      there and always returns a record. When the answer without that block
      starts with a text block holding all of its text, and would have
      satisfied the strict agents, agent 2 returns what they would have. */
  lemma LeadingToolBlockBreaksOnlyStrict(more: seq<ContentBlock>, parse: Parser)
    ensures StrictOutcome(Answered([ToolBlock] + more), parse) == Err(NoLeadingText)
    ensures LenientOutcome(Answered([ToolBlock] + more), parse)
            == LenientOutcome(Answered(more), parse)
    ensures LenientOutcome(Answered([ToolBlock] + more), parse).Ok?
    ensures LeadingText(more) == Some(JoinedText(more)) &&
            StrictOutcome(Answered(more), parse).Ok? ==>
              LenientOutcome(Answered([ToolBlock] + more), parse)
              == StrictOutcome(Answered(more), parse)
  {
    ToolBlockAddsNothing([], more);
    assert [] + [ToolBlock] + more == [ToolBlock] + more;
    assert [] + more == more;
    if LeadingText(more) == Some(JoinedText(more)) {
      LenientRecoversWhereStrictFails(Answered(more), parse);
    }
  }

  /** A bill answer written as a fenced JSON payload, "```json", white space,
      payload, white space, "```", is parsed as the bare payload, whatever
      single or double backticks the payload holds. */
  lemma FencedAnswerParsesPayload(w1: string, payload: string, w2: string,
                                  more: seq<ContentBlock>, parse: Parser)
    requires AllSpace(w1) && AllSpace(w2)
    requires !Contains(payload, Fence) && Stripped(payload)
    ensures var reply := Answered([TextBlock(JsonFence + w1 + payload + w2 + Fence)] + more);
            && (parse(payload).Some? ==> StrictOutcome(reply, parse) == Ok(parse(payload).value))
            && (parse(payload).None? ==> StrictOutcome(reply, parse) == Err(NotJson))
  {
    CleanUnwrapsFence(w1, payload, w2);
  }

  // ---------------------------------------------------------------------
  // The benchmark query

  const QueryPrefix: string := "energy rate "
  const QuerySuffix: string := " kWh industry benchmark"

  /** The search context agent 2 is given for a rendered rate. */
  function BenchmarkQuery(rate: string): (q: string)
    ensures |q| == |QueryPrefix| + |rate| + |QuerySuffix|
  {
    QueryPrefix + rate + QuerySuffix
  }

  /** Reads the rate back out of a benchmark query, if `q` is one. */
  function RateOfQuery(q: string): (r: Option<string>)
    ensures r.Some? ==> |r.value| == |q| - |QueryPrefix| - |QuerySuffix|
  {
    if |q| >= |QueryPrefix| + |QuerySuffix|
       && q[..|QueryPrefix|] == QueryPrefix
       && q[|q| - |QuerySuffix|..] == QuerySuffix
    then Some(q[|QueryPrefix|..|q| - |QuerySuffix|])
    else None
  }

  /** The rendered rate can be read back from its query. */
  lemma QueryRoundTrip(rate: string)
    ensures RateOfQuery(BenchmarkQuery(rate)) == Some(rate)
  {
  }

  /** Every text the reader accepts is the query of the rate it reads. */
  lemma QueryOfReadRate(q: string, rate: string)
    requires RateOfQuery(q) == Some(rate)
    ensures BenchmarkQuery(rate) == q
  {
  }

  /** Two rates give the same query only if they render alike. */
  lemma QueryInjective(a: string, b: string)
    requires BenchmarkQuery(a) == BenchmarkQuery(b)
    ensures a == b
  {
    QueryRoundTrip(a);
    QueryRoundTrip(b);
  }

  /** The query derivation in the button handler: the f-string
      "energy rate {rate} kWh industry benchmark" over the bill's
      `ratePerKwh`, rendered by `show` (Python's `str`). A bill without that
      key makes the run fail here. */
  function DeriveQuery(bill: Value, show: Value -> string): (r: Result<string, Failure>)
    ensures r.Err? <==> Get(bill, "ratePerKwh").None?
    ensures r.Err? ==> r.error == NoRate
    ensures r.Ok? ==> RateOfQuery(r.value) == Some(show(bill.fields["ratePerKwh"]))
  {
    match Get(bill, "ratePerKwh")
    case None => Err(NoRate)
    case Some(rate) =>
      QueryRoundTrip(show(rate));
      Ok(BenchmarkQuery(show(rate)))
  }
}
