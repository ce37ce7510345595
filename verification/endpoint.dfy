/**
 The `/analyze` handler of either variant, minus the web transport: reject
 a missing or empty query, otherwise decompose it, synthesise one result
 per step, attach the rendered map and a summary sentence, and (India
 variant) the fixed scope fields.
 */
module Endpoint {
  import opened Wrappers
  import opened Text
  import opened Decomposer
  import opened Synthesizer

  /** A fixed string-valued key of the response, such as `country_focus`. */
  datatype Field = Field(key: string, value: string)

  /**
   One variant of the service: its rule table and default chain, its result
   table, the words its summary uses for the steps, and the fixed extra
   fields of its response.
   */
  datatype Profile = Profile(decomposer: Config, table: Table, noun: string, scope: seq<Field>)

  /** The request body's `query`: `None` when the key is absent. */
  datatype Request = Request(query: Option<string>)

  datatype Response = Response(
    query: string,
    chainOfThought: seq<Step>,
    results: seq<Result>,
    mapHtml: string,
    summary: string,
    scope: seq<Field>)

  datatype Reply = Ok(response: Response) | ClientError(status: nat, error: string)

  const QueryRequired: string := "Query is required"

  const SummaryLead: string := "Completed "

  /**
   `f"Completed {len(steps)} {noun} for: {query}"`: a sentence from which
   the step count and the query read back unchanged.
   */
  function Summary(noun: string, count: nat, query: string): (r: string)
    ensures ParseSummary(noun, r) == Some((count, query))
  {
    SentenceParses(noun, count, query);
    SummaryLead + Decimal(count) + " " + noun + " for: " + query
  }

  /** The summary with its fixed middle part, `" {noun} for: "`, grouped as one string. */
  lemma SummaryMiddle(noun: string, count: nat, query: string, middle: string)
    requires middle == " " + noun + " for: "
    ensures Summary(noun, count, query) == SummaryLead + Decimal(count) + middle + query
  {
  }

  /** Reads the step count and the query back out of a summary sentence. */
  function ParseSummary(noun: string, text: string): Option<(nat, string)> {
    if |text| < |SummaryLead| || text[..|SummaryLead|] != SummaryLead then None
    else ParseCount(" " + noun + " for: ", text[|SummaryLead|..])
  }

  /**
   Splits `digits + middle + rest` into the value of the digits and `rest`;
   a numeral with a leading zero is not one that `len` prints, so it is refused.
   */
  function ParseCount(middle: string, body: string): Option<(nat, string)> {
    var k := DigitRun(body);
    if k == 0 || (k > 1 && body[0] == '0') || |body| < k + |middle| || body[k..k + |middle|] != middle then None
    else Some((ParseDigits(body[..k]), body[k + |middle|..]))
  }

  lemma ParseCountOfNumeral(middle: string, d: string, rest: string)
    requires Canonical(d)
    requires 1 <= |middle| && !IsDigit(middle[0])
    ensures ParseCount(middle, d + middle + rest) == Some((ParseDigits(d), rest))
  {
    var body := d + middle + rest;
    assert body == d + (middle + rest);
    DigitRunOfNumeral(d, middle + rest);
    assert body[..|d|] == d;
    assert body[|d|..|d| + |middle|] == middle;
    assert body[|d| + |middle|..] == rest;
  }

  lemma SentenceParses(noun: string, count: nat, query: string)
    ensures ParseSummary(noun, SummaryLead + Decimal(count) + " " + noun + " for: " + query) == Some((count, query))
  {
    var d := Decimal(count);
    var middle := " " + noun + " for: ";
    var text := SummaryLead + d + " " + noun + " for: " + query;
    assert text == SummaryLead + (d + middle + query);
    assert text[..|SummaryLead|] == SummaryLead;
    assert text[|SummaryLead|..] == d + middle + query;
    ParseCountOfNumeral(middle, d, query);
    DecimalRoundTrip(count);
  }

  /**
   The parse is exact: every sentence it accepts is the summary of what it
   reads, so a summary is determined by its count and its query.
   */
  lemma SummaryParsedBack(noun: string, text: string)
    ensures ParseSummary(noun, text).Some? ==>
      text == Summary(noun, ParseSummary(noun, text).value.0, ParseSummary(noun, text).value.1)
  {
    var middle := " " + noun + " for: ";
    if ParseSummary(noun, text).Some? {
      var body := text[|SummaryLead|..];
      var k := DigitRun(body);
      var d := body[..k];
      assert Canonical(d);
      DecimalOfCanonical(d);
      assert text == SummaryLead + body;
      assert body == d + body[k..k + |middle|] + body[k + |middle|..];
    }
  }

  function Analyze(p: Profile, req: Request, mapHtml: string): (r: Reply)
    ensures r.ClientError? <==> req.query.None? || req.query.value == ""
    ensures r.ClientError? ==> r.status == 400 && r.error == QueryRequired
    ensures r.Ok? ==> r.response.query == req.query.value
    ensures r.Ok? ==> r.response.mapHtml == mapHtml && r.response.scope == p.scope
    ensures r.Ok? ==> |r.response.results| == |r.response.chainOfThought|
    ensures r.Ok? ==> r.response.summary == Summary(p.noun, |r.response.chainOfThought|, r.response.query)
  {
    match req.query
    case None => ClientError(400, QueryRequired)
    case Some(query) =>
      if query == "" then ClientError(400, QueryRequired)
      else
        var steps := Decompose(p.decomposer, query);
        var results := Execute(p.table, steps);
        Ok(Response(query, steps, results, mapHtml, Summary(p.noun, |steps|, query), p.scope))
  }

  /**
   An accepted request carries the decomposition of its query, one result
   per step, and a summary that reads back as exactly the step count and
   the query.
   */
  lemma AnalyzeAccepted(p: Profile, query: string, mapHtml: string)
    requires query != ""
    ensures var r := Analyze(p, Request(Some(query)), mapHtml);
      && r.Ok?
      && r.response.chainOfThought == Decompose(p.decomposer, query)
      && (forall i :: 0 <= i < |r.response.results| ==>
            r.response.results[i] == Synthesize(p.table, r.response.chainOfThought[i]))
      && ParseSummary(p.noun, r.response.summary) == Some((|r.response.chainOfThought|, query))
      && forall t :: ParseSummary(p.noun, t) == Some((|r.response.chainOfThought|, query)) ==> t == r.response.summary
  {
    forall t | ParseSummary(p.noun, t) == Some((|Decompose(p.decomposer, query)|, query))
      ensures t == Analyze(p, Request(Some(query)), mapHtml).response.summary
    {
      SummaryParsedBack(p.noun, t);
    }
  }
}
