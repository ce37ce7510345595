/**
 The India variant (`IndiaChainOfThoughtAnalyzer` and the India `/analyze`
 handler): seven keyword rules, the India default chain, seven bespoke
 results and a generic result scoped to 28 states and 8 union territories.
 */
module India {
  import opened Wrappers
  import opened Text
  import opened Decomposer
  import opened Synthesizer
  import opened Endpoint

  // ---------------------------------------------------------------------
  // Rule table and default chain of `decompose_task`
  // ---------------------------------------------------------------------

  const Monsoon: Rule := Rule(
    ["monsoon", "rainfall"], Pinned(1), "monsoon_analysis",
    "Analyze monsoon patterns and rainfall distribution",
    "Monsoon analysis is crucial for Indian agriculture and water resource management")

  const Agricultural: Rule := Rule(
    ["agriculture", "crop", "farming"], Counted, "agricultural_analysis",
    "Analyze agricultural patterns and crop distribution",
    "Agricultural analysis helps optimize farming practices and food security in India")

  const UrbanPlanning: Rule := Rule(
    ["urban", "city", "metro"], Counted, "urban_planning_analysis",
    "Analyze urban growth and infrastructure patterns",
    "Urban planning analysis is essential for managing India's rapid urbanization")

  const Pollution: Rule := Rule(
    ["pollution", "air quality"], Counted, "pollution_analysis",
    "Analyze air pollution and environmental quality",
    "Pollution analysis helps address environmental challenges in Indian cities")

  const DisasterRisk: Rule := Rule(
    ["flood", "disaster"], Counted, "disaster_risk_analysis",
    "Analyze flood risk and disaster vulnerability",
    "Disaster risk analysis is critical for India's flood-prone regions")

  const Demographic: Rule := Rule(
    ["population", "demographic"], Counted, "demographic_analysis",
    "Analyze population distribution and demographic patterns",
    "Demographic analysis helps understand India's diverse population distribution")

  const Transportation: Rule := Rule(
    ["transport", "railway", "highway"], Counted, "transportation_analysis",
    "Analyze transportation networks and connectivity",
    "Transportation analysis is vital for India's infrastructure development")

  const Rules: seq<Rule> := [Monsoon, Agricultural, UrbanPlanning, Pollution, DisasterRisk, Demographic, Transportation]

  const Exploration: Step := Step(
    1, "india_data_exploration",
    "Explore Indian geographic and demographic data",
    "Understanding India's diverse geography is the foundation of spatial analysis")

  const RegionalPatterns: Step := Step(
    2, "regional_pattern_analysis",
    "Identify regional patterns across Indian states",
    "Regional analysis helps understand India's spatial diversity")

  const Decomposition: Config := Config(Rules, [Exploration, RegionalPatterns])

  /** The action names of the seven rules, in table order. */
  const ActionNames: seq<string> := [
    "monsoon_analysis", "agricultural_analysis", "urban_planning_analysis", "pollution_analysis",
    "disaster_risk_analysis", "demographic_analysis", "transportation_analysis"]

  lemma RulesPinned()
    ensures PinsSound(Rules)
  {
    assert NoPins(Rules[7..]);
    assert NoPins(Rules[6..]);
    assert NoPins(Rules[5..]);
    assert NoPins(Rules[4..]);
    assert NoPins(Rules[3..]);
    assert NoPins(Rules[2..]);
    assert NoPins(Rules[1..]);
  }

  lemma RuleActions()
    ensures Actions(Rules) == ActionNames
  {
    var names := Actions(Rules);
    RulesInOrder();
    assert names[0] == ActionNames[0] && names[1] == ActionNames[1] && names[2] == ActionNames[2];
    assert names[3] == ActionNames[3] && names[4] == ActionNames[4];
    assert names[5] == ActionNames[5] && names[6] == ActionNames[6];
  }

  lemma ActionNamesDistinct()
    ensures NoDup(ActionNames)
  {
    var names := ActionNames;
    assert NoDup(names[7..]);
    assert NoDup(names[6..]);
    assert NoDup(names[5..]);
    assert NoDup(names[4..]);
    assert NoDup(names[3..]);
    assert NoDup(names[2..]);
    assert NoDup(names[1..]);
  }

  lemma DefaultsApart()
    ensures ActionsAvoid([Exploration, RegionalPatterns], ActionNames)
  {
    assert ActionsAvoid([RegionalPatterns], ActionNames);
  }

  /** The India table meets the conditions the decomposer's guarantees rest on. */
  lemma DecompositionValid()
    ensures ValidConfig(Decomposition)
  {
    RulesPinned();
    RuleActions();
    ActionNamesDistinct();
    DefaultsApart();
  }

  // ---------------------------------------------------------------------
  // Concrete queries
  // ---------------------------------------------------------------------

  lemma RulesInOrder()
    ensures |Rules| == 7
    ensures Rules[0] == Monsoon && Rules[1] == Agricultural && Rules[2] == UrbanPlanning
    ensures Rules[3] == Pollution && Rules[4] == DisasterRisk && Rules[5] == Demographic
    ensures Rules[6] == Transportation
  {
  }

  /** The words of the query "monsoon and urban flood analysis". */
  const FloodWords: seq<string> := ["monsoon", "and", "urban", "flood", "analysis"]

  lemma FloodLower()
    ensures Lower(Unwords(FloodWords)) == Unwords(FloodWords)
  {
    LowerWords(FloodWords, FloodWords);
  }

  lemma FloodMonsoon() ensures Fires(Monsoon, Unwords(FloodWords)) {
    FiringRule(FloodWords, Monsoon.triggers, 0, 0);
  }

  lemma FloodAgricultural() ensures !Fires(Agricultural, Unwords(FloodWords)) {
    SilentRule(FloodWords, Agricultural.triggers, [AbsentChar('g'), AbsentChar('c'), AbsentChar('g')]);
  }

  lemma FloodUrban() ensures Fires(UrbanPlanning, Unwords(FloodWords)) {
    FiringRule(FloodWords, UrbanPlanning.triggers, 0, 2);
  }

  lemma FloodPollution() ensures !Fires(Pollution, Unwords(FloodWords)) {
    SilentRule(FloodWords, Pollution.triggers, [AbsentChar('p'), AbsentChar('q')]);
  }

  lemma FloodDisaster() ensures Fires(DisasterRisk, Unwords(FloodWords)) {
    FiringRule(FloodWords, DisasterRisk.triggers, 0, 3);
  }

  lemma FloodDemographic() ensures !Fires(Demographic, Unwords(FloodWords)) {
    SilentRule(FloodWords, Demographic.triggers, [AbsentChar('p'), AbsentChar('e')]);
  }

  lemma FloodTransportation() ensures !Fires(Transportation, Unwords(FloodWords)) {
    SilentRule(FloodWords, Transportation.triggers, [AbsentChar('t'), AbsentChar('w'), AbsentChar('w')]);
  }

  lemma FloodVerdicts(q: string)
    requires q == Unwords(FloodWords)
    ensures forall j :: 0 <= j < |Rules| ==> (Fires(Rules[j], q) <==> j in [0, 2, 4])
  {
    FloodMonsoon();
    FloodAgricultural();
    FloodUrban();
    FloodPollution();
    FloodDisaster();
    FloodDemographic();
    FloodTransportation();
    RulesInOrder();
  }

  lemma FloodSteps()
    ensures AppendSteps(Rules, [0, 2, 4], []) == [StepFor(Monsoon, 0), StepFor(UrbanPlanning, 1), StepFor(DisasterRisk, 2)]
  {
    RulesInOrder();
    assert [0, 2, 4][1..] == [2, 4] && [2, 4][1..] == [4] && [4][1..] == [];
  }

  /** The words join into the query text "monsoon and urban flood analysis". */
  lemma FloodPhrase()
    ensures Unwords(FloodWords) == "monsoon and urban flood analysis"
  {
  }

  /** Several rules fire on one query; their steps come in table order, numbered 1, 2, 3. */
  lemma MonsoonAndUrbanFlood()
    ensures Unwords(FloodWords) == "monsoon and urban flood analysis"
    ensures var r := Decompose(Decomposition, Unwords(FloodWords));
      && r == [StepFor(Monsoon, 0), StepFor(UrbanPlanning, 1), StepFor(DisasterRisk, 2)]
      && r[0].number == 1 && r[0].action == "monsoon_analysis"
      && r[1].number == 2 && r[1].action == "urban_planning_analysis"
      && r[2].number == 3 && r[2].action == "disaster_risk_analysis"
  {
    FloodPhrase();
    FloodLower();
    var q := Lower(Unwords(FloodWords));
    FloodVerdicts(q);
    RunFiring(Rules, q, [0, 2, 4]);
    FloodSteps();
  }

  /** The words of the query "What is the rainfall pattern for agriculture?". */
  const RainQuery: seq<string> := ["What", "is", "the", "rainfall", "pattern", "for", "agriculture?"]

  /** The same words lower-cased. */
  const RainWords: seq<string> := ["what", "is", "the", "rainfall", "pattern", "for", "agriculture?"]

  lemma RainLower()
    ensures Lower(Unwords(RainQuery)) == Unwords(RainWords)
  {
    LowerWords(RainQuery, RainWords);
  }

  lemma RainMonsoon() ensures Fires(Monsoon, Unwords(RainWords)) {
    FiringRule(RainWords, Monsoon.triggers, 1, 3);
  }

  lemma RainAgricultural() ensures Fires(Agricultural, Unwords(RainWords)) {
    FiringRule(RainWords, Agricultural.triggers, 0, 6);
  }

  lemma RainUrban() ensures !Fires(UrbanPlanning, Unwords(RainWords)) {
    SilentRule(RainWords, UrbanPlanning.triggers, [AbsentChar('b'), AbsentChar('y'), AbsentChar('m')]);
  }

  lemma RainPollutionWord() ensures !Contains(Unwords(RainWords), "pollution") {
    RefuteByWords(RainWords, ['p', 'p', 'p', 'p', 'o', 'p', 'p'], "pollution");
  }

  lemma RainAirWord() ensures !Contains(Unwords(RainWords), "air quality") {
    RefuteByChar(RainWords, "air quality", 'q');
  }

  lemma RainPollution() ensures !Fires(Pollution, Unwords(RainWords)) {
    RainPollutionWord();
    RainAirWord();
    SilentTriggers(Unwords(RainWords), Pollution.triggers);
  }

  lemma RainDisaster() ensures !Fires(DisasterRisk, Unwords(RainWords)) {
    SilentRule(RainWords, DisasterRisk.triggers, [AbsentChar('d'), AbsentChar('d')]);
  }

  lemma RainPopulationWord() ensures !Contains(Unwords(RainWords), "population") {
    RefuteByWords(RainWords, ['u', 'u', 'u', 'u', 'u', 'u', 'p'], "population");
  }

  lemma RainDemographicWord() ensures !Contains(Unwords(RainWords), "demographic") {
    RefuteByChar(RainWords, "demographic", 'd');
  }

  lemma RainDemographic() ensures !Fires(Demographic, Unwords(RainWords)) {
    RainPopulationWord();
    RainDemographicWord();
    SilentTriggers(Unwords(RainWords), Demographic.triggers);
  }

  lemma RainTransportWord() ensures !Contains(Unwords(RainWords), "transport") {
    RefuteByWords(RainWords, ['p', 'p', 'p', 'p', 's', 'p', 'p'], "transport");
  }

  lemma RainWayWords() ensures !Contains(Unwords(RainWords), "railway") && !Contains(Unwords(RainWords), "highway") {
    RefuteByChar(RainWords, "railway", 'y');
    RefuteByChar(RainWords, "highway", 'y');
  }

  lemma RainTransportation() ensures !Fires(Transportation, Unwords(RainWords)) {
    RainTransportWord();
    RainWayWords();
    SilentTriggers(Unwords(RainWords), Transportation.triggers);
  }

  lemma RainVerdicts(q: string)
    requires q == Unwords(RainWords)
    ensures forall j :: 0 <= j < |Rules| ==> (Fires(Rules[j], q) <==> j in [0, 1])
  {
    RulesInOrder();
    forall j | 0 <= j < |Rules| ensures Fires(Rules[j], q) <==> j in [0, 1] {
      if j == 0 { RainMonsoon(); }
      else if j == 1 { RainAgricultural(); }
      else if j == 2 { RainUrban(); }
      else if j == 3 { RainPollution(); }
      else if j == 4 { RainDisaster(); }
      else if j == 5 { RainDemographic(); }
      else { RainTransportation(); }
    }
  }

  lemma RainSteps()
    ensures AppendSteps(Rules, [0, 1], []) == [StepFor(Monsoon, 0), StepFor(Agricultural, 1)]
  {
    RulesInOrder();
    assert [0, 1][1..] == [1] && [1][1..] == [];
  }

  lemma RainPhraseHead() ensures Unwords(["What", "is", "the"]) == "What is the" { }

  lemma RainPhraseTail()
    ensures Unwords(["rainfall", "pattern", "for", "agriculture?"]) == "rainfall pattern for agriculture?"
  {
  }

  lemma RainPhraseJoin(head: string, tail: string)
    requires head == "What is the" && tail == "rainfall pattern for agriculture?"
    ensures head + " " + tail == "What is the rainfall pattern for agriculture?"
  {
  }

  /**
   The phrase split after its third word: each half is joined on its own,
   then the two halves are joined with one space.
   */
  lemma RainPhraseOf(ws: seq<string>)
    requires ws == RainQuery
    ensures Unwords(ws) == "What is the rainfall pattern for agriculture?"
  {
    UnwordsSplit(ws, 3);
    assert ws[..3] == ["What", "is", "the"];
    assert ws[3..] == ["rainfall", "pattern", "for", "agriculture?"];
    RainPhraseHead();
    RainPhraseTail();
    RainPhraseJoin(Unwords(ws[..3]), Unwords(ws[3..]));
  }

  /** The words join into the query text "What is the rainfall pattern for agriculture?". */
  lemma RainPhrase()
    ensures Unwords(RainQuery) == "What is the rainfall pattern for agriculture?"
  {
    RainPhraseOf(RainQuery);
  }

  /** The rainfall-for-agriculture question yields the monsoon step, then the agricultural step. */
  lemma RainfallForAgriculture()
    ensures Unwords(RainQuery) == "What is the rainfall pattern for agriculture?"
    ensures var r := Decompose(Decomposition, Unwords(RainQuery));
      && r == [StepFor(Monsoon, 0), StepFor(Agricultural, 1)]
      && r[0].number == 1 && r[0].action == "monsoon_analysis"
      && r[1].number == 2 && r[1].action == "agricultural_analysis"
  {
    RainPhrase();
    RainLower();
    var q := Lower(Unwords(RainQuery));
    RainVerdicts(q);
    RunFiring(Rules, q, [0, 1]);
    RainSteps();
  }

  /** The words of the query "hello world". */
  const HelloWords: seq<string> := ["hello", "world"]

  lemma HelloMonsoon() ensures !Fires(Monsoon, Unwords(HelloWords)) {
    SilentRule(HelloWords, Monsoon.triggers, [AbsentChar('m'), AbsentChar('i')]);
  }

  lemma HelloAgricultural() ensures !Fires(Agricultural, Unwords(HelloWords)) {
    SilentRule(HelloWords, Agricultural.triggers, [AbsentChar('a'), AbsentChar('c'), AbsentChar('a')]);
  }

  lemma HelloUrban() ensures !Fires(UrbanPlanning, Unwords(HelloWords)) {
    SilentRule(HelloWords, UrbanPlanning.triggers, [AbsentChar('u'), AbsentChar('c'), AbsentChar('m')]);
  }

  lemma HelloPollution() ensures !Fires(Pollution, Unwords(HelloWords)) {
    SilentRule(HelloWords, Pollution.triggers, [AbsentChar('p'), AbsentChar('a')]);
  }

  lemma HelloDisaster() ensures !Fires(DisasterRisk, Unwords(HelloWords)) {
    SilentRule(HelloWords, DisasterRisk.triggers, [AbsentChar('f'), AbsentChar('a')]);
  }

  lemma HelloDemographic() ensures !Fires(Demographic, Unwords(HelloWords)) {
    SilentRule(HelloWords, Demographic.triggers, [AbsentChar('p'), AbsentChar('m')]);
  }

  lemma HelloTransportation() ensures !Fires(Transportation, Unwords(HelloWords)) {
    SilentRule(HelloWords, Transportation.triggers, [AbsentChar('t'), AbsentChar('a'), AbsentChar('a')]);
  }

  lemma HelloVerdicts(q: string)
    requires q == Unwords(HelloWords)
    ensures forall j :: 0 <= j < |Rules| ==> !Fires(Rules[j], q)
  {
    HelloMonsoon();
    HelloAgricultural();
    HelloUrban();
    HelloPollution();
    HelloDisaster();
    HelloDemographic();
    HelloTransportation();
    RulesInOrder();
  }

  /** The words join into the query text "hello world". */
  lemma HelloPhrase()
    ensures Unwords(HelloWords) == "hello world"
  {
  }

  /** A query that names no known topic gets the two default steps. */
  lemma HelloWorldDefaults()
    ensures Unwords(HelloWords) == "hello world"
    ensures Decompose(Decomposition, Unwords(HelloWords)) == [Exploration, RegionalPatterns]
  {
    HelloPhrase();
    LowerWords(HelloWords, HelloWords);
    var q := Lower(Unwords(HelloWords));
    HelloVerdicts(q);
    ChainFromFiredRules(Rules, q);
  }

  /** A rule's action is in the chain exactly when one of that rule's triggers occurs in the lower-cased query. */
  lemma EmittedIffTriggered(query: string, j: nat)
    requires j < |Rules|
    ensures Emits(Decompose(Decomposition, query), Rules[j].action)
        <==> exists k :: 0 <= k < |Rules[j].triggers| && Contains(Lower(query), Rules[j].triggers[k])
  {
    DecompositionValid();
    ActionEmittedIff(Decomposition, query, j);
  }

  /** Upper-case and lower-case spellings of a query decompose alike. */
  lemma ShoutedMonsoon()
    ensures Decompose(Decomposition, "MONSOON") == Decompose(Decomposition, "monsoon")
  {
    assert Lower("MONSOON") == "monsoon";
    assert Lower("monsoon") == "monsoon";
    DecomposeIgnoresCase(Decomposition, "monsoon", "MONSOON");
  }

  // ---------------------------------------------------------------------
  // Result table of `_generate_india_sample_result`
  // ---------------------------------------------------------------------

  const MonsoonEntry: Entry := Entry("monsoon_analysis", [
      Metric("southwest_monsoon_coverage", Float("85.2")),
      Metric("average_rainfall_mm", Int(1200)),
      Metric("drought_affected_districts", Int(45)),
      Metric("flood_risk_areas", Int(12)),
      Metric("agricultural_impact_score", Float("7.8"))],
    "Southwest monsoon covers 85.2% of India with 1200mm average rainfall. 45 districts face drought risk.")

  const AgriculturalEntry: Entry := Entry("agricultural_analysis", [
      Metric("rice_cultivation_area", Float("44.0")),
      Metric("wheat_cultivation_area", Float("31.0")),
      Metric("crop_productivity_index", Float("6.5")),
      Metric("irrigation_coverage", Float("48.0")),
      Metric("organic_farming_adoption", Float("2.8"))],
    "Rice covers 44M hectares, wheat 31M hectares. Irrigation covers 48% of agricultural land.")

  const UrbanPlanningEntry: Entry := Entry("urban_planning_analysis", [
      Metric("urban_population_percentage", Float("34.9")),
      Metric("metro_cities_count", Int(8)),
      Metric("slum_population_millions", Int(65)),
      Metric("green_cover_percentage", Float("12.3")),
      Metric("infrastructure_development_score", Float("6.2"))],
    "34.9% urban population across 8 metro cities. 65M people in slums, 12.3% green cover.")

  const PollutionEntry: Entry := Entry("pollution_analysis", [
      Metric("aqi_delhi", Int(168)),
      Metric("aqi_mumbai", Int(145)),
      Metric("aqi_kolkata", Int(152)),
      Metric("cities_exceeding_who_limits", Int(22)),
      Metric("pm25_annual_average", Float("58.0"))],
    "Delhi AQI: 168, Mumbai: 145. 22 cities exceed WHO air quality limits.")

  const DisasterRiskEntry: Entry := Entry("disaster_risk_analysis", [
      Metric("flood_prone_districts", Int(89)),
      Metric("cyclone_affected_coastal_length", Int(7516)),
      Metric("earthquake_high_risk_zones", Int(11)),
      Metric("drought_vulnerable_area_percentage", Int(68)),
      Metric("disaster_preparedness_score", Float("5.8"))],
    "89 districts flood-prone, 7516km cyclone-affected coast. 68% area drought-vulnerable.")

  const DemographicEntry: Entry := Entry("demographic_analysis", [
      Metric("total_population_billions", Float("1.42")),
      Metric("population_density_per_km2", Int(464)),
      Metric("literacy_rate_percentage", Float("77.7")),
      Metric("rural_population_percentage", Float("65.1")),
      Metric("youth_population_percentage", Float("27.9"))],
    "1.42B population, 464/km\U{B2} density. 77.7% literacy, 65.1% rural, 27.9% youth.")

  const TransportationEntry: Entry := Entry("transportation_analysis", [
      Metric("railway_network_km", Int(68043)),
      Metric("highway_network_km", Int(142126)),
      Metric("airports_count", Int(148)),
      Metric("major_ports", Int(12)),
      Metric("connectivity_index", Float("6.7"))],
    "68,043km railway, 142,126km highway network. 148 airports, 12 major ports.")

  const Entries: seq<Entry> := [
    MonsoonEntry, AgriculturalEntry, UrbanPlanningEntry, PollutionEntry,
    DisasterRiskEntry, DemographicEntry, TransportationEntry]

  /** The `else` branch: a completed status over 28 states and 8 union territories. */
  const FallbackResult: Fallback := Fallback([
      Metric("status", Str("completed")),
      Metric("indian_states_analyzed", Int(28)),
      Metric("union_territories_analyzed", Int(8)),
      Metric("processing_time", Float("3.2"))],
    "Successfully completed ", " across 28 states and 8 union territories")

  const Results: Table := Table(Entries, FallbackResult)

  /** The India `/analyze` handler's profile. */
  const Service: Profile := Profile(
    Decomposition, Results, "India-specific analysis steps",
    [Field("country_focus", "India"), Field("geographic_scope", "Indian subcontinent")])

  /** The result table has one entry per rule, in the rules' order. */
  lemma EntriesMatchRules()
    ensures EntryActions(Entries) == ActionNames
  {
  }

  lemma ResultsCoverRules()
    ensures EntryActions(Results.entries) == Actions(Decomposition.rules)
  {
    RuleActions();
    EntriesMatchRules();
  }

  /** Every action a rule can emit has its own result: the entry at the rule's position. */
  lemma BespokeResult(step: Step, j: nat)
    requires j < |ActionNames| && step.action == ActionNames[j]
    ensures Synthesize(Results, step).metrics == Entries[j].metrics
    ensures Synthesize(Results, step).explanation == Entries[j].explanation
  {
    EntriesMatchRules();
    ActionNamesDistinct();
    NoDupDistinct(ActionNames);
    SynthesizeBespoke(Results, step, j);
  }

  /** The monsoon step reports 85.2% south-west monsoon coverage and 1200 mm average rainfall. */
  lemma MonsoonFigures(step: Step)
    requires step.action == "monsoon_analysis"
    ensures var m := Synthesize(Results, step).metrics;
      && |m| == 5
      && m[0] == Metric("southwest_monsoon_coverage", Float("85.2"))
      && m[1] == Metric("average_rainfall_mm", Int(1200))
  {
    BespokeResult(step, 0);
  }

  /** Any other action, the two default steps included, gets the generic result naming it. */
  lemma GenericResult(step: Step)
    requires step.action !in ActionNames
    ensures Synthesize(Results, step).metrics == FallbackResult.metrics
    ensures Synthesize(Results, step).explanation
         == "Successfully completed " + step.action + " across 28 states and 8 union territories"
    ensures ExplainedAction(FallbackResult, Synthesize(Results, step).explanation) == Some(step.action)
  {
    EntriesMatchRules();
    SynthesizeFallback(Results, step);
  }

  /**
   A query that matches a rule gets a bespoke result for every step of its
   chain; a query that matches none gets the generic result for both
   default steps.
   */
  lemma ChainResults(query: string)
    ensures var chain := Decompose(Decomposition, query);
      && (chain == Decomposition.defaults ==>
            forall i :: 0 <= i < |chain| ==> Synthesize(Results, chain[i]).metrics == Results.fallback.metrics)
      && (chain != Decomposition.defaults ==>
            forall i :: 0 <= i < |chain| ==>
              exists k :: 0 <= k < |Results.entries|
                && Results.entries[k].action == chain[i].action
                && Synthesize(Results, chain[i]).metrics == Results.entries[k].metrics)
  {
    DecompositionValid();
    ResultsCoverRules();
    ChainSynthesis(Decomposition, Results, query);
  }

  // ---------------------------------------------------------------------
  // Rainfall shading of the sample map
  // ---------------------------------------------------------------------

  /** The circle colour of a monsoon region on the sample map. */
  datatype Shade = LightBlue | Blue | DarkBlue

  function ShadeName(s: Shade): string {
    match s
    case LightBlue => "lightblue"
    case Blue => "blue"
    case DarkBlue => "darkblue"
  }

  /** How dark a shade is: `lightblue` < `blue` < `darkblue`. */
  function Depth(s: Shade): nat {
    match s
    case LightBlue => 0
    case Blue => 1
    case DarkBlue => 2
  }

  /** Annual rainfall in millimetres to shade: above 2000 dark blue, above 1000 blue, otherwise light blue. */
  function RainfallShade(mm: int): (s: Shade)
    ensures s == DarkBlue <==> 2000 < mm
    ensures s == LightBlue <==> mm <= 1000
  {
    if mm > 2000 then DarkBlue
    else if mm > 1000 then Blue
    else LightBlue
  }

  /** More rain never gives a lighter shade. */
  lemma ShadeMonotone(mm: int, mm': int)
    requires mm <= mm'
    ensures Depth(RainfallShade(mm)) <= Depth(RainfallShade(mm'))
  {
  }

  /** Each shade covers a contiguous band, and the three bands meet at 1000 mm and 2000 mm. */
  lemma ShadeBands(mm: int)
    ensures RainfallShade(mm) == Blue <==> 1000 < mm <= 2000
    ensures RainfallShade(mm) == RainfallShade(1000) <==> mm <= 1000
    ensures RainfallShade(mm) == RainfallShade(2001) <==> 2000 < mm
  {
  }

  /** The three sample regions: Kerala (3000 mm), Rajasthan (300 mm) and Bihar (1200 mm). */
  lemma SampleRegionShades()
    ensures ShadeName(RainfallShade(3000)) == "darkblue"
    ensures ShadeName(RainfallShade(300)) == "lightblue"
    ensures ShadeName(RainfallShade(1200)) == "blue"
  {
  }

  // ---------------------------------------------------------------------
  // The India `/analyze` handler
  // ---------------------------------------------------------------------

  /**
   An accepted India request reports between one and seven steps, one
   result per step, a summary that reads back as the step count and the
   query, and the fixed India scope fields.
   */
  lemma IndiaAccepted(query: string, mapHtml: string)
    requires query != ""
    ensures var r := Analyze(Service, Request(Some(query)), mapHtml);
      && r.Ok?
      && 1 <= |r.response.chainOfThought| <= 7
      && Numbered(r.response.chainOfThought)
      && |r.response.results| == |r.response.chainOfThought|
      && ParseSummary("India-specific analysis steps", r.response.summary)
           == Some((|r.response.chainOfThought|, query))
      && r.response.scope == [Field("country_focus", "India"), Field("geographic_scope", "Indian subcontinent")]
  {
    DecompositionValid();
    DecomposeShape(Decomposition, query);
    AnalyzeAccepted(Service, query, mapHtml);
  }

  /** The summary sentence of an accepted request, word for word. */
  lemma IndiaSummary(query: string, mapHtml: string)
    requires query != ""
    ensures var r := Analyze(Service, Request(Some(query)), mapHtml);
      && r.Ok?
      && r.response.summary == "Completed " + Decimal(|r.response.chainOfThought|) + " India-specific analysis steps for: " + query
  {
    var r := Analyze(Service, Request(Some(query)), mapHtml);
    var n := |r.response.chainOfThought|;
    assert r.response.summary == Summary(Service.noun, n, query);
    ServiceNoun();
    NounSentence(n, query);
  }

  lemma ServiceNoun() ensures Service.noun == "India-specific analysis steps" { }

  lemma NounSentence(n: nat, query: string)
    ensures Summary("India-specific analysis steps", n, query) == "Completed " + Decimal(n) + " India-specific analysis steps for: " + query
  {
    SummaryMiddle("India-specific analysis steps", n, query, " India-specific analysis steps for: ");
  }
}
