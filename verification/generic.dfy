/**
 The generic variant (`ChainOfThoughtAnalyzer` and the generic `/analyze`
 handler): five keyword rules, the generic default chain, three bespoke
 results and a generic result over 150 features.

 Two behaviours of the source are kept as written. The buffer rule emits
 the action `create_buffer`, while the result table has an entry for
 `buffer_analysis` only, so a buffer step gets the generic result and the
 `buffer_analysis` entry is never used. The buffer rule also writes the
 step number 1 instead of counting; since it is the first rule, that
 number coincides with the counted one.
 */
module Generic {
  import opened Wrappers
  import opened Text
  import opened Decomposer
  import opened Synthesizer
  import opened Endpoint

  // ---------------------------------------------------------------------
  // Rule table and default chain of `decompose_task`
  // ---------------------------------------------------------------------

  const Buffer: Rule := Rule(
    ["buffer"], Pinned(1), "create_buffer",
    "Create buffer zones around features",
    "Buffer analysis helps identify areas within a specified distance")

  const Intersection: Rule := Rule(
    ["intersection", "overlap"], Counted, "spatial_intersection",
    "Find overlapping areas between datasets",
    "Intersection analysis identifies where features overlap spatially")

  const Distance: Rule := Rule(
    ["distance", "nearest"], Counted, "distance_analysis",
    "Calculate distances between features",
    "Distance analysis helps find proximity relationships")

  const Density: Rule := Rule(
    ["density", "distribution"], Counted, "density_analysis",
    "Analyze spatial distribution and density patterns",
    "Density analysis reveals clustering and distribution patterns")

  const GreenSpace: Rule := Rule(
    ["green space", "vegetation"], Counted, "green_space_analysis",
    "Analyze green space coverage and accessibility",
    "Green space analysis helps urban planning and environmental assessment")

  const Rules: seq<Rule> := [Buffer, Intersection, Distance, Density, GreenSpace]

  const Exploration: Step := Step(
    1, "data_exploration",
    "Explore and understand the spatial data",
    "Data exploration is the first step in any spatial analysis")

  const Visualization: Step := Step(
    2, "spatial_visualization",
    "Create maps and visualizations",
    "Visualization helps identify patterns and relationships")

  const Decomposition: Config := Config(Rules, [Exploration, Visualization])

  /** The action names of the five rules, in table order. */
  const ActionNames: seq<string> := [
    "create_buffer", "spatial_intersection", "distance_analysis", "density_analysis", "green_space_analysis"]

  lemma RulesPinned()
    ensures PinsSound(Rules)
  {
    assert NoPins(Rules[5..]);
    assert NoPins(Rules[4..]);
    assert NoPins(Rules[3..]);
    assert NoPins(Rules[2..]);
    assert NoPins(Rules[1..]);
  }

  lemma RuleActions()
    ensures Actions(Rules) == ActionNames
  {
  }

  lemma ActionNamesDistinct()
    ensures NoDup(ActionNames)
  {
    var names := ActionNames;
    assert NoDup(names[5..]);
    assert NoDup(names[4..]);
    assert NoDup(names[3..]);
    assert NoDup(names[2..]);
    assert NoDup(names[1..]);
  }

  lemma DefaultsApart()
    ensures ActionsAvoid([Exploration, Visualization], ActionNames)
  {
    assert ActionsAvoid([Visualization], ActionNames);
  }

  /** The generic table meets the conditions the decomposer's guarantees rest on. */
  lemma DecompositionValid()
    ensures ValidConfig(Decomposition)
  {
    RulesPinned();
    RuleActions();
    ActionNamesDistinct();
    DefaultsApart();
  }

  lemma RulesInOrder()
    ensures |Rules| == 5
    ensures Rules[0] == Buffer && Rules[1] == Intersection && Rules[2] == Distance
    ensures Rules[3] == Density && Rules[4] == GreenSpace
  {
  }

  // ---------------------------------------------------------------------
  // Result table of `_generate_sample_result`
  // ---------------------------------------------------------------------

  const GreenSpaceEntry: Entry := Entry("green_space_analysis", [
      Metric("total_green_space_area", Float("2.5")),
      Metric("green_space_percentage", Float("15.3")),
      Metric("average_distance_to_green_space", Float("0.8")),
      Metric("accessibility_score", Float("7.2"))],
    "Analysis shows 15.3% green space coverage with good accessibility (average 0.8km distance)")

  const DensityEntry: Entry := Entry("density_analysis", [
      Metric("high_density_areas", Int(3)),
      Metric("medium_density_areas", Int(7)),
      Metric("low_density_areas", Int(12)),
      Metric("clustering_coefficient", Float("0.65"))],
    "Spatial distribution shows moderate clustering with 3 high-density zones identified")

  const BufferEntry: Entry := Entry("buffer_analysis", [
      Metric("buffer_distance", Int(500)),
      Metric("features_within_buffer", Int(45)),
      Metric("total_buffer_area", Float("1.2"))],
    "Buffer analysis identified 45 features within 500m radius")

  const Entries: seq<Entry> := [GreenSpaceEntry, DensityEntry, BufferEntry]

  /** The actions with an entry, in the order the `elif` chain tests them. */
  const EntryNames: seq<string> := ["green_space_analysis", "density_analysis", "buffer_analysis"]

  /** The `else` branch: a completed status over 150 features. */
  const FallbackResult: Fallback := Fallback([
      Metric("status", Str("completed")),
      Metric("features_processed", Int(150)),
      Metric("processing_time", Float("2.3"))],
    "Successfully completed ", " on 150 features")

  const Results: Table := Table(Entries, FallbackResult)

  /** The generic `/analyze` handler's profile: no extra response fields. */
  const Service: Profile := Profile(Decomposition, Results, "analysis steps", [])

  lemma EntriesNamed()
    ensures EntryActions(Entries) == EntryNames
  {
  }

  /** Each of the three actions with an entry gets that entry's result. */
  lemma BespokeResult(step: Step, k: nat)
    requires k < |EntryNames| && step.action == EntryNames[k]
    ensures Synthesize(Results, step).metrics == Entries[k].metrics
    ensures Synthesize(Results, step).explanation == Entries[k].explanation
  {
    EntriesNamed();
    SynthesizeBespoke(Results, step, k);
  }

  /** Every other action gets the generic result naming it. */
  lemma GenericResult(step: Step)
    requires step.action !in EntryNames
    ensures Synthesize(Results, step).metrics == FallbackResult.metrics
    ensures Synthesize(Results, step).explanation == "Successfully completed " + step.action + " on 150 features"
    ensures ExplainedAction(FallbackResult, Synthesize(Results, step).explanation) == Some(step.action)
  {
    EntriesNamed();
    SynthesizeFallback(Results, step);
  }

  // ---------------------------------------------------------------------
  // The buffer mismatch
  // ---------------------------------------------------------------------

  /** No query ever yields a `buffer_analysis` step, so that entry is unreachable through `/analyze`. */
  lemma BufferEntryUnreachable(query: string)
    ensures !Emits(Decompose(Decomposition, query), "buffer_analysis")
  {
    var r := Decompose(Decomposition, query);
    DecomposeActionsFromTable(Decomposition, query);
    RuleActions();
    forall i | 0 <= i < |r| ensures r[i].action != "buffer_analysis" {
      if r[i] !in Decomposition.defaults {
        assert r[i].action in ActionNames;
      }
    }
  }

  /** The step the buffer rule emits falls through to the generic result. */
  lemma CreateBufferIsGeneric(step: Step)
    requires step.action == Buffer.action
    ensures Synthesize(Results, step).metrics == FallbackResult.metrics
    ensures Synthesize(Results, step).explanation == FallbackResult.lead + "create_buffer" + FallbackResult.tail
  {
    assert step.action !in EntryNames;
    GenericResult(step);
  }

  /** Of the steps a query can produce, exactly the density and green-space steps get a bespoke result. */
  lemma ChainBespokeIff(query: string)
    ensures var r := Decompose(Decomposition, query);
      forall i :: 0 <= i < |r| ==>
        (Lookup(Entries, r[i].action).Some? <==> r[i].action == "density_analysis" || r[i].action == "green_space_analysis")
  {
    BufferEntryUnreachable(query);
    EntriesNamed();
  }

  /** A rule's action is in the chain exactly when one of that rule's triggers occurs in the lower-cased query. */
  lemma EmittedIffTriggered(query: string, j: nat)
    requires j < |Rules|
    ensures Emits(Decompose(Decomposition, query), Rules[j].action)
        <==> exists k :: 0 <= k < |Rules[j].triggers| && Contains(Lower(query), Rules[j].triggers[k])
  {
    DecompositionValid();
    ActionEmittedIff(Decomposition, query, j);
  }

  /**
   Of the five rules only density and green space have a result of their
   own; a step of any other rule, or of the default chain, gets the
   generic one.
   */
  lemma RuleResults(j: nat)
    requires j < |Rules|
    ensures Lookup(Entries, Rules[j].action).Some? <==> j == 3 || j == 4
  {
    RulesInOrder();
    EntriesNamed();
  }

  // ---------------------------------------------------------------------
  // Concrete queries
  // ---------------------------------------------------------------------

  /** The words of the query "Buffer around schools". */
  const BufferQuery: seq<string> := ["Buffer", "around", "schools"]

  const BufferWords: seq<string> := ["buffer", "around", "schools"]

  lemma BufferLower()
    ensures Lower(Unwords(BufferQuery)) == Unwords(BufferWords)
  {
    LowerWords(BufferQuery, BufferWords);
  }

  lemma BufferBuffer() ensures Fires(Buffer, Unwords(BufferWords)) {
    FiringRule(BufferWords, Buffer.triggers, 0, 0);
  }

  lemma BufferIntersection() ensures !Fires(Intersection, Unwords(BufferWords)) {
    SilentRule(BufferWords, Intersection.triggers, [AbsentChar('i'), AbsentChar('v')]);
  }

  lemma BufferDistance() ensures !Fires(Distance, Unwords(BufferWords)) {
    SilentRule(BufferWords, Distance.triggers, [AbsentChar('i'), AbsentChar('t')]);
  }

  lemma BufferDensity() ensures !Fires(Density, Unwords(BufferWords)) {
    SilentRule(BufferWords, Density.triggers, [AbsentChar('y'), AbsentChar('i')]);
  }

  lemma BufferGreenSpace() ensures !Fires(GreenSpace, Unwords(BufferWords)) {
    SilentRule(BufferWords, GreenSpace.triggers, [AbsentChar('g'), AbsentChar('g')]);
  }

  lemma BufferVerdicts(q: string)
    requires q == Unwords(BufferWords)
    ensures forall j :: 0 <= j < |Rules| ==> (Fires(Rules[j], q) <==> j in [0])
  {
    BufferBuffer();
    BufferIntersection();
    BufferDistance();
    BufferDensity();
    BufferGreenSpace();
    RulesInOrder();
  }

  lemma BufferSteps()
    ensures AppendSteps(Rules, [0], []) == [StepFor(Buffer, 0)]
  {
    RulesInOrder();
    assert [0][1..] == [];
  }

  /** The words join into the query text "Buffer around schools". */
  lemma BufferPhrase()
    ensures Unwords(BufferQuery) == "Buffer around schools"
  {
  }

  /** A buffer query gets one step, numbered 1 and named `create_buffer`. */
  lemma BufferAroundSchools()
    ensures Unwords(BufferQuery) == "Buffer around schools"
    ensures var r := Decompose(Decomposition, Unwords(BufferQuery));
      && r == [StepFor(Buffer, 0)]
      && r[0].number == 1 && r[0].action == "create_buffer"
  {
    BufferPhrase();
    BufferLower();
    var q := Lower(Unwords(BufferQuery));
    BufferVerdicts(q);
    RunFiring(Rules, q, [0]);
    BufferSteps();
  }

  /** ... and the result of that step is the generic one, not the buffer entry. */
  lemma BufferAroundSchoolsResult()
    ensures Execute(Results, Decompose(Decomposition, Unwords(BufferQuery)))
         == [Result(1, "create_buffer", FallbackResult.metrics, FallbackResult.lead + "create_buffer" + FallbackResult.tail)]
  {
    BufferAroundSchools();
    CreateBufferIsGeneric(StepFor(Buffer, 0));
  }

  /** The words of the query "vegetation density map". */
  const GreenWords: seq<string> := ["vegetation", "density", "map"]

  lemma GreenBuffer() ensures !Fires(Buffer, Unwords(GreenWords)) {
    SilentRule(GreenWords, Buffer.triggers, [AbsentChar('b')]);
  }

  lemma GreenIntersection() ensures !Fires(Intersection, Unwords(GreenWords)) {
    SilentRule(GreenWords, Intersection.triggers, [AbsentChar('c'), AbsentChar('l')]);
  }

  lemma GreenDistance() ensures !Fires(Distance, Unwords(GreenWords)) {
    SilentRule(GreenWords, Distance.triggers, [AbsentChar('c'), AbsentChar('r')]);
  }

  lemma GreenDensity() ensures Fires(Density, Unwords(GreenWords)) {
    FiringRule(GreenWords, Density.triggers, 0, 1);
  }

  lemma GreenGreenSpace() ensures Fires(GreenSpace, Unwords(GreenWords)) {
    FiringRule(GreenWords, GreenSpace.triggers, 1, 0);
  }

  lemma GreenVerdicts(q: string)
    requires q == Unwords(GreenWords)
    ensures forall j :: 0 <= j < |Rules| ==> (Fires(Rules[j], q) <==> j in [3, 4])
  {
    GreenBuffer();
    GreenIntersection();
    GreenDistance();
    GreenDensity();
    GreenGreenSpace();
    RulesInOrder();
  }

  lemma GreenSteps()
    ensures AppendSteps(Rules, [3, 4], []) == [StepFor(Density, 0), StepFor(GreenSpace, 1)]
  {
    RulesInOrder();
    assert [3, 4][1..] == [4] && [4][1..] == [];
  }

  /** The words join into the query text "vegetation density map". */
  lemma GreenPhrase()
    ensures Unwords(GreenWords) == "vegetation density map"
  {
  }

  /** Density and vegetation both fire: two steps in table order, each with its bespoke result. */
  lemma VegetationDensityMap()
    ensures Unwords(GreenWords) == "vegetation density map"
    ensures var r := Decompose(Decomposition, Unwords(GreenWords));
      && r == [StepFor(Density, 0), StepFor(GreenSpace, 1)]
      && r[0].number == 1 && r[0].action == "density_analysis"
      && r[1].number == 2 && r[1].action == "green_space_analysis"
  {
    GreenPhrase();
    LowerWords(GreenWords, GreenWords);
    var q := Lower(Unwords(GreenWords));
    GreenVerdicts(q);
    RunFiring(Rules, q, [3, 4]);
    GreenSteps();
  }

  /** The density step of that chain reports 3 high-density zones. */
  lemma DensityReport()
    ensures Synthesize(Results, StepFor(Density, 0)).explanation
         == "Spatial distribution shows moderate clustering with 3 high-density zones identified"
  {
    BespokeResult(StepFor(Density, 0), 1);
  }

  /** The words of the query "show me data". */
  const PlainWords: seq<string> := ["show", "me", "data"]

  lemma PlainBuffer() ensures !Fires(Buffer, Unwords(PlainWords)) {
    SilentRule(PlainWords, Buffer.triggers, [AbsentChar('b')]);
  }

  lemma PlainIntersection() ensures !Fires(Intersection, Unwords(PlainWords)) {
    SilentRule(PlainWords, Intersection.triggers, [AbsentChar('i'), AbsentChar('v')]);
  }

  lemma PlainDistance() ensures !Fires(Distance, Unwords(PlainWords)) {
    SilentRule(PlainWords, Distance.triggers, [AbsentChar('i'), AbsentChar('r')]);
  }

  lemma PlainDensity() ensures !Fires(Density, Unwords(PlainWords)) {
    SilentRule(PlainWords, Density.triggers, [AbsentChar('y'), AbsentChar('i')]);
  }

  lemma PlainGreenSpace() ensures !Fires(GreenSpace, Unwords(PlainWords)) {
    SilentRule(PlainWords, GreenSpace.triggers, [AbsentChar('g'), AbsentChar('g')]);
  }

  lemma PlainVerdicts(q: string)
    requires q == Unwords(PlainWords)
    ensures forall j :: 0 <= j < |Rules| ==> !Fires(Rules[j], q)
  {
    PlainBuffer();
    PlainIntersection();
    PlainDistance();
    PlainDensity();
    PlainGreenSpace();
    RulesInOrder();
  }

  /** The words join into the query text "show me data". */
  lemma PlainPhrase()
    ensures Unwords(PlainWords) == "show me data"
  {
  }

  /** A query that names no known operation gets the two default steps. */
  lemma ShowMeData()
    ensures Unwords(PlainWords) == "show me data"
    ensures Decompose(Decomposition, Unwords(PlainWords)) == [Exploration, Visualization]
  {
    PlainPhrase();
    LowerWords(PlainWords, PlainWords);
    var q := Lower(Unwords(PlainWords));
    PlainVerdicts(q);
    ChainFromFiredRules(Rules, q);
  }

  // ---------------------------------------------------------------------
  // The generic `/analyze` handler
  // ---------------------------------------------------------------------

  /**
   An accepted request reports between one and five steps, one result per
   step, a summary that reads back as the step count and the query, and
   no extra fields.
   */
  lemma GenericAccepted(query: string, mapHtml: string)
    requires query != ""
    ensures var r := Analyze(Service, Request(Some(query)), mapHtml);
      && r.Ok?
      && 1 <= |r.response.chainOfThought| <= 5
      && Numbered(r.response.chainOfThought)
      && |r.response.results| == |r.response.chainOfThought|
      && ParseSummary("analysis steps", r.response.summary) == Some((|r.response.chainOfThought|, query))
      && r.response.scope == []
  {
    DecompositionValid();
    DecomposeShape(Decomposition, query);
    AnalyzeAccepted(Service, query, mapHtml);
  }

  /** The summary sentence of an accepted request, word for word. */
  lemma GenericSummary(query: string, mapHtml: string)
    requires query != ""
    ensures var r := Analyze(Service, Request(Some(query)), mapHtml);
      && r.Ok?
      && r.response.summary == "Completed " + Decimal(|r.response.chainOfThought|) + " analysis steps for: " + query
  {
    var r := Analyze(Service, Request(Some(query)), mapHtml);
    var n := |r.response.chainOfThought|;
    assert r.response.summary == Summary(Service.noun, n, query);
    ServiceNoun();
    NounSentence(n, query);
  }

  lemma ServiceNoun() ensures Service.noun == "analysis steps" { }

  lemma NounSentence(n: nat, query: string)
    ensures Summary("analysis steps", n, query) == "Completed " + Decimal(n) + " analysis steps for: " + query
  {
    SummaryMiddle("analysis steps", n, query, " analysis steps for: ");
  }
}
