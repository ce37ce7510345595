# Chain-of-thought spatial analysis: the decomposer and the result synthesiser

The repository's backend answers a free-text spatial-analysis question in
two steps. First a **task decomposer** (`decompose_task`) lower-cases the query
and walks a fixed, ordered table of keyword rules. Each rule that has a
trigger substring in the query appends one step. If no rule matches, a fixed
two-step default chain is returned. Then a **result synthesiser**
(`execute_analysis` with `sample_data=True`) maps every step to a canned
result by looking its action up in a fixed table. An action without an entry
gets a generic result whose explanation names it. The `/analyze` handler
refuses a missing or empty query with status 400. Otherwise it returns the
chain, the results, the rendered map and a summary sentence.

There are two variants of all of this:

- the generic one in `spatial_analysis.py`: five rules, three bespoke results;
- the India one in `india_spatial_analysis.py`: seven rules, seven bespoke
  results, plus two fixed scope fields in the response.

The model writes the decomposer, synthesiser and handler once, parameterised
by a rule table, a result table and a response profile. It then instantiates
them once per variant.

| file | module | contents |
|---|---|---|
| `wrappers.dfy` | `Wrappers` | `Option` |
| `text.dfy` | `Text` | ASCII lower-casing, substring containment, words, decimal numerals |
| `decomposer.dfy` | `Decomposer` | rules, `Decompose`, its reference description (`Selects`) and the lemmas about it |
| `synthesizer.dfy` | `Synthesizer` | result tables, `Synthesize`, `Execute` |
| `endpoint.dfy` | `Endpoint` | `Analyze`, the summary sentence and its parser |
| `india.dfy` | `India` | the India rule table, result table, profile, scenarios, rainfall shading |
| `generic.dfy` | `Generic` | the generic rule table, result table, profile, scenarios |

Two behaviours of the source are modelled as written:

- The generic buffer rule emits the action `create_buffer`. The generic
  synthesiser has an entry for `buffer_analysis` only. So a buffer step gets
  the generic result, and the `buffer_analysis` entry is reachable only by a
  caller that builds such a step itself (`Generic.BufferEntryUnreachable`,
  `Generic.BufferAroundSchoolsResult`).
- The first rule of each table writes the step number `1` instead of
  `len(steps) + 1`. The model keeps this as a pinned number (`Pinned(1)`).
  `Decomposer.DecomposeShape` shows it always coincides with the counted
  number, because only the first rule is pinned.

Metric values that are floats in the source are kept as their decimal
literals (`Float("85.2")`); nothing computes with them. The map HTML is an
opaque string parameter of `Analyze`.

## Model

| member | source | states |
|---|---|---|
| Text.LowerFixedPoints | spatial_analysis.py:25 | A string is its own lower-cased form exactly when it has no upper-case ASCII letter |
| Text.LowerIdempotent | india_spatial_analysis.py:25 | Lower-casing twice is lower-casing once |
| Text.Lower | spatial_analysis.py:25 | `user_query.lower()` keeps the length, maps each upper-case ASCII letter to its lower-case partner and leaves every other character alone |
| Text.Contains | india_spatial_analysis.py:27 | The `t in s` test holds exactly when `t` occurs in `s` at some position |
| Text.Decimal | india_spatial_analysis.py:351 | The numeral `len(...)` prints is non-empty, all digits, and starts with `0` only when it is `"0"` |
| Text.DecimalRoundTrip | india_spatial_analysis.py:351 | The decimal numeral of a count reads back as that count |
| Text.DecimalOfCanonical | spatial_analysis.py:235 | Conversely, every numeral without a leading zero is the printed form of the number it reads as |
| Decomposer.Decompose | india_spatial_analysis.py:20-100 | `decompose_task` returns the default chain or a chain of one to as many steps as there are rules |
| Decomposer.Run | india_spatial_analysis.py:27-82 | Walking the rule table keeps the steps already emitted as a prefix and adds at most one step per rule |
| Decomposer.RunNumbered | india_spatial_analysis.py:29-79 | Counted steps (and a pin of 1 on the first rule only) number the chain 1..n with no gap or repeat |
| Decomposer.ChainFromFiredRules | spatial_analysis.py:27-65 | The rule walk's output is the steps of exactly the firing rules, one each, in table order, and is empty exactly when no rule fires |
| Decomposer.DecomposeSelects | spatial_analysis.py:25-84 | `decompose_task` returns the default chain when no rule fires, otherwise the steps of exactly the firing rules in table order |
| Decomposer.DecomposeShape | india_spatial_analysis.py:84-100 | The chain is never empty, is numbered 1..n, and is either the defaults or no longer than the rule table |
| Decomposer.DecomposeActionsFromTable | spatial_analysis.py:27-82 | Every step is a default step or carries a rule's action |
| Decomposer.ActionEmittedIff | india_spatial_analysis.py:27-82 | A rule's action is in the chain if and only if one of its triggers is a substring of the lower-cased query |
| Decomposer.DefaultIffNoMatch | spatial_analysis.py:68-82 | The default chain is returned if and only if no rule fires |
| Decomposer.ChainActions | india_spatial_analysis.py:84-98 | The default chain carries no rule action; any other chain carries only rule actions |
| Decomposer.DecomposeIgnoresCase | spatial_analysis.py:25 | Queries equal after ASCII lower-casing decompose alike |
| Decomposer.ChainInTableOrder | india_spatial_analysis.py:27-82 | Two steps of a matched chain come from rules in table order, whatever the keywords' positions in the query |
| Decomposer.AnyContainedIff | india_spatial_analysis.py:51 | A rule with several triggers, multi-word ones such as "air quality" included, fires iff one of them is contained |
| Decomposer.RunFiring | spatial_analysis.py:27-65 | If exactly the rules at the increasing positions `idx` fire, the chain is those rules' steps in that order, each numbered from the count of steps before it |
| Synthesizer.Lookup | india_spatial_analysis.py:123-219 | The `if`/`elif` chain finds the first entry with the step's action, and none exactly when no entry has it |
| Synthesizer.Synthesize | india_spatial_analysis.py:118-231 | A result copies the step's number and action |
| Synthesizer.SynthesizeBespoke | spatial_analysis.py:107-143 | An action with an entry gets that entry's metrics and explanation |
| Synthesizer.SynthesizeFallback | spatial_analysis.py:144-154 | Any other action gets the generic metrics, and its explanation reads back as exactly that action |
| Synthesizer.ExplainedAction | india_spatial_analysis.py:230 | Reading an action out of an explanation returns only an `a` with text `lead + a + tail` |
| Synthesizer.ExplanationReadsBack | spatial_analysis.py:153 | Conversely, every text `lead + a + tail` gives back exactly `a` |
| Synthesizer.ChainSynthesis | india_spatial_analysis.py:102-231 | With one entry per rule, every step of a matched chain gets a bespoke result and every default step the generic one |
| Synthesizer.Execute | spatial_analysis.py:86-100 | One result per step, in step order, each copying its step's number and action |
| Endpoint.Summary | spatial_analysis.py:235 | The summary sentence reads back as the step count and the query |
| Endpoint.SummaryParsedBack | india_spatial_analysis.py:351 | Every sentence the parser accepts is exactly the summary of the count and query it reads, so the parse is a two-sided inverse |
| Endpoint.Analyze | spatial_analysis.py:212-236 | A missing or empty query is refused with 400 "Query is required"; otherwise one result per step, the map and the scope fields pass through, and the summary is that of the step count and the query |
| Endpoint.AnalyzeAccepted | india_spatial_analysis.py:327-356 | An accepted request carries the query's decomposition, its synthesised results and a summary that reads back as the count and query and is the only sentence that does |
| India.DecompositionValid | india_spatial_analysis.py:27-98 | The India rule table pins only its first rule to 1, its actions are distinct, and the defaults are numbered 1, 2 and avoid every rule action |
| India.RulesInOrder | india_spatial_analysis.py:27-81 | The seven rules in order: monsoon, agricultural, urban planning, pollution, disaster risk, demographic, transportation |
| India.MonsoonAndUrbanFlood | india_spatial_analysis.py:27-65 | The words spell "monsoon and urban flood analysis", which gives monsoon, urban planning, disaster risk numbered 1, 2, 3 |
| India.RainfallForAgriculture | india_spatial_analysis.py:27-41 | The words spell "What is the rainfall pattern for agriculture?", which gives monsoon then agricultural, numbered 1, 2 |
| India.HelloWorldDefaults | india_spatial_analysis.py:84-98 | "hello world", naming no topic, gets `india_data_exploration` then `regional_pattern_analysis` |
| India.EmittedIffTriggered | india_spatial_analysis.py:25-75 | An India rule's action is emitted iff one of its triggers occurs in the lower-cased query |
| India.ShoutedMonsoon | india_spatial_analysis.py:25 | "MONSOON" and "monsoon" decompose alike |
| India.ResultsCoverRules | india_spatial_analysis.py:123-219 | The India result table has exactly one entry per rule action, in rule order |
| India.BespokeResult | india_spatial_analysis.py:122-218 | Each of the seven rule actions gets its own entry's metrics and explanation |
| India.MonsoonFigures | india_spatial_analysis.py:123-134 | The monsoon result reports 85.2 south-west monsoon coverage and 1200 mm average rainfall |
| India.GenericResult | india_spatial_analysis.py:220-231 | Any other action, defaults included, gets the 28-states/8-territories result naming it |
| India.ChainResults | india_spatial_analysis.py:102-231 | A matched India chain gets bespoke results only; the default chain gets the generic result for both steps |
| India.RainfallShade | india_spatial_analysis.py:302-307 | Rainfall above 2000 mm is dark blue, at most 1000 mm light blue |
| India.ShadeMonotone | india_spatial_analysis.py:302-307 | More rain never gives a lighter shade |
| India.ShadeBands | india_spatial_analysis.py:302-307 | Blue covers exactly 1000 < mm <= 2000, and the three bands partition the integers |
| India.SampleRegionShades | india_spatial_analysis.py:294-307 | Kerala (3000 mm) is dark blue, Rajasthan (300 mm) light blue, Bihar (1200 mm) blue |
| India.IndiaAccepted | india_spatial_analysis.py:325-354 | An accepted India query reports 1 to 7 steps numbered 1..n, one result each, a summary reading back as count and query, and the India scope fields |
| India.IndiaSummary | india_spatial_analysis.py:351 | The summary is word for word "Completed {n} India-specific analysis steps for: {query}" |
| Generic.DecompositionValid | spatial_analysis.py:27-82 | The generic rule table pins only its first rule to 1, its actions are distinct, and the defaults are numbered 1, 2 and avoid every rule action |
| Generic.RulesInOrder | spatial_analysis.py:27-65 | The five rules in order: buffer, intersection, distance, density, green space |
| Generic.EmittedIffTriggered | spatial_analysis.py:25-59 | A generic rule's action is emitted iff one of its triggers occurs in the lower-cased query |
| Generic.BespokeResult | spatial_analysis.py:107-143 | The green space, density and buffer entries give their own metrics and explanations |
| Generic.GenericResult | spatial_analysis.py:144-154 | Any other action gets the 150-features result naming it |
| Generic.BufferEntryUnreachable | spatial_analysis.py:27-33 | No query yields a `buffer_analysis` step |
| Generic.CreateBufferIsGeneric | spatial_analysis.py:30 | The `create_buffer` step falls through to the generic result |
| Generic.ChainBespokeIff | spatial_analysis.py:102-154 | Of the steps a query can produce, exactly the density and green-space steps get a bespoke result |
| Generic.RuleResults | spatial_analysis.py:106-143 | Of the five rules only density and green space have an entry |
| Generic.BufferAroundSchools | spatial_analysis.py:27-33 | The words spell "Buffer around schools", which gives the single step `create_buffer` numbered 1 |
| Generic.BufferAroundSchoolsResult | spatial_analysis.py:144-154 | ...whose result is the generic one, "Successfully completed create_buffer on 150 features" |
| Generic.VegetationDensityMap | spatial_analysis.py:51-65 | The words spell "vegetation density map", which gives density then green space, numbered 1, 2 |
| Generic.DensityReport | spatial_analysis.py:119-130 | The density step reports 3 high-density zones |
| Generic.ShowMeData | spatial_analysis.py:68-82 | "show me data", naming no operation, gets `data_exploration` then `spatial_visualization` |
| Generic.GenericAccepted | spatial_analysis.py:209-236 | An accepted generic query reports 1 to 5 steps numbered 1..n, one result each, a summary reading back as count and query, and no extra fields |
| Generic.GenericSummary | spatial_analysis.py:235 | The summary is word for word "Completed {n} analysis steps for: {query}" |

## Left out

- Flask routing, `request.get_json` and `jsonify` are transport. The request is modelled as an optional query string: `None` when the key is absent, which `data.get('query', '')` treats like an empty query.
- The `except Exception` path with status 500 is left out, and so is a non-string `query` value, the model's query being always a string. The two are linked: a non-zero number, `true`, or a non-empty list or object passes the `if not user_query` test, raises at `user_query.lower()` (line 25 of either file) and ends in that 500 reply. A body that is not a JSON object, and failures of the map renderer, reach it too. A falsy non-string value (`0`, `false`, `[]`, `{}`) fails the test and gets the 400 reply, as `""` does; JSON `null` behaves like an absent key, which the model's `Request(None)` covers.
- `create_sample_map` and `create_india_sample_map` render folium maps; the map HTML is an opaque parameter of `Analyze`. Only the rainfall colour banding of the India map is modelled.
- The `/tools`, `/sample-data`, `/states` and `/health` endpoints are constant tables with no behaviour.
- `_execute_real_analysis` is a placeholder returning nothing, so the `sample_data=False` path is left out.
- Floating-point metric values are carried as decimal literals, not numbers; no arithmetic is done on them.
- `str.lower` is modelled for ASCII letters only; other characters are left unchanged.
- App.jsx and MapComponent.jsx are the React front end and are not part of this model.
