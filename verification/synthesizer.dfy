/**
 The canned-result synthesiser (`execute_analysis` with `sample_data=True`
 and `_generate_sample_result` / `_generate_india_sample_result`). Each
 step is mapped to a result by looking its action up in a fixed table of
 bespoke results, tried in the order of the source's `if`/`elif` chain;
 an action without an entry gets the variant's generic result, whose
 explanation names the action.
 */
module Synthesizer {
  import opened Wrappers
  import opened Decomposer

  /** A metric value as the source writes it: an int, a float kept as its literal, or a string. */
  datatype Value = Int(n: int) | Float(literal: string) | Str(s: string)

  datatype Metric = Metric(name: string, value: Value)

  /** One `if action == ...` branch: its metrics (the `result` dictionary) and its `explanation`. */
  datatype Entry = Entry(action: string, metrics: seq<Metric>, explanation: string)

  /** The `else` branch: fixed metrics and the explanation `lead + action + tail`. */
  datatype Fallback = Fallback(metrics: seq<Metric>, lead: string, tail: string)

  datatype Table = Table(entries: seq<Entry>, fallback: Fallback)

  /** The result dictionary of one step: `step`, `action`, `result` and `explanation`. */
  datatype Result = Result(number: nat, action: string, metrics: seq<Metric>, explanation: string)

  /** The position of the first entry for `action`, as the `elif` chain finds it. */
  function Lookup(entries: seq<Entry>, action: string): (r: Option<nat>)
    ensures r.Some? ==> r.value < |entries| && entries[r.value].action == action
    ensures r.Some? ==> forall k :: 0 <= k < r.value ==> entries[k].action != action
    ensures r.None? <==> forall k :: 0 <= k < |entries| ==> entries[k].action != action
  {
    if |entries| == 0 then None
    else if entries[0].action == action then Some(0)
    else match Lookup(entries[1..], action)
      case None => None
      case Some(k) => Some(k + 1)
  }

  function Synthesize(table: Table, step: Step): (r: Result)
    ensures r.number == step.number && r.action == step.action
  {
    match Lookup(table.entries, step.action)
    case Some(k) =>
      var e := table.entries[k];
      Result(step.number, step.action, e.metrics, e.explanation)
    case None =>
      var fb := table.fallback;
      Result(step.number, step.action, fb.metrics, fb.lead + step.action + fb.tail)
  }

  /** Recovers the action named by a generic explanation, if the text has the generic shape. */
  function ExplainedAction(fb: Fallback, text: string): (r: Option<string>)
    ensures r.Some? ==> text == fb.lead + r.value + fb.tail
  {
    if |fb.lead| + |fb.tail| <= |text|
      && text[..|fb.lead|] == fb.lead
      && text[|text| - |fb.tail|..] == fb.tail
    then
      var action := text[|fb.lead|..|text| - |fb.tail|];
      assert text == text[..|fb.lead|] + action + text[|text| - |fb.tail|..];
      Some(action)
    else None
  }

  /** Every action put between the lead and the tail is read back out. */
  lemma ExplanationReadsBack(fb: Fallback, a: string)
    ensures ExplainedAction(fb, fb.lead + a + fb.tail) == Some(a)
  {
    var text := fb.lead + a + fb.tail;
    assert text[..|fb.lead|] == fb.lead;
    assert text[|text| - |fb.tail|..] == fb.tail;
    assert text[|fb.lead|..|text| - |fb.tail|] == a;
  }

  /** A step whose action has an entry gets that entry's metrics and explanation, from the first such entry. */
  lemma SynthesizeBespoke(table: Table, step: Step, k: nat)
    requires k < |table.entries| && table.entries[k].action == step.action
    requires forall k' :: 0 <= k' < k ==> table.entries[k'].action != step.action
    ensures Synthesize(table, step).metrics == table.entries[k].metrics
    ensures Synthesize(table, step).explanation == table.entries[k].explanation
  {
    assert Lookup(table.entries, step.action) == Some(k);
  }

  /**
   Synthesis is total: an action without an entry gets the generic metrics,
   and its explanation names exactly that action.
   */
  lemma SynthesizeFallback(table: Table, step: Step)
    requires forall k :: 0 <= k < |table.entries| ==> table.entries[k].action != step.action
    ensures Synthesize(table, step).metrics == table.fallback.metrics
    ensures ExplainedAction(table.fallback, Synthesize(table, step).explanation) == Some(step.action)
  {
    ExplanationReadsBack(table.fallback, step.action);
  }

  /** The actions that have an entry, in table order. */
  function EntryActions(entries: seq<Entry>): (names: seq<string>)
    ensures |names| == |entries|
    ensures forall k :: 0 <= k < |entries| ==> names[k] == entries[k].action
  {
    if |entries| == 0 then [] else [entries[0].action] + EntryActions(entries[1..])
  }

  /**
   When the result table has exactly one entry per rule, every step of a
   matched query's chain gets a bespoke result, and both steps of the
   default chain get the generic one.
   */
  lemma ChainSynthesis(cfg: Config, table: Table, query: string)
    requires ValidConfig(cfg)
    requires EntryActions(table.entries) == Actions(cfg.rules)
    ensures var chain := Decompose(cfg, query);
      && (chain == cfg.defaults ==>
            forall i :: 0 <= i < |chain| ==> Synthesize(table, chain[i]).metrics == table.fallback.metrics)
      && (chain != cfg.defaults ==>
            forall i :: 0 <= i < |chain| ==>
              exists k :: 0 <= k < |table.entries|
                && table.entries[k].action == chain[i].action
                && Synthesize(table, chain[i]).metrics == table.entries[k].metrics)
  {
    var chain := Decompose(cfg, query);
    var names := Actions(cfg.rules);
    ChainActions(cfg, query);
    forall i | 0 <= i < |chain|
      ensures chain == cfg.defaults ==> Synthesize(table, chain[i]).metrics == table.fallback.metrics
      ensures chain != cfg.defaults ==>
        exists k :: 0 <= k < |table.entries|
          && table.entries[k].action == chain[i].action
          && Synthesize(table, chain[i]).metrics == table.entries[k].metrics
    {
      match Lookup(table.entries, chain[i].action)
      case None =>
        assert chain[i].action !in names;
      case Some(k) =>
        assert chain[i].action == names[k];
    }
  }

  /** `execute_analysis` on the sample path: one result per step, in step order. */
  function Execute(table: Table, steps: seq<Step>): (rs: seq<Result>)
    ensures |rs| == |steps|
    ensures forall i :: 0 <= i < |steps| ==> rs[i] == Synthesize(table, steps[i])
    ensures forall i :: 0 <= i < |steps| ==> rs[i].number == steps[i].number && rs[i].action == steps[i].action
  {
    if |steps| == 0 then []
    else [Synthesize(table, steps[0])] + Execute(table, steps[1..])
  }
}
