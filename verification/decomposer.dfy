/**
 The keyword-driven task decomposer shared by both analyzers
 (`decompose_task` in the generic and the India variant). A variant is a
 `Config`: an ordered table of rules and the fixed default chain used when
 no rule fires. The query is lower-cased once; the rules are then walked in
 declaration order and every rule with a trigger inside the lower-cased
 query appends one step, numbered by the count of steps appended before it.
 */
module Decomposer {
  import opened Text

  /** One link of the chain of thought: the source's `step`, `action`, `description` and `reasoning` keys. */
  datatype Step = Step(number: nat, action: string, description: string, reasoning: string)

  /**
   How a rule numbers the step it appends: `len(steps) + 1` at the moment of
   appending, or a number written into the rule itself (the first rule of
   each source table says `'step': 1`).
   */
  datatype Numbering = Counted | Pinned(n: nat)

  datatype Rule = Rule(
    triggers: seq<string>,
    numbering: Numbering,
    action: string,
    description: string,
    reasoning: string)

  datatype Config = Config(rules: seq<Rule>, defaults: seq<Step>)

  // ---------------------------------------------------------------------
  // The decomposer
  // ---------------------------------------------------------------------

  /** Some trigger of `ts` is a substring of `q`. */
  predicate AnyContained(q: string, ts: seq<string>) {
    |ts| > 0 && (Contains(q, ts[0]) || AnyContained(q, ts[1..]))
  }

  /** The rule's `if 'a' in query_lower or 'b' in query_lower ...` test. */
  predicate Fires(rule: Rule, q: string) {
    AnyContained(q, rule.triggers)
  }

  /** The step a rule appends after `emitted` steps were appended before it. */
  function StepFor(rule: Rule, emitted: nat): Step {
    var number := match rule.numbering
      case Counted => emitted + 1
      case Pinned(n) => n;
    Step(number, rule.action, rule.description, rule.reasoning)
  }

  /** Walks the remaining `rules` over the lower-cased query `q`, appending to the steps `acc` emitted so far. */
  function Run(rules: seq<Rule>, q: string, acc: seq<Step>): (r: seq<Step>)
    ensures |acc| <= |r| <= |acc| + |rules|
    ensures r[..|acc|] == acc
    decreases |rules|
  {
    if |rules| == 0 then acc
    else
      var acc' := if Fires(rules[0], q) then acc + [StepFor(rules[0], |acc|)] else acc;
      Run(rules[1..], q, acc')
  }

  /**
   `decompose_task`: the steps of the rules the lower-cased query fires, in
   table order, or the default chain when none fires.
   */
  function Decompose(cfg: Config, query: string): (r: seq<Step>)
    ensures r == cfg.defaults || 1 <= |r| <= |cfg.rules|
  {
    var chain := Run(cfg.rules, Lower(query), []);
    if |chain| == 0 then cfg.defaults else chain
  }

  // ---------------------------------------------------------------------
  // Well-formed tables
  // ---------------------------------------------------------------------

  function Actions(rules: seq<Rule>): (names: seq<string>)
    ensures |names| == |rules|
    ensures forall j :: 0 <= j < |rules| ==> names[j] == rules[j].action
  {
    if |rules| == 0 then [] else [rules[0].action] + Actions(rules[1..])
  }

  predicate NoDup(xs: seq<string>) {
    |xs| == 0 || (xs[0] !in xs[1..] && NoDup(xs[1..]))
  }

  predicate NoPins(rules: seq<Rule>) {
    |rules| == 0 || (rules[0].numbering.Counted? && NoPins(rules[1..]))
  }

  /** Only the first rule may carry a hard-coded number, and that number is 1. */
  predicate PinsSound(rules: seq<Rule>) {
    |rules| == 0 || ((rules[0].numbering.Counted? || rules[0].numbering == Pinned(1)) && NoPins(rules[1..]))
  }

  predicate ActionsAvoid(steps: seq<Step>, names: seq<string>) {
    |steps| == 0 || (steps[0].action !in names && ActionsAvoid(steps[1..], names))
  }

  /** Step numbers are exactly 1..|steps| in order. */
  predicate Numbered(steps: seq<Step>) {
    forall i :: 0 <= i < |steps| ==> steps[i].number == i + 1
  }

  predicate ValidConfig(cfg: Config) {
    && PinsSound(cfg.rules)
    && NoDup(Actions(cfg.rules))
    && 1 <= |cfg.defaults|
    && Numbered(cfg.defaults)
    && ActionsAvoid(cfg.defaults, Actions(cfg.rules))
  }

  lemma {:induction false} NoDupDistinct(xs: seq<string>)
    requires NoDup(xs)
    ensures forall j, k :: 0 <= j < |xs| && 0 <= k < |xs| && xs[j] == xs[k] ==> j == k
  {
    if |xs| > 0 {
      NoDupDistinct(xs[1..]);
      forall j, k | 0 <= j < k < |xs|
        ensures xs[j] != xs[k]
      {
        assert xs[k] == xs[1..][k - 1];
        if j > 0 {
          assert xs[j] == xs[1..][j - 1];
        }
      }
    }
  }

  lemma {:induction false} ActionsAvoidAll(steps: seq<Step>, names: seq<string>)
    requires ActionsAvoid(steps, names)
    ensures forall i :: 0 <= i < |steps| ==> steps[i].action !in names
  {
    if |steps| > 0 {
      ActionsAvoidAll(steps[1..], names);
      forall i | 0 < i < |steps|
        ensures steps[i].action !in names
      {
        assert steps[i] == steps[1..][i - 1];
      }
    }
  }

  lemma NoPinsTail(rules: seq<Rule>)
    requires NoPins(rules) || PinsSound(rules)
    requires |rules| > 0
    ensures NoPins(rules[1..])
  {
  }

  // ---------------------------------------------------------------------
  // Numbering
  // ---------------------------------------------------------------------

  /** Every appended step is numbered by its position, including the one a pinned first rule appends. */
  lemma {:induction false} RunNumbered(rules: seq<Rule>, q: string, acc: seq<Step>)
    requires Numbered(acc)
    requires NoPins(rules) || (|acc| == 0 && PinsSound(rules))
    ensures Numbered(Run(rules, q, acc))
    decreases |rules|
  {
    if |rules| > 0 {
      var acc' := if Fires(rules[0], q) then acc + [StepFor(rules[0], |acc|)] else acc;
      assert Numbered(acc');
      NoPinsTail(rules);
      RunNumbered(rules[1..], q, acc');
    }
  }

  // ---------------------------------------------------------------------
  // Which rules fire, and in which order
  // ---------------------------------------------------------------------

  function Shift(xs: seq<nat>): (ys: seq<nat>)
    ensures |ys| == |xs|
    ensures forall i :: 0 <= i < |xs| ==> ys[i] == xs[i] + 1
  {
    seq(|xs|, i requires 0 <= i < |xs| => xs[i] + 1)
  }

  /** The indices of the rules that fire on `q`, in table order. */
  function FiredIndices(rules: seq<Rule>, q: string): seq<nat>
    decreases |rules|
  {
    if |rules| == 0 then []
    else (if Fires(rules[0], q) then [0] else []) + Shift(FiredIndices(rules[1..], q))
  }

  /** The step carries the rule's action, description and reasoning. */
  predicate Carries(step: Step, rule: Rule) {
    step.action == rule.action && step.description == rule.description && step.reasoning == rule.reasoning
  }

  /** Every `out[i]` comes from rule `idx[i]`, and that rule fires. */
  ghost predicate FromFiring(rules: seq<Rule>, q: string, out: seq<Step>, idx: seq<nat>) {
    && |idx| == |out|
    && forall i :: 0 <= i < |out| ==> idx[i] < |rules| && Fires(rules[idx[i]], q) && Carries(out[i], rules[idx[i]])
  }

  ghost predicate Increasing(idx: seq<nat>) {
    forall i, k :: 0 <= i < k < |idx| ==> idx[i] < idx[k]
  }

  ghost predicate CoversFiring(rules: seq<Rule>, q: string, idx: seq<nat>) {
    forall j :: 0 <= j < |rules| && Fires(rules[j], q) ==> j in idx
  }

  /**
   Reference description of a chain: `out[i]` comes from rule `idx[i]`, which
   fires; the rule indices strictly increase (table order, each rule at most
   once); and every rule that fires is among them.
   */
  ghost predicate Selects(rules: seq<Rule>, q: string, out: seq<Step>, idx: seq<nat>) {
    FromFiring(rules, q, out, idx) && Increasing(idx) && CoversFiring(rules, q, idx)
  }

  function Head(rules: seq<Rule>, q: string, n: nat): seq<Step>
    requires |rules| > 0
  {
    if Fires(rules[0], q) then [StepFor(rules[0], n)] else []
  }

  function HeadIdx(rules: seq<Rule>, q: string): seq<nat>
    requires |rules| > 0
  {
    if Fires(rules[0], q) then [0] else []
  }

  lemma FromFiringPrepend(rules: seq<Rule>, q: string, n: nat, rest: seq<Step>, tailIdx: seq<nat>)
    requires |rules| > 0
    requires FromFiring(rules[1..], q, rest, tailIdx)
    ensures FromFiring(rules, q, Head(rules, q, n) + rest, HeadIdx(rules, q) + Shift(tailIdx))
  {
    var head := Head(rules, q, n);
    var out := head + rest;
    var idx := HeadIdx(rules, q) + Shift(tailIdx);
    forall i | |head| <= i < |out|
      ensures idx[i] < |rules| && Fires(rules[idx[i]], q) && Carries(out[i], rules[idx[i]])
    {
      assert out[i] == rest[i - |head|];
      assert idx[i] == tailIdx[i - |head|] + 1;
      assert rules[1..][tailIdx[i - |head|]] == rules[idx[i]];
    }
  }

  lemma IncreasingPrepend(rules: seq<Rule>, q: string, tailIdx: seq<nat>)
    requires |rules| > 0
    requires Increasing(tailIdx)
    ensures Increasing(HeadIdx(rules, q) + Shift(tailIdx))
  {
    var headIdx := HeadIdx(rules, q);
    var idx := headIdx + Shift(tailIdx);
    forall i, k | |headIdx| <= i < k < |idx|
      ensures idx[i] < idx[k]
    {
      assert idx[i] == tailIdx[i - |headIdx|] + 1;
      assert idx[k] == tailIdx[k - |headIdx|] + 1;
    }
  }

  lemma CoversPrepend(rules: seq<Rule>, q: string, tailIdx: seq<nat>)
    requires |rules| > 0
    requires CoversFiring(rules[1..], q, tailIdx)
    ensures CoversFiring(rules, q, HeadIdx(rules, q) + Shift(tailIdx))
  {
    var headIdx := HeadIdx(rules, q);
    var idx := headIdx + Shift(tailIdx);
    forall j | 0 < j < |rules| && Fires(rules[j], q)
      ensures j in idx
    {
      assert Fires(rules[1..][j - 1], q);
      var m :| 0 <= m < |tailIdx| && tailIdx[m] == j - 1;
      assert idx[|headIdx| + m] == j;
    }
  }

  lemma {:induction false} RunSelects(rules: seq<Rule>, q: string, acc: seq<Step>)
    ensures Selects(rules, q, Run(rules, q, acc)[|acc|..], FiredIndices(rules, q))
    decreases |rules|
  {
    if |rules| == 0 {
      assert Run(rules, q, acc)[|acc|..] == [];
    } else {
      var head := Head(rules, q, |acc|);
      var acc' := if Fires(rules[0], q) then acc + [StepFor(rules[0], |acc|)] else acc;
      var r := Run(rules, q, acc);
      assert r == Run(rules[1..], q, acc');
      RunSelects(rules[1..], q, acc');
      var tailIdx := FiredIndices(rules[1..], q);
      var rest := r[|acc'|..];
      assert r[..|acc'|] == acc';
      assert r[|acc|..] == head + rest;
      assert FiredIndices(rules, q) == HeadIdx(rules, q) + Shift(tailIdx);
      FromFiringPrepend(rules, q, |acc|, rest, tailIdx);
      IncreasingPrepend(rules, q, tailIdx);
      CoversPrepend(rules, q, tailIdx);
    }
  }

  /** The rule index every step of a chain comes from, the rule-level view of `Selects`. */
  lemma ChainFromFiredRules(rules: seq<Rule>, q: string)
    ensures var chain := Run(rules, q, []);
      |chain| == |FiredIndices(rules, q)| && Selects(rules, q, chain, FiredIndices(rules, q))
    ensures |Run(rules, q, [])| == 0 <==> forall j :: 0 <= j < |rules| ==> !Fires(rules[j], q)
  {
    RunSelects(rules, q, []);
    var chain := Run(rules, q, []);
    assert chain[0..] == chain;
    var idx := FiredIndices(rules, q);
    if |chain| > 0 {
      assert Fires(rules[idx[0]], q);
    }
  }

  // ---------------------------------------------------------------------
  // Properties of `Decompose`
  // ---------------------------------------------------------------------

  /** When no rule fires the fixed default chain is returned; otherwise the chain of the rules that fire, in table order. */
  lemma DecomposeSelects(cfg: Config, query: string)
    ensures var q := Lower(query);
      if forall j :: 0 <= j < |cfg.rules| ==> !Fires(cfg.rules[j], q)
      then Decompose(cfg, query) == cfg.defaults
      else Selects(cfg.rules, q, Decompose(cfg, query), FiredIndices(cfg.rules, q))
  {
    ChainFromFiredRules(cfg.rules, Lower(query));
  }

  /** The chain is never empty, is numbered 1..n, and holds at most one step per rule. */
  lemma DecomposeShape(cfg: Config, query: string)
    requires ValidConfig(cfg)
    ensures var r := Decompose(cfg, query);
      && 1 <= |r|
      && Numbered(r)
      && (|r| <= |cfg.rules| || r == cfg.defaults)
  {
    RunNumbered(cfg.rules, Lower(query), []);
  }

  /** Each step names either a rule's action or is one of the default steps. */
  lemma DecomposeActionsFromTable(cfg: Config, query: string)
    ensures var r := Decompose(cfg, query);
      forall i :: 0 <= i < |r| ==> r[i] in cfg.defaults || r[i].action in Actions(cfg.rules)
  {
    DecomposeSelects(cfg, query);
  }

  /** A rule's action is in the chain exactly when one of its triggers is a substring of the lower-cased query. */
  lemma ActionEmittedIff(cfg: Config, query: string, j: nat)
    requires ValidConfig(cfg)
    requires j < |cfg.rules|
    ensures (exists i :: 0 <= i < |Decompose(cfg, query)| && Decompose(cfg, query)[i].action == cfg.rules[j].action)
        <==> exists k :: 0 <= k < |cfg.rules[j].triggers| && Contains(Lower(query), cfg.rules[j].triggers[k])
  {
    var q := Lower(query);
    var r := Decompose(cfg, query);
    var rules := cfg.rules;
    AnyContainedIff(q, rules[j].triggers);
    DecomposeSelects(cfg, query);
    NoDupDistinct(Actions(rules));
    if forall j' :: 0 <= j' < |rules| ==> !Fires(rules[j'], q) {
      ActionsAvoidAll(cfg.defaults, Actions(rules));
      forall i | 0 <= i < |r|
        ensures r[i].action != rules[j].action
      {
        assert Actions(rules)[j] == rules[j].action;
      }
    } else {
      var idx := FiredIndices(rules, q);
      if Fires(rules[j], q) {
        var i :| 0 <= i < |idx| && idx[i] == j;
        assert r[i].action == rules[j].action;
      }
      forall i | 0 <= i < |r| && r[i].action == rules[j].action
        ensures Fires(rules[j], q)
      {
        assert Actions(rules)[idx[i]] == Actions(rules)[j];
      }
    }
  }

  /** The default chain is returned exactly when no rule fires. */
  lemma DefaultIffNoMatch(cfg: Config, query: string)
    requires ValidConfig(cfg)
    ensures Decompose(cfg, query) == cfg.defaults
        <==> forall j :: 0 <= j < |cfg.rules| ==> !Fires(cfg.rules[j], Lower(query))
  {
    var q := Lower(query);
    DecomposeSelects(cfg, query);
    if exists j :: 0 <= j < |cfg.rules| && Fires(cfg.rules[j], q) {
      var r := Decompose(cfg, query);
      var idx := FiredIndices(cfg.rules, q);
      ChainFromFiredRules(cfg.rules, q);
      ActionsAvoidAll(cfg.defaults, Actions(cfg.rules));
      assert r[0].action == Actions(cfg.rules)[idx[0]];
      assert r[0].action != cfg.defaults[0].action;
    }
  }

  /** The default chain carries no rule action; any other chain carries only rule actions. */
  lemma ChainActions(cfg: Config, query: string)
    requires ValidConfig(cfg)
    ensures var r := Decompose(cfg, query);
      && (r == cfg.defaults ==> forall i :: 0 <= i < |r| ==> r[i].action !in Actions(cfg.rules))
      && (r != cfg.defaults ==> forall i :: 0 <= i < |r| ==> r[i].action in Actions(cfg.rules))
  {
    var r := Decompose(cfg, query);
    DecomposeSelects(cfg, query);
    ActionsAvoidAll(cfg.defaults, Actions(cfg.rules));
    if r != cfg.defaults {
      var idx := FiredIndices(cfg.rules, Lower(query));
      forall i | 0 <= i < |r| ensures r[i].action in Actions(cfg.rules) {
        assert r[i].action == Actions(cfg.rules)[idx[i]];
      }
    }
  }

  /** Only the lower-cased query matters: queries equal up to ASCII case decompose alike. */
  lemma DecomposeIgnoresCase(cfg: Config, query: string, other: string)
    requires Lower(other) == Lower(query)
    ensures Decompose(cfg, Lower(query)) == Decompose(cfg, query)
    ensures Decompose(cfg, other) == Decompose(cfg, query)
  {
    LowerIdempotent(query);
  }

  /** A rule whose every trigger is known to be absent does not fire. */
  lemma SilentTriggers(q: string, ts: seq<string>)
    requires forall k :: 0 <= k < |ts| ==> !Contains(q, ts[k])
    ensures !AnyContained(q, ts)
  {
    AnyContainedIff(q, ts);
  }

  /** Some step of the chain has this action. */
  predicate Emits(steps: seq<Step>, action: string) {
    exists i :: 0 <= i < |steps| && steps[i].action == action
  }

  /** Two steps of a chain of firing rules come from rules in table order. */
  lemma ChainInTableOrder(cfg: Config, query: string, i: nat, k: nat)
    requires exists j :: 0 <= j < |cfg.rules| && Fires(cfg.rules[j], Lower(query))
    requires i < k < |Decompose(cfg, query)|
    ensures exists a, b ::
              && 0 <= a < b < |cfg.rules|
              && cfg.rules[a].action == Decompose(cfg, query)[i].action
              && cfg.rules[b].action == Decompose(cfg, query)[k].action
  {
    DecomposeSelects(cfg, query);
    var idx := FiredIndices(cfg.rules, Lower(query));
    assert idx[i] < idx[k];
  }

  lemma {:induction false} AnyContainedIff(q: string, ts: seq<string>)
    ensures AnyContained(q, ts) <==> exists k :: 0 <= k < |ts| && Contains(q, ts[k])
  {
    if |ts| > 0 {
      AnyContainedIff(q, ts[1..]);
      if AnyContained(q, ts[1..]) {
        var k :| 0 <= k < |ts[1..]| && Contains(q, ts[1..][k]);
        assert Contains(q, ts[k + 1]);
      }
      forall k | 1 <= k < |ts| && Contains(q, ts[k])
        ensures AnyContained(q, ts[1..])
      {
        assert ts[1..][k - 1] == ts[k];
      }
    }
  }

  /** `Run` from rule `i` on, with each rule's verdict on the query decided in advance. */
  function Plan(rules: seq<Rule>, verdicts: seq<bool>, i: nat, acc: seq<Step>): seq<Step>
    requires |verdicts| == |rules|
    decreases |rules| - i
  {
    if i >= |rules| then acc
    else Plan(rules, verdicts, i + 1, if verdicts[i] then acc + [StepFor(rules[i], |acc|)] else acc)
  }

  lemma {:induction false} RunByVerdictsFrom(rules: seq<Rule>, q: string, i: nat, acc: seq<Step>, verdicts: seq<bool>)
    requires |verdicts| == |rules| && i <= |rules|
    requires forall j :: 0 <= j < |rules| ==> verdicts[j] == Fires(rules[j], q)
    ensures Run(rules[i..], q, acc) == Plan(rules, verdicts, i, acc)
    decreases |rules| - i
  {
    if i < |rules| {
      var acc' := if verdicts[i] then acc + [StepFor(rules[i], |acc|)] else acc;
      RunByVerdictsFrom(rules, q, i + 1, acc', verdicts);
      assert rules[i..][1..] == rules[i + 1..];
    }
  }

  /** Once every rule's verdict on `q` is known, the walk over the rules is fixed by those verdicts alone. */
  lemma RunByVerdicts(rules: seq<Rule>, q: string, verdicts: seq<bool>)
    requires |verdicts| == |rules|
    requires forall j :: 0 <= j < |rules| ==> verdicts[j] == Fires(rules[j], q)
    ensures Run(rules, q, []) == Plan(rules, verdicts, 0, [])
  {
    RunByVerdictsFrom(rules, q, 0, [], verdicts);
    assert rules[0..] == rules;
  }

  /** `acc` followed by the steps of the rules at positions `idx`, in that order, numbered on from `acc`. */
  function AppendSteps(rules: seq<Rule>, idx: seq<nat>, acc: seq<Step>): (steps: seq<Step>)
    requires forall k :: 0 <= k < |idx| ==> idx[k] < |rules|
    ensures |steps| == |acc| + |idx|
    decreases |idx|
  {
    if |idx| == 0 then acc else AppendSteps(rules, idx[1..], acc + [StepFor(rules[idx[0]], |acc|)])
  }

  /** Rules whose verdict is negative add nothing. */
  lemma {:induction false} PlanSkips(rules: seq<Rule>, verdicts: seq<bool>, i: nat, k: nat, acc: seq<Step>)
    requires |verdicts| == |rules| && i <= k <= |rules|
    requires forall j :: i <= j < k ==> !verdicts[j]
    ensures Plan(rules, verdicts, i, acc) == Plan(rules, verdicts, k, acc)
    decreases k - i
  {
    if i < k {
      PlanSkips(rules, verdicts, i + 1, k, acc);
    }
  }

  /** Positions before the first listed one are not listed. */
  lemma BeforeFirst(idx: seq<nat>, j: nat)
    requires |idx| > 0 && Increasing(idx) && j < idx[0]
    ensures j !in idx
  {
    forall m | 0 <= m < |idx| ensures idx[m] != j {
      assert m == 0 || idx[0] < idx[m];
    }
  }

  /** Dropping the first of increasing positions leaves the positions listed beyond it. */
  lemma AfterFirst(verdicts: seq<bool>, i: nat, idx: seq<nat>)
    requires |idx| > 0 && Increasing(idx) && i <= idx[0]
    requires forall k :: 0 <= k < |idx| ==> idx[k] < |verdicts|
    requires forall j :: i <= j < |verdicts| ==> (verdicts[j] <==> j in idx)
    ensures Increasing(idx[1..])
    ensures forall k :: 0 <= k < |idx[1..]| ==> idx[0] + 1 <= idx[1..][k] < |verdicts|
    ensures forall j :: idx[0] + 1 <= j < |verdicts| ==> (verdicts[j] <==> j in idx[1..])
  {
    forall k | 0 <= k < |idx[1..]| ensures idx[0] < idx[1..][k] < |verdicts| {
      assert idx[1..][k] == idx[k + 1];
    }
    forall j | idx[0] < j < |verdicts| ensures verdicts[j] <==> j in idx[1..] {
      if j in idx {
        var m :| 0 <= m < |idx| && idx[m] == j;
        assert idx[1..][m - 1] == j;
      }
    }
  }

  /** The walk from `i` skips to the first listed position and appends that rule's step. */
  lemma PlanToFirst(rules: seq<Rule>, verdicts: seq<bool>, i: nat, acc: seq<Step>, idx: seq<nat>)
    requires |verdicts| == |rules| && |idx| > 0 && Increasing(idx)
    requires i <= idx[0] < |rules|
    requires forall j :: i <= j < |rules| ==> (verdicts[j] <==> j in idx)
    ensures Plan(rules, verdicts, i, acc) == Plan(rules, verdicts, idx[0] + 1, acc + [StepFor(rules[idx[0]], |acc|)])
  {
    forall j | i <= j < idx[0] ensures !verdicts[j] {
      BeforeFirst(idx, j);
    }
    PlanSkips(rules, verdicts, i, idx[0], acc);
    assert verdicts[idx[0]];
  }

  lemma {:induction false} PlanAt(rules: seq<Rule>, verdicts: seq<bool>, i: nat, acc: seq<Step>, idx: seq<nat>)
    requires |verdicts| == |rules| && i <= |rules|
    requires Increasing(idx)
    requires forall k :: 0 <= k < |idx| ==> i <= idx[k] < |rules|
    requires forall j :: i <= j < |rules| ==> (verdicts[j] <==> j in idx)
    ensures Plan(rules, verdicts, i, acc) == AppendSteps(rules, idx, acc)
    decreases |idx|
  {
    if |idx| == 0 {
      PlanSkips(rules, verdicts, i, |rules|, acc);
    } else {
      var first := idx[0];
      var acc' := acc + [StepFor(rules[first], |acc|)];
      PlanToFirst(rules, verdicts, i, acc, idx);
      AfterFirst(verdicts, i, idx);
      PlanAt(rules, verdicts, first + 1, acc', idx[1..]);
    }
  }

  /**
   Converse of the selection property: when the rules that fire are exactly
   those at the increasing positions `idx`, the chain is their steps in that
   order, numbered from 1.
   */
  lemma RunFiring(rules: seq<Rule>, q: string, idx: seq<nat>)
    requires Increasing(idx)
    requires forall k :: 0 <= k < |idx| ==> idx[k] < |rules|
    requires forall j :: 0 <= j < |rules| ==> (Fires(rules[j], q) <==> j in idx)
    ensures Run(rules, q, []) == AppendSteps(rules, idx, [])
  {
    var verdicts := seq(|rules|, j requires 0 <= j < |rules| => Fires(rules[j], q));
    RunByVerdicts(rules, q, verdicts);
    PlanAt(rules, verdicts, 0, [], idx);
  }

  // ---------------------------------------------------------------------
  // Evidence for concrete queries made of space-separated words
  // ---------------------------------------------------------------------

  /** Why a trigger is not in a phrase: a character no word has, or a character missing from each word. */
  datatype Evidence = AbsentChar(c: char) | MissingPerWord(cs: seq<char>)

  predicate RefutedBy(ws: seq<string>, t: string, e: Evidence) {
    match e
    case AbsentChar(c) => c in t && c != ' ' && InNoWord(ws, c, 0)
    case MissingPerWord(cs) => ' ' !in t && |ws| > 0 && MissesEach(ws, cs, t, 0)
  }

  /** Every trigger from position `j` on is refuted by its evidence. */
  predicate AllRefutedBy(ws: seq<string>, ts: seq<string>, es: seq<Evidence>, j: nat)
    decreases |ts| - j
  {
    |ts| == |es| && (j >= |ts| || (RefutedBy(ws, ts[j], es[j]) && AllRefutedBy(ws, ts, es, j + 1)))
  }

  lemma {:induction false} SilentFrom(ws: seq<string>, ts: seq<string>, es: seq<Evidence>, j: nat)
    requires j <= |ts| && AllRefutedBy(ws, ts, es, j)
    ensures !AnyContained(Unwords(ws), ts[j..])
    decreases |ts| - j
  {
    if j < |ts| {
      match es[j] {
        case AbsentChar(c) => RefuteByChar(ws, ts[j], c);
        case MissingPerWord(cs) => RefuteByWords(ws, cs, ts[j]);
      }
      SilentFrom(ws, ts, es, j + 1);
      assert ts[j..][1..] == ts[j + 1..];
    }
  }

  /** A rule none of whose triggers occurs in the phrase stays silent. */
  lemma SilentRule(ws: seq<string>, ts: seq<string>, es: seq<Evidence>)
    requires AllRefutedBy(ws, ts, es, 0)
    ensures !AnyContained(Unwords(ws), ts)
  {
    SilentFrom(ws, ts, es, 0);
    assert ts[0..] == ts;
  }

  lemma FiringRule(ws: seq<string>, ts: seq<string>, j: nat, k: nat)
    requires j < |ts| && k < |ws| && Contains(ws[k], ts[j])
    ensures AnyContained(Unwords(ws), ts)
  {
    ContainedInWord(ws, k, ts[j]);
    AnyContainedIff(Unwords(ws), ts);
  }
}
