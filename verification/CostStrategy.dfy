// Known-cost settlement: what one result costs, the run-level ledger, the
// per-difficulty ledgers, and the strategy a downgraded problem runs.
module CostStrategy {
  import opened Models
  import opened Ordering

  /** The cost one trace contributes, or nothing when it cannot be known. */
  function TraceCost(t: Trace): (cost: Option<real>)
    ensures cost.Some? ==> cost.value >= 0.0
  {
    if t.Priced? && t.usageKnown && t.pricingKnown && t.totalCost.Finite? && t.totalCost.usd >= 0.0
    then Some(t.totalCost.usd) else None
  }

  /** Sum of the costs that are known. */
  function TracesCost(traces: seq<Trace>): (cost: real)
    ensures cost >= 0.0
  {
    if traces == [] then 0.0
    else
      var last := TraceCost(traces[|traces|-1]);
      TracesCost(traces[..|traces|-1]) + (if last.Some? then last.value else 0.0)
  }

  function KnownCost(r: ExecutionResult): (cost: real)
    ensures cost >= 0.0
  {
    TracesCost(r.traces)
  }

  /** Some tokens were spent at a price nobody can tell: never treated as free. */
  predicate UsageUnknown(r: ExecutionResult) {
    if r.traces == [] then r.totalTokens != 0
    else exists k :: 0 <= k < |r.traces| && TraceCost(r.traces[k]).None?
  }

  // -- What a result costs ---------------------------------------------------

  /** A price with everything needed to trust it. */
  predicate Trusted(t: Trace) {
    t.Priced? && t.usageKnown && t.pricingKnown && t.totalCost.Finite? && t.totalCost.usd >= 0.0
  }

  /** A single call costs its amount if the price can be trusted, and nothing otherwise. */
  lemma CostOfOneCall(t: Trace, tokens: nat, downgraded: bool)
    ensures KnownCost(ExecutionResult([t], tokens, downgraded)) == if Trusted(t) then t.totalCost.usd else 0.0
  {
    assert [t][..0] == [];
    assert TracesCost([t]) == TracesCost([t][..0]) + (if Trusted(t) then t.totalCost.usd else 0.0);
  }

  /** The calls of a result add up, however they are split. */
  lemma {:induction false} CostsAddUp(a: ExecutionResult, b: ExecutionResult, both: ExecutionResult)
    requires both.traces == a.traces + b.traces
    ensures KnownCost(both) == KnownCost(a) + KnownCost(b)
    decreases |b.traces|
  {
    if b.traces == [] {
      assert both.traces == a.traces;
    } else {
      var n := |b.traces| - 1;
      var front := b.(traces := b.traces[..n]);
      assert both.traces[..|both.traces| - 1] == a.traces + front.traces;
      CostsAddUp(a, front, both.(traces := a.traces + front.traces));
    }
  }

  /** Usage is unknown exactly if some price cannot be trusted, or tokens were spent without any trace. */
  lemma UnknownUnlessTrusted(r: ExecutionResult)
    ensures UsageUnknown(r) <==> (r.traces == [] && r.totalTokens > 0) || exists t :: t in r.traces && !Trusted(t)
  {
    if t :| t in r.traces && !Trusted(t) {
      var k :| 0 <= k < |r.traces| && r.traces[k] == t;
      assert TraceCost(r.traces[k]).None?;
    }
    if r.traces != [] && UsageUnknown(r) {
      var k :| 0 <= k < |r.traces| && TraceCost(r.traces[k]).None?;
      assert r.traces[k] in r.traces && !Trusted(r.traces[k]);
    }
  }

  /** `result_cost`. */
  method ResultCost(r: ExecutionResult) returns (known: real, unknown: bool)
    ensures known == KnownCost(r) && unknown == UsageUnknown(r)
  {
    known, unknown := 0.0, false;
    for k := 0 to |r.traces|
      invariant known == TracesCost(r.traces[..k])
      invariant unknown <==> exists j :: 0 <= j < k && TraceCost(r.traces[j]).None?
    {
      assert r.traces[..k + 1][..k] == r.traces[..k];
      var trace := r.traces[k];
      if !trace.Priced? {
        unknown := true;
        continue;
      }
      if trace.totalCost.Missing? || !trace.usageKnown || !trace.pricingKnown {
        unknown := true;
      } else {
        if !trace.totalCost.Finite? || trace.totalCost.usd < 0.0 {
          unknown := true;
          continue;
        }
        known := known + trace.totalCost.usd;
      }
    }
    assert r.traces[..|r.traces|] == r.traces;
    if !unknown && r.traces == [] && r.totalTokens != 0 {
      unknown := true;
    }
  }

  /** The run-level ledger. */
  class RunCostMonitor {
    const cap: Option<real>
    var accumulated: real
    var unknownUsageResults: nat
    var downgradedCount: nat

    constructor (cap: Option<real>)
      ensures this.cap == cap && accumulated == 0.0 && unknownUsageResults == 0 && downgradedCount == 0
    {
      this.cap := cap;
      accumulated, unknownUsageResults, downgradedCount := 0.0, 0, 0;
    }

    method AddResult(r: ExecutionResult)
      modifies this`accumulated, this`unknownUsageResults
      ensures accumulated == old(accumulated) + KnownCost(r)
      ensures unknownUsageResults == old(unknownUsageResults) + (if UsageUnknown(r) then 1 else 0)
    {
      var known, unknown := ResultCost(r);
      accumulated := accumulated + known;
      if unknown {
        unknownUsageResults := unknownUsageResults + 1;
      }
    }

    predicate OverCap()
      reads this
    {
      cap.Some? && accumulated >= cap.value
    }

    /** True for the first downgraded problem only. */
    method RecordDowngrade() returns (first: bool)
      modifies this`downgradedCount
      ensures first <==> old(downgradedCount) == 0
      ensures downgradedCount == old(downgradedCount) + 1
    {
      first := downgradedCount == 0;
      downgradedCount := downgradedCount + 1;
    }
  }

  /** One ledger per budgeted difficulty, each with its own cap. */
  class DifficultyBudgetMonitor {
    const monitors: map<string, RunCostMonitor>

    /** No two difficulties share a ledger. */
    ghost predicate Valid() {
      forall d, e :: d in monitors && e in monitors && d != e ==> monitors[d] != monitors[e]
    }

    /** Settles into the ledger of the problem's difficulty; every other ledger is left alone. */
    method AddResult(r: ExecutionResult, difficulty: string)
      requires Valid()
      modifies set d | d in monitors && d == difficulty :: monitors[d]
      ensures difficulty in monitors ==>
        && monitors[difficulty].accumulated == old(monitors[difficulty].accumulated) + KnownCost(r)
        && monitors[difficulty].downgradedCount == old(monitors[difficulty].downgradedCount)
    {
      if difficulty in monitors {
        monitors[difficulty].AddResult(r);
      }
    }
  }

  // -- Choosing strategies ---------------------------------------------------

  /** Most expensive first. */
  const STRATEGY_COST_LADDER: seq<string> := ["multi_round_feedback", "chain_of_thought", "vanilla"]

  /** The position of a strategy on the ladder; strategies not on it come before all others. */
  function Rank(strategy: string): int {
    if strategy == STRATEGY_COST_LADDER[2] then 2
    else if strategy == STRATEGY_COST_LADDER[1] then 1
    else if strategy == STRATEGY_COST_LADDER[0] then 0
    else -1
  }

  /**
   * `cheapest_strategy`: the mapped strategy furthest down the ladder, or the alphabetically first
   * one when no mapped strategy is on the ladder (the constructor does not rule that out).
   */
  method CheapestStrategy(mapping: map<string, string>) returns (cheapest: string)
    requires mapping != map[]
    ensures cheapest in mapping.Values
    ensures forall d :: d in mapping ==> Rank(mapping[d]) <= Rank(cheapest)
    ensures Rank(cheapest) < 0 ==> forall d :: d in mapping ==> StringLeq(cheapest, mapping[d])
    ensures var present := mapping.Values;
      && ("vanilla" in present ==> cheapest == "vanilla")
      && ("vanilla" !in present && "chain_of_thought" in present ==> cheapest == "chain_of_thought")
      && (present !! {"vanilla", "chain_of_thought"} && "multi_round_feedback" in present ==>
            cheapest == "multi_round_feedback")
  {
    var present := mapping.Values;
    var k := |STRATEGY_COST_LADDER|;
    while k > 0
      invariant 0 <= k <= |STRATEGY_COST_LADDER|
      invariant forall j :: k <= j < |STRATEGY_COST_LADDER| ==> STRATEGY_COST_LADDER[j] !in present
    {
      k := k - 1;
      if STRATEGY_COST_LADDER[k] in present {
        cheapest := STRATEGY_COST_LADDER[k];
        forall d | d in mapping ensures Rank(mapping[d]) <= Rank(cheapest) {
          assert mapping[d] in present;
        }
        return;
      }
    }
    ValuesNotEmpty(mapping);
    cheapest := LeastString(present);
    forall d | d in mapping ensures Rank(mapping[d]) <= Rank(cheapest) && StringLeq(cheapest, mapping[d]) {
      assert mapping[d] in present;
    }
  }

  lemma ValuesNotEmpty(mapping: map<string, string>)
    requires mapping != map[]
    ensures mapping.Values != {}
  {
    assert mapping.Keys != {};
    var d :| d in mapping;
    assert mapping[d] in mapping.Values;
  }
}
