/** The harness's own bookkeeping on its monitors: replay on resume, settlement after each save. */
module HarnessSettlement {
  import opened Models
  import opened TaskRecords
  import opened CostStrategy
  import opened Harness

  class Ledgers {
    const cfg: Config
    const monitor: RunCostMonitor
    const allocation: DifficultyBudgetMonitor

    /** The run's ledger is none of the difficulties' ledgers, and the budgeted difficulties are the capped ones. */
    ghost predicate Valid() {
      && allocation.Valid()
      && monitor !in allocation.monitors.Values
      && (forall d :: d in allocation.monitors <==> OfDifficulty(d) in cfg.caps)
    }

    function MonitorOf(k: Key): RunCostMonitor
      requires Valid() && k in LedgerKeys(cfg)
    {
      if k == WholeRun then monitor else allocation.monitors[k.name]
    }

    constructor (cfg: Config, monitor: RunCostMonitor, allocation: DifficultyBudgetMonitor)
      requires allocation.Valid() && monitor !in allocation.monitors.Values
      requires forall d :: d in allocation.monitors <==> OfDifficulty(d) in cfg.caps
      ensures Valid() && this.cfg == cfg && this.monitor == monitor && this.allocation == allocation
    {
      this.cfg, this.monitor, this.allocation := cfg, monitor, allocation;
    }

    /** One durable result enters every ledger that covers its unit, and no other. */
    method AddUnit(u: TaskUnit)
      requires Valid()
      modifies monitor, allocation.monitors.Values
      ensures forall k :: k in LedgerKeys(cfg) ==>
        MonitorOf(k).accumulated == old(MonitorOf(k).accumulated) + Weight(cfg, k, false, u)
      ensures forall k :: k in LedgerKeys(cfg) ==> MonitorOf(k).downgradedCount == old(MonitorOf(k).downgradedCount)
    {
      if u.result.Some? {
        monitor.AddResult(u.result.value);
        allocation.AddResult(u.result.value, DifficultyOf(cfg, u));
      }
    }

    /** `settle_unit`: settlement, then the downgrade counts of the run and of the unit's difficulty. */
    method SettleUnit(u: TaskUnit) returns (capTriggered: bool)
      requires Valid()
      modifies monitor, allocation.monitors.Values
      ensures forall k :: k in LedgerKeys(cfg) ==>
        MonitorOf(k).accumulated == old(MonitorOf(k).accumulated) + Weight(cfg, k, false, u)
      ensures var downgraded := u.result.Some? && u.result.value.costDowngraded;
        && (capTriggered <==> downgraded && monitor.OverCap() && old(monitor.downgradedCount) == 0)
        && monitor.downgradedCount == old(monitor.downgradedCount) + Bit(downgraded && monitor.OverCap())
        && (forall k :: k in LedgerKeys(cfg) && k.OfDifficulty? ==>
              MonitorOf(k).downgradedCount == old(MonitorOf(k).downgradedCount) + Bit(downgraded && Covers(cfg, k, u)))
    {
      capTriggered := false;
      assert MonitorOf(WholeRun) == monitor;
      AddUnit(u);
      assert monitor.downgradedCount == old(monitor.downgradedCount);
      if u.result.Some? && u.result.value.costDowngraded {
        if monitor.OverCap() {
          capTriggered := monitor.RecordDowngrade();
        }
        if DifficultyOf(cfg, u) in allocation.monitors {
          var _ := allocation.monitors[DifficultyOf(cfg, u)].RecordDowngrade();
        }
      }
    }

    /** The resume replay: from empty ledgers, every saved result once, in record order. */
    method ReplayUnits(units: seq<TaskUnit>)
      requires Valid()
      requires forall k :: k in LedgerKeys(cfg) ==> MonitorOf(k).accumulated == 0.0
      modifies monitor, allocation.monitors.Values
      ensures forall k :: k in LedgerKeys(cfg) ==> MonitorOf(k).accumulated == Replay(cfg, units)[k]
    {
      for i := 0 to |units|
        invariant forall k :: k in LedgerKeys(cfg) ==> MonitorOf(k).accumulated == Total(cfg, k, false, units[..i])
      {
        assert units[..i + 1][..i] == units[..i];
        AddUnit(units[i]);
      }
      assert units[..|units|] == units;
    }
  }
}
