// The evaluation harness on top of the task runner: workers that choose a strategy when they
// start, ledgers that are settled after each save and rebuilt on resume, and the two budget rules.
module Harness {
  import opened Models
  import opened TaskRecords
  import opened TaskMachine
  import opened TaskTheorems
  import opened CostStrategy

  datatype BudgetAction = NoAction | AutoStop | Downgrade

  /** A ledger: the run's, or one difficulty's. */
  datatype Key = WholeRun | OfDifficulty(name: string)

  /** `caps` holds the run's cap, if any, and the allocated budget of each budgeted difficulty. */
  datatype Config = Config(action: BudgetAction, caps: map<Key, real>, difficulty: map<string, string>,
                           cheapest: string, maxWorkers: nat)

  /** What a worker settled on when it started its unit. */
  datatype Decision = Decision(strategy: string, downgraded: bool)

  /** `ledgers` belong to the live process; `decided` to its units in flight. */
  datatype State = State(sys: System, ledgers: map<Key, real>, decided: map<nat, Decision>)

  datatype Move =
    | Machine(a: Action)        // any step of the runner or of its environment but `Finish`
    | Decide(unit: nat)         // a submitted unit's worker starts and reads the ledgers
    | Deliver(outcome: Outcome) // the runner records the next finished future

  function DifficultyOf(cfg: Config, u: TaskUnit): string {
    if u.problemId in cfg.difficulty then cfg.difficulty[u.problemId] else ""
  }

  predicate Covers(cfg: Config, k: Key, u: TaskUnit) {
    k == WholeRun || k == OfDifficulty(DifficultyOf(cfg, u))
  }

  predicate OverCap(cfg: Config, ledgers: map<Key, real>, k: Key) {
    k in cfg.caps && k in ledgers && ledgers[k] >= cfg.caps[k]
  }

  /** The worker's choice, made once, from the ledgers as they stand when it starts. */
  function Choose(cfg: Config, ledgers: map<Key, real>, u: TaskUnit): Decision {
    var globalOver := cfg.action == Downgrade && OverCap(cfg, ledgers, WholeRun);
    var difficultyOver := OverCap(cfg, ledgers, OfDifficulty(DifficultyOf(cfg, u)));
    if (globalOver || difficultyOver) && cfg.cheapest != u.strategy then Decision(cfg.cheapest, true)
    else Decision(u.strategy, false)
  }

  // -- Sums over the record --------------------------------------------------

  /** What unit `u` weighs in ledger `k`; with `dearOnly`, only if it ran another strategy than the cheapest. */
  function Weight(cfg: Config, k: Key, dearOnly: bool, u: TaskUnit): (w: real)
    ensures w >= 0.0
  {
    if u.result.None? || !Covers(cfg, k, u) then 0.0
    else if dearOnly && (u.result.value.costDowngraded || u.strategy == cfg.cheapest) then 0.0
    else KnownCost(u.result.value)
  }

  /** Total weight of the units completed in a record. */
  function Total(cfg: Config, k: Key, dearOnly: bool, units: seq<TaskUnit>): (t: real)
    ensures t >= 0.0
  {
    if units == [] then 0.0
    else Total(cfg, k, dearOnly, units[..|units|-1]) + Weight(cfg, k, dearOnly, units[|units|-1])
  }

  function LedgerKeys(cfg: Config): set<Key> {
    cfg.caps.Keys + {WholeRun}
  }

  /** The ledgers a process builds from the record it resumes. */
  function Replay(cfg: Config, units: seq<TaskUnit>): map<Key, real> {
    map k | k in LedgerKeys(cfg) :: Total(cfg, k, false, units)
  }

  /** The ledgers after settling one unit. */
  function Settled(cfg: Config, ledgers: map<Key, real>, u: TaskUnit): map<Key, real> {
    map k | k in ledgers :: ledgers[k] + Weight(cfg, k, false, u)
  }

  // -- Steps -----------------------------------------------------------------

  function Workers(cfg: Config): nat {
    if cfg.action == AutoStop then 1 else cfg.maxWorkers
  }

  /** Nothing has been done on the record yet. */
  predicate Fresh(sys: System) {
    sys.calls == [] && forall i | 0 <= i < |sys.file.units| :: sys.file.units[i].result.None?
  }

  function DoDeliver(h: State, outcome: Outcome): State
    requires Inv(h.sys)
  {
    var run := h.sys.runner;
    if run.Live? && run.phase.Draining? && run.phase.done != [] && run.phase.done[0] in h.decided then
      var unit := run.phase.done[0];
      var recorded := if outcome.Returned?
                      then Returned(outcome.result.(costDowngraded := h.decided[unit].downgraded)) else outcome;
      h.(sys := Apply(h.sys, Finish(recorded)), decided := h.decided - {unit})
    else if run.Live? && run.phase == Draining([]) then h.(sys := Apply(h.sys, Finish(outcome)))
    else h
  }

  function DoMachine(cfg: Config, h: State, a: Action): State
    requires Inv(h.sys)
  {
    match a
    case Finish(_) => h
    case Load(resume, _) =>
      // The process resumes a record, replaying it into new ledgers, or has just created it.
      var sys := Apply(h.sys, Load(resume, Workers(cfg)));
      if h.sys.runner.Live? || sys.runner.Idle? || !(resume || Fresh(h.sys)) then h
      else State(sys, Replay(cfg, h.sys.file.units), map[])
    case Check(_) =>
      // `pause_when` reads the run's ledger, and only an auto-stop run has one.
      var sys := Apply(h.sys, Check(cfg.action == AutoStop && OverCap(cfg, h.ledgers, WholeRun)));
      h.(sys := sys, decided := if sys.runner.Live? then h.decided else map[])
    case Settle =>
      var sys := Apply(h.sys, Settle);
      if h.sys.runner.Live? && h.sys.runner.phase.Settling? && h.sys.runner.phase.unit < |h.sys.file.units|
      then h.(sys := sys, ledgers := Settled(cfg, h.ledgers, h.sys.file.units[h.sys.runner.phase.unit]))
      else h.(sys := sys)
    case _ =>
      var sys := Apply(h.sys, a);
      h.(sys := sys, decided := if sys.runner.Live? then h.decided else map[])
  }

  function Next(cfg: Config, h: State, m: Move): State
    requires Inv(h.sys)
  {
    match m
    case Machine(a) => DoMachine(cfg, h, a)
    case Decide(unit) =>
      if h.sys.runner.Live? && unit in h.sys.runner.pending && unit !in h.decided && unit < |h.sys.file.units|
      then h.(decided := h.decided[unit := Choose(cfg, h.ledgers, h.sys.file.units[unit])])
      else h
    case Deliver(outcome) => DoDeliver(h, outcome)
  }

  // -- The ledgers agree with the record -------------------------------------

  lemma {:induction false} TotalUpdate(cfg: Config, k: Key, dearOnly: bool, units: seq<TaskUnit>, i: nat, u: TaskUnit)
    requires i < |units|
    ensures Total(cfg, k, dearOnly, units[i := u]) ==
            Total(cfg, k, dearOnly, units) - Weight(cfg, k, dearOnly, units[i]) + Weight(cfg, k, dearOnly, u)
  {
    var n := |units| - 1;
    if i < n {
      TotalUpdate(cfg, k, dearOnly, units[..n], i, u);
      assert units[i := u][..n] == units[..n][i := u];
    } else {
      assert units[i := u][..n] == units[..n];
    }
  }

  lemma {:induction false} TotalKept(cfg: Config, k: Key, dearOnly: bool, units: seq<TaskUnit>, units': seq<TaskUnit>)
    requires |units| == |units'|
    requires forall i :: 0 <= i < |units| ==> PlanKept(units[i], units'[i])
    ensures Total(cfg, k, dearOnly, units') == Total(cfg, k, dearOnly, units)
    decreases |units|
  {
    if units != [] {
      var n := |units| - 1;
      TotalKept(cfg, k, dearOnly, units[..n], units'[..n]);
      assert PlanKept(units[n], units'[n]);
    }
  }

  lemma {:induction false} DearIsPart(cfg: Config, k: Key, units: seq<TaskUnit>)
    ensures Total(cfg, k, true, units) <= Total(cfg, k, false, units)
  {
    if units != [] {
      DearIsPart(cfg, k, units[..|units|-1]);
    }
  }

  /** A unit weighs its result's known cost in the run's ledger and in that of its own difficulty, and nothing elsewhere. */
  lemma WeightOfUnit(cfg: Config, u: TaskUnit, name: string)
    ensures var cost := if u.result.Some? then KnownCost(u.result.value) else 0.0;
      var difficulty := if u.problemId in cfg.difficulty then cfg.difficulty[u.problemId] else "";
      && Weight(cfg, WholeRun, false, u) == cost
      && Weight(cfg, OfDifficulty(name), false, u) == (if name == difficulty then cost else 0.0)
      && (forall k :: Weight(cfg, k, true, u) ==
            if u.result.Some? && !u.result.value.costDowngraded && u.strategy != cfg.cheapest
            then Weight(cfg, k, false, u) else 0.0)
  {
  }

  lemma {:induction false} WeightsAddUp(cfg: Config, k: Key, dearOnly: bool, a: seq<TaskUnit>, b: seq<TaskUnit>)
    ensures Total(cfg, k, dearOnly, a + b) == Total(cfg, k, dearOnly, a) + Total(cfg, k, dearOnly, b)
    ensures forall u :: Total(cfg, k, dearOnly, [u]) == Weight(cfg, k, dearOnly, u)
  {
    forall u ensures Total(cfg, k, dearOnly, [u]) == Weight(cfg, k, dearOnly, u) {
      assert [u][..0] == [];
    }
    if b == [] {
      assert a + b == a;
    } else {
      assert (a + b)[..|a + b| - 1] == a + b[..|b| - 1];
      WeightsAddUp(cfg, k, dearOnly, a, b[..|b| - 1]);
    }
  }

  /** What has been saved but not settled yet: the unit whose callback is due. */
  function Unsettled(cfg: Config, k: Key, sys: System): real {
    if sys.runner.Live? && sys.runner.phase.Settling? && sys.runner.phase.unit < |sys.file.units|
    then Weight(cfg, k, false, sys.file.units[sys.runner.phase.unit]) else 0.0
  }

  /** Ledger `k` holds the cost of exactly the units completed on disk and covered by it, each once. */
  ghost predicate Balanced(cfg: Config, h: State, k: Key) {
    h.sys.runner.Live? ==>
      k in h.ledgers && h.ledgers[k] + Unsettled(cfg, k, h.sys) == Total(cfg, k, false, h.sys.file.units)
  }

  /** A unit in flight whose worker has started runs its own strategy, or the cheapest one as a downgrade. */
  ghost predicate DecidedWell(cfg: Config, h: State, u: nat) {
    && u in h.decided && h.sys.runner.Live? && u in h.sys.runner.pending && u < |h.sys.file.units|
    && (if h.decided[u].downgraded
        then h.decided[u].strategy == cfg.cheapest != h.sys.file.units[u].strategy
        else h.decided[u].strategy == h.sys.file.units[u].strategy)
  }

  ghost predicate Sound(cfg: Config, h: State) {
    && Inv(h.sys)
    && (h.sys.runner.Live? ==> h.sys.runner.workers == if cfg.action == AutoStop then 1 else cfg.maxWorkers)
    && (forall u :: u in h.decided ==> DecidedWell(cfg, h, u))
    && (forall k :: k in LedgerKeys(cfg) ==> Balanced(cfg, h, k))
  }

  /** Steps other than loading, recording and settling leave the settlement state where it was. */
  lemma OtherSteps(s: System, a: Action)
    requires Inv(s) && !a.Load? && !a.Finish? && !a.Settle?
    ensures var s' := Apply(s, a); s'.runner.Live? ==>
      && s.runner.Live? && s'.runner.workers == s.runner.workers
      && (s'.runner.pending == s.runner.pending ||
          (a.Launch? && s.runner.phase.Launching? && s.runner.queue != [] &&
           s'.runner.pending == s.runner.pending + [s.runner.queue[0]]))
      && (s'.runner.phase == s.runner.phase || !(s'.runner.phase.Settling? || s.runner.phase.Settling?))
  {
  }

  lemma OtherKeep(cfg: Config, h: State, a: Action, ledgers: map<Key, real>)
    requires Sound(cfg, h) && !a.Load? && !a.Finish? && !a.Settle?
    requires ledgers == h.ledgers
    ensures Inv(Apply(h.sys, a))
    ensures var sys := Apply(h.sys, a);
      Sound(cfg, State(sys, ledgers, if sys.runner.Live? then h.decided else map[]))
  {
    hide Inv, Apply;
    ApplyKeeps(h.sys, a);
    OtherSteps(h.sys, a);
    ResultsKept(h.sys, a);
    var sys := Apply(h.sys, a);
    if sys.runner.Live? {
      var h' := State(sys, ledgers, h.decided);
      forall k | k in LedgerKeys(cfg) ensures Balanced(cfg, h', k) {
        assert Balanced(cfg, h, k);
        TotalKept(cfg, k, false, h.sys.file.units, sys.file.units);
      }
      forall u | u in h'.decided ensures DecidedWell(cfg, h', u) {
        assert DecidedWell(cfg, h, u);
        assert PlanKept(h.sys.file.units[u], sys.file.units[u]);
      }
    }
  }

  lemma LoadKeeps(cfg: Config, h: State, resume: bool, workers: nat)
    requires Sound(cfg, h)
    ensures Sound(cfg, DoMachine(cfg, h, Load(resume, workers)))
  {
    ApplyKeeps(h.sys, Load(resume, Workers(cfg)));
    ResultsKept(h.sys, Load(resume, Workers(cfg)));
    var sys := Apply(h.sys, Load(resume, Workers(cfg)));
    forall k ensures Total(cfg, k, false, sys.file.units) == Total(cfg, k, false, h.sys.file.units) {
      TotalKept(cfg, k, false, h.sys.file.units, sys.file.units);
    }
  }

  lemma SettleEffect(s: System)
    requires Inv(s)
    ensures var s' := Apply(s, Settle);
      if s.runner.Live? && s.runner.phase.Settling?
      then s.runner.phase.unit < |s.file.units| && s' == s.(runner := s.runner.(phase := Draining(s.runner.phase.done)))
      else s' == s
  {
  }

  lemma SettleKeeps(cfg: Config, h: State)
    requires Sound(cfg, h)
    ensures Sound(cfg, DoMachine(cfg, h, Settle))
  {
    var h' := DoMachine(cfg, h, Settle);
    ApplyKeeps(h.sys, Settle);
    SettleEffect(h.sys);
    hide Inv, Apply, Balanced, DecidedWell;
    forall k | k in LedgerKeys(cfg) ensures Balanced(cfg, h', k) {
      SettleBalances(cfg, h, k);
    }
    forall u | u in h'.decided ensures DecidedWell(cfg, h', u) {
      SettleDecides(cfg, h, u);
    }
  }

  lemma SettleBalances(cfg: Config, h: State, k: Key)
    requires Inv(h.sys) && Balanced(cfg, h, k)
    ensures Balanced(cfg, DoMachine(cfg, h, Settle), k)
  {
    SettleEffect(h.sys);
    hide Inv, Apply, Total, Weight;
  }

  lemma SettleDecides(cfg: Config, h: State, u: nat)
    requires Inv(h.sys) && DecidedWell(cfg, h, u)
    ensures DecidedWell(cfg, DoMachine(cfg, h, Settle), u)
  {
    SettleEffect(h.sys);
    hide Inv, Apply;
  }

  /** The effect of recording one outcome, as the ledgers see it. */
  lemma DeliverEffect(s: System, outcome: Outcome)
    requires Inv(s) && s.runner.Live? && s.runner.phase.Draining? && s.runner.phase.done != []
    ensures var s', unit := Apply(s, Finish(outcome)), s.runner.phase.done[0];
      && unit < |s.file.units| && unit in s.runner.pending && s.file.units[unit].result.None?
      && s'.runner.Live? && s'.runner.workers == s.runner.workers
      && s'.runner.phase.Settling? && s'.runner.phase.unit == unit
      && s'.file.units == s.file.units[unit := Conclude(s.file.units[unit], outcome)]
      && s'.runner.pending == Remove(s.runner.pending, unit)
      && |s'.runner.pending| < s'.runner.workers
  {
    ApplyKeeps(s, Finish(outcome));
    assert s.runner.phase.done[0] in s.runner.pending;
    assert UnitOk(s.file.units[s.runner.phase.done[0]]);
  }

  lemma RecordKeeps(cfg: Config, h: State, outcome: Outcome)
    requires Sound(cfg, h)
    requires h.sys.runner.Live? && h.sys.runner.phase.Draining? && h.sys.runner.phase.done != []
    ensures Sound(cfg, State(Apply(h.sys, Finish(outcome)), h.ledgers, h.decided - {h.sys.runner.phase.done[0]}))
  {
    var unit := h.sys.runner.phase.done[0];
    var h' := State(Apply(h.sys, Finish(outcome)), h.ledgers, h.decided - {unit});
    ApplyKeeps(h.sys, Finish(outcome));
    DeliverEffect(h.sys, outcome);
    hide Inv, Apply;
    forall k | k in LedgerKeys(cfg) ensures Balanced(cfg, h', k) {
      assert Balanced(cfg, h, k);
      TotalUpdate(cfg, k, false, h.sys.file.units, unit, Conclude(h.sys.file.units[unit], outcome));
    }
    forall u | u in h'.decided ensures DecidedWell(cfg, h', u) {
      assert DecidedWell(cfg, h, u);
    }
  }

  lemma DeliverKeeps(cfg: Config, h: State, outcome: Outcome)
    requires Sound(cfg, h)
    ensures Sound(cfg, DoDeliver(h, outcome))
  {
    var run := h.sys.runner;
    if run.Live? && run.phase.Draining? {
      if run.phase.done != [] {
        var unit := run.phase.done[0];
        if unit in h.decided {
          RecordKeeps(cfg, h, if outcome.Returned?
                              then Returned(outcome.result.(costDowngraded := h.decided[unit].downgraded)) else outcome);
        }
      } else {
        ExhaustedKeeps(cfg, h, outcome);
      }
    }
  }

  /** A delivered result is saved as the worker handed it back, marked with what the worker had decided. */
  lemma DeliverSaves(cfg: Config, h: State, i: nat, result: ExecutionResult)
    requires Inv(h.sys) && h.sys.runner.Live? && h.sys.runner.phase.Draining? && i in h.decided
    requires h.sys.runner.phase.done != [] && h.sys.runner.phase.done[0] == i
    ensures i < |h.sys.file.units|
    ensures var h', u := Next(cfg, h, Deliver(Returned(result))), h.sys.file.units[i];
      && h'.sys.file.units == h.sys.file.units[i :=
           u.(status := Completed, result := Some(ExecutionResult(result.traces, result.totalTokens, h.decided[i].downgraded)))]
      && h'.ledgers == h.ledgers && h'.decided == h.decided - {i}
  {
    assert h.sys.runner.phase.done[0] in h.sys.runner.pending;
  }

  lemma ExhaustedKeeps(cfg: Config, h: State, outcome: Outcome)
    requires Sound(cfg, h) && h.sys.runner.Live? && h.sys.runner.phase == Draining([])
    ensures Sound(cfg, h.(sys := Apply(h.sys, Finish(outcome))))
  {
    ApplyKeeps(h.sys, Finish(outcome));
    var h' := h.(sys := Apply(h.sys, Finish(outcome)));
    assert h'.sys == h.sys.(runner := h.sys.runner.(phase := Top));
    hide Inv, Apply;
    forall k | k in LedgerKeys(cfg) ensures Balanced(cfg, h', k) {
      assert Balanced(cfg, h, k);
    }
    forall u | u in h'.decided ensures DecidedWell(cfg, h', u) {
      assert DecidedWell(cfg, h, u);
    }
  }

  lemma NextKeeps(cfg: Config, h: State, m: Move)
    requires Sound(cfg, h)
    ensures Sound(cfg, Next(cfg, h, m))
  {
    match m
    case Machine(a) =>
      if a.Load? {
        LoadKeeps(cfg, h, a.resume, a.workers);
      } else if a.Settle? {
        SettleKeeps(cfg, h);
      } else if !a.Finish? {
        OtherKeep(cfg, h, if a.Check? then Check(cfg.action == AutoStop && OverCap(cfg, h.ledgers, WholeRun)) else a,
                  h.ledgers);
      }
    case Decide(unit) =>
      hide Inv;
      var h' := Next(cfg, h, m);
      forall k | k in LedgerKeys(cfg) ensures Balanced(cfg, h', k) {
        assert Balanced(cfg, h, k);
      }
      forall u | u in h'.decided ensures DecidedWell(cfg, h', u) {
        if u in h.decided {
          assert DecidedWell(cfg, h, u);
        }
      }
    case Deliver(outcome) => DeliverKeeps(cfg, h, outcome);
  }

  function Run(cfg: Config, h: State, moves: seq<Move>): (h': State)
    requires Sound(cfg, h)
    ensures Sound(cfg, h')
    decreases |moves|
  {
    if moves == [] then h
    else
      NextKeeps(cfg, h, moves[0]);
      Run(cfg, Next(cfg, h, moves[0]), moves[1..])
  }

  /** A created task before its first process. */
  function Begin(specs: seq<(string, string, string)>): State {
    State(Initial(specs), map[], map[])
  }

  lemma BeginIsSound(cfg: Config, specs: seq<(string, string, string)>)
    ensures Sound(cfg, Begin(specs))
  {
  }

  /**
   * At every point of every run, after any number of crashes, pauses, cancels and resumes, each ledger
   * of the live process plus what awaits its callback is the cost of exactly the completed units it covers.
   */
  lemma LedgersMatchRecord(cfg: Config, specs: seq<(string, string, string)>, moves: seq<Move>, k: Key)
    requires k in LedgerKeys(cfg)
    ensures Sound(cfg, Begin(specs))
    ensures var h := Run(cfg, Begin(specs), moves);
      h.sys.runner.Live? ==>
        k in h.ledgers &&
        h.ledgers[k] == Total(cfg, k, false, h.sys.file.units) - Unsettled(cfg, k, h.sys)
  {
    BeginIsSound(cfg, specs);
    assert Balanced(cfg, Run(cfg, Begin(specs), moves), k);
  }

  // -- The downgrade bound ---------------------------------------------------

  /** Every result delivered costs at most `c`. */
  ghost predicate CostsWithin(m: Move, c: real) {
    m.Deliver? && m.outcome.Returned? ==> KnownCost(m.outcome.result) <= c
  }

  ghost predicate ResultsWithin(units: seq<TaskUnit>, c: real) {
    forall i :: 0 <= i < |units| ==> units[i].result.Some? ==> KnownCost(units[i].result.value) <= c
  }

  /** Units in flight that decided on another strategy than the cheapest and count towards ledger `k`. */
  ghost function Committed(cfg: Config, h: State, k: Key): (units: set<nat>)
    ensures units <= h.decided.Keys
  {
    set u | u in h.decided && u < |h.sys.file.units| && Covers(cfg, k, h.sys.file.units[u]) &&
            h.decided[u].strategy != cfg.cheapest
  }

  function Times(n: nat, c: real): real {
    n as real * c
  }

  lemma TimesMonotone(m: nat, n: nat, c: real)
    requires m <= n && c >= 0.0
    ensures Times(m, c) <= Times(n, c) && Times(n + 1, c) == Times(n, c) + c
    ensures m >= 1 ==> Times(m, c) == Times(m - 1, c) + c
  {
  }

  lemma {:induction false} MembersSize(ids: seq<nat>, s: set<nat>)
    requires forall u :: u in s ==> u in ids
    ensures |s| <= |ids|
    decreases |ids|
  {
    if ids != [] {
      var n := |ids| - 1;
      assert ids == ids[..n] + [ids[n]];
      MembersSize(ids[..n], s - {ids[n]});
    } else {
      assert s == {};
    }
  }

  /** The cap binds on the decisions of this run. */
  ghost predicate Enforced(cfg: Config, k: Key) {
    k in cfg.caps && cfg.caps[k] > 0.0 && (k == WholeRun ==> cfg.action == Downgrade)
  }

  /**
   * Once the ledger has reached its cap, what has been spent on other strategies than the cheapest plus
   * what is still in flight on them stays below the cap and one unit per worker.
   */
  ghost predicate Bounded(cfg: Config, h: State, k: Key, c: real)
    requires k in cfg.caps
  {
    || (h.sys.runner.Live? && k in h.ledgers && h.ledgers[k] < cfg.caps[k])
    || Total(cfg, k, true, h.sys.file.units) + Times(|Committed(cfg, h, k)|, c) < cfg.caps[k] + Times(Workers(cfg), c)
  }

  ghost predicate BoundInv(cfg: Config, h: State, k: Key, c: real)
    requires k in cfg.caps
  {
    Sound(cfg, h) && ResultsWithin(h.sys.file.units, c) && Bounded(cfg, h, k, c)
  }

  lemma LiveWorkers(s: System)
    requires Inv(s) && s.runner.Live?
    ensures s.runner.workers >= 1 && |s.runner.pending| <= s.runner.workers
    ensures s.runner.phase.Settling? ==> |s.runner.pending| < s.runner.workers && s.runner.phase.unit < |s.file.units|
  {
  }

  /** Below the cap, the record itself is within the bound, and still is if one more unit per worker is added. */
  lemma BelowCap(cfg: Config, h: State, k: Key, c: real)
    requires Sound(cfg, h) && ResultsWithin(h.sys.file.units, c) && c >= 0.0 && k in cfg.caps
    requires h.sys.runner.Live? && k in h.ledgers && h.ledgers[k] < cfg.caps[k]
    ensures Total(cfg, k, true, h.sys.file.units) < cfg.caps[k] + Unsettled(cfg, k, h.sys)
    ensures Unsettled(cfg, k, h.sys) <= c
    ensures Total(cfg, k, true, h.sys.file.units) < cfg.caps[k] + Times(Workers(cfg), c)
  {
    assert Balanced(cfg, h, k);
    DearIsPart(cfg, k, h.sys.file.units);
    LiveWorkers(h.sys);
    TimesMonotone(1, Workers(cfg), c);
  }

  /** Whether or not the process is live, the record is within the bound. */
  lemma RecordBound(cfg: Config, h: State, k: Key, c: real)
    requires Enforced(cfg, k) && c >= 0.0 && BoundInv(cfg, h, k, c)
    ensures Total(cfg, k, true, h.sys.file.units) < cfg.caps[k] + Times(Workers(cfg), c)
  {
    hide Sound;
    if h.sys.runner.Live? && k in h.ledgers && h.ledgers[k] < cfg.caps[k] {
      BelowCap(cfg, h, k, c);
    } else {
      TimesMonotone(0, |Committed(cfg, h, k)|, c);
    }
  }

  /** With the same record and no more decisions in flight, the bound carries over. */
  lemma BoundCarries(cfg: Config, h: State, h': State, k: Key, c: real)
    requires Enforced(cfg, k) && c >= 0.0 && BoundInv(cfg, h, k, c) && Sound(cfg, h')
    requires PlansKept(h.sys, h'.sys) && h'.ledgers == h.ledgers
    requires h'.sys.runner.Live? ==> h.sys.runner.Live? && h'.decided == h.decided
    requires h'.sys.runner.Idle? ==> h'.decided == map[]
    ensures BoundInv(cfg, h', k, c)
  {
    hide Sound;
    TotalKept(cfg, k, true, h.sys.file.units, h'.sys.file.units);
    forall i | 0 <= i < |h'.sys.file.units|
      ensures h'.sys.file.units[i].result.Some? ==> KnownCost(h'.sys.file.units[i].result.value) <= c
    {
      assert PlanKept(h.sys.file.units[i], h'.sys.file.units[i]);
    }
    if h'.sys.runner.Live? {
      forall u | u in h.decided && u < |h.sys.file.units|
        ensures Covers(cfg, k, h'.sys.file.units[u]) == Covers(cfg, k, h.sys.file.units[u])
      {
        assert PlanKept(h.sys.file.units[u], h'.sys.file.units[u]);
      }
      assert Committed(cfg, h', k) == Committed(cfg, h, k);
    } else {
      RecordBound(cfg, h, k, c);
      assert Committed(cfg, h', k) == {};
    }
  }

  lemma BoundOther(cfg: Config, h: State, a: Action, k: Key, c: real)
    requires Enforced(cfg, k) && c >= 0.0 && BoundInv(cfg, h, k, c)
    requires !a.Load? && !a.Finish? && !a.Settle?
    ensures BoundInv(cfg, DoMachine(cfg, h, a), k, c)
  {
    NextKeeps(cfg, h, Machine(a));
    OtherFrame(cfg, h, a);
    hide Sound, DoMachine, ResultsWithin, Bounded;
    BoundCarries(cfg, h, DoMachine(cfg, h, a), k, c);
  }

  lemma OtherFrame(cfg: Config, h: State, a: Action)
    requires Inv(h.sys) && !a.Load? && !a.Finish? && !a.Settle?
    ensures var h' := DoMachine(cfg, h, a);
      && PlansKept(h.sys, h'.sys) && h'.ledgers == h.ledgers
      && (h'.sys.runner.Live? ==> h.sys.runner.Live? && h'.decided == h.decided)
      && (h'.sys.runner.Idle? ==> h'.decided == map[])
  {
    var a' := if a.Check? then Check(cfg.action == AutoStop && OverCap(cfg, h.ledgers, WholeRun)) else a;
    OtherSteps(h.sys, a');
    ResultsKept(h.sys, a');
    hide Apply, Inv;
  }

  lemma BoundLoad(cfg: Config, h: State, resume: bool, workers: nat, k: Key, c: real)
    requires Enforced(cfg, k) && c >= 0.0 && BoundInv(cfg, h, k, c)
    ensures BoundInv(cfg, DoMachine(cfg, h, Load(resume, workers)), k, c)
  {
    NextKeeps(cfg, h, Machine(Load(resume, workers)));
    ResultsKept(h.sys, Load(resume, Workers(cfg)));
    RecordBound(cfg, h, k, c);
    var h' := DoMachine(cfg, h, Load(resume, workers));
    hide Apply, Inv, Sound;
    if h' != h {
      TotalKept(cfg, k, true, h.sys.file.units, h'.sys.file.units);
      forall i | 0 <= i < |h'.sys.file.units|
        ensures h'.sys.file.units[i].result.Some? ==> KnownCost(h'.sys.file.units[i].result.value) <= c
      {
        assert PlanKept(h.sys.file.units[i], h'.sys.file.units[i]);
      }
      assert Committed(cfg, h', k) == {};
    }
  }

  lemma CommittedSize(cfg: Config, h: State, k: Key)
    requires Sound(cfg, h) && h.sys.runner.Live?
    ensures |Committed(cfg, h, k)| <= |h.sys.runner.pending|
  {
    assert forall u :: u in h.decided ==> DecidedWell(cfg, h, u);
    MembersSize(h.sys.runner.pending, Committed(cfg, h, k));
  }

  /** Crossing the cap: at most one unit per worker, counting the one being settled, is still to be paid for. */
  lemma Crossing(cfg: Config, h: State, k: Key, c: real)
    requires Enforced(cfg, k) && c >= 0.0 && Sound(cfg, h) && ResultsWithin(h.sys.file.units, c)
    requires h.sys.runner.Live? && h.sys.runner.phase.Settling? && k in h.ledgers && h.ledgers[k] < cfg.caps[k]
    ensures Total(cfg, k, true, h.sys.file.units) + Times(|Committed(cfg, h, k)|, c)
              < cfg.caps[k] + Times(Workers(cfg), c)
  {
    LiveWorkers(h.sys);
    BelowCap(cfg, h, k, c);
    CommittedSize(cfg, h, k);
    TimesMonotone(|Committed(cfg, h, k)|, Workers(cfg) - 1, c);
  }

  lemma BoundSettle(cfg: Config, h: State, k: Key, c: real)
    requires Enforced(cfg, k) && c >= 0.0 && BoundInv(cfg, h, k, c)
    ensures BoundInv(cfg, DoMachine(cfg, h, Settle), k, c)
  {
    hide Inv, Apply, Bounded, Weight, Settled, Balanced, DecidedWell, Total, Committed;
    NextKeeps(cfg, h, Machine(Settle));
    SettleEffect(h.sys);
    var h' := DoMachine(cfg, h, Settle);
    if h.sys.runner.Live? && h.sys.runner.phase.Settling? {
      LedgerPresent(cfg, h, k);
      if h.ledgers[k] < cfg.caps[k] {
        Crossing(cfg, h, k, c);
      }
    }
    SettleBound(cfg, h, h', k, c);
  }

  lemma SettleBound(cfg: Config, h: State, h': State, k: Key, c: real)
    requires k in cfg.caps && Bounded(cfg, h, k, c)
    requires h'.sys.file == h.sys.file && h'.decided == h.decided && h'.sys.runner.Live? == h.sys.runner.Live?
    requires h.sys.runner.Live? && k in h.ledgers && h.ledgers != h'.ledgers && h.ledgers[k] < cfg.caps[k] ==>
      Total(cfg, k, true, h.sys.file.units) + Times(|Committed(cfg, h, k)|, c) < cfg.caps[k] + Times(Workers(cfg), c)
    requires h.sys.runner.Live? && h.ledgers != h'.ledgers ==> k in h.ledgers
    ensures Bounded(cfg, h', k, c)
  {
    assert Committed(cfg, h', k) == Committed(cfg, h, k);
  }

  /** Over the cap, a worker that starts commits to nothing but the cheapest strategy. */
  lemma DecideCommitsNothing(cfg: Config, h: State, unit: nat, k: Key)
    requires Enforced(cfg, k) && Inv(h.sys) && OverCap(cfg, h.ledgers, k)
    ensures Committed(cfg, Next(cfg, h, Decide(unit)), k) <= Committed(cfg, h, k)
  {
    hide Inv;
  }

  lemma BoundDecide(cfg: Config, h: State, unit: nat, k: Key, c: real)
    requires Enforced(cfg, k) && c >= 0.0 && BoundInv(cfg, h, k, c)
    ensures BoundInv(cfg, Next(cfg, h, Decide(unit)), k, c)
  {
    NextKeeps(cfg, h, Decide(unit));
    hide Sound, Inv, Choose;
    if h.sys.runner.Live? {
      LedgerPresent(cfg, h, k);
      if h.ledgers[k] >= cfg.caps[k] {
        DecideCommitsNothing(cfg, h, unit, k);
        FewerCost(Committed(cfg, Next(cfg, h, Decide(unit)), k), Committed(cfg, h, k), c);
      }
    }
  }

  lemma FewerCost(a: set<nat>, b: set<nat>, c: real)
    requires a <= b && c >= 0.0
    ensures Times(|a|, c) <= Times(|b|, c)
  {
    assert b == a + (b - a);
    TimesMonotone(|a|, |b|, c);
  }

  lemma LedgerPresent(cfg: Config, h: State, k: Key)
    requires Sound(cfg, h) && h.sys.runner.Live? && k in cfg.caps
    ensures k in h.ledgers
  {
    assert Balanced(cfg, h, k);
  }

  /** A unit that was committed to nothing dear adds nothing dear to the record. */
  lemma ConcludedWeight(cfg: Config, h: State, unit: nat, outcome: Outcome, k: Key, c: real)
    requires DecidedWell(cfg, h, unit) && c >= 0.0
    requires outcome.Returned? ==> KnownCost(outcome.result) <= c
    requires outcome.Returned? ==> outcome.result.costDowngraded == h.decided[unit].downgraded
    requires h.sys.file.units[unit].result.None?
    ensures var w := Weight(cfg, k, true, Conclude(h.sys.file.units[unit], outcome));
      w <= c && (unit !in Committed(cfg, h, k) ==> w == 0.0)
  {
  }

  lemma BoundRecord(cfg: Config, h: State, outcome: Outcome, k: Key, c: real)
    requires Enforced(cfg, k) && c >= 0.0 && BoundInv(cfg, h, k, c)
    requires h.sys.runner.Live? && h.sys.runner.phase.Draining? && h.sys.runner.phase.done != []
    requires h.sys.runner.phase.done[0] in h.decided
    requires outcome.Returned? ==> KnownCost(outcome.result) <= c
    requires outcome.Returned? ==> outcome.result.costDowngraded == h.decided[h.sys.runner.phase.done[0]].downgraded
    ensures BoundInv(cfg, State(Apply(h.sys, Finish(outcome)), h.ledgers, h.decided - {h.sys.runner.phase.done[0]}), k, c)
  {
    var unit, units := h.sys.runner.phase.done[0], h.sys.file.units;
    var h' := State(Apply(h.sys, Finish(outcome)), h.ledgers, h.decided - {unit});
    hide Inv, Apply, Weight, Conclude, Committed, Balanced, DecidedWell, Total;
    RecordKeeps(cfg, h, outcome);
    DeliverEffect(h.sys, outcome);
    assert DecidedWell(cfg, h, unit);
    ConcludedWeight(cfg, h, unit, outcome, k, c);
    TotalUpdate(cfg, k, true, units, unit, Conclude(units[unit], outcome));
    assert Weight(cfg, k, true, units[unit]) >= 0.0;
    RecordCommitted(cfg, h, h', unit, k, Conclude(units[unit], outcome));
    TimesMonotone(|Committed(cfg, h, k)|, |Committed(cfg, h, k)|, c);
    RecordWithin(units, unit, outcome, c);
  }

  lemma RecordWithin(units: seq<TaskUnit>, unit: nat, outcome: Outcome, c: real)
    requires unit < |units| && ResultsWithin(units, c)
    requires outcome.Returned? ==> KnownCost(outcome.result) <= c
    ensures ResultsWithin(units[unit := Conclude(units[unit], outcome)], c)
  {
  }

  lemma RecordCommitted(cfg: Config, h: State, h': State, unit: nat, k: Key, u: TaskUnit)
    requires unit < |h.sys.file.units| && h'.sys.file.units == h.sys.file.units[unit := u]
    requires h'.decided == h.decided - {unit}
    ensures |Committed(cfg, h', k)| == |Committed(cfg, h, k)| - (if unit in Committed(cfg, h, k) then 1 else 0)
  {
    assert Committed(cfg, h', k) == Committed(cfg, h, k) - {unit};
  }

  lemma BoundExhausted(cfg: Config, h: State, outcome: Outcome, k: Key, c: real)
    requires Enforced(cfg, k) && c >= 0.0 && BoundInv(cfg, h, k, c)
    requires h.sys.runner.Live? && h.sys.runner.phase == Draining([])
    ensures BoundInv(cfg, h.(sys := Apply(h.sys, Finish(outcome))), k, c)
  {
    ExhaustedKeeps(cfg, h, outcome);
    var h' := h.(sys := Apply(h.sys, Finish(outcome)));
    assert h'.sys == h.sys.(runner := h.sys.runner.(phase := Top));
    hide Sound, Inv, Apply;
    assert Committed(cfg, h', k) == Committed(cfg, h, k);
  }

  lemma BoundKeeps(cfg: Config, h: State, m: Move, k: Key, c: real)
    requires Enforced(cfg, k) && c >= 0.0 && BoundInv(cfg, h, k, c) && CostsWithin(m, c)
    ensures BoundInv(cfg, Next(cfg, h, m), k, c)
  {
    hide Sound, Inv, Apply, Weight;
    match m
    case Machine(a) =>
      if a.Load? {
        BoundLoad(cfg, h, a.resume, a.workers, k, c);
      } else if a.Settle? {
        BoundSettle(cfg, h, k, c);
      } else if !a.Finish? {
        BoundOther(cfg, h, a, k, c);
      }
    case Decide(unit) => BoundDecide(cfg, h, unit, k, c);
    case Deliver(outcome) =>
      var run := h.sys.runner;
      if run.Live? && run.phase.Draining? {
        if run.phase.done == [] {
          BoundExhausted(cfg, h, outcome, k, c);
        } else if run.phase.done[0] in h.decided {
          BoundRecord(cfg, h, if outcome.Returned?
            then Returned(outcome.result.(costDowngraded := h.decided[run.phase.done[0]].downgraded)) else outcome, k, c);
        }
      }
  }

  lemma {:induction false} BoundRun(cfg: Config, h: State, moves: seq<Move>, k: Key, c: real)
    requires Enforced(cfg, k) && c >= 0.0 && BoundInv(cfg, h, k, c)
    requires forall i :: 0 <= i < |moves| ==> CostsWithin(moves[i], c)
    ensures BoundInv(cfg, Run(cfg, h, moves), k, c)
    decreases |moves|
  {
    if moves != [] {
      NextKeeps(cfg, h, moves[0]);
      BoundKeeps(cfg, h, moves[0], k, c);
      BoundRun(cfg, Next(cfg, h, moves[0]), moves[1..], k, c);
    }
  }

  /**
   * Over any number of crashes, cancels and resumes, the completed units that ran another strategy than
   * the cheapest cost less than the cap plus one unit per worker; likewise inside each budgeted difficulty.
   */
  lemma DowngradeBound(cfg: Config, specs: seq<(string, string, string)>, moves: seq<Move>, k: Key, c: real)
    requires Enforced(cfg, k) && c >= 0.0
    requires forall i :: 0 <= i < |moves| ==> CostsWithin(moves[i], c)
    ensures Sound(cfg, Begin(specs))
    ensures Total(cfg, k, true, Run(cfg, Begin(specs), moves).sys.file.units) < cfg.caps[k] + Times(Workers(cfg), c)
  {
    BeginIsSound(cfg, specs);
    var h := Begin(specs);
    FreshCostsNothing(cfg, k, true, h.sys.file.units);
    TimesMonotone(0, Workers(cfg), c);
    assert Committed(cfg, h, k) == {};
    BoundRun(cfg, h, moves, k, c);
    RecordBound(cfg, Run(cfg, h, moves), k, c);
  }

  lemma {:induction false} FreshCostsNothing(cfg: Config, k: Key, dearOnly: bool, units: seq<TaskUnit>)
    requires forall i :: 0 <= i < |units| ==> units[i].result.None?
    ensures Total(cfg, k, dearOnly, units) == 0.0
  {
    if units != [] {
      FreshCostsNothing(cfg, k, dearOnly, units[..|units|-1]);
    }
  }

  /** A unit is downgraded exactly when its own difficulty or the run is over its cap, never because of another difficulty. */
  lemma OtherDifficultiesDoNotDowngrade(cfg: Config, ledgers: map<Key, real>, ledgers': map<Key, real>, u: TaskUnit)
    requires forall k :: Covers(cfg, k, u) ==> (OverCap(cfg, ledgers, k) <==> OverCap(cfg, ledgers', k))
    ensures Choose(cfg, ledgers, u) == Choose(cfg, ledgers', u)
    ensures Choose(cfg, ledgers, u).strategy != cfg.cheapest ==>
      !OverCap(cfg, ledgers, OfDifficulty(DifficultyOf(cfg, u))) && !(cfg.action == Downgrade && OverCap(cfg, ledgers, WholeRun))
  {
  }

  // -- The auto-stop bound ---------------------------------------------------

  ghost predicate Stops(cfg: Config) {
    cfg.action == AutoStop && WholeRun in cfg.caps && cfg.caps[WholeRun] > 0.0
  }

  /** A unit is in flight, about to be dispatched, or recorded and not yet settled. */
  predicate Committing(run: Runner) {
    run.Live? && (run.pending != [] || run.phase.Launching? || run.phase.Settling? ||
                  (run.phase == Dispatching(false) && run.queue != []))
  }

  /** With one worker, nothing is committed unless the ledger is below the cap. */
  ghost predicate StopInv(cfg: Config, h: State, c: real)
    requires Stops(cfg)
  {
    && Sound(cfg, h) && ResultsWithin(h.sys.file.units, c)
    && Total(cfg, WholeRun, false, h.sys.file.units) < cfg.caps[WholeRun] + c
    && (Committing(h.sys.runner) ==> WholeRun in h.ledgers && h.ledgers[WholeRun] < cfg.caps[WholeRun])
  }

  /** Only a negative pause answer with work queued makes a run start committing. */
  lemma CommittingStarts(s: System, a: Action)
    requires Inv(s) && !a.Load? && !a.Finish? && !a.Settle?
    ensures Committing(Apply(s, a).runner) ==> Committing(s.runner) || a == Check(false)
  {
  }

  lemma StopOther(cfg: Config, h: State, a: Action, c: real)
    requires Stops(cfg) && c >= 0.0 && StopInv(cfg, h, c)
    requires !a.Load? && !a.Finish? && !a.Settle?
    ensures StopInv(cfg, DoMachine(cfg, h, a), c)
  {
    NextKeeps(cfg, h, Machine(a));
    var a' := if a.Check? then Check(OverCap(cfg, h.ledgers, WholeRun)) else a;
    OtherSteps(h.sys, a');
    ResultsKept(h.sys, a');
    CommittingStarts(h.sys, a');
    var h' := DoMachine(cfg, h, a);
    if h'.sys.runner.Live? {
      LedgerPresent(cfg, h, WholeRun);
    }
    hide Sound, Inv, Apply;
    SameTotals(cfg, h, h', c);
  }

  lemma SameTotals(cfg: Config, h: State, h': State, c: real)
    requires PlansKept(h.sys, h'.sys) && ResultsWithin(h.sys.file.units, c)
    ensures ResultsWithin(h'.sys.file.units, c)
    ensures Total(cfg, WholeRun, false, h'.sys.file.units) == Total(cfg, WholeRun, false, h.sys.file.units)
  {
    TotalKept(cfg, WholeRun, false, h.sys.file.units, h'.sys.file.units);
    forall i | 0 <= i < |h'.sys.file.units|
      ensures h'.sys.file.units[i].result.Some? ==> KnownCost(h'.sys.file.units[i].result.value) <= c
    {
      assert PlanKept(h.sys.file.units[i], h'.sys.file.units[i]);
    }
  }

  lemma StopLoad(cfg: Config, h: State, resume: bool, workers: nat, c: real)
    requires Stops(cfg) && c >= 0.0 && StopInv(cfg, h, c)
    ensures StopInv(cfg, DoMachine(cfg, h, Load(resume, workers)), c)
  {
    NextKeeps(cfg, h, Machine(Load(resume, workers)));
    ResultsKept(h.sys, Load(resume, 1));
    var h' := DoMachine(cfg, h, Load(resume, workers));
    if h' != h {
      assert !Committing(h'.sys.runner);
      hide Sound, Inv, Apply;
      SameTotals(cfg, h, h', c);
    }
  }

  lemma StopSettle(cfg: Config, h: State, c: real)
    requires Stops(cfg) && c >= 0.0 && StopInv(cfg, h, c)
    ensures StopInv(cfg, DoMachine(cfg, h, Settle), c)
  {
    NextKeeps(cfg, h, Machine(Settle));
    SettleEffect(h.sys);
    if h.sys.runner.Live? { LiveWorkers(h.sys); }
    hide Apply, Inv, Balanced, DecidedWell, Total, Weight, Settled;
    if h.sys.runner.Live? && h.sys.runner.phase.Settling? {
      assert |h.sys.runner.pending| == 0;
    }
  }

  lemma StopRecord(cfg: Config, h: State, outcome: Outcome, c: real)
    requires Stops(cfg) && c >= 0.0 && StopInv(cfg, h, c)
    requires h.sys.runner.Live? && h.sys.runner.phase.Draining? && h.sys.runner.phase.done != []
    requires outcome.Returned? ==> KnownCost(outcome.result) <= c
    ensures StopInv(cfg, State(Apply(h.sys, Finish(outcome)), h.ledgers, h.decided - {h.sys.runner.phase.done[0]}), c)
  {
    var unit, units := h.sys.runner.phase.done[0], h.sys.file.units;
    hide Inv, Apply, Balanced, DecidedWell, Total;
    RecordKeeps(cfg, h, outcome);
    DeliverEffect(h.sys, outcome);
    LedgerBelow(cfg, h, unit);
    TotalUpdate(cfg, WholeRun, false, units, unit, Conclude(units[unit], outcome));
    RecordWithin(units, unit, outcome, c);
  }

  /** While a unit is in flight and nothing awaits settlement, the record itself is below the cap. */
  lemma LedgerBelow(cfg: Config, h: State, unit: nat)
    requires Stops(cfg) && Sound(cfg, h) && h.sys.runner.Live? && unit in h.sys.runner.pending
    requires h.sys.runner.phase.Draining?
    requires Committing(h.sys.runner) ==> WholeRun in h.ledgers && h.ledgers[WholeRun] < cfg.caps[WholeRun]
    ensures WholeRun in h.ledgers && h.ledgers[WholeRun] < cfg.caps[WholeRun]
    ensures Total(cfg, WholeRun, false, h.sys.file.units) < cfg.caps[WholeRun]
  {
    assert Balanced(cfg, h, WholeRun);
  }

  lemma StopExhausted(cfg: Config, h: State, outcome: Outcome, c: real)
    requires Stops(cfg) && c >= 0.0 && StopInv(cfg, h, c)
    requires h.sys.runner.Live? && h.sys.runner.phase == Draining([])
    ensures StopInv(cfg, h.(sys := Apply(h.sys, Finish(outcome))), c)
  {
    ExhaustedKeeps(cfg, h, outcome);
    assert Apply(h.sys, Finish(outcome)) == h.sys.(runner := h.sys.runner.(phase := Top));
  }

  lemma StopKeeps(cfg: Config, h: State, m: Move, c: real)
    requires Stops(cfg) && c >= 0.0 && StopInv(cfg, h, c) && CostsWithin(m, c)
    ensures StopInv(cfg, Next(cfg, h, m), c)
  {
    NextKeeps(cfg, h, m);
    assert Inv(h.sys);
    hide Sound, Inv, Apply, Committing;
    match m
    case Machine(a) =>
      if a.Load? {
        StopLoad(cfg, h, a.resume, a.workers, c);
      } else if a.Settle? {
        StopSettle(cfg, h, c);
      } else if !a.Finish? {
        StopOther(cfg, h, a, c);
      }
    case Decide(unit) =>
    case Deliver(outcome) =>
      var run := h.sys.runner;
      if run.Live? && run.phase.Draining? {
        if run.phase.done == [] {
          StopExhausted(cfg, h, outcome, c);
        } else if run.phase.done[0] in h.decided {
          StopRecord(cfg, h, if outcome.Returned?
            then Returned(outcome.result.(costDowngraded := h.decided[run.phase.done[0]].downgraded)) else outcome, c);
        }
      }
  }

  lemma {:induction false} StopRun(cfg: Config, h: State, moves: seq<Move>, c: real)
    requires Stops(cfg) && c >= 0.0 && StopInv(cfg, h, c)
    requires forall i :: 0 <= i < |moves| ==> CostsWithin(moves[i], c)
    ensures StopInv(cfg, Run(cfg, h, moves), c)
    decreases |moves|
  {
    if moves != [] {
      NextKeeps(cfg, h, moves[0]);
      StopKeeps(cfg, h, moves[0], c);
      StopRun(cfg, Next(cfg, h, moves[0]), moves[1..], c);
    }
  }

  /**
   * With `auto_stop`, over any number of pauses, crashes and resumes, a unit is only ever dispatched while
   * the settled cost is below the cap, and the known cost of the record stays below the cap plus one unit.
   */
  lemma AutoStopBound(cfg: Config, specs: seq<(string, string, string)>, moves: seq<Move>, c: real)
    requires Stops(cfg) && c >= 0.0
    requires forall i :: 0 <= i < |moves| ==> CostsWithin(moves[i], c)
    ensures Sound(cfg, Begin(specs))
    ensures var h := Run(cfg, Begin(specs), moves);
      && Total(cfg, WholeRun, false, h.sys.file.units) < cfg.caps[WholeRun] + c
      && (h.sys.runner.Live? && h.sys.runner.phase.Launching? ==>
            WholeRun in h.ledgers && h.ledgers[WholeRun] < cfg.caps[WholeRun])
  {
    BeginIsSound(cfg, specs);
    FreshCostsNothing(cfg, WholeRun, false, Begin(specs).sys.file.units);
    StopRun(cfg, Begin(specs), moves, c);
  }

  /** A run over its cap with work left and nothing in flight pauses; one with an empty queue never does. */
  lemma PausesExactlyWithWorkLeft(cfg: Config, h: State, pauseAnswer: bool)
    requires Stops(cfg) && Sound(cfg, h) && h.sys.runner.Live? && h.sys.runner.phase.Top? && !CancelSeen(h.sys)
    requires h.sys.runner.queue != [] || h.sys.runner.pending != []
    ensures var run' := Next(cfg, h, Machine(Check(pauseAnswer))).sys.runner;
      run'.Live? && (run'.phase.Pausing? <==>
        OverCap(cfg, h.ledgers, WholeRun) && h.sys.runner.queue != [] && h.sys.runner.pending == [])
  {
  }
}
