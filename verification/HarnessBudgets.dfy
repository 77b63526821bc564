// What the saved record of a budgeted evaluation says about its budgets, at any point of any history.
module HarnessBudgets {
  import opened Models
  import opened TaskRecords
  import opened TaskMachine
  import opened TaskTheorems
  import opened CostStrategy
  import opened Harness

  /** The completed units that ledger `k` covers have reached its cap. */
  predicate AtCap(cfg: Config, units: seq<TaskUnit>, k: Key) {
    k in cfg.caps && Total(cfg, k, false, units) >= cfg.caps[k]
  }

  /** A reason to downgrade a unit: the run's cap, if that rule is on, or the budget of the unit's own difficulty. */
  predicate HasReason(cfg: Config, units: seq<TaskUnit>, u: TaskUnit) {
    (cfg.action == Downgrade && AtCap(cfg, units, WholeRun)) || AtCap(cfg, units, OfDifficulty(DifficultyOf(cfg, u)))
  }

  /** One move completes at most units that had decided, and only ever adds to the totals. */
  ghost predicate Grows(cfg: Config, h: State, h': State) {
    && |h'.sys.file.units| == |h.sys.file.units|
    && (forall i :: 0 <= i < |h.sys.file.units| ==> UnitGrows(h, h.sys.file.units[i], h'.sys.file.units[i], i))
    && (forall k :: Total(cfg, k, false, h'.sys.file.units) >= Total(cfg, k, false, h.sys.file.units))
    && (forall u :: u in h'.decided ==>
          (u in h.decided && h'.decided[u] == h.decided[u])
          || (h.sys.runner.Live? && u < |h.sys.file.units| && h'.decided[u] == Choose(cfg, h.ledgers, h.sys.file.units[u])))
  }

  ghost predicate UnitGrows(h: State, u: TaskUnit, u': TaskUnit, i: nat) {
    && u'.strategy == u.strategy && u'.problemId == u.problemId
    && (u'.result == u.result
        || (i in h.decided && u'.result.Some? && u'.result.value.costDowngraded == h.decided[i].downgraded))
  }

  lemma KeptGrows(cfg: Config, h: State, h': State)
    requires PlansKept(h.sys, h'.sys)
    requires forall u :: u in h'.decided ==>
      (u in h.decided && h'.decided[u] == h.decided[u])
      || (h.sys.runner.Live? && u < |h.sys.file.units| && h'.decided[u] == Choose(cfg, h.ledgers, h.sys.file.units[u]))
    ensures Grows(cfg, h, h')
  {
    hide Choose;
    forall k ensures Total(cfg, k, false, h'.sys.file.units) >= Total(cfg, k, false, h.sys.file.units) {
      TotalKept(cfg, k, false, h.sys.file.units, h'.sys.file.units);
    }
    forall i | 0 <= i < |h.sys.file.units| ensures UnitGrows(h, h.sys.file.units[i], h'.sys.file.units[i], i) {
      assert PlanKept(h.sys.file.units[i], h'.sys.file.units[i]);
    }
  }

  lemma MachineGrows(cfg: Config, h: State, a: Action)
    requires Inv(h.sys)
    ensures Grows(cfg, h, DoMachine(cfg, h, a))
  {
    var a' := match a
      case Load(resume, _) => Load(resume, Workers(cfg))
      case Check(_) => Check(cfg.action == AutoStop && OverCap(cfg, h.ledgers, WholeRun))
      case _ => a;
    if a.Finish? {
      SamePlans(h.sys);
    } else {
      ResultsKept(h.sys, a');
      SamePlans(h.sys);
    }
    hide Inv, Apply, PlansKept, Choose;
    KeptGrows(cfg, h, DoMachine(cfg, h, a));
  }

  lemma SamePlans(s: System)
    ensures PlansKept(s, s)
  {
  }

  lemma RecordGrows(cfg: Config, h: State, outcome: Outcome)
    requires Inv(h.sys) && h.sys.runner.Live? && h.sys.runner.phase.Draining? && h.sys.runner.phase.done != []
    requires h.sys.runner.phase.done[0] in h.decided
    requires outcome.Returned? ==> outcome.result.costDowngraded == h.decided[h.sys.runner.phase.done[0]].downgraded
    ensures Grows(cfg, h, State(Apply(h.sys, Finish(outcome)), h.ledgers, h.decided - {h.sys.runner.phase.done[0]}))
  {
    var unit, units := h.sys.runner.phase.done[0], h.sys.file.units;
    DeliverEffect(h.sys, outcome);
    hide Inv, Apply, Choose;
    forall k ensures Total(cfg, k, false, units[unit := Conclude(units[unit], outcome)]) >= Total(cfg, k, false, units) {
      TotalUpdate(cfg, k, false, units, unit, Conclude(units[unit], outcome));
    }
  }

  lemma NextGrows(cfg: Config, h: State, m: Move)
    requires Inv(h.sys)
    ensures Grows(cfg, h, Next(cfg, h, m))
  {
    match m
    case Machine(a) => MachineGrows(cfg, h, a);
    case Decide(unit) =>
      SamePlans(h.sys);
      KeptGrows(cfg, h, Next(cfg, h, m));
    case Deliver(outcome) =>
      var run := h.sys.runner;
      SamePlans(h.sys);
      if run.Live? && run.phase.Draining? && run.phase.done != [] && run.phase.done[0] in h.decided {
        RecordGrows(cfg, h, if outcome.Returned?
          then Returned(outcome.result.(costDowngraded := h.decided[run.phase.done[0]].downgraded)) else outcome);
      } else {
        hide Inv, Choose, PlansKept;
        KeptGrows(cfg, h, Next(cfg, h, m));
      }
  }

  /** A live ledger never runs ahead of the record. */
  lemma LedgerIsCovered(cfg: Config, h: State, k: Key)
    requires Sound(cfg, h) && h.sys.runner.Live? && OverCap(cfg, h.ledgers, k)
    ensures AtCap(cfg, h.sys.file.units, k)
  {
    assert Balanced(cfg, h, k);
  }

  // -- Downgrades ------------------------------------------------------------

  /** Every downgrade, decided or recorded, has its reason in the record. */
  ghost predicate Justified(cfg: Config, h: State) {
    && (forall u :: u in h.decided && h.decided[u].downgraded ==>
          u < |h.sys.file.units| && HasReason(cfg, h.sys.file.units, h.sys.file.units[u]))
    && (forall i :: 0 <= i < |h.sys.file.units| && h.sys.file.units[i].result.Some? && h.sys.file.units[i].result.value.costDowngraded ==>
          HasReason(cfg, h.sys.file.units, h.sys.file.units[i]))
  }

  lemma ReasonsStay(cfg: Config, units: seq<TaskUnit>, units': seq<TaskUnit>, u: TaskUnit, u': TaskUnit)
    requires forall k :: Total(cfg, k, false, units') >= Total(cfg, k, false, units)
    requires HasReason(cfg, units, u) && u'.problemId == u.problemId
    ensures HasReason(cfg, units', u')
  {
  }

  lemma ChoiceHasReason(cfg: Config, h: State, u: TaskUnit)
    requires Sound(cfg, h) && h.sys.runner.Live? && Choose(cfg, h.ledgers, u).downgraded
    ensures HasReason(cfg, h.sys.file.units, u)
  {
    if cfg.action == Downgrade && OverCap(cfg, h.ledgers, WholeRun) {
      LedgerIsCovered(cfg, h, WholeRun);
    } else {
      LedgerIsCovered(cfg, h, OfDifficulty(DifficultyOf(cfg, u)));
    }
  }

  lemma JustifiedStays(cfg: Config, h: State, h': State)
    requires Sound(cfg, h) && Justified(cfg, h) && Grows(cfg, h, h')
    ensures Justified(cfg, h')
  {
    hide Sound, HasReason, Choose;
    var units, units' := h.sys.file.units, h'.sys.file.units;
    forall u | u in h'.decided && h'.decided[u].downgraded ensures u < |units'| && HasReason(cfg, units', units'[u]) {
      if !(u in h.decided && h'.decided[u] == h.decided[u]) {
        ChoiceHasReason(cfg, h, units[u]);
      }
      assert UnitGrows(h, units[u], units'[u], u);
      ReasonsStay(cfg, units, units', units[u], units'[u]);
    }
    forall i | 0 <= i < |units'| && units'[i].result.Some? && units'[i].result.value.costDowngraded
      ensures HasReason(cfg, units', units'[i])
    {
      assert UnitGrows(h, units[i], units'[i], i);
      ReasonsStay(cfg, units, units', units[i], units'[i]);
    }
  }

  lemma {:induction false} JustifiedRun(cfg: Config, h: State, moves: seq<Move>)
    requires Sound(cfg, h) && Justified(cfg, h)
    ensures Justified(cfg, Run(cfg, h, moves))
    decreases |moves|
  {
    if moves != [] {
      var h' := Next(cfg, h, moves[0]);
      assert Inv(h.sys);
      NextKeeps(cfg, h, moves[0]);
      NextGrows(cfg, h, moves[0]);
      hide Sound, Justified, Grows, Next;
      JustifiedStays(cfg, h, h');
      JustifiedRun(cfg, h', moves[1..]);
    }
  }

  /**
   * A unit recorded as downgraded: by then the run had reached its cap under the downgrade rule, or the unit's
   * own difficulty had used up its budget.  However far another difficulty overruns, it downgrades no unit.
   */
  lemma DowngradedOnlyAtCap(cfg: Config, specs: seq<(string, string, string)>, moves: seq<Move>, i: nat)
    ensures Sound(cfg, Begin(specs))
    ensures var units := Run(cfg, Begin(specs), moves).sys.file.units;
      i < |units| && units[i].result.Some? && units[i].result.value.costDowngraded ==> HasReason(cfg, units, units[i])
  {
    BeginIsSound(cfg, specs);
    JustifiedRun(cfg, Begin(specs), moves);
  }

  // -- Pauses ----------------------------------------------------------------

  ghost predicate SomeQueued(units: seq<TaskUnit>) {
    exists i :: 0 <= i < |units| && units[i].status == Queued
  }

  /** Paused on disk, or decided to be. */
  predicate PausedOrPausing(s: System) {
    s.file.state == Paused || (s.runner.Live? && s.runner.phase.Pausing?)
  }

  /** A paused record, and a decision to pause, keep their queued units until a start. */
  lemma PauseKeepsQueue(s: System, a: Action)
    requires Inv(s) && PausedOrPausing(s) && PausedOrPausing(Apply(s, a)) && SomeQueued(s.file.units)
    ensures SomeQueued(Apply(s, a).file.units)
  {
    hide MarkAllCancelled, CountSettled, Numbered;
    var i :| 0 <= i < |s.file.units| && s.file.units[i].status == Queued;
    assert Apply(s, a).file.units[i].status == Queued;
  }

  /** Only a positive pause answer with a unit queued starts a pause. */
  lemma PauseStarts(s: System, a: Action)
    requires Inv(s) && !PausedOrPausing(s) && PausedOrPausing(Apply(s, a))
    ensures a == Check(true) && s.runner.Live? && SomeQueued(Apply(s, a).file.units)
  {
    hide MarkAllCancelled, CountSettled, Numbered;
    assert a == Check(true) && s.runner.Live? && s.runner.queue != [];
    assert s.runner.queue[0] in s.runner.queue;
    assert Apply(s, a).file.units[s.runner.queue[0]].status == Queued;
  }

  /** A pause has its reason in the record. */
  ghost predicate PauseOk(cfg: Config, h: State) {
    PausedOrPausing(h.sys) ==> cfg.action == AutoStop && AtCap(cfg, h.sys.file.units, WholeRun) && SomeQueued(h.sys.file.units)
  }

  lemma PauseStays(cfg: Config, h: State, m: Move)
    requires Sound(cfg, h) && PauseOk(cfg, h)
    ensures PauseOk(cfg, Next(cfg, h, m))
  {
    var h' := Next(cfg, h, m);
    NextGrows(cfg, h, m);
    if PausedOrPausing(h'.sys) && h'.sys != h.sys {
      var a := MovedBy(cfg, h, m);
      hide Grows, Apply, SomeQueued;
      if PausedOrPausing(h.sys) {
        PauseKeepsQueue(h.sys, a);
      } else {
        PauseStarts(h.sys, a);
        LedgerIsCovered(cfg, h, WholeRun);
      }
      assert Grows(cfg, h, h');
    }
  }

  /** The machine step that a move amounts to, when it moves the machine. */
  lemma MovedBy(cfg: Config, h: State, m: Move) returns (a: Action)
    requires Sound(cfg, h) && Next(cfg, h, m).sys != h.sys
    ensures Next(cfg, h, m).sys == Apply(h.sys, a)
    ensures a == Check(true) && h.sys.runner.Live? ==> cfg.action == AutoStop && OverCap(cfg, h.ledgers, WholeRun)
  {
    hide Inv, Apply;
    match m
    case Machine(b) =>
      a := match b
        case Load(resume, _) => Load(resume, Workers(cfg))
        case Check(_) => Check(cfg.action == AutoStop && OverCap(cfg, h.ledgers, WholeRun))
        case _ => b;
    case Decide(_) => a := Settle;
    case Deliver(outcome) =>
      var run := h.sys.runner;
      a := Finish(outcome);
      if run.Live? && run.phase.Draining? && run.phase.done != [] && run.phase.done[0] in h.decided && outcome.Returned? {
        a := Finish(Returned(outcome.result.(costDowngraded := h.decided[run.phase.done[0]].downgraded)));
      }
  }

  lemma {:induction false} PauseRun(cfg: Config, h: State, moves: seq<Move>)
    requires Sound(cfg, h) && PauseOk(cfg, h)
    ensures PauseOk(cfg, Run(cfg, h, moves))
    decreases |moves|
  {
    if moves != [] {
      NextKeeps(cfg, h, moves[0]);
      hide Sound, PauseOk, Next;
      PauseStays(cfg, h, moves[0]);
      PauseRun(cfg, Next(cfg, h, moves[0]), moves[1..]);
    }
  }

  /**
   * A record that is ever saved as paused is that of an `auto_stop` run, and has completed units worth the cap
   * and a unit queued: reaching the cap on the last unit never pauses, and no other budget rule does.
   */
  lemma PausedOnlyAtCap(cfg: Config, specs: seq<(string, string, string)>, moves: seq<Move>)
    ensures Sound(cfg, Begin(specs))
    ensures var file := Run(cfg, Begin(specs), moves).sys.file;
      file.state == Paused ==> cfg.action == AutoStop && AtCap(cfg, file.units, WholeRun) && SomeQueued(file.units)
  {
    BeginIsSound(cfg, specs);
    assert !PausedOrPausing(Begin(specs).sys);
    PauseRun(cfg, Begin(specs), moves);
  }
}
