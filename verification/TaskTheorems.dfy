/** What holds of every run, every interruption and every sequence of runs. */
module TaskTheorems {
  import opened Models
  import opened TaskRecords
  import opened TaskMachine

  function Exec(s: System, actions: seq<Action>): (s': System)
    requires Inv(s)
    ensures Inv(s')
    decreases |actions|
  {
    if actions == [] then s
    else
      ApplyKeeps(s, actions[0]);
      Exec(Apply(s, actions[0]), actions[1..])
  }

  /** A fresh task as `create` saves it: default units, one event. */
  function Created(specs: seq<(string, string, string)>): Snapshot {
    AppendEvent(Snapshot(Queued, 0, false, None, FreshUnits(specs), []), TaskCreated, None)
  }

  function FreshUnits(specs: seq<(string, string, string)>): (units: seq<TaskUnit>)
    ensures |units| == |specs|
    ensures forall i :: 0 <= i < |units| ==> units[i] == TaskUnit(specs[i].0, specs[i].1, specs[i].2, Queued, false, None, None)
    ensures CountSettled(units) == 0
  {
    if specs == [] then []
    else
      var n := |specs| - 1;
      var front := FreshUnits(specs[..n]);
      var units := front + [TaskUnit(specs[n].0, specs[n].1, specs[n].2, Queued, false, None, None)];
      assert units[..n] == front;
      units
  }

  function Initial(specs: seq<(string, string, string)>): (s: System)
    ensures Inv(s)
  {
    System(Created(specs), false, Idle, [], {})
  }

  /**
   * Whatever happens to a task after its creation, the record on disk has its events numbered 1..n,
   * a true count of ended units, a result on exactly the completed units, and no unit in doubt
   * unless the run was cancelled or the task failed.
   */
  lemma EveryRecordIsSound(specs: seq<(string, string, string)>, actions: seq<Action>)
    ensures var r := Exec(Initial(specs), actions).file;
      && |r.units| == |specs|
      && (forall k :: 0 <= k < |r.events| ==> r.events[k].sequence == k + 1)
      && r.completedUnits == CountSettled(r.units)
      && (forall i :: 0 <= i < |r.units| ==>
            (r.units[i].result.Some? <==> r.units[i].status == Completed) &&
            (r.units[i].uncertain ==> r.units[i].status == Cancelled && r.state in {Cancelled, Failed}))
  {
    History(Initial(specs), actions);
  }

  // -- Confirmed units are final ---------------------------------------------

  /** How the record and the call log may move in one step or in many. */
  ghost predicate Evolves(s: System, s': System) {
    && |s'.file.units| == |s.file.units|
    && s.calls <= s'.calls
    && (forall i :: 0 <= i < |s.file.units| && IsSettled(s.file.units[i]) ==>
          s'.file.units[i] == s.file.units[i] && i !in s'.calls[|s.calls|..])
  }

  predicate ResumeLoad(s: System, a: Action) {
    s.runner.Idle? && a.Load? && a.resume && a.workers >= 1
  }

  /** The ways one unit can move in one step. */
  ghost predicate UnitMoves(s: System, a: Action, u: TaskUnit, u': TaskUnit) {
    if ResumeLoad(s, a) then u' == Requeue(u)
    else
      || u' == u
      || (s.runner.Live? && u.status == Queued && u'.status in {Running, Cancelled})
      || (s.runner.Live? && u.status == Running && u'.status in {Completed, Failed, Cancelled})
  }

  ghost predicate StepMoves(s: System, a: Action, s': System) {
    && |s'.file.units| == |s.file.units|
    && (forall i :: 0 <= i < |s.file.units| ==> UnitMoves(s, a, s.file.units[i], s'.file.units[i]))
    && (s'.calls == s.calls ||
        (s.runner.Live? && s.runner.queue != [] && s.runner.queue[0] < |s.file.units| &&
         s.file.units[s.runner.queue[0]].status == Queued && s'.calls == s.calls + [s.runner.queue[0]]))
  }

  lemma CheckMoves(s: System, pauseAnswer: bool)
    requires Inv(s) && s.runner.Live? && s.runner.phase.Top?
    ensures StepMoves(s, Check(pauseAnswer), DoCheck(s, pauseAnswer))
  {
    CancelEffect(s);
  }

  lemma LaunchMoves(s: System)
    requires Inv(s) && s.runner.Live? && s.runner.phase.Launching?
    ensures StepMoves(s, Launch, DoLaunch(s))
  {
    assert s.runner.queue[0] in s.runner.queue;
  }

  lemma FinishMoves(s: System, outcome: Outcome)
    requires Inv(s) && s.runner.Live? && s.runner.phase.Draining?
    ensures StepMoves(s, Finish(outcome), DoFinish(s, outcome))
  {
    if s.runner.phase.done != [] {
      assert s.runner.phase.done[0] in s.runner.pending;
    }
  }

  /** Only recording an outcome touches a unit's result; nothing ever touches its plan. */
  ghost predicate PlanKept(u: TaskUnit, u': TaskUnit) {
    u'.result == u.result && u'.strategy == u.strategy && u'.problemId == u.problemId
  }

  ghost predicate PlansKept(s: System, s': System) {
    && |s'.file.units| == |s.file.units|
    && forall i :: 0 <= i < |s.file.units| ==> PlanKept(s.file.units[i], s'.file.units[i])
  }

  lemma LoadKeepsPlans(s: System, resume: bool, workers: nat)
    requires Inv(s) && s.runner.Idle?
    ensures PlansKept(s, DoLoad(s, resume, workers))
  {
    hide Numbered;
    forall i | 0 <= i < |s.file.units| ensures PlanKept(s.file.units[i], Requeue(s.file.units[i])) {
      assert UnitOk(s.file.units[i]);
    }
  }

  lemma LaunchKeepsPlans(s: System)
    requires Inv(s) && s.runner.Live? && s.runner.phase.Launching?
    ensures PlansKept(s, DoLaunch(s))
  {
    assert s.runner.queue[0] in s.runner.queue;
  }

  lemma CheckKeepsPlans(s: System, pauseAnswer: bool)
    requires Inv(s) && s.runner.Live? && s.runner.phase.Top?
    ensures PlansKept(s, DoCheck(s, pauseAnswer))
  {
    CancelEffect(s);
  }

  lemma ResultsKept(s: System, a: Action)
    requires Inv(s) && !a.Finish?
    ensures PlansKept(s, Apply(s, a))
  {
    match a
    case Check(pauseAnswer) => if s.runner.Live? && s.runner.phase.Top? { CheckKeepsPlans(s, pauseAnswer); }
    case Launch => if s.runner.Live? && s.runner.phase.Launching? { LaunchKeepsPlans(s); }
    case Load(resume, workers) => if s.runner.Idle? { LoadKeepsPlans(s, resume, workers); }
    case _ => QuietSteps(s, a);
  }

  lemma UnitsMove(s: System, a: Action)
    requires Inv(s)
    ensures StepMoves(s, a, Apply(s, a))
  {
    match a
    case Check(pauseAnswer) => if s.runner.Live? && s.runner.phase.Top? { CheckMoves(s, pauseAnswer); }
    case Launch => if s.runner.Live? && s.runner.phase.Launching? { LaunchMoves(s); }
    case Finish(outcome) => if s.runner.Live? && s.runner.phase.Draining? { FinishMoves(s, outcome); }
    case Load(_, _) =>
    case _ => QuietSteps(s, a);
  }

  lemma QuietSteps(s: System, a: Action)
    requires Inv(s) && !a.Check? && !a.Launch? && !a.Finish? && !a.Load?
    ensures Apply(s, a).calls == s.calls && Apply(s, a).file.units == s.file.units
  {
  }

  lemma StepEvolves(s: System, a: Action)
    requires Inv(s)
    ensures Evolves(s, Apply(s, a))
  {
    hide Apply, Tracked, Numbered;
    UnitsMove(s, a);
    var s' := Apply(s, a);
    forall i | 0 <= i < |s.file.units| && IsSettled(s.file.units[i])
      ensures s'.file.units[i] == s.file.units[i] && i !in s'.calls[|s.calls|..]
    {
      assert UnitMoves(s, a, s.file.units[i], s'.file.units[i]);
      assert UnitOk(s.file.units[i]);
      if s'.calls != s.calls {
        assert s'.calls[|s.calls|..] == [s.runner.queue[0]];
      }
    }
  }

  lemma EvolvesTransitive(s: System, t: System, u: System)
    requires Evolves(s, t) && Evolves(t, u)
    ensures Evolves(s, u)
  {
    assert u.calls[|s.calls|..] == t.calls[|s.calls|..] + u.calls[|t.calls|..];
  }

  /**
   * Once a saved record shows a unit completed or failed, the unit never changes again and no worker
   * is ever invoked for it again, through any crashes, cancels, pauses and resumes.
   */
  lemma {:induction false} History(s: System, actions: seq<Action>)
    requires Inv(s)
    ensures Evolves(s, Exec(s, actions))
    decreases |actions|
  {
    if actions != [] {
      ApplyKeeps(s, actions[0]);
      var t := Apply(s, actions[0]);
      StepEvolves(s, actions[0]);
      History(t, actions[1..]);
      EvolvesTransitive(s, t, Exec(t, actions[1..]));
    }
  }

  /** The only way back into the queue is a resume, and it takes every running or cancelled unit and no other. */
  lemma OnlyOpenUnitsAreRequeued(s: System, a: Action, i: nat)
    requires Inv(s) && i < |s.file.units|
    ensures |Apply(s, a).file.units| == |s.file.units|
    ensures var u, u' := s.file.units[i], Apply(s, a).file.units[i];
      (u.status != Queued && u'.status == Queued <==> ResumeLoad(s, a) && u.status in {Running, Cancelled})
  {
    UnitsMove(s, a);
    assert UnitMoves(s, a, s.file.units[i], Apply(s, a).file.units[i]);
    assert UnitOk(s.file.units[i]);
  }

  // -- One run, from its first check to its end ------------------------------

  /** The runner is live before each of the actions: they all belong to one run. */
  ghost predicate SameRun(s: System, actions: seq<Action>)
    requires Inv(s)
    decreases |actions|
  {
    actions == [] ||
    (s.runner.Live? && (ApplyKeeps(s, actions[0]); SameRun(Apply(s, actions[0]), actions[1..])))
  }

  /** `2 * |queue| + |pending|`: what the loop still has to do. */
  function Remaining(run: Runner): nat
    requires run.Live?
  {
    2 * |run.queue| + |run.pending|
  }

  /** Under way: past the start, so the queue has been read off the record. */
  ghost predicate UnderWay(s: System) {
    s.runner.Live? && s.runner.phase != Starting
  }

  /** Every step of a run that is not idle lowers what remains, by exactly one. */
  lemma NonIdleStepsLowerRemaining(s: System, a: Action)
    requires Inv(s) && UnderWay(s) && Apply(s, a).runner.Live?
    ensures var run, run' := s.runner, Apply(s, a).runner;
      || (run'.queue == run.queue && run'.pending == run.pending)
      || Remaining(run') == Remaining(run) - 1
  {
    match a
    case Finish(_) =>
      if s.runner.phase.Draining? && s.runner.phase.done != [] {
        assert s.runner.phase.done[0] in s.runner.pending;
        RemoveSize(s.runner.pending, s.runner.phase.done[0]);
      }
    case _ =>
  }

  lemma {:induction false} RemoveSize(ids: seq<nat>, i: nat)
    requires Distinct(ids) && i in ids
    ensures |Remove(ids, i)| == |ids| - 1
  {
    var n := |ids| - 1;
    assert ids == ids[..n] + [ids[n]];
    if ids[n] == i {
      assert i !in ids[..n];
    } else {
      RemoveSize(ids[..n], i);
    }
  }

  /** The queue only ever gives up its head, and only to a worker call. */
  lemma QueueStep(s: System, a: Action)
    requires Inv(s) && UnderWay(s)
    ensures var s' := Apply(s, a);
      if s.runner.phase == Launching && a == Launch then
        s'.calls == s.calls + [s.runner.queue[0]] && s'.runner.Live? && s'.runner.queue == s.runner.queue[1..] && UnderWay(s')
      else
        s'.calls == s.calls && (s'.runner.Live? ==> s'.runner.queue == s.runner.queue && UnderWay(s'))
  {
  }

  /** `s'` was reached from `s` by calling the workers of the first `k` queued units. */
  ghost predicate Followed(s: System, s': System, k: nat)
    requires s.runner.Live?
  {
    && k <= |s.runner.queue|
    && s'.calls == s.calls + s.runner.queue[..k]
    && (s'.runner.Live? ==> s'.runner.queue == s.runner.queue[k..])
  }

  lemma PrependCall(s: System, t: System, s': System, k: nat)
    requires s.runner.Live? && t.runner.Live? && s.runner.queue != []
    requires t.calls == s.calls + [s.runner.queue[0]] && t.runner.queue == s.runner.queue[1..]
    requires Followed(t, s', k)
    ensures Followed(s, s', k + 1)
  {
    assert s.runner.queue[..k + 1] == [s.runner.queue[0]] + t.runner.queue[..k];
  }

  /** A run calls the workers of a prefix of its queue, in queue order, once each. */
  lemma {:induction false} RunFollowsQueue(s: System, actions: seq<Action>)
    requires Inv(s) && UnderWay(s) && SameRun(s, actions)
    ensures exists k: nat :: Followed(s, Exec(s, actions), k)
    decreases |actions|
  {
    if actions == [] {
      assert Exec(s, actions) == s;
      assert Followed(s, s, 0);
    } else {
      var a := actions[0];
      ApplyKeeps(s, a);
      QueueStep(s, a);
      var t := Apply(s, a);
      if t.runner.Live? {
        RunFollowsQueue(t, actions[1..]);
        var s' := Exec(t, actions[1..]);
        assert Exec(s, actions) == s';
        var k: nat :| Followed(t, s', k);
        if s.runner.phase == Launching && a == Launch {
          PrependCall(s, t, s', k);
        } else {
          assert Followed(s, s', k);
        }
      } else {
        assert actions[1..] == [];
        assert Exec(s, actions) == t;
        assert Followed(s, t, 0);
      }
    }
  }

  // -- Cancelling ------------------------------------------------------------

  /** A cancel request that has reached the disk, at a moment when no dispatch has passed its last check. */
  ghost predicate CancelBinds(s: System) {
    s.runner.Live? && s.file.cancelRequested && s.runner.phase != Launching
  }

  lemma CancelBindsStays(s: System, a: Action)
    requires Inv(s) && CancelBinds(s)
    ensures Apply(s, a).calls == s.calls
    ensures Apply(s, a).runner.Live? ==> CancelBinds(Apply(s, a))
  {
  }

  lemma {:induction false} NoDispatchOnceBound(s: System, actions: seq<Action>)
    requires Inv(s) && CancelBinds(s) && SameRun(s, actions)
    ensures Exec(s, actions).calls == s.calls
    decreases |actions|
  {
    if actions != [] {
      ApplyKeeps(s, actions[0]);
      CancelBindsStays(s, actions[0]);
      var t := Apply(s, actions[0]);
      if t.runner.Live? {
        NoDispatchOnceBound(t, actions[1..]);
      }
    }
  }

  /**
   * With a cancel request on disk, no later step of the run dispatches a unit if and only if the run
   * was not already past its last check before a dispatch; in that case exactly one unit can still go out.
   */
  lemma CancelStopsDispatch(s: System)
    requires Inv(s) && s.runner.Live? && s.file.cancelRequested
    ensures (forall actions :: SameRun(s, actions) ==> Exec(s, actions).calls == s.calls) <==> s.runner.phase != Launching
  {
    if s.runner.phase != Launching {
      forall actions | SameRun(s, actions) ensures Exec(s, actions).calls == s.calls {
        NoDispatchOnceBound(s, actions);
      }
    } else {
      LateDispatch(s);
    }
  }

  /** A request that lands between a dispatch's last check and its save does not stop that dispatch. */
  lemma LateDispatch(s: System)
    requires Inv(s) && s.runner.Live? && s.runner.phase == Launching
    ensures SameRun(s, [Launch])
    ensures s.runner.queue != [] && Exec(s, [Launch]).calls == s.calls + [s.runner.queue[0]]
  {
    ApplyKeeps(s, Launch);
    assert [Launch][1..] == [];
    assert Exec(Apply(s, Launch), []) == Apply(s, Launch);
  }

  /** The one late dispatch is the only one. */
  lemma {:induction false} AtMostOneLateDispatch(s: System, actions: seq<Action>)
    requires Inv(s) && s.runner.Live? && s.file.cancelRequested && SameRun(s, actions)
    ensures |Exec(s, actions).calls| <= |s.calls| + 1
    decreases |actions|
  {
    if s.runner.phase != Launching {
      NoDispatchOnceBound(s, actions);
    } else if actions != [] {
      ApplyKeeps(s, actions[0]);
      var t := Apply(s, actions[0]);
      assert Exec(s, actions) == Exec(t, actions[1..]);
      if t.runner.Live? {
        if actions[0] == Launch {
          NoDispatchOnceBound(t, actions[1..]);
        } else {
          AtMostOneLateDispatch(t, actions[1..]);
        }
      }
    }
  }

  /** A run that sees the request with work left ends cancelled, and its record says exactly what is in doubt. */
  lemma CancelledRecord(s: System, pauseAnswer: bool)
    requires Inv(s) && s.runner.Live? && s.runner.phase.Top? && CancelSeen(s)
    requires s.runner.queue != [] || s.runner.pending != []
    ensures var s' := Apply(s, Check(pauseAnswer));
      && s'.runner.Idle? && s'.file.state == Cancelled
      && forall i: nat :: i < |s'.file.units| ==>
           && s'.file.units[i].status != Queued
           && (s'.file.units[i].status == Running <==> i in s.stranded)
           && (s'.file.units[i].uncertain <==> i in s.runner.pending)
  {
    CancelEffect(s);
  }

  // -- Pausing and finishing -------------------------------------------------

  /** A paused record has a queued unit, and nothing in flight except what an unresumed run left stranded. */
  lemma PausedRecord(s: System)
    requires Inv(s) && s.runner.Live? && s.runner.phase.Pausing?
    ensures var s' := Apply(s, Pause);
      && s'.runner.Idle? && s'.file.state == Paused
      && (exists i :: 0 <= i < |s'.file.units| && s'.file.units[i].status == Queued)
      && forall i: nat :: i < |s'.file.units| ==> (s'.file.units[i].status == Running <==> i in s.stranded)
  {
    var i := s.runner.queue[0];
    assert i in s.runner.queue;
    assert Apply(s, Pause).file.units[i].status == Queued;
  }

  /** A resume strands nothing. */
  lemma ResumeStrandsNothing(s: System, workers: nat)
    requires Inv(s) && s.runner.Idle? && workers >= 1
    ensures var s' := Apply(s, Load(true, workers));
      && s'.stranded == {}
      && forall i :: 0 <= i < |s'.file.units| ==> s'.file.units[i].status in {Queued, Completed, Failed}
  {
    var s' := Apply(s, Load(true, workers));
    forall i | 0 <= i < |s'.file.units| ensures s'.file.units[i].status in {Queued, Completed, Failed} {
      assert UnitOk(s.file.units[i]);
    }
  }

  /** A run that empties its queue ends `completed` exactly when every unit completed, and pauses nothing. */
  lemma FinishedRecord(s: System, pauseAnswer: bool)
    requires Inv(s) && s.runner.Live? && s.runner.phase.Top? && s.runner.queue == [] && s.runner.pending == []
    ensures var s' := Apply(s, Check(pauseAnswer));
      && s'.runner.Idle?
      && (s'.file.state == Completed <==> forall i :: 0 <= i < |s'.file.units| ==> s'.file.units[i].status == Completed)
      && (s'.file.state != Completed ==> s'.file.state == Failed)
      && (s'.file.completedUnits == |s'.file.units| <==> s.stranded == {})
  {
    CountedWhenSettled(s.file.units);
    if s.stranded != {} {
      var i :| i in s.stranded;
      assert !IsSettled(s.file.units[i]);
    }
  }

  /** The count reaches the number of units exactly when every unit is settled. */
  lemma {:induction false} CountedWhenSettled(units: seq<TaskUnit>)
    ensures CountSettled(units) <= |units|
    ensures CountSettled(units) == |units| <==> forall i :: 0 <= i < |units| ==> IsSettled(units[i])
  {
    if units != [] {
      CountedWhenSettled(units[..|units| - 1]);
    }
  }

  // -- A run in a given world ------------------------------------------------

  /** What the world does at one step of a run: a cancel request first, then the answers the step asks for. */
  datatype Tick = Tick(cancel: Option<bool>, pauseAnswer: bool, done: seq<nat>, outcome: Outcome)

  /** The runner's own next step, which its phase determines. */
  function NextAction(run: Runner, tick: Tick): Action
    requires run.Live?
  {
    match run.phase
    case Starting => Start
    case Top => Check(tick.pauseAnswer)
    case Pausing => Pause
    case Dispatching(_) => TryDispatch
    case Launching => Launch
    case Polling => Poll(if CanReport(tick.done, run.pending) then tick.done else [])
    case Draining(_) => Finish(tick.outcome)
    case Settling(_, _) => Settle
  }

  function Interfered(s: System, cancel: Option<bool>): (s': System)
    requires Inv(s) && s.runner.Live?
    ensures Inv(s') && s'.runner == s.runner
  {
    if cancel.None? then s
    else
      ApplyKeeps(s, RequestCancel(cancel.value));
      Apply(s, RequestCancel(cancel.value))
  }

  function Advance(s: System, tick: Tick): (s': System)
    requires Inv(s) && s.runner.Live?
    ensures Inv(s')
  {
    var t := Interfered(s, tick.cancel);
    ApplyKeeps(t, NextAction(t.runner, tick));
    Apply(t, NextAction(t.runner, tick))
  }

  /** The run plays the ticks one by one; if they run out before it ends, the process dies. */
  function Play(s: System, world: seq<Tick>): (s': System)
    requires Inv(s)
    ensures Inv(s') && s'.runner.Idle?
    decreases |world|
  {
    if s.runner.Idle? then s
    else if world == [] then Apply(s, Crash)
    else Play(Advance(s, world[0]), world[1..])
  }

  /** The run ends by itself within the ticks. */
  predicate EndsWithin(s: System, world: seq<Tick>)
    requires Inv(s)
    decreases |world|
  {
    s.runner.Idle? || (world != [] && EndsWithin(Advance(s, world[0]), world[1..]))
  }

  /** The actions that playing the ticks amounts to. */
  function PlayedActions(s: System, world: seq<Tick>): seq<Action>
    requires Inv(s)
    decreases |world|
  {
    if s.runner.Idle? then []
    else if world == [] then [Crash]
    else
      TickActions(s, world[0]) + PlayedActions(Advance(s, world[0]), world[1..])
  }

  function TickActions(s: System, tick: Tick): seq<Action>
    requires s.runner.Live?
  {
    (if tick.cancel.Some? then [RequestCancel(tick.cancel.value)] else []) + [NextAction(s.runner, tick)]
  }

  lemma SameRunSteps(s: System, first: seq<Action>, rest: seq<Action>)
    requires Inv(s) && SameRun(s, first)
    requires SameRun(Exec(s, first), rest)
    ensures SameRun(s, first + rest) && Exec(s, first + rest) == Exec(Exec(s, first), rest)
    decreases |first|
  {
    hide Apply, Inv;
    if first == [] {
      assert first + rest == rest;
    } else {
      ApplyKeeps(s, first[0]);
      SameRunSteps(Apply(s, first[0]), first[1..], rest);
      assert (first + rest)[1..] == first[1..] + rest;
    }
  }

  lemma OneStep(s: System, a: Action)
    requires Inv(s) && s.runner.Live?
    ensures SameRun(s, [a]) && Inv(Apply(s, a)) && Exec(s, [a]) == Apply(s, a)
  {
    ApplyKeeps(s, a);
    assert [a][1..] == [];
    assert Exec(Apply(s, a), []) == Apply(s, a);
  }

  lemma TickIsSteps(s: System, tick: Tick)
    requires Inv(s) && s.runner.Live?
    ensures SameRun(s, TickActions(s, tick)) && Exec(s, TickActions(s, tick)) == Advance(s, tick)
  {
    var cancel := if tick.cancel.Some? then [RequestCancel(tick.cancel.value)] else [];
    var t := Interfered(s, tick.cancel);
    var a := NextAction(t.runner, tick);
    hide NextAction, Inv;
    if tick.cancel.Some? {
      OneStep(s, cancel[0]);
    }
    assert Exec(s, cancel) == t && SameRun(s, cancel);
    OneStep(t, a);
    SameRunSteps(s, cancel, [a]);
  }

  /** Whatever the world, a played run is one run of the step machine, so all of the above holds of it. */
  lemma {:induction false} PlayIsOneRun(s: System, world: seq<Tick>)
    requires Inv(s)
    ensures SameRun(s, PlayedActions(s, world))
    ensures Play(s, world) == Exec(s, PlayedActions(s, world))
    decreases |world|
  {
    if s.runner.Live? {
      if world == [] {
        OneStep(s, Crash);
      } else {
        TickIsSteps(s, world[0]);
        PlayIsOneRun(Advance(s, world[0]), world[1..]);
        hide Advance, TickActions;
        SameRunSteps(s, TickActions(s, world[0]), PlayedActions(Advance(s, world[0]), world[1..]));
      }
    }
  }
}
