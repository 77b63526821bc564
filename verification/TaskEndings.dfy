// How a run of the task machine ends: with a cancel request on disk, and in a world that answers.
module TaskEndings {
  import opened Models
  import opened TaskRecords
  import opened TaskMachine
  import opened TaskTheorems

  // -- A run with the request on disk ----------------------------------------

  /** A live run whose record on disk carries a cancel request. */
  ghost predicate Requested(s: System) {
    Inv(s) && s.runner.Live? && s.file.cancelRequested
  }

  /** Unit `i` still waits for its dispatch, and no dispatch of it is past the last check. */
  predicate Waits(s: System, i: nat)
    requires s.runner.Live?
  {
    match s.runner.phase
    case Starting => i < |s.file.units| && s.file.units[i].status == Queued
    case Launching => s.runner.queue != [] && i in s.runner.queue[1..]
    case _ => i in s.runner.queue
  }

  /** Unit `i` is in flight, or its dispatch is past the last check. */
  predicate Flies(s: System, i: nat)
    requires s.runner.Live?
  {
    i in s.runner.pending || (s.runner.phase.Launching? && s.runner.queue != [] && i == s.runner.queue[0])
  }

  /** What becomes of one unit: dropped, settled or in doubt, or left alone. */
  ghost predicate Resolved(s: System, i: nat, u: TaskUnit, u': TaskUnit)
    requires s.runner.Live?
  {
    if Waits(s, i) then u' == u.(status := Cancelled, uncertain := false)
    else if Flies(s, i) then IsSettled(u') || (u'.status == Cancelled && u'.uncertain)
    else u' == u
  }

  ghost predicate LeftCancelled(s: System, s': System)
    requires s.runner.Live?
  {
    exists i: nat :: i < |s'.file.units| && (Waits(s, i) || Flies(s, i)) && s'.file.units[i].status == Cancelled
  }

  ghost predicate AllCompleted(units: seq<TaskUnit>) {
    forall i :: 0 <= i < |units| ==> units[i].status == Completed
  }

  /**
   * The end of such a run: paused, with nothing changed and the request still on disk, if the pause had been decided;
   * otherwise every unit resolved, and the state cancelled exactly if one it held was not settled.
   */
  ghost predicate Ended(s: System, s': System)
    requires s.runner.Live?
  {
    && s'.runner.Idle? && |s'.file.units| == |s.file.units|
    && if s.runner.phase.Pausing? then
         s'.file.state == Paused && s'.file.units == s.file.units && s'.file.cancelRequested && !s'.latch
       else
         && (forall i: nat :: i < |s.file.units| ==> Resolved(s, i, s.file.units[i], s'.file.units[i]))
         && (if LeftCancelled(s, s') then s'.file.state == Cancelled
             else s'.file.state == if AllCompleted(s'.file.units) then Completed else Failed)
  }

  /** What one step leaves to the rest of the run. */
  ghost predicate Onward(s: System, t: System)
    requires s.runner.Live? && t.runner.Live?
  {
    && t.file.cancelRequested && (t.runner.phase.Pausing? <==> s.runner.phase.Pausing?)
    && |t.file.units| == |s.file.units|
    && (s.runner.phase.Pausing? ==> t.file.units == s.file.units)
    && forall i: nat :: i < |s.file.units| ==>
         && (Waits(t, i) <==> Waits(s, i))
         && (Flies(t, i) ==> Flies(s, i))
         && (Flies(s, i) && !Flies(t, i) ==> IsSettled(t.file.units[i]))
         && (!Flies(s, i) ==> t.file.units[i] == s.file.units[i])
         && !(Waits(s, i) && Flies(s, i))
  }

  lemma HeldOnce(s: System, i: nat)
    requires Inv(s) && s.runner.Live?
    ensures !(Waits(s, i) && Flies(s, i))
    ensures Waits(s, i) || Flies(s, i) ==> i < |s.file.units|
  {
    var run := s.runner;
    if run.phase.Launching? {
      assert run.queue == [run.queue[0]] + run.queue[1..];
      assert forall k :: 0 <= k < |run.queue[1..]| ==> run.queue[1..][k] == run.queue[k + 1];
      assert i in run.queue[1..] ==> i in run.queue;
      assert run.queue[0] in run.queue;
    }
  }

  lemma RequestStep(s: System, sameProcess: bool)
    requires Requested(s)
    ensures var t := Apply(s, RequestCancel(sameProcess)); t.runner.Live? && Onward(s, t)
  {
    forall i: nat { HeldOnce(s, i); }
  }

  lemma StartStep(s: System)
    requires Requested(s) && s.runner.phase.Starting?
    ensures var t := Apply(s, Start); t.runner.Live? && Onward(s, t)
  {
    forall i: nat { HeldOnce(s, i); }
  }

  lemma MoveStep(s: System, a: Action)
    requires Requested(s) && (a.TryDispatch? || a.Poll? || a.Settle?)
    ensures var t := Apply(s, a); t.runner.Live? && Onward(s, t)
  {
    forall i: nat { HeldOnce(s, i); }
  }

  lemma LaunchStep(s: System)
    requires Requested(s) && s.runner.phase.Launching?
    ensures var t := Apply(s, Launch); t.runner.Live? && Onward(s, t)
  {
    var run, t := s.runner, Apply(s, Launch);
    assert run.queue[0] in run.queue;
    forall i: nat { HeldOnce(s, i); }
  }

  lemma FinishStep(s: System, outcome: Outcome)
    requires Requested(s) && s.runner.phase.Draining?
    ensures var t := Apply(s, Finish(outcome)); t.runner.Live? && Onward(s, t)
  {
    var run := s.runner;
    if run.phase.done != [] {
      assert run.phase.done[0] in run.phase.done && run.phase.done[0] in run.pending;
    }
    forall i: nat { HeldOnce(s, i); }
    hide Inv, AppendEvent, CountSettled, Conclude;
    assert run.phase.done != [] ==> IsSettled(Apply(s, Finish(outcome)).file.units[run.phase.done[0]]);
  }

  lemma CheckStep(s: System, pauseAnswer: bool)
    requires Requested(s) && s.runner.phase.Top?
    ensures Ended(s, Apply(s, Check(pauseAnswer)))
  {
    var run, s' := s.runner, Apply(s, Check(pauseAnswer));
    forall i: nat { HeldOnce(s, i); }
    if run.queue == [] && run.pending == [] {
      assert !LeftCancelled(s, s');
    } else {
      CancelEffect(s);
      var i := if run.queue != [] then run.queue[0] else run.pending[0];
      assert if run.queue != [] then i in run.queue else i in run.pending;
      assert (Waits(s, i) || Flies(s, i)) && s'.file.units[i].status == Cancelled;
    }
  }

  /** One step of such a run goes on towards the same end, or is the end. */
  lemma CancelStep(s: System, a: Action)
    requires Requested(s) && !a.Crash?
    ensures var t := Apply(s, a); if t.runner.Live? then Onward(s, t) else Ended(s, t)
  {
    var run := s.runner;
    forall i: nat { HeldOnce(s, i); }
    match a
    case RequestCancel(sameProcess) => RequestStep(s, sameProcess);
    case Start => if run.phase.Starting? { StartStep(s); }
    case Check(pauseAnswer) => if run.phase.Top? { CheckStep(s, pauseAnswer); }
    case Pause =>
    case TryDispatch => MoveStep(s, a);
    case Launch => if run.phase.Launching? { LaunchStep(s); }
    case Poll(_) => MoveStep(s, a);
    case Finish(outcome) => if run.phase.Draining? { FinishStep(s, outcome); }
    case Settle => MoveStep(s, a);
    case _ =>
  }

  lemma EndedCarries(s: System, t: System, s': System)
    requires Inv(s) && Inv(t) && s.runner.Live? && t.runner.Live? && Onward(s, t) && Ended(t, s')
    ensures Ended(s, s')
  {
    hide Inv, Waits, Flies;
    if !s.runner.phase.Pausing? {
      forall i: nat | i < |s.file.units| ensures Resolved(s, i, s.file.units[i], s'.file.units[i]) {
        assert Resolved(t, i, t.file.units[i], s'.file.units[i]);
      }
      if LeftCancelled(t, s') {
        var i: nat :| i < |s'.file.units| && (Waits(t, i) || Flies(t, i)) && s'.file.units[i].status == Cancelled;
        assert Waits(s, i) || Flies(s, i);
      }
      if LeftCancelled(s, s') {
        var i: nat :| i < |s'.file.units| && (Waits(s, i) || Flies(s, i)) && s'.file.units[i].status == Cancelled;
        assert Resolved(t, i, t.file.units[i], s'.file.units[i]);
        assert Waits(t, i) || Flies(t, i);
      }
    }
  }

  predicate CrashFree(actions: seq<Action>) {
    forall i :: 0 <= i < |actions| ==> !actions[i].Crash?
  }

  /**
   * How every run ends that does not crash and has a cancel request on disk: paused, request and all, if it had
   * decided to pause; otherwise units not dispatched are dropped, those in flight are settled or in doubt, nothing
   * else changes, and it is cancelled exactly if something it held was not settled.
   */
  lemma {:induction false} CancelledRunEnds(s: System, actions: seq<Action>)
    requires Requested(s) && SameRun(s, actions) && CrashFree(actions)
    requires Exec(s, actions).runner.Idle?
    ensures Ended(s, Exec(s, actions))
    decreases |actions|
  {
    assert actions != [];
    var a, t := actions[0], Apply(s, actions[0]);
    ApplyKeeps(s, a);
    CancelStep(s, a);
    hide Apply, Inv, Ended, Onward;
    if t.runner.Live? {
      assert t.file.cancelRequested;
      CancelledRunEnds(t, actions[1..]);
      EndedCarries(s, t, Exec(t, actions[1..]));
    } else {
      assert actions[1..] == [];
    }
  }

  /** How many units the run has yet to send out that are not past their last check. */
  function WaitingCount(s: System): nat
    requires s.runner.Live?
  {
    match s.runner.phase
    case Starting => |QueuedUnits(s.file.units)|
    case Launching => if s.runner.queue == [] then 0 else |s.runner.queue| - 1
    case _ => |s.runner.queue|
  }

  /**
   * So, over whole runs: the run ends paused exactly if the pause had been decided when the request was
   * saved, and cancelled whenever it had not and a unit waited; it may finish instead only if none waited, and then
   * everything in flight has been settled.
   */
  lemma CancelRequestOutcome(s: System, actions: seq<Action>)
    requires Requested(s) && SameRun(s, actions) && CrashFree(actions) && Exec(s, actions).runner.Idle?
    ensures var s' := Exec(s, actions);
      && (s'.file.state == Paused <==> s.runner.phase.Pausing?)
      && (!s.runner.phase.Pausing? && WaitingCount(s) > 0 ==> s'.file.state == Cancelled)
      && (s'.file.state in {Completed, Failed} <==>
            !s.runner.phase.Pausing? && WaitingCount(s) == 0
            && forall i: nat :: i < |s'.file.units| && Flies(s, i) ==> IsSettled(s'.file.units[i]))
  {
    CancelledRunEnds(s, actions);
    var s' := Exec(s, actions);
    hide Exec, Flies;
    SomeUnitWaits(s);
    if WaitingCount(s) > 0 && !s.runner.phase.Pausing? {
      var i: nat :| i < |s.file.units| && Waits(s, i);
      assert Resolved(s, i, s.file.units[i], s'.file.units[i]);
      assert LeftCancelled(s, s');
    }
    if !s.runner.phase.Pausing? && !LeftCancelled(s, s') {
      forall i: nat | i < |s'.file.units| && Flies(s, i) ensures IsSettled(s'.file.units[i]) {
        assert Resolved(s, i, s.file.units[i], s'.file.units[i]);
        HeldOnce(s, i);
      }
    }
  }

  lemma SomeUnitWaits(s: System)
    requires Inv(s) && s.runner.Live?
    ensures WaitingCount(s) > 0 <==> exists i: nat :: i < |s.file.units| && Waits(s, i)
  {
    var run := s.runner;
    var waiting := match run.phase
      case Starting => QueuedUnits(s.file.units)
      case Launching => run.queue[1..]
      case _ => run.queue;
    assert |waiting| == WaitingCount(s);
    assert forall i: nat :: i in waiting <==> Waits(s, i);
    if waiting != [] {
      assert waiting[0] in waiting;
      HeldOnce(s, waiting[0]);
    }
  }

  /**
   * And a run that ends cancelled leaves no unit queued, none running but stranded ones, and exactly those in
   * doubt that were in flight and not settled.
   */
  lemma CancelledRunRecord(s: System, actions: seq<Action>, i: nat)
    requires Requested(s) && SameRun(s, actions) && CrashFree(actions) && Exec(s, actions).runner.Idle?
    requires Exec(s, actions).file.state == Cancelled && i < |s.file.units|
    ensures var s' := Exec(s, actions);
      && |s'.file.units| == |s.file.units|
      && s'.file.units[i].status != Queued
      && (s'.file.units[i].status == Running <==> i in s.stranded)
      && (s'.file.units[i].uncertain <==> Flies(s, i) && !IsSettled(s'.file.units[i]))
  {
    CancelledRunEnds(s, actions);
    CancelRequestOutcome(s, actions);
    var s' := Exec(s, actions);
    hide Exec, SameRun;
    assert Resolved(s, i, s.file.units[i], s'.file.units[i]);
    UnitIsHeld(s, i);
    assert UnitOk(s'.file.units[i]);
  }

  lemma UnitIsHeld(s: System, i: nat)
    requires Inv(s) && s.runner.Live? && i < |s.file.units|
    ensures s.file.units[i].status == Queued ==> Waits(s, i) || Flies(s, i)
    ensures s.file.units[i].status == Running <==> i in s.runner.pending || i in s.stranded
    ensures i in s.stranded ==> !Waits(s, i) && !Flies(s, i)
    ensures !s.file.units[i].uncertain
  {
    var run := s.runner;
    if run.phase.Launching? {
      assert run.queue == [run.queue[0]] + run.queue[1..];
      assert run.queue[0] in run.queue && (i in run.queue[1..] ==> i in run.queue);
    }
  }

  // -- Where the request is lost, and where it comes late --------------------

  /**
   * A request saved between the decision to pause and the save of the pause: the run ends paused with a unit queued
   * and the request on disk.  Running the record again obeys it; resuming the record erases it.
   */
  lemma PauseOutrunsRequest(s: System, workers: nat)
    requires Requested(s) && s.runner.phase.Pausing? && workers >= 1
    ensures var paused := Apply(s, Pause);
      && Inv(paused) && paused.runner.Idle? && !paused.latch
      && paused.file.state == Paused && paused.file.cancelRequested
      && (exists i :: 0 <= i < |paused.file.units| && paused.file.units[i].status == Queued)
    ensures var resumed := Apply(Apply(s, Pause), Load(true, workers));
      && resumed.runner.Live? && !resumed.file.cancelRequested
      && !resumed.runner.record.cancelRequested && !resumed.latch
    ensures Requested(Apply(Apply(s, Pause), Load(false, workers)))
  {
    PausedRecord(s);
    ApplyKeeps(s, Pause);
    ApplyKeeps(Apply(s, Pause), Load(false, workers));
  }

  /** A run of one fresh unit that nobody has cancelled. */
  ghost predicate OneUnit(s: System) {
    && Inv(s) && s.runner.Live? && s.runner.workers == 1 && s.runner.pending == []
    && |s.file.units| == 1 && s.file.units[0].status == Queued
    && !s.file.cancelRequested && !s.runner.record.cancelRequested && !s.latch
  }

  function Fresh(): (s: System)
    ensures Inv(s)
  {
    Initial([("u", "s", "p")])
  }

  lemma OneUnitLoads()
    ensures var s := Apply(Fresh(), Load(false, 1)); OneUnit(s) && s.runner.phase.Starting?
  {
    ApplyKeeps(Fresh(), Load(false, 1));
  }

  lemma OneUnitStarts(s: System)
    requires OneUnit(s) && s.runner.phase.Starting?
    ensures var t := Apply(s, Start);
      OneUnit(t) && t.runner.phase.Top? && t.runner.queue == [0] && t.file.state == Running
  {
    ApplyKeeps(s, Start);
    OneUnitQueue(s.file.units);
  }

  lemma OneUnitChecks(s: System, pauseAnswer: bool)
    requires OneUnit(s) && s.runner.phase.Top? && s.runner.queue == [0]
    ensures var t := Apply(s, Check(pauseAnswer));
      OneUnit(t) && t.runner.queue == [0] && t.file == s.file
      && t.runner.phase == if pauseAnswer then Pausing else Dispatching(false)
  {
    ApplyKeeps(s, Check(pauseAnswer));
  }

  /** One unit, up to the first answer to the pause question. */
  lemma OneUnitRuns(pauseAnswer: bool) returns (s: System)
    ensures s == Exec(Fresh(), [Load(false, 1), Start, Check(pauseAnswer)])
    ensures OneUnit(s) && s.runner.queue == [0] && s.file.state == Running
    ensures s.runner.phase == if pauseAnswer then Pausing else Dispatching(false)
  {
    OneUnitLoads();
    var s1 := Apply(Fresh(), Load(false, 1));
    OneUnitStarts(s1);
    var s2 := Apply(s1, Start);
    OneUnitChecks(s2, pauseAnswer);
    s := Apply(s2, Check(pauseAnswer));
    hide Apply, Fresh;
    OneAction(s2, Check(pauseAnswer));
    OneAction(s1, Start);
    OneAction(Fresh(), Load(false, 1));
    ExecAppend(s1, [Start], [Check(pauseAnswer)]);
    ExecAppend(Fresh(), [Load(false, 1)], [Start, Check(pauseAnswer)]);
    assert [Load(false, 1)] + [Start, Check(pauseAnswer)] == [Load(false, 1), Start, Check(pauseAnswer)];
    assert [Start] + [Check(pauseAnswer)] == [Start, Check(pauseAnswer)];
  }

  lemma OneUnitQueue(units: seq<TaskUnit>)
    requires |units| == 1 && units[0].status == Queued
    ensures QueuedUnits(units) == [0]
  {
    assert QueuedUnits(units[..0]) == [];
  }

  lemma {:induction false} ExecAppend(s: System, first: seq<Action>, rest: seq<Action>)
    requires Inv(s)
    ensures Exec(s, first + rest) == Exec(Exec(s, first), rest)
    decreases |first|
  {
    if first == [] {
      assert first + rest == rest;
    } else {
      ApplyKeeps(s, first[0]);
      assert (first + rest)[1..] == first[1..] + rest;
      ExecAppend(Apply(s, first[0]), first[1..], rest);
    }
  }

  lemma OneUnitDispatches(s: System)
    requires OneUnit(s) && s.runner.phase == Dispatching(false) && s.runner.queue == [0] && s.file.state == Running
    ensures var t := Apply(s, TryDispatch);
      Inv(s) && Inv(t) && t.runner.Live? && t.runner.phase.Launching? && t.runner.queue == [0] && t.file == s.file
  {
    ApplyKeeps(s, TryDispatch);
  }

  /** Both windows are reachable from a fresh task: the lost request, and the late dispatch. */
  lemma WindowsFromFresh()
    ensures var s := Exec(Fresh(), [Load(false, 1), Start, Check(true)] + [RequestCancel(false)]);
      Requested(s) && s.runner.phase.Pausing?
    ensures var s := Exec(Fresh(), [Load(false, 1), Start, Check(false)] + [TryDispatch] + [RequestCancel(false)]);
      Requested(s) && s.runner.phase.Launching? && s.runner.queue == [0]
  {
    var pausing := OneUnitRuns(true);
    var dispatching := OneUnitRuns(false);
    var launching := Apply(dispatching, TryDispatch);
    OneUnitDispatches(dispatching);
    hide Apply, Fresh, OneUnit, Exec;
    ExecAppend(Fresh(), [Load(false, 1), Start, Check(true)], [RequestCancel(false)]);
    ExecAppend(Fresh(), [Load(false, 1), Start, Check(false)], [TryDispatch]);
    ExecAppend(Fresh(), [Load(false, 1), Start, Check(false)] + [TryDispatch], [RequestCancel(false)]);
    OneAction(dispatching, TryDispatch);
    RequestArrives(pausing);
    RequestArrives(launching);
  }

  lemma RequestArrives(s: System)
    requires Inv(s) && s.runner.Live? && !IsTerminal(s.file.state)
    ensures var t := Exec(s, [RequestCancel(false)]); Requested(t) && t.runner == s.runner
  {
    OneAction(s, RequestCancel(false));
  }

  lemma OneAction(s: System, a: Action)
    requires Inv(s)
    ensures Inv(Apply(s, a)) && Exec(s, [a]) == Apply(s, a)
  {
    ApplyKeeps(s, a);
    assert [a][1..] == [];
  }

  // -- How long a run takes --------------------------------------------------

  /** How many of the actions move the queue or the pending set. */
  function Moves(s: System, actions: seq<Action>): nat
    requires Inv(s)
    decreases |actions|
  {
    if actions == [] || s.runner.Idle? then 0
    else
      ApplyKeeps(s, actions[0]);
      var t := Apply(s, actions[0]);
      (if t.runner.Live? && (t.runner.queue != s.runner.queue || t.runner.pending != s.runner.pending) then 1 else 0)
      + Moves(t, actions[1..])
  }

  /** A run makes at most `2 * |queue| + |pending|` moves before it ends. */
  lemma {:induction false} MovesAreBounded(s: System, actions: seq<Action>)
    requires Inv(s) && UnderWay(s) && SameRun(s, actions)
    ensures Moves(s, actions) <= Remaining(s.runner)
    decreases |actions|
  {
    if actions != [] {
      var a, t := actions[0], Apply(s, actions[0]);
      ApplyKeeps(s, a);
      if t.runner.Live? {
        QueueStep(s, a);
        NonIdleStepsLowerRemaining(s, a);
        MovesAreBounded(t, actions[1..]);
      } else {
        assert actions[1..] == [];
      }
    }
  }

  /** Whenever the run waits for workers, some of them report. */
  ghost predicate Responsive(s: System, world: seq<Tick>)
    requires Inv(s)
    decreases |world|
  {
    s.runner.Live? && world != [] ==> Answers(s, world[0]) && Responsive(Advance(s, world[0]), world[1..])
  }

  predicate Answers(s: System, tick: Tick)
    requires s.runner.Live?
  {
    s.runner.phase.Polling? && s.runner.pending != [] ==> tick.done != [] && CanReport(tick.done, s.runner.pending)
  }

  /** Work left, doubled for units not sent out; a request not seen yet counts as one more. */
  function Outstanding(s: System): nat
    requires s.runner.Live?
  {
    (if s.runner.phase.Starting? then 2 * |QueuedUnits(s.file.units)| else Remaining(s.runner)) + if CancelSeen(s) then 0 else 1
  }

  /** A bound on the ticks a responsive run still takes. */
  function Fuel(s: System): nat
    requires s.runner.Live?
  {
    10 * Outstanding(s) +
    match s.runner.phase
    case Starting => 6
    case Top => 5
    case Pausing => 1
    case Dispatching(_) => if CancelSeen(s) then 8 else 4
    case Launching => 3
    case Polling => if s.runner.pending == [] then 7 else 3
    case Draining(done) => if done == [] then 6 else 2
    case Settling(_, _) => 7
  }

  /** What the loop body has established when it dispatches or waits. */
  ghost predicate Busy(s: System) {
    && Inv(s)
    && (s.runner.Live? && s.runner.phase.Dispatching? ==>
          && (s.runner.queue != [] || s.runner.pending != [])
          && (s.runner.phase.pauseRequested ==> s.runner.pending != []))
    && (s.runner.Live? && s.runner.phase.Polling? && s.runner.pending == [] ==> CancelSeen(s))
  }

  lemma RequestLowersFuel(s: System, sameProcess: bool)
    requires Busy(s) && s.runner.Live?
    ensures var t := Apply(s, RequestCancel(sameProcess));
      t.runner == s.runner && Busy(t) && Fuel(t) <= Fuel(s)
  {
    ApplyKeeps(s, RequestCancel(sameProcess));
  }

  lemma CheckLowersFuel(s: System, pauseAnswer: bool)
    requires Busy(s) && s.runner.Live? && s.runner.phase.Top?
    ensures var t := Apply(s, Check(pauseAnswer)); t.runner.Live? ==> Fuel(t) < Fuel(s)
    ensures Busy(Apply(s, Check(pauseAnswer)))
  {
    ApplyKeeps(s, Check(pauseAnswer));
    hide Inv, CancelRun, FinishRun;
  }

  lemma StartLowersFuel(s: System)
    requires Busy(s) && s.runner.Live? && s.runner.phase.Starting?
    ensures var t := Apply(s, Start); t.runner.Live? && Busy(t) && Fuel(t) < Fuel(s)
  {
    ApplyKeeps(s, Start);
    assert s.runner.record.units == s.file.units;
    hide Inv, QueuedUnits;
  }

  lemma TryDispatchLowersFuel(s: System)
    requires Busy(s) && s.runner.Live? && s.runner.phase.Dispatching?
    ensures var t := Apply(s, TryDispatch); t.runner.Live? && Busy(t) && Fuel(t) < Fuel(s)
  {
    ApplyKeeps(s, TryDispatch);
    assert s.runner.workers >= 1;
    hide Inv;
  }

  lemma PollLowersFuel(s: System, done: seq<nat>)
    requires Busy(s) && s.runner.Live? && s.runner.phase.Polling?
    requires s.runner.pending != [] ==> done != [] && CanReport(done, s.runner.pending)
    ensures var t := Apply(s, Poll(done)); t.runner.Live? && Busy(t) && Fuel(t) < Fuel(s)
  {
    ApplyKeeps(s, Poll(done));
    hide Inv, CanReport;
  }

  lemma SettleLowersFuel(s: System)
    requires Busy(s) && s.runner.Live? && s.runner.phase.Settling?
    ensures var t := Apply(s, Settle); t.runner.Live? && Busy(t) && Fuel(t) < Fuel(s)
  {
    ApplyKeeps(s, Settle);
    hide Inv;
  }

  lemma LaunchLowersFuel(s: System)
    requires Busy(s) && s.runner.Live? && s.runner.phase.Launching?
    ensures var t := Apply(s, Launch); t.runner.Live? && Busy(t) && Fuel(t) < Fuel(s)
  {
    ApplyKeeps(s, Launch);
    assert s.runner.queue != [];
    hide Inv, AppendEvent;
  }

  lemma FinishLowersFuel(s: System, outcome: Outcome)
    requires Busy(s) && s.runner.Live? && s.runner.phase.Draining?
    ensures var t := Apply(s, Finish(outcome)); t.runner.Live? && Busy(t) && Fuel(t) < Fuel(s)
  {
    ApplyKeeps(s, Finish(outcome));
    if s.runner.phase.done != [] {
      assert s.runner.phase.done[0] in s.runner.pending;
    }
    hide Inv, AppendEvent, CountSettled, Conclude;
  }

  /** The runner's own step, from phase to phase, always costs fuel. */
  lemma StepLowersFuel(s: System, tick: Tick)
    requires Busy(s) && s.runner.Live? && Answers(s, tick)
    ensures var t := Apply(s, NextAction(s.runner, tick));
      Busy(t) && (t.runner.Live? ==> Fuel(t) < Fuel(s))
  {
    ApplyKeeps(s, NextAction(s.runner, tick));
    var done := if CanReport(tick.done, s.runner.pending) then tick.done else [];
    match s.runner.phase
    case Starting => StartLowersFuel(s);
    case Top => CheckLowersFuel(s, tick.pauseAnswer);
    case Pausing =>
    case Launching => LaunchLowersFuel(s);
    case Draining(_) => FinishLowersFuel(s, tick.outcome);
    case Dispatching(_) => TryDispatchLowersFuel(s);
    case Polling => PollLowersFuel(s, done);
    case Settling(_, _) => SettleLowersFuel(s);
  }

  lemma TickLowersFuel(s: System, tick: Tick)
    requires Busy(s) && s.runner.Live? && Answers(s, tick)
    ensures var t := Advance(s, tick); Busy(t) && (t.runner.Live? ==> Fuel(t) < Fuel(s))
  {
    assert Inv(s);
    hide Fuel, Busy, NextAction;
    if tick.cancel.Some? {
      RequestLowersFuel(s, tick.cancel.value);
    }
    StepLowersFuel(Interfered(s, tick.cancel), tick);
  }

  /** In a responsive world a run ends by itself within its fuel. */
  lemma {:induction false} ResponsiveRunsEnd(s: System, world: seq<Tick>)
    requires Busy(s) && Responsive(s, world) && (s.runner.Live? ==> |world| >= Fuel(s))
    ensures EndsWithin(s, world)
    decreases |world|
  {
    if s.runner.Live? {
      assert Fuel(s) > 0;
      TickLowersFuel(s, world[0]);
      hide Fuel, Busy, Advance;
      ResponsiveRunsEnd(Advance(s, world[0]), world[1..]);
    }
  }

  /** So a run of `n` units that is loaded ends by itself within `20 * n + 16` ticks of such a world. */
  lemma LoadedRunsEnd(s: System, resume: bool, workers: nat, world: seq<Tick>)
    requires Inv(s) && s.runner.Idle? && Responsive(Exec(s, [Load(resume, workers)]), world)
    requires |world| >= 20 * |s.file.units| + 16
    ensures EndsWithin(Exec(s, [Load(resume, workers)]), world)
  {
    var t := Exec(s, [Load(resume, workers)]);
    OneAction(s, Load(resume, workers));
    if t.runner.Live? {
      QueuedCount(t.file.units);
      ResponsiveRunsEnd(t, world);
    }
  }

  lemma {:induction false} QueuedCount(units: seq<TaskUnit>)
    ensures |QueuedUnits(units)| <= |units|
  {
    if units != [] {
      QueuedCount(units[..|units| - 1]);
    }
  }
}
