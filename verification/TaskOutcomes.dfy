// What each step of a run leaves in the saved record, field by field, and where the outcome of every
// settled unit comes from.
module TaskOutcomes {
  import opened Models
  import opened TaskRecords
  import opened TaskMachine
  import opened TaskTheorems

  // -- What one step saves ---------------------------------------------------

  /** One event more than the run knew of, unless others have put more than that on disk meanwhile. */
  ghost predicate Logged(known: seq<TaskEvent>, disk: seq<TaskEvent>, saved: seq<TaskEvent>,
      kind: EventKind, state: TaskState, unit: Option<nat>)
  {
    if |disk| > |known| + 1 then saved == disk
    else
      && |saved| == |known| + 1 && saved[..|known|] == known
      && saved[|known|].sequence == |known| + 1 && saved[|known|].kind == kind
      && saved[|known|].state == state && saved[|known|].unitIndex == unit
  }

  /** The run is about to record the outcome of unit `i`. */
  predicate Expects(s: System, i: nat) {
    s.runner.Live? && s.runner.phase.Draining? && s.runner.phase.done != [] && s.runner.phase.done[0] == i
  }

  lemma ExpectedUnit(s: System, i: nat)
    requires Inv(s) && Expects(s, i)
    ensures i in s.runner.pending && i < |s.file.units| == |s.runner.record.units|
    ensures s.file.units[i].status == Running && !s.file.units[i].uncertain && s.file.units[i].result == None
  {
    assert s.runner.phase.done[0] in s.runner.pending;
    assert UnitOk(s.file.units[i]);
  }

  /** A worker that returns completes its unit with that result; the count grows by one, and nothing else moves. */
  lemma ReturnCompletes(s: System, i: nat, result: ExecutionResult)
    requires Inv(s) && Expects(s, i)
    ensures i < |s.file.units|
    ensures var s' := Apply(s, Finish(Returned(result)));
      && s'.file.units == s.file.units[i := s.file.units[i].(status := Completed, result := Some(result))]
      && s'.file.completedUnits == s.file.completedUnits + 1
      && s'.file.state == Running && s'.file.error == s.runner.record.error
      && s'.file.cancelRequested == (s.runner.record.cancelRequested || s.file.cancelRequested)
      && Logged(s.runner.record.events, s.file.events, s'.file.events, UnitCompleted, Running, Some(i))
      && s'.runner.Live? && s'.runner.record == s'.file && i !in s'.runner.pending && s'.runner.queue == s.runner.queue
  {
    ExpectedUnit(s, i);
    var u := s.file.units[i].(status := Completed, result := Some(result));
    CountUpdate(s.file.units, i, u);
  }

  /** A worker that raises fails its unit with the message, which becomes the record's error unless it has one. */
  lemma RaiseFails(s: System, i: nat, message: string)
    requires Inv(s) && Expects(s, i)
    ensures i < |s.file.units|
    ensures var s' := Apply(s, Finish(Raised(message)));
      && s'.file.units == s.file.units[i := s.file.units[i].(status := Failed, error := Some(message))]
      && s'.file.completedUnits == s.file.completedUnits + 1
      && s'.file.state == Running
      && s'.file.error == (if s.runner.record.error in {None, Some("")} then Some(message) else s.runner.record.error)
      && s'.file.cancelRequested == (s.runner.record.cancelRequested || s.file.cancelRequested)
      && Logged(s.runner.record.events, s.file.events, s'.file.events, UnitFailed, Running, Some(i))
      && s'.runner.Live? && s'.runner.record == s'.file && i !in s'.runner.pending && s'.runner.queue == s.runner.queue
  {
    ExpectedUnit(s, i);
    var u := s.file.units[i].(status := Failed, error := Some(message));
    CountUpdate(s.file.units, i, u);
  }

  /** A dispatch saves the head of the queue as running without an error, and calls its worker. */
  lemma LaunchSaves(s: System)
    requires Inv(s) && s.runner.Live? && s.runner.phase.Launching?
    ensures s.runner.queue != [] && s.runner.queue[0] < |s.file.units|
    ensures var s', i := Apply(s, Launch), s.runner.queue[0];
      && s'.file.units == s.file.units[i := s.file.units[i].(status := Running, error := None)]
      && s'.file.completedUnits == s.file.completedUnits && s'.file.state == Running
      && Logged(s.runner.record.events, s.file.events, s'.file.events, UnitStarted, Running, Some(i))
      && s'.calls == s.calls + [i]
      && s'.runner.Live? && s'.runner.record == s'.file && s'.runner.queue == s.runner.queue[1..] && i in s'.runner.pending
  {
    assert s.runner.queue[0] in s.runner.queue;
  }

  /** A start clears the error and the cancel request, which the process remembers, and queues the queued units. */
  lemma StartSaves(s: System)
    requires Inv(s) && s.runner.Live? && s.runner.phase.Starting?
    ensures var s' := Apply(s, Start);
      && s'.file.units == s.file.units && s'.file.state == Running && s'.file.error == None
      && s'.file.cancelRequested == s.file.cancelRequested && s'.latch == (s.latch || s.runner.record.cancelRequested)
      && Logged(s.runner.record.events, s.file.events, s'.file.events, TaskStarted, Running, None)
      && s'.runner.Live? && s'.runner.record == s'.file && s'.runner.pending == []
      && (forall i: nat :: i in s'.runner.queue <==> i < |s.file.units| && s.file.units[i].status == Queued)
      && (forall j, k :: 0 <= j < k < |s'.runner.queue| ==> s'.runner.queue[j] < s'.runner.queue[k])
  {
  }

  /** A resume puts running and cancelled units back as they were created, keeps all others, and drops the request. */
  lemma ResumeSaves(s: System, workers: nat)
    requires Inv(s) && s.runner.Idle? && workers >= 1
    ensures var s' := Apply(s, Load(true, workers));
      && |s'.file.units| == |s.file.units|
      && (forall i :: 0 <= i < |s.file.units| ==>
            var u := s.file.units[i];
            s'.file.units[i] == if u.status in {Running, Cancelled}
                                then TaskUnit(u.unitId, u.strategy, u.problemId, Queued, false, None, None) else u)
      && !s'.file.cancelRequested && s'.file.events == s.file.events
      && s'.file.state == s.file.state && s'.file.error == s.file.error
      && s'.runner.Live? && s'.runner.record == s'.file && s'.runner.workers == workers
  {
    forall i | 0 <= i < |s.file.units|
      ensures var u := s.file.units[i];
        Requeue(u) == if u.status in {Running, Cancelled}
                      then TaskUnit(u.unitId, u.strategy, u.problemId, Queued, false, None, None) else u
    {
      assert UnitOk(s.file.units[i]);
    }
  }

  /** A pause, a request and a setup failure leave every unit as it is. */
  lemma PauseSaves(s: System)
    requires Inv(s) && s.runner.Live? && s.runner.phase.Pausing?
    ensures var s' := Apply(s, Pause);
      && s'.file.units == s.file.units && s'.file.completedUnits == s.file.completedUnits
      && s'.file.state == Paused && s'.file.error == s.runner.record.error
      && s'.file.cancelRequested == (s.runner.record.cancelRequested || s.file.cancelRequested)
      && Logged(s.runner.record.events, s.file.events, s'.file.events, TaskPaused, Paused, None)
      && s'.runner.Idle? && !s'.latch
  {
  }

  lemma RequestSaves(s: System, sameProcess: bool)
    requires Inv(s)
    ensures var s' := Apply(s, RequestCancel(sameProcess));
      if s.file.state in {Completed, Failed, Cancelled} then s' == s
      else
        && s'.file == s.file.(cancelRequested := true, events := s'.file.events)
        && Logged(s.file.events, s.file.events, s'.file.events, CancelRequested, s.file.state, None)
        && s'.latch == (s.latch || sameProcess) && s'.runner == s.runner
  {
  }

  lemma FailSaves(s: System, message: string)
    requires Inv(s) && s.runner.Idle?
    ensures var s' := Apply(s, Fail(message));
      && s'.file == s.file.(state := Failed, error := Some(message), events := s'.file.events)
      && Logged(s.file.events, s.file.events, s'.file.events, TaskFailed, Failed, None)
  {
  }

  /** The normal exit leaves the units as they are and logs the end. */
  lemma FinishSaves(s: System, pauseAnswer: bool)
    requires Inv(s) && s.runner.Live? && s.runner.phase.Top? && s.runner.queue == [] && s.runner.pending == []
    ensures var s' := Apply(s, Check(pauseAnswer));
      && s'.file.units == s.file.units && s'.file.error == s.runner.record.error
      && Logged(s.runner.record.events, s.file.events, s'.file.events, TaskFinished, s'.file.state, None)
      && s'.runner.Idle? && !s'.latch
  {
  }

  /** Events of one kind for a list of units, one each, in the order of the list. */
  ghost predicate EventsFor(events: seq<TaskEvent>, ids: seq<nat>, uncertain: bool) {
    && |events| == |ids|
    && forall k :: 0 <= k < |ids| ==>
         events[k].kind == UnitCancelled && events[k].unitIndex == Some(ids[k]) && events[k].uncertain == uncertain
  }

  lemma {:induction false} MarksAreLogged(r: Snapshot, ids: seq<nat>, uncertain: bool)
    requires InRange(ids, |r.units|)
    ensures var r' := MarkAllCancelled(r, ids, uncertain);
      && |r'.events| == |r.events| + |ids| && r'.events[..|r.events|] == r.events
      && EventsFor(r'.events[|r.events|..], ids, uncertain)
      && r'.error == r.error && r'.cancelRequested == r.cancelRequested && r'.completedUnits == r.completedUnits
    decreases |ids|
  {
    if ids == [] {
      assert MarkAllCancelled(r, ids, uncertain) == r;
    } else {
      hide MarkAllCancelled, MarkCancelled, EventsFor, InRange;
      var front, last, before := LastMark(r, ids, uncertain);
      MarksAreLogged(r, front, uncertain);
      var event := MarkLogs(before, last, uncertain);
      var after := MarkAllCancelled(r, ids, uncertain);
      assert after.events[..|r.events|] == before.events[..|r.events|];
      assert after.events[|r.events|..] == before.events[|r.events|..] + [event];
    }
  }

  lemma LastMark(r: Snapshot, ids: seq<nat>, uncertain: bool) returns (front: seq<nat>, last: nat, before: Snapshot)
    requires InRange(ids, |r.units|) && ids != []
    ensures ids == front + [last] && InRange(front, |r.units|) && last < |r.units| == |before.units|
    ensures before == MarkAllCancelled(r, front, uncertain)
    ensures MarkAllCancelled(r, ids, uncertain) == MarkCancelled(before, last, uncertain)
  {
    front, last := ids[..|ids| - 1], ids[|ids| - 1];
    assert last in ids && forall i :: i in front ==> i in ids;
    before := MarkAllCancelled(r, front, uncertain);
  }

  lemma MarkLogs(r: Snapshot, i: nat, uncertain: bool) returns (event: TaskEvent)
    requires i < |r.units|
    ensures event.kind == UnitCancelled && event.unitIndex == Some(i) && event.uncertain == uncertain
    ensures var r' := MarkCancelled(r, i, uncertain);
      && r'.events == r.events + [event]
      && r'.error == r.error && r'.cancelRequested == r.cancelRequested && r'.completedUnits == r.completedUnits
  {
    event := MarkCancelled(r, i, uncertain).events[|r.events|];
  }

  /** The log of a cancel exit: every unit dropped, then every unit left in doubt, then the end. */
  ghost predicate CancelLogged(known: seq<TaskEvent>, saved: seq<TaskEvent>, queue: seq<nat>, pending: seq<nat>) {
    var n, m := |known| + |queue|, |known| + |queue| + |pending|;
    && |saved| == m + 1 && saved[..|known|] == known
    && EventsFor(saved[|known|..n], queue, false) && EventsFor(saved[n..m], pending, true)
    && saved[m].kind == TaskCancelled && saved[m].state == Cancelled
  }

  lemma ExitLog(r: Snapshot, queue: seq<nat>, pending: seq<nat>) returns (saved: Snapshot)
    requires InRange(queue, |r.units|) && InRange(pending, |r.units|)
    ensures var marked := MarkAllCancelled(MarkAllCancelled(r, queue, false), pending, true);
      saved == AppendEvent(marked.(state := Cancelled), TaskCancelled, None)
    ensures CancelLogged(r.events, saved.events, queue, pending)
    ensures saved.error == r.error && saved.cancelRequested == r.cancelRequested && saved.completedUnits == r.completedUnits
  {
    var dropped := MarkAllCancelled(r, queue, false);
    var marked := MarkAllCancelled(dropped, pending, true);
    MarksAreLogged(r, queue, false);
    MarksAreLogged(dropped, pending, true);
    saved := AppendEvent(marked.(state := Cancelled), TaskCancelled, None);
    hide MarkAllCancelled, EventsFor, InRange;
    assert saved.events[..|marked.events|] == marked.events;
    assert saved.events[|r.events|..|dropped.events|] == dropped.events[|r.events|..];
    assert saved.events[|dropped.events|..|marked.events|] == marked.events[|dropped.events|..];
    assert saved.events[..|r.events|] == r.events;
  }

  /** The cancel exit keeps the count and the error, leaves the request on disk, and logs what it drops. */
  lemma CancelSaves(s: System, pauseAnswer: bool)
    requires Inv(s) && s.runner.Live? && s.runner.phase.Top? && CancelSeen(s)
    requires s.runner.queue != [] || s.runner.pending != []
    ensures var s', r := Apply(s, Check(pauseAnswer)), s.runner.record;
      && CancelLogged(if |s.file.events| > |r.events| then s.file.events else r.events, s'.file.events,
                      s.runner.queue, s.runner.pending)
      && s'.file.state == Cancelled && s'.file.cancelRequested && s'.file.error == r.error
      && s'.file.completedUnits == s.file.completedUnits && s'.runner.Idle? && !s'.latch
  {
    var r := WithExternalEvents(s.runner.record, s.file).(cancelRequested := true);
    hide MarkAllCancelled, CountSettled, Numbered, EventsFor, Tracked, UnitsOk, NoneCancelled;
    var saved := ExitLog(r, s.runner.queue, s.runner.pending);
    assert Apply(s, Check(pauseAnswer)) == CancelRun(s);
    hide Inv, Apply, CancelLogged;
  }

  /** A new task is saved as queued, with a queued unit for each specification and one event. */
  lemma CreateSaves(specs: seq<(string, string, string)>)
    ensures var r := Initial(specs).file;
      && r.state == Queued && r.completedUnits == 0 && !r.cancelRequested && r.error == None
      && |r.units| == |specs|
      && (forall i :: 0 <= i < |specs| ==>
            r.units[i] == TaskUnit(specs[i].0, specs[i].1, specs[i].2, Queued, false, None, None))
      && Logged([], [], r.events, TaskCreated, Queued, None)
  {
  }

  /** With work left and no request in sight, the check decides to pause or goes on, and saves nothing. */
  lemma CheckDecides(s: System, pauseAnswer: bool)
    requires Inv(s) && s.runner.Live? && s.runner.phase.Top? && (s.runner.queue != [] || s.runner.pending != [])
    requires !s.latch && !s.runner.record.cancelRequested && !s.file.cancelRequested
    ensures var s' := Apply(s, Check(pauseAnswer));
      && s'.file == s.file && s'.runner.Live?
      && s'.runner.queue == s.runner.queue && s'.runner.pending == s.runner.pending
      && (s'.runner.phase.Pausing? <==> pauseAnswer && s.runner.queue != [] && s.runner.pending == [])
      && (!s'.runner.phase.Pausing? ==> s'.runner.phase == Dispatching(pauseAnswer && s.runner.queue != []))
  {
  }

  /** The next unit goes out exactly when there is one, a worker is free, no pause is due and nobody has cancelled. */
  lemma DispatchesWhileRoom(s: System)
    requires Inv(s) && s.runner.Live? && s.runner.phase.Dispatching?
    ensures var s' := Apply(s, TryDispatch);
      && s' == s.(runner := s.runner.(phase := if s'.runner.phase.Launching? then Launching else Polling))
      && (s'.runner.phase.Launching? <==>
            && s.runner.queue != [] && |s.runner.pending| < s.runner.workers && !s.runner.phase.pauseRequested
            && !s.latch && !s.file.cancelRequested)
  {
  }

  // -- Where outcomes come from ----------------------------------------------

  /** Somewhere along the actions this outcome of unit `i` is recorded. */
  ghost predicate Delivered(s: System, actions: seq<Action>, i: nat, outcome: Outcome)
    requires Inv(s)
    decreases |actions|
  {
    actions != [] &&
    ((Expects(s, i) && actions[0] == Finish(outcome)) ||
     (ApplyKeeps(s, actions[0]); Delivered(Apply(s, actions[0]), actions[1..], i, outcome)))
  }

  predicate Has(u: TaskUnit, outcome: Outcome) {
    match outcome
    case Returned(result) => u.status == Completed && u.result == Some(result)
    case Raised(message) => u.status == Failed && u.error == Some(message)
  }

  /** Nothing but a recorded outcome settles a unit. */
  lemma OnlyFinishSettles(s: System, a: Action, i: nat)
    requires Inv(s) && i < |s.file.units| && !(a.Finish? && Expects(s, i))
    ensures |Apply(s, a).file.units| == |s.file.units|
    ensures IsSettled(Apply(s, a).file.units[i]) ==> Apply(s, a).file.units[i] == s.file.units[i]
  {
    hide Inv;
    match a
    case Check(pauseAnswer) => if s.runner.Live? && s.runner.phase.Top? { CheckSettlesNothing(s, pauseAnswer, i); }
    case Launch => if s.runner.Live? && s.runner.phase.Launching? { LaunchSaves(s); }
    case Load(resume, workers) => if s.runner.Idle? && resume && workers >= 1 { ResumeSaves(s, workers); }
    case Finish(outcome) =>
      if s.runner.Live? && s.runner.phase.Draining? && s.runner.phase.done != [] {
        OthersStay(s, s.runner.phase.done[0], outcome, i);
      }
    case _ => QuietSteps(s, a);
  }

  lemma CheckSettlesNothing(s: System, pauseAnswer: bool, i: nat)
    requires Inv(s) && i < |s.file.units| && s.runner.Live? && s.runner.phase.Top?
    ensures |Apply(s, Check(pauseAnswer)).file.units| == |s.file.units|
    ensures IsSettled(Apply(s, Check(pauseAnswer)).file.units[i]) ==>
      Apply(s, Check(pauseAnswer)).file.units[i] == s.file.units[i]
  {
    CancelEffect(s);
  }

  lemma OthersStay(s: System, j: nat, outcome: Outcome, i: nat)
    requires Inv(s) && Expects(s, j) && i < |s.file.units| && i != j
    ensures |Apply(s, Finish(outcome)).file.units| == |s.file.units|
    ensures Apply(s, Finish(outcome)).file.units[i] == s.file.units[i]
  {
    hide Apply, Inv;
    ExpectedUnit(s, j);
    match outcome {
      case Returned(result) => ReturnCompletes(s, j, result);
      case Raised(message) => RaiseFails(s, j, message);
    }
  }

  /** One step gives a unit an outcome exactly if it had it already or the step records it. */
  lemma StepDelivers(s: System, a: Action, i: nat, outcome: Outcome)
    requires Inv(s) && i < |s.file.units|
    ensures |Apply(s, a).file.units| == |s.file.units|
    ensures Has(Apply(s, a).file.units[i], outcome) <==>
      Has(s.file.units[i], outcome) || (Expects(s, i) && a == Finish(outcome))
  {
    StepEvolves(s, a);
    if a.Finish? && Expects(s, i) {
      ExpectedUnit(s, i);
      match a.outcome {
        case Returned(result) => ReturnCompletes(s, i, result);
        case Raised(message) => RaiseFails(s, i, message);
      }
    } else {
      OnlyFinishSettles(s, a, i);
    }
  }

  /**
   * Through any crashes, cancels, pauses and resumes, a unit is saved as completed with a result, or as failed
   * with a message, if and only if it was so at the start or that very outcome of its worker was recorded.
   */
  lemma {:induction false} SettledAsDelivered(s: System, actions: seq<Action>, i: nat, outcome: Outcome)
    requires Inv(s) && i < |s.file.units|
    ensures |Exec(s, actions).file.units| == |s.file.units|
    ensures Has(Exec(s, actions).file.units[i], outcome) <==>
      Has(s.file.units[i], outcome) || Delivered(s, actions, i, outcome)
    decreases |actions|
  {
    hide Inv, Apply, Has, Expects;
    if actions != [] {
      ApplyKeeps(s, actions[0]);
      StepDelivers(s, actions[0], i, outcome);
      SettledAsDelivered(Apply(s, actions[0]), actions[1..], i, outcome);
    }
  }

  /** So the results and failures of a task are exactly what its workers handed back since it was created. */
  lemma OutcomesAreDelivered(specs: seq<(string, string, string)>, actions: seq<Action>, i: nat, outcome: Outcome)
    requires i < |specs|
    ensures |Exec(Initial(specs), actions).file.units| == |specs|
    ensures Has(Exec(Initial(specs), actions).file.units[i], outcome) <==> Delivered(Initial(specs), actions, i, outcome)
  {
    SettledAsDelivered(Initial(specs), actions, i, outcome);
  }

  // -- A run whose workers all return ----------------------------------------

  /** Nobody cancels, no pause is asked for, and every worker returns. */
  predicate CalmTick(tick: Tick) {
    tick.cancel.None? && !tick.pauseAnswer && tick.outcome.Returned?
  }

  ghost predicate CalmWorld(world: seq<Tick>) {
    forall k :: 0 <= k < |world| ==> CalmTick(world[k])
  }

  ghost predicate NoneFailed(units: seq<TaskUnit>) {
    forall i :: 0 <= i < |units| ==> units[i].status != Failed
  }

  /** Without a cancel request, a decision to pause, a failed unit or a stranded one. */
  ghost predicate Calm(s: System) {
    && s.runner.Live? && !s.latch && !s.runner.record.cancelRequested && !s.file.cancelRequested
    && !s.runner.phase.Pausing? && s.runner.phase != Dispatching(true)
    && s.stranded == {} && NoneFailed(s.file.units)
  }

  ghost predicate AllCompleted(r: Snapshot) {
    r.state == Completed && forall i :: 0 <= i < |r.units| ==> r.units[i].status == Completed && r.units[i].result.Some?
  }

  lemma CalmEnd(s: System, pauseAnswer: bool)
    requires Inv(s) && Calm(s) && s.runner.phase.Top? && s.runner.queue == [] && s.runner.pending == []
    ensures Apply(s, Check(pauseAnswer)).runner.Idle? && AllCompleted(Apply(s, Check(pauseAnswer)).file)
  {
    forall i | 0 <= i < |s.file.units| ensures s.file.units[i].status == Completed && s.file.units[i].result.Some? {
      assert UnitOk(s.file.units[i]);
    }
    FinishedRecord(s, pauseAnswer);
    FinishSaves(s, pauseAnswer);
  }

  lemma CalmLaunch(s: System)
    requires Inv(s) && Calm(s) && s.runner.phase.Launching?
    ensures Calm(Apply(s, Launch))
  {
    LaunchSaves(s);
  }

  lemma CalmFinish(s: System, result: ExecutionResult)
    requires Inv(s) && Calm(s) && s.runner.phase.Draining?
    ensures Calm(Apply(s, Finish(Returned(result))))
  {
    if s.runner.phase.done != [] {
      ReturnCompletes(s, s.runner.phase.done[0], result);
    }
  }

  lemma CalmStart(s: System)
    requires Inv(s) && Calm(s) && s.runner.phase.Starting?
    ensures Calm(Apply(s, Start))
  {
    StartSaves(s);
  }

  lemma CalmCheck(s: System)
    requires Inv(s) && Calm(s) && s.runner.phase.Top? && (s.runner.queue != [] || s.runner.pending != [])
    ensures Calm(Apply(s, Check(false)))
  {
  }

  lemma CalmDispatch(s: System)
    requires Inv(s) && Calm(s) && s.runner.phase.Dispatching?
    ensures Calm(Apply(s, TryDispatch))
  {
    DispatchesWhileRoom(s);
  }

  lemma CalmPoll(s: System, done: seq<nat>)
    requires Inv(s) && Calm(s) && s.runner.phase.Polling?
    ensures Calm(Apply(s, Poll(done)))
  {
  }

  lemma CalmSettle(s: System)
    requires Inv(s) && Calm(s) && s.runner.phase.Settling?
    ensures Calm(Apply(s, Settle))
  {
  }

  lemma CalmStep(s: System, tick: Tick)
    requires Inv(s) && Calm(s) && CalmTick(tick)
    ensures var t := Advance(s, tick); if t.runner.Live? then Calm(t) else AllCompleted(t.file)
  {
    hide Inv, Calm, AllCompleted, Apply, CanReport;
    CalmIsLive(s);
    var t, a := Advance(s, tick), NextAction(s.runner, tick);
    assert t == Apply(s, a);
    match a
    case Start => CalmStart(s);
    case Launch => CalmLaunch(s);
    case TryDispatch => CalmDispatch(s);
    case Poll(done) => CalmPoll(s, done);
    case Finish(outcome) => CalmFinish(s, outcome.result);
    case Settle => CalmSettle(s);
    case Check(pauseAnswer) =>
      if s.runner.queue == [] && s.runner.pending == [] {
        CalmEnd(s, pauseAnswer);
      } else {
        CalmCheck(s);
      }
  }

  lemma CalmIsLive(s: System)
    requires Calm(s)
    ensures s.runner.Live? && !s.runner.phase.Pausing?
  {
  }

  /** A run that is not disturbed, whose workers all return, ends with every unit completed with a result. */
  lemma {:induction false} CalmRunCompletes(s: System, world: seq<Tick>)
    requires Inv(s) && Calm(s) && CalmWorld(world) && EndsWithin(s, world)
    ensures AllCompleted(Play(s, world).file)
    decreases |world|
  {
    hide Inv, Calm, AllCompleted, Advance;
    CalmIsLive(s);
    assert CalmTick(world[0]);
    var t := Advance(s, world[0]);
    CalmStep(s, world[0]);
    assert Play(s, world) == Play(t, world[1..]);
    if t.runner.Live? {
      CalmRunCompletes(t, world[1..]);
    }
  }

  /** In particular the first run of a fresh task. */
  lemma FreshRunCompletes(specs: seq<(string, string, string)>, workers: nat, world: seq<Tick>)
    requires workers >= 1 && CalmWorld(world)
    ensures var loaded := DoLoad(Initial(specs), false, workers);
      Inv(loaded) && (EndsWithin(loaded, world) ==> AllCompleted(Play(loaded, world).file))
  {
    var loaded := DoLoad(Initial(specs), false, workers);
    LoadKeeps(Initial(specs), false, workers);
    assert Calm(loaded);
    if EndsWithin(loaded, world) {
      CalmRunCompletes(loaded, world);
    }
  }
}
