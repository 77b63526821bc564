// `TaskService.run` and `request_cancel` as they update the record, the queue and the
// pending set in place, proved against the step machine of TaskMachine.dfy.
module TaskService {
  import opened Models
  import opened TaskRecords
  import opened TaskMachine
  import opened TaskTheorems

  /** The in-memory record of one run. */
  class TaskRecord {
    var state: TaskState
    var completedUnits: nat
    var cancelRequested: bool
    var error: Option<string>
    var units: seq<TaskUnit>
    var events: seq<TaskEvent>

    function View(): Snapshot
      reads this
    {
      Snapshot(state, completedUnits, cancelRequested, error, units, events)
    }

    /** Reads a record off its file. */
    constructor (file: Snapshot)
      ensures View() == file
    {
      state, completedUnits, cancelRequested := file.state, file.completedUnits, file.cancelRequested;
      error, units, events := file.error, file.units, file.events;
    }

    method Append(kind: EventKind, unit: Option<nat>)
      requires unit.Some? ==> unit.value < |units|
      modifies this`events
      ensures View() == AppendEvent(old(View()), kind, unit)
    {
      var uncertain := unit.Some? && units[unit.value].uncertain;
      events := events + [TaskEvent(|events| + 1, kind, state, unit, completedUnits, |units|, uncertain)];
    }

    /** Counts the units with a confirmed ending. */
    method CountCompleted()
      modifies this`completedUnits
      ensures View() == old(View()).(completedUnits := CountSettled(units))
    {
      var count := 0;
      for i := 0 to |units|
        invariant count == CountSettled(units[..i])
      {
        assert units[..i + 1][..i] == units[..i];
        if units[i].status == Completed || units[i].status == Failed {
          count := count + 1;
        }
      }
      assert units[..|units|] == units;
      completedUnits := count;
    }

    /** Requeues what an interrupted run left open and clears the persisted cancel request. */
    method Prepare()
      modifies this
      ensures View() == PrepareResume(old(View()))
    {
      for i := 0 to |units|
        invariant |units| == |old(units)|
        invariant forall j :: 0 <= j < |units| ==> units[j] == if j < i then Requeue(old(units)[j]) else old(units)[j]
        invariant View() == old(View()).(units := units)
      {
        var unit := units[i];
        if unit.uncertain || unit.status == Running || unit.status == Cancelled {
          units := units[i := unit.(status := Queued, uncertain := false, result := None, error := None)];
        }
      }
      assert units == RequeueAll(old(units));
      cancelRequested := false;
      CountCompleted();
    }

    /** The positions of the queued units, in order. */
    method Queue() returns (queue: seq<nat>)
      ensures queue == QueuedUnits(units)
    {
      queue := [];
      for i := 0 to |units|
        invariant queue == QueuedUnits(units[..i])
      {
        assert units[..i + 1][..i] == units[..i];
        if units[i].status == Queued {
          queue := queue + [i];
        }
      }
      assert units[..|units|] == units;
    }

    /** Marks the listed units cancelled, one event each. */
    method MarkAll(ids: seq<nat>, uncertain: bool)
      requires InRange(ids, |units|)
      modifies this`units, this`events
      ensures View() == MarkAllCancelled(old(View()), ids, uncertain)
    {
      for k := 0 to |ids|
        invariant |units| == |old(units)|
        invariant InRange(ids[..k], |units|)
        invariant View() == MarkAllCancelled(old(View()), ids[..k], uncertain)
      {
        var i := ids[k];
        assert i in ids;
        assert ids[..k + 1] == ids[..k] + [i] && ids[..k + 1][..k] == ids[..k];
        units := units[i := units[i].(status := Cancelled, uncertain := uncertain)];
        Append(UnitCancelled, Some(i));
      }
      assert ids[..|ids|] == ids;
    }
  }

  datatype Ending = Rejected | Ended | Crashed

  /** One process working on one task file.  `record`, `queue`, `pending` and `workers` are the locals of `run`. */
  class TaskService {
    var file: Snapshot
    var latch: bool
    var record: TaskRecord
    var queue: seq<nat>
    var pending: seq<nat>
    var workers: nat
    ghost var phase: Option<Phase>   // set exactly while a run is live
    ghost var calls: seq<nat>
    ghost var stranded: set<nat>

    ghost function Now(): System
      reads this, record
    {
      System(file, latch,
             if phase.Some? then Live(record.View(), queue, pending, phase.value, workers) else Idle,
             calls, stranded)
    }

    constructor Create(specs: seq<(string, string, string)>)
      ensures Now() == Initial(specs)
    {
      file, latch := Created(specs), false;
      record := new TaskRecord(Created(specs));
      queue, pending, workers := [], [], 0;
      phase, calls, stranded := None, [], {};
    }

    /** `_save_with_external_events`: the merged record replaces the file and stays in memory. */
    method SaveWithExternalEvents()
      modifies this`file, record
      ensures file == old(record.View()).(events := file.events, cancelRequested := file.cancelRequested)
      ensures file.events == if |old(file.events)| > |old(record.events)| then old(file.events) else old(record.events)
      ensures file.cancelRequested <==> old(record.cancelRequested) || old(file.cancelRequested)
      ensures file == MergeExternal(old(record.View()), old(file))
      ensures record.View() == file
    {
      if |file.events| > |record.events| {
        record.events := file.events;
      }
      if file.cancelRequested {
        record.cancelRequested := true;
      }
      file := record.View();
    }

    /** `request_cancel`, called in this process or in another one sharing the store. */
    method RequestCancel(sameProcess: bool)
      modifies this`file, this`latch
      ensures Now() == DoRequestCancel(old(Now()), sameProcess)
    {
      if !IsTerminal(file.state) {
        file := AppendEvent(file.(cancelRequested := true), TaskRecords.CancelRequested, None);
        if sameProcess {
          latch := true;
        }
      }
    }

    /** `fail`: a setup failure recorded before any unit is dispatched. */
    method Fail(message: string)
      requires phase.None?
      modifies this`file
      ensures Now() == DoFail(old(Now()), message)
    {
      file := AppendEvent(file.(state := Failed, error := Some(message)), TaskFailed, None);
    }

    /** `events_since`. */
    method EventsAfter(sequence: nat) returns (events: seq<TaskEvent>)
      requires FileOk(file)
      ensures events == file.events[if sequence <= |file.events| then sequence else |file.events|..]
    {
      events := [];
      for k := 0 to |file.events|
        invariant events == Newer(file.events[..k], sequence)
      {
        assert file.events[..k + 1][..k] == file.events[..k];
        if file.events[k].sequence > sequence {
          events := events + [file.events[k]];
        }
      }
      assert file.events[..|file.events|] == file.events;
      EventsSinceIsSuffix(file, sequence);
    }

    // -- The steps of one run, each against its step of the machine -----------

    /** Loads the record; on a resume, requeues the open units and saves. */
    method LoadRun(resume: bool, maxWorkers: nat)
      requires phase.None? && maxWorkers >= 1 && (resume || !IsTerminal(file.state))
      modifies this`file, this`record, this`queue, this`pending, this`workers, this`phase, this`stranded
      ensures fresh(record) && phase == Some(Starting)
      ensures Now() == DoLoad(old(Now()), resume, maxWorkers)
    {
      hide PrepareResume, RunningUnits;
      record := new TaskRecord(file);
      if resume {
        record.Prepare();
        file := record.View();
      }
      queue, pending, workers := [], [], maxWorkers;
      phase, stranded := Some(Starting), RunningUnits(file.units);
    }

    /** Marks the record running and reads the queue off it. */
    method StartRun()
      requires phase == Some(Starting)
      modifies this`file, this`latch, this`queue, this`phase, record
      ensures phase == Some(Top) && Now() == DoStart(old(Now()))
    {
      hide QueuedUnits;
      if record.cancelRequested {
        latch := true;
      }
      record.cancelRequested, record.state, record.error := false, Running, None;
      record.Append(TaskStarted, None);
      SaveWithExternalEvents();
      queue := record.Queue();
      phase := Some(Top);
    }

    /** The cancel branch: everything not finished is marked cancelled, what is in flight as uncertain. */
    method CancelExit()
      requires phase == Some(Top) && InRange(queue, |record.units|) && InRange(pending, |record.units|)
      modifies this`file, this`latch, this`phase, record
      ensures phase.None? && Now() == CancelRun(old(Now()))
    {
      ghost var r0 := record.View();
      if |file.events| > |record.events| {
        record.events := file.events;
      }
      record.cancelRequested := true;
      assert record.View() == WithExternalEvents(r0, file).(cancelRequested := true);
      record.MarkAll(queue, false);
      record.MarkAll(pending, true);
      record.state := Cancelled;
      record.Append(TaskCancelled, None);
      SaveWithExternalEvents();
      latch, phase := false, None;
    }

    method PauseExit()
      requires phase == Some(Pausing)
      modifies this`file, this`latch, this`phase, record
      ensures phase.None? && Now() == DoPause(old(Now()))
    {
      record.state := Paused;
      record.Append(TaskPaused, None);
      SaveWithExternalEvents();
      latch, phase := false, None;
    }

    /** The normal exit: `completed` only if every unit is. */
    method FinishExit()
      requires phase == Some(Top)
      modifies this`file, this`latch, this`phase, record
      ensures phase.None? && Now() == FinishRun(old(Now()))
    {
      var all := true;
      for i := 0 to |record.units|
        invariant all <==> forall j :: 0 <= j < i ==> record.units[j].status == Completed
      {
        if record.units[i].status != Completed {
          all := false;
        }
      }
      record.state := if all then Completed else Failed;
      record.CountCompleted();
      record.Append(TaskFinished, None);
      SaveWithExternalEvents();
      latch, phase := false, None;
    }

    /** Pops the head of the queue, saves it as running and submits it. */
    method LaunchUnit()
      requires phase == Some(Launching) && queue != [] && InRange(queue, |record.units|)
      modifies this`file, this`queue, this`pending, this`calls, this`phase, record
      ensures phase == Some(Dispatching(false)) && Now() == DoLaunch(old(Now()))
    {
      var unit := queue[0];
      assert unit in queue;
      queue := queue[1..];
      record.units := record.units[unit := record.units[unit].(status := Running, error := None)];
      record.Append(UnitStarted, Some(unit));
      SaveWithExternalEvents();
      pending, calls := pending + [unit], calls + [unit];
      phase := Some(Dispatching(false));
    }

    /** Records the outcome of the first finished future. */
    method FinishUnit(done: seq<nat>, outcome: Outcome)
      requires phase == Some(Draining(done)) && done != [] && InRange(done, |record.units|)
      modifies this`file, this`pending, this`phase, record
      ensures phase == Some(Settling(done[0], done[1..])) && Now() == DoFinish(old(Now()), outcome)
    {
      hide CountSettled, Remove, AppendEvent, MergeExternal;
      var unit := done[0];
      assert unit in done;
      pending := Remove(pending, unit);
      match outcome {
        case Returned(result) =>
          record.units := record.units[unit :=
            record.units[unit].(result := Some(result), status := Completed, uncertain := false)];
          record.Append(UnitCompleted, Some(unit));
        case Raised(message) =>
          record.units := record.units[unit := record.units[unit].(status := Failed, error := Some(message))];
          if NoError(record.error) {
            record.error := Some(message);
          }
          record.Append(UnitFailed, Some(unit));
      }
      record.CountCompleted();
      SaveWithExternalEvents();
      phase := Some(Settling(unit, done[1..]));
    }

    // -- The loop -------------------------------------------------------------

    /** Playing the ticks from `t` on leads to `goal`, by the run's own end if `ends`. */
    ghost predicate OnTrack(world: seq<Tick>, t: nat, goal: System, ends: bool)
      reads this, record
    {
      && t <= |world| && Inv(Now())
      && Play(Now(), world[t..]) == goal && EndsWithin(Now(), world[t..]) == ends
    }

    /** What others may do before the runner's next step. */
    method Interfere(cancel: Option<bool>)
      requires Inv(Now()) && phase.Some?
      modifies this`file, this`latch
      ensures Inv(Now()) && Now() == Interfered(old(Now()), cancel)
    {
      if cancel.Some? {
        ApplyKeeps(Now(), TaskMachine.RequestCancel(cancel.value));
        RequestCancel(cancel.value);
      }
    }

    /** The ticks have run out: memory is gone, the file stays. */
    method Die(ghost world: seq<Tick>, ghost goal: System, ghost ends: bool)
      requires OnTrack(world, |world|, goal, ends) && phase.Some?
      modifies this`latch, this`phase
      ensures phase.None? && Now() == goal && !ends
    {
      latch, phase := false, None;
    }

    method StartTick(tick: Tick)
      requires Inv(Now()) && phase == Some(Starting)
      modifies this`file, this`latch, this`queue, this`phase, record
      ensures phase == Some(Top) && Now() == Advance(old(Now()), tick)
    {
      hide Inv, DoStart, DoRequestCancel;
      Interfere(tick.cancel);
      StartRun();
    }

    method PauseTick(tick: Tick)
      requires Inv(Now()) && phase == Some(Pausing)
      modifies this`file, this`latch, this`phase, record
      ensures phase.None? && Now() == Advance(old(Now()), tick)
    {
      hide Inv, DoPause, DoRequestCancel;
      Interfere(tick.cancel);
      PauseExit();
    }

    /** The loop condition, and the top of the loop body: merge, test for a cancel request, decide whether to pause. */
    method CheckTick(tick: Tick) returns (ended: bool, pauseRequested: bool)
      requires Inv(Now()) && phase == Some(Top)
      modifies this`file, this`latch, this`phase, record
      ensures Now() == Advance(old(Now()), tick)
      ensures phase == if ended then None
                       else Some(if pauseRequested && pending == [] then Pausing else Dispatching(pauseRequested))
    {
      hide Inv, CancelRun, FinishRun, DoRequestCancel;
      Interfere(tick.cancel);
      LiveFacts(Now());
      ended, pauseRequested := true, false;
      if queue == [] && pending == [] {
        FinishExit();
      } else if latch || record.cancelRequested || file.cancelRequested {
        CancelExit();
      } else {
        if |file.events| > |record.events| {
          record.events := file.events;
        }
        ended := false;
        pauseRequested := queue != [] && tick.pauseAnswer;
        phase := Some(if pauseRequested && pending == [] then Pausing else Dispatching(pauseRequested));
      }
    }

    /** The inner loop condition and the check of the saved record behind it. */
    method TryDispatchTick(pauseRequested: bool, tick: Tick) returns (launch: bool)
      requires Inv(Now()) && phase == Some(Dispatching(pauseRequested))
      modifies this`file, this`latch, this`phase
      ensures Now() == Advance(old(Now()), tick) && phase == Some(if launch then Launching else Polling)
    {
      hide Inv, DoRequestCancel;
      Interfere(tick.cancel);
      launch := queue != [] && |pending| < workers && !latch && !pauseRequested;
      if launch && file.cancelRequested {
        launch := false;
      }
      phase := Some(if launch then Launching else Polling);
    }

    method LaunchTick(tick: Tick)
      requires Inv(Now()) && phase == Some(Launching)
      modifies this`file, this`latch, this`queue, this`pending, this`calls, this`phase, record
      ensures phase == Some(Dispatching(false)) && Now() == Advance(old(Now()), tick)
    {
      hide Inv, DoLaunch, DoRequestCancel;
      Interfere(tick.cancel);
      LiveFacts(Now());
      LaunchUnit();
    }

    /** `wait` returns the futures that are done. */
    method PollTick(tick: Tick) returns (done: seq<nat>)
      requires Inv(Now()) && phase == Some(Polling)
      modifies this`file, this`latch, this`phase
      ensures Now() == Advance(old(Now()), tick)
      ensures phase == Some(if done == [] then Top else Draining(done))
    {
      hide Inv, DoRequestCancel;
      Interfere(tick.cancel);
      done := if pending != [] && CanReport(tick.done, pending) then tick.done else [];
      phase := Some(if done == [] then Top else Draining(done));
    }

    /** Records the next outcome, or leaves the list of finished futures when it is exhausted. */
    method FinishTick(done: seq<nat>, tick: Tick)
      requires Inv(Now()) && phase == Some(Draining(done))
      modifies this`file, this`latch, this`pending, this`phase, record
      ensures Now() == Advance(old(Now()), tick)
      ensures phase == Some(if done == [] then Top else Settling(done[0], done[1..]))
    {
      hide Inv, DoRequestCancel, Recorded;
      Interfere(tick.cancel);
      LiveFacts(Now());
      if done == [] {
        phase := Some(Top);
      } else {
        FinishUnit(done, tick.outcome);
      }
    }

    /** `on_unit_finished`. */
    method SettleTick(unit: nat, done: seq<nat>, tick: Tick)
      requires Inv(Now()) && phase == Some(Settling(unit, done))
      modifies this`file, this`latch, this`phase
      ensures phase == Some(Draining(done)) && Now() == Advance(old(Now()), tick)
    {
      hide Inv, DoRequestCancel;
      Interfere(tick.cancel);
      phase := Some(Draining(done));
    }

    /** Dispatches while the inner loop condition holds; stops short when the ticks run out. */
    method DispatchUnits(pauseRequested: bool, world: seq<Tick>, from: nat, ghost goal: System, ghost ends: bool)
      returns (t: nat)
      requires OnTrack(world, from, goal, ends) && phase == Some(Dispatching(pauseRequested))
      modifies this`file, this`latch, this`queue, this`pending, this`calls, this`phase, record
      ensures OnTrack(world, t, goal, ends) && from <= t && phase.Some?
      ensures t < |world| ==> phase == Some(Polling)
    {
      hide Inv, Play, EndsWithin, Advance;
      t := from;
      var requested := pauseRequested;
      while t < |world|
        invariant OnTrack(world, t, goal, ends) && from <= t
        invariant phase == Some(Dispatching(requested))
      {
        PlayNext(Now(), world, t);
        var launch := TryDispatchTick(requested, world[t]);
        t := t + 1;
        if !launch || t == |world| {
          return;
        }
        PlayNext(Now(), world, t);
        LaunchTick(world[t]);
        t := t + 1;
        requested := false;
      }
    }

    /** Records and settles every future reported done; stops short when the ticks run out. */
    method DrainUnits(done: seq<nat>, world: seq<Tick>, from: nat, ghost goal: System, ghost ends: bool)
      returns (t: nat)
      requires OnTrack(world, from, goal, ends) && phase == Some(Draining(done))
      modifies this`file, this`latch, this`pending, this`phase, record
      ensures OnTrack(world, t, goal, ends) && from <= t && phase.Some?
      ensures t < |world| ==> phase == Some(Top)
    {
      hide Inv, Play, EndsWithin, Advance;
      t := from;
      var left := done;
      while t < |world|
        invariant OnTrack(world, t, goal, ends) && from <= t
        invariant phase == Some(Draining(left))
      {
        PlayNext(Now(), world, t);
        FinishTick(left, world[t]);
        t := t + 1;
        if left == [] || t == |world| {
          return;
        }
        PlayNext(Now(), world, t);
        SettleTick(left[0], left[1..], world[t]);
        t, left := t + 1, left[1..];
      }
    }

    /** One pass through the loop, from the test of its condition; it ends the run or stops when the ticks run out. */
    method Iterate(world: seq<Tick>, from: nat, ghost goal: System, ghost ends: bool) returns (t: nat, ended: bool)
      requires OnTrack(world, from, goal, ends) && phase == Some(Top) && from < |world|
      modifies this`file, this`latch, this`queue, this`pending, this`calls, this`phase, record
      ensures OnTrack(world, t, goal, ends) && from < t
      ensures ended <==> phase.None?
      ensures !ended && t < |world| ==> phase == Some(Top)
    {
      hide Inv, Play, EndsWithin, Advance;
      PlayNext(Now(), world, from);
      var pauseRequested;
      ended, pauseRequested := CheckTick(world[from]);
      t := from + 1;
      if ended || t == |world| {
        return;
      }
      if pauseRequested && pending == [] {
        PlayNext(Now(), world, t);
        PauseTick(world[t]);
        return t + 1, true;
      }
      t := DispatchUnits(pauseRequested, world, t, goal, ends);
      if t == |world| {
        return;
      }
      PlayNext(Now(), world, t);
      var done := PollTick(world[t]);
      t := t + 1;
      if done == [] || t == |world| {
        return;
      }
      t := DrainUnits(done, world, t, goal, ends);
    }

    /** `run` from the moment its record is loaded; false when the ticks run out first. */
    method RunLoaded(world: seq<Tick>) returns (ended: bool)
      requires Inv(Now()) && phase == Some(Starting)
      modifies this`file, this`latch, this`queue, this`pending, this`calls, this`phase, record
      ensures phase.None? && Inv(Now()) && Now() == Play(old(Now()), world)
      ensures ended <==> EndsWithin(old(Now()), world)
    {
      hide Inv, Play, EndsWithin, Advance;
      ghost var goal, ends := Play(Now(), world), EndsWithin(Now(), world);
      assert world[0..] == world;
      var t := 0;
      if t < |world| {
        PlayNext(Now(), world, t);
        StartTick(world[t]);
        t := t + 1;
        while t < |world|
          invariant OnTrack(world, t, goal, ends) && phase.Some?
          invariant t < |world| ==> phase == Some(Top)
        {
          t, ended := Iterate(world, t, goal, ends);
          if ended {
            PlayEnded(Now(), world[t..]);
            return;
          }
        }
      }
      Die(world, goal, ends);
      ended := false;
    }

    /**
     * `run`, in a world that plays the listed ticks and then lets the process die:
     * the new state is the machine's, step for step, and the run ends by itself exactly when the machine's does.
     */
    method Run(resume: bool, maxWorkers: nat, world: seq<Tick>) returns (ending: Ending)
      requires Inv(Now()) && phase.None?
      modifies this
      ensures phase.None? && Inv(Now())
      ensures ending.Rejected? <==> maxWorkers < 1 || (!resume && IsTerminal(old(file.state)))
      ensures ending.Rejected? ==> Now() == old(Now())
      ensures !ending.Rejected? ==>
        var loaded := DoLoad(old(Now()), resume, maxWorkers);
        Inv(loaded) && Now() == Play(loaded, world) && (ending.Ended? <==> EndsWithin(loaded, world))
    {
      if maxWorkers < 1 || (IsTerminal(file.state) && !resume) {
        return Rejected;
      }
      LoadKeeps(Now(), resume, maxWorkers);
      hide Inv, DoLoad, Play, EndsWithin, IsTerminal;
      LoadRun(resume, maxWorkers);
      var ended := RunLoaded(world);
      return if ended then Ended else Crashed;
    }
  }

  /** What the steps of a live run rely on. */
  lemma LiveFacts(s: System)
    requires Inv(s) && s.runner.Live?
    ensures InRange(s.runner.queue, |s.runner.record.units|) && InRange(s.runner.pending, |s.runner.record.units|)
    ensures s.runner.phase.Launching? ==> s.runner.queue != []
    ensures s.runner.phase.Draining? ==> InRange(s.runner.phase.done, |s.runner.record.units|)
  {
  }

  lemma PlayNext(s: System, world: seq<Tick>, t: nat)
    requires Inv(s) && s.runner.Live? && t < |world|
    ensures Play(s, world[t..]) == Play(Advance(s, world[t]), world[t + 1..])
    ensures EndsWithin(s, world[t..]) == EndsWithin(Advance(s, world[t]), world[t + 1..])
  {
    assert world[t..][0] == world[t] && world[t..][1..] == world[t + 1..];
  }

  lemma PlayEnded(s: System, world: seq<Tick>)
    requires Inv(s) && s.runner.Idle?
    ensures Play(s, world) == s && EndsWithin(s, world)
  {
  }
}
