// The durable task runner as a machine: everything that another thread, another process or a power cut may come
// between is a step of its own, of the runner's loop or of its environment.
module TaskMachine {
  import opened Models
  import opened TaskRecords

  /** Where the loop of `run` stands between two atomic steps. */
  datatype Phase =
    | Starting                                    // record loaded, not yet marked running
    | Top                                         // about to test the loop condition
    | Pausing                                     // decided to pause, record not yet saved
    | Dispatching(pauseRequested: bool)           // about to test the inner loop condition
    | Launching                                   // passed every check, unit not yet saved as running
    | Polling                                     // about to wait for workers
    | Draining(done: seq<nat>)                    // futures reported done, still to be recorded
    | Settling(unit: nat, done: seq<nat>)         // unit recorded, callback not yet called

  datatype Runner =
    | Idle
    | Live(record: Snapshot, queue: seq<nat>, pending: seq<nat>, phase: Phase, workers: nat)

  /**
   * `file` is the durable record; `latch` the in-memory cancel event of this process.
   * `calls` lists every worker invocation ever made, in order, and `stranded` the units that a run
   * started without `resume` found marked running: no worker is at work on them.
   */
  datatype System = System(file: Snapshot, latch: bool, runner: Runner, calls: seq<nat>, stranded: set<nat>)

  datatype Action =
    | RequestCancel(sameProcess: bool)
    | Fail(message: string)
    | Crash
    | Load(resume: bool, workers: nat)
    | Start
    | Check(pauseAnswer: bool)
    | Pause
    | TryDispatch
    | Launch
    | Poll(done: seq<nat>)
    | Finish(outcome: Outcome)
    | Settle

  // -- Steps -----------------------------------------------------------------

  function DoRequestCancel(s: System, sameProcess: bool): System {
    if IsTerminal(s.file.state) then s
    else s.(file := AppendEvent(s.file.(cancelRequested := true), CancelRequested, None),
            latch := s.latch || sameProcess)
  }

  function DoFail(s: System, message: string): System {
    s.(file := AppendEvent(s.file.(state := Failed, error := Some(message)), TaskFailed, None))
  }

  function RunningUnits(units: seq<TaskUnit>): (r: set<nat>)
    ensures forall i: nat :: i in r <==> i < |units| && units[i].status == Running
  {
    set i: nat | 0 <= i < |units| && units[i].status == Running
  }

  /** `run` up to and including the save that clears the persisted cancel request. */
  function DoLoad(s: System, resume: bool, workers: nat): System {
    if workers < 1 || (IsTerminal(s.file.state) && !resume) then s
    else
      var record := if resume then PrepareResume(s.file) else s.file;
      s.(file := record, runner := Live(record, [], [], Starting, workers), stranded := RunningUnits(record.units))
  }

  function DoStart(s: System): System
    requires s.runner.Live?
  {
    var r := s.runner.record;
    var started := AppendEvent(r.(cancelRequested := false, state := Running, error := None), TaskStarted, None);
    var saved := MergeExternal(started, s.file);
    s.(file := saved, latch := s.latch || r.cancelRequested,
       runner := s.runner.(record := saved, queue := QueuedUnits(saved.units), phase := Top))
  }

  predicate InRange(ids: seq<nat>, n: nat) {
    forall i :: i in ids ==> i < n
  }

  /** The normal exit of the loop. */
  function FinishRun(s: System): System
    requires s.runner.Live?
  {
    var r := s.runner.record;
    var state := if forall i | 0 <= i < |r.units| :: r.units[i].status == Completed then Completed else Failed;
    var ended := r.(state := state, completedUnits := CountSettled(r.units));
    EndRun(s, MergeExternal(AppendEvent(ended, TaskFinished, None), s.file))
  }

  /** The exit on a cancel request. */
  function CancelRun(s: System): System
    requires s.runner.Live?
    requires InRange(s.runner.queue, |s.runner.record.units|) && InRange(s.runner.pending, |s.runner.record.units|)
  {
    var r := WithExternalEvents(s.runner.record, s.file).(cancelRequested := true);
    var marked := MarkAllCancelled(MarkAllCancelled(r, s.runner.queue, false), s.runner.pending, true);
    EndRun(s, MergeExternal(AppendEvent(marked.(state := Cancelled), TaskCancelled, None), s.file))
  }

  function WithExternalEvents(r: Snapshot, file: Snapshot): Snapshot {
    r.(events := if |file.events| > |r.events| then file.events else r.events)
  }

  predicate CancelSeen(s: System)
    requires s.runner.Live?
  {
    s.latch || s.runner.record.cancelRequested || s.file.cancelRequested
  }

  /** The loop condition, the cancel branch and the pause decision. */
  function DoCheck(s: System, pauseAnswer: bool): System
    requires s.runner.Live?
    requires InRange(s.runner.queue, |s.runner.record.units|) && InRange(s.runner.pending, |s.runner.record.units|)
  {
    var run := s.runner;
    if run.queue == [] && run.pending == [] then FinishRun(s)
    else if CancelSeen(s) then CancelRun(s)
    else
      var pauseRequested := run.queue != [] && pauseAnswer;
      s.(runner := run.(record := WithExternalEvents(run.record, s.file),
                        phase := if pauseRequested && run.pending == [] then Pausing else Dispatching(pauseRequested)))
  }

  /** The run returns: the record is saved and the cancel event forgotten. */
  function EndRun(s: System, saved: Snapshot): System {
    s.(file := saved, latch := false, runner := Idle)
  }

  function DoPause(s: System): System
    requires s.runner.Live?
  {
    EndRun(s, MergeExternal(AppendEvent(s.runner.record.(state := Paused), TaskPaused, None), s.file))
  }

  function DoTryDispatch(s: System): System
    requires s.runner.Live? && s.runner.phase.Dispatching?
  {
    var run := s.runner;
    var room := run.queue != [] && |run.pending| < run.workers && !s.latch && !run.phase.pauseRequested;
    s.(runner := run.(phase := if room && !s.file.cancelRequested then Launching else Polling))
  }

  function DoLaunch(s: System): System
    requires s.runner.Live? && s.runner.queue != [] && InRange(s.runner.queue, |s.runner.record.units|)
  {
    var run := s.runner;
    var i := run.queue[0];
    assert i in run.queue;
    var unit := run.record.units[i].(status := Running, error := None);
    var saved := MergeExternal(AppendEvent(run.record.(units := run.record.units[i := unit]), UnitStarted, Some(i)), s.file);
    // The pause answer of this iteration was negative, or no unit would have got here.
    s.(file := saved, calls := s.calls + [i],
       runner := run.(record := saved, queue := run.queue[1..], pending := run.pending + [i], phase := Dispatching(false)))
  }

  /** `wait` reports some pending futures, in any order; none of them when it times out. */
  predicate CanReport(done: seq<nat>, pending: seq<nat>) {
    && (forall k :: 0 <= k < |done| ==> done[k] in pending)
    && (forall j, k :: 0 <= j < k < |done| ==> done[j] != done[k])
  }

  function DoPoll(s: System, done: seq<nat>): System
    requires s.runner.Live?
  {
    if s.runner.pending == [] || done == [] then s.(runner := s.runner.(phase := Top))
    else if CanReport(done, s.runner.pending) then s.(runner := s.runner.(phase := Draining(done)))
    else s
  }

  function Remove(ids: seq<nat>, i: nat): (r: seq<nat>)
    ensures forall x :: x in r <==> x in ids && x != i
    ensures |r| <= |ids|
    ensures i in ids ==> |r| < |ids|
    ensures i !in ids ==> r == ids
    ensures (forall j, k :: 0 <= j < k < |ids| ==> ids[j] != ids[k]) ==> forall j, k :: 0 <= j < k < |r| ==> r[j] != r[k]
  {
    if ids == [] then []
    else
      var n := |ids| - 1;
      var front := Remove(ids[..n], i);
      assert ids == ids[..n] + [ids[n]];
      assert forall k :: 0 <= k < |front| ==> front[k] in front;
      if ids[n] == i then front else front + [ids[n]]
  }

  function Conclude(u: TaskUnit, outcome: Outcome): TaskUnit {
    match outcome
    case Returned(result) => u.(status := Completed, uncertain := false, result := Some(result))
    case Raised(message) => u.(status := Failed, error := Some(message))
  }

  /** An empty message counts as none. */
  predicate NoError(error: Option<string>) {
    error == None || error == Some("")
  }

  /** The record saved when the outcome of unit `i` arrives. */
  function Recorded(r: Snapshot, file: Snapshot, i: nat, outcome: Outcome): Snapshot
    requires i < |r.units|
  {
    var error := if outcome.Raised? && NoError(r.error) then Some(outcome.message) else r.error;
    var logged := AppendEvent(r.(units := r.units[i := Conclude(r.units[i], outcome)], error := error),
                              if outcome.Returned? then UnitCompleted else UnitFailed, Some(i));
    MergeExternal(logged.(completedUnits := CountSettled(logged.units)), file)
  }

  function DoFinish(s: System, outcome: Outcome): System
    requires s.runner.Live? && s.runner.phase.Draining?
    requires InRange(s.runner.phase.done, |s.runner.record.units|)
  {
    var run := s.runner;
    var done := run.phase.done;
    if done == [] then s.(runner := run.(phase := Top))
    else
      var i := done[0];
      assert i in done;
      var saved := Recorded(run.record, s.file, i, outcome);
      s.(file := saved,
         runner := run.(record := saved, pending := Remove(run.pending, i), phase := Settling(i, done[1..])))
  }

  function DoSettle(s: System): System
    requires s.runner.Live? && s.runner.phase.Settling?
  {
    s.(runner := s.runner.(phase := Draining(s.runner.phase.done)))
  }

  /** One step; an action that does not fit the current phase changes nothing. */
  function Apply(s: System, a: Action): System
    requires Inv(s)
  {
    var run := s.runner;
    match a
    case RequestCancel(sameProcess) => DoRequestCancel(s, sameProcess)
    case Crash => s.(runner := Idle, latch := false)
    case Fail(message) => if run.Idle? then DoFail(s, message) else s
    case Load(resume, workers) => if run.Idle? then DoLoad(s, resume, workers) else s
    case Start => if run.Live? && run.phase.Starting? then DoStart(s) else s
    case Check(pauseAnswer) => if run.Live? && run.phase.Top? then DoCheck(s, pauseAnswer) else s
    case Pause => if run.Live? && run.phase.Pausing? then DoPause(s) else s
    case TryDispatch => if run.Live? && run.phase.Dispatching? then DoTryDispatch(s) else s
    case Launch => if run.Live? && run.phase.Launching? then DoLaunch(s) else s
    case Poll(done) => if run.Live? && run.phase.Polling? then DoPoll(s, done) else s
    case Finish(outcome) => if run.Live? && run.phase.Draining? then DoFinish(s, outcome) else s
    case Settle => if run.Live? && run.phase.Settling? then DoSettle(s) else s
  }

  // -- What every step keeps -------------------------------------------------

  ghost predicate UnitOk(u: TaskUnit) {
    && (u.result.Some? <==> u.status == Completed)
    && (u.uncertain ==> u.status == Cancelled)
    && u.status != Paused
  }

  ghost predicate UnitsOk(units: seq<TaskUnit>) {
    forall i :: 0 <= i < |units| ==> UnitOk(units[i])
  }

  ghost predicate NoneCancelled(units: seq<TaskUnit>) {
    forall i :: 0 <= i < |units| ==> units[i].status != Cancelled && !units[i].uncertain
  }

  /** Every record that reaches the disk. */
  ghost predicate FileOk(r: Snapshot) {
    && Numbered(r.events)
    && r.completedUnits == CountSettled(r.units)
    && UnitsOk(r.units)
    && (r.state != Cancelled && r.state != Failed ==> NoneCancelled(r.units))
  }

  ghost predicate Distinct(ids: seq<nat>) {
    forall j, k :: 0 <= j < k < |ids| ==> ids[j] != ids[k]
  }

  /** The queue holds the queued units, `pending` the running ones that a worker of this run is at work on. */
  ghost predicate Tracked(units: seq<TaskUnit>, queue: seq<nat>, pending: seq<nat>, stranded: set<nat>,
      started: bool) {
    && Distinct(queue) && Distinct(pending)
    && (forall i :: i in queue ==> i < |units| && units[i].status == Queued)
    && (forall i :: i in pending ==> i < |units| && units[i].status == Running && i !in stranded)
    && (forall i :: i in stranded ==> i < |units| && units[i].status == Running)
    && (started ==> forall i :: 0 <= i < |units| && units[i].status == Queued ==> i in queue)
    && (forall i :: 0 <= i < |units| && units[i].status == Running ==> i in pending || i in stranded)
  }

  ghost predicate PhaseOk(run: Runner)
    requires run.Live?
  {
    match run.phase
    case Starting => run.queue == [] && run.pending == []
    case Pausing => run.queue != [] && run.pending == []
    case Launching => run.queue != [] && |run.pending| < run.workers
    case Draining(done) => CanReport(done, run.pending)
    case Settling(unit, done) =>
      && CanReport(done, run.pending) && unit !in run.pending && |run.pending| < run.workers
      && unit < |run.record.units| && IsSettled(run.record.units[unit])
    case _ => true
  }

  /** The runner's memory agrees with the disk about every unit, between any two steps. */
  ghost predicate RunOk(s: System)
    requires s.runner.Live?
  {
    var run, r := s.runner, s.runner.record;
    && r.units == s.file.units && r.completedUnits == s.file.completedUnits && r.state == s.file.state
    && Numbered(r.events)
    && Tracked(r.units, run.queue, run.pending, s.stranded, run.phase != Starting)
    && |run.pending| <= run.workers && run.workers >= 1
    && NoneCancelled(r.units)
    && (run.phase != Starting ==> r.state == Running)
    && PhaseOk(run)
  }

  ghost predicate Inv(s: System) {
    && FileOk(s.file)
    && (s.runner.Live? ==> RunOk(s))
  }

  // One lemma per step that changes the record.

  lemma {:induction false} CountUpdate(units: seq<TaskUnit>, i: nat, u: TaskUnit)
    requires i < |units|
    ensures CountSettled(units[i := u]) + Bit(IsSettled(units[i])) == CountSettled(units) + Bit(IsSettled(u))
  {
    var n := |units| - 1;
    if i < n {
      CountUpdate(units[..n], i, u);
      assert units[i := u][..n] == units[..n][i := u];
    } else {
      assert units[i := u][..n] == units[..n];
    }
  }

  lemma MarkOneEffect(r: Snapshot, i: nat, uncertain: bool)
    requires i < |r.units| && Numbered(r.events) && !IsSettled(r.units[i])
    ensures var r' := MarkCancelled(r, i, uncertain);
      && Numbered(r'.events)
      && CountSettled(r'.units) == CountSettled(r.units)
      && r'.completedUnits == r.completedUnits
      && r'.units == r.units[i := r.units[i].(status := Cancelled, uncertain := uncertain)]
  {
    CountUpdate(r.units, i, r.units[i].(status := Cancelled, uncertain := uncertain));
  }

  /** What cancelling a list of open units does to the record. */
  lemma {:induction false} MarkAllEffect(r: Snapshot, ids: seq<nat>, uncertain: bool)
    requires InRange(ids, |r.units|) && Numbered(r.events)
    requires forall i :: i in ids ==> !IsSettled(r.units[i]) && r.units[i].result.None?
    ensures var r' := MarkAllCancelled(r, ids, uncertain);
      && Numbered(r'.events)
      && CountSettled(r'.units) == CountSettled(r.units)
      && r'.completedUnits == r.completedUnits
      && (forall i :: 0 <= i < |r.units| ==>
            r'.units[i] == if i in ids then r.units[i].(status := Cancelled, uncertain := uncertain) else r.units[i])
    decreases |ids|
  {
    if ids != [] {
      var n := |ids| - 1;
      var front, last := ids[..n], ids[n];
      assert ids == front + [last];
      assert last in ids && forall i :: i in front ==> i in ids;
      MarkAllEffect(r, front, uncertain);
      MarkOneEffect(MarkAllCancelled(r, front, uncertain), last, uncertain);
      assert forall i :: i in ids <==> i in front || i == last;
    }
  }

  /** The cancel exit, in one statement: queued units are dropped, those in flight become uncertain. */
  lemma CancelEffect(s: System)
    requires Inv(s) && s.runner.Live? && s.runner.phase.Top?
    ensures var s' := CancelRun(s);
      && FileOk(s'.file) && s'.file.state == Cancelled
      && |s'.file.units| == |s.file.units|
      && forall i :: 0 <= i < |s.file.units| ==>
           s'.file.units[i] == if i in s.runner.queue || i in s.runner.pending
                               then s.file.units[i].(status := Cancelled, uncertain := i in s.runner.pending)
                               else s.file.units[i]
  {
    var r := WithExternalEvents(s.runner.record, s.file).(cancelRequested := true);
    hide MarkAllCancelled, CountSettled;
    CancelMarks(r, s.runner.queue, s.runner.pending, s.stranded);
  }

  lemma CancelMarks(r: Snapshot, queue: seq<nat>, pending: seq<nat>, stranded: set<nat>)
    requires Numbered(r.events) && UnitsOk(r.units) && NoneCancelled(r.units)
    requires Tracked(r.units, queue, pending, stranded, true)
    ensures var m := MarkAllCancelled(MarkAllCancelled(r, queue, false), pending, true);
      && Numbered(m.events) && UnitsOk(m.units)
      && CountSettled(m.units) == CountSettled(r.units) && m.completedUnits == r.completedUnits
      && (forall i :: 0 <= i < |r.units| ==>
           m.units[i] == if i in queue || i in pending
                         then r.units[i].(status := Cancelled, uncertain := i in pending) else r.units[i])
  {
    MarkAllEffect(r, queue, false);
    var m := MarkAllCancelled(r, queue, false);
    MarkAllEffect(m, pending, true);
  }

  lemma CheckKeeps(s: System, pauseAnswer: bool)
    requires Inv(s) && s.runner.Live? && s.runner.phase.Top?
    ensures Inv(DoCheck(s, pauseAnswer))
  {
    CancelEffect(s);
  }

  lemma LoadKeeps(s: System, resume: bool, workers: nat)
    requires Inv(s) && s.runner.Idle?
    ensures Inv(DoLoad(s, resume, workers))
  {
    if workers >= 1 && (resume || !IsTerminal(s.file.state)) {
      var units := if resume then RequeueAll(s.file.units) else s.file.units;
      LoadedUnits(s.file, units);
    }
  }

  lemma LoadedUnits(r: Snapshot, units: seq<TaskUnit>)
    requires FileOk(r)
    requires units == RequeueAll(r.units) || (units == r.units && !IsTerminal(r.state))
    ensures UnitsOk(units) && NoneCancelled(units) && Tracked(units, [], [], RunningUnits(units), false)
  {
  }

  lemma LaunchTracked(units: seq<TaskUnit>, queue: seq<nat>, pending: seq<nat>, stranded: set<nat>, u: TaskUnit)
    requires Tracked(units, queue, pending, stranded, true) && queue != [] && queue[0] < |units|
    requires u.status == Running
    ensures Tracked(units[queue[0] := u], queue[1..], pending + [queue[0]], stranded, true)
  {
    assert queue == [queue[0]] + queue[1..];
    assert queue[0] in queue;
    assert forall i :: i in queue[1..] ==> i in queue && i != queue[0];
    assert forall k :: 0 <= k < |pending| ==> pending[k] in pending;
  }

  lemma LaunchKeeps(s: System)
    requires Inv(s) && s.runner.Live? && s.runner.phase.Launching?
    ensures Inv(DoLaunch(s))
  {
    var run := s.runner;
    var i := run.queue[0];
    assert i in run.queue;
    var u := run.record.units[i].(status := Running, error := None);
    CountUpdate(run.record.units, i, u);
    LaunchTracked(run.record.units, run.queue, run.pending, s.stranded, u);
  }

  lemma FinishTracked(units: seq<TaskUnit>, queue: seq<nat>, pending: seq<nat>, stranded: set<nat>, i: nat,
      u: TaskUnit)
    requires Tracked(units, queue, pending, stranded, true) && i in pending
    requires IsSettled(u)
    ensures Tracked(units[i := u], queue, Remove(pending, i), stranded, true)
  {
  }

  /** Recording one outcome keeps the record sound. */
  lemma FinishRecord(r: Snapshot, file: Snapshot, i: nat, outcome: Outcome)
    requires FileOk(file) && Numbered(r.events) && r.units == file.units && r.state == file.state
    requires NoneCancelled(r.units) && i < |r.units| && r.units[i].status == Running
    ensures var saved := Recorded(r, file, i, outcome);
      FileOk(saved) && NoneCancelled(saved.units) && IsSettled(saved.units[i])
  {
  }

  lemma FinishKeeps(s: System, outcome: Outcome)
    requires Inv(s) && s.runner.Live? && s.runner.phase.Draining?
    ensures Inv(DoFinish(s, outcome))
  {
    var run := s.runner;
    var done := run.phase.done;
    if done != [] {
      var i, rest := done[0], done[1..];
      assert i in done && i in run.pending;
      FinishTracked(run.record.units, run.queue, run.pending, s.stranded, i, Conclude(run.record.units[i], outcome));
      FinishRecord(run.record, s.file, i, outcome);
      assert CanReport(rest, Remove(run.pending, i)) by {
        assert forall k :: 0 <= k < |rest| ==> rest[k] == done[k + 1];
      }
    }
  }

  /** Steps that only move the runner's phase. */
  lemma PhaseStepKeeps(s: System, a: Action)
    requires Inv(s) && (a.TryDispatch? || a.Poll? || a.Settle?)
    ensures Inv(Apply(s, a))
  {
  }

  lemma ApplyKeeps(s: System, a: Action)
    requires Inv(s)
    ensures Inv(Apply(s, a))
  {
    match a
    case RequestCancel(_) =>
    case Fail(_) =>
    case Crash =>
    case Load(resume, workers) => if s.runner.Idle? { LoadKeeps(s, resume, workers); }
    case Start =>
    case Check(pauseAnswer) => if s.runner.Live? && s.runner.phase.Top? { CheckKeeps(s, pauseAnswer); }
    case Pause =>
    case TryDispatch => PhaseStepKeeps(s, a);
    case Launch => if s.runner.Live? && s.runner.phase.Launching? { LaunchKeeps(s); }
    case Poll(_) => PhaseStepKeeps(s, a);
    case Finish(outcome) => if s.runner.Live? && s.runner.phase.Draining? { FinishKeeps(s, outcome); }
    case Settle => PhaseStepKeeps(s, a);
  }
}
