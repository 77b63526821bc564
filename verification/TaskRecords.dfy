/** The persisted record and the operations on it. */
module TaskRecords {
  import opened Models

  datatype TaskState = Queued | Running | Paused | Completed | Failed | Cancelled

  datatype TaskUnit = TaskUnit(
    unitId: string, strategy: string, problemId: string,
    status: TaskState, uncertain: bool, result: Option<ExecutionResult>, error: Option<string>)

  datatype EventKind =
    | TaskCreated | TaskStarted | TaskPaused | TaskCancelled | TaskFinished | TaskFailed | CancelRequested
    | UnitStarted | UnitCompleted | UnitFailed | UnitCancelled

  datatype TaskEvent = TaskEvent(
    sequence: nat, kind: EventKind, state: TaskState, unitIndex: Option<nat>,
    completedUnits: nat, totalUnits: nat, uncertain: bool)

  /** What one task file holds. */
  datatype Snapshot = Snapshot(
    state: TaskState, completedUnits: nat, cancelRequested: bool, error: Option<string>,
    units: seq<TaskUnit>, events: seq<TaskEvent>)

  /** What a worker hands back: a result, or the message of the exception it raised. */
  datatype Outcome = Returned(result: ExecutionResult) | Raised(message: string)

  predicate IsTerminal(s: TaskState) {
    s == Completed || s == Failed || s == Cancelled
  }

  /** A unit with a confirmed ending. */
  predicate IsSettled(u: TaskUnit) {
    u.status == Completed || u.status == Failed
  }

  function Bit(b: bool): nat {
    if b then 1 else 0
  }

  function CountSettled(units: seq<TaskUnit>): nat {
    if units == [] then 0
    else CountSettled(units[..|units|-1]) + Bit(IsSettled(units[|units|-1]))
  }

  function AppendEvent(r: Snapshot, kind: EventKind, unit: Option<nat>): Snapshot
    requires unit.Some? ==> unit.value < |r.units|
  {
    var uncertain := unit.Some? && r.units[unit.value].uncertain;
    r.(events := r.events + [TaskEvent(|r.events| + 1, kind, r.state, unit, r.completedUnits, |r.units|, uncertain)])
  }

  /** Before a save: the longer event list wins and a persisted cancel request survives. */
  function MergeExternal(r: Snapshot, file: Snapshot): Snapshot {
    r.(events := if |file.events| > |r.events| then file.events else r.events,
       cancelRequested := r.cancelRequested || file.cancelRequested)
  }

  function Requeue(u: TaskUnit): TaskUnit {
    if u.uncertain || u.status == Running || u.status == Cancelled
    then u.(status := Queued, uncertain := false, result := None, error := None)
    else u
  }

  function RequeueAll(units: seq<TaskUnit>): (r: seq<TaskUnit>)
    ensures |r| == |units|
    ensures forall i :: 0 <= i < |r| ==> r[i] == Requeue(units[i])
  {
    if units == [] then []
    else RequeueAll(units[..|units|-1]) + [Requeue(units[|units|-1])]
  }

  function PrepareResume(r: Snapshot): Snapshot {
    var units := RequeueAll(r.units);
    r.(units := units, cancelRequested := false, completedUnits := CountSettled(units))
  }

  function MarkCancelled(r: Snapshot, i: nat, uncertain: bool): Snapshot
    requires i < |r.units|
  {
    AppendEvent(r.(units := r.units[i := r.units[i].(status := Cancelled, uncertain := uncertain)]),
                UnitCancelled, Some(i))
  }

  function MarkAllCancelled(r: Snapshot, ids: seq<nat>, uncertain: bool): (r': Snapshot)
    requires forall i :: i in ids ==> i < |r.units|
    ensures |r'.units| == |r.units|
  {
    if ids == [] then r
    else
      var front, last := ids[..|ids|-1], ids[|ids|-1];
      assert last in ids && forall i :: i in front ==> i in ids;
      MarkCancelled(MarkAllCancelled(r, front, uncertain), last, uncertain)
  }

  /** Positions of the units still queued, in order. */
  function QueuedUnits(units: seq<TaskUnit>): (q: seq<nat>)
    ensures forall i :: i in q <==> 0 <= i < |units| && units[i].status == Queued
    ensures forall j, k :: 0 <= j < k < |q| ==> q[j] < q[k]
  {
    if units == [] then []
    else
      var n := |units| - 1;
      var front := QueuedUnits(units[..n]);
      assert forall k :: 0 <= k < |front| ==> front[k] in front;
      if units[n].status == Queued then front + [n] else front
  }

  function EventsSince(r: Snapshot, sequence: nat): seq<TaskEvent> {
    Newer(r.events, sequence)
  }

  function Newer(events: seq<TaskEvent>, sequence: nat): seq<TaskEvent> {
    if events == [] then []
    else
      var n := |events| - 1;
      Newer(events[..n], sequence) + (if events[n].sequence > sequence then [events[n]] else [])
  }

  /** Events carry the numbers 1..n in order. */
  ghost predicate Numbered(events: seq<TaskEvent>) {
    forall k :: 0 <= k < |events| ==> events[k].sequence == k + 1
  }

  /** A poller that has seen everything up to `sequence` receives exactly the rest. */
  lemma {:induction false} EventsSinceIsSuffix(r: Snapshot, sequence: nat)
    requires Numbered(r.events)
    ensures EventsSince(r, sequence) == r.events[if sequence <= |r.events| then sequence else |r.events|..]
    decreases |r.events|
  {
    if r.events != [] {
      var n := |r.events| - 1;
      EventsSinceIsSuffix(r.(events := r.events[..n]), sequence);
      if sequence <= n {
        assert r.events[sequence..] == r.events[..n][sequence..] + [r.events[n]];
      }
    }
  }
}
