// A resumable experiment: job combinations run serially or in a thread pool, each result is
// checkpointed before it is recorded, and a crash or a pause may come between any two steps.

/** The experiment as a machine of atomic steps; both execution modes are schedules of it. */
module ExperimentMachine {
  import opened Models

  /** What the manifest fingerprint stands for: configuration and dataset, which fix the number of jobs. */
  datatype Inputs = Inputs(fingerprint: string, total: nat)

  /** One recorded combination: its job index, the inputs it was computed from, and the rest. */
  datatype Combo = Combo(unit: nat, inputs: Inputs, payload: string)

  /**
   * What survives a crash: the manifest, the unit checkpoints (one file per job), and the
   * combinations listed in `experiment.json`, if it has been written.
   */
  datatype Disk = Disk(manifest: Option<Inputs>, saved: map<nat, Combo>, listed: Option<seq<Combo>>)

  /**
   * One run.  It starts with the records `base` and the list `jobs`; job `jobs[i]` is submitted when
   * `i < submitted` and its future has been read when `i < collected`.  `results` holds the outcome of
   * each finished future, nothing for one that found a pause request first.
   */
  datatype Run = Run(
    base: seq<Combo>, records: seq<Combo>, jobs: seq<nat>, serial: bool, closed: bool, paused: bool,
    submitted: nat, collected: nat, results: map<nat, Option<Combo>>)

  datatype State = State(disk: Disk, run: Option<Run>)

  datatype Action =
    | Open(inputs: Inputs)
    | Begin(inputs: Inputs, parallel: bool)
    | Submit(pause: bool)
    | Work(future: nat, pause: bool, payload: string)
    | Collect
    | Return
    | Crash

  const EMPTY: State := State(Disk(None, map[], None), None)

  function Units(records: seq<Combo>): set<nat> {
    set c | c in records :: c.unit
  }

  /** Checkpoints of units below `n` that are not listed yet, in job order. */
  function Recovered(saved: map<nat, Combo>, known: set<nat>, n: nat): seq<Combo> {
    if n == 0 then []
    else
      Recovered(saved, known, n - 1) + if n - 1 !in known && n - 1 in saved then [saved[n - 1]] else []
  }

  /** Jobs below `n` that are neither listed nor checkpointed, in job order. */
  function Remaining(saved: map<nat, Combo>, known: set<nat>, n: nat): seq<nat> {
    if n == 0 then []
    else
      Remaining(saved, known, n - 1) + if n - 1 !in known && n - 1 !in saved then [n - 1] else []
  }

  function Written(d: Disk): seq<Combo> {
    if d.listed.Some? then d.listed.value else []
  }

  /** The records a run starts with: the written list, plus what was checkpointed and not written. */
  function BaseOf(d: Disk, total: nat): seq<Combo> {
    Written(d) + Recovered(d.saved, Units(Written(d)), total)
  }

  function JobsOf(d: Disk, total: nat): seq<nat> {
    Remaining(d.saved, Units(Written(d)), total)
  }

  predicate Refused(d: Disk, inputs: Inputs) {
    d.manifest.Some? && d.manifest.value != inputs
  }

  /** `run` up to the first dispatch. */
  function DoBegin(d: Disk, inputs: Inputs, parallel: bool): State {
    var base, jobs := BaseOf(d, inputs.total), JobsOf(d, inputs.total);
    State(d.(manifest := Some(inputs), listed := Some(Written(d))),
          Some(Run(base, base, jobs, !(parallel && |jobs| > 1), false, false, 0, 0, map[])))
  }

  /** The main thread asks for a pause before each submission; in serial mode the previous job is over by then. */
  predicate CanSubmit(run: Run) {
    !run.closed && run.submitted < |run.jobs| && (run.serial ==> run.collected == run.submitted)
  }

  predicate CanWork(run: Run, future: nat) {
    future < run.submitted <= |run.jobs| && future !in run.results
  }

  /** In parallel mode results are entered only after the submission loop. */
  predicate CanCollect(run: Run) {
    && run.collected < run.submitted && run.collected in run.results
    && (run.serial || run.closed || run.submitted == |run.jobs|)
  }

  predicate CanReturn(run: Run) {
    run.collected == run.submitted && (run.closed || run.submitted == |run.jobs|)
  }

  function DoSubmit(run: Run, pause: bool): Run {
    if pause then run.(closed := true, paused := true) else run.(submitted := run.submitted + 1)
  }

  /** A future: ask for a pause, else compute the combination and checkpoint it. */
  function DoWork(d: Disk, run: Run, inputs: Inputs, future: nat, pause: bool, payload: string): State
    requires CanWork(run, future)
  {
    var unit := run.jobs[future];
    var combo := Combo(unit, inputs, payload);
    if pause then State(d, Some(run.(paused := true, results := run.results[future := None])))
    else State(d.(saved := d.saved[unit := combo]), Some(run.(results := run.results[future := Some(combo)])))
  }

  function DoCollect(d: Disk, run: Run): State
    requires CanCollect(run)
  {
    var result := run.results[run.collected];
    var records := if result.Some? then run.records + [result.value] else run.records;
    State(d.(listed := Some(records)), Some(run.(records := records, collected := run.collected + 1)))
  }

  function Apply(s: State, a: Action): State {
    match a
    case Crash => s.(run := None)
    case Open(inputs) =>
      if s.run.Some? || Refused(s.disk, inputs) then s else s.(disk := s.disk.(manifest := Some(inputs)))
    case Begin(inputs, parallel) =>
      if s.run.Some? || Refused(s.disk, inputs) then s else DoBegin(s.disk, inputs, parallel)
    case Submit(pause) =>
      if s.run.None? || !CanSubmit(s.run.value) then s
      else s.(run := Some(DoSubmit(s.run.value, pause)))
    case Work(future, pause, payload) =>
      if s.run.None? || s.disk.manifest.None? || !CanWork(s.run.value, future) then s
      else DoWork(s.disk, s.run.value, s.disk.manifest.value, future, pause, payload)
    case Collect =>
      if s.run.None? || !CanCollect(s.run.value) then s
      else DoCollect(s.disk, s.run.value)
    case Return =>
      if s.run.None? || !CanReturn(s.run.value) then s
      else State(s.disk.(listed := Some(s.run.value.records)), None)
  }

  function Exec(s: State, actions: seq<Action>): State
    decreases |actions|
  {
    if actions == [] then s else Exec(Apply(s, actions[0]), actions[1..])
  }

  // -- What every step keeps -------------------------------------------------

  /** Every record is the checkpoint of its unit, and no unit is recorded twice. */
  ghost predicate Backed(records: seq<Combo>, saved: map<nat, Combo>) {
    && (forall i :: 0 <= i < |records| ==> records[i].unit in saved && saved[records[i].unit] == records[i])
    && (forall i, j :: 0 <= i < j < |records| ==> records[i].unit != records[j].unit)
  }

  /** Checkpoints are of jobs of these inputs, computed from these inputs. */
  ghost predicate SavedOk(saved: map<nat, Combo>, inputs: Inputs) {
    forall k :: k in saved ==> k < inputs.total && saved[k].unit == k && saved[k].inputs == inputs
  }

  ghost predicate DiskOk(d: Disk) {
    && (if d.manifest.Some? then SavedOk(d.saved, d.manifest.value) else d.saved == map[])
    && Backed(Written(d), d.saved)
  }

  predicate Done(run: Run, i: nat) {
    i in run.results && run.results[i].Some?
  }

  ghost predicate Ascending(jobs: seq<nat>, total: nat) {
    && (forall i :: 0 <= i < |jobs| ==> jobs[i] < total)
    && (forall i, j :: 0 <= i < j < |jobs| ==> jobs[i] < jobs[j])
  }

  ghost predicate Shape(run: Run) {
    && run.collected <= run.submitted <= |run.jobs|
    && (forall i :: i in run.results ==> i < run.submitted)
    && (forall i: nat :: i < run.collected ==> i in run.results)
    && (run.closed ==> run.submitted < |run.jobs|)
  }

  /** A job of this run has a checkpoint exactly if its future produced one. */
  ghost predicate Mirror(run: Run, saved: map<nat, Combo>) {
    forall i: nat :: i < |run.jobs| ==>
      && (run.jobs[i] in saved <==> Done(run, i))
      && (Done(run, i) ==> saved[run.jobs[i]] == run.results[i].value)
  }

  /** Every job is in the starting records or in the job list, and none is in both. */
  ghost predicate Split(base: seq<Combo>, jobs: seq<nat>, total: nat) {
    && (forall i :: 0 <= i < |base| ==> base[i].unit !in jobs)
    && (forall k: nat :: k < total && k !in jobs ==> HasRecord(base, k))
  }

  ghost predicate HasRecord(records: seq<Combo>, unit: nat) {
    exists i :: 0 <= i < |records| && records[i].unit == unit
  }

  ghost predicate Skipped(run: Run) {
    exists i :: i in run.results && run.results[i].None?
  }

  /** The results entered so far, in submission order. */
  function Outcomes(results: map<nat, Option<Combo>>, n: nat): seq<Combo> {
    if n == 0 then []
    else Outcomes(results, n - 1) + if n - 1 in results && results[n - 1].Some? then [results[n - 1].value] else []
  }

  ghost predicate RunOk(run: Run, d: Disk) {
    && d.manifest.Some?
    && Shape(run)
    && Ascending(run.jobs, d.manifest.value.total)
    && Mirror(run, d.saved)
    && Backed(run.base, d.saved)
    && Split(run.base, run.jobs, d.manifest.value.total)
    && run.records == run.base + Outcomes(run.results, run.collected)
    && (run.paused <==> run.closed || Skipped(run))
  }

  ghost predicate Inv(s: State) {
    DiskOk(s.disk) && (s.run.Some? ==> RunOk(s.run.value, s.disk))
  }

  // -- The start of a run ----------------------------------------------------

  lemma {:induction false} RecoveredUnits(saved: map<nat, Combo>, inputs: Inputs, known: set<nat>, n: nat)
    requires SavedOk(saved, inputs)
    ensures Backed(Recovered(saved, known, n), saved) && From(Recovered(saved, known, n), known, n)
    ensures forall k: nat :: k < n && k !in known && k in saved ==> HasRecord(Recovered(saved, known, n), k)
  {
    if n > 0 {
      RecoveredUnits(saved, inputs, known, n - 1);
      OneMoreRecovered(saved, inputs, known, n);
    }
  }

  /** Records of units below `n` that are not known. */
  ghost predicate From(records: seq<Combo>, known: set<nat>, n: nat) {
    forall i :: 0 <= i < |records| ==> records[i].unit < n && records[i].unit !in known
  }

  lemma OneMoreRecovered(saved: map<nat, Combo>, inputs: Inputs, known: set<nat>, n: nat)
    requires SavedOk(saved, inputs) && n > 0
    requires Backed(Recovered(saved, known, n - 1), saved) && From(Recovered(saved, known, n - 1), known, n - 1)
    requires forall k: nat :: k < n - 1 && k !in known && k in saved ==> HasRecord(Recovered(saved, known, n - 1), k)
    ensures Backed(Recovered(saved, known, n), saved) && From(Recovered(saved, known, n), known, n)
    ensures forall k: nat :: k < n && k !in known && k in saved ==> HasRecord(Recovered(saved, known, n), k)
  {
    var front := Recovered(saved, known, n - 1);
    if n - 1 !in known && n - 1 in saved {
      var last := saved[n - 1];
      assert Recovered(saved, known, n) == front + [last] && last.unit == n - 1 && saved[last.unit] == last;
      hide Recovered, SavedOk, HasRecord;
      BackedAppend(front, [last], saved);
      SingleRecord(last);
      forall k: nat | k < n && k !in known && k in saved ensures HasRecord(front + [last], k) {
        InEither(front, [last], k);
      }
    } else {
      assert Recovered(saved, known, n) == front;
    }
  }

  lemma SingleRecord(c: Combo)
    ensures HasRecord([c], c.unit)
  {
    assert [c][0].unit == c.unit;
  }

  lemma {:induction false} RemainingJobs(saved: map<nat, Combo>, known: set<nat>, n: nat)
    ensures Ascending(Remaining(saved, known, n), n)
    ensures forall k: nat :: k in Remaining(saved, known, n) <==> k < n && k !in known && k !in saved
  {
    if n > 0 {
      RemainingJobs(saved, known, n - 1);
    }
  }

  lemma BackedAppend(a: seq<Combo>, b: seq<Combo>, saved: map<nat, Combo>)
    requires Backed(a, saved) && Backed(b, saved)
    requires forall i, j :: 0 <= i < |a| && 0 <= j < |b| ==> a[i].unit != b[j].unit
    ensures Backed(a + b, saved)
  {
  }

  lemma BaseSplits(d: Disk, inputs: Inputs)
    requires DiskOk(d) && SavedOk(d.saved, inputs)
    ensures var base, jobs := BaseOf(d, inputs.total), JobsOf(d, inputs.total);
      && Backed(base, d.saved) && Split(base, jobs, inputs.total) && Ascending(jobs, inputs.total)
      && forall i :: 0 <= i < |jobs| ==> jobs[i] !in d.saved
  {
    var written, known, total := Written(d), Units(Written(d)), inputs.total;
    var recovered, base, jobs := Recovered(d.saved, known, total), BaseOf(d, total), JobsOf(d, total);
    assert forall i :: 0 <= i < |written| ==> written[i] in written && written[i].unit in known;
    RecoveredUnits(d.saved, inputs, known, total);
    RemainingJobs(d.saved, known, total);
    hide Recovered, Remaining, HasRecord;
    BackedAppend(written, recovered, d.saved);
    assert forall i :: 0 <= i < |jobs| ==> jobs[i] in jobs;
    forall k: nat | k < total && k !in jobs ensures HasRecord(base, k) {
      if k in known {
        ListedUnit(written, k);
      }
      InEither(written, recovered, k);
    }
  }

  lemma ListedUnit(records: seq<Combo>, unit: nat)
    requires unit in Units(records)
    ensures HasRecord(records, unit)
  {
    var c :| c in records && c.unit == unit;
    var i :| 0 <= i < |records| && records[i] == c;
    assert records[i].unit == unit;
  }

  lemma InEither(a: seq<Combo>, b: seq<Combo>, unit: nat)
    requires HasRecord(a, unit) || HasRecord(b, unit)
    ensures HasRecord(a + b, unit)
  {
    if HasRecord(a, unit) {
      var i :| 0 <= i < |a| && a[i].unit == unit;
      assert (a + b)[i].unit == unit;
    } else {
      var i :| 0 <= i < |b| && b[i].unit == unit;
      assert (a + b)[|a| + i].unit == unit;
    }
  }

  lemma BeginKeeps(d: Disk, inputs: Inputs, parallel: bool)
    requires DiskOk(d) && !Refused(d, inputs)
    ensures Inv(DoBegin(d, inputs, parallel))
  {
    hide Split, Ascending, Backed;
    BaseSplits(d, inputs);
    var run := DoBegin(d, inputs, parallel).run.value;
    assert run.records == run.base + Outcomes(run.results, 0);
  }

  // -- The steps of a run ----------------------------------------------------

  lemma {:induction false} OutcomesAgree(a: map<nat, Option<Combo>>, b: map<nat, Option<Combo>>, n: nat)
    requires forall i: nat :: i < n ==> i in a && i in b && a[i] == b[i]
    ensures Outcomes(a, n) == Outcomes(b, n)
  {
    if n > 0 {
      OutcomesAgree(a, b, n - 1);
    }
  }

  lemma BackedGrows(records: seq<Combo>, saved: map<nat, Combo>, unit: nat, combo: Combo)
    requires Backed(records, saved) && unit !in saved
    ensures Backed(records, saved[unit := combo])
  {
  }

  lemma SubmitKeeps(s: State, pause: bool)
    requires Inv(s)
    ensures Inv(Apply(s, Submit(pause)))
  {
    hide Split, Ascending, Backed, SavedOk, Outcomes;
  }

  lemma MirrorGrows(d: Disk, run: Run, future: nat, combo: Combo)
    requires Shape(run) && Mirror(run, d.saved) && CanWork(run, future) && run.jobs[future] == combo.unit
    requires forall i, j :: 0 <= i < j < |run.jobs| ==> run.jobs[i] < run.jobs[j]
    ensures combo.unit !in d.saved
    ensures Mirror(run.(results := run.results[future := Some(combo)]), d.saved[combo.unit := combo])
  {
    var run' := run.(results := run.results[future := Some(combo)]);
    var saved' := d.saved[combo.unit := combo];
    assert !Done(run, future);
    forall i: nat | i < |run.jobs|
      ensures run.jobs[i] in saved' <==> Done(run', i)
      ensures Done(run', i) ==> saved'[run.jobs[i]] == run'.results[i].value
    {
      if i != future {
        assert i < future || future < i;
        assert run.jobs[i] != combo.unit && Done(run', i) == Done(run, i);
      }
    }
  }

  lemma PausedWorkKeeps(d: Disk, run: Run, future: nat)
    requires RunOk(run, d) && CanWork(run, future)
    ensures RunOk(run.(paused := true, results := run.results[future := None]), d)
  {
    hide Split, Ascending, Backed;
    var run' := run.(paused := true, results := run.results[future := None]);
    assert run'.results[future].None?;
    assert forall i: nat :: i < |run.jobs| ==> Done(run', i) == Done(run, i);
    OutcomesAgree(run.results, run'.results, run.collected);
  }

  lemma DoneWorkKeeps(d: Disk, run: Run, future: nat, combo: Combo)
    requires DiskOk(d) && RunOk(run, d) && CanWork(run, future)
    requires combo.unit == run.jobs[future] && combo.inputs == d.manifest.value
    ensures var d' := d.(saved := d.saved[combo.unit := combo]);
      DiskOk(d') && RunOk(run.(results := run.results[future := Some(combo)]), d')
  {
    hide Split, Mirror, Backed, Outcomes;
    var run' := run.(results := run.results[future := Some(combo)]);
    MirrorGrows(d, run, future, combo);
    BackedGrows(run.base, d.saved, combo.unit, combo);
    BackedGrows(Written(d), d.saved, combo.unit, combo);
    OutcomesAgree(run.results, run'.results, run.collected);
    assert Skipped(run') <==> Skipped(run) by {
      if Skipped(run) {
        var i :| i in run.results && run.results[i].None?;
        assert run'.results[i].None?;
      }
    }
  }

  lemma WorkKeeps(s: State, future: nat, pause: bool, payload: string)
    requires Inv(s)
    ensures Inv(Apply(s, Work(future, pause, payload)))
  {
    hide RunOk, DiskOk;
    if s.run.Some? && s.disk.manifest.Some? && CanWork(s.run.value, future) {
      if pause {
        PausedWorkKeeps(s.disk, s.run.value, future);
      } else {
        DoneWorkKeeps(s.disk, s.run.value, future, Combo(s.run.value.jobs[future], s.disk.manifest.value, payload));
      }
    }
  }

  /** What has been entered is checkpointed, and comes from jobs of this run in their order. */
  lemma {:induction false} OutcomesBacked(run: Run, d: Disk, n: nat)
    requires DiskOk(d) && RunOk(run, d) && n <= run.submitted
    ensures Backed(Outcomes(run.results, n), d.saved)
    ensures var r := Outcomes(run.results, n);
      forall k :: 0 <= k < |r| ==> r[k].unit in run.jobs[..n]
  {
    hide Split;
    if n > 0 {
      OutcomesBacked(run, d, n - 1);
      assert run.jobs[..n] == run.jobs[..n - 1] + [run.jobs[n - 1]];
      assert run.jobs[n - 1] !in run.jobs[..n - 1];
      if Done(run, n - 1) {
        assert run.jobs[n - 1] in d.saved;
        BackedAppend(Outcomes(run.results, n - 1), [run.results[n - 1].value], d.saved);
      }
    }
  }

  lemma RecordsBacked(run: Run, d: Disk, n: nat)
    requires DiskOk(d) && RunOk(run, d) && n <= run.submitted
    ensures Backed(run.base + Outcomes(run.results, n), d.saved)
  {
    OutcomesBacked(run, d, n);
    hide Backed, Mirror, Outcomes, Ascending;
    assert forall k :: k in run.jobs[..n] ==> k in run.jobs;
    BackedAppend(run.base, Outcomes(run.results, n), d.saved);
  }

  lemma CollectKeeps(s: State)
    requires Inv(s)
    ensures Inv(Apply(s, Collect))
  {
    hide Split, Ascending, Mirror, Backed, SavedOk;
    if s.run.Some? && CanCollect(s.run.value) {
      var run := s.run.value;
      RecordsBacked(run, s.disk, run.collected + 1);
      var run' := DoCollect(s.disk, run).run.value;
      assert run'.records == run.base + Outcomes(run.results, run.collected + 1);
      assert Mirror(run', s.disk.saved) by { MirrorIgnores(run, run', s.disk.saved); }
      assert Skipped(run') <==> Skipped(run);
    }
  }

  lemma MirrorIgnores(run: Run, run': Run, saved: map<nat, Combo>)
    requires Mirror(run, saved) && run'.jobs == run.jobs && run'.results == run.results
    ensures Mirror(run', saved)
  {
    assert forall i: nat :: Done(run', i) == Done(run, i);
  }

  lemma ReturnKeeps(s: State)
    requires Inv(s)
    ensures Inv(Apply(s, Return))
  {
    hide Split, Ascending, Mirror, Backed, SavedOk;
    if s.run.Some? && CanReturn(s.run.value) {
      RecordsBacked(s.run.value, s.disk, s.run.value.collected);
    }
  }

  lemma ApplyKeeps(s: State, a: Action)
    requires Inv(s)
    ensures Inv(Apply(s, a))
  {
    match a
    case Crash =>
    case Open(_) =>
    case Begin(inputs, parallel) =>
      hide RunOk, DiskOk;
      if s.run.None? && !Refused(s.disk, inputs) { BeginKeeps(s.disk, inputs, parallel); }
    case Submit(pause) => SubmitKeeps(s, pause);
    case Work(future, pause, payload) => WorkKeeps(s, future, pause, payload);
    case Collect => CollectKeeps(s);
    case Return => ReturnKeeps(s);
  }

  /** Checkpoints are written once and never replaced, and the manifest never changes. */
  ghost predicate Grows(d: Disk, d': Disk) {
    && (d.manifest.Some? ==> d'.manifest == d.manifest)
    && (forall k :: k in d.saved ==> k in d'.saved && d'.saved[k] == d.saved[k])
  }

  lemma StepGrows(s: State, a: Action)
    requires Inv(s)
    ensures Grows(s.disk, Apply(s, a).disk)
  {
    hide Split, Ascending, Backed, SavedOk, Outcomes;
    if a.Work? && s.run.Some? && CanWork(s.run.value, a.future) {
      assert !Done(s.run.value, a.future);
    }
  }

  lemma {:induction false} Execution(s: State, actions: seq<Action>)
    requires Inv(s)
    ensures Inv(Exec(s, actions)) && Grows(s.disk, Exec(s, actions).disk)
    decreases |actions|
  {
    if actions != [] {
      hide Inv, Apply;
      ApplyKeeps(s, actions[0]);
      StepGrows(s, actions[0]);
      Execution(Apply(s, actions[0]), actions[1..]);
    }
  }

  // -- Theorems --------------------------------------------------------------

  /** One record for each job index, each once, and none for anything else. */
  ghost predicate Complete(records: seq<Combo>, total: nat) {
    && (forall i :: 0 <= i < |records| ==> records[i].unit < total)
    && (forall i, j :: 0 <= i < j < |records| ==> records[i].unit != records[j].unit)
    && (forall k: nat :: k < total ==> HasRecord(records, k))
  }

  /** Records of these inputs only, no job twice, and a pause reported exactly if some job has none. */
  ghost predicate GoodReturn(records: seq<Combo>, paused: bool, inputs: Inputs) {
    && (forall i :: 0 <= i < |records| ==> records[i].inputs == inputs && records[i].unit < inputs.total)
    && (forall i, j :: 0 <= i < j < |records| ==> records[i].unit != records[j].unit)
    && (paused <==> !Complete(records, inputs.total))
  }

  lemma {:induction false} OutcomesComplete(run: Run, saved: map<nat, Combo>, n: nat)
    requires Mirror(run, saved) && n <= |run.jobs|
    requires forall i: nat :: i < n ==> Done(run, i)
    ensures |Outcomes(run.results, n)| == n
    ensures forall i: nat :: i < n ==> Outcomes(run.results, n)[i] == saved[run.jobs[i]]
  {
    if n > 0 {
      OutcomesComplete(run, saved, n - 1);
      assert Done(run, n - 1);
    }
  }

  lemma AllDone(run: Run, d: Disk)
    requires DiskOk(d) && RunOk(run, d) && CanReturn(run) && !run.paused
    ensures run.collected == |run.jobs|
    ensures forall i: nat :: i < |run.jobs| ==>
      Done(run, i) && run.jobs[i] in d.saved && d.saved[run.jobs[i]].unit == run.jobs[i]
  {
    hide Split, Backed, Outcomes, Ascending;
    forall i: nat | i < |run.jobs| ensures Done(run, i) {
      assert i in run.results;
    }
  }

  lemma CoversAll(base: seq<Combo>, jobs: seq<nat>, rest: seq<Combo>, total: nat)
    requires Split(base, jobs, total)
    requires |rest| == |jobs| && forall i: nat :: i < |jobs| ==> rest[i].unit == jobs[i]
    ensures forall k: nat :: k < total ==> HasRecord(base + rest, k)
  {
    forall k: nat | k < total ensures HasRecord(base + rest, k) {
      if k in jobs {
        var i :| 0 <= i < |jobs| && jobs[i] == k;
        assert rest[i].unit == k;
      }
      InEither(base, rest, k);
    }
  }

  lemma CompleteFrom(records: seq<Combo>, saved: map<nat, Combo>, inputs: Inputs)
    requires Backed(records, saved) && SavedOk(saved, inputs)
    requires forall k: nat :: k < inputs.total ==> HasRecord(records, k)
    ensures Complete(records, inputs.total)
  {
    hide HasRecord;
  }

  lemma StartsWith(run: Run, d: Disk)
    requires RunOk(run, d)
    ensures |run.records| >= |run.base| && run.records[..|run.base|] == run.base
  {
  }

  /** A run that ends unpaused lists its starting records and then the checkpoints of its jobs. */
  lemma FinishedList(run: Run, d: Disk)
    requires DiskOk(d) && RunOk(run, d) && CanReturn(run) && !run.paused
    ensures |run.records| == |run.base| + |run.jobs|
    ensures forall i: nat :: i < |run.jobs| ==>
      && run.jobs[i] in d.saved && d.saved[run.jobs[i]].unit == run.jobs[i]
      && run.records[|run.base| + i] == d.saved[run.jobs[i]]
  {
    AllDone(run, d);
    OutcomesComplete(run, d.saved, |run.jobs|);
    var rest := Outcomes(run.results, |run.jobs|);
    assert run.records == run.base + rest;
    hide *;
    forall i: nat | i < |run.jobs|
      ensures run.jobs[i] in d.saved && d.saved[run.jobs[i]].unit == run.jobs[i]
      ensures run.records[|run.base| + i] == d.saved[run.jobs[i]]
    {
      assert run.records[|run.base| + i] == rest[i];
    }
  }

  lemma FinishedRun(run: Run, d: Disk)
    requires DiskOk(d) && RunOk(run, d) && CanReturn(run) && !run.paused
    ensures Complete(run.records, d.manifest.value.total)
  {
    hide Outcomes, Mirror, Ascending, Split, HasRecord, Done, Backed, SavedOk, Complete;
    RecordsBacked(run, d, run.collected);
    FinishedList(run, d);
    var rest := run.records[|run.base|..];
    assert run.records == run.base + rest;
    assert forall i: nat :: i < |run.jobs| ==> rest[i] == run.records[|run.base| + i];
    CoversAll(run.base, run.jobs, rest, d.manifest.value.total);
    CompleteFrom(run.records, d.saved, d.manifest.value);
  }

  lemma PausedRun(run: Run, d: Disk)
    requires DiskOk(d) && RunOk(run, d) && CanReturn(run) && run.paused
    ensures !Complete(run.records, d.manifest.value.total)
  {
    RecordsBacked(run, d, run.collected);
    hide Backed, Outcomes, Split;
    var i: nat;
    if run.closed {
      i := run.submitted;
    } else {
      i :| i in run.results && run.results[i].None?;
    }
    assert !Done(run, i);
    assert run.jobs[i] !in d.saved && run.jobs[i] < d.manifest.value.total;
    MissingRecord(run.records, d.saved, run.jobs[i]);
  }

  lemma MissingRecord(records: seq<Combo>, saved: map<nat, Combo>, unit: nat)
    requires Backed(records, saved) && unit !in saved
    ensures !HasRecord(records, unit)
  {
  }

  lemma ReturnIsGood(s: State)
    requires Inv(s) && s.run.Some? && CanReturn(s.run.value)
    ensures s.disk.manifest.Some? && GoodReturn(s.run.value.records, s.run.value.paused, s.disk.manifest.value)
  {
    var run, d := s.run.value, s.disk;
    RecordsBacked(run, d, run.collected);
    hide Split, Mirror, Ascending, Outcomes, Complete, HasRecord, Skipped;
    if run.paused {
      PausedRun(run, d);
    } else {
      FinishedRun(run, d);
    }
  }

  /**
   * After any crashes, pauses, resumes and refused inputs, in either mode: when a run returns, the
   * written list holds records of the manifest's inputs only, no job twice, and the run has paused exactly
   * if some job has no record.
   */
  lemma ReturnedRun(actions: seq<Action>)
    ensures var s := Exec(EMPTY, actions);
      s.run.Some? && CanReturn(s.run.value) ==>
        && s.disk.manifest.Some?
        && Apply(s, Return).disk.listed == Some(s.run.value.records)
        && GoodReturn(s.run.value.records, s.run.value.paused, s.disk.manifest.value)
  {
    Execution(EMPTY, actions);
    hide Inv, GoodReturn, Exec;
    var s := Exec(EMPTY, actions);
    if s.run.Some? && CanReturn(s.run.value) {
      ReturnIsGood(s);
    }
  }

  /** A future is only ever computed for a job that has no checkpoint, after whatever crashes and resumes. */
  lemma ComputedOnce(actions: seq<Action>, future: nat)
    requires Exec(EMPTY, actions).run.Some? && CanWork(Exec(EMPTY, actions).run.value, future)
    ensures Exec(EMPTY, actions).run.value.jobs[future] !in Exec(EMPTY, actions).disk.saved
  {
    Execution(EMPTY, actions);
    hide Exec, Split, Backed, Ascending, Outcomes;
    assert !Done(Exec(EMPTY, actions).run.value, future);
  }

  /** A job checkpointed at any point keeps its first result. */
  lemma FirstResultStands(before: seq<Action>, after: seq<Action>, unit: nat)
    requires unit in Exec(EMPTY, before).disk.saved
    ensures unit in Exec(EMPTY, before + after).disk.saved
    ensures Exec(EMPTY, before + after).disk.saved[unit] == Exec(EMPTY, before).disk.saved[unit]
  {
    Execution(EMPTY, before);
    Execution(Exec(EMPTY, before), after);
    ExecSplits(EMPTY, before, after);
  }

  lemma {:induction false} ExecSplits(s: State, before: seq<Action>, after: seq<Action>)
    ensures Exec(s, before + after) == Exec(Exec(s, before), after)
    decreases |before|
  {
    if before == [] {
      assert before + after == after;
    } else {
      assert (before + after)[1..] == before[1..] + after;
      ExecSplits(Apply(s, before[0]), before[1..], after);
    }
  }

  /** Actions of one run between its start and its return. */
  ghost predicate WithinRun(actions: seq<Action>) {
    forall i :: 0 <= i < |actions| ==> !actions[i].Crash? && !actions[i].Return?
  }

  /** Both states are of the same run. */
  ghost predicate SameRun(s: State, s': State) {
    && s.run.Some? && s'.run.Some? && s.disk.manifest == s'.disk.manifest
    && s'.run.value.base == s.run.value.base && s'.run.value.jobs == s.run.value.jobs
    && s'.run.value.serial == s.run.value.serial
  }

  lemma {:induction false} RunKeepsJobs(s: State, actions: seq<Action>)
    requires s.run.Some? && WithinRun(actions)
    ensures SameRun(s, Exec(s, actions))
    decreases |actions|
  {
    if actions != [] {
      assert !actions[0].Crash? && !actions[0].Return?;
      RunKeepsJobs(Apply(s, actions[0]), actions[1..]);
    }
  }

  /**
   * The order of the records does not depend on the execution mode or the schedule: a run that ends
   * unpaused lists what the disk held at its start, then its jobs by index.
   */
  lemma OrderIsFixed(d: Disk, inputs: Inputs, parallel: bool, actions: seq<Action>)
    requires DiskOk(d) && !Refused(d, inputs) && WithinRun(actions)
    ensures var s := Exec(DoBegin(d, inputs, parallel), actions);
      && s.run.Some?
      && (CanReturn(s.run.value) && !s.run.value.paused ==>
            var records, base, jobs := s.run.value.records, BaseOf(d, inputs.total), JobsOf(d, inputs.total);
            && |records| == |base| + |jobs| && records[..|base|] == base
            && forall i: nat :: i < |jobs| ==> jobs[i] in s.disk.saved && records[|base| + i] == s.disk.saved[jobs[i]])
  {
    var s0 := DoBegin(d, inputs, parallel);
    BeginKeeps(d, inputs, parallel);
    Execution(s0, actions);
    RunKeepsJobs(s0, actions);
    hide Exec, BaseOf, JobsOf, Backed, Mirror, Split, Outcomes;
    var s := Exec(s0, actions);
    if CanReturn(s.run.value) && !s.run.value.paused {
      FinishedList(s.run.value, s.disk);
      StartsWith(s.run.value, s.disk);
    }
  }

  /** So a run from an empty directory that is not paused lists job 0, 1, 2, ... in either mode. */
  lemma FreshRunInJobOrder(inputs: Inputs, parallel: bool, actions: seq<Action>)
    requires WithinRun(actions)
    ensures var s := Exec(Apply(EMPTY, Begin(inputs, parallel)), actions);
      && s.run.Some?
      && (CanReturn(s.run.value) && !s.run.value.paused ==>
            |s.run.value.records| == inputs.total
            && forall k: nat :: k < inputs.total ==> s.run.value.records[k].unit == k)
  {
    var d := EMPTY.disk;
    var s0 := DoBegin(d, inputs, parallel);
    FreshStart(inputs);
    OrderIsFixed(d, inputs, parallel, actions);
    SavedByTheseInputs(d, inputs, parallel, actions);
    hide Exec, RunOk, Outcomes, BaseOf, JobsOf, Backed;
    var s := Exec(s0, actions);
    if CanReturn(s.run.value) && !s.run.value.paused {
      var records, jobs := s.run.value.records, JobsOf(d, inputs.total);
      forall k: nat | k < inputs.total ensures records[k].unit == k {
        assert jobs[k] == k && records[0 + k] == s.disk.saved[jobs[k]];
      }
    }
  }

  lemma SavedByTheseInputs(d: Disk, inputs: Inputs, parallel: bool, actions: seq<Action>)
    requires DiskOk(d) && !Refused(d, inputs) && WithinRun(actions)
    ensures SavedOk(Exec(DoBegin(d, inputs, parallel), actions).disk.saved, inputs)
  {
    var s0 := DoBegin(d, inputs, parallel);
    BeginKeeps(d, inputs, parallel);
    Execution(s0, actions);
    RunKeepsJobs(s0, actions);
    hide Exec, RunOk, BaseOf, JobsOf, SavedOk;
  }

  lemma FreshStart(inputs: Inputs)
    ensures DiskOk(EMPTY.disk)
    ensures BaseOf(EMPTY.disk, inputs.total) == [] && |JobsOf(EMPTY.disk, inputs.total)| == inputs.total
    ensures forall k: nat :: k < inputs.total ==> JobsOf(EMPTY.disk, inputs.total)[k] == k
  {
    assert Units([]) == {};
    NothingRecovered({}, inputs.total);
  }

  lemma {:induction false} NothingRecovered(known: set<nat>, n: nat)
    requires known == {}
    ensures Recovered(map[], known, n) == []
    ensures |Remaining(map[], known, n)| == n && forall k: nat :: k < n ==> Remaining(map[], known, n)[k] == k
  {
    if n > 0 {
      NothingRecovered(known, n - 1);
    }
  }

  // -- Payloads and pauses ---------------------------------------------------

  /** A future that hears no pause request computes `payload` for job `unit` now. */
  predicate Computes(s: State, a: Action, unit: nat, payload: string) {
    && a.Work? && !a.pause && a.payload == payload
    && s.run.Some? && s.disk.manifest.Some? && CanWork(s.run.value, a.future) && s.run.value.jobs[a.future] == unit
  }

  ghost predicate Computed(s: State, actions: seq<Action>, unit: nat, payload: string)
    decreases |actions|
  {
    actions != [] &&
    (Computes(s, actions[0], unit, payload) || Computed(Apply(s, actions[0]), actions[1..], unit, payload))
  }

  predicate SavedAs(s: State, unit: nat, payload: string) {
    unit in s.disk.saved && s.disk.saved[unit].payload == payload
  }

  lemma StepComputes(s: State, a: Action, unit: nat, payload: string)
    requires Inv(s)
    ensures SavedAs(Apply(s, a), unit, payload) <==> SavedAs(s, unit, payload) || Computes(s, a, unit, payload)
  {
    hide Split, Ascending, Backed, SavedOk, Outcomes;
    if a.Work? && s.run.Some? && CanWork(s.run.value, a.future) {
      assert !Done(s.run.value, a.future);
    }
  }

  /** A job is checkpointed with a payload if and only if it was so at the start or a future computed just that. */
  lemma {:induction false} SavedAsComputed(s: State, actions: seq<Action>, unit: nat, payload: string)
    requires Inv(s)
    ensures SavedAs(Exec(s, actions), unit, payload) <==> SavedAs(s, unit, payload) || Computed(s, actions, unit, payload)
    decreases |actions|
  {
    hide Inv, Apply, SavedAs, Computes;
    if actions != [] {
      ApplyKeeps(s, actions[0]);
      StepComputes(s, actions[0], unit, payload);
      SavedAsComputed(Apply(s, actions[0]), actions[1..], unit, payload);
    }
  }

  /** The main thread or a future hears a pause request now. */
  predicate HearsPause(s: State, a: Action) {
    s.run.Some? &&
    ((a.Submit? && a.pause && CanSubmit(s.run.value)) ||
     (a.Work? && a.pause && s.disk.manifest.Some? && CanWork(s.run.value, a.future)))
  }

  ghost predicate PauseHeard(s: State, actions: seq<Action>)
    decreases |actions|
  {
    actions != [] && (HearsPause(s, actions[0]) || PauseHeard(Apply(s, actions[0]), actions[1..]))
  }

  lemma {:induction false} PausedIffHeard(s: State, actions: seq<Action>)
    requires s.run.Some? && WithinRun(actions)
    ensures Exec(s, actions).run.Some?
    ensures Exec(s, actions).run.value.paused <==> s.run.value.paused || PauseHeard(s, actions)
    decreases |actions|
  {
    if actions != [] {
      assert !actions[0].Crash? && !actions[0].Return?;
      PausedIffHeard(Apply(s, actions[0]), actions[1..]);
    }
  }

  /** So a run that can return has left a job without a record if and only if somebody heard a pause request. */
  lemma IncompleteIffPauseHeard(d: Disk, inputs: Inputs, parallel: bool, actions: seq<Action>)
    requires DiskOk(d) && !Refused(d, inputs) && WithinRun(actions)
    ensures var s := Exec(DoBegin(d, inputs, parallel), actions);
      && s.run.Some?
      && (CanReturn(s.run.value) ==>
            (!Complete(s.run.value.records, inputs.total) <==> PauseHeard(DoBegin(d, inputs, parallel), actions)))
  {
    var s0 := DoBegin(d, inputs, parallel);
    BeginKeeps(d, inputs, parallel);
    Execution(s0, actions);
    RunKeepsJobs(s0, actions);
    PausedIffHeard(s0, actions);
    hide Exec, Inv, Complete, PauseHeard, Apply;
    var s := Exec(s0, actions);
    if CanReturn(s.run.value) {
      ReturnIsGood(s);
    }
  }

  /** A pause heard by the main thread closes the run: no later action submits a job. */
  lemma {:induction false} NothingSubmittedAfterPause(s: State, actions: seq<Action>)
    requires s.run.Some? && s.run.value.closed && WithinRun(actions)
    ensures Exec(s, actions).run.Some? && Exec(s, actions).run.value.closed
    ensures Exec(s, actions).run.value.submitted == s.run.value.submitted
    decreases |actions|
  {
    if actions != [] {
      assert !actions[0].Crash? && !actions[0].Return?;
      NothingSubmittedAfterPause(Apply(s, actions[0]), actions[1..]);
    }
  }

  /** The written list is that of the records entered so far, from the first one entered on. */
  lemma {:induction false} ListFollowsRecords(s0: State, actions: seq<Action>)
    requires WithinRun(actions) && s0.run.Some?
    requires s0.run.value.collected > 0 ==> s0.disk.listed == Some(s0.run.value.records)
    ensures var s := Exec(s0, actions);
      s.run.Some? && (s.run.value.collected > 0 ==> s.disk.listed == Some(s.run.value.records))
    decreases |actions|
  {
    if actions != [] {
      assert !actions[0].Crash? && !actions[0].Return?;
      ListFollowsRecords(Apply(s0, actions[0]), actions[1..]);
    }
  }

  /** Checkpoints that a killed run left unlisted are added in job order. */
  lemma {:induction false} RecoveredInJobOrder(saved: map<nat, Combo>, inputs: Inputs, known: set<nat>, n: nat,
      i: nat, j: nat)
    requires SavedOk(saved, inputs) && i < j < |Recovered(saved, known, n)|
    ensures Recovered(saved, known, n)[i].unit < Recovered(saved, known, n)[j].unit < n
  {
    RecoveredUnits(saved, inputs, known, n - 1);
    var front := Recovered(saved, known, n - 1);
    if j < |front| {
      RecoveredInJobOrder(saved, inputs, known, n - 1, i, j);
    }
  }
}
