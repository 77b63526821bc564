// `ExperimentRunner.run` and `UnitCheckpoint` as they change the experiment directory step by
// step, proved against the machine of Experiment.dfy.
module ExperimentRunner {
  import opened Checkpoints
  import opened Models
  import opened ExperimentMachine

  type Checkpoint = UnitCheckpoint<Inputs, nat, Combo>

  /** The files of one experiment: its unit checkpoints and `experiment.json`. */
  class ExperimentDirectory {
    const files: CheckpointFiles<Inputs, nat, Combo>
    var experiment: Option<seq<Combo>>

    constructor (files: CheckpointFiles<Inputs, nat, Combo>)
      ensures this.files == files && experiment == None
    {
      this.files, experiment := files, None;
    }

    ghost function View(): Disk
      reads this, files
    {
      Disk(files.manifest, files.units, experiment)
    }
  }

  datatype Ending = InputsChanged | Paused | Finished

  /**
   * One runner on one directory.  `shouldPause(k)` answers the k-th pause question and `payload` is what
   * the combination of a job computes.
   */
  class Runner {
    const directory: ExperimentDirectory
    const inputs: Inputs
    const parallel: bool
    const shouldPause: nat -> bool
    const payload: nat -> string

    var paused: bool
    var asked: nat

    // The locals of `run`.
    var running: bool
    var records: seq<Combo>
    var jobs: seq<nat>
    var serial: bool
    var closed: bool
    var submitted: nat
    var collected: nat
    var results: map<nat, Option<Combo>>
    ghost var base: seq<Combo>
    /** What was on disk, and how many questions had been asked, when the run started. */
    ghost var savedBefore: map<nat, Combo>
    ghost var askedBefore: nat

    ghost function Now(): State
      reads this, directory, directory.files
    {
      State(directory.View(),
            if running then Some(ExperimentMachine.Run.Run(base, records, jobs, serial, closed, paused, submitted, collected, results)) else None)
    }

    constructor (directory: ExperimentDirectory, inputs: Inputs, parallel: bool, shouldPause: nat -> bool,
        payload: nat -> string)
      ensures this.directory == directory && this.inputs == inputs && this.parallel == parallel
      ensures this.shouldPause == shouldPause && this.payload == payload
      ensures !running && !paused && asked == 0
    {
      this.directory, this.inputs, this.parallel := directory, inputs, parallel;
      this.shouldPause, this.payload := shouldPause, payload;
      paused, asked, running, records, jobs, serial, closed := false, 0, false, [], [], true, false;
      submitted, collected, results := 0, 0, map[];
    }

    /** Checkpoints that are not among `before` hold what their jobs compute. */
    ghost predicate ComputedSince(before: map<nat, Combo>, saved: map<nat, Combo>) {
      forall k :: k in saved && k !in before ==> saved[k] == Combo(k, inputs, payload(k))
    }

    /** A pause question from number `from` on, before number `to`, was answered yes. */
    ghost predicate PausedSince(from: nat, to: nat) {
      exists k: nat :: from <= k < to && shouldPause(k)
    }

    lemma OneMoreQuestion(from: nat, to: nat)
      requires from <= to
      ensures PausedSince(from, to + 1) <==> PausedSince(from, to) || shouldPause(to)
    {
    }

    method PauseRequested() returns (requested: bool)
      modifies this`paused, this`asked
      ensures requested == shouldPause(old(asked)) && asked == old(asked) + 1
      ensures paused == (old(paused) || requested)
    {
      requested := shouldPause(asked);
      asked := asked + 1;
      if requested {
        paused := true;
      }
    }

    /** Adds the checkpoints that `records` misses and lists the jobs that have none. */
    method Scan(checkpoint: Checkpoint, known: set<nat>)
      requires checkpoint.root == directory.files
      modifies this`records, this`jobs
      ensures records == old(records) + Recovered(directory.files.units, known, inputs.total)
      ensures jobs == Remaining(directory.files.units, known, inputs.total)
    {
      jobs := [];
      for index := 0 to inputs.total
        invariant records == old(records) + Recovered(directory.files.units, known, index)
        invariant jobs == Remaining(directory.files.units, known, index)
      {
        if index !in known {
          var saved := checkpoint.Get(index);
          if saved.Some? {
            records := records + [saved.value];
          } else {
            jobs := jobs + [index];
          }
        }
      }
    }

    /** Everything up to the first dispatch: read the list, add unlisted checkpoints, list the other jobs. */
    method Start(checkpoint: Checkpoint)
      requires !running && !paused && checkpoint.root == directory.files && directory.files.manifest == Some(inputs)
      modifies this, directory`experiment
      ensures running && collected == submitted && !paused && asked == old(asked)
      ensures Now() == Apply(State(old(directory.View()), None), Begin(inputs, parallel))
    {
      records := if directory.experiment.Some? then directory.experiment.value else [];
      directory.experiment := Some(records);
      ghost var d := old(directory.View());
      hide Recovered, Remaining;
      Scan(checkpoint, Units(records));
      assert records == BaseOf(d, inputs.total) && jobs == JobsOf(d, inputs.total);
      hide Units, BaseOf, JobsOf;
      assert directory.View() == d.(manifest := Some(inputs), listed := Some(Written(d)));
      ChooseMode();
    }

    method ChooseMode()
      requires !running && !paused
      modifies this
      ensures running && collected == submitted && !paused && asked == old(asked)
      ensures Now() == State(old(directory.View()), Some(ExperimentMachine.Run.Run(
        old(records), old(records), old(jobs), !(parallel && |old(jobs)| > 1), false, false, 0, 0, map[])))
    {
      base, serial, closed, submitted, collected, results := records, !(parallel && |jobs| > 1), false, 0, 0, map[];
      running := true;
    }

    /** `run_combo` on one submitted job. */
    method RunCombo(checkpoint: Checkpoint, future: nat)
      requires running && checkpoint.root == directory.files && directory.files.manifest == Some(inputs)
      requires future < submitted <= |jobs| && future !in results
      modifies this`paused, this`asked, this`results, directory.files`units
      ensures asked == old(asked) + 1 && future in results
      ensures paused == (old(paused) || shouldPause(old(asked)))
      ensures var saved, unit := old(directory.files.units), jobs[future];
        directory.files.units == if shouldPause(old(asked)) then saved else saved[unit := Combo(unit, inputs, payload(unit))]
      ensures Now() == Apply(old(Now()), Work(future, shouldPause(old(asked)), payload(old(jobs[future]))))
    {
      var requested := PauseRequested();
      if requested {
        results := results[future := None];
      } else {
        var combo := Combo(jobs[future], inputs, payload(jobs[future]));
        checkpoint.Put(jobs[future], combo);
        results := results[future := Some(combo)];
      }
    }

    /** One turn of a submission loop: ask for a pause, else submit the next job. */
    method SubmitNext()
      requires running && !closed && submitted < |jobs| && (serial ==> collected == submitted)
      modifies this`paused, this`asked, this`submitted, this`closed
      ensures asked == old(asked) + 1
      ensures paused == (old(paused) || shouldPause(old(asked)))
      ensures Now() == Apply(old(Now()), Submit(shouldPause(old(asked))))
    {
      var requested := PauseRequested();
      if requested {
        closed := true;
      } else {
        submitted := submitted + 1;
      }
    }

    /** Enters the next finished future and rewrites the list. */
    method CollectNext()
      requires running && collected < submitted && collected in results
      requires serial || closed || submitted == |jobs|
      modifies this`records, this`collected, directory`experiment
      ensures Now() == Apply(old(Now()), Collect)
    {
      var combo := results[collected];
      if combo.Some? {
        records := records + [combo.value];
      }
      directory.experiment := Some(records);
      collected := collected + 1;
    }

    /** `s` is a state of the run started from `s0`. */
    ghost predicate Continues(s0: State, s: State) {
      Inv(s0) && Inv(s) && SameRun(s0, s) && Grows(s0.disk, s.disk)
    }

    /** The runner is in the run started from `s0`. */
    ghost predicate OnTrack(s0: State)
      reads this, directory, directory.files
    {
      && running && directory.files.manifest == Some(inputs) && Continues(s0, Now())
      && collected <= submitted <= |jobs|
      && ComputedSince(savedBefore, directory.files.units)
      && askedBefore <= asked && (paused <==> PausedSince(askedBefore, asked))
    }

    lemma StepShape(s: State, a: Action)
      requires Inv(s) && s.run.Some? && !a.Crash? && !a.Return?
      ensures Apply(s, a).run.Some?
      ensures var run := Apply(s, a).run.value; run.collected <= run.submitted <= |run.jobs|
    {
      ApplyKeeps(s, a);
      hide Split, Ascending, Mirror, Backed, SavedOk, Outcomes, Skipped;
    }

    lemma OneStep(s0: State, s: State, a: Action)
      requires Continues(s0, s) && !a.Crash? && !a.Return?
      ensures Continues(s0, Apply(s, a))
      ensures var run := Apply(s, a).run.value; run.collected <= run.submitted <= |run.jobs|
    {
      StepShape(s, a);
      hide Inv, Apply;
      ApplyKeeps(s, a);
      StepGrows(s, a);
      RunKeepsJobs(s, [a]);
      assert Exec(s, [a]) == Apply(s, a) by { assert Exec(Apply(s, a), [a][1..]) == Apply(s, a); }
    }

    /** A submitted future runs now, unless it has already finished. */
    method WorkNow(checkpoint: Checkpoint, future: nat, ghost s0: State)
      requires OnTrack(s0) && checkpoint.root == directory.files && future < submitted
      modifies this`paused, this`asked, this`results, directory.files`units
      ensures OnTrack(s0) && future in results
    {
      if future !in results {
        ghost var before, step := Now(), Work(future, shouldPause(asked), payload(jobs[future]));
        OneMoreQuestion(askedBefore, asked);
        hide Inv, PausedSince, ComputedSince;
        RunCombo(checkpoint, future);
        OneStep(s0, before, step);
      }
    }

    /** The pool's workers: each of these futures that is submitted and unfinished runs now. */
    method PoolWorks(checkpoint: Checkpoint, futures: seq<nat>, ghost s0: State)
      requires OnTrack(s0) && checkpoint.root == directory.files
      modifies this`paused, this`asked, this`results, directory.files`units
      ensures OnTrack(s0)
    {
      hide Continues;
      for k := 0 to |futures|
        invariant OnTrack(s0)
      {
        if futures[k] < submitted {
          WorkNow(checkpoint, futures[k], s0);
        }
      }
    }

    method SubmitNow(ghost s0: State)
      requires OnTrack(s0) && !closed && submitted < |jobs| && (serial ==> collected == submitted)
      modifies this`paused, this`asked, this`submitted, this`closed
      ensures OnTrack(s0)
      ensures if closed then submitted == old(submitted) else submitted == old(submitted) + 1
    {
      ghost var before, step := Now(), Submit(shouldPause(asked));
      OneMoreQuestion(askedBefore, asked);
      hide Inv, PausedSince, ComputedSince;
      SubmitNext();
      OneStep(s0, before, step);
    }

    method CollectNow(ghost s0: State)
      requires OnTrack(s0) && collected < submitted && collected in results
      requires serial || closed || submitted == |jobs|
      modifies this`records, this`collected, directory`experiment
      ensures OnTrack(s0) && collected == old(collected) + 1
    {
      ghost var before := Now();
      hide Inv, PausedSince, ComputedSince;
      CollectNext();
      OneStep(s0, before, Collect);
    }

    /** Submits every job to the pool, whose workers run meanwhile, until a pause is asked for. */
    method SubmitAll(checkpoint: Checkpoint, pool: nat -> seq<nat>, ghost s0: State)
      requires OnTrack(s0) && !serial && checkpoint.root == directory.files
      modifies this`paused, this`asked, this`results, this`submitted, this`closed, directory.files`units
      ensures OnTrack(s0) && (closed || submitted == |jobs|)
    {
      hide Continues;
      while !closed && submitted < |jobs|
        invariant OnTrack(s0) && !serial
        decreases |jobs| - submitted, !closed
      {
        PoolWorks(checkpoint, pool(asked), s0);
        SubmitNow(s0);
      }
    }

    /** Reads the futures in submission order, each when it has finished. */
    method CollectAll(checkpoint: Checkpoint, pool: nat -> seq<nat>, ghost s0: State)
      requires OnTrack(s0) && checkpoint.root == directory.files && (closed || submitted == |jobs|)
      modifies this`paused, this`asked, this`results, this`submitted, this`closed, this`collected, this`records
      modifies directory`experiment, directory.files`units
      ensures OnTrack(s0) && CanReturn(Now().run.value)
    {
      hide Continues;
      while collected < submitted
        invariant OnTrack(s0) && (closed || submitted == |jobs|)
        decreases submitted - collected
      {
        PoolWorks(checkpoint, pool(asked), s0);
        WorkNow(checkpoint, collected, s0);
        CollectNow(s0);
      }
    }

    /** The serial loop: ask, run the job, enter its combination. */
    method RunSerially(checkpoint: Checkpoint, ghost s0: State)
      requires OnTrack(s0) && serial && checkpoint.root == directory.files && collected == submitted
      modifies this`paused, this`asked, this`results, this`submitted, this`closed, this`collected, this`records
      modifies directory`experiment, directory.files`units
      ensures OnTrack(s0) && CanReturn(Now().run.value)
    {
      hide Continues;
      while !closed && submitted < |jobs|
        invariant OnTrack(s0) && serial && collected == submitted
        decreases |jobs| - submitted, !closed
      {
        SubmitNow(s0);
        if !closed {
          WorkNow(checkpoint, collected, s0);
          CollectNow(s0);
        }
      }
    }

    method StartRun(checkpoint: Checkpoint, ghost d: Disk) returns (ghost s0: State)
      requires !running && !paused && checkpoint.root == directory.files
      requires DiskOk(d) && !Refused(d, inputs) && directory.View() == d.(manifest := Some(inputs))
      modifies this, directory`experiment
      ensures OnTrack(s0) && collected == submitted
      ensures s0 == Now() == DoBegin(d, inputs, parallel)
      ensures serial <==> !parallel || |jobs| <= 1
      ensures savedBefore == old(directory.files.units) && askedBefore == asked == old(asked)
    {
      Start(checkpoint);
      savedBefore, askedBefore := directory.files.units, asked;
      s0 := Now();
      BeginKeeps(d, inputs, parallel);
    }

    lemma Returns(d: Disk, s0: State, s: State)
      requires DiskOk(d) && !Refused(d, inputs) && s0 == DoBegin(d, inputs, parallel)
      requires Continues(s0, s) && CanReturn(s.run.value)
      ensures DiskOk(Apply(s, Return).disk) && Grows(d, s.disk) && s.disk.manifest == Some(inputs)
      ensures GoodReturn(s.run.value.records, s.run.value.paused, inputs)
      ensures !s.run.value.paused ==> InJobOrder(s.run.value.records, d, s.disk.saved, inputs.total)
    {
      hide RunOk, DiskOk, GoodReturn, BaseOf, JobsOf, CanReturn, InJobOrder;
      ReturnIsGood(s);
      ReturnKeeps(s);
      InOrder(d, s0, s);
    }

    lemma InOrder(d: Disk, s0: State, s: State)
      requires s0 == DoBegin(d, inputs, parallel) && Continues(s0, s) && CanReturn(s.run.value)
      ensures !s.run.value.paused ==> InJobOrder(s.run.value.records, d, s.disk.saved, inputs.total)
    {
      hide RunOk, DiskOk, BaseOf, JobsOf, CanReturn;
      if !s.run.value.paused {
        StartsWith(s.run.value, s.disk);
        FinishedList(s.run.value, s.disk);
      }
    }

    method FinishRun(ghost d: Disk, ghost s0: State) returns (ending: Ending)
      requires OnTrack(s0) && CanReturn(Now().run.value)
      requires DiskOk(d) && !Refused(d, inputs) && s0 == DoBegin(d, inputs, parallel)
      modifies this, directory, directory.files
      ensures !ending.InputsChanged? && !running
      ensures DiskOk(directory.View()) && Grows(d, directory.View())
      ensures directory.files.manifest == Some(inputs) && directory.experiment.Some?
      ensures GoodReturn(directory.experiment.value, ending.Paused?, inputs)
      ensures ending.Finished? ==> InJobOrder(directory.experiment.value, d, directory.files.units, inputs.total)
      ensures asked == old(asked)
      ensures ending.Paused? <==> PausedSince(old(askedBefore), asked)
      ensures ComputedSince(old(savedBefore), directory.files.units)
    {
      ghost var s := Now();
      hide RunOk, SavedOk, Backed, BaseOf, JobsOf, PausedSince, ComputedSince;
      Returns(d, s0, s);
      directory.experiment := Some(records);
      running := false;
      ending := if paused then Paused else Finished;
      hide Continues, DiskOk, GoodReturn, DoBegin, InJobOrder;
      assert Now() == Apply(s, Return);
    }

    /** All of `run`.  `pool(k)` names the workers that finish around the k-th pause question. */
    method Run(pool: nat -> seq<nat>) returns (ending: Ending)
      requires !running && !paused && DiskOk(directory.View())
      modifies this, directory, directory.files
      ensures ending.InputsChanged? <==> Refused(old(directory.View()), inputs)
      ensures ending.InputsChanged? ==> directory.View() == old(directory.View())
      ensures !ending.InputsChanged? ==>
        && DiskOk(directory.View()) && Grows(old(directory.View()), directory.View())
        && directory.files.manifest == Some(inputs) && directory.experiment.Some?
        && GoodReturn(directory.experiment.value, ending.Paused?, inputs)
      ensures ending.Finished? ==>
        InJobOrder(directory.experiment.value, old(directory.View()), directory.files.units, inputs.total)
      ensures ComputedSince(old(directory.files.units), directory.files.units)
      ensures ending.Paused? <==> PausedSince(old(asked), asked)
    {
      ghost var d := directory.View();
      var checkpoint := UnitCheckpoint.Open(directory.files, inputs);
      if checkpoint.None? {
        return InputsChanged;
      }
      ghost var s0 := StartRun(checkpoint.value, d);
      hide Continues, DiskOk, Grows, GoodReturn, DoBegin, ComputedSince, PausedSince;
      if serial {
        RunSerially(checkpoint.value, s0);
      } else {
        SubmitAll(checkpoint.value, pool, s0);
        CollectAll(checkpoint.value, pool, s0);
      }
      ending := FinishRun(d, s0);
    }
  }

  /** The records the directory held at the start, then the other jobs by index. */
  ghost predicate InJobOrder(records: seq<Combo>, d: Disk, saved: map<nat, Combo>, total: nat) {
    var base, jobs := BaseOf(d, total), JobsOf(d, total);
    && |records| == |base| + |jobs| && records[..|base|] == base
    && forall i: nat :: i < |jobs| ==> jobs[i] in saved && records[|base| + i] == saved[jobs[i]]
  }
}
