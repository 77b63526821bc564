// Evaluation without the task service: strategies in order, problems in order, each result checkpointed
// before it is settled, and a ledger that stops the run at the cap and is rebuilt from the checkpoints on
// resume.
//
// An attempt is first a function of what it meets (pause requests, the fate of every unit); its theorems
// follow, over any number of attempts and with strategies or problems that repeat; at the end stands the run
// as it updates list, ledger and disk in place, proved to be that function.
module HarnessRun {
  import opened Checkpoints
  import opened Models
  import opened CostStrategy

  /** What a run does: `strategies` by configuration fingerprint, times `problems` by id, under a cap. */
  datatype Plan = Plan(strategies: seq<string>, problems: seq<string>, cap: Option<real>)

  type Key = (string, string)

  function Total(plan: Plan): nat {
    |plan.strategies| * |plan.problems|
  }

  function KeyAt(plan: Plan, s: nat, p: nat): Key
    requires s < |plan.strategies| && p < |plan.problems|
  {
    (plan.strategies[s], plan.problems[p])
  }

  /** Units are numbered strategy by strategy. */
  function Position(plan: Plan, s: nat, p: nat): nat {
    s * |plan.problems| + p
  }

  /** Two places have different numbers. */
  lemma PlacesDiffer(n: nat, s: nat, p: nat, s': nat, p': nat)
    requires p < n && p' < n
    ensures s < s' ==> s * n + p < s' * n + p'
    ensures s' < s ==> s' * n + p' < s * n + p
  {
    if s < s' {
      assert s' * n >= (s + 1) * n;
    } else if s' < s {
      assert s * n >= (s' + 1) * n;
    }
  }

  lemma Divides(n: nat, s: nat, p: nat)
    requires p < n
    ensures (s * n + p) / n == s && (s * n + p) % n == p
  {
    var i := s * n + p;
    assert i == (i / n) * n + i % n;
    PlacesDiffer(n, s, p, i / n, i % n);
  }

  lemma InPlan(plan: Plan, i: nat)
    requires i < Total(plan)
    ensures |plan.problems| > 0 && i / |plan.problems| < |plan.strategies|
  {
    var n := |plan.problems|;
    assert n > 0;
    assert i == (i / n) * n + i % n;
    PlacesDiffer(n, |plan.strategies|, 0, i / n, i % n);
  }

  /** The checkpoint that unit `i` goes by. */
  function KeyOf(plan: Plan, i: nat): Key
    requires i < Total(plan)
  {
    InPlan(plan, i);
    KeyAt(plan, i / |plan.problems|, i % |plan.problems|)
  }

  /** The first unit that goes by the same checkpoint; the unit itself unless a strategy or a problem is repeated. */
  function FirstOf(plan: Plan, i: nat): (j: nat)
    requires i < Total(plan)
    ensures j <= i && KeyOf(plan, j) == KeyOf(plan, i)
    ensures forall k: nat :: k < j ==> KeyOf(plan, k) != KeyOf(plan, i)
  {
    FirstFrom(plan, i, 0)
  }

  function FirstFrom(plan: Plan, i: nat, from: nat): (j: nat)
    requires from <= i < Total(plan) && forall k: nat :: k < from ==> KeyOf(plan, k) != KeyOf(plan, i)
    ensures j <= i && KeyOf(plan, j) == KeyOf(plan, i)
    ensures forall k: nat :: k < j ==> KeyOf(plan, k) != KeyOf(plan, i)
    decreases i - from
  {
    if KeyOf(plan, from) == KeyOf(plan, i) then from else FirstFrom(plan, i, from + 1)
  }

  /** The first unit of a strategy that is not the first: before it the ledger alone can pause the run. */
  predicate Boundary(plan: Plan, i: nat)
    requires i < Total(plan)
  {
    InPlan(plan, i);
    i > 0 && i % |plan.problems| == 0
  }

  /** The cap is consulted before unit `i`. */
  predicate Consulted(plan: Plan, i: nat)
    requires i < Total(plan)
  {
    Boundary(plan, i) || FirstOf(plan, i) == i
  }

  /** How the worker of a unit ends: with a result (also when a problem's budget is exhausted), or with the process. */
  datatype Fate = Ends(result: ExecutionResult) | Dies

  /** What one attempt meets at each unit: a pause request when asked, and the unit's fate. */
  datatype World = World(pause: nat -> bool, fate: nat -> Fate)

  datatype Ending = Finished | Paused | Died

  function Spent(results: seq<ExecutionResult>): (cost: real)
    ensures cost >= 0.0
  {
    if results == [] then 0.0 else Spent(results[..|results| - 1]) + KnownCost(results[|results| - 1])
  }

  predicate OverCap(plan: Plan, results: seq<ExecutionResult>) {
    plan.cap.Some? && Spent(results) >= plan.cap.value
  }

  /**
   * One attempt from the durable results `done`: the results it leaves, and how it ends.  A unit whose
   * checkpoint an earlier unit has written takes that result, and nothing is asked.
   */
  function Attempt(plan: Plan, done: seq<ExecutionResult>, w: World): (seq<ExecutionResult>, Ending)
    requires |done| <= Total(plan)
    decreases Total(plan) - |done|
  {
    var i := |done|;
    if i == Total(plan) then (done, Finished)
    else if Boundary(plan, i) && OverCap(plan, done) then (done, Paused)
    else if FirstOf(plan, i) < i then Attempt(plan, done + [done[FirstOf(plan, i)]], w)
    else if OverCap(plan, done) || w.pause(i) then (done, Paused)
    else
      match w.fate(i)
      case Dies => (done, Died)
      case Ends(result) => Attempt(plan, done + [result], w)
  }

  /** Whether the attempt goes on past the first unit that has no result yet, and with which result. */
  function NextResult(plan: Plan, done: seq<ExecutionResult>, w: World): Option<ExecutionResult>
    requires |done| <= Total(plan)
  {
    var i := |done|;
    if i == Total(plan) || (Boundary(plan, i) && OverCap(plan, done)) then None
    else if FirstOf(plan, i) < i then Some(done[FirstOf(plan, i)])
    else if OverCap(plan, done) || w.pause(i) || w.fate(i).Dies? then None
    else Some(w.fate(i).result)
  }

  /** Any number of attempts, each resuming what the last one left. */
  function Attempts(plan: Plan, done: seq<ExecutionResult>, worlds: seq<World>): seq<ExecutionResult>
    requires |done| <= Total(plan)
    decreases |worlds|
  {
    if worlds == [] then done
    else
      AttemptExtends(plan, done, worlds[0]);
      Attempts(plan, Attempt(plan, done, worlds[0]).0, worlds[1..])
  }

  // -- What an attempt does --------------------------------------------------

  /** What an attempt may leave at place `i` of the results `after`: the result of the unit it repeats, or its worker's. */
  ghost predicate Entered(plan: Plan, after: seq<ExecutionResult>, i: nat, w: World)
    requires i < |after| <= Total(plan)
  {
    && !(Boundary(plan, i) && OverCap(plan, after[..i]))
    && (if FirstOf(plan, i) < i then after[i] == after[FirstOf(plan, i)]
        else !OverCap(plan, after[..i]) && !w.pause(i) && w.fate(i) == Ends(after[i]))
  }

  /** Why an attempt ends with the results `after`. */
  ghost predicate EndsFor(plan: Plan, after: seq<ExecutionResult>, ending: Ending, w: World)
    requires |after| <= Total(plan)
  {
    var n := |after|;
    match ending
    case Finished => n == Total(plan)
    case Paused =>
      && n < Total(plan)
      && ((Boundary(plan, n) && OverCap(plan, after)) || (FirstOf(plan, n) == n && (OverCap(plan, after) || w.pause(n))))
    case Died => n < Total(plan) && FirstOf(plan, n) == n && !OverCap(plan, after) && !w.pause(n) && w.fate(n).Dies?
  }

  /**
   * Exactly what an attempt does: place by place, a unit takes the result it repeats or the one its worker
   * ends with, while neither the cap nor a request stops it; and the first place where that fails ends it.
   */
  lemma {:induction false} AttemptLaw(plan: Plan, done: seq<ExecutionResult>, w: World)
    requires |done| <= Total(plan)
    ensures var (after, ending) := Attempt(plan, done, w);
      && done <= after && |after| <= Total(plan)
      && (forall i: nat :: |done| <= i < |after| ==> Entered(plan, after, i, w))
      && EndsFor(plan, after, ending, w)
    decreases Total(plan) - |done|
  {
    hide Boundary, FirstFrom, OverCap, Total;
    var next, i := NextResult(plan, done, w), |done|;
    if next.Some? {
      AttemptLaw(plan, done + [next.value], w);
      var after := Attempt(plan, done + [next.value], w).0;
      assert after[..i] == done && after[i] == next.value;
      assert Entered(plan, after, i, w);
    }
  }

  /** The spent cost adds up over the results. */
  lemma {:induction false} SpentAddsUp(a: seq<ExecutionResult>, b: seq<ExecutionResult>)
    ensures Spent(a + b) == Spent(a) + Spent(b)
    ensures forall r :: Spent([r]) == KnownCost(r)
  {
    forall r ensures Spent([r]) == KnownCost(r) {
      assert [r][..0] == [];
    }
    if b == [] {
      assert a + b == a;
    } else {
      assert (a + b)[..|a + b| - 1] == a + b[..|b| - 1];
      SpentAddsUp(a, b[..|b| - 1]);
    }
  }

  // -- Histories -------------------------------------------------------------

  /** An attempt only appends. */
  lemma {:induction false} AttemptExtends(plan: Plan, done: seq<ExecutionResult>, w: World)
    requires |done| <= Total(plan)
    ensures done <= Attempt(plan, done, w).0 && |Attempt(plan, done, w).0| <= Total(plan)
    decreases Total(plan) - |done|
  {
    var next := NextResult(plan, done, w);
    if next.Some? {
      AttemptExtends(plan, done + [next.value], w);
    }
  }

  /** Wherever the cap was consulted, the results before were below it; repeated units share one result. */
  ghost predicate Guarded(plan: Plan, done: seq<ExecutionResult>) {
    && |done| <= Total(plan)
    && (forall i: nat :: i < |done| ==> Consulted(plan, i) ==> !OverCap(plan, done[..i]))
    && (forall i: nat :: i < |done| ==> done[i] == done[FirstOf(plan, i)])
  }

  lemma GuardedGrows(plan: Plan, done: seq<ExecutionResult>, result: ExecutionResult)
    requires Guarded(plan, done) && |done| < Total(plan) && (Consulted(plan, |done|) ==> !OverCap(plan, done))
    requires FirstOf(plan, |done|) < |done| ==> result == done[FirstOf(plan, |done|)]
    ensures Guarded(plan, done + [result])
  {
    var more := done + [result];
    forall i: nat | i < |more| ensures Consulted(plan, i) ==> !OverCap(plan, more[..i]) {
      assert more[..i] == if i < |done| then done[..i] else done;
    }
  }

  lemma {:induction false} AttemptIsGuarded(plan: Plan, done: seq<ExecutionResult>, w: World)
    requires Guarded(plan, done)
    ensures Guarded(plan, Attempt(plan, done, w).0)
    decreases Total(plan) - |done|
  {
    var next := NextResult(plan, done, w);
    if next.Some? {
      GuardedGrows(plan, done, next.value);
      AttemptIsGuarded(plan, done + [next.value], w);
    }
  }

  /** Once recorded, a result stays at its place through every later attempt, and its unit is never run again. */
  lemma {:induction false} AttemptsExtend(plan: Plan, done: seq<ExecutionResult>, worlds: seq<World>)
    requires Guarded(plan, done)
    ensures done <= Attempts(plan, done, worlds) && Guarded(plan, Attempts(plan, done, worlds))
    decreases |worlds|
  {
    if worlds != [] {
      AttemptExtends(plan, done, worlds[0]);
      AttemptIsGuarded(plan, done, worlds[0]);
      AttemptsExtend(plan, Attempt(plan, done, worlds[0]).0, worlds[1..]);
    }
  }

  /** No result of any attempt costs more than `c`. */
  ghost predicate CostsWithin(w: World, c: real) {
    forall i: nat :: w.fate(i).Ends? ==> KnownCost(w.fate(i).result) <= c
  }

  ghost predicate EachWithin(results: seq<ExecutionResult>, c: real) {
    forall i :: 0 <= i < |results| ==> KnownCost(results[i]) <= c
  }

  lemma {:induction false} AttemptWithin(plan: Plan, done: seq<ExecutionResult>, w: World, c: real)
    requires |done| <= Total(plan) && EachWithin(done, c) && CostsWithin(w, c)
    ensures EachWithin(Attempt(plan, done, w).0, c)
    decreases Total(plan) - |done|
  {
    var next := NextResult(plan, done, w);
    if next.Some? {
      AttemptWithin(plan, done + [next.value], w, c);
    }
  }

  lemma {:induction false} AttemptsWithin(plan: Plan, done: seq<ExecutionResult>, worlds: seq<World>, c: real)
    requires |done| <= Total(plan) && EachWithin(done, c) && forall k :: 0 <= k < |worlds| ==> CostsWithin(worlds[k], c)
    ensures EachWithin(Attempts(plan, done, worlds), c)
    decreases |worlds|
  {
    if worlds != [] {
      AttemptExtends(plan, done, worlds[0]);
      AttemptWithin(plan, done, worlds[0], c);
      AttemptsWithin(plan, Attempt(plan, done, worlds[0]).0, worlds[1..], c);
    }
  }

  /** The cost of the checkpoints: each unit once, however often the list repeats it. */
  function Checkpointed(plan: Plan, results: seq<ExecutionResult>): (cost: real)
    requires |results| <= Total(plan)
    ensures cost <= Spent(results)
  {
    if results == [] then 0.0
    else
      var n := |results| - 1;
      Checkpointed(plan, results[..n]) + if FirstOf(plan, n) == n then KnownCost(results[n]) else 0.0
  }

  /** Over any crashes, pauses and resumes the known cost of what was run stays below the cap plus one unit. */
  lemma SpendingBound(plan: Plan, worlds: seq<World>, c: real)
    requires plan.cap.Some? && plan.cap.value > 0.0 && c >= 0.0
    requires forall k :: 0 <= k < |worlds| ==> CostsWithin(worlds[k], c)
    ensures |Attempts(plan, [], worlds)| <= Total(plan)
    ensures Checkpointed(plan, Attempts(plan, [], worlds)) < plan.cap.value + c
  {
    AttemptsExtend(plan, [], worlds);
    AttemptsWithin(plan, [], worlds, c);
    GuardedSpending(plan, Attempts(plan, [], worlds), c);
  }

  lemma {:induction false} GuardedSpending(plan: Plan, done: seq<ExecutionResult>, c: real)
    requires plan.cap.Some? && plan.cap.value > 0.0 && c >= 0.0 && Guarded(plan, done) && EachWithin(done, c)
    ensures Checkpointed(plan, done) < plan.cap.value + c
  {
    if done != [] {
      var n := |done| - 1;
      GuardedFront(plan, done);
      hide Guarded, Consulted, FirstFrom, Total;
      GuardedSpending(plan, done[..n], c);
      assert KnownCost(done[n]) <= c;
    }
  }

  lemma GuardedFront(plan: Plan, done: seq<ExecutionResult>)
    requires Guarded(plan, done) && done != []
    ensures Guarded(plan, done[..|done| - 1])
    ensures |done| - 1 < Total(plan) && (FirstOf(plan, |done| - 1) == |done| - 1 ==> !OverCap(plan, done[..|done| - 1]))
  {
    var front := done[..|done| - 1];
    hide OverCap, FirstFrom;
    forall i: nat | i < |front| ensures Consulted(plan, i) ==> !OverCap(plan, front[..i]) {
      assert front[..i] == done[..i];
    }
  }

  // -- Pausing ---------------------------------------------------------------

  /** An attempt that returns has paused exactly if it has not entered all results. */
  lemma {:induction false} PausedIffIncomplete(plan: Plan, done: seq<ExecutionResult>, w: World)
    requires |done| <= Total(plan) && !Attempt(plan, done, w).1.Died?
    ensures Attempt(plan, done, w).1.Paused? <==> |Attempt(plan, done, w).0| < Total(plan)
    decreases Total(plan) - |done|
  {
    var next := NextResult(plan, done, w);
    if next.Some? {
      PausedIffIncomplete(plan, done + [next.value], w);
    }
  }

  /** Some unit has no checkpoint. */
  ghost predicate Missing(plan: Plan, done: seq<ExecutionResult>)
    requires |done| <= Total(plan)
  {
    exists i: nat :: i < Total(plan) && FirstOf(plan, i) >= |done|
  }

  /**
   * A pause with nothing left to run: exactly when the attempt stopped short and all units after that repeat
   * earlier ones.
   */
  lemma PausedForNothing(plan: Plan, done: seq<ExecutionResult>, w: World)
    requires |done| <= Total(plan) && !Attempt(plan, done, w).1.Died?
    ensures |Attempt(plan, done, w).0| <= Total(plan)
    ensures var (after, ending) := Attempt(plan, done, w);
      && (Missing(plan, after) ==> ending.Paused?)
      && (ending.Paused? && !Missing(plan, after) <==>
            |after| < Total(plan) && forall i: nat :: |after| <= i < Total(plan) ==> FirstOf(plan, i) < |after|)
  {
    AttemptExtends(plan, done, w);
    PausedIffIncomplete(plan, done, w);
  }

  /** No two strategies or problems share an identity. */
  ghost predicate Distinct(plan: Plan) {
    && (forall i, j :: 0 <= i < j < |plan.strategies| ==> plan.strategies[i] != plan.strategies[j])
    && (forall i, j :: 0 <= i < j < |plan.problems| ==> plan.problems[i] != plan.problems[j])
  }

  lemma DistinctUnits(plan: Plan, i: nat)
    requires Distinct(plan) && i < Total(plan)
    ensures FirstOf(plan, i) == i
  {
    var j, n := FirstOf(plan, i), |plan.problems|;
    InPlan(plan, i);
    InPlan(plan, j);
    assert plan.strategies[j / n] == plan.strategies[i / n] && plan.problems[j % n] == plan.problems[i % n];
    assert j / n == i / n && j % n == i % n;
    assert j == (j / n) * n + j % n && i == (i / n) * n + i % n;
  }

  /** So with distinct strategies and problems an attempt that returns is paused exactly if some unit has no checkpoint. */
  lemma PausedIffMissing(plan: Plan, done: seq<ExecutionResult>, w: World)
    requires Distinct(plan) && |done| <= Total(plan) && !Attempt(plan, done, w).1.Died?
    ensures |Attempt(plan, done, w).0| <= Total(plan)
    ensures Attempt(plan, done, w).1.Paused? <==> Missing(plan, Attempt(plan, done, w).0)
  {
    PausedForNothing(plan, done, w);
    var after := Attempt(plan, done, w).0;
    hide Attempt, FirstOf;
    if |after| < Total(plan) {
      DistinctUnits(plan, |after|);
    }
  }

  // -- Where the cap stops ---------------------------------------------------

  /** Where the cap stops a run whose units give these results: the first place it is consulted at or above it, or the end. */
  ghost predicate StopsAt(plan: Plan, results: seq<ExecutionResult>, stop: nat) {
    && stop <= |results| == Total(plan)
    && (forall i: nat :: i < stop ==> Consulted(plan, i) ==> !OverCap(plan, results[..i]))
    && (stop < Total(plan) ==> Consulted(plan, stop) && OverCap(plan, results[..stop]))
  }

  /** Repeated units share one result. */
  ghost predicate Shared(plan: Plan, results: seq<ExecutionResult>) {
    |results| == Total(plan) && forall i: nat :: i < |results| ==> results[i] == results[FirstOf(plan, i)]
  }

  /** A world without pause requests whose units, when they end, give these results. */
  ghost predicate Yields(w: World, results: seq<ExecutionResult>) {
    forall i: nat :: !w.pause(i) && (i < |results| && w.fate(i).Ends? ==> w.fate(i).result == results[i])
  }

  lemma {:induction false} AttemptStops(plan: Plan, results: seq<ExecutionResult>, stop: nat,
      done: seq<ExecutionResult>, w: World)
    requires StopsAt(plan, results, stop) && Shared(plan, results) && Yields(w, results)
    requires |done| <= stop && done == results[..|done|]
    ensures var (after, ending) := Attempt(plan, done, w);
      && |after| <= stop && after == results[..|after|] && (!ending.Died? ==> |after| == stop)
    decreases stop - |done|
  {
    var i := |done|;
    assert !w.pause(i);
    if i < stop {
      assert Consulted(plan, i) ==> !OverCap(plan, results[..i]);
      var next := NextResult(plan, done, w);
      if next.Some? {
        assert next.value == results[i];
        assert done + [results[i]] == results[..i + 1];
        AttemptStops(plan, results, stop, results[..i + 1], w);
      }
    }
  }

  /** Crashes do not move the stop: whatever attempts died before, one that returns stops where an unbroken run does. */
  lemma CrashesDoNotMoveTheStop(plan: Plan, results: seq<ExecutionResult>, stop: nat, worlds: seq<World>, last: World)
    requires StopsAt(plan, results, stop) && Shared(plan, results)
    requires Yields(last, results) && forall k :: 0 <= k < |worlds| ==> Yields(worlds[k], results)
    ensures var done := Attempts(plan, [], worlds);
      && |done| <= Total(plan)
      && (!Attempt(plan, done, last).1.Died? ==> Attempt(plan, done, last).0 == results[..stop])
  {
    AttemptsStop(plan, results, stop, [], worlds);
    AttemptStops(plan, results, stop, Attempts(plan, [], worlds), last);
  }

  lemma {:induction false} AttemptsStop(plan: Plan, results: seq<ExecutionResult>, stop: nat,
      done: seq<ExecutionResult>, worlds: seq<World>)
    requires StopsAt(plan, results, stop) && Shared(plan, results) && |done| <= stop && done == results[..|done|]
    requires forall k :: 0 <= k < |worlds| ==> Yields(worlds[k], results)
    ensures var after := Attempts(plan, done, worlds); |after| <= stop && after == results[..|after|]
    decreases |worlds|
  {
    if worlds != [] {
      AttemptStops(plan, results, stop, done, worlds[0]);
      AttemptsStop(plan, results, stop, Attempt(plan, done, worlds[0]).0, worlds[1..]);
    }
  }

  /** Whatever the units cost, there is one place where the cap stops the run. */
  lemma StopExists(plan: Plan, results: seq<ExecutionResult>) returns (stop: nat)
    requires |results| == Total(plan)
    ensures StopsAt(plan, results, stop)
    ensures forall other :: StopsAt(plan, results, other) ==> other == stop
  {
    hide OverCap, Consulted, Total;
    stop := 0;
    while stop < Total(plan) && !(Consulted(plan, stop) && OverCap(plan, results[..stop]))
      invariant stop <= Total(plan)
      invariant forall i: nat :: i < stop ==> Consulted(plan, i) ==> !OverCap(plan, results[..i])
    {
      stop := stop + 1;
    }
  }

  // -- Pausing with nothing left to run --------------------------------------

  /** The last strategy also occurs earlier in the list, there are problems, and there is a cap. */
  predicate LastRepeats(plan: Plan) {
    && plan.cap.Some? && plan.problems != [] && plan.strategies != []
    && plan.strategies[|plan.strategies| - 1] in plan.strategies[..|plan.strategies| - 1]
  }

  /** The attempt pauses although every unit has a checkpoint. */
  ghost predicate PausesForNothing(plan: Plan, done: seq<ExecutionResult>, w: World)
    requires |done| <= Total(plan)
  {
    AttemptExtends(plan, done, w);
    Attempt(plan, done, w).1.Paused? && !Missing(plan, Attempt(plan, done, w).0)
  }

  /** A pause is at the start of a strategy with the ledger at the cap, or at a unit that is no repetition. */
  lemma {:induction false} PausePlace(plan: Plan, done: seq<ExecutionResult>, w: World)
    requires |done| <= Total(plan) && Attempt(plan, done, w).1.Paused?
    ensures var after := Attempt(plan, done, w).0;
      && |after| < Total(plan)
      && ((Boundary(plan, |after|) && OverCap(plan, after)) || FirstOf(plan, |after|) == |after|)
    decreases Total(plan) - |done|
  {
    var next := NextResult(plan, done, w);
    if next.Some? {
      PausePlace(plan, done + [next.value], w);
    }
  }

  /** The first unit of the last strategy. */
  function LastStart(plan: Plan): nat
    requires plan.strategies != []
  {
    Position(plan, |plan.strategies| - 1, 0)
  }

  /** A pause for nothing is at the start of a strategy, after every unit that is no repetition. */
  lemma PauseIsAtBoundary(plan: Plan, done: seq<ExecutionResult>, w: World) returns (at: nat)
    requires |done| <= Total(plan) && PausesForNothing(plan, done, w)
    ensures plan.cap.Some? && at < Total(plan) && Boundary(plan, at)
    ensures forall i: nat :: i < Total(plan) ==> FirstOf(plan, i) < at
  {
    hide Attempt, Boundary, FirstOf;
    PausePlace(plan, done, w);
    at := |Attempt(plan, done, w).0|;
    assert FirstOf(plan, at) < at;
  }

  /** A strategy that is not the first starts no later than the last one. */
  lemma BoundaryBeforeLast(plan: Plan, at: nat)
    requires at < Total(plan) && Boundary(plan, at)
    ensures plan.problems != [] && plan.strategies != [] && at <= LastStart(plan) < Total(plan)
  {
    var last, n := |plan.strategies| - 1, |plan.problems|;
    InPlan(plan, at);
    PlaceOf(plan, last, 0);
    assert at == (at / n) * n;
    PlacesDiffer(n, last, 0, at / n, 0);
  }

  /** Any attempt that pauses for nothing belongs to a plan whose last strategy repeats. */
  lemma PausedPlanRepeats(plan: Plan, done: seq<ExecutionResult>, w: World)
    requires |done| <= Total(plan) && PausesForNothing(plan, done, w)
    ensures LastRepeats(plan)
  {
    hide PausesForNothing, Total, Boundary, FirstFrom, KeyOf, LastStart;
    var at := PauseIsAtBoundary(plan, done, w);
    BoundaryBeforeLast(plan, at);
    FirstIsEarlier(plan, FirstOf(plan, LastStart(plan)));
  }

  lemma FirstIsEarlier(plan: Plan, first: nat)
    requires plan.strategies != [] && plan.problems != [] && first < LastStart(plan) < Total(plan)
    requires KeyOf(plan, first) == KeyOf(plan, LastStart(plan))
    ensures plan.strategies[|plan.strategies| - 1] in plan.strategies[..|plan.strategies| - 1]
  {
    var last, n := |plan.strategies| - 1, |plan.problems|;
    InPlan(plan, first);
    PlaceOf(plan, last, 0);
    PlacesDiffer(n, first / n, first % n, last, 0);
    assert first == (first / n) * n + first % n;
    assert first / n < last by {
      PlacesDiffer(n, last, 0, first / n, first % n);
    }
    assert plan.strategies[..last][first / n] == plan.strategies[last];
  }

  /** In such a plan every unit of the last strategy is a repetition. */
  lemma LastStrategyRepeats(plan: Plan, i: nat)
    requires LastRepeats(plan) && LastStart(plan) <= i < Total(plan)
    ensures FirstOf(plan, i) < i
  {
    var last, n := |plan.strategies| - 1, |plan.problems|;
    InPlan(plan, i);
    PlaceOf(plan, last, 0);
    assert i == (i / n) * n + i % n;
    PlacesDiffer(n, i / n, i % n, last, 0);
    assert i / n == last;
    var s: nat :| s < last && plan.strategies[..last][s] == plan.strategies[last];
    PlaceOf(plan, s, i % n);
    PlacesDiffer(n, s, i % n, last, i % n);
    assert KeyOf(plan, Position(plan, s, i % n)) == KeyOf(plan, i);
  }

  /** The last unit below `n` that is no repetition. */
  lemma {:induction false} LastFresh(plan: Plan, n: nat) returns (k: nat)
    requires 0 < n <= Total(plan)
    ensures k < n && FirstOf(plan, k) == k
    ensures forall i: nat :: k < i < n ==> FirstOf(plan, i) < i
  {
    if FirstOf(plan, n - 1) == n - 1 {
      k := n - 1;
    } else {
      k := LastFresh(plan, n - 1);
    }
  }

  function Costing(usd: real): ExecutionResult {
    ExecutionResult([Priced(Finite(usd), true, true)], 0, false)
  }

  lemma CostingCosts(usd: real)
    requires usd >= 0.0
    ensures KnownCost(Costing(usd)) == usd
  {
    var traces := [Priced(Finite(usd), true, true)];
    assert traces[..0] == [];
    assert TraceCost(traces[0]) == Some(usd);
    assert TracesCost(traces[..0]) == 0.0;
  }

  /** All units free but those that go by the checkpoint of unit `k`, which cost the cap. */
  function OneDearResult(plan: Plan, k: nat): (results: seq<ExecutionResult>)
    requires k < Total(plan) && plan.cap.Some?
    ensures |results| == Total(plan)
    ensures forall i: nat :: i < |results| ==>
      results[i] == Costing(if KeyOf(plan, i) == KeyOf(plan, k) then plan.cap.value else 0.0)
  {
    seq(Total(plan), i requires 0 <= i < Total(plan) =>
      Costing(if KeyOf(plan, i) == KeyOf(plan, k) then plan.cap.value else 0.0))
  }

  lemma {:induction false} FreeBefore(plan: Plan, k: nat, n: nat)
    requires k < Total(plan) && FirstOf(plan, k) == k && n <= k && plan.cap.Some?
    ensures Spent(OneDearResult(plan, k)[..n]) == 0.0
  {
    if n > 0 {
      var results := OneDearResult(plan, k);
      FreeBefore(plan, k, n - 1);
      CostingCosts(0.0);
      assert results[..n][..n - 1] == results[..n - 1];
      assert results[n - 1] == Costing(0.0);
    }
  }

  lemma {:induction false} DearAfter(plan: Plan, k: nat, n: nat)
    requires k < n <= Total(plan) && plan.cap.Some? && plan.cap.value > 0.0
    ensures Spent(OneDearResult(plan, k)[..n]) >= plan.cap.value
  {
    var results := OneDearResult(plan, k);
    assert results[..n][..n - 1] == results[..n - 1];
    if n == k + 1 {
      CostingCosts(plan.cap.value);
    } else {
      DearAfter(plan, k, n - 1);
    }
  }

  /** The first unit of the strategy after the one of unit `k`. */
  lemma NextBoundary(plan: Plan, k: nat) returns (b: nat)
    requires plan.strategies != [] && k < LastStart(plan) < Total(plan)
    ensures k < b <= LastStart(plan) && Boundary(plan, b)
    ensures forall i: nat :: k < i < b ==> !Boundary(plan, i)
  {
    var n, last := |plan.problems|, |plan.strategies| - 1;
    InPlan(plan, k);
    var s, p := k / n, k % n;
    assert k == Position(plan, s, p);
    PlacesDiffer(n, last, 0, s, p);
    hide Boundary, Total;
    PlaceOf(plan, s + 1, 0);
    PlacesDiffer(n, s, p, s + 1, 0);
    PlacesDiffer(n, s + 1, 0, last, 0);
    b := Position(plan, s + 1, 0);
    forall i: nat | k < i < b ensures !Boundary(plan, i) {
      InStrategy(plan, s, i);
    }
  }

  /** Inside a strategy no other begins. */
  lemma InStrategy(plan: Plan, s: nat, i: nat)
    requires s < |plan.strategies| && Position(plan, s, 0) < i < Position(plan, s + 1, 0) && i < Total(plan)
    ensures !Boundary(plan, i)
  {
    assert (s + 1) * |plan.problems| == s * |plan.problems| + |plan.problems|;
    PlaceOf(plan, s, i - Position(plan, s, 0));
  }

  lemma {:induction false} NobodyDies(plan: Plan, done: seq<ExecutionResult>, w: World)
    requires |done| <= Total(plan) && forall i: nat :: w.fate(i).Ends?
    ensures !Attempt(plan, done, w).1.Died?
    decreases Total(plan) - |done|
  {
    var next := NextResult(plan, done, w);
    if next.Some? {
      NobodyDies(plan, done + [next.value], w);
    }
  }

  /** The last unit that is no repetition comes before the last strategy. */
  lemma FreshEndsEarly(plan: Plan) returns (k: nat)
    requires LastRepeats(plan)
    ensures k < LastStart(plan) < Total(plan) && FirstOf(plan, k) == k
    ensures forall i: nat :: k < i < Total(plan) ==> FirstOf(plan, i) < i
  {
    PlaceOf(plan, |plan.strategies| - 1, 0);
    hide LastRepeats, Total, LastStart, FirstOf;
    k := LastFresh(plan, Total(plan));
    if k >= LastStart(plan) {
      LastStrategyRepeats(plan, k);
    }
  }

  /** The world in which every unit gives its one of these results. */
  function Giving(results: seq<ExecutionResult>): (w: World)
    ensures Yields(w, results) && forall i: nat :: w.fate(i).Ends?
  {
    World(_ => false, (i: nat) => Ends(if i < |results| then results[i] else Costing(0.0)))
  }

  /** Conversely, a plan whose last strategy repeats has a world in which it pauses for nothing. */
  lemma RepeatingPlanPauses(plan: Plan) returns (w: World)
    requires LastRepeats(plan) && plan.cap.value > 0.0
    ensures PausesForNothing(plan, [], w)
  {
    var k := FreshEndsEarly(plan);
    var results := OneDearResult(plan, k);
    w := Giving(results);
    hide Attempt, Total, LastStart, FirstOf, Boundary, OneDearResult, Giving, Yields, Missing, StopsAt, Shared;
    var b := NextBoundary(plan, k);
    DearStopsAt(plan, k, b);
    NobodyDies(plan, [], w);
    AttemptStops(plan, results, b, [], w);
    PausedIffIncomplete(plan, [], w);
    NothingMissing(plan, k, results[..b]);
  }

  lemma DearStopsAt(plan: Plan, k: nat, b: nat)
    requires plan.cap.Some? && plan.cap.value > 0.0 && k < b < Total(plan) && FirstOf(plan, k) == k && Boundary(plan, b)
    requires forall i: nat :: k < i < Total(plan) ==> FirstOf(plan, i) < i
    requires forall i: nat :: k < i < b ==> !Boundary(plan, i)
    ensures StopsAt(plan, OneDearResult(plan, k), b) && Shared(plan, OneDearResult(plan, k))
  {
    var results := OneDearResult(plan, k);
    DearAfter(plan, k, b);
    forall i: nat | i < b ensures Consulted(plan, i) ==> !OverCap(plan, results[..i]) {
      if i <= k {
        FreeBefore(plan, k, i);
      }
    }
  }

  lemma NothingMissing(plan: Plan, k: nat, done: seq<ExecutionResult>)
    requires k < |done| <= Total(plan) && forall i: nat :: k < i < Total(plan) ==> FirstOf(plan, i) < i
    ensures !Missing(plan, done)
  {
    forall i: nat | i < Total(plan) ensures FirstOf(plan, i) <= k {
      var j := FirstOf(plan, i);
      assert KeyOf(plan, j) == KeyOf(plan, i);
      assert FirstOf(plan, j) == j;
    }
  }

  /**
   * Exact, on the plan alone: some attempt pauses with nothing left to run if and only if the last strategy
   * also occurs earlier in the list.
   */
  lemma PausesForNothingIffLastRepeats(plan: Plan)
    requires plan.cap.Some? ==> plan.cap.value > 0.0
    ensures LastRepeats(plan) <==> exists w: World :: PausesForNothing(plan, [], w)
  {
    hide PausesForNothing;
    if LastRepeats(plan) {
      var w := RepeatingPlanPauses(plan);
    }
    if w: World :| PausesForNothing(plan, [], w) {
      PausedPlanRepeats(plan, [], w);
    }
  }

  /** Such a run never completes: every later resume pauses at the same place, whatever it meets. */
  lemma {:induction false} PausedForGood(plan: Plan, done: seq<ExecutionResult>, w: World, worlds: seq<World>)
    requires |done| <= Total(plan) && PausesForNothing(plan, done, w)
    ensures var after := Attempt(plan, done, w).0;
      && |after| < Total(plan)
      && Attempts(plan, after, worlds) == after
      && forall w' :: Attempt(plan, after, w') == (after, Paused)
    decreases |worlds|
  {
    PausePlace(plan, done, w);
    var after := Attempt(plan, done, w).0;
    assert Boundary(plan, |after|) && OverCap(plan, after);
    forall w' ensures Attempt(plan, after, w') == (after, Paused) {
    }
    if worlds != [] {
      PausedForGood(plan, done, w, worlds[1..]);
    }
  }

  /** One strategy listed twice, for one problem. */
  const REPEATED: Plan := Plan(["s", "s"], ["p"], Some(1.0))

  lemma SecondRepeatsFirst()
    ensures Total(REPEATED) == 2 && FirstOf(REPEATED, 0) == 0 && FirstOf(REPEATED, 1) == 0
    ensures !Boundary(REPEATED, 0) && Boundary(REPEATED, 1)
  {
    assert KeyOf(REPEATED, 1) == KeyOf(REPEATED, 0);
  }

  lemma OneCost(result: ExecutionResult)
    ensures Spent([]) == 0.0 && Spent([result]) == KnownCost(result)
  {
    var none: seq<ExecutionResult> := [];
    assert [result][..0] == none;
  }

  /** For example, a strategy listed twice whose first pass reaches the cap. */
  lemma RepeatedStrategyPauses(result: ExecutionResult, w: World)
    requires KnownCost(result) >= 1.0 && !w.pause(0) && w.fate(0) == Ends(result)
    ensures Total(REPEATED) == 2
    ensures var (after, ending) := Attempt(REPEATED, [], w); after == [result] && ending.Paused? && !Missing(REPEATED, after)
  {
    SecondRepeatsFirst();
    OneCost(result);
    hide FirstOf, Boundary, Total, Spent, KnownCost;
    assert Attempt(REPEATED, [result], w) == ([result], Paused);
    assert [] + [result] == [result];
    assert !OverCap(REPEATED, []);
  }

  // -- The run itself --------------------------------------------------------

  /** The checkpoints of this plan are exactly those of the units with results in `done`. */
  ghost predicate Durable(plan: Plan, saved: map<Key, ExecutionResult>, done: seq<ExecutionResult>) {
    && |done| <= Total(plan)
    && forall i: nat :: i < Total(plan) ==>
         && (KeyOf(plan, i) in saved <==> FirstOf(plan, i) < |done|)
         && (KeyOf(plan, i) in saved ==> saved[KeyOf(plan, i)] == done[FirstOf(plan, i)])
  }

  lemma PutKeeps(plan: Plan, saved: map<Key, ExecutionResult>, done: seq<ExecutionResult>, result: ExecutionResult)
    requires Durable(plan, saved, done) && |done| < Total(plan) && FirstOf(plan, |done|) == |done|
    ensures Durable(plan, saved[KeyOf(plan, |done|) := result], done + [result])
  {
    var q := |done|;
    forall i: nat | i < Total(plan) ensures KeyOf(plan, i) == KeyOf(plan, q) <==> FirstOf(plan, i) == q {
      assert KeyOf(plan, FirstOf(plan, i)) == KeyOf(plan, i);
    }
  }

  lemma RepeatKeeps(plan: Plan, saved: map<Key, ExecutionResult>, done: seq<ExecutionResult>, result: ExecutionResult)
    requires Durable(plan, saved, done) && |done| < Total(plan) && FirstOf(plan, |done|) < |done|
    ensures Durable(plan, saved, done + [result])
  {
    var q := |done|;
    forall i: nat | i < Total(plan) ensures FirstOf(plan, i) != q {
      assert KeyOf(plan, FirstOf(plan, i)) == KeyOf(plan, i);
    }
  }

  /** Places in the plan, by strategy and problem. */
  lemma PlaceOf(plan: Plan, s: nat, p: nat)
    requires s < |plan.strategies| && p <= |plan.problems|
    ensures Position(plan, s, p) <= Total(plan)
    ensures p < |plan.problems| ==>
      var i := Position(plan, s, p);
      i < Total(plan) && KeyOf(plan, i) == KeyAt(plan, s, p) && (Boundary(plan, i) <==> s > 0 && p == 0)
    ensures Position(plan, s, |plan.problems|) == Position(plan, s + 1, 0)
  {
    var n := |plan.problems|;
    assert (s + 1) * n == s * n + n;
    assert (s + 1) * n <= |plan.strategies| * n;
    if p < n {
      Divides(n, s, p);
      if s > 0 {
        assert s * n >= n;
      }
    }
  }

  type Checkpoint = UnitCheckpoint<Plan, Key, ExecutionResult>

  type Files = CheckpointFiles<Plan, Key, ExecutionResult>

  class Runner {
    const plan: Plan
    const files: Files
    const world: World
    const monitor: RunCostMonitor

    var paused: bool
    /** The result lists of all strategies so far, end to end. */
    var results: seq<ExecutionResult>

    constructor (plan: Plan, files: Files, world: World)
      ensures this.plan == plan && this.files == files && this.world == world
      ensures fresh(monitor) && monitor.cap == plan.cap && monitor.accumulated == 0.0
      ensures !paused && results == []
    {
      this.plan, this.files, this.world := plan, files, world;
      monitor := new RunCostMonitor(plan.cap);
      paused, results := false, [];
    }

    /** The run is at unit `at` of an attempt that leads from `done0` to where the one from `done` leads. */
    ghost predicate OnTrack(at: nat, done: seq<ExecutionResult>, done0: seq<ExecutionResult>)
      reads this, files, monitor
    {
      && monitor.cap == plan.cap && !paused
      && |done0| <= Total(plan) && Durable(plan, files.units, done) && Guarded(plan, done)
      && Attempt(plan, done, world) == Attempt(plan, done0, world)
      && at <= |done| && results == done[..at] && (plan.cap.Some? ==> monitor.accumulated == Spent(results))
    }

    /** The ledger has not paused the run before the strategy that starts at `at`. */
    ghost predicate Passed(at: nat, done: seq<ExecutionResult>) {
      at < Total(plan) && Boundary(plan, at) && at == |done| ==> !OverCap(plan, done)
    }

    lemma SavedIffDone(s: nat, p: nat, done: seq<ExecutionResult>, done0: seq<ExecutionResult>)
      requires s < |plan.strategies| && p < |plan.problems| && OnTrack(Position(plan, s, p), done, done0)
      ensures var at := Position(plan, s, p);
        && at < Total(plan)
        && (KeyAt(plan, s, p) in files.units <==> FirstOf(plan, at) < |done|)
        && (KeyAt(plan, s, p) !in files.units ==> |done| == at == FirstOf(plan, at))
    {
      PlaceOf(plan, s, p);
    }

    /** `_pause_requested` before unit `at` is dispatched. */
    method PauseRequested(at: nat) returns (requested: bool)
      requires !paused
      modifies this`paused
      ensures requested == paused == (monitor.OverCap() || world.pause(at))
    {
      requested := monitor.OverCap() || world.pause(at);
      if requested {
        paused := true;
      }
    }

    /** The attempt has ended in a pause, with everything recorded so far in the list and in the ledger. */
    ghost predicate Stopped(done: seq<ExecutionResult>, done0: seq<ExecutionResult>)
      reads this, files, monitor
    {
      && |done0| <= Total(plan) && Durable(plan, files.units, done) && Attempt(plan, done0, world) == (done, Paused)
      && results == done && (plan.cap.Some? ==> monitor.accumulated == Spent(results))
    }

    /** The pause question before a unit that is about to be dispatched, seen from the attempt. */
    method PauseBefore(at: nat, ghost done: seq<ExecutionResult>, ghost done0: seq<ExecutionResult>)
      returns (requested: bool)
      requires OnTrack(at, done, done0) && |done| == at < Total(plan) && FirstOf(plan, at) == at
      modifies this`paused
      ensures requested ==> paused && Stopped(done, done0)
      ensures !requested ==> OnTrack(at, done, done0) && !OverCap(plan, done) && !world.pause(at)
    {
      assert done[..|done|] == done;
      requested := PauseRequested(at);
    }

    lemma NotPaused(at: nat, done: seq<ExecutionResult>, done0: seq<ExecutionResult>)
      requires OnTrack(at, done, done0)
      ensures !paused
    {
    }

    /** Enters a result, saved or new, into the list and the ledger. */
    method Enter(result: ExecutionResult)
      modifies this`results, monitor
      ensures results == old(results) + [result]
      ensures monitor.cap.Some? ==> monitor.accumulated == old(monitor.accumulated) + KnownCost(result)
    {
      results := results + [result];
      if monitor.cap.Some? {
        monitor.AddResult(result);
      }
    }

    /** A unit whose result is on disk already, from an earlier attempt or from the unit it repeats. */
    method Replay(s: nat, p: nat, saved: ExecutionResult, ghost done: seq<ExecutionResult>,
        ghost done0: seq<ExecutionResult>)
      returns (ghost more: seq<ExecutionResult>)
      requires s < |plan.strategies| && p < |plan.problems|
      requires OnTrack(Position(plan, s, p), done, done0) && Passed(Position(plan, s, p), done)
      requires KeyAt(plan, s, p) in files.units && saved == files.units[KeyAt(plan, s, p)]
      modifies this`results, monitor
      ensures OnTrack(Position(plan, s, p) + 1, more, done0)
    {
      hide OnTrack, Passed, Attempt, KeyAt;
      more := Entered(s, p, saved, done, done0);
      EnterNext(Position(plan, s, p), saved, more, done0);
    }

    /** Enters the result of unit `at`, which counts already. */
    method EnterNext(at: nat, saved: ExecutionResult, ghost done: seq<ExecutionResult>,
        ghost done0: seq<ExecutionResult>)
      requires OnTrack(at, done, done0) && at < |done| && done[at] == saved
      modifies this`results, monitor
      ensures OnTrack(at + 1, done, done0)
    {
      hide Durable, Guarded, Attempt;
      assert done[..at + 1] == done[..at] + [saved];
      Enter(saved);
    }

    /** What `Replay` does to the results that count, before the list and the ledger follow. */
    lemma Entered(s: nat, p: nat, saved: ExecutionResult, done: seq<ExecutionResult>, done0: seq<ExecutionResult>)
      returns (more: seq<ExecutionResult>)
      requires s < |plan.strategies| && p < |plan.problems|
      requires OnTrack(Position(plan, s, p), done, done0) && Passed(Position(plan, s, p), done)
      requires KeyAt(plan, s, p) in files.units && saved == files.units[KeyAt(plan, s, p)]
      ensures OnTrack(Position(plan, s, p), more, done0)
      ensures Position(plan, s, p) < |more| && more[Position(plan, s, p)] == saved
    {
      var at := Position(plan, s, p);
      SavedIffDone(s, p, done, done0);
      PlaceOf(plan, s, p);
      assert saved == done[FirstOf(plan, at)];
      more := done;
      if at == |done| {
        more := done + [saved];
        assert done[..at] == done && more[..at] == done;
        hide KeyOf;
        GuardedGrows(plan, done, saved);
        RepeatKeeps(plan, files.units, done, saved);
        hide Durable, Guarded;
      }
    }

    /** A unit that runs now: checkpointed first, then settled.  Nothing, if the process dies in it. */
    method Execute(checkpoint: Checkpoint, s: nat, p: nat, ghost done: seq<ExecutionResult>,
        ghost done0: seq<ExecutionResult>)
      returns (alive: bool, ghost more: seq<ExecutionResult>)
      requires s < |plan.strategies| && p < |plan.problems| && checkpoint.root == files
      requires OnTrack(Position(plan, s, p), done, done0) && |done| == Position(plan, s, p) < Total(plan)
      requires FirstOf(plan, |done|) == |done| && !OverCap(plan, done) && !world.pause(|done|)
      modifies this`results, monitor, files`units
      ensures alive ==> OnTrack(Position(plan, s, p) + 1, more, done0)
      ensures !alive ==> Attempt(plan, done0, world) == (done, Died) && Durable(plan, files.units, done) && more == done
    {
      var fate := world.fate(Position(plan, s, p));
      if fate.Dies? {
        return false, done;
      }
      more := done + [fate.result];
      PlaceOf(plan, s, p);
      PutKeeps(plan, files.units, done, fate.result);
      GuardedGrows(plan, done, fate.result);
      checkpoint.Put(KeyAt(plan, s, p), fate.result);
      Enter(fate.result);
      assert done[..|done|] == done && more[..|more|] == more;
      return true, more;
    }

    /** One strategy over all problems, until a pause or a crash. */
    method RunStrategy(checkpoint: Checkpoint, s: nat, ghost done: seq<ExecutionResult>,
        ghost done0: seq<ExecutionResult>)
      returns (alive: bool, ghost after: seq<ExecutionResult>)
      requires s < |plan.strategies| && checkpoint.root == files
      requires OnTrack(Position(plan, s, 0), done, done0) && Passed(Position(plan, s, 0), done)
      modifies this, monitor, files`units
      ensures !alive ==> Attempt(plan, done0, world) == (after, Died) && Durable(plan, files.units, after)
      ensures alive && paused ==> Stopped(after, done0)
      ensures alive && !paused ==> OnTrack(Position(plan, s + 1, 0), after, done0)
    {
      hide OnTrack, Attempt, Durable, Guarded, FirstOf, Consulted;
      after := done;
      for p := 0 to |plan.problems|
        invariant OnTrack(Position(plan, s, p), after, done0)
        invariant p < |plan.problems| ==> Passed(Position(plan, s, p), after)
      {
        PlaceOf(plan, s, p);
        PlaceOf(plan, s, p + 1);
        var saved := checkpoint.Get(KeyAt(plan, s, p));
        SavedIffDone(s, p, after, done0);
        if saved.Some? {
          after := Replay(s, p, saved.value, after, done0);
          continue;
        }
        var requested := PauseBefore(Position(plan, s, p), after, done0);
        if requested {
          return true, after;
        }
        alive, after := Execute(checkpoint, s, p, after, done0);
        if !alive {
          return;
        }
      }
      PlaceOf(plan, s, |plan.problems|);
      alive := true;
      NotPaused(Position(plan, s + 1, 0), after, done0);
    }

    /** After a strategy that is not the last: a ledger at the cap pauses the run before the next one. */
    method PauseBetween(s: nat, ghost done: seq<ExecutionResult>, ghost done0: seq<ExecutionResult>)
      returns (requested: bool)
      requires s + 1 < |plan.strategies| && OnTrack(Position(plan, s + 1, 0), done, done0)
      requires plan.cap.Some? ==> plan.cap.value > 0.0
      modifies this`paused
      ensures requested ==> paused && Stopped(done, done0)
      ensures !requested ==> OnTrack(Position(plan, s + 1, 0), done, done0) && Passed(Position(plan, s + 1, 0), done)
    {
      var at := Position(plan, s + 1, 0);
      assert |done| == at ==> done[..at] == done;
      requested := monitor.OverCap();
      if requested {
        // A ledger at the cap has replayed everything that is on disk.
        assert OverCap(plan, done[..at]);
        NextStrategyHasWork(s, done[..at]);
        assert at == |done| && done[..at] == done;
        paused := true;
      }
    }

    lemma NextStrategyHasWork(s: nat, done: seq<ExecutionResult>)
      requires s + 1 < |plan.strategies| && |done| == Position(plan, s + 1, 0) && OverCap(plan, done)
      requires plan.cap.value > 0.0
      ensures |done| < Total(plan) && Boundary(plan, |done|)
    {
      if |plan.problems| > 0 {
        PlaceOf(plan, s + 1, 0);
      }
    }

    /**
     * One attempt.  It leaves on disk what `Attempt` says, and unless the process died, the result list is
     * all of that, the ledger is its cost, and the run is marked paused exactly if `Attempt` paused.
     */
    method Run(checkpoint: Checkpoint, ghost done0: seq<ExecutionResult>)
      returns (alive: bool, ghost after: seq<ExecutionResult>)
      requires checkpoint.root == files && (plan.cap.Some? ==> plan.cap.value > 0.0)
      requires Durable(plan, files.units, done0) && Guarded(plan, done0)
      requires !paused && results == [] && monitor.cap == plan.cap && monitor.accumulated == 0.0
      modifies this, monitor, files`units
      ensures after == Attempt(plan, done0, world).0 && Durable(plan, files.units, after)
      ensures alive <==> !Attempt(plan, done0, world).1.Died?
      ensures alive ==>
        && (paused <==> Attempt(plan, done0, world).1.Paused?)
        && results == after && (plan.cap.Some? ==> monitor.accumulated == Spent(after))
    {
      after := done0;
      assert done0[..0] == [];
      assert OnTrack(Position(plan, 0, 0), after, done0);
      assert |plan.strategies| > 0 ==> Passed(Position(plan, 0, 0), after) by { if |plan.strategies| > 0 { PlaceOf(plan, 0, 0); } }
      hide OnTrack, Durable, Guarded;
      for s := 0 to |plan.strategies|
        invariant OnTrack(Position(plan, s, 0), after, done0)
        invariant s < |plan.strategies| ==> Passed(Position(plan, s, 0), after)
      {
        alive, after := RunStrategy(checkpoint, s, after, done0);
        if !alive || paused {
          return;
        }
        if s + 1 < |plan.strategies| {
          var requested := PauseBetween(s, after, done0);
          if requested {
            return true, after;
          }
        }
      }
      Completed(after, done0);
      alive := true;
    }

    lemma Completed(done: seq<ExecutionResult>, done0: seq<ExecutionResult>)
      requires OnTrack(Position(plan, |plan.strategies|, 0), done, done0)
      ensures Attempt(plan, done0, world) == (done, Finished) && Durable(plan, files.units, done)
      ensures !paused && results == done && (plan.cap.Some? ==> monitor.accumulated == Spent(done))
    {
      assert Position(plan, |plan.strategies|, 0) == Total(plan) == |done|;
      assert done[..|done|] == done;
    }
  }
}
