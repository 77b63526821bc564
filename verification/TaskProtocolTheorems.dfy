// What holds of the shared task table in every interleaving: claims, final states, admission, mirrored rows.
module TaskProtocolTheorems {
  import opened Models
  import opened TaskProtocol

  // -- Claims and live workers -----------------------------------------------

  /** A status report that puts a business task back to pending under a generation that has been claimed. */
  predicate Requeues(w: World, s: Step) {
    && s.Report? && s.status == Pending && s.id in w.db.tasks && IsBusiness(w.db.tasks[s.id].kind)
    && !Blocked(w.db.tasks[s.id], s.bound, Pending) && (s.id, w.db.tasks[s.id].generation) in w.claims
  }

  ghost predicate NeverRequeues(w: World, steps: seq<Step>)
    decreases |steps|
  {
    steps == [] || (!Requeues(w, steps[0]) && NeverRequeues(Apply(w, steps[0]), steps[1..]))
  }

  /** Identifiers are fresh, and every claim is of a task and generation that exist or existed. */
  ghost predicate IdsOk(w: World) {
    && (forall id :: id in w.db.tasks ==> id < w.db.issued && w.db.tasks[id].generation < w.db.issued)
    && (forall c :: c in w.claims ==> c.0 in w.db.tasks && c.1 < w.db.issued)
    && (forall c :: c in w.live ==> c in w.claims)
  }

  /** The protocol of one business task. */
  ghost predicate TaskOk(w: World, id: nat)
    requires id in w.db.tasks
  {
    var t := w.db.tasks[id];
    && (t.status == Pending ==> (id, t.generation) !in w.claims && forall g :: (id, g) !in w.live)
    && (t.stopConfirmed ==> forall g :: (id, g) !in w.live)
    && (forall g :: (id, g) in w.live ==> g == t.generation)
    && (t.stopConfirmed && (id, t.generation) in w.claims ==> (id, t.generation) in w.confirmed)
  }

  /** No generation of a business task has been claimed twice. */
  ghost predicate ClaimedOnce(w: World) {
    forall i, j :: 0 <= i < j < |w.claims| && w.claims[i].0 in w.db.tasks && IsBusiness(w.db.tasks[w.claims[i].0].kind) ==>
      w.claims[i] != w.claims[j]
  }

  ghost predicate Protocol(w: World) {
    && IdsOk(w)
    && ClaimedOnce(w)
    && (forall id :: id in w.db.tasks && IsBusiness(w.db.tasks[id].kind) ==> TaskOk(w, id))
  }

  // -- What one step can do to one task --------------------------------------

  /** A report that changes the status and nothing else, within what a block lets through. */
  predicate StatusOnly(w: World, s: Step, id: nat, t: Task, t': Task) {
    && t' == t.(status := t'.status)
    && (t'.status == Pending && t.status != Pending ==>
          s.Report? && s.id == id && s.status == Pending && !Blocked(t, s.bound, Pending))
    && (IsTerminal(t.status) ==> t.kind == Evaluation && s.Report? && s.id == id && s.bound.None?)
    && (t.kind == Evaluation && t.status !in {Pending, Running} && t'.status in {Pending, Running} ==>
          s.Report? && s.id == id && s.bound.None? && s.status == t'.status)
    && !s.Deliver? && !s.WorkerExits? && !s.UserResumes? && !s.UserPauses?
  }

  predicate Transition(w: World, s: Step, id: nat, t: Task, t': Task) {
    || (t' == t && (s.Deliver? && s.id == id ==> t.status != Pending || t.generation != s.generation)
                && (s.WorkerExits? && s.id == id && (id, s.generation) in w.live ==> t.status != Paused || t.generation != s.generation || t.stopConfirmed))
    || StatusOnly(w, s, id, t, t')
    || (s == Deliver(id, t.generation) && t.status == Pending && t' == t.(status := Running, stopConfirmed := false))
    || (s == WorkerExits(id, t.generation) && (id, t.generation) in w.live && t.status == Paused &&
        t' == t.(stopConfirmed := true))
    || (s.UserPauses? && s.id == id && t.status == Running &&
        t' == t.(status := Paused, stopConfirmed := t.stopConfirmed && !IsBusiness(t.kind)))
    || (s.UserResumes? && s.id == id && CanResume(w.db, id, s.user, w.limit, s.busy) &&
        t' == t.(status := Pending, generation := w.db.issued))
  }

  ghost predicate TasksMove(w: World, s: Step, w': World) {
    && w.db.tasks.Keys <= w'.db.tasks.Keys && w.db.issued <= w'.db.issued && w'.limit == w.limit
    && (forall id :: id in w.db.tasks ==> Transition(w, s, id, w.db.tasks[id], w'.db.tasks[id]))
    && (forall id :: id in w'.db.tasks && id !in w.db.tasks ==>
          && s.Submit? && id == w.db.issued && w'.db.issued == w.db.issued + 2
          && HasCapacity(w.db, s.kind, s.user, w.limit)
          && w'.db.tasks[id] == Task(s.kind, s.entity, s.user, Pending, w.db.issued + 1, false))
    && (s.UserResumes? && w'.db != w.db ==> w'.db.issued == w.db.issued + 1)
  }

  lemma ReportMoves(w: World, s: Step)
    requires s.Report?
    requires IdsOk(w)
    ensures TasksMove(w, s, Apply(w, s))
  {
    hide IdsOk, HasCapacity, OwnsRow, FinishedBusiness;
  }

  /** A broker report moves at most its own task, from pending or running, and only to an end or to running. */
  lemma SyncEffect(db: Db, id: nat, bound: Option<nat>, state: CeleryState)
    ensures var db' := SyncCelery(db, id, bound, state);
      && db'.issued == db.issued && db'.tasks.Keys == db.tasks.Keys
      && (forall i :: i in db.tasks && i != id ==> db'.tasks[i] == db.tasks[i])
      && (id in db.tasks ==>
            var t, t' := db.tasks[id], db'.tasks[id];
            && t' == t.(status := t'.status)
            && (t' != t ==> t.status in {Pending, Running})
            && (t' != t ==> t'.status in {Failed, Cancelled} || (t'.status == Running && t.kind == Evaluation)))
  {
    hide OwnsRow;
  }

  lemma SyncMoves(w: World, s: Step)
    requires s.BrokerSync?
    requires IdsOk(w)
    ensures TasksMove(w, s, Apply(w, s))
  {
    SyncEffect(w.db, s.id, s.bound, s.state);
    hide IdsOk, HasCapacity, CanResume, SyncCelery, Blocked;
  }

  lemma WorkerMoves(w: World, s: Step)
    requires (s.Deliver? || s.WorkerExits?)
    requires IdsOk(w)
    ensures TasksMove(w, s, Apply(w, s))
  {
    hide IdsOk, HasCapacity, OwnsRow, FinishedBusiness;
  }

  lemma UserMoves(w: World, s: Step)
    requires (s.UserPauses? || s.UserCancels?)
    requires IdsOk(w)
    ensures TasksMove(w, s, Apply(w, s))
  {
    hide IdsOk, HasCapacity, OwnsRow, FinishedBusiness;
  }

  lemma ResumeMoves(w: World, s: Step)
    requires s.UserResumes?
    requires IdsOk(w)
    ensures TasksMove(w, s, Apply(w, s))
  {
    hide IdsOk, HasCapacity, OwnsRow, FinishedBusiness;
  }

  lemma FailureMoves(w: World, s: Step)
    requires (s.SubmitFailed? || s.ResumePublishFailed?)
    requires IdsOk(w)
    ensures TasksMove(w, s, Apply(w, s))
  {
    hide IdsOk, HasCapacity, OwnsRow, FinishedBusiness;
  }

  lemma RowMoves(w: World, s: Step)
    requires s.CreateRow? || s.DeleteRow? || s.WriteRow?
    requires IdsOk(w)
    ensures TasksMove(w, s, Apply(w, s))
  {
    hide IdsOk, HasCapacity, OwnsRow, FinishedBusiness;
  }

  lemma BudgetMoves(w: World, s: Step)
    requires s.BudgetPauses?
    requires IdsOk(w)
    ensures TasksMove(w, s, Apply(w, s))
  {
    hide IdsOk, HasCapacity, OwnsRow, FinishedBusiness;
  }

  lemma SubmitMoves(w: World, s: Step)
    requires s.Submit?
    requires IdsOk(w)
    ensures TasksMove(w, s, Apply(w, s))
  {
    hide IdsOk, HasCapacity, OwnsRow, FinishedBusiness;
    FreshId(w);
  }

  lemma StepMovesTasks(w: World, s: Step)
    requires IdsOk(w)
    ensures TasksMove(w, s, Apply(w, s))
  {
    hide IdsOk, TasksMove, Apply;
    match s
    case CreateRow(_, _, _) => RowMoves(w, s);
    case DeleteRow(_, _) => RowMoves(w, s);
    case WriteRow(_, _, _) => RowMoves(w, s);
    case Submit(_, _, _, _) => SubmitMoves(w, s);
    case SubmitFailed(_) => FailureMoves(w, s);
    case Deliver(_, _) => WorkerMoves(w, s);
    case WorkerExits(_, _) => WorkerMoves(w, s);
    case Report(_, _, _, _) => ReportMoves(w, s);
    case BudgetPauses(_) => BudgetMoves(w, s);
    case BrokerSync(_, _, _) => SyncMoves(w, s);
    case UserPauses(_, _) => UserMoves(w, s);
    case UserCancels(_, _) => UserMoves(w, s);
    case UserResumes(_, _, _) => ResumeMoves(w, s);
    case ResumePublishFailed(_, _) => FailureMoves(w, s);
  }

  lemma FreshId(w: World)
    requires IdsOk(w)
    ensures w.db.issued !in w.db.tasks
  {
  }

  lemma StepKeepsIds(w: World, s: Step)
    requires IdsOk(w)
    ensures IdsOk(Apply(w, s))
  {
    StepMovesTasks(w, s);
    var w' := Apply(w, s);
    forall id | id in w'.db.tasks ensures id < w'.db.issued && w'.db.tasks[id].generation < w'.db.issued {
      if id in w.db.tasks {
        assert Transition(w, s, id, w.db.tasks[id], w'.db.tasks[id]);
      }
    }
  }

  // -- Claims ----------------------------------------------------------------

  lemma DeliverKeeps(w: World, id: nat, generation: nat)
    requires Protocol(w)
    ensures Protocol(Apply(w, Deliver(id, generation)))
  {
    var s := Deliver(id, generation);
    StepKeepsIds(w, s);
    StepMovesTasks(w, s);
    var w' := Apply(w, s);
    if CanClaim(w.db, id, generation) {
      ClaimKeys(w.db, id, generation);
      hide SyncBusiness, IdsOk, TaskOk, Apply, Claim;
      forall i | i in w'.db.tasks && IsBusiness(w'.db.tasks[i].kind) ensures TaskOk(w', i) {
        assert Transition(w, s, i, w.db.tasks[i], w'.db.tasks[i]);
      }
      DeliveredOnce(w, w', id, generation);
    }
  }

  lemma DeliveredOnce(w: World, w': World, id: nat, generation: nat)
    requires Protocol(w) && CanClaim(w.db, id, generation) && w' == Apply(w, Deliver(id, generation))
    ensures ClaimedOnce(w')
  {
    ClaimKeys(w.db, id, generation);
    assert forall i :: 0 <= i < |w.claims| ==> w.claims[i] in w.claims;
    assert IsBusiness(w.db.tasks[id].kind) ==> TaskOk(w, id);
  }

  lemma ClaimKeys(db: Db, id: nat, generation: nat)
    ensures var db' := Claim(db, id, generation);
      db'.tasks.Keys == db.tasks.Keys && forall i :: i in db.tasks ==> db'.tasks[i].kind == db.tasks[i].kind
  {
  }

  /** Steps other than a delivery claim nothing, and workers only leave. */
  lemma ClaimsKept(w: World, s: Step)
    requires !s.Deliver?
    ensures var w' := Apply(w, s); w'.claims == w.claims && w'.live <= w.live && w.confirmed <= w'.confirmed
  {
  }

  lemma OtherStepKeeps(w: World, s: Step)
    requires Protocol(w) && !Requeues(w, s) && !s.Deliver?
    ensures Protocol(Apply(w, s))
  {
    StepKeepsIds(w, s);
    StepMovesTasks(w, s);
    ClaimsKept(w, s);
    var w' := Apply(w, s);
    hide Apply, Requeues, IdsOk, ClaimedOnce, TaskOk;
    forall id | id in w.db.tasks ensures w'.db.tasks[id].kind == w.db.tasks[id].kind {
      assert Transition(w, s, id, w.db.tasks[id], w'.db.tasks[id]);
    }
    ClaimedOnceKept(w, w');
    forall id | id in w'.db.tasks && IsBusiness(w'.db.tasks[id].kind) ensures TaskOk(w', id) {
      if id in w.db.tasks {
        AfterStep(w, s, w', id);
      } else {
        NewTaskOk(w, s, w', id);
      }
    }
  }

  lemma ClaimedOnceKept(w: World, w': World)
    requires IdsOk(w) && ClaimedOnce(w) && w'.claims == w.claims
    requires forall id :: id in w.db.tasks ==> id in w'.db.tasks && w'.db.tasks[id].kind == w.db.tasks[id].kind
    ensures ClaimedOnce(w')
  {
    assert forall i :: 0 <= i < |w.claims| ==> w.claims[i] in w.claims;
  }

  lemma NewTaskOk(w: World, s: Step, w': World, id: nat)
    requires IdsOk(w) && TasksMove(w, s, w') && id in w'.db.tasks && id !in w.db.tasks
    requires w'.claims == w.claims && w'.live <= w.live
    ensures TaskOk(w', id)
  {
    assert forall c :: c in w.claims ==> c.0 != id;
    assert forall c :: c in w.live ==> c.0 != id;
  }

  lemma AfterStep(w: World, s: Step, w': World, id: nat)
    requires IdsOk(w) && w' == Apply(w, s) && !Requeues(w, s) && !s.Deliver?
    requires id in w.db.tasks && id in w'.db.tasks && IsBusiness(w.db.tasks[id].kind) && TaskOk(w, id)
    requires Transition(w, s, id, w.db.tasks[id], w'.db.tasks[id])
    requires w'.claims == w.claims && w'.live <= w.live && w.confirmed <= w'.confirmed
    ensures TaskOk(w', id)
  {
    var t, t' := w.db.tasks[id], w'.db.tasks[id];
    if t'.generation != t.generation {
      assert (id, t'.generation) !in w.claims by {
        assert forall c :: c in w.claims ==> c.1 < w.db.issued;
      }
    }
    if t'.stopConfirmed && !t.stopConfirmed {
      assert s == WorkerExits(id, t.generation);
      assert w'.live == w.live - {(id, t.generation)};
    }
  }

  lemma StepKeepsProtocol(w: World, s: Step)
    requires Protocol(w) && !Requeues(w, s)
    ensures Protocol(Apply(w, s))
  {
    if s.Deliver? {
      DeliverKeeps(w, s.id, s.generation);
    } else {
      OtherStepKeeps(w, s);
    }
  }

  lemma {:induction false} ProtocolHolds(w: World, steps: seq<Step>)
    requires Protocol(w) && NeverRequeues(w, steps)
    ensures Protocol(Exec(w, steps))
    decreases |steps|
  {
    if steps != [] {
      StepKeepsProtocol(w, steps[0]);
      ProtocolHolds(Apply(w, steps[0]), steps[1..]);
    }
  }

  /**
   * In every interleaving of users, deliveries, redeliveries and broker reports that never requeues a
   * claimed task, each generation of an experiment, benchmark or A/B task is claimed at most once, and
   * at most one of its workers is live: the claimer of its current generation.
   */
  lemma OneClaimOneWorker(limit: nat, steps: seq<Step>, id: nat)
    requires NeverRequeues(Empty(limit), steps)
    ensures var w := Exec(Empty(limit), steps);
      id in w.db.tasks && IsBusiness(w.db.tasks[id].kind) ==>
        && (forall i, j :: 0 <= i < j < |w.claims| && w.claims[i].0 == id ==> w.claims[i] != w.claims[j])
        && (forall g, h :: (id, g) in w.live && (id, h) in w.live ==> g == h == w.db.tasks[id].generation)
  {
    ProtocolHolds(Empty(limit), steps);
    var w := Exec(Empty(limit), steps);
    if id in w.db.tasks && IsBusiness(w.db.tasks[id].kind) {
      assert TaskOk(w, id);
    }
  }

  /** A continuation is reserved only after the current generation's claimer, if there is one, has confirmed stopping. */
  lemma ResumeAfterStop(w: World, s: Step)
    requires Protocol(w) && s.UserResumes? && s.id in w.db.tasks && IsBusiness(w.db.tasks[s.id].kind)
    requires Apply(w, s).db != w.db
    ensures var g := w.db.tasks[s.id].generation;
      && ((s.id, g) in w.claims ==> (s.id, g) in w.confirmed)
      && (forall h :: (s.id, h) !in w.live)
      && Apply(w, s).db.tasks[s.id].generation != g
  {
    assert TaskOk(w, s.id);
  }

  /**
   * The condition is exact.  From a state that keeps the protocol, a step lets some next step claim a
   * generation twice if and only if it puts a claimed business task back to pending.
   */
  lemma SecondClaimIffRequeued(w: World, s: Step)
    requires Protocol(w)
    ensures Requeues(w, s) <==> exists d :: !ClaimedOnce(Exec(w, [s, d]))
  {
    hide Protocol, ClaimedOnce, Exec, Apply;
    if Requeues(w, s) {
      RequeuedIsClaimedAgain(w, s);
      assert !ClaimedOnce(Exec(w, [s, Deliver(s.id, w.db.tasks[s.id].generation)]));
    } else {
      forall d ensures ClaimedOnce(Exec(w, [s, d])) {
        StepKeepsProtocol(w, s);
        NextStepClaimsOnce(Apply(w, s), d);
        TwoSteps(w, s, d);
      }
    }
  }

  lemma NextStepClaimsOnce(w: World, d: Step)
    requires Protocol(w)
    ensures ClaimedOnce(Apply(w, d))
  {
    hide ClaimedOnce, Apply;
    if Requeues(w, d) {
      ReportClaimsNothing(w, d);
    } else {
      StepKeepsProtocol(w, d);
    }
  }

  lemma ReportClaimsNothing(w: World, d: Step)
    requires Protocol(w) && d.Report?
    ensures ClaimedOnce(Apply(w, d))
  {
    StepMovesTasks(w, d);
    ClaimsKept(w, d);
    var w' := Apply(w, d);
    hide Apply, ClaimedOnce;
    forall id | id in w.db.tasks ensures w'.db.tasks[id].kind == w.db.tasks[id].kind {
      assert Transition(w, d, id, w.db.tasks[id], w'.db.tasks[id]);
    }
    ClaimedOnceKept(w, w');
  }

  lemma RequeuedIsClaimedAgain(w: World, s: Step)
    requires Requeues(w, s)
    ensures !ClaimedOnce(Exec(w, [s, Deliver(s.id, w.db.tasks[s.id].generation)]))
  {
    var c := (s.id, w.db.tasks[s.id].generation);
    var d := Deliver(c.0, c.1);
    TwoSteps(w, s, d);
    assert Apply(w, s).claims == w.claims && CanClaim(Apply(w, s).db, c.0, c.1);
    var w2 := Apply(Apply(w, s), d);
    assert w2.claims == w.claims + [c];
    var i :| 0 <= i < |w.claims| && w.claims[i] == c;
    assert w2.claims[i] == w2.claims[|w.claims|];
  }

  /** A record is created and submitted, and its worker starts. */
  function Launched(kind: Kind): seq<Step> {
    [CreateRow(kind, "e", "u"), Submit(kind, "e", "u", false)] + [Deliver(0, 1)]
  }

  lemma StartedWorld(limit: nat, kind: Kind) returns (w: World)
    requires IsBusiness(kind)
    ensures w == Exec(Empty(limit), Launched(kind))
    ensures w.db == Db(map[0 := Task(kind, "e", "u", Running, 1, false)], map[(kind, "e") := Row("u", Running, None)], 2)
    ensures w.limit == limit && w.claims == [(0, 1)]
  {
    var w0 := Empty(limit);
    var w2 := Apply(Apply(w0, CreateRow(kind, "e", "u")), Submit(kind, "e", "u", false));
    w := Apply(w2, Deliver(0, 1));
    assert w2.db == Db(map[0 := Task(kind, "e", "u", Pending, 1, false)], map[(kind, "e") := Row("u", Pending, None)], 2);
    hide Apply;
    TwoSteps(w0, CreateRow(kind, "e", "u"), Submit(kind, "e", "u", false));
    OneStep(w2, Deliver(0, 1));
    ExecSplits(w0, [CreateRow(kind, "e", "u"), Submit(kind, "e", "u", false)], [Deliver(0, 1)]);
  }

  /** So it can be broken from an empty database: a worker reports its own task pending, and a redelivery claims it again. */
  lemma RequeueFromEmpty(limit: nat)
    ensures Exec(Empty(limit), Launched(Experiment) + [Report(0, Some(1), Pending, false), Deliver(0, 1)]).claims == [(0, 1), (0, 1)]
  {
    var w := StartedWorld(limit, Experiment);
    var requeue, deliver := Report(0, Some(1), Pending, false), Deliver(0, 1);
    assert CanClaim(Apply(w, requeue).db, 0, 1);
    TwoSteps(w, requeue, deliver);
    ExecSplits(Empty(limit), Launched(Experiment), [requeue, deliver]);
  }

  lemma OneStep(w: World, a: Step)
    ensures Exec(w, [a]) == Apply(w, a)
  {
    assert [a][1..] == [];
  }

  lemma {:induction false} ExecSplits(w: World, before: seq<Step>, after: seq<Step>)
    ensures Exec(w, before + after) == Exec(Exec(w, before), after)
    decreases |before|
  {
    if before == [] {
      assert before + after == after;
    } else {
      assert (before + after)[1..] == before[1..] + after;
      ExecSplits(Apply(w, before[0]), before[1..], after);
    }
  }

  lemma TwoSteps(w: World, a: Step, b: Step)
    ensures Exec(w, [a, b]) == Apply(Apply(w, a), b)
  {
    assert [a, b][1..] == [b] && [b][1..] == [];
    assert Exec(Apply(w, a), [b]) == Exec(Apply(Apply(w, a), b), []);
  }

  // -- Final states and stale generations ------------------------------------

  /** An evaluation's status reported by a manager that is not bound to a generation. */
  predicate UnboundReport(w: World, s: Step, id: nat) {
    s.Report? && s.id == id && s.bound.None? && id in w.db.tasks && w.db.tasks[id].kind == Evaluation
  }

  ghost predicate NoUnboundReports(w: World, steps: seq<Step>, id: nat)
    decreases |steps|
  {
    steps == [] || (!UnboundReport(w, steps[0], id) && NoUnboundReports(Apply(w, steps[0]), steps[1..], id))
  }

  /** Completed, failed and cancelled are final under every step but an unbound report of another status on an evaluation. */
  lemma FinalStep(w: World, s: Step, id: nat)
    requires IdsOk(w) && id in w.db.tasks && IsTerminal(w.db.tasks[id].status)
    ensures id in Apply(w, s).db.tasks
    ensures Apply(w, s).db.tasks[id] != w.db.tasks[id] <==> UnboundReport(w, s, id) && s.status != w.db.tasks[id].status
  {
    StepMovesTasks(w, s);
    assert Transition(w, s, id, w.db.tasks[id], Apply(w, s).db.tasks[id]);
  }

  /** A finished task of any of the three business kinds never moves again, whoever acts on it. */
  lemma {:induction false} FinalForever(w: World, steps: seq<Step>, id: nat)
    requires IdsOk(w) && id in w.db.tasks && IsTerminal(w.db.tasks[id].status)
    requires IsBusiness(w.db.tasks[id].kind) || NoUnboundReports(w, steps, id)
    ensures id in Exec(w, steps).db.tasks && Exec(w, steps).db.tasks[id] == w.db.tasks[id]
    decreases |steps|
  {
    if steps != [] {
      FinalStep(w, steps[0], id);
      StepKeepsIds(w, steps[0]);
      FinalForever(Apply(w, steps[0]), steps[1..], id);
    }
  }

  /**
   * Writes of a superseded generation change nothing in the tables, and neither does a broker report that a
   * manager bound to it takes over, unless the task is an evaluation: there the binding is not looked at.
   */
  lemma StaleGenerationsAreMute(w: World, id: nat, stale: nat, status: Status, progress: bool)
    requires id in w.db.tasks && w.db.tasks[id].generation != stale
    ensures Apply(w, Report(id, Some(stale), status, progress)).db == w.db
    ensures Apply(w, Deliver(id, stale)).db == w.db
    ensures Apply(w, WorkerExits(id, stale)).db == w.db
    ensures Apply(w, ResumePublishFailed(id, stale)).db == w.db
    ensures IsBusiness(w.db.tasks[id].kind) ==> forall state :: Apply(w, BrokerSync(id, Some(stale), state)).db == w.db
    ensures w.db.tasks[id].kind == Evaluation ==> forall state ::
      Apply(w, BrokerSync(id, Some(stale), state)).db != w.db <==>
        || (w.db.tasks[id].status == Pending && state in {Started, Progress, Failure})
        || (w.db.tasks[id].status == Running && state == Failure)
  {
  }

  // -- Admission -------------------------------------------------------------

  /** An unbound report that makes an evaluation pending or running which was neither. */
  predicate Revives(w: World, s: Step) {
    s.Report? && UnboundReport(w, s, s.id) && w.db.tasks[s.id].status !in {Pending, Running} && s.status in {Pending, Running}
  }

  ghost predicate NeverRevives(w: World, steps: seq<Step>)
    decreases |steps|
  {
    steps == [] || (!Revives(w, steps[0]) && NeverRevives(Apply(w, steps[0]), steps[1..]))
  }

  predicate TakesSlot(w: World, s: Step, user: string, id: nat) {
    && |Active(w.db, user)| < w.limit
    && ((s.Submit? && id == w.db.issued) || (s.UserResumes? && id == s.id))
  }

  lemma SlotTaken(w: World, s: Step, w': World, user: string, id: nat)
    requires TasksMove(w, s, w') && !Revives(w, s)
    requires id in Active(w'.db, user) && id !in Active(w.db, user)
    ensures TakesSlot(w, s, user, id)
  {
    if id in w.db.tasks {
      assert Transition(w, s, id, w.db.tasks[id], w'.db.tasks[id]);
    }
  }

  /** Only submitting and resuming can take a slot, and each takes one only while there is room. */
  lemma AdmissionStep(w: World, s: Step, user: string)
    requires IdsOk(w) && !Revives(w, s)
    ensures var before, after := Active(w.db, user), Active(Apply(w, s).db, user);
      if s.Submit? || s.UserResumes?
      then after <= before || (|before| < w.limit && exists id :: after <= before + {id})
      else after <= before
  {
    StepMovesTasks(w, s);
    var w' := Apply(w, s);
    hide Apply, IdsOk, TasksMove, Revives;
    var before, after := Active(w.db, user), Active(w'.db, user);
    forall id | id in after && id !in before ensures TakesSlot(w, s, user, id) {
      SlotTaken(w, s, w', user, id);
    }
    hide Active;
    if s.Submit? {
      assert after <= before + {w.db.issued};
    } else if s.UserResumes? {
      assert after <= before + {s.id};
    }
  }

  lemma SlotsCount(before: set<nat>, after: set<nat>, limit: nat)
    requires |before| <= limit
    requires after <= before || (|before| < limit && exists id :: after <= before + {id})
    ensures |after| <= limit
  {
    if after <= before {
      assert before == after + (before - after);
    } else {
      var id: nat :| after <= before + {id};
      var all := before + {id};
      assert all == after + (all - after);
    }
  }

  /**
   * No reachable committed state gives a user more pending and running evaluations than the limit,
   * as long as no manager without a generation revives one.
   */
  lemma {:induction false} AdmissionSafe(w: World, steps: seq<Step>, user: string)
    requires IdsOk(w) && NeverRevives(w, steps) && |Active(w.db, user)| <= w.limit
    ensures |Active(Exec(w, steps).db, user)| <= w.limit
    decreases |steps|
  {
    if steps != [] {
      AdmissionStep(w, steps[0], user);
      SlotsCount(Active(w.db, user), Active(Apply(w, steps[0]).db, user), w.limit);
      StepKeepsIds(w, steps[0]);
      StepMovesTasks(w, steps[0]);
      AdmissionSafe(Apply(w, steps[0]), steps[1..], user);
    }
  }

  /** The proviso is exact: with the quota full, a step goes past it if and only if it revives one of the user's evaluations. */
  lemma QuotaBreaksIffRevived(w: World, s: Step, user: string)
    requires IdsOk(w) && |Active(w.db, user)| == w.limit
    ensures |Active(Apply(w, s).db, user)| > w.limit <==> Revives(w, s) && w.db.tasks[s.id].user == user
  {
    hide Apply, Active, Revives;
    if Revives(w, s) {
      RevivalTakesSlot(w, s, user);
    } else {
      AdmissionStep(w, s, user);
      SlotsCount(Active(w.db, user), Active(Apply(w, s).db, user), w.limit);
    }
  }

  lemma RevivalTakesSlot(w: World, s: Step, user: string)
    requires Revives(w, s)
    ensures s.Report? && s.id in w.db.tasks && s.id !in Active(w.db, user)
    ensures Active(Apply(w, s).db, user) ==
      Active(w.db, user) + if w.db.tasks[s.id].user == user then {s.id} else {}
  {
  }

  /** From an empty database with one slot: an unbound report revives a failed evaluation beside its successor. */
  lemma QuotaFromEmpty()
    ensures Active(Exec(Empty(1), [Submit(Evaluation, "e", "u", false), Report(0, None, Failed, false)]
      + [Submit(Evaluation, "f", "u", false), Report(0, None, Running, false)]).db, "u") == {0, 2}
  {
    var first, fails := Submit(Evaluation, "e", "u", false), Report(0, None, Failed, false);
    var second, revives := Submit(Evaluation, "f", "u", false), Report(0, None, Running, false);
    var w1 := Apply(Empty(1), first);
    assert w1.db.tasks == map[0 := Task(Evaluation, "e", "u", Pending, 1, false)];
    var w2 := Apply(w1, fails);
    assert w2.db.tasks == map[0 := Task(Evaluation, "e", "u", Failed, 1, false)];
    var w3 := Apply(w2, second);
    assert 2 in w3.db.tasks && w3.db.tasks[2].status == Pending;
    var w4 := Apply(w3, revives);
    TwoSteps(Empty(1), first, fails);
    TwoSteps(w2, second, revives);
    ExecSplits(Empty(1), [first, fails], [second, revives]);
  }

  // -- Paired business rows --------------------------------------------------

  /** A task of one of the three business kinds that has a row to mirror itself onto. */
  predicate Paired(db: Db, id: nat) {
    id in db.tasks && IsBusiness(db.tasks[id].kind) && OwnsRow(db, id)
  }

  /** Every paired row shows the status of its task. */
  ghost predicate Mirrored(db: Db) {
    forall id :: Paired(db, id) ==> db.rows[RowKey(db.tasks[id])].status == db.tasks[id].status
  }

  /** No two tasks are paired with one row. */
  ghost predicate Unshared(db: Db) {
    forall i, j :: Paired(db, i) && Paired(db, j) && i != j ==> RowKey(db.tasks[i]) != RowKey(db.tasks[j])
  }

  ghost predicate Mirroring(db: Db) {
    Mirrored(db) && Unshared(db)
  }

  /** A task for this record, submitted by its owner. */
  predicate TaskFor(db: Db, id: nat, kind: Kind, entity: string, user: string) {
    id in db.tasks && RowKey(db.tasks[id]) == (kind, entity) && db.tasks[id].user == user
  }

  /**
   * The steps that act on a business row behind its task's back: submitting an owned record that is not
   * pending or has a task already; writing another status than the task's on a paired row; creating a
   * record that several tasks, or one that has started, were submitted for; and pausing over budget
   * through another user's task.
   */
  predicate Disturbs(w: World, s: Step) {
    match s
    case Submit(kind, entity, user, _) =>
      && IsBusiness(kind) && (kind, entity) in w.db.rows && w.db.rows[(kind, entity)].owner == user
      && (w.db.rows[(kind, entity)].status != Pending
          || exists id | id in w.db.tasks :: TaskFor(w.db, id, kind, entity, user))
    case WriteRow(kind, entity, status) =>
      exists id | id in w.db.tasks ::
        Paired(w.db, id) && RowKey(w.db.tasks[id]) == (kind, entity) && w.db.tasks[id].status != status
    case CreateRow(kind, entity, user) =>
      && IsBusiness(kind) && (kind, entity) !in w.db.rows
      && exists i | i in w.db.tasks :: TaskFor(w.db, i, kind, entity, user) &&
           (w.db.tasks[i].status != Pending || exists j | j in w.db.tasks :: j != i && TaskFor(w.db, j, kind, entity, user))
    case BudgetPauses(id) =>
      && id in w.db.tasks && w.db.tasks[id].kind == Benchmark && w.db.tasks[id].status == Running
      && !OwnsRow(w.db, id) && RowKey(w.db.tasks[id]) in w.db.rows && w.db.rows[RowKey(w.db.tasks[id])].status == Running
      && exists j | j in w.db.tasks :: Paired(w.db, j) && RowKey(w.db.tasks[j]) == RowKey(w.db.tasks[id])
    case _ => false
  }

  ghost predicate NeverDisturbs(w: World, steps: seq<Step>)
    decreases |steps|
  {
    steps == [] || (!Disturbs(w, steps[0]) && NeverDisturbs(Apply(w, steps[0]), steps[1..]))
  }

  /** Storing a task and mirroring it in the same transaction keeps the pairing. */
  lemma SyncedStore(db: Db, id: nat, t: Task)
    requires Mirroring(db) && id in db.tasks
    requires t.kind == db.tasks[id].kind && t.entity == db.tasks[id].entity && t.user == db.tasks[id].user
    ensures Mirroring(SyncBusiness(Store(db, id, t), id))
  {
    var db' := SyncBusiness(Store(db, id, t), id);
    forall i ensures Paired(db', i) <==> Paired(db, i) {
    }
    forall i | Paired(db', i) ensures db'.rows[RowKey(db'.tasks[i])].status == db'.tasks[i].status {
      if i != id {
        assert Paired(db, i);
      }
    }
  }

  /** Evaluations may be stored without mirroring. */
  lemma EvaluationStore(db: Db, id: nat, t: Task)
    requires Mirroring(db) && id in db.tasks && db.tasks[id].kind == Evaluation
    requires t.kind == Evaluation && t.entity == db.tasks[id].entity
    ensures Mirroring(Store(db, id, t))
  {
    forall i ensures Paired(Store(db, id, t), i) <==> Paired(db, i) {
    }
  }

  /** So may a stop confirmation, which no row shows. */
  lemma ConfirmMirrors(db: Db, id: nat, generation: nat)
    requires Mirroring(db)
    ensures Mirroring(ConfirmStopped(db, id, generation))
  {
    forall i ensures Paired(ConfirmStopped(db, id, generation), i) <==> Paired(db, i) {
    }
  }

  lemma UpdateMirrors(db: Db, id: nat, bound: Option<nat>, status: Status, progress: bool)
    requires Mirroring(db)
    ensures Mirroring(Update(db, id, bound, status, progress))
  {
    hide Mirroring;
    if id in db.tasks {
      SyncedStore(db, id, db.tasks[id].(status := status));
      if db.tasks[id].kind == Evaluation {
        EvaluationStore(db, id, db.tasks[id].(status := status));
      }
    }
  }

  lemma SubmitMirrors(w: World, kind: Kind, entity: string, user: string, link: bool)
    requires IdsOk(w) && Mirroring(w.db) && !Disturbs(w, Submit(kind, entity, user, link))
    ensures Mirroring(Apply(w, Submit(kind, entity, user, link)).db)
  {
    FreshId(w);
    var db, db' := w.db, Apply(w, Submit(kind, entity, user, link)).db;
    forall i ensures Paired(db', i) ==>
      if i in db.tasks then Paired(db, i) && db'.rows[RowKey(db.tasks[i])] == db.rows[RowKey(db.tasks[i])] && db'.tasks[i] == db.tasks[i]
      else i == db.issued && db'.tasks[i].status == Pending && RowKey(db'.tasks[i]) == (kind, entity)
           && db'.rows[(kind, entity)].status == Pending && db'.tasks[i].user == user
    {
    }
    forall i, j | Paired(db', i) && Paired(db', j) && i != j ensures RowKey(db'.tasks[i]) != RowKey(db'.tasks[j]) {
      if i in db.tasks && j !in db.tasks {
        assert !TaskFor(db, i, kind, entity, user);
      } else if j in db.tasks && i !in db.tasks {
        assert !TaskFor(db, j, kind, entity, user);
      }
    }
  }

  lemma DeleteMirrors(db: Db, kind: Kind, entity: string)
    requires Mirroring(db)
    ensures Mirroring(db.(rows := db.rows - {(kind, entity)}))
  {
    forall i ensures Paired(db.(rows := db.rows - {(kind, entity)}), i) ==> Paired(db, i) {
    }
  }

  lemma WriteMirrors(w: World, kind: Kind, entity: string, status: Status)
    requires Mirroring(w.db) && !Disturbs(w, WriteRow(kind, entity, status))
    ensures Mirroring(Apply(w, WriteRow(kind, entity, status)).db)
  {
    var db' := Apply(w, WriteRow(kind, entity, status)).db;
    forall i ensures Paired(db', i) <==> Paired(w.db, i) {
    }
  }

  lemma CreateMirrors(w: World, kind: Kind, entity: string, user: string)
    requires Mirroring(w.db) && !Disturbs(w, CreateRow(kind, entity, user))
    ensures Mirroring(Apply(w, CreateRow(kind, entity, user)).db)
  {
    var db, db' := w.db, Apply(w, CreateRow(kind, entity, user)).db;
    if (kind, entity) !in db.rows {
      forall i ensures Paired(db', i) <==>
        Paired(db, i) || (i in db.tasks && IsBusiness(kind) && TaskFor(db, i, kind, entity, user))
      {
      }
    }
  }

  lemma BudgetMirrors(w: World, id: nat)
    requires Mirroring(w.db) && !Disturbs(w, BudgetPauses(id))
    ensures Mirroring(Apply(w, BudgetPauses(id)).db)
  {
    var db, db' := w.db, Apply(w, BudgetPauses(id)).db;
    forall i ensures Paired(db', i) <==> Paired(db, i) {
    }
  }

  lemma StepMirrors(w: World, s: Step)
    requires IdsOk(w) && Mirroring(w.db) && !Disturbs(w, s)
    ensures Mirroring(Apply(w, s).db)
  {
    var db := w.db;
    hide Mirroring, SyncBusiness, IdsOk, OwnsRow, FinishedBusiness, Update, SyncCelery, Resume, Disturbs;
    match s
    case CreateRow(kind, entity, user) => CreateMirrors(w, kind, entity, user);
    case DeleteRow(kind, entity) => DeleteMirrors(db, kind, entity);
    case WriteRow(kind, entity, status) => WriteMirrors(w, kind, entity, status);
    case BudgetPauses(id) => BudgetMirrors(w, id);
    case WorkerExits(id, generation) => ConfirmMirrors(db, id, generation);
    case Submit(kind, entity, user, link) => SubmitMirrors(w, kind, entity, user, link);
    case SubmitFailed(id) =>
      if id in db.tasks {
        SyncedStore(db, id, db.tasks[id].(status := Failed));
        if db.tasks[id].kind == Evaluation { EvaluationStore(db, id, db.tasks[id].(status := Failed)); }
      }
    case Deliver(id, _) =>
      if id in db.tasks { SyncedStore(db, id, db.tasks[id].(status := Running, stopConfirmed := false)); }
    case Report(id, bound, status, progress) => UpdateMirrors(db, id, bound, status, progress);
    case BrokerSync(id, bound, state) => SyncMirrors(db, id, bound, state);
    case UserPauses(id, _) =>
      if id in db.tasks {
        var t := db.tasks[id];
        SyncedStore(db, id, t.(status := Paused, stopConfirmed := t.stopConfirmed && !IsBusiness(t.kind)));
      }
    case UserCancels(id, _) =>
      if id in db.tasks { SyncedStore(db, id, db.tasks[id].(status := Cancelled)); }
    case UserResumes(id, user, busy) => ResumeMirrors(db, id, user, w.limit, busy);
    case ResumePublishFailed(id, _) =>
      if id in db.tasks { SyncedStore(db, id, db.tasks[id].(status := Failed)); }
  }

  lemma SyncMirrors(db: Db, id: nat, bound: Option<nat>, state: CeleryState)
    requires Mirroring(db)
    ensures Mirroring(SyncCelery(db, id, bound, state))
  {
    hide Update, Mirroring;
    UpdateMirrors(db, id, bound, Failed, false);
    UpdateMirrors(db, id, bound, Cancelled, false);
    if id in db.tasks && db.tasks[id].kind == Evaluation {
      EvaluationStore(db, id, db.tasks[id].(status := Running));
      EvaluationStore(db, id, db.tasks[id].(status := Failed));
    }
  }

  lemma ResumeMirrors(db: Db, id: nat, user: string, limit: nat, busy: bool)
    requires Mirroring(db)
    ensures Mirroring(Resume(db, id, user, limit, busy))
  {
    if CanResume(db, id, user, limit, busy) {
      var t := db.tasks[id].(status := Pending, generation := db.issued);
      var synced := SyncBusiness(Store(db, id, t), id);
      SyncedStore(db, id, t);
      assert Resume(db, id, user, limit, busy) == synced.(issued := db.issued + 1);
      forall i ensures Paired(synced.(issued := db.issued + 1), i) <==> Paired(synced, i) {
      }
    }
  }

  /**
   * As long as no step disturbs a row, in every committed state each experiment, benchmark and A/B row shows
   * the status of the task it is paired with.
   */
  lemma {:induction false} RowsMirrorTasks(w: World, steps: seq<Step>)
    requires IdsOk(w) && Mirroring(w.db) && NeverDisturbs(w, steps)
    ensures Mirroring(Exec(w, steps).db)
    decreases |steps|
  {
    if steps != [] {
      hide Mirroring, IdsOk, Disturbs, Apply;
      StepMirrors(w, steps[0]);
      StepKeepsIds(w, steps[0]);
      RowsMirrorTasks(Apply(w, steps[0]), steps[1..]);
    }
  }

  // -- The condition is exact ------------------------------------------------

  /** After a step that disturbs, some row and its task differ, or a pending row is shared by two pending tasks. */
  lemma DisturbedBreaks(w: World, s: Step) returns (i: nat, j: nat)
    requires IdsOk(w) && Mirroring(w.db) && Disturbs(w, s)
    ensures var db := Apply(w, s).db;
      !Mirrored(db) || (i != j && Paired(db, i) && Paired(db, j) && RowKey(db.tasks[i]) == RowKey(db.tasks[j])
                        && db.tasks[i].status == Pending && db.tasks[j].status == Pending)
  {
    var db, db' := w.db, Apply(w, s).db;
    i, j := 0, 0;
    match s
    case Submit(kind, entity, user, _) =>
      FreshId(w);
      j := db.issued;
      assert Paired(db', j) && db'.tasks[j].status == Pending;
      if db.rows[(kind, entity)].status == Pending {
        i :| i in db.tasks && TaskFor(db, i, kind, entity, user);
        assert Paired(db, i) && Paired(db', i);
      }
    case WriteRow(kind, entity, status) =>
      i :| i in db.tasks && Paired(db, i) && RowKey(db.tasks[i]) == (kind, entity) && db.tasks[i].status != status;
      assert Paired(db', i);
    case CreateRow(kind, entity, user) =>
      i :| i in db.tasks && TaskFor(db, i, kind, entity, user) &&
           (db.tasks[i].status != Pending || exists k | k in db.tasks :: k != i && TaskFor(db, k, kind, entity, user));
      assert Paired(db', i);
      if db.tasks[i].status == Pending {
        j :| j in db.tasks && j != i && TaskFor(db, j, kind, entity, user);
        assert Paired(db', j);
      }
    case BudgetPauses(id) =>
      i :| i in db.tasks && Paired(db, i) && RowKey(db.tasks[i]) == RowKey(db.tasks[id]);
      assert Paired(db', i);
  }

  /** Claiming one of two pending tasks that share a row leaves the row wrong for the other. */
  lemma ClaimSplitsSharedRow(w: World, i: nat, j: nat)
    requires i != j && Paired(w.db, i) && Paired(w.db, j) && RowKey(w.db.tasks[i]) == RowKey(w.db.tasks[j])
    requires w.db.tasks[i].status == Pending && w.db.tasks[j].status == Pending
    ensures !Mirrored(Apply(w, Deliver(i, w.db.tasks[i].generation)).db)
  {
    var db' := Apply(w, Deliver(i, w.db.tasks[i].generation)).db;
    assert Paired(db', j) && db'.tasks[j].status == Pending;
    assert db'.rows[RowKey(db'.tasks[j])].status == Running;
  }

  /**
   * From a state in which rows mirror their tasks, a step lets a row go wrong, at once or by a next step
   * that disturbs nothing itself, if and only if it disturbs.
   */
  lemma MirrorLostIffDisturbed(w: World, s: Step)
    requires IdsOk(w) && Mirroring(w.db)
    ensures Disturbs(w, s) <==> exists d :: !Disturbs(Apply(w, s), d) && !Mirrored(Exec(w, [s, d]).db)
  {
    var w' := Apply(w, s);
    StepKeepsIds(w, s);
    if Disturbs(w, s) {
      var i, j := DisturbedBreaks(w, s);
      FreshId(w');
      var d := if Mirrored(w'.db) then Deliver(i, w'.db.tasks[i].generation) else Deliver(w'.db.issued, 0);
      if Mirrored(w'.db) {
        ClaimSplitsSharedRow(w', i, j);
      } else {
        assert Apply(w', d) == w';
      }
      TwoSteps(w, s, d);
      assert !Disturbs(w', d) && !Mirrored(Exec(w, [s, d]).db);
    } else {
      StepMirrors(w, s);
      forall d | !Disturbs(w', d) ensures Mirrored(Exec(w, [s, d]).db) {
        StepMirrors(w', d);
        TwoSteps(w, s, d);
      }
    }
  }

  /** What the services check before they submit a record; the public task route checks nothing. */
  predicate MaySubmit(db: Db, kind: Kind, entity: string, user: string) {
    && (kind, entity) in db.rows && db.rows[(kind, entity)].owner == user && db.rows[(kind, entity)].status == Pending
    && forall id | id in db.tasks :: !TaskFor(db, id, kind, entity, user)
  }

  /** A submission by a service never disturbs; one through the public route does exactly when that check would refuse an owned record. */
  lemma ServiceSubmissionsAreQuiet(w: World, kind: Kind, entity: string, user: string, link: bool)
    requires IsBusiness(kind)
    ensures Disturbs(w, Submit(kind, entity, user, link)) <==>
      (kind, entity) in w.db.rows && w.db.rows[(kind, entity)].owner == user && !MaySubmit(w.db, kind, entity, user)
  {
  }

  /**
   * From an empty database: a second submission of a running experiment through the public route, and then
   * cancelling that second task writes cancelled on the row of an experiment whose task is running.
   */
  lemma SecondSubmissionFromEmpty(limit: nat)
    ensures var again := Exec(Empty(limit), Launched(Experiment) + [Submit(Experiment, "e", "u", false)]);
      var cancelled := Exec(Empty(limit), Launched(Experiment) + [Submit(Experiment, "e", "u", false), UserCancels(2, "u")]);
      && !Mirrored(again.db)
      && 0 in cancelled.db.tasks && cancelled.db.tasks[0].status == Running
      && (Experiment, "e") in cancelled.db.rows && cancelled.db.rows[(Experiment, "e")].status == Cancelled
  {
    var w := StartedWorld(limit, Experiment);
    var submit, cancel := Submit(Experiment, "e", "u", false), UserCancels(2, "u");
    var again := Apply(w, submit);
    assert Paired(again.db, 2) && again.db.tasks[2].status == Pending;
    var cancelled := Apply(again, cancel);
    assert cancelled.db.tasks[0].status == Running && cancelled.db.rows[(Experiment, "e")].status == Cancelled;
    OneStep(w, submit);
    TwoSteps(w, submit, cancel);
    ExecSplits(Empty(limit), Launched(Experiment), [submit]);
    ExecSplits(Empty(limit), Launched(Experiment), [submit, cancel]);
  }

  /** From an empty database: a benchmark worker that fails commits its row before its task. */
  lemma WorkerWriteFromEmpty(limit: nat)
    ensures !Mirrored(Exec(Empty(limit), Launched(Benchmark) + [WriteRow(Benchmark, "e", Failed)]).db)
  {
    var w := StartedWorld(limit, Benchmark);
    var write := WriteRow(Benchmark, "e", Failed);
    assert Paired(Apply(w, write).db, 0);
    OneStep(w, write);
    ExecSplits(Empty(limit), Launched(Benchmark), [write]);
  }

  /** Both from an empty database, each under its own condition on the steps. */
  lemma ReachableStates(limit: nat, steps: seq<Step>, user: string)
    ensures NeverDisturbs(Empty(limit), steps) ==> Mirrored(Exec(Empty(limit), steps).db)
    ensures NeverRevives(Empty(limit), steps) ==> |Active(Exec(Empty(limit), steps).db, user)| <= limit
  {
    if NeverDisturbs(Empty(limit), steps) {
      RowsMirrorTasks(Empty(limit), steps);
    }
    if NeverRevives(Empty(limit), steps) {
      assert Active(Empty(limit).db, user) == {};
      AdmissionSafe(Empty(limit), steps, user);
      LimitIsFixed(Empty(limit), steps);
    }
  }

  lemma {:induction false} LimitIsFixed(w: World, steps: seq<Step>)
    ensures Exec(w, steps).limit == w.limit
    decreases |steps|
  {
    if steps != [] {
      LimitIsFixed(Apply(w, steps[0]), steps[1..]);
    }
  }
}
