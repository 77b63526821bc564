// What each transaction on the shared tables writes, field by field, and which reports a completed
// task goes back to.
module TaskTransactions {
  import opened Models
  import opened TaskProtocol
  import opened TaskProtocolTheorems

  // -- The write of one transaction ------------------------------------------

  /** The tables after task `id` has become `t`, and the row it works for, if it is its own, shows its status. */
  ghost predicate Writes(db: Db, db': Db, id: nat, t: Task, mirrored: bool) {
    && db'.tasks == db.tasks[id := t] && db'.issued == db.issued
    && db'.rows ==
         if mirrored && (t.kind, t.entity) in db.rows && db.rows[(t.kind, t.entity)].owner == t.user &&
            (t.kind == Evaluation ==> db.rows[(t.kind, t.entity)].task == Some(id))
         then db.rows[(t.kind, t.entity) := db.rows[(t.kind, t.entity)].(status := t.status)] else db.rows
  }

  /** A report of an unbound manager on an evaluation, or of the current generation on a task that is still open to it. */
  predicate Accepted(t: Task, bound: Option<nat>, status: Status) {
    || (t.kind == Evaluation && bound == None)
    || ((bound == None || bound == Some(t.generation)) &&
        (t.status in {Pending, Running} || (t.status == Paused && status == Cancelled)))
  }

  /** An accepted report stores exactly the status reported; any other changes nothing. */
  lemma ReportStores(w: World, id: nat, bound: Option<nat>, status: Status, progress: bool)
    ensures var db, db' := w.db, Apply(w, Report(id, bound, status, progress)).db;
      if id in db.tasks && Accepted(db.tasks[id], bound, status)
      then Writes(db, db', id, db.tasks[id].(status := status), !(progress && db.tasks[id].kind == Evaluation))
      else db' == db
  {
  }

  /** The user may still act on the task: its business row has not ended. */
  predicate OpenTo(db: Db, id: nat, user: string) {
    && id in db.tasks && db.tasks[id].user == user
    && var t := db.tasks[id];
       t.kind != Evaluation && (t.kind, t.entity) in db.rows && db.rows[(t.kind, t.entity)].owner == user ==>
         db.rows[(t.kind, t.entity)].status in {Pending, Running, Paused}
  }

  /** A pause stops a running task, and takes back the stop confirmation of a business task. */
  lemma PauseStores(w: World, id: nat, user: string)
    ensures var db, db' := w.db, Apply(w, UserPauses(id, user)).db;
      if OpenTo(db, id, user) && db.tasks[id].status == Running then
        var t := db.tasks[id];
        Writes(db, db', id, t.(status := Paused, stopConfirmed := t.kind == Evaluation && t.stopConfirmed), true)
      else db' == db
  {
  }

  /** A cancel ends any task that has not ended. */
  lemma CancelStores(w: World, id: nat, user: string)
    ensures var db, db' := w.db, Apply(w, UserCancels(id, user)).db;
      if OpenTo(db, id, user) && db.tasks[id].status in {Pending, Running, Paused}
      then Writes(db, db', id, db.tasks[id].(status := Cancelled), true)
      else db' == db
  {
  }

  /** A delivery of the current generation of a pending task makes it running, and is the only one that claims it. */
  lemma ClaimStores(w: World, id: nat, generation: nat)
    ensures var db, w' := w.db, Apply(w, Deliver(id, generation));
      if id in db.tasks && db.tasks[id].status == Pending && db.tasks[id].generation == generation then
        && Writes(db, w'.db, id, db.tasks[id].(status := Running, stopConfirmed := false), true)
        && w'.claims == w.claims + [(id, generation)] && w'.live == w.live + {(id, generation)}
      else w' == w
  {
  }

  /** A worker that leaves a paused task of its own generation confirms the stop. */
  lemma ExitStores(w: World, id: nat, generation: nat)
    ensures var db, w' := w.db, Apply(w, WorkerExits(id, generation));
      if (id, generation) !in w.live then w' == w
      else
        && w'.live == w.live - {(id, generation)} && w'.confirmed == w.confirmed + {(id, generation)}
        && (if id in db.tasks && db.tasks[id].status == Paused && db.tasks[id].generation == generation
            then Writes(db, w'.db, id, db.tasks[id].(stopConfirmed := true), false)
            else w'.db == db)
  {
  }

  /** A failed publication fails a task nobody has touched since; a first submission leaves an evaluation's row alone. */
  lemma FailedPublicationStores(w: World, id: nat, generation: nat)
    ensures var db, db' := w.db, Apply(w, SubmitFailed(id)).db;
      if id in db.tasks && db.tasks[id].status == Pending
      then Writes(db, db', id, db.tasks[id].(status := Failed), db.tasks[id].kind != Evaluation)
      else db' == db
    ensures var db, db' := w.db, Apply(w, ResumePublishFailed(id, generation)).db;
      if id in db.tasks && db.tasks[id].status == Pending && db.tasks[id].generation == generation
      then Writes(db, db', id, db.tasks[id].(status := Failed), true)
      else db' == db
  {
  }

  /** What the broker's word makes of an open task; nothing when it is not to be taken over. */
  function BrokerStatus(t: Task, bound: Option<nat>, state: CeleryState): Option<Status> {
    if t.status !in {Pending, Running} then None
    else if t.kind == Evaluation then
      match state
      case Started => Some(Status.Running)
      case Progress => Some(Status.Running)
      case Failure => Some(Status.Failed)
      case _ => None
    else if bound != None && bound != Some(t.generation) then None
    else
      match state
      case Failure => Some(Status.Failed)
      case Revoked => Some(Status.Cancelled)
      case _ => None
  }

  /** A broker report moves an open task as listed, and the row of a business task with it. */
  lemma BrokerStores(w: World, id: nat, bound: Option<nat>, state: CeleryState)
    ensures var db, db' := w.db, Apply(w, BrokerSync(id, bound, state)).db;
      if id in db.tasks && BrokerStatus(db.tasks[id], bound, state).Some? then
        var t := db.tasks[id];
        Writes(db, db', id, t.(status := BrokerStatus(t, bound, state).value), t.kind != Evaluation)
      else db' == db
  {
  }

  /** A resume of a stopped task whose own row is paused: pending again, under a generation never used before. */
  lemma ResumeStores(w: World, id: nat, user: string, busy: bool)
    ensures var db, db' := w.db, Apply(w, UserResumes(id, user, busy)).db;
      if && id in db.tasks && db.tasks[id].user == user && db.tasks[id].status == Paused
         && (db.tasks[id].kind, db.tasks[id].entity) in db.rows
         && (var row := db.rows[(db.tasks[id].kind, db.tasks[id].entity)];
             row.owner == user && row.status == Paused && (db.tasks[id].kind == Evaluation ==> row.task == Some(id)))
         && (if db.tasks[id].kind == Evaluation then !busy && |Active(db, user)| < w.limit else db.tasks[id].stopConfirmed)
      then
        && Writes(db, db'.(issued := db.issued), id, db.tasks[id].(status := Pending, generation := db.issued), true)
        && db'.issued == db.issued + 1
      else db' == db
  {
  }

  /** A submission adds one pending task with an identifier and a generation never used before, if there is room. */
  lemma SubmitStores(w: World, kind: Kind, entity: string, user: string, link: bool)
    ensures var db, db' := w.db, Apply(w, Submit(kind, entity, user, link)).db;
      if kind == Evaluation && |Active(db, user)| >= w.limit then db' == db
      else
        && db'.tasks == db.tasks[db.issued := Task(kind, entity, user, Pending, db.issued + 1, false)]
        && db'.issued == db.issued + 2
        && db'.rows == if link && kind == Evaluation && (kind, entity) in db.rows
                       then db.rows[(kind, entity) := db.rows[(kind, entity)].(task := Some(db.issued))] else db.rows
  {
  }

  /** A benchmark over budget is paused with its running row, whoever owns that. */
  lemma BudgetStores(w: World, id: nat)
    ensures var db, db' := w.db, Apply(w, BudgetPauses(id)).db;
      if id in db.tasks && db.tasks[id].kind == Benchmark && db.tasks[id].status == Running then
        var key := (Benchmark, db.tasks[id].entity);
        && db'.tasks == db.tasks[id := db.tasks[id].(status := Paused)] && db'.issued == db.issued
        && db'.rows == if key in db.rows && db.rows[key].status == Running
                       then db.rows[key := db.rows[key].(status := Paused)] else db.rows
      else db' == db
  {
  }

  // -- Completion ------------------------------------------------------------

  /** A manager whose word counts reports the task completed. */
  predicate Completes(w: World, s: Step, id: nat) {
    s.Report? && s.id == id && s.status == Completed && id in w.db.tasks && Accepted(w.db.tasks[id], s.bound, Completed)
  }

  ghost predicate Completion(w: World, steps: seq<Step>, id: nat)
    decreases |steps|
  {
    steps != [] && (Completes(w, steps[0], id) || Completion(Apply(w, steps[0]), steps[1..], id))
  }

  predicate IsCompleted(w: World, id: nat) {
    id in w.db.tasks && w.db.tasks[id].status == Completed
  }

  /** No other step completes a task. */
  lemma StepCompletes(w: World, s: Step, id: nat)
    ensures Completes(w, s, id) ==> IsCompleted(Apply(w, s), id)
    ensures IsCompleted(Apply(w, s), id) ==> IsCompleted(w, id) || Completes(w, s, id)
  {
    match s
    case Submit(kind, entity, user, link) => SubmitStores(w, kind, entity, user, link);
    case SubmitFailed(i) => FailedPublicationStores(w, i, 0);
    case Deliver(i, generation) => ClaimStores(w, i, generation);
    case WorkerExits(i, generation) => ExitStores(w, i, generation);
    case Report(i, bound, status, progress) => ReportStores(w, i, bound, status, progress);
    case BudgetPauses(i) => BudgetStores(w, i);
    case BrokerSync(i, bound, state) => BrokerStores(w, i, bound, state);
    case UserPauses(i, user) => PauseStores(w, i, user);
    case UserCancels(i, user) => CancelStores(w, i, user);
    case UserResumes(i, user, busy) => ResumeStores(w, i, user, busy);
    case ResumePublishFailed(i, generation) => FailedPublicationStores(w, i, generation);
    case _ =>
  }

  lemma {:induction false} CompletionNeeded(w: World, steps: seq<Step>, id: nat)
    requires IsCompleted(Exec(w, steps), id)
    ensures IsCompleted(w, id) || Completion(w, steps, id)
    decreases |steps|
  {
    hide Apply, Completes, IsCompleted;
    if steps != [] {
      StepCompletes(w, steps[0], id);
      CompletionNeeded(Apply(w, steps[0]), steps[1..], id);
    }
  }

  /** Whatever users, the broker and workers do, a task is completed only if an accepted report said so. */
  lemma CompletedWasReported(limit: nat, steps: seq<Step>, id: nat)
    requires IsCompleted(Exec(Empty(limit), steps), id)
    ensures Completion(Empty(limit), steps, id)
  {
    CompletionNeeded(Empty(limit), steps, id);
  }

  lemma {:induction false} KindStays(w: World, steps: seq<Step>, id: nat)
    requires IdsOk(w) && id in w.db.tasks
    ensures id in Exec(w, steps).db.tasks && Exec(w, steps).db.tasks[id].kind == w.db.tasks[id].kind
    decreases |steps|
  {
    if steps != [] {
      StepMovesTasks(w, steps[0]);
      StepKeepsIds(w, steps[0]);
      var w' := Apply(w, steps[0]);
      hide Apply, IdsOk;
      assert Transition(w, steps[0], id, w.db.tasks[id], w'.db.tasks[id]);
      KindStays(w', steps[1..], id);
    }
  }

  lemma {:induction false} CompletionLasts(w: World, steps: seq<Step>, id: nat)
    requires IdsOk(w) && Completion(w, steps, id)
    requires id in Exec(w, steps).db.tasks && IsBusiness(Exec(w, steps).db.tasks[id].kind)
    ensures IsCompleted(Exec(w, steps), id)
    decreases |steps|
  {
    var w' := Apply(w, steps[0]);
    StepKeepsIds(w, steps[0]);
    StepCompletes(w, steps[0], id);
    hide Apply, IdsOk, Completes;
    if Completes(w, steps[0], id) {
      KindStays(w', steps[1..], id);
      FinalForever(w', steps[1..], id);
    } else {
      CompletionLasts(w', steps[1..], id);
    }
  }

  /** For a business task that is exact: an accepted report of its completion stands for good. */
  lemma CompletedIffReported(limit: nat, steps: seq<Step>, id: nat)
    requires id in Exec(Empty(limit), steps).db.tasks && IsBusiness(Exec(Empty(limit), steps).db.tasks[id].kind)
    ensures Exec(Empty(limit), steps).db.tasks[id].status == Completed <==> Completion(Empty(limit), steps, id)
  {
    if IsCompleted(Exec(Empty(limit), steps), id) {
      CompletedWasReported(limit, steps, id);
    }
    if Completion(Empty(limit), steps, id) {
      CompletionLasts(Empty(limit), steps, id);
    }
  }
}
