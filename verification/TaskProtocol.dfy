// The lifecycle of an asynchronous task: users, the broker and workers act on one shared row,
// each in atomic transactions, in any order.

/** The shared tables and every transaction on them. */
module TaskProtocol {
  import opened Models

  datatype Kind = Experiment | Benchmark | ABTest | Evaluation

  datatype Status = Pending | Running | Paused | Completed | Failed | Cancelled

  /** A row of `async_tasks`; `generation` is its `celery_task_id`, `stopConfirmed` the entry in `progress`. */
  datatype Task = Task(kind: Kind, entity: string, user: string, status: Status, generation: nat, stopConfirmed: bool)

  /** The business row a task works for; `task` is the link that only evaluations carry. */
  datatype Row = Row(owner: string, status: Status, task: Option<nat>)

  /** `issued` identifiers have been drawn so far: task ids and generations are never reused. */
  datatype Db = Db(tasks: map<nat, Task>, rows: map<(Kind, string), Row>, issued: nat)

  /** The broker's view of one message. */
  datatype CeleryState = Waiting | Started | Progress | Failure | Revoked | Success

  predicate IsTerminal(s: Status) {
    s == Completed || s == Failed || s == Cancelled
  }

  predicate IsBusiness(k: Kind) {
    k != Evaluation
  }

  function RowKey(t: Task): (Kind, string) {
    (t.kind, t.entity)
  }

  /** The row the task may mirror its status onto. */
  predicate OwnsRow(db: Db, id: nat) {
    && id in db.tasks && RowKey(db.tasks[id]) in db.rows
    && db.rows[RowKey(db.tasks[id])].owner == db.tasks[id].user
    && (db.tasks[id].kind == Evaluation ==> db.rows[RowKey(db.tasks[id])].task == Some(id))
  }

  /** `_sync_business`. */
  function SyncBusiness(db: Db, id: nat): Db {
    if !OwnsRow(db, id) then db
    else
      var t := db.tasks[id];
      db.(rows := db.rows[RowKey(t) := db.rows[RowKey(t)].(status := t.status)])
  }

  function Store(db: Db, id: nat, t: Task): Db {
    db.(tasks := db.tasks[id := t])
  }

  /** `_experiment_transition_blocked`, for a manager bound to a generation or to none. */
  predicate Blocked(t: Task, bound: Option<nat>, status: Status) {
    if t.kind == Evaluation && bound.None? then false
    else
      || (bound.Some? && t.generation != bound.value)
      || IsTerminal(t.status)
      || (t.status == Paused && status != Cancelled)
  }

  /** `update_task_status`, or `update_task_progress`, which leaves evaluation rows alone. */
  function Update(db: Db, id: nat, bound: Option<nat>, status: Status, progress: bool): Db {
    if id !in db.tasks || Blocked(db.tasks[id], bound, status) then db
    else
      var db' := Store(db, id, db.tasks[id].(status := status));
      if progress && !IsBusiness(db.tasks[id].kind) then db' else SyncBusiness(db', id)
  }

  predicate CanClaim(db: Db, id: nat, generation: nat) {
    id in db.tasks && db.tasks[id].status == Pending && db.tasks[id].generation == generation
  }

  /** `claim_task`, for a delivery of one generation. */
  function Claim(db: Db, id: nat, generation: nat): Db {
    if !CanClaim(db, id, generation) then db
    else SyncBusiness(Store(db, id, db.tasks[id].(status := Running, stopConfirmed := false)), id)
  }

  /** `confirm_stopped`, by the worker of one generation. */
  function ConfirmStopped(db: Db, id: nat, generation: nat): Db {
    if id in db.tasks && db.tasks[id].status == Paused && db.tasks[id].generation == generation
    then Store(db, id, db.tasks[id].(stopConfirmed := true)) else db
  }

  /** `_reject_finished_business`. */
  predicate FinishedBusiness(db: Db, t: Task) {
    IsBusiness(t.kind) && RowKey(t) in db.rows && db.rows[RowKey(t)].owner == t.user && IsTerminal(db.rows[RowKey(t)].status)
  }

  predicate CanPause(db: Db, id: nat, user: string) {
    && id in db.tasks && db.tasks[id].user == user
    && db.tasks[id].status == Running && !FinishedBusiness(db, db.tasks[id])
  }

  function Pause(db: Db, id: nat, user: string): Db {
    if !CanPause(db, id, user) then db
    else
      var t := db.tasks[id];
      SyncBusiness(Store(db, id, t.(status := Paused, stopConfirmed := t.stopConfirmed && !IsBusiness(t.kind))), id)
  }

  predicate CanCancel(db: Db, id: nat, user: string) {
    && id in db.tasks && db.tasks[id].user == user
    && !IsTerminal(db.tasks[id].status) && !FinishedBusiness(db, db.tasks[id])
  }

  function Cancel(db: Db, id: nat, user: string): Db {
    if !CanCancel(db, id, user) then db
    else SyncBusiness(Store(db, id, db.tasks[id].(status := Cancelled)), id)
  }

  /** Evaluations of one user that hold an admission slot. */
  function Active(db: Db, user: string): set<nat> {
    set id | id in db.tasks && db.tasks[id].kind == Evaluation && db.tasks[id].user == user &&
             db.tasks[id].status in {Pending, Running}
  }

  /** `_check_evaluation_capacity`. */
  predicate HasCapacity(db: Db, kind: Kind, user: string, limit: nat) {
    kind != Evaluation || |Active(db, user)| < limit
  }

  /** `enqueue_task` up to its commit; `link` tells whether it is called with the hook that links an evaluation. */
  function Enqueue(db: Db, kind: Kind, entity: string, user: string, limit: nat, link: bool): Db {
    if !HasCapacity(db, kind, user, limit) then db
    else
      var id := db.issued;
      var added := Store(db, id, Task(kind, entity, user, Pending, db.issued + 1, false)).(issued := db.issued + 2);
      if link && kind == Evaluation && (kind, entity) in db.rows
      then added.(rows := db.rows[(kind, entity) := db.rows[(kind, entity)].(task := Some(id))]) else added
  }

  /** Publishing failed after the commit: only a task still pending becomes failed. */
  function EnqueueFailed(db: Db, id: nat): Db {
    if id !in db.tasks || db.tasks[id].status != Pending then db
    else
      var db' := Store(db, id, db.tasks[id].(status := Failed));
      if db.tasks[id].kind == Evaluation then db' else SyncBusiness(db', id)
  }

  /** `busy`: a live executor holds the evaluation's execution lock. */
  predicate CanResume(db: Db, id: nat, user: string, limit: nat, busy: bool) {
    && id in db.tasks && db.tasks[id].user == user
    && HasCapacity(db, db.tasks[id].kind, user, limit)
    && (db.tasks[id].kind == Evaluation ==> !busy)
    && db.tasks[id].status == Paused
    && OwnsRow(db, id) && db.rows[RowKey(db.tasks[id])].status == Paused
    && (IsBusiness(db.tasks[id].kind) ==> db.tasks[id].stopConfirmed)
  }

  /** `resume_task` up to its commit: a new generation is reserved. */
  function Resume(db: Db, id: nat, user: string, limit: nat, busy: bool): Db {
    if !CanResume(db, id, user, limit, busy) then db
    else
      var db' := Store(db, id, db.tasks[id].(status := Pending, generation := db.issued));
      SyncBusiness(db'.(issued := db.issued + 1), id)
  }

  function ResumeFailed(db: Db, id: nat, generation: nat): Db {
    if !CanClaim(db, id, generation) then db
    else SyncBusiness(Store(db, id, db.tasks[id].(status := Failed)), id)
  }

  /** `_sync_celery_state`: what the broker reports about the current generation. */
  function SyncCelery(db: Db, id: nat, bound: Option<nat>, state: CeleryState): Db {
    if id !in db.tasks || db.tasks[id].status !in {Pending, Running} then db
    else if IsBusiness(db.tasks[id].kind) then
      if state == Failure then Update(db, id, bound, Failed, false)
      else if state == Revoked then Update(db, id, bound, Cancelled, false)
      else db
    else if state == Started || state == Progress then Store(db, id, db.tasks[id].(status := Running))
    else if state == Failure then Store(db, id, db.tasks[id].(status := Failed))
    else db
  }

  // -- All actors together ---------------------------------------------------

  /**
   * `claims` lists the generations workers have claimed, in order; `live` the claiming workers still at
   * work; `confirmed` those that have called `confirm_stopped`, the last thing a claiming worker does.
   */
  datatype World = World(db: Db, limit: nat, claims: seq<(nat, nat)>, live: set<(nat, nat)>, confirmed: set<(nat, nat)>)

  datatype Step =
    | CreateRow(kind: Kind, entity: string, user: string)
    | DeleteRow(kind: Kind, entity: string)
    | WriteRow(kind: Kind, entity: string, status: Status)
    | Submit(kind: Kind, entity: string, user: string, link: bool)
    | SubmitFailed(id: nat)
    | Deliver(id: nat, generation: nat)
    | WorkerExits(id: nat, generation: nat)
    | Report(id: nat, bound: Option<nat>, status: Status, progress: bool)
    | BudgetPauses(id: nat)
    | BrokerSync(id: nat, bound: Option<nat>, state: CeleryState)
    | UserPauses(id: nat, user: string)
    | UserCancels(id: nat, user: string)
    | UserResumes(id: nat, user: string, busy: bool)
    | ResumePublishFailed(id: nat, generation: nat)

  /** A benchmark over budget pauses its task and its running row, without looking at who owns the row. */
  function BudgetPause(db: Db, id: nat): Db {
    if id !in db.tasks || db.tasks[id].kind != Benchmark || db.tasks[id].status != Running then db
    else
      var key := RowKey(db.tasks[id]);
      var db' := Store(db, id, db.tasks[id].(status := Paused));
      if key in db.rows && db.rows[key].status == Running
      then db'.(rows := db.rows[key := db.rows[key].(status := Paused)]) else db'
  }

  function Apply(w: World, s: Step): World {
    match s
    case CreateRow(kind, entity, user) =>
      if (kind, entity) in w.db.rows then w
      else w.(db := w.db.(rows := w.db.rows[(kind, entity) := Row(user, Pending, None)]))
    case DeleteRow(kind, entity) => w.(db := w.db.(rows := w.db.rows - {(kind, entity)}))
    case WriteRow(kind, entity, status) =>
      if (kind, entity) in w.db.rows
      then w.(db := w.db.(rows := w.db.rows[(kind, entity) := w.db.rows[(kind, entity)].(status := status)])) else w
    case Submit(kind, entity, user, link) => w.(db := Enqueue(w.db, kind, entity, user, w.limit, link))
    case SubmitFailed(id) => w.(db := EnqueueFailed(w.db, id))
    case Deliver(id, generation) =>
      if CanClaim(w.db, id, generation)
      then w.(db := Claim(w.db, id, generation), claims := w.claims + [(id, generation)], live := w.live + {(id, generation)})
      else w
    case WorkerExits(id, generation) =>
      if (id, generation) in w.live
      then w.(db := ConfirmStopped(w.db, id, generation), live := w.live - {(id, generation)},
              confirmed := w.confirmed + {(id, generation)})
      else w
    case Report(id, bound, status, progress) => w.(db := Update(w.db, id, bound, status, progress))
    case BudgetPauses(id) => w.(db := BudgetPause(w.db, id))
    case BrokerSync(id, bound, state) => w.(db := SyncCelery(w.db, id, bound, state))
    case UserPauses(id, user) => w.(db := Pause(w.db, id, user))
    case UserCancels(id, user) => w.(db := Cancel(w.db, id, user))
    case UserResumes(id, user, busy) => w.(db := Resume(w.db, id, user, w.limit, busy))
    case ResumePublishFailed(id, generation) => w.(db := ResumeFailed(w.db, id, generation))
  }

  function Exec(w: World, steps: seq<Step>): World
    decreases |steps|
  {
    if steps == [] then w else Exec(Apply(w, steps[0]), steps[1..])
  }

  function Empty(limit: nat): World {
    World(Db(map[], map[], 0), limit, [], {}, {})
  }
}
