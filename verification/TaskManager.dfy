// The task manager's methods as they update the shared tables, each proved to be one of the
// transactions of TaskProtocol.dfy.
module TaskManager {
  import opened Models
  import opened TaskProtocol

  /** The tables as one open session sees them. */
  class Session {
    var tasks: map<nat, Task>
    var rows: map<(Kind, string), Row>
    var issued: nat

    function View(): Db
      reads this
    {
      Db(tasks, rows, issued)
    }

    constructor ()
      ensures View() == Empty(0).db
    {
      tasks, rows, issued := map[], map[], 0;
    }

    /** A fresh identifier. */
    method Draw() returns (id: nat)
      modifies this`issued
      ensures id == old(issued) && issued == old(issued) + 1
    {
      id := issued;
      issued := issued + 1;
    }

    method SetStatus(id: nat, status: Status)
      requires id in tasks
      modifies this`tasks
      ensures View() == Store(old(View()), id, old(tasks)[id].(status := status))
    {
      tasks := tasks[id := tasks[id].(status := status)];
    }
  }

  datatype Reply = Done | NotFound | Rejected

  /** A manager, bound to the generation of the worker it serves or to none. */
  class TaskManager {
    const db: Session
    const limit: nat
    var celeryTaskId: Option<nat>

    constructor (db: Session, limit: nat, celeryTaskId: Option<nat>)
      ensures this.db == db && this.limit == limit && this.celeryTaskId == celeryTaskId
    {
      this.db, this.limit, this.celeryTaskId := db, limit, celeryTaskId;
    }

    /** `_sync_business`. */
    method SyncBusinessRow(id: nat)
      requires id in db.tasks
      modifies db`rows
      ensures db.View() == SyncBusiness(old(db.View()), id)
    {
      var task := db.tasks[id];
      var key := (task.kind, task.entity);
      if key !in db.rows {
        return;
      }
      var row := db.rows[key];
      if task.kind == Evaluation && row.task != Some(id) {
        return;
      }
      if row.owner != task.user {
        return;
      }
      db.rows := db.rows[key := row.(status := task.status)];
    }

    /** `_experiment_transition_blocked`. */
    method TransitionBlocked(id: nat, status: Status) returns (blocked: bool)
      requires id in db.tasks
      ensures blocked == Blocked(db.tasks[id], celeryTaskId, status)
    {
      var task := db.tasks[id];
      if task.kind == Evaluation && celeryTaskId == None {
        return false;
      }
      if celeryTaskId != None && Some(task.generation) != celeryTaskId {
        return true;
      }
      return task.status == Completed || task.status == Failed || task.status == Cancelled ||
             (task.status == Paused && status != Cancelled);
    }

    method UpdateTaskStatus(id: nat, status: Status) returns (reply: Reply)
      modifies db`tasks, db`rows
      ensures db.View() == Update(old(db.View()), id, celeryTaskId, status, false)
      ensures reply == if id in old(db.tasks) then Done else NotFound
    {
      if id !in db.tasks {
        return NotFound;
      }
      var blocked := TransitionBlocked(id, status);
      if !blocked {
        db.SetStatus(id, status);
        SyncBusinessRow(id);
      }
      return Done;
    }

    method UpdateTaskProgress(id: nat, status: Status) returns (reply: Reply)
      modifies db`tasks, db`rows
      ensures db.View() == Update(old(db.View()), id, celeryTaskId, status, true)
      ensures reply == if id in old(db.tasks) then Done else NotFound
    {
      if id !in db.tasks {
        return NotFound;
      }
      var blocked := TransitionBlocked(id, status);
      if !blocked {
        db.SetStatus(id, status);
        if db.tasks[id].kind != Evaluation {
          SyncBusinessRow(id);
        }
      }
      return Done;
    }

    /** `claim_task`; a successful claim binds the manager to the claimed generation. */
    method ClaimTask(id: nat, generation: nat) returns (claimed: bool)
      modifies this`celeryTaskId, db`tasks, db`rows
      ensures claimed == CanClaim(old(db.View()), id, generation)
      ensures db.View() == Claim(old(db.View()), id, generation)
      ensures celeryTaskId == if claimed then Some(generation) else old(celeryTaskId)
    {
      if id !in db.tasks {
        return false;
      }
      var task := db.tasks[id];
      if task.status != Pending || task.generation != generation {
        return false;
      }
      celeryTaskId := Some(task.generation);
      db.tasks := db.tasks[id := task.(stopConfirmed := false, status := Running)];
      SyncBusinessRow(id);
      return true;
    }

    /** `confirm_stopped`, called by a worker whose manager is bound to the generation it claimed. */
    method ConfirmStop(id: nat)
      requires celeryTaskId.Some?
      modifies db`tasks
      ensures db.View() == ConfirmStopped(old(db.View()), id, celeryTaskId.value)
    {
      if id in db.tasks && db.tasks[id].status == Paused && db.tasks[id].generation == celeryTaskId.value {
        db.tasks := db.tasks[id := db.tasks[id].(stopConfirmed := true)];
      }
    }

    /** `_reject_finished_business`. */
    method RejectFinished(id: nat) returns (reject: bool)
      requires id in db.tasks
      ensures reject == FinishedBusiness(db.View(), db.tasks[id])
    {
      var task := db.tasks[id];
      if task.kind == Evaluation || (task.kind, task.entity) !in db.rows {
        return false;
      }
      var row := db.rows[(task.kind, task.entity)];
      return row.owner == task.user && (row.status == Completed || row.status == Failed || row.status == Cancelled);
    }

    /** `get_task`: the owner's task, after taking over what the broker reports. */
    method GetTask(id: nat, user: string, state: CeleryState) returns (found: bool)
      modifies db`tasks, db`rows
      ensures found == (id in old(db.tasks) && old(db.tasks)[id].user == user)
      ensures found ==> id in db.tasks && db.tasks[id].user == user
      ensures db.View() == if found then SyncCelery(old(db.View()), id, celeryTaskId, state) else old(db.View())
    {
      if id !in db.tasks || db.tasks[id].user != user {
        return false;
      }
      if db.tasks[id].status == Pending || db.tasks[id].status == Running {
        SyncCeleryState(id, state);
      }
      return true;
    }

    /** `_sync_celery_state`. */
    method SyncCeleryState(id: nat, state: CeleryState)
      requires id in db.tasks && db.tasks[id].status in {Pending, Running}
      modifies db`tasks, db`rows
      ensures db.View() == SyncCelery(old(db.View()), id, celeryTaskId, state)
    {
      if db.tasks[id].kind != Evaluation {
        if state == Failure || state == Revoked {
          var _ := UpdateTaskStatus(id, if state == Failure then Failed else Cancelled);
        }
        return;
      }
      if state == Started || state == Progress {
        db.SetStatus(id, Running);
      } else if state == Failure {
        db.SetStatus(id, Failed);
      }
    }

    /** `pause_task`: the broker's report is committed first, then the pause. */
    method PauseTask(id: nat, user: string, state: CeleryState) returns (reply: Reply)
      modifies db`tasks, db`rows
      ensures reply.NotFound? <==> !(id in old(db.tasks) && old(db.tasks)[id].user == user)
      ensures reply.NotFound? ==> db.View() == old(db.View())
      ensures !reply.NotFound? ==>
        var synced := SyncCelery(old(db.View()), id, celeryTaskId, state);
        && db.View() == Pause(synced, id, user)
        && (reply.Done? <==> CanPause(synced, id, user))
    {
      hide SyncCelery, OwnsRow;
      var found := GetTask(id, user, state);
      if !found {
        return NotFound;
      }
      if db.tasks[id].status != Running {
        return Rejected;
      }
      var finished := RejectFinished(id);
      if finished {
        return Rejected;
      }
      var task := db.tasks[id].(status := Paused);
      if task.kind != Evaluation {
        task := task.(stopConfirmed := false);
      }
      db.tasks := db.tasks[id := task];
      SyncBusinessRow(id);
      return Done;
    }

    /** `cancel_task`; cancelling a cancelled task succeeds and changes nothing. */
    method CancelTask(id: nat, user: string, state: CeleryState) returns (reply: Reply)
      modifies db`tasks, db`rows
      ensures reply.NotFound? <==> !(id in old(db.tasks) && old(db.tasks)[id].user == user)
      ensures reply.NotFound? ==> db.View() == old(db.View())
      ensures !reply.NotFound? ==>
        var synced := SyncCelery(old(db.View()), id, celeryTaskId, state);
        && db.View() == Cancel(synced, id, user)
        && (reply.Done? <==> CanCancel(synced, id, user) || (id in synced.tasks && synced.tasks[id].status == Cancelled))
    {
      var found := GetTask(id, user, state);
      if !found {
        return NotFound;
      }
      if db.tasks[id].status == Completed || db.tasks[id].status == Failed {
        return Rejected;
      }
      if db.tasks[id].status == Cancelled {
        return Done;
      }
      var finished := RejectFinished(id);
      if finished {
        return Rejected;
      }
      db.SetStatus(id, Cancelled);
      SyncBusinessRow(id);
      return Done;
    }

    /** `_check_evaluation_capacity`: counts the user's pending and running evaluations. */
    method CheckCapacity(kind: Kind, user: string) returns (room: bool)
      ensures room == HasCapacity(db.View(), kind, user, limit)
    {
      if kind != Evaluation {
        return true;
      }
      var active := CountActive(user);
      return active < limit;
    }

    /** The admission query. */
    method CountActive(user: string) returns (active: nat)
      ensures active == |Active(db.View(), user)|
    {
      active := 0;
      var left := db.tasks.Keys;
      ghost var all := Active(db.View(), user);
      assert forall id :: id in db.tasks ==>
        (id in all <==> db.tasks[id].user == user && db.tasks[id].kind == Evaluation && db.tasks[id].status in {Pending, Running});
      hide Active;
      ghost var open := all;
      while left != {}
        invariant left <= db.tasks.Keys && open == all * left && active == |all| - |open|
        decreases |left|
      {
        var id :| id in left;
        var task := db.tasks[id];
        if task.user == user && task.kind == Evaluation && (task.status == Pending || task.status == Running) {
          active := active + 1;
        }
        left, open := left - {id}, open - {id};
      }
    }

    /** `enqueue_task` up to its commit; `link` tells whether the hook of an evaluation submission is passed. */
    method EnqueueTask(kind: Kind, entity: string, user: string, link: bool) returns (id: Option<nat>)
      modifies db`tasks, db`rows, db`issued
      ensures db.View() == Enqueue(old(db.View()), kind, entity, user, limit, link)
      ensures id == if HasCapacity(old(db.View()), kind, user, limit) then Some(old(db.issued)) else None
    {
      var room := CheckCapacity(kind, user);
      if !room {
        return None;
      }
      var taskId := db.Draw();
      var generation := db.Draw();
      db.tasks := db.tasks[taskId := Task(kind, entity, user, Pending, generation, false)];
      if link && kind == Evaluation && (kind, entity) in db.rows {
        db.rows := db.rows[(kind, entity) := db.rows[(kind, entity)].(task := Some(taskId))];
      }
      return Some(taskId);
    }

    /** The compensation after a failed first publication. */
    method EnqueuePublishFailed(id: nat)
      modifies db`tasks, db`rows
      ensures db.View() == EnqueueFailed(old(db.View()), id)
    {
      if id in db.tasks && db.tasks[id].status == Pending {
        db.SetStatus(id, Failed);
        if db.tasks[id].kind != Evaluation {
          SyncBusinessRow(id);
        }
      }
    }

    /** `resume_task` up to its commit, after its own `get_task`. */
    method ResumeTask(id: nat, user: string, busy: bool) returns (generation: Option<nat>)
      modifies db`tasks, db`rows, db`issued
      ensures db.View() == Resume(old(db.View()), id, user, limit, busy)
      ensures generation == if CanResume(old(db.View()), id, user, limit, busy) then Some(old(db.issued)) else None
    {
      if id !in db.tasks || db.tasks[id].user != user {
        return None;
      }
      var task := db.tasks[id];
      var room := CheckCapacity(task.kind, user);
      if !room || (task.kind == Evaluation && busy) || task.status != Paused {
        return None;
      }
      var key := (task.kind, task.entity);
      if key !in db.rows || db.rows[key].owner != user {
        return None;
      }
      if task.kind == Evaluation && db.rows[key].task != Some(id) {
        return None;
      }
      if db.rows[key].status != Paused || (task.kind != Evaluation && !task.stopConfirmed) {
        return None;
      }
      var reserved := db.Draw();
      db.tasks := db.tasks[id := task.(generation := reserved, status := Pending)];
      SyncBusinessRow(id);
      return Some(reserved);
    }

    /** The compensation after a failed publication of a continuation: only for that same generation. */
    method ResumePublishFailed(id: nat, generation: nat)
      modifies db`tasks, db`rows
      ensures db.View() == ResumeFailed(old(db.View()), id, generation)
    {
      if id in db.tasks && db.tasks[id].generation == generation && db.tasks[id].status == Pending {
        db.SetStatus(id, Failed);
        SyncBusinessRow(id);
      }
    }
  }
}
