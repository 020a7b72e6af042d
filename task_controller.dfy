/** The task handlers of server/src/controllers/task.controller.ts that carry
    logic: the paged listing and `completeTask`. */
module TaskController {
  import opened Wrappers
  import opened TaskModel
  import UserModel
  import Store
  import Paging

  /** `getAllTasks`: the window of the collection (in its natural order) the
      page and limit select. */
  function ListTasks(all: seq<Task>, page: Paging.QueryNumber, limit: Paging.QueryNumber)
    : (r: Result<Paging.Listing<Task>, Store.Failure>)
    ensures var q := Paging.ParseQuery(page, limit);
            r == Paging.Window(all, q)
            && (q.skip >= 0 ==> r.Success? && r.value.page == q.page && r.value.total == |all|)
  {
    Paging.Window(all, Paging.ParseQuery(page, limit))
  }

  /** The task-side guards of `completeTask`: active, and the cap (when set) not
      yet reached. Nothing here looks at `startDate` or `endDate`. */
  predicate CompletionAllowed(t: Task) {
    t.isActive && !CapReached(t)
  }

  /** The task after `currentCompletions += 1` and its save. */
  function Counted(t: Task, now: int): (r: Task)
    ensures r.currentCompletions == t.currentCompletions + 1 && r.updatedAt == now
    ensures SchemaValid(t) ==> SchemaValid(r)
    // nothing else changes
    ensures r == t.(currentCompletions := r.currentCompletions, updatedAt := r.updatedAt)
  {
    t.(currentCompletions := t.currentCompletions + 1, updatedAt := now)
  }

  /** The success reply of `completeTask`. */
  datatype Completion = Completion(reward: int, newBalance: int)

  /** `completeTask`, one atomic step over the store. */
  method CompleteTask(db: Store.Database, taskId: nat, userId: Option<nat>, now: int)
    returns (r: Result<Completion, Store.Failure>)
    requires db.Valid()
    modifies db
    ensures db.Valid()
    ensures db.payments == old(db.payments) && db.nextId == old(db.nextId)
    // the guards, in the order the handler checks them
    ensures taskId !in old(db.tasks) ==> r == Failure(Store.Reply(404, "Task not found"))
    ensures taskId in old(db.tasks) && !old(db.tasks)[taskId].isActive ==>
              r == Failure(Store.Reply(400, "Task is not active"))
    ensures taskId in old(db.tasks) && old(db.tasks)[taskId].isActive && CapReached(old(db.tasks)[taskId]) ==>
              r == Failure(Store.Reply(400, "Task has reached maximum completions"))
    ensures taskId in old(db.tasks) && CompletionAllowed(old(db.tasks)[taskId])
            && (userId.None? || userId.value !in old(db.users)) ==>
              r == Failure(Store.Reply(404, "User not found"))
    ensures r.Failure? ==> db.users == old(db.users) && db.tasks == old(db.tasks)
    ensures r.Success? <==> taskId in old(db.tasks) && CompletionAllowed(old(db.tasks)[taskId])
                            && userId.Some? && userId.value in old(db.users)
    // the update
    ensures r.Success? ==>
              var t, u := old(db.tasks)[taskId], old(db.users)[userId.value];
              && db.tasks == old(db.tasks)[taskId := Counted(t, now)]
              && db.users == old(db.users)[userId.value := UserModel.LedgerMoved(u, t.reward, t.reward, 0, now)]
              && r.value == Completion(t.reward, db.users[userId.value].balance)
              && (HasCap(t) ==> db.tasks[taskId].currentCompletions <= t.maxCompletions.value)
    ensures Store.DriftKept(old(db.users), db.users)
    ensures Store.Balanced(old(db.users)) ==> Store.Balanced(db.users)
  {
    if taskId !in db.tasks {
      return Failure(Store.Reply(404, "Task not found"));
    }
    var task := db.tasks[taskId];
    if !task.isActive {
      return Failure(Store.Reply(400, "Task is not active"));
    }
    if HasCap(task) && task.currentCompletions >= task.maxCompletions.value {
      return Failure(Store.Reply(400, "Task has reached maximum completions"));
    }
    if userId.None? || userId.value !in db.users {
      return Failure(Store.Reply(404, "User not found"));
    }
    ApplyCompletion(db, taskId, userId.value, now);
    r := Success(Completion(task.reward, db.users[userId.value].balance));
  }
  /** The update half of `completeTask`, once every guard has passed: the
      counter and the user's two ledger fields move together. */
  method ApplyCompletion(db: Store.Database, taskId: nat, uid: nat, now: int)
    requires db.Valid()
    requires taskId in db.tasks && CompletionAllowed(db.tasks[taskId]) && uid in db.users
    modifies db
    ensures db.Valid()
    ensures db.payments == old(db.payments) && db.nextId == old(db.nextId)
    ensures var t, u := old(db.tasks)[taskId], old(db.users)[uid];
            && db.tasks == old(db.tasks)[taskId := Counted(t, now)]
            && db.users == old(db.users)[uid := UserModel.LedgerMoved(u, t.reward, t.reward, 0, now)]
    ensures Store.DriftKept(old(db.users), db.users)
    ensures Store.Balanced(old(db.users)) ==> Store.Balanced(db.users)
  {
    var t := db.tasks[taskId];
    var u := db.users[uid];
    var task := Counted(t, now);
    var doc := new UserModel.UserDoc.Load(u);
    doc.user := doc.user.(balance := doc.user.balance + t.reward);
    doc.user := doc.user.(totalEarned := doc.user.totalEarned + t.reward);
    doc.Resave(now);
    var saved := doc.user;
    assert saved == UserModel.LedgerMoved(u, t.reward, t.reward, 0, now);
    Store.WriteTask(db.users, db.tasks, db.payments, db.nextId, taskId, task);
    Store.Rewrite(db.users, db.tasks[taskId := task], db.payments, db.nextId, uid, saved);
    db.tasks, db.users := db.tasks[taskId := task], db.users[uid := saved];
  }

  /** `completeTask` ignores the date window: there is a task within the schema
      that the handler accepts although `isAvailable` says it is not available. */
  lemma CompletionIgnoresDateWindow()
    ensures exists t: Task, now: int :: SchemaValid(t) && CompletionAllowed(t) && !IsAvailable(t, now)
  {
    var t := NewTask("Follow", "", Daily, 10, "social", 0).(endDate := Some(100));
    assert SchemaValid(t) && CompletionAllowed(t) && !IsAvailable(t, 101);
  }

  /** Within the date window the handler's guards and `isAvailable` agree; the
      dates alone never change the handler's decision. */
  lemma CompletionMatchesAvailability(t: Task, now: int)
    ensures (t.startDate.None? || t.startDate.value <= now) && (t.endDate.None? || now <= t.endDate.value) ==>
              (CompletionAllowed(t) <==> IsAvailable(t, now))
    ensures IsAvailable(t, now) ==> CompletionAllowed(t)
    ensures forall s: Option<int>, e: Option<int> ::
              CompletionAllowed(t.(startDate := s, endDate := e)) == CompletionAllowed(t)
  {
  }
}
