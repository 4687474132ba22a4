/** The daily-task routes: completing a task once for its reward, the date
    reset that makes tasks completable again, and task creation by an admin. */
module Tasks {
  import opened Ledger
  import opened Store

  /** `POST /tasks/:taskId/complete` on the database as a value, at time
      `now`; the reply is the reward's resource type and amount. */
  function CompleteTask(w: World, user: UserId, id: TaskId, now: int): (r: (Result<(ResourceType, int)>, World))
    requires WorldValid(w)
    ensures WorldValid(r.1)
    ensures r.0.Err? ==> r.1 == w
  {
    if id !in w.tasks then (Err(TaskNotFound), w)
    else if (user, id) in w.completions then (Err(TaskAlreadyCompleted), w)
    else match KingdomOf(w.kingdoms, user)
      case None => (Err(KingdomNotFound), w)
      case Some(k) =>
        var task := w.tasks[id];
        (Ok((task.rewardType, task.rewardAmount)),
         w.(completions := w.completions[(user, id) := now],
            resources := Adjust(w.resources, k, task.rewardType, task.rewardAmount)))
  }

  /** The completions that `DELETE FROM user_daily_tasks WHERE completed_at <
      CURRENT_DATE` keeps, with `today` the start of the current date. */
  function Kept(completions: map<(UserId, TaskId), int>, today: int): map<(UserId, TaskId), int> {
    map c | c in completions && completions[c] >= today :: completions[c]
  }

  /** `POST /tasks/reset` on the database as a value. */
  function Reset(w: World, today: int): (r: World)
    requires WorldValid(w)
    ensures WorldValid(r)
  {
    w.(completions := Kept(w.completions, today))
  }

  /** `SELECT * FROM users WHERE id = $1 AND role = 'admin'` returns a row. */
  predicate IsAdmin(roles: map<UserId, string>, user: UserId) {
    user in roles && roles[user] == "admin"
  }

  /** `POST /tasks` on the database as a value: the reply is the new row and its id. */
  function CreateTask(w: World, user: UserId, task: Task): (r: (Result<(TaskId, Task)>, World))
    requires WorldValid(w)
    ensures WorldValid(r.1)
    ensures r.0.Err? ==> r.1 == w
  {
    if !IsAdmin(w.roles, user) then (Err(NotAuthorized), w)
    else
      var id := w.serial.task;
      (Ok((id, task)), w.(tasks := w.tasks[id := task], serial := w.serial.(task := id + 1)))
  }

  /** The complete-task route, query by query. */
  method HandleCompleteTask(db: Db, user: UserId, id: TaskId, now: int) returns (r: Result<(ResourceType, int)>)
    requires db.Valid()
    modifies db
    ensures db.Valid()
    ensures (r, db.Snapshot()) == CompleteTask(old(db.Snapshot()), user, id, now)
  {
    if id !in db.tasks {
      return Err(TaskNotFound);
    }
    if (user, id) in db.completions {
      return Err(TaskAlreadyCompleted);
    }
    var kingdom := KingdomOf(db.kingdoms, user);
    if kingdom.None? {
      return Err(KingdomNotFound);
    }
    ghost var w := db.Snapshot();
    db.completions := db.completions[(user, id) := now];
    var task := db.tasks[id];
    db.resources := Adjust(db.resources, kingdom.value, task.rewardType, task.rewardAmount);
    assert db.Snapshot() == w.(completions := db.completions, resources := db.resources);
    r := Ok((task.rewardType, task.rewardAmount));
  }

  /** The reset route: one bulk DELETE. */
  method HandleReset(db: Db, today: int)
    requires db.Valid()
    modifies db
    ensures db.Valid()
    ensures db.Snapshot() == Reset(old(db.Snapshot()), today)
  {
    ghost var w := db.Snapshot();
    db.completions := Kept(db.completions, today);
    assert db.Snapshot() == w.(completions := db.completions);
  }

  /** The create-task route, query by query. */
  method HandleCreateTask(db: Db, user: UserId, task: Task) returns (r: Result<(TaskId, Task)>)
    requires db.Valid()
    modifies db
    ensures db.Valid()
    ensures (r, db.Snapshot()) == CreateTask(old(db.Snapshot()), user, task)
  {
    if !IsAdmin(db.roles, user) {
      return Err(NotAuthorized);
    }
    ghost var w := db.Snapshot();
    var id := db.serial.task;
    db.tasks := db.tasks[id := task];
    db.serial := db.serial.(task := id + 1);
    assert db.Snapshot() == w.(tasks := db.tasks, serial := db.serial);
    r := Ok((id, task));
  }

  /** Completing a task is refused, in this order, when no task has the id
      given, when this user has already completed it, or when the user has no
      kingdom; otherwise the completion is recorded at `now` and the reward
      is added to the kingdom's row of the reward type (lost when the kingdom
      has no such row), no other row changing. */
  lemma CompleteTaskOutcome(w: World, user: UserId, id: TaskId, now: int)
    requires WorldValid(w)
    ensures var (r, w') := CompleteTask(w, user, id, now);
      var k := KingdomOf(w.kingdoms, user);
      && (r.Ok? <==> id in w.tasks && (user, id) !in w.completions && k.Some?)
      && (id !in w.tasks ==> r == Err(TaskNotFound))
      && (id in w.tasks && (user, id) in w.completions ==> r == Err(TaskAlreadyCompleted))
      && (id in w.tasks && (user, id) !in w.completions && k.None? ==> r == Err(KingdomNotFound))
      && (r.Ok? ==>
            var task := w.tasks[id];
            && r.value == (task.rewardType, task.rewardAmount)
            && w'.completions == w.completions[(user, id) := now]
            && w'.resources.Keys == w.resources.Keys
            && ((k.value, task.rewardType) in w.resources ==>
                  w'.resources[(k.value, task.rewardType)] == w.resources[(k.value, task.rewardType)] + task.rewardAmount)
            && (forall key :: key in w.resources && key != (k.value, task.rewardType) ==>
                  w'.resources[key] == w.resources[key]))
  {
  }

  /** A completed task cannot be completed again by the same user, at any
      later time, until a reset removes the completion. */
  lemma CompleteTaskOnce(w: World, user: UserId, id: TaskId, now: int, later: int)
    requires WorldValid(w)
    requires CompleteTask(w, user, id, now).0.Ok?
    ensures var w' := CompleteTask(w, user, id, now).1;
      CompleteTask(w', user, id, later) == (Err(TaskAlreadyCompleted), w')
  {
  }

  /** The reset keeps exactly the completions dated today or later, changes
      nothing else, and a second reset with the same date changes nothing. */
  lemma ResetOutcome(w: World, today: int)
    requires WorldValid(w)
    ensures var w' := Reset(w, today);
      && (forall c :: c in w'.completions <==> c in w.completions && w.completions[c] >= today)
      && (forall c :: c in w'.completions ==> w'.completions[c] == w.completions[c])
      && w' == w.(completions := w'.completions)
      && Reset(w', today) == w'
  {
    var w' := Reset(w, today);
    assert Kept(w'.completions, today) == w'.completions;
  }

  /** A task completed before the reset date can be completed again after
      the reset, with the same reward. */
  lemma CompletableAgainAfterReset(w: World, user: UserId, id: TaskId, now: int, today: int, later: int)
    requires WorldValid(w)
    requires CompleteTask(w, user, id, now).0.Ok?
    requires now < today
    ensures var w1 := Reset(CompleteTask(w, user, id, now).1, today);
      CompleteTask(w1, user, id, later).0 == CompleteTask(w, user, id, now).0
  {
    var w1 := Reset(CompleteTask(w, user, id, now).1, today);
    assert (user, id) !in w1.completions;
  }

  /** Creating a task is refused unless the user's role is admin; an admin's
      task gets a fresh id and nothing else changes. */
  lemma CreateTaskOutcome(w: World, user: UserId, task: Task)
    requires WorldValid(w)
    ensures var (r, w') := CreateTask(w, user, task);
      && (r.Ok? <==> user in w.roles && w.roles[user] == "admin")
      && (r.Err? ==> r.error == NotAuthorized)
      && (r.Ok? ==> r.value.0 !in w.tasks && r.value.1 == task && w'.tasks == w.tasks[r.value.0 := task])
  {
  }
}
