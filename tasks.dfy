/**
 * The five task routes. Each first resolves the caller from the bearer token
 * and checks the API key, and every query is filtered on the caller's id, so
 * a task owned by someone else behaves exactly like a task that does not
 * exist.
 */
module Tasks {

  import opened Wrappers
  import opened Http
  import opened Models
  import opened Deps

  /**
   * The dependencies every task route declares, in their order: the current
   * user, then the API key. A request passes only when both pass.
   */
  function Authorize(cred: Credentials, users: map<int, User>, settings: Settings, now: int): (r: Result<User>)
    ensures r.Success? <==>
      CurrentUser(cred.bearer, users, settings.crypto, now).Success? &&
      RequireApiKey(cred.apiKey, settings.apiKey).Success?
    ensures r.Success? ==> r.value == CurrentUser(cred.bearer, users, settings.crypto, now).value
    ensures cred.apiKey != Some(settings.apiKey) || cred.bearer.None? ==> r.Failure?
  {
    match CurrentUser(cred.bearer, users, settings.crypto, now)
    case Failure(e) => Failure(e)
    case Success(user) =>
      match RequireApiKey(cred.apiKey, settings.apiKey)
      case Failure(e) => Failure(e)
      case Success(_) => Success(user)
  }

  /** The query on id and owner: a task is found only under its owner's id. */
  function FindOwned(tasks: map<int, Task>, taskId: int, uid: int): (r: Option<Task>)
    ensures r.Some? <==> taskId in tasks && tasks[taskId].userId == uid
    ensures r.Some? ==> r.value == tasks[taskId]
  {
    if taskId in tasks && tasks[taskId].userId == uid then Some(tasks[taskId]) else None
  }

  /**
   * The query on owner: every task of `uid` and nothing else, in ascending id
   * order.
   */
  function OwnedTasks(tasks: map<int, Task>, uid: int): (r: seq<Task>)
    requires TaskKeysAreIds(tasks)
    ensures forall i :: 0 <= i < |r| ==> r[i].id in tasks && tasks[r[i].id] == r[i] && r[i].userId == uid
    ensures forall k :: k in tasks && tasks[k].userId == uid ==> tasks[k] in r
    ensures forall i, j :: 0 <= i < j < |r| ==> r[i].id < r[j].id
    decreases tasks.Keys
  {
    if tasks == map[] then []
    else
      var k := SmallestKey(tasks.Keys);
      var rest := OwnedTasks(tasks - {k}, uid);
      assert forall j :: j in tasks && j != k ==> j in tasks - {k} && (tasks - {k})[j] == tasks[j];
      if tasks[k].userId == uid then [tasks[k]] + rest else rest
  }

  /**
   * The query on id and owner agrees with the query on owner: a task is found
   * by id exactly when it is in the caller's list, and it is the listed row.
   */
  lemma GetAgreesWithList(tasks: map<int, Task>, taskId: int, uid: int)
    requires TaskKeysAreIds(tasks)
    ensures FindOwned(tasks, taskId, uid).Some? <==>
      exists i :: 0 <= i < |OwnedTasks(tasks, uid)| && OwnedTasks(tasks, uid)[i].id == taskId
    ensures forall i :: 0 <= i < |OwnedTasks(tasks, uid)| && OwnedTasks(tasks, uid)[i].id == taskId ==>
      FindOwned(tasks, taskId, uid) == Some(OwnedTasks(tasks, uid)[i])
  {
    var listed := OwnedTasks(tasks, uid);
    if FindOwned(tasks, taskId, uid).Some? {
      var i :| 0 <= i < |listed| && listed[i] == tasks[taskId];
    }
  }

  /** `create_task`: one new row for the caller, with the column defaults. */
  method CreateTask(db: Database, cred: Credentials, settings: Settings, now: int, title: string, description: Option<string>)
    returns (r: Result<Task>)
    requires db.Valid()
    modifies db
    ensures db.Valid()
    ensures db.users == old(db.users)
    ensures FixedFieldsKept(old(db.tasks), db.tasks)
    ensures Authorize(cred, old(db.users), settings, now).Failure? ==>
      r == Failure(Authorize(cred, old(db.users), settings, now).error) && db.tasks == old(db.tasks)
    ensures Authorize(cred, old(db.users), settings, now).Success? ==>
      && r.Success?
      && r.value.id == NextRowId(old(db.tasks).Keys)
      && r.value.id !in old(db.tasks)
      && r.value == NewTask(r.value.id, Authorize(cred, old(db.users), settings, now).value.id, title, description, now)
      && db.tasks == old(db.tasks)[r.value.id := r.value]
  {
    var gate := Authorize(cred, db.users, settings, now);
    if gate.Failure? {
      return Failure(gate.error);
    }
    var task := NewTask(NextRowId(db.tasks.Keys), gate.value.id, title, description, now);
    db.tasks := db.tasks[task.id := task];
    return Success(task);
  }

  /** `list_tasks`: the caller's tasks; the store is only read. */
  method ListTasks(db: Database, cred: Credentials, settings: Settings, now: int) returns (r: Result<seq<Task>>)
    requires db.Valid()
    ensures Authorize(cred, db.users, settings, now).Failure? ==>
      r == Failure(Authorize(cred, db.users, settings, now).error)
    ensures Authorize(cred, db.users, settings, now).Success? ==>
      r == Success(OwnedTasks(db.tasks, Authorize(cred, db.users, settings, now).value.id))
  {
    var gate := Authorize(cred, db.users, settings, now);
    if gate.Failure? {
      return Failure(gate.error);
    }
    return Success(OwnedTasks(db.tasks, gate.value.id));
  }

  /**
   * `get_task`: the caller's task with that id; "Task not found" alike when no
   * task has the id and when its owner is someone else.
   */
  method GetTask(db: Database, cred: Credentials, settings: Settings, now: int, taskId: int) returns (r: Result<Task>)
    ensures Authorize(cred, db.users, settings, now).Failure? ==>
      r == Failure(Authorize(cred, db.users, settings, now).error)
    ensures Authorize(cred, db.users, settings, now).Success? ==>
      var uid := Authorize(cred, db.users, settings, now).value.id;
      && (taskId in db.tasks && db.tasks[taskId].userId == uid ==> r == Success(db.tasks[taskId]))
      && (taskId !in db.tasks || db.tasks[taskId].userId != uid ==> r == Failure(TaskNotFound))
  {
    var gate := Authorize(cred, db.users, settings, now);
    if gate.Failure? {
      return Failure(gate.error);
    }
    var found := FindOwned(db.tasks, taskId, gate.value.id);
    if found.None? {
      return Failure(TaskNotFound);
    }
    return Success(found.value);
  }

  /**
   * `update_task_status`: on the caller's task only the status changes; a
   * missing or foreign task gives "Task not found" and the store is unchanged.
   */
  method UpdateTaskStatus(db: Database, cred: Credentials, settings: Settings, now: int, taskId: int, status: TaskStatus)
    returns (r: Result<Task>)
    requires db.Valid()
    modifies db
    ensures db.Valid()
    ensures db.users == old(db.users)
    ensures FixedFieldsKept(old(db.tasks), db.tasks)
    ensures Authorize(cred, old(db.users), settings, now).Failure? ==>
      r == Failure(Authorize(cred, old(db.users), settings, now).error) && db.tasks == old(db.tasks)
    ensures Authorize(cred, old(db.users), settings, now).Success? ==>
      var uid := Authorize(cred, old(db.users), settings, now).value.id;
      && (taskId in old(db.tasks) && old(db.tasks)[taskId].userId == uid ==>
            && r == Success(old(db.tasks)[taskId].(status := status))
            && db.tasks == old(db.tasks)[taskId := r.value])
      && (taskId !in old(db.tasks) || old(db.tasks)[taskId].userId != uid ==>
            r == Failure(TaskNotFound) && db.tasks == old(db.tasks))
  {
    var gate := Authorize(cred, db.users, settings, now);
    if gate.Failure? {
      return Failure(gate.error);
    }
    var found := FindOwned(db.tasks, taskId, gate.value.id);
    if found.None? {
      return Failure(TaskNotFound);
    }
    var task := found.value.(status := status);
    db.tasks := db.tasks[taskId := task];
    return Success(task);
  }

  /**
   * `delete_task`: removes the caller's task and nothing else; a missing or
   * foreign task gives "Task not found" and the store is unchanged.
   */
  method DeleteTask(db: Database, cred: Credentials, settings: Settings, now: int, taskId: int) returns (r: Result<()>)
    requires db.Valid()
    modifies db
    ensures db.Valid()
    ensures db.users == old(db.users)
    ensures FixedFieldsKept(old(db.tasks), db.tasks)
    ensures Authorize(cred, old(db.users), settings, now).Failure? ==>
      r == Failure(Authorize(cred, old(db.users), settings, now).error) && db.tasks == old(db.tasks)
    ensures Authorize(cred, old(db.users), settings, now).Success? ==>
      var uid := Authorize(cred, old(db.users), settings, now).value.id;
      && (taskId in old(db.tasks) && old(db.tasks)[taskId].userId == uid ==>
            r == Success(()) && db.tasks == old(db.tasks) - {taskId})
      && (taskId !in old(db.tasks) || old(db.tasks)[taskId].userId != uid ==>
            r == Failure(TaskNotFound) && db.tasks == old(db.tasks))
  {
    var gate := Authorize(cred, db.users, settings, now);
    if gate.Failure? {
      return Failure(gate.error);
    }
    var found := FindOwned(db.tasks, taskId, gate.value.id);
    if found.None? {
      return Failure(TaskNotFound);
    }
    db.tasks := db.tasks - {taskId};
    return Success(());
  }
}
