/**
 * The in-memory task store (`TasksContext`): a pure reducer over
 * `{tasks, users, loading, error, initialized}` and a provider whose commands
 * write through the repository and then dispatch the matching action.
 */
module TasksContext {
  import opened Wrappers
  import opened Domain
  import opened Arrays
  import opened Storage

  datatype TasksState = TasksState(
    tasks: seq<Task>,
    users: seq<User>,
    loading: bool,
    error: Option<string>,
    initialized: bool)

  /** The state before the mount effect has run. */
  const InitialState: TasksState := TasksState([], [], true, None, false)

  /** The actions the reducer understands; `MoveTask` carries the instant the reducer stamps. */
  datatype TasksAction =
    | Initialize(tasks: seq<Task>, users: seq<User>)
    | SetLoading(loading: bool)
    | SetError(error: Option<string>)
    | AddTask(task: Task)
    | UpdateTask(task: Task)
    | DeleteTask(taskId: Id)
    | MoveTask(taskId: Id, newStatus: TaskStatus, now: Instant)
    | AddUser(user: User)

  const LoadError: string := "Failed to load data"
  const AddTaskError: string := "Failed to add task"
  const UpdateTaskError: string := "Failed to update task"
  const DeleteTaskError: string := "Failed to delete task"
  const MoveTaskError: string := "Failed to move task"
  const AddUserError: string := "Failed to add user"

  /** `tasks.map(task => task.id === t.id ? t : task)`: every task with that id replaced. */
  function ReplaceById(ts: seq<Task>, t: Task): (r: seq<Task>)
    ensures |r| == |ts|
    ensures forall i :: 0 <= i < |ts| ==> r[i] == if ts[i].id == t.id then t else ts[i]
  {
    Map(ts, (x: Task) => if x.id == t.id then t else x)
  }

  /** The reducer's move: every task with that id gets the status and `updatedAt`, in place. */
  function MoveById(ts: seq<Task>, id: Id, status: TaskStatus, now: Instant): (r: seq<Task>)
    ensures |r| == |ts|
    ensures forall i :: 0 <= i < |ts| ==> r[i] == if ts[i].id == id then Moved(ts[i], status, now) else ts[i]
  {
    Map(ts, (x: Task) => if x.id == id then Moved(x, status, now) else x)
  }

  /** `tasksReducer`. */
  function TasksReducer(state: TasksState, action: TasksAction): (r: TasksState)
    ensures action.Initialize? ==>
              r == TasksState(action.tasks, action.users, false, state.error, true)
    ensures action.SetLoading? ==> r == state.(loading := action.loading)
    ensures action.SetError? ==> r.error == action.error && !r.loading
                                 && r.tasks == state.tasks && r.users == state.users && r.initialized == state.initialized
    ensures action.AddTask? ==> r.tasks == state.tasks + [action.task] && r.users == state.users
                                && r.(tasks := state.tasks) == state
    ensures action.UpdateTask? ==> |r.tasks| == |state.tasks| && r.(tasks := state.tasks) == state
    ensures action.UpdateTask? ==> forall i :: 0 <= i < |state.tasks| ==>
              r.tasks[i] == if state.tasks[i].id == action.task.id then action.task else state.tasks[i]
    ensures action.DeleteTask? ==> r.(tasks := state.tasks) == state
    ensures action.DeleteTask? ==> forall t :: t in r.tasks <==> t in state.tasks && t.id != action.taskId
    ensures action.MoveTask? ==> |r.tasks| == |state.tasks| && r.(tasks := state.tasks) == state
    ensures action.MoveTask? ==> forall i :: 0 <= i < |state.tasks| ==>
              && r.tasks[i].(status := state.tasks[i].status, updatedAt := state.tasks[i].updatedAt) == state.tasks[i]
              && (state.tasks[i].id == action.taskId ==> r.tasks[i].status == action.newStatus && r.tasks[i].updatedAt == action.now)
              && (state.tasks[i].id != action.taskId ==> r.tasks[i] == state.tasks[i])
    ensures action.AddUser? && HasUserId(state.users, action.user.id) ==> r == state
    ensures action.AddUser? && !HasUserId(state.users, action.user.id) ==>
              r == state.(users := state.users + [action.user])
  {
    match action
    case Initialize(ts, us) => state.(tasks := ts, users := us, loading := false, initialized := true)
    case SetLoading(b) => state.(loading := b)
    case SetError(e) => state.(error := e, loading := false)
    case AddTask(t) => state.(tasks := state.tasks + [t])
    case UpdateTask(t) => state.(tasks := ReplaceById(state.tasks, t))
    case DeleteTask(id) => state.(tasks := TasksWithout(state.tasks, id))
    case MoveTask(id, status, now) => state.(tasks := MoveById(state.tasks, id, status, now))
    case AddUser(u) =>
      if Any(state.users, (x: User) => x.id == u.id) then state
      else state.(users := state.users + [u])
  }

  /**
   * `data.assigneeId ? users.find(u => u.id === data.assigneeId) : undefined`:
   * the in-memory user with that id; no id, the empty id, or an unknown id give none.
   */
  function ResolveAssignee(users: seq<User>, assigneeId: Option<Id>): (r: Option<User>)
    ensures r.Some? ==> assigneeId.Some? && r.value in users && r.value.id == assigneeId.value
    ensures r.Some? ==> exists i :: 0 <= i < |users| && users[i] == r.value && forall j :: 0 <= j < i ==> users[j].id != r.value.id
    ensures r.None? <==> assigneeId.None? || assigneeId.value == "" || !HasUserId(users, assigneeId.value)
  {
    if assigneeId.Some? && assigneeId.value != "" then Find(users, (u: User) => u.id == assigneeId.value)
    else None
  }

  /** The task `addTask` builds from the form. */
  function NewTask(users: seq<User>, data: TaskFormData, status: TaskStatus, freshId: Id, now: Instant): (t: Task)
    ensures t.id == freshId && t.status == status && t.createdAt == now && t.updatedAt == now
    ensures t.title == data.title && t.description == data.description && t.priority == data.priority
    ensures t.tags == data.tags && t.dueDate == data.dueDate
    ensures t.assignee == ResolveAssignee(users, data.assigneeId)
  {
    Task(freshId, data.title, data.description, data.priority, ResolveAssignee(users, data.assigneeId),
         data.tags, status, data.dueDate, now, now)
  }

  /**
   * The task `updateTask` builds: the form's fields over the existing task,
   * the assignee resolved again, `updatedAt` stamped; id, status and
   * `createdAt` kept.
   */
  function EditedTask(existing: Task, data: TaskFormData, users: seq<User>, now: Instant): (t: Task)
    ensures t.id == existing.id && t.status == existing.status && t.createdAt == existing.createdAt
    ensures t.title == data.title && t.description == data.description && t.priority == data.priority
    ensures t.tags == data.tags && t.updatedAt == now
    ensures t.dueDate == if data.dueDate.Some? then data.dueDate else existing.dueDate
    ensures t.assignee == ResolveAssignee(users, data.assigneeId)
  {
    existing.(title := data.title, description := data.description, priority := data.priority,
              tags := data.tags, dueDate := if data.dueDate.Some? then data.dueDate else existing.dueDate,
              assignee := ResolveAssignee(users, data.assigneeId), updatedAt := now)
  }

  // ---------------------------------------------------------------------------
  // Properties of the reducer
  // ---------------------------------------------------------------------------

  /** With unique ids, the reducer's replace-all update is the repository's first-index replace. */
  lemma ReplaceByIdIsFirstIndexReplace(ts: seq<Task>, t: Task)
    requires UniqueTaskIds(ts)
    ensures IndexOfTask(ts, t.id) == -1 ==> ReplaceById(ts, t) == ts
    ensures IndexOfTask(ts, t.id) != -1 ==> ReplaceById(ts, t) == ts[IndexOfTask(ts, t.id) := t]
  {
    var i := IndexOfTask(ts, t.id);
    if i == -1 {
      assert forall j :: 0 <= j < |ts| ==> ts[j].id != t.id by {
        forall j | 0 <= j < |ts| ensures ts[j].id != t.id {
          assert ts[j] in ts;
        }
      }
    }
  }

  /** With unique ids, the reducer's move-all is the repository's first-index move. */
  lemma MoveByIdIsFirstIndexMove(ts: seq<Task>, id: Id, status: TaskStatus, now: Instant)
    requires UniqueTaskIds(ts)
    ensures IndexOfTask(ts, id) == -1 ==> MoveById(ts, id, status, now) == ts
    ensures IndexOfTask(ts, id) != -1 ==>
              var i := IndexOfTask(ts, id);
              MoveById(ts, id, status, now) == ts[i := Moved(ts[i], status, now)]
  {
    var i := IndexOfTask(ts, id);
    if i == -1 {
      assert forall j :: 0 <= j < |ts| ==> ts[j].id != id by {
        forall j | 0 <= j < |ts| ensures ts[j].id != id {
          assert ts[j] in ts;
        }
      }
    }
  }

  /** Deleting an id no task has leaves the tasks as they were; deleting twice is deleting once. */
  lemma DeleteTaskAbsentAndIdempotent(state: TasksState, id: Id)
    ensures IndexOfTask(state.tasks, id) == -1 ==> TasksReducer(state, DeleteTask(id)) == state
    ensures TasksReducer(TasksReducer(state, DeleteTask(id)), DeleteTask(id)) == TasksReducer(state, DeleteTask(id))
  {
    if IndexOfTask(state.tasks, id) == -1 {
      FilterKeepsAll(state.tasks, (t: Task) => t.id != id);
    }
    FilterIdempotent(state.tasks, (t: Task) => t.id != id);
  }

  /** Filtering keeps ids unique. */
  lemma {:induction false} FilterKeepsIdsUnique(ts: seq<Task>, keep: Task -> bool)
    requires UniqueTaskIds(ts)
    ensures UniqueTaskIds(Filter(ts, keep))
  {
    if ts != [] {
      FilterKeepsIdsUnique(ts[1..], keep);
      assert forall t :: t in ts[1..] ==> t.id != ts[0].id by {
        forall t | t in ts[1..] ensures t.id != ts[0].id {
          var j :| 0 <= j < |ts[1..]| && ts[1..][j] == t;
          assert ts[j + 1] == t;
        }
      }
      if keep(ts[0]) {
        var rest := Filter(ts[1..], keep);
        assert forall j :: 0 <= j < |rest| ==> rest[j] in ts[1..] by {
          forall j | 0 <= j < |rest| ensures rest[j] in ts[1..] {
            assert rest[j] in rest;
          }
        }
      }
    }
  }

  /**
   * Every action keeps task ids and user ids unique, provided an added task
   * has a fresh id and an initializing payload has unique ids.
   */
  lemma ReducerKeepsIdsUnique(state: TasksState, action: TasksAction)
    requires UniqueTaskIds(state.tasks) && UniqueUserIds(state.users)
    requires action.AddTask? ==> IndexOfTask(state.tasks, action.task.id) == -1
    requires action.Initialize? ==> UniqueTaskIds(action.tasks) && UniqueUserIds(action.users)
    ensures UniqueTaskIds(TasksReducer(state, action).tasks)
    ensures UniqueUserIds(TasksReducer(state, action).users)
  {
    match action
    case AddTask(t) =>
      assert forall j :: 0 <= j < |state.tasks| ==> state.tasks[j].id != t.id by {
        forall j | 0 <= j < |state.tasks| ensures state.tasks[j].id != t.id {
          assert state.tasks[j] in state.tasks;
        }
      }
    case DeleteTask(id) =>
      FilterKeepsIdsUnique(state.tasks, (t: Task) => t.id != id);
    case AddUser(u) =>
      if !HasUserId(state.users, u.id) {
        assert forall j :: 0 <= j < |state.users| ==> state.users[j].id != u.id by {
          forall j | 0 <= j < |state.users| ensures state.users[j].id != u.id {
            assert state.users[j] in state.users;
          }
        }
      }
    case _ =>
  }

  /** `ADD_USER` of a user already present by id is a no-op, so adding a user twice is adding it once. */
  lemma AddUserTwiceIsOnce(state: TasksState, u: User)
    ensures TasksReducer(TasksReducer(state, AddUser(u)), AddUser(u)) == TasksReducer(state, AddUser(u))
  {
    assert u in state.users + [u];
  }

  // ---------------------------------------------------------------------------
  // Memory mirrors storage for tasks, not for users
  // ---------------------------------------------------------------------------

  /**
   * When memory holds exactly the stored tasks with unique ids, each task
   * command's repository write and reducer step leave them equal again.
   */
  lemma TaskCommandsKeepMirror(s: Store, state: TasksState, action: TasksAction)
    requires GetTasks(s) == Ok(state.tasks) && UniqueTaskIds(state.tasks)
    requires action.AddTask? || action.UpdateTask? || action.DeleteTask? || action.MoveTask?
    requires action.UpdateTask? ==> IndexOfTask(state.tasks, action.task.id) != -1
    ensures var r := match action
                     case AddTask(t) => AfterAddTask(s, false, t)
                     case UpdateTask(t) => AfterUpdateTask(s, false, t)
                     case DeleteTask(id) => AfterDeleteTask(s, false, id)
                     case MoveTask(id, st, now) => AfterMoveTask(s, false, id, st, now)
                     case _ => s;
            GetTasks(r) == Ok(TasksReducer(state, action).tasks)
  {
    match action
    case UpdateTask(t) => ReplaceByIdIsFirstIndexReplace(state.tasks, t);
    case MoveTask(id, st, now) => MoveByIdIsFirstIndexMove(state.tasks, id, st, now);
    case _ =>
  }

  /**
   * The two user dedup keys disagree: when storage already has a user with
   * the email and memory has none with the fresh id, `addUser` writes
   * nothing but memory still gains the new user.
   */
  lemma AddUserDedupKeysDiffer(s: Store, fault: bool, state: TasksState, u: User)
    requires GetUsers(s).Ok? && UserWithEmail(GetUsers(s).value, u.email).Some?
    requires !HasUserId(state.users, u.id)
    ensures AfterAddUser(s, fault, u) == s
    ensures TasksReducer(state, AddUser(u)).users == state.users + [u]
  {
  }

  // ---------------------------------------------------------------------------
  // The provider
  // ---------------------------------------------------------------------------

  /**
   * `TasksProvider`: the reducer's state and the repository it writes through.
   * Each command writes first and dispatches after; a write that throws
   * dispatches `SET_ERROR` instead.
   */
  class TasksProvider {
    var state: TasksState
    const storage: StorageService

    /** Memory holds exactly the stored tasks. */
    predicate Mirrored()
      reads this, storage
    {
      GetTasks(storage.items) == Ok(state.tasks)
    }

    constructor (storage: StorageService)
      ensures this.storage == storage && state == InitialState
    {
      this.storage := storage;
      state := InitialState;
    }

    method Dispatch(action: TasksAction)
      modifies this
      ensures state == TasksReducer(old(state), action)
    {
      state := TasksReducer(state, action);
    }

    /** The mount effect: reads tasks and users once, or records the load error. */
    method Mount()
      modifies this
      ensures GetTasks(storage.items).Ok? && GetUsers(storage.items).Ok? ==>
                state == TasksReducer(old(state), Initialize(GetTasks(storage.items).value, GetUsers(storage.items).value))
                && Mirrored()
      ensures GetTasks(storage.items).Err? || GetUsers(storage.items).Err? ==>
                state == TasksReducer(old(state), SetError(Some(LoadError)))
    {
      var storedTasks := GetTasks(storage.items);
      var storedUsers := GetUsers(storage.items);
      if storedTasks.Err? || storedUsers.Err? {
        Dispatch(SetError(Some(LoadError)));
        return;
      }
      Dispatch(Initialize(storedTasks.value, storedUsers.value));
    }

    /** `addTask(data, status = 'backlog')`, with the fresh id and the clock as inputs. */
    method AddTask(data: TaskFormData, freshId: Id, now: Instant, status: TaskStatus := Backlog)
      modifies this, storage
      ensures var t := NewTask(old(state.users), data, status, freshId, now);
              && storage.items == AfterAddTask(old(storage.items), storage.writeFault, t)
              && state == if GetTasks(old(storage.items)).Ok? then TasksReducer(old(state), TasksAction.AddTask(t))
                          else TasksReducer(old(state), SetError(Some(AddTaskError)))
      ensures old(Mirrored()) && !storage.writeFault ==> Mirrored()
    {
      var newTask := NewTask(state.users, data, status, freshId, now);
      var ok := storage.AddTask(newTask);
      if !ok {
        Dispatch(SetError(Some(AddTaskError)));
        return;
      }
      Dispatch(TasksAction.AddTask(newTask));
    }

    /** `updateTask(id, data)`: nothing at all happens when no task in memory has the id. */
    method UpdateTask(id: Id, data: TaskFormData, now: Instant)
      modifies this, storage
      ensures IndexOfTask(old(state.tasks), id) == -1 ==> state == old(state) && storage.items == old(storage.items)
      ensures IndexOfTask(old(state.tasks), id) != -1 ==>
                var t := EditedTask(old(state.tasks)[IndexOfTask(old(state.tasks), id)], data, old(state.users), now);
                && storage.items == AfterUpdateTask(old(storage.items), storage.writeFault, t)
                && state == if GetTasks(old(storage.items)).Ok? then TasksReducer(old(state), TasksAction.UpdateTask(t))
                            else TasksReducer(old(state), SetError(Some(UpdateTaskError)))
      ensures old(Mirrored()) && UniqueTaskIds(old(state.tasks)) && !storage.writeFault ==> Mirrored()
    {
      var index := IndexOfTask(state.tasks, id);
      if index == -1 {
        return;
      }
      var updated := EditedTask(state.tasks[index], data, state.users, now);
      var ok := storage.UpdateTask(updated);
      if !ok {
        Dispatch(SetError(Some(UpdateTaskError)));
        return;
      }
      if old(Mirrored()) && UniqueTaskIds(old(state.tasks)) && !storage.writeFault {
        TaskCommandsKeepMirror(old(storage.items), old(state), TasksAction.UpdateTask(updated));
      }
      Dispatch(TasksAction.UpdateTask(updated));
    }

    method DeleteTask(id: Id)
      modifies this, storage
      ensures storage.items == AfterDeleteTask(old(storage.items), storage.writeFault, id)
      ensures state == if GetTasks(old(storage.items)).Ok? then TasksReducer(old(state), TasksAction.DeleteTask(id))
                       else TasksReducer(old(state), SetError(Some(DeleteTaskError)))
      ensures old(Mirrored()) && !storage.writeFault ==> Mirrored()
    {
      var ok := storage.DeleteTask(id);
      if !ok {
        Dispatch(SetError(Some(DeleteTaskError)));
        return;
      }
      Dispatch(TasksAction.DeleteTask(id));
    }

    method MoveTask(id: Id, newStatus: TaskStatus, now: Instant)
      modifies this, storage
      ensures storage.items == AfterMoveTask(old(storage.items), storage.writeFault, id, newStatus, now)
      ensures state == if GetTasks(old(storage.items)).Ok? then TasksReducer(old(state), TasksAction.MoveTask(id, newStatus, now))
                       else TasksReducer(old(state), SetError(Some(MoveTaskError)))
      ensures old(Mirrored()) && UniqueTaskIds(old(state.tasks)) && !storage.writeFault ==> Mirrored()
    {
      var ok := storage.MoveTask(id, newStatus, now);
      if !ok {
        Dispatch(SetError(Some(MoveTaskError)));
        return;
      }
      if old(Mirrored()) && UniqueTaskIds(old(state.tasks)) && !storage.writeFault {
        TaskCommandsKeepMirror(old(storage.items), old(state), TasksAction.MoveTask(id, newStatus, now));
      }
      Dispatch(TasksAction.MoveTask(id, newStatus, now));
    }

    /**
     * `addUser`: builds a user with the fresh id, lets the repository store it
     * (it skips a known email), then dispatches `ADD_USER` (which skips a known
     * id). `Err` is the rethrown failure.
     */
    method AddUser(name: string, email: string, freshId: Id, now: Instant) returns (r: Result<User>)
      modifies this, storage
      ensures var u := User(freshId, name, email, None, now, now);
              && storage.items == AfterAddUser(old(storage.items), storage.writeFault, u)
              && (GetUsers(old(storage.items)).Ok? ==> r == Ok(u) && state == TasksReducer(old(state), TasksAction.AddUser(u)))
              && (GetUsers(old(storage.items)).Err? ==> r.Err? && state == TasksReducer(old(state), SetError(Some(AddUserError))))
    {
      var newUser := User(freshId, name, email, None, now, now);
      var ok := storage.AddUser(newUser);
      if !ok {
        Dispatch(SetError(Some(AddUserError)));
        return Err(AddUserError);
      }
      Dispatch(TasksAction.AddUser(newUser));
      return Ok(newUser);
    }

    /** `clearAllData`: stores an empty task list and reinitializes memory with no tasks and the same users. */
    method ClearAllData()
      modifies this, storage
      ensures storage.items == Put(old(storage.items), storage.writeFault, TasksKey, TaskList([]))
      ensures state == TasksReducer(old(state), Initialize([], old(state.users)))
      ensures state.tasks == [] && state.users == old(state.users)
      ensures !storage.writeFault ==> Mirrored()
    {
      storage.SaveTasks([]);
      Dispatch(Initialize([], state.users));
    }
  }
}
