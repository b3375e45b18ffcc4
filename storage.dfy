/**
 * The repository over browser storage (`StorageService`). Storage is a map
 * from key strings to what `localStorage.getItem` would find there, already
 * parsed; the board owns four keys. Each repository operation reads a list or
 * record, edits it, and writes it back.
 *
 * Every mutator has a specification function (`After...`) giving the store it
 * leaves behind, and a method of `StorageService` that performs the same steps
 * imperatively and is proved to leave exactly that store.
 */
module Storage {
  import opened Wrappers
  import opened Domain
  import opened Arrays

  const TasksKey: string := "taskboard-tasks"
  const UsersKey: string := "taskboard-users"
  const ProjectInfoKey: string := "taskboard-project-info"
  const SettingsKey: string := "taskboard-settings"

  /** The keys the board owns, in declaration order. */
  const StorageKeys: seq<string> := [TasksKey, UsersKey, ProjectInfoKey, SettingsKey]

  /** The keys of a list, as a set. */
  function KeySet(keys: seq<string>): (r: set<string>)
    ensures forall k :: k in r <==> k in keys
  {
    if keys == [] then {} else KeySet(keys[..|keys| - 1]) + {keys[|keys| - 1]}
  }

  const DefaultProjectName: string := "لوحة إدارة المهام"
  const DefaultProjectDescription: string := "Task management board"
  const DefaultSettings: AppSettings := AppSettings(Light, En)

  /** The JSON document a stored text parses to, limited to the shapes the board writes, and `null`. */
  datatype Doc =
    | TaskList(tasks: seq<Task>)
    | UserList(users: seq<User>)
    | ProjectDoc(info: ProjectInfo)
    | SettingsDoc(settings: AppSettings)
    | NullDoc

  /**
   * What is stored under a key: the empty string, text that cannot be read or
   * parsed (reading or `JSON.parse` throws), or a parsed document.
   */
  datatype Item = Blank | Malformed | Parsed(doc: Doc)

  type Store = map<string, Item>

  // ---------------------------------------------------------------------------
  // Generic helpers: get, set, remove
  // ---------------------------------------------------------------------------

  /**
   * `get(key, defaultValue)`: the stored document, or the caller's default when
   * the key is absent, holds the empty string, or cannot be read or parsed.
   * It never fails.
   */
  function Get(s: Store, key: string, default: Doc): (d: Doc)
    ensures key in s && s[key].Parsed? ==> d == s[key].doc
    ensures key !in s || s[key] == Blank || s[key] == Malformed ==> d == default
  {
    if key in s && s[key].Parsed? then s[key].doc else default
  }

  /**
   * `set(key, value)`: the store after writing `doc` under `key`. When the
   * write throws (`fault`: quota exceeded, storage disabled) the error is
   * swallowed and the store is unchanged.
   */
  function Put(s: Store, fault: bool, key: string, doc: Doc): (r: Store)
    ensures !fault ==> key in r && r[key] == Parsed(doc)
    ensures fault ==> r == s
    ensures r - {key} == s - {key}
  {
    if fault then s else s[key := Parsed(doc)]
  }

  /** `remove(key)`: the store without `key`; a fault is swallowed and leaves it unchanged. */
  function Delete(s: Store, fault: bool, key: string): (r: Store)
    ensures !fault ==> key !in r
    ensures fault ==> r == s
    ensures r - {key} == s - {key}
  {
    if fault then s else s - {key}
  }

  // ---------------------------------------------------------------------------
  // Getters
  // ---------------------------------------------------------------------------

  /**
   * `getTasks`: the stored task list, or the empty list when nothing readable
   * is stored. A stored document that is not a list makes the source's `map`
   * throw, which is `Err` here.
   */
  function GetTasks(s: Store): (r: Result<seq<Task>>)
    ensures TasksKey !in s || !s[TasksKey].Parsed? ==> r == Ok([])
    ensures TasksKey in s && s[TasksKey].Parsed? && s[TasksKey].doc.TaskList? ==> r == Ok(s[TasksKey].doc.tasks)
    ensures TasksKey in s && s[TasksKey].Parsed? && !s[TasksKey].doc.TaskList? ==> r.Err?
  {
    match Get(s, TasksKey, TaskList([]))
    case TaskList(ts) => Ok(ts)
    case _ => Err("stored tasks are not a list")
  }

  /** `getUsers`: the stored user list, or the empty list; a non-list document throws. */
  function GetUsers(s: Store): (r: Result<seq<User>>)
    ensures UsersKey !in s || !s[UsersKey].Parsed? ==> r == Ok([])
    ensures UsersKey in s && s[UsersKey].Parsed? && s[UsersKey].doc.UserList? ==> r == Ok(s[UsersKey].doc.users)
    ensures UsersKey in s && s[UsersKey].Parsed? && !s[UsersKey].doc.UserList? ==> r.Err?
  {
    match Get(s, UsersKey, UserList([]))
    case UserList(us) => Ok(us)
    case _ => Err("stored users are not a list")
  }

  /** The project record `getProjectInfo` and `initializeDefaultProjectInfo` make up at instant `now`. */
  function DefaultProjectInfo(now: Instant): (p: ProjectInfo)
    ensures p.name == DefaultProjectName && p.description == Some(DefaultProjectDescription)
    ensures p.assignedUsers == [] && p.tags == [] && p.dueDate.None?
    ensures p.createdAt == now && p.updatedAt == now
  {
    ProjectInfo(DefaultProjectName, Some(DefaultProjectDescription), [], None, [], now, now)
  }

  /**
   * `getProjectInfo`: the stored project record. When none is stored (or `null`
   * is) it returns a fresh default stamped `now`, without writing it. Another
   * document shape makes the source throw.
   */
  function GetProjectInfo(s: Store, now: Instant): (r: Result<ProjectInfo>)
    ensures Get(s, ProjectInfoKey, NullDoc) == NullDoc ==> r == Ok(DefaultProjectInfo(now))
    ensures ProjectInfoKey in s && s[ProjectInfoKey].Parsed? && s[ProjectInfoKey].doc.ProjectDoc? ==> r == Ok(s[ProjectInfoKey].doc.info)
    ensures r.Ok? ==> Get(s, ProjectInfoKey, NullDoc).NullDoc? || Get(s, ProjectInfoKey, NullDoc).ProjectDoc?
  {
    match Get(s, ProjectInfoKey, NullDoc)
    case NullDoc => Ok(DefaultProjectInfo(now))
    case ProjectDoc(p) => Ok(p)
    case _ => Err("stored project info has no assigned users")
  }

  /** `getSettings`: the stored settings, or light theme and English. */
  function GetSettings(s: Store): (r: AppSettings)
    ensures SettingsKey !in s || !s[SettingsKey].Parsed? ==> r == DefaultSettings
    ensures SettingsKey in s && s[SettingsKey].Parsed? && s[SettingsKey].doc.SettingsDoc? ==> r == s[SettingsKey].doc.settings
  {
    match Get(s, SettingsKey, SettingsDoc(DefaultSettings))
    case SettingsDoc(st) => st
    case _ => DefaultSettings
  }

  // ---------------------------------------------------------------------------
  // List steps shared with the in-memory reducer
  // ---------------------------------------------------------------------------

  /** `tasks.findIndex(task => task.id === id)`. */
  function IndexOfTask(ts: seq<Task>, id: Id): (i: int)
    ensures -1 <= i < |ts|
    ensures i == -1 <==> forall t :: t in ts ==> t.id != id
    ensures 0 <= i ==> ts[i].id == id && forall j :: 0 <= j < i ==> ts[j].id != id
  {
    FindIndex(ts, (t: Task) => t.id == id)
  }

  /** `users.findIndex(user => user.id === id)`. */
  function IndexOfUser(us: seq<User>, id: Id): (i: int)
    ensures -1 <= i < |us|
    ensures i == -1 <==> forall u :: u in us ==> u.id != id
    ensures 0 <= i ==> us[i].id == id && forall j :: 0 <= j < i ==> us[j].id != id
  {
    FindIndex(us, (u: User) => u.id == id)
  }

  /** `tasks.filter(task => task.id !== id)`. */
  function TasksWithout(ts: seq<Task>, id: Id): (r: seq<Task>)
    ensures forall t :: t in r <==> t in ts && t.id != id
    ensures |r| <= |ts|
  {
    Filter(ts, (t: Task) => t.id != id)
  }

  /** `users.filter(user => user.id !== id)`. */
  function UsersWithout(us: seq<User>, id: Id): (r: seq<User>)
    ensures forall u :: u in r <==> u in us && u.id != id
    ensures |r| <= |us|
  {
    Filter(us, (u: User) => u.id != id)
  }

  /** `tags.filter(t => t !== tag)`. */
  function TagsWithout(tags: seq<string>, tag: string): (r: seq<string>)
    ensures forall t :: t in r <==> t in tags && t != tag
    ensures |r| <= |tags|
  {
    Filter(tags, (t: string) => t != tag)
  }

  /** `users.find(u => u.email === email)`. */
  function UserWithEmail(us: seq<User>, email: string): (r: Option<User>)
    ensures r.None? <==> forall u :: u in us ==> u.email != email
    ensures r.Some? ==> r.value in us && r.value.email == email
    ensures r.Some? ==> exists i :: 0 <= i < |us| && us[i] == r.value && forall j :: 0 <= j < i ==> us[j].email != email
  {
    Find(us, (u: User) => u.email == email)
  }

  /** The task with its status set and `updatedAt` stamped, every other field kept. */
  function Moved(t: Task, status: TaskStatus, now: Instant): (r: Task)
    ensures r.status == status && r.updatedAt == now
    ensures r.(status := t.status, updatedAt := t.updatedAt) == t
  {
    t.(status := status, updatedAt := now)
  }

  /** Two stores that agree on every key but `key`. */
  predicate SameExcept(s: Store, r: Store, key: string)
  {
    r - {key} == s - {key}
  }

  /** A write to one of the board's keys leaves every foreign key as it was. */
  lemma SameExceptOwnKeys(s: Store, r: Store, key: string)
    requires SameExcept(s, r, key) && key in StorageKeys
    ensures r - KeySet(StorageKeys) == s - KeySet(StorageKeys)
  {
    var keys := KeySet(StorageKeys);
    assert key in keys;
    assert r - keys == (r - {key}) - keys;
    assert s - keys == (s - {key}) - keys;
  }

  /** Two stores that agree on every key but `key` agree on any other key `k`. */
  lemma SameExceptAt(s: Store, r: Store, key: string, k: string)
    requires SameExcept(s, r, key) && k != key
    ensures k in r <==> k in s
    ensures k in s ==> r[k] == s[k]
  {
    assert k in r - {key} <==> k in s - {key};
    if k in s {
      assert (r - {key})[k] == (s - {key})[k];
    }
  }

  // ---------------------------------------------------------------------------
  // Task operations
  // ---------------------------------------------------------------------------

  /** `addTask`: appends `task` to the stored list. */
  function AfterAddTask(s: Store, fault: bool, task: Task): (r: Store)
    ensures GetTasks(s).Err? || fault ==> r == s
    ensures GetTasks(s).Ok? && !fault ==> GetTasks(r) == Ok(GetTasks(s).value + [task])
    ensures SameExcept(s, r, TasksKey)
  {
    match GetTasks(s)
    case Err(_) => s
    case Ok(ts) => Put(s, fault, TasksKey, TaskList(ts + [task]))
  }

  /**
   * `updateTask`: replaces the first stored task with the same id. An absent
   * id writes nothing.
   */
  function AfterUpdateTask(s: Store, fault: bool, updated: Task): (r: Store)
    ensures GetTasks(s).Err? || fault ==> r == s
    ensures GetTasks(s).Ok? && IndexOfTask(GetTasks(s).value, updated.id) == -1 ==> r == s
    ensures GetTasks(s).Ok? && !fault && IndexOfTask(GetTasks(s).value, updated.id) != -1 ==>
              var ts := GetTasks(s).value;
              GetTasks(r) == Ok(ts[IndexOfTask(ts, updated.id) := updated])
    ensures SameExcept(s, r, TasksKey)
  {
    match GetTasks(s)
    case Err(_) => s
    case Ok(ts) =>
      var i := IndexOfTask(ts, updated.id);
      if i == -1 then s else Put(s, fault, TasksKey, TaskList(ts[i := updated]))
  }

  /** `deleteTask`: stores the list without every task of that id, the rest in order. */
  function AfterDeleteTask(s: Store, fault: bool, id: Id): (r: Store)
    ensures GetTasks(s).Err? || fault ==> r == s
    ensures GetTasks(s).Ok? && !fault ==> GetTasks(r) == Ok(TasksWithout(GetTasks(s).value, id))
    ensures SameExcept(s, r, TasksKey)
  {
    match GetTasks(s)
    case Err(_) => s
    case Ok(ts) => Put(s, fault, TasksKey, TaskList(TasksWithout(ts, id)))
  }

  /**
   * `moveTask`: sets the status and `updatedAt` of the first stored task with
   * that id. An absent id writes nothing.
   */
  function AfterMoveTask(s: Store, fault: bool, id: Id, status: TaskStatus, now: Instant): (r: Store)
    ensures GetTasks(s).Err? || fault ==> r == s
    ensures GetTasks(s).Ok? && IndexOfTask(GetTasks(s).value, id) == -1 ==> r == s
    ensures GetTasks(s).Ok? && !fault && IndexOfTask(GetTasks(s).value, id) != -1 ==>
              var ts := GetTasks(s).value;
              var i := IndexOfTask(ts, id);
              GetTasks(r) == Ok(ts[i := Moved(ts[i], status, now)])
    ensures SameExcept(s, r, TasksKey)
  {
    match GetTasks(s)
    case Err(_) => s
    case Ok(ts) =>
      var i := IndexOfTask(ts, id);
      if i == -1 then s else Put(s, fault, TasksKey, TaskList(ts[i := Moved(ts[i], status, now)]))
  }

  // ---------------------------------------------------------------------------
  // User operations
  // ---------------------------------------------------------------------------

  /**
   * `addUser`: appends `user` unless a stored user already has the same email,
   * in which case nothing is written. The id plays no part.
   */
  function AfterAddUser(s: Store, fault: bool, user: User): (r: Store)
    ensures GetUsers(s).Err? || fault ==> r == s
    ensures GetUsers(s).Ok? && UserWithEmail(GetUsers(s).value, user.email).Some? ==> r == s
    ensures GetUsers(s).Ok? && !fault && UserWithEmail(GetUsers(s).value, user.email).None? ==>
              GetUsers(r) == Ok(GetUsers(s).value + [user])
    ensures SameExcept(s, r, UsersKey)
  {
    match GetUsers(s)
    case Err(_) => s
    case Ok(us) =>
      if UserWithEmail(us, user.email).Some? then s else Put(s, fault, UsersKey, UserList(us + [user]))
  }

  /** `updateUser`: replaces the first stored user with the same id; an absent id writes nothing. */
  function AfterUpdateUser(s: Store, fault: bool, updated: User): (r: Store)
    ensures GetUsers(s).Err? || fault ==> r == s
    ensures GetUsers(s).Ok? && IndexOfUser(GetUsers(s).value, updated.id) == -1 ==> r == s
    ensures GetUsers(s).Ok? && !fault && IndexOfUser(GetUsers(s).value, updated.id) != -1 ==>
              var us := GetUsers(s).value;
              GetUsers(r) == Ok(us[IndexOfUser(us, updated.id) := updated])
    ensures SameExcept(s, r, UsersKey)
  {
    match GetUsers(s)
    case Err(_) => s
    case Ok(us) =>
      var i := IndexOfUser(us, updated.id);
      if i == -1 then s else Put(s, fault, UsersKey, UserList(us[i := updated]))
  }

  /** `deleteUser`: stores the list without every user of that id. */
  function AfterDeleteUser(s: Store, fault: bool, id: Id): (r: Store)
    ensures GetUsers(s).Err? || fault ==> r == s
    ensures GetUsers(s).Ok? && !fault ==> GetUsers(r) == Ok(UsersWithout(GetUsers(s).value, id))
    ensures SameExcept(s, r, UsersKey)
  {
    match GetUsers(s)
    case Err(_) => s
    case Ok(us) => Put(s, fault, UsersKey, UserList(UsersWithout(us, id)))
  }

  // ---------------------------------------------------------------------------
  // Project info operations
  // ---------------------------------------------------------------------------

  /** `saveProjectInfo`: stores the record with `updatedAt` replaced by the current instant. */
  function AfterSaveProjectInfo(s: Store, fault: bool, p: ProjectInfo, now: Instant): (r: Store)
    ensures fault ==> r == s
    ensures !fault ==> GetProjectInfo(r, now) == Ok(p.(updatedAt := now))
    ensures SameExcept(s, r, ProjectInfoKey)
  {
    Put(s, fault, ProjectInfoKey, ProjectDoc(p.(updatedAt := now)))
  }

  /**
   * `initializeDefaultProjectInfo`: persists the default record when nothing
   * (or `null`) is stored; any other stored document is left alone.
   */
  function AfterInitializeDefaultProjectInfo(s: Store, fault: bool, now: Instant): (r: Store)
    ensures fault ==> r == s
    ensures Get(s, ProjectInfoKey, NullDoc) != NullDoc ==> r == s
    ensures Get(s, ProjectInfoKey, NullDoc) == NullDoc && !fault ==>
              r == s[ProjectInfoKey := Parsed(ProjectDoc(DefaultProjectInfo(now)))]
    ensures SameExcept(s, r, ProjectInfoKey)
  {
    if Get(s, ProjectInfoKey, NullDoc) == NullDoc then AfterSaveProjectInfo(s, fault, DefaultProjectInfo(now), now)
    else s
  }

  /**
   * The user `addUserToProject` assigns: the first stored user with the email,
   * or a new one with `freshId`, no avatar and both stamps `now`.
   */
  function ProjectUser(us: seq<User>, name: string, email: string, freshId: Id, now: Instant): User
  {
    match UserWithEmail(us, email)
    case Some(u) => u
    case None => User(freshId, name, email, None, now, now)
  }

  /**
   * `addUserToProject`: takes the first stored user with the email, or creates
   * one with `freshId` and stores it through `addUser`; then appends that user
   * to the project's assigned users and saves the record, unless one with its
   * id is already assigned, in which case the record is not written.
   */
  function AfterAddUserToProject(s: Store, fault: bool, name: string, email: string, freshId: Id, now: Instant): (r: Store)
    ensures GetProjectInfo(s, now).Err? || GetUsers(s).Err? || fault ==> r == s
    ensures GetProjectInfo(s, now).Ok? && GetUsers(s).Ok? && !fault ==>
              var p := GetProjectInfo(s, now).value;
              var us := GetUsers(s).value;
              var user := ProjectUser(us, name, email, freshId, now);
              && user.email == email
              && (UserWithEmail(us, email).Some? ==> user in us && GetUsers(r) == GetUsers(s))
              && (UserWithEmail(us, email).None? ==>
                    user == User(freshId, name, email, None, now, now) && GetUsers(r) == Ok(us + [user]))
              && (HasUserId(p.assignedUsers, user.id) ==> SameExcept(s, r, UsersKey) && GetProjectInfo(r, now) == Ok(p))
              && (!HasUserId(p.assignedUsers, user.id) ==>
                    && GetProjectInfo(r, now) == Ok(p.(assignedUsers := p.assignedUsers + [user], updatedAt := now))
                    && (UniqueUserIds(p.assignedUsers) ==> UniqueUserIds(p.assignedUsers + [user])))
    ensures r - {UsersKey, ProjectInfoKey} == s - {UsersKey, ProjectInfoKey}
  {
    match GetProjectInfo(s, now)
    case Err(_) => s
    case Ok(p) =>
      match GetUsers(s)
      case Err(_) => s
      case Ok(us) =>
        var found := UserWithEmail(us, email);
        var user := ProjectUser(us, name, email, freshId, now);
        var s1 := if found.Some? then s else AfterAddUser(s, fault, user);
        SameExceptAt(s, s1, UsersKey, ProjectInfoKey);
        assert !fault ==> GetUsers(s1) == (if found.Some? then Ok(us) else Ok(us + [user]));
        if Any(p.assignedUsers, (u: User) => u.id == user.id) then
          SameExceptPair(s, s1, s1, UsersKey, ProjectInfoKey);
          s1
        else
          var r := AfterSaveProjectInfo(s1, fault, p.(assignedUsers := p.assignedUsers + [user]), now);
          SameExceptAt(s1, r, ProjectInfoKey, UsersKey);
          SameExceptPair(s, s1, r, UsersKey, ProjectInfoKey);
          AppendNewIdKeepsUnique(p.assignedUsers, user);
          r
  }

  /** Two writes to `k1` and then `k2` leave every other key as it was. */
  lemma SameExceptPair(s: Store, m: Store, r: Store, k1: string, k2: string)
    requires SameExcept(s, m, k1) && SameExcept(m, r, k2)
    ensures r - {k1, k2} == s - {k1, k2}
  {
    assert r - {k1, k2} == (r - {k2}) - {k1};
    assert m - {k1, k2} == (m - {k2}) - {k1} == (m - {k1}) - {k2};
    assert s - {k1, k2} == (s - {k1}) - {k2};
  }

  /** Appending a user whose id is new keeps the ids unique. */
  lemma AppendNewIdKeepsUnique(us: seq<User>, u: User)
    requires !HasUserId(us, u.id)
    ensures UniqueUserIds(us) ==> UniqueUserIds(us + [u])
  {
    if UniqueUserIds(us) {
      var r := us + [u];
      forall i, j | 0 <= i < j < |r| ensures r[i].id != r[j].id {
        assert r[i] == us[i] && us[i] in us;
      }
    }
  }

  /** `removeUserFromProject`: drops every assigned user with that id and saves the record. */
  function AfterRemoveUserFromProject(s: Store, fault: bool, userId: Id, now: Instant): (r: Store)
    ensures GetProjectInfo(s, now).Err? || fault ==> r == s
    ensures GetProjectInfo(s, now).Ok? && !fault ==>
              var p := GetProjectInfo(s, now).value;
              GetProjectInfo(r, now) == Ok(p.(assignedUsers := UsersWithout(p.assignedUsers, userId), updatedAt := now))
    ensures SameExcept(s, r, ProjectInfoKey)
  {
    match GetProjectInfo(s, now)
    case Err(_) => s
    case Ok(p) => AfterSaveProjectInfo(s, fault, p.(assignedUsers := UsersWithout(p.assignedUsers, userId)), now)
  }

  /** `updateProjectDueDate`: sets the due date (`None` clears it) and saves the record. */
  function AfterUpdateProjectDueDate(s: Store, fault: bool, dueDate: Option<Instant>, now: Instant): (r: Store)
    ensures GetProjectInfo(s, now).Err? || fault ==> r == s
    ensures GetProjectInfo(s, now).Ok? && !fault ==>
              GetProjectInfo(r, now) == Ok(GetProjectInfo(s, now).value.(dueDate := dueDate, updatedAt := now))
    ensures SameExcept(s, r, ProjectInfoKey)
  {
    match GetProjectInfo(s, now)
    case Err(_) => s
    case Ok(p) => AfterSaveProjectInfo(s, fault, p.(dueDate := dueDate), now)
  }

  /**
   * `addProjectTag`: appends the tag unless the project already has it, in
   * which case nothing is written. There is no limit on the number of tags.
   */
  function AfterAddProjectTag(s: Store, fault: bool, tag: string, now: Instant): (r: Store)
    ensures GetProjectInfo(s, now).Err? || fault ==> r == s
    ensures GetProjectInfo(s, now).Ok? && tag in GetProjectInfo(s, now).value.tags ==> r == s
    ensures GetProjectInfo(s, now).Ok? && tag !in GetProjectInfo(s, now).value.tags && !fault ==>
              var p := GetProjectInfo(s, now).value;
              GetProjectInfo(r, now) == Ok(p.(tags := p.tags + [tag], updatedAt := now))
    ensures SameExcept(s, r, ProjectInfoKey)
  {
    match GetProjectInfo(s, now)
    case Err(_) => s
    case Ok(p) =>
      if tag in p.tags then s else AfterSaveProjectInfo(s, fault, p.(tags := p.tags + [tag]), now)
  }

  /** `removeProjectTag`: drops every occurrence of the tag and saves the record. */
  function AfterRemoveProjectTag(s: Store, fault: bool, tag: string, now: Instant): (r: Store)
    ensures GetProjectInfo(s, now).Err? || fault ==> r == s
    ensures GetProjectInfo(s, now).Ok? && !fault ==>
              var p := GetProjectInfo(s, now).value;
              GetProjectInfo(r, now) == Ok(p.(tags := TagsWithout(p.tags, tag), updatedAt := now))
    ensures SameExcept(s, r, ProjectInfoKey)
  {
    match GetProjectInfo(s, now)
    case Err(_) => s
    case Ok(p) => AfterSaveProjectInfo(s, fault, p.(tags := TagsWithout(p.tags, tag)), now)
  }

  /** `updateProjectName`: sets the name and saves the record. */
  function AfterUpdateProjectName(s: Store, fault: bool, name: string, now: Instant): (r: Store)
    ensures GetProjectInfo(s, now).Err? || fault ==> r == s
    ensures GetProjectInfo(s, now).Ok? && !fault ==>
              GetProjectInfo(r, now) == Ok(GetProjectInfo(s, now).value.(name := name, updatedAt := now))
    ensures SameExcept(s, r, ProjectInfoKey)
  {
    match GetProjectInfo(s, now)
    case Err(_) => s
    case Ok(p) => AfterSaveProjectInfo(s, fault, p.(name := name), now)
  }

  /** `updateProjectDescription`: sets the description and saves the record. */
  function AfterUpdateProjectDescription(s: Store, fault: bool, description: string, now: Instant): (r: Store)
    ensures GetProjectInfo(s, now).Err? || fault ==> r == s
    ensures GetProjectInfo(s, now).Ok? && !fault ==>
              GetProjectInfo(r, now) == Ok(GetProjectInfo(s, now).value.(description := Some(description), updatedAt := now))
    ensures SameExcept(s, r, ProjectInfoKey)
  {
    match GetProjectInfo(s, now)
    case Err(_) => s
    case Ok(p) => AfterSaveProjectInfo(s, fault, p.(description := Some(description)), now)
  }

  // ---------------------------------------------------------------------------
  // Settings operations
  // ---------------------------------------------------------------------------

  /** `updateTheme`: rewrites the settings with the new theme and the stored language. */
  function AfterUpdateTheme(s: Store, fault: bool, theme: Theme): (r: Store)
    ensures fault ==> r == s
    ensures !fault ==> GetSettings(r) == AppSettings(theme, GetSettings(s).language)
    ensures SameExcept(s, r, SettingsKey)
  {
    Put(s, fault, SettingsKey, SettingsDoc(GetSettings(s).(theme := theme)))
  }

  /** `updateLanguage`: rewrites the settings with the new language and the stored theme. */
  function AfterUpdateLanguage(s: Store, fault: bool, language: Language): (r: Store)
    ensures fault ==> r == s
    ensures !fault ==> GetSettings(r) == AppSettings(GetSettings(s).theme, language)
    ensures SameExcept(s, r, SettingsKey)
  {
    Put(s, fault, SettingsKey, SettingsDoc(GetSettings(s).(language := language)))
  }

  // ---------------------------------------------------------------------------
  // Export, import and clearing
  // ---------------------------------------------------------------------------

  /** The document `exportData` serialises. */
  datatype Export = Export(
    tasks: seq<Task>,
    users: seq<User>,
    projectInfo: ProjectInfo,
    settings: AppSettings,
    exportedAt: Instant)

  /** The fields a parsed import document carries; `None` is an absent (or falsy) field. */
  datatype ImportDoc = ImportDoc(
    tasks: Option<seq<Task>>,
    users: Option<seq<User>>,
    projectInfo: Option<ProjectInfo>,
    settings: Option<AppSettings>)

  /** `exportData`: the four aggregates as read now; fails when a getter throws. */
  function ExportData(s: Store, now: Instant): (r: Result<Export>)
    ensures r.Ok? <==> GetTasks(s).Ok? && GetUsers(s).Ok? && GetProjectInfo(s, now).Ok?
    ensures r.Ok? ==> r.value == Export(GetTasks(s).value, GetUsers(s).value, GetProjectInfo(s, now).value, GetSettings(s), now)
  {
    match (GetTasks(s), GetUsers(s), GetProjectInfo(s, now))
    case (Ok(ts), Ok(us), Ok(p)) => Ok(Export(ts, us, p, GetSettings(s), now))
    case _ => Err("export failed")
  }

  /** The import document that carries every field of an export. */
  function AsImport(e: Export): ImportDoc
  {
    ImportDoc(Some(e.tasks), Some(e.users), Some(e.projectInfo), Some(e.settings))
  }

  /** One field of an import: its document written under `key` when present, nothing when absent. */
  function ImportField(s: Store, fault: bool, key: string, doc: Option<Doc>): (r: Store)
    ensures doc.None? || fault ==> r == s
    ensures doc.Some? && !fault ==> key in r && r[key] == Parsed(doc.value)
    ensures SameExcept(s, r, key)
  {
    if doc.Some? then Put(s, fault, key, doc.value) else s
  }

  /**
   * `importData` on a document that parsed: overwrites exactly the keys whose
   * fields are present, the project record through `saveProjectInfo`.
   */
  function AfterImport(s: Store, fault: bool, d: ImportDoc, now: Instant): (r: Store)
    ensures fault ==> r == s
    ensures d.tasks.None? ==> (TasksKey in r <==> TasksKey in s)
    ensures d.tasks.None? && TasksKey in s ==> r[TasksKey] == s[TasksKey]
    ensures d.users.None? ==> (UsersKey in r <==> UsersKey in s)
    ensures d.users.None? && UsersKey in s ==> r[UsersKey] == s[UsersKey]
    ensures d.projectInfo.None? ==> (ProjectInfoKey in r <==> ProjectInfoKey in s)
    ensures d.projectInfo.None? && ProjectInfoKey in s ==> r[ProjectInfoKey] == s[ProjectInfoKey]
    ensures d.settings.None? ==> (SettingsKey in r <==> SettingsKey in s)
    ensures d.settings.None? && SettingsKey in s ==> r[SettingsKey] == s[SettingsKey]
    ensures !fault && d.tasks.Some? ==> GetTasks(r) == Ok(d.tasks.value)
    ensures !fault && d.users.Some? ==> GetUsers(r) == Ok(d.users.value)
    ensures !fault && d.projectInfo.Some? ==> GetProjectInfo(r, now) == Ok(d.projectInfo.value.(updatedAt := now))
    ensures !fault && d.settings.Some? ==> GetSettings(r) == d.settings.value
    ensures r - KeySet(StorageKeys) == s - KeySet(StorageKeys)
  {
    var s1 := ImportField(s, fault, TasksKey, if d.tasks.Some? then Some(TaskList(d.tasks.value)) else None);
    var s2 := ImportField(s1, fault, UsersKey, if d.users.Some? then Some(UserList(d.users.value)) else None);
    var s3 := ImportField(s2, fault, ProjectInfoKey,
                          if d.projectInfo.Some? then Some(ProjectDoc(d.projectInfo.value.(updatedAt := now))) else None);
    var r := ImportField(s3, fault, SettingsKey, if d.settings.Some? then Some(SettingsDoc(d.settings.value)) else None);
    SameExceptAt(s, s1, TasksKey, UsersKey);
    SameExceptAt(s, s1, TasksKey, ProjectInfoKey);
    SameExceptAt(s, s1, TasksKey, SettingsKey);
    SameExceptAt(s1, s2, UsersKey, TasksKey);
    SameExceptAt(s1, s2, UsersKey, ProjectInfoKey);
    SameExceptAt(s1, s2, UsersKey, SettingsKey);
    SameExceptAt(s2, s3, ProjectInfoKey, TasksKey);
    SameExceptAt(s2, s3, ProjectInfoKey, UsersKey);
    SameExceptAt(s2, s3, ProjectInfoKey, SettingsKey);
    SameExceptAt(s3, r, SettingsKey, TasksKey);
    SameExceptAt(s3, r, SettingsKey, UsersKey);
    SameExceptAt(s3, r, SettingsKey, ProjectInfoKey);
    SameExceptOwnKeys(s, s1, TasksKey);
    SameExceptOwnKeys(s1, s2, UsersKey);
    SameExceptOwnKeys(s2, s3, ProjectInfoKey);
    SameExceptOwnKeys(s3, r, SettingsKey);
    r
  }

  /** `clearAllData`: the store without the board's four keys; other keys stay. */
  function AfterClearAll(s: Store, fault: bool): (r: Store)
    ensures fault ==> r == s
    ensures !fault ==> forall k :: k in StorageKeys ==> k !in r
    ensures !fault ==> forall k :: k !in StorageKeys ==> (k in r <==> k in s)
    ensures forall k :: k in r ==> r[k] == s[k]
  {
    if fault then s else s - KeySet(StorageKeys)
  }

  // ---------------------------------------------------------------------------
  // Properties that relate several calls
  // ---------------------------------------------------------------------------

  /** Deleting a task id twice stores the same as deleting it once. */
  lemma DeleteTaskIdempotent(s: Store, fault: bool, id: Id)
    ensures AfterDeleteTask(AfterDeleteTask(s, fault, id), fault, id) == AfterDeleteTask(s, fault, id)
  {
    if GetTasks(s).Ok? && !fault {
      var ts := GetTasks(s).value;
      FilterIdempotent(ts, (t: Task) => t.id != id);
    }
  }

  /**
   * Adding two users with the same email stores one record for that email:
   * the second call writes nothing.
   */
  lemma AddUserSameEmailOnce(s: Store, fault: bool, first: User, second: User)
    requires first.email == second.email
    requires GetUsers(s).Ok? && UserWithEmail(GetUsers(s).value, first.email).None?
    requires !fault
    ensures AfterAddUser(AfterAddUser(s, fault, first), fault, second) == AfterAddUser(s, fault, first)
    ensures var us := GetUsers(AfterAddUser(s, fault, first)).value;
            |Filter(us, (u: User) => u.email == first.email)| == 1
  {
    var us := GetUsers(s).value;
    var sameEmail := (u: User) => u.email == first.email;
    assert first in us + [first];
    FilterAppend(us, [first], sameEmail);
    FilterKeepsNone(us, sameEmail);
    assert Filter([first], sameEmail) == [first];
  }

  /**
   * `getProjectInfo` on a store without a project record returns a record
   * stamped with the reading instant: two reads at different instants differ,
   * because the default is never written.
   */
  lemma DefaultProjectInfoNotPersisted(s: Store, t1: Instant, t2: Instant)
    requires Get(s, ProjectInfoKey, NullDoc) == NullDoc
    requires t1 != t2
    ensures GetProjectInfo(s, t1) != GetProjectInfo(s, t2)
    ensures GetProjectInfo(s, t1).value.name == GetProjectInfo(s, t2).value.name == DefaultProjectName
    ensures GetProjectInfo(s, t1).value.assignedUsers == [] && GetProjectInfo(s, t1).value.tags == []
  {
    assert GetProjectInfo(s, t1).value.createdAt == t1;
  }

  /** After `initializeDefaultProjectInfo` succeeds, every later read returns the same record. */
  lemma InitializedProjectInfoIsStable(s: Store, now: Instant, t1: Instant, t2: Instant)
    requires Get(s, ProjectInfoKey, NullDoc) == NullDoc
    ensures GetProjectInfo(AfterInitializeDefaultProjectInfo(s, false, now), t1)
         == GetProjectInfo(AfterInitializeDefaultProjectInfo(s, false, now), t2)
         == Ok(DefaultProjectInfo(now))
  {
  }

  /**
   * The repository does not cap tags: whatever the number of tags a stored
   * project already has (five, the UI's limit, included), a new tag is appended.
   */
  lemma AddProjectTagHasNoCap(p: ProjectInfo, tag: string, now: Instant)
    requires tag !in p.tags
    ensures var s := map[ProjectInfoKey := Parsed(ProjectDoc(p))];
            && GetProjectInfo(AfterAddProjectTag(s, false, tag, now), now).Ok?
            && GetProjectInfo(AfterAddProjectTag(s, false, tag, now), now).value.tags == p.tags + [tag]
  {
  }

  /** Adding a tag never stores a duplicate. */
  lemma AddProjectTagKeepsTagsDistinct(s: Store, fault: bool, tag: string, now: Instant)
    requires GetProjectInfo(s, now).Ok?
    requires var tags := GetProjectInfo(s, now).value.tags;
             forall i, j :: 0 <= i < j < |tags| ==> tags[i] != tags[j]
    ensures GetProjectInfo(AfterAddProjectTag(s, fault, tag, now), now).Ok?
    ensures var tags := GetProjectInfo(AfterAddProjectTag(s, fault, tag, now), now).value.tags;
            forall i, j :: 0 <= i < j < |tags| ==> tags[i] != tags[j]
  {
  }

  /** Importing a successful export restores every aggregate; only the project's `updatedAt` is restamped. */
  lemma ExportImportRoundTrip(s: Store, now: Instant, later: Instant)
    requires ExportData(s, now).Ok?
    ensures var e := ExportData(s, now).value;
            var r := AfterImport(s, false, AsImport(e), later);
            && GetTasks(r) == GetTasks(s)
            && GetUsers(r) == GetUsers(s)
            && GetSettings(r) == GetSettings(s)
            && GetProjectInfo(r, later) == Ok(GetProjectInfo(s, now).value.(updatedAt := later))
  {
  }

  // ---------------------------------------------------------------------------
  // The repository over browser storage
  // ---------------------------------------------------------------------------

  /**
   * The repository with the browser storage it writes. `writeFault` stands for
   * a storage that throws on every write; the helpers swallow the error.
   */
  class StorageService {
    var items: Store
    const writeFault: bool

    constructor (items: Store, writeFault: bool)
      ensures this.items == items && this.writeFault == writeFault
    {
      this.items := items;
      this.writeFault := writeFault;
    }

    method Set(key: string, doc: Doc)
      modifies this
      ensures items == Put(old(items), writeFault, key, doc)
    {
      if !writeFault {
        items := items[key := Parsed(doc)];
      }
    }

    method Remove(key: string)
      modifies this
      ensures items == Delete(old(items), writeFault, key)
    {
      if !writeFault {
        items := items - {key};
      }
    }

    method SaveTasks(tasks: seq<Task>)
      modifies this
      ensures items == Put(old(items), writeFault, TasksKey, TaskList(tasks))
    {
      Set(TasksKey, TaskList(tasks));
    }

    /** `addTask`; `ok` is false when reading the stored list throws, and then nothing is written. */
    method AddTask(task: Task) returns (ok: bool)
      modifies this
      ensures ok == GetTasks(old(items)).Ok?
      ensures items == AfterAddTask(old(items), writeFault, task)
    {
      var read := GetTasks(items);
      if read.Err? {
        return false;
      }
      var tasks := read.value;
      tasks := tasks + [task];
      SaveTasks(tasks);
      return true;
    }

    method UpdateTask(updated: Task) returns (ok: bool)
      modifies this
      ensures ok == GetTasks(old(items)).Ok?
      ensures items == AfterUpdateTask(old(items), writeFault, updated)
    {
      var read := GetTasks(items);
      if read.Err? {
        return false;
      }
      var tasks := read.value;
      var index := IndexOfTask(tasks, updated.id);
      if index != -1 {
        tasks := tasks[index := updated];
        SaveTasks(tasks);
      }
      return true;
    }

    method DeleteTask(id: Id) returns (ok: bool)
      modifies this
      ensures ok == GetTasks(old(items)).Ok?
      ensures items == AfterDeleteTask(old(items), writeFault, id)
    {
      var read := GetTasks(items);
      if read.Err? {
        return false;
      }
      var filtered := TasksWithout(read.value, id);
      SaveTasks(filtered);
      return true;
    }

    method MoveTask(id: Id, status: TaskStatus, now: Instant) returns (ok: bool)
      modifies this
      ensures ok == GetTasks(old(items)).Ok?
      ensures items == AfterMoveTask(old(items), writeFault, id, status, now)
    {
      var read := GetTasks(items);
      if read.Err? {
        return false;
      }
      var tasks := read.value;
      var index := IndexOfTask(tasks, id);
      if index != -1 {
        tasks := tasks[index := Moved(tasks[index], status, now)];
        SaveTasks(tasks);
      }
      return true;
    }

    method SaveUsers(users: seq<User>)
      modifies this
      ensures items == Put(old(items), writeFault, UsersKey, UserList(users))
    {
      Set(UsersKey, UserList(users));
    }

    method AddUser(user: User) returns (ok: bool)
      modifies this
      ensures ok == GetUsers(old(items)).Ok?
      ensures items == AfterAddUser(old(items), writeFault, user)
    {
      var read := GetUsers(items);
      if read.Err? {
        return false;
      }
      var users := read.value;
      if UserWithEmail(users, user.email).None? {
        users := users + [user];
        SaveUsers(users);
      }
      return true;
    }

    method UpdateUser(updated: User) returns (ok: bool)
      modifies this
      ensures ok == GetUsers(old(items)).Ok?
      ensures items == AfterUpdateUser(old(items), writeFault, updated)
    {
      var read := GetUsers(items);
      if read.Err? {
        return false;
      }
      var users := read.value;
      var index := IndexOfUser(users, updated.id);
      if index != -1 {
        users := users[index := updated];
        SaveUsers(users);
      }
      return true;
    }

    method DeleteUser(id: Id) returns (ok: bool)
      modifies this
      ensures ok == GetUsers(old(items)).Ok?
      ensures items == AfterDeleteUser(old(items), writeFault, id)
    {
      var read := GetUsers(items);
      if read.Err? {
        return false;
      }
      SaveUsers(UsersWithout(read.value, id));
      return true;
    }

    method SaveProjectInfo(p: ProjectInfo, now: Instant)
      modifies this
      ensures items == AfterSaveProjectInfo(old(items), writeFault, p, now)
    {
      Set(ProjectInfoKey, ProjectDoc(p.(updatedAt := now)));
    }

    method InitializeDefaultProjectInfo(now: Instant)
      modifies this
      ensures items == AfterInitializeDefaultProjectInfo(old(items), writeFault, now)
    {
      var existing := Get(items, ProjectInfoKey, NullDoc);
      if existing == NullDoc {
        SaveProjectInfo(DefaultProjectInfo(now), now);
      }
    }

    /** `addUserToProject`; `ok` is false when reading the project record or the users throws. */
    method AddUserToProject(name: string, email: string, freshId: Id, now: Instant) returns (ok: bool)
      modifies this
      ensures ok == (GetProjectInfo(old(items), now).Ok? && GetUsers(old(items)).Ok?)
      ensures items == AfterAddUserToProject(old(items), writeFault, name, email, freshId, now)
    {
      var readInfo := GetProjectInfo(items, now);
      if readInfo.Err? {
        return false;
      }
      var projectInfo := readInfo.value;
      var readUsers := GetUsers(items);
      if readUsers.Err? {
        return false;
      }
      var userToAdd := UserWithEmail(readUsers.value, email);
      var user: User;
      if userToAdd.None? {
        user := User(freshId, name, email, None, now, now);
        var _ := AddUser(user);
      } else {
        user := userToAdd.value;
      }
      if !Any(projectInfo.assignedUsers, (u: User) => u.id == user.id) {
        projectInfo := projectInfo.(assignedUsers := projectInfo.assignedUsers + [user]);
        SaveProjectInfo(projectInfo, now);
      }
      return true;
    }

    method RemoveUserFromProject(userId: Id, now: Instant) returns (ok: bool)
      modifies this
      ensures ok == GetProjectInfo(old(items), now).Ok?
      ensures items == AfterRemoveUserFromProject(old(items), writeFault, userId, now)
    {
      var read := GetProjectInfo(items, now);
      if read.Err? {
        return false;
      }
      var projectInfo := read.value;
      projectInfo := projectInfo.(assignedUsers := UsersWithout(projectInfo.assignedUsers, userId));
      SaveProjectInfo(projectInfo, now);
      return true;
    }

    method UpdateProjectDueDate(dueDate: Option<Instant>, now: Instant) returns (ok: bool)
      modifies this
      ensures ok == GetProjectInfo(old(items), now).Ok?
      ensures items == AfterUpdateProjectDueDate(old(items), writeFault, dueDate, now)
    {
      var read := GetProjectInfo(items, now);
      if read.Err? {
        return false;
      }
      var projectInfo := read.value;
      projectInfo := projectInfo.(dueDate := dueDate);
      SaveProjectInfo(projectInfo, now);
      return true;
    }

    method AddProjectTag(tag: string, now: Instant) returns (ok: bool)
      modifies this
      ensures ok == GetProjectInfo(old(items), now).Ok?
      ensures items == AfterAddProjectTag(old(items), writeFault, tag, now)
    {
      var read := GetProjectInfo(items, now);
      if read.Err? {
        return false;
      }
      var projectInfo := read.value;
      if tag !in projectInfo.tags {
        projectInfo := projectInfo.(tags := projectInfo.tags + [tag]);
        SaveProjectInfo(projectInfo, now);
      }
      return true;
    }

    method RemoveProjectTag(tag: string, now: Instant) returns (ok: bool)
      modifies this
      ensures ok == GetProjectInfo(old(items), now).Ok?
      ensures items == AfterRemoveProjectTag(old(items), writeFault, tag, now)
    {
      var read := GetProjectInfo(items, now);
      if read.Err? {
        return false;
      }
      var projectInfo := read.value;
      projectInfo := projectInfo.(tags := TagsWithout(projectInfo.tags, tag));
      SaveProjectInfo(projectInfo, now);
      return true;
    }

    method UpdateProjectName(name: string, now: Instant) returns (ok: bool)
      modifies this
      ensures ok == GetProjectInfo(old(items), now).Ok?
      ensures items == AfterUpdateProjectName(old(items), writeFault, name, now)
    {
      var read := GetProjectInfo(items, now);
      if read.Err? {
        return false;
      }
      var projectInfo := read.value;
      projectInfo := projectInfo.(name := name);
      SaveProjectInfo(projectInfo, now);
      return true;
    }

    method UpdateProjectDescription(description: string, now: Instant) returns (ok: bool)
      modifies this
      ensures ok == GetProjectInfo(old(items), now).Ok?
      ensures items == AfterUpdateProjectDescription(old(items), writeFault, description, now)
    {
      var read := GetProjectInfo(items, now);
      if read.Err? {
        return false;
      }
      var projectInfo := read.value;
      projectInfo := projectInfo.(description := Some(description));
      SaveProjectInfo(projectInfo, now);
      return true;
    }

    method SaveSettings(settings: AppSettings)
      modifies this
      ensures items == Put(old(items), writeFault, SettingsKey, SettingsDoc(settings))
    {
      Set(SettingsKey, SettingsDoc(settings));
    }

    method UpdateTheme(theme: Theme)
      modifies this
      ensures items == AfterUpdateTheme(old(items), writeFault, theme)
    {
      var settings := GetSettings(items);
      SaveSettings(settings.(theme := theme));
    }

    method UpdateLanguage(language: Language)
      modifies this
      ensures items == AfterUpdateLanguage(old(items), writeFault, language)
    {
      var settings := GetSettings(items);
      SaveSettings(settings.(language := language));
    }

    /**
     * `importData`; `parsed` is the parsed document, `None` when `JSON.parse`
     * throws or yields `null`. Returns whether the import went ahead.
     */
    method ImportData(parsed: Option<ImportDoc>, now: Instant) returns (ok: bool)
      modifies this
      ensures ok == parsed.Some?
      ensures parsed.None? ==> items == old(items)
      ensures parsed.Some? ==> items == AfterImport(old(items), writeFault, parsed.value, now)
    {
      if parsed.None? {
        return false;
      }
      var data := parsed.value;
      if data.tasks.Some? {
        SaveTasks(data.tasks.value);
      }
      if data.users.Some? {
        SaveUsers(data.users.value);
      }
      if data.projectInfo.Some? {
        SaveProjectInfo(data.projectInfo.value, now);
      }
      if data.settings.Some? {
        SaveSettings(data.settings.value);
      }
      return true;
    }

    /** `clearAllData`: removes the board's keys one by one. */
    method ClearAllData()
      modifies this
      ensures items == AfterClearAll(old(items), writeFault)
    {
      var i := 0;
      while i < |StorageKeys|
        invariant 0 <= i <= |StorageKeys|
        invariant items == if writeFault then old(items) else old(items) - KeySet(StorageKeys[..i])
      {
        Remove(StorageKeys[i]);
        assert StorageKeys[..i + 1][..i] == StorageKeys[..i];
        i := i + 1;
      }
      assert StorageKeys[..i] == StorageKeys;
    }
  }
}
