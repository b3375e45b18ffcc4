/**
 * The board's value types: users, tasks, the task form, the project record and
 * the application settings. Dates are instants in milliseconds since the epoch,
 * so turning a stored ISO-8601 string back into a date is the identity here.
 */
module Domain {
  import opened Wrappers

  type Id = string

  /** A point in time, in milliseconds since the epoch. */
  type Instant = int

  datatype Priority = Low | Medium | High

  datatype TaskStatus = Backlog | Todo | InProgress | NeedReview

  datatype Theme = Light | Dark

  datatype Language = En | Ar

  /** A person who can be assigned to tasks and to the project. */
  datatype User = User(
    id: Id,
    name: string,
    email: string,
    avatar: Option<string>,
    createdAt: Instant,
    updatedAt: Instant)

  /** A card on the board; `assignee` is a copy of the user taken when the task was saved. */
  datatype Task = Task(
    id: Id,
    title: string,
    description: string,
    priority: Priority,
    assignee: Option<User>,
    tags: seq<string>,
    status: TaskStatus,
    dueDate: Option<Instant>,
    createdAt: Instant,
    updatedAt: Instant)

  /**
   * What the task form submits. `dueDate` is `None` when the form leaves the
   * property out, in which case editing keeps the task's own due date.
   */
  datatype TaskFormData = TaskFormData(
    title: string,
    description: string,
    priority: Priority,
    assigneeId: Option<Id>,
    tags: seq<string>,
    dueDate: Option<Instant>)

  /** The single project the board belongs to. */
  datatype ProjectInfo = ProjectInfo(
    name: string,
    description: Option<string>,
    assignedUsers: seq<User>,
    dueDate: Option<Instant>,
    tags: seq<string>,
    createdAt: Instant,
    updatedAt: Instant)

  datatype AppSettings = AppSettings(theme: Theme, language: Language)

  /** The board's columns, left to right. */
  /** The string a status is stored and dropped as. */
  function StatusName(s: TaskStatus): string
  {
    match s
    case Backlog => "backlog"
    case Todo => "todo"
    case InProgress => "inProgress"
    case NeedReview => "needReview"
  }

  /** The status a string names, if it names one of the four. */
  function ParseStatus(name: string): (r: Option<TaskStatus>)
    ensures r.Some? ==> StatusName(r.value) == name
  {
    if name == "backlog" then Some(Backlog)
    else if name == "todo" then Some(Todo)
    else if name == "inProgress" then Some(InProgress)
    else if name == "needReview" then Some(NeedReview)
    else None
  }

  /** Every status's name parses back to that status, so the four names are distinct. */
  lemma StatusNameRoundTrip(s: TaskStatus)
    ensures ParseStatus(StatusName(s)) == Some(s)
  {
    match s
    case Backlog =>
    case Todo =>
    case InProgress =>
    case NeedReview =>
  }

  /** No two tasks of the list share an id. */
  ghost predicate UniqueTaskIds(ts: seq<Task>)
  {
    forall i, j :: 0 <= i < j < |ts| ==> ts[i].id != ts[j].id
  }

  /** No two users of the list share an id. */
  ghost predicate UniqueUserIds(us: seq<User>)
  {
    forall i, j :: 0 <= i < j < |us| ==> us[i].id != us[j].id
  }

  /** Whether some user of the list has this id. */
  predicate HasUserId(us: seq<User>, id: Id)
  {
    exists u :: u in us && u.id == id
  }
}
