/**
 * The board's own logic (`Board`): which tasks the search and the two filters
 * keep, how the kept tasks fall into the four columns, the list of users the
 * assignee filter offers, and when a drop becomes a move.
 */
module Board {
  import opened Wrappers
  import opened Domain
  import opened Arrays
  import opened Storage
  import TasksContext

  // ---------------------------------------------------------------------------
  // Search and filters
  // ---------------------------------------------------------------------------

  /** `toLowerCase` on one character, for the ASCII letters. */
  function LowerChar(c: char): (r: char)
    ensures 'A' <= c <= 'Z' ==> 'a' <= r <= 'z' && r as int == c as int + 32
    ensures !('A' <= c <= 'Z') ==> r == c
  {
    if 'A' <= c <= 'Z' then (c as int + 32) as char else c
  }

  /** `toLowerCase`, character by character. */
  function Lower(s: string): (r: string)
    ensures |r| == |s|
    ensures forall i :: 0 <= i < |s| ==> r[i] == LowerChar(s[i])
  {
    Map(s, LowerChar)
  }

  /** `hay.includes(needle)`: the needle occurs somewhere in the haystack. */
  predicate Includes(hay: string, needle: string)
    decreases |hay|
  {
    needle <= hay || (hay != [] && Includes(hay[1..], needle))
  }

  /** An occurrence at position `i` is found by `Includes`. */
  lemma {:induction false} IncludesAt(hay: string, needle: string, i: nat)
    requires i + |needle| <= |hay| && hay[i..i + |needle|] == needle
    ensures Includes(hay, needle)
  {
    if i > 0 {
      assert hay[1..][i - 1..i - 1 + |needle|] == hay[i..i + |needle|];
      IncludesAt(hay[1..], needle, i - 1);
    } else {
      assert needle == hay[..|needle|];
    }
  }

  /** Whether a task's title, description or one of its tags contains the query, ignoring case. */
  predicate MatchesSearch(t: Task, query: string): (b: bool)
    ensures b <==> || Includes(Lower(t.title), Lower(query))
                   || Includes(Lower(t.description), Lower(query))
                   || exists tag :: tag in t.tags && Includes(Lower(tag), Lower(query))
  {
    var q := Lower(query);
    Includes(Lower(t.title), q)
    || Includes(Lower(t.description), q)
    || Any(t.tags, (tag: string) => Includes(Lower(tag), q))
  }

  /** `!selectedPriority || task.priority === selectedPriority`. */
  predicate MatchesPriority(t: Task, priority: Option<Priority>): (b: bool)
    ensures priority.None? ==> b
    ensures priority.Some? ==> (b <==> t.priority == priority.value)
  {
    priority.None? || t.priority == priority.value
  }

  /** `!selectedAssignee || task.assignee?.id === selectedAssignee`; the empty id counts as unset. */
  predicate MatchesAssignee(t: Task, assignee: Option<Id>): (b: bool)
    ensures assignee.None? || assignee == Some("") ==> b
    ensures assignee.Some? && assignee.value != "" ==>
              (b <==> t.assignee.Some? && t.assignee.value.id == assignee.value)
    ensures t.assignee.None? ==> (b <==> assignee.None? || assignee == Some(""))
  {
    assignee.None? || assignee.value == "" || (t.assignee.Some? && t.assignee.value.id == assignee.value)
  }

  /** `filteredTasks`: the tasks that pass the search and both filters, in board order. */
  function FilteredTasks(tasks: seq<Task>, query: string, priority: Option<Priority>, assignee: Option<Id>): (r: seq<Task>)
    ensures |r| <= |tasks|
    ensures forall t :: t in r <==>
              t in tasks && MatchesSearch(t, query) && MatchesPriority(t, priority) && MatchesAssignee(t, assignee)
  {
    Filter(tasks, (t: Task) => MatchesSearch(t, query) && MatchesPriority(t, priority) && MatchesAssignee(t, assignee))
  }

  /** `getTasksByStatus(status)`: the filtered tasks of one column, in board order. */
  function TasksByStatus(filtered: seq<Task>, status: TaskStatus): (r: seq<Task>)
    ensures |r| <= |filtered|
    ensures forall t :: t in r <==> t in filtered && t.status == status
  {
    Filter(filtered, (t: Task) => t.status == status)
  }

  /** With an empty query and no filters every task is shown, in order. */
  lemma EmptySearchKeepsAll(tasks: seq<Task>)
    ensures FilteredTasks(tasks, "", None, None) == tasks
  {
    forall t | t in tasks ensures MatchesSearch(t, "") {
      assert Lower("") == "";
      assert Includes(Lower(t.title), "");
    }
    FilterKeepsAll(tasks, (t: Task) => MatchesSearch(t, "") && MatchesPriority(t, None) && MatchesAssignee(t, None));
  }

  /** Lowering a slice is slicing the lowered string. */
  lemma LowerSlice(s: string, i: nat, j: nat)
    requires i <= j <= |s|
    ensures Lower(s)[i..j] == Lower(s[i..j])
  {
    var ls, t := Lower(s), s[i..j];
    var a, b := ls[i..j], Lower(t);
    assert |a| == |b| == j - i;
    forall k | 0 <= k < j - i ensures a[k] == b[k] {
      assert a[k] == ls[i + k] == LowerChar(s[i + k]);
      assert t[k] == s[i + k];
    }
    assert a == b;
  }

  /** A text containing the query at `i`, in any case, contains it once both are lowered. */
  lemma LoweredOccurrence(text: string, query: string, i: nat)
    requires i + |query| <= |text| && Lower(text[i..i + |query|]) == Lower(query)
    ensures Includes(Lower(text), Lower(query))
  {
    var lowered, q := Lower(text), Lower(query);
    LowerSlice(text, i, i + |query|);
    assert lowered[i..i + |q|] == q;
    IncludesAt(lowered, q, i);
  }

  /** The search ignores case: a task whose title contains the query, in any case, is kept. */
  lemma SearchIgnoresCase(t: Task, query: string, i: nat)
    requires i + |query| <= |t.title| && Lower(t.title[i..i + |query|]) == Lower(query)
    ensures MatchesSearch(t, query)
  {
    LoweredOccurrence(t.title, query, i);
  }

  /**
   * The four columns partition the filtered tasks: each occurrence of a task
   * is in exactly one column, its status's, and the column sizes add up.
   */
  lemma {:induction false} ColumnsPartition(filtered: seq<Task>)
    ensures multiset(filtered) == multiset(TasksByStatus(filtered, Backlog)) + multiset(TasksByStatus(filtered, Todo))
                                  + multiset(TasksByStatus(filtered, InProgress)) + multiset(TasksByStatus(filtered, NeedReview))
    ensures |filtered| == |TasksByStatus(filtered, Backlog)| + |TasksByStatus(filtered, Todo)|
                          + |TasksByStatus(filtered, InProgress)| + |TasksByStatus(filtered, NeedReview)|
  {
    ColumnsPartitionMultiset(filtered);
    var b, t, p, n := TasksByStatus(filtered, Backlog), TasksByStatus(filtered, Todo),
                      TasksByStatus(filtered, InProgress), TasksByStatus(filtered, NeedReview);
    calc {
      |filtered|;
      |multiset(filtered)|;
      |multiset(b) + multiset(t) + multiset(p) + multiset(n)|;
      |multiset(b)| + |multiset(t)| + |multiset(p)| + |multiset(n)|;
      |b| + |t| + |p| + |n|;
    }
  }

  /** The multiset half of `ColumnsPartition`, counted task by task. */
  lemma ColumnsPartitionMultiset(filtered: seq<Task>)
    ensures multiset(filtered) == multiset(TasksByStatus(filtered, Backlog)) + multiset(TasksByStatus(filtered, Todo))
                                  + multiset(TasksByStatus(filtered, InProgress)) + multiset(TasksByStatus(filtered, NeedReview))
  {
    var all := multiset(TasksByStatus(filtered, Backlog)) + multiset(TasksByStatus(filtered, Todo))
               + multiset(TasksByStatus(filtered, InProgress)) + multiset(TasksByStatus(filtered, NeedReview));
    forall x: Task ensures multiset(filtered)[x] == all[x] {
      FilterMultiset(filtered, (t: Task) => t.status == Backlog, x);
      FilterMultiset(filtered, (t: Task) => t.status == Todo, x);
      FilterMultiset(filtered, (t: Task) => t.status == InProgress, x);
      FilterMultiset(filtered, (t: Task) => t.status == NeedReview, x);
    }
  }

  /** A task is shown in the column of its status and in no other. */
  lemma TaskInOwnColumnOnly(filtered: seq<Task>, t: Task, s: TaskStatus)
    requires t in filtered
    ensures t in TasksByStatus(filtered, t.status)
    ensures s != t.status ==> t !in TasksByStatus(filtered, s)
  {
  }

  /**
   * A drag that moves a task to another status (the reducer's `MOVE_TASK`)
   * takes it out of its old column and puts it into the new one, with an
   * empty search and no filters.
   */
  lemma MovedTaskChangesColumn(tasks: seq<Task>, id: Id, newStatus: TaskStatus, now: Instant)
    requires UniqueTaskIds(tasks)
    requires IndexOfTask(tasks, id) != -1 && tasks[IndexOfTask(tasks, id)].status != newStatus
    ensures var moved := FilteredTasks(TasksContext.MoveById(tasks, id, newStatus, now), "", None, None);
            && (forall t :: t in TasksByStatus(moved, tasks[IndexOfTask(tasks, id)].status) ==> t.id != id)
            && (exists t :: t in TasksByStatus(moved, newStatus) && t.id == id)
  {
    var after := TasksContext.MoveById(tasks, id, newStatus, now);
    EmptySearchKeepsAll(after);
    var i := IndexOfTask(tasks, id);
    var oldStatus := tasks[i].status;
    assert after[i] in after && after[i].id == id && after[i].status == newStatus;
    assert after[i] in TasksByStatus(after, newStatus);
    forall t | t in TasksByStatus(after, oldStatus) ensures t.id != id {
      var j :| 0 <= j < |after| && after[j] == t;
    }
  }

  // ---------------------------------------------------------------------------
  // The user list the assignee filter offers
  // ---------------------------------------------------------------------------

  /**
   * `allUsers`: `users`, then each project user in turn unless a user with its
   * id is already in the list built so far.
   */
  function MergeUsers(users: seq<User>, projectUsers: seq<User>): (r: seq<User>)
    decreases |projectUsers|
    ensures |users| <= |r| <= |users| + |projectUsers| && r[..|users|] == users
    ensures forall u :: u in projectUsers ==> HasUserId(r, u.id)
    ensures forall i :: |users| <= i < |r| ==> r[i] in projectUsers && !HasUserId(r[..i], r[i].id)
  {
    if projectUsers == [] then users
    else
      var pre, p := projectUsers[..|projectUsers| - 1], projectUsers[|projectUsers| - 1];
      var m := MergeUsers(users, pre);
      assert projectUsers == pre + [p];
      MergeStep(users, pre, m, p);
      if Any(m, (u: User) => u.id == p.id) then m else m + [p]
  }

  /** One step of the merge keeps the three properties `MergeUsers` promises. */
  lemma MergeStep(users: seq<User>, pre: seq<User>, m: seq<User>, p: User)
    requires |users| <= |m| <= |users| + |pre| && m[..|users|] == users
    requires forall u :: u in pre ==> HasUserId(m, u.id)
    requires forall i :: |users| <= i < |m| ==> m[i] in pre && !HasUserId(m[..i], m[i].id)
    ensures var r := if HasUserId(m, p.id) then m else m + [p];
            && |users| <= |r| <= |users| + |pre| + 1 && r[..|users|] == users
            && (forall u :: u in pre + [p] ==> HasUserId(r, u.id))
            && (forall i :: |users| <= i < |r| ==> r[i] in pre + [p] && !HasUserId(r[..i], r[i].id))
  {
    if !HasUserId(m, p.id) {
      var r := m + [p];
      assert r[..|users|] == m[..|users|];
      forall u | u in pre + [p] ensures HasUserId(r, u.id) {
        if u in pre {
          var w :| w in m && w.id == u.id;
          assert w in r;
        } else {
          assert r[|m|] in r;
        }
      }
      forall i | |users| <= i < |r| ensures r[i] in pre + [p] && !HasUserId(r[..i], r[i].id) {
        if i < |m| {
          assert r[..i] == m[..i] && r[i] == m[i];
        } else {
          assert r[..i] == m;
        }
      }
    }
  }

  /** A user list without repeated ids stays so after merging in the project users. */
  lemma MergeUsersKeepsIdsUnique(users: seq<User>, projectUsers: seq<User>)
    requires UniqueUserIds(users)
    ensures UniqueUserIds(MergeUsers(users, projectUsers))
  {
    var r := MergeUsers(users, projectUsers);
    forall i, j | 0 <= i < j < |r| ensures r[i].id != r[j].id {
      if j < |users| {
        assert r[i] == users[i] && r[j] == users[j];
      } else {
        assert r[i] in r[..j];
      }
    }
  }

  /** Merging is a left-to-right fold: merging `a + b` merges `a`, then `b` into the result. */
  lemma {:induction false} MergeUsersAppend(users: seq<User>, a: seq<User>, b: seq<User>)
    ensures MergeUsers(users, a + b) == MergeUsers(MergeUsers(users, a), b)
    decreases |b|
  {
    if b == [] {
      assert a + b == a;
    } else {
      var b' := b[..|b| - 1];
      assert (a + b)[..|a + b| - 1] == a + b';
      assert (a + b)[|a + b| - 1] == b[|b| - 1];
      MergeUsersAppend(users, a, b');
    }
  }

  /** `allUsers` as the source computes it, pushing onto a copy of `users`. */
  method AllUsers(users: seq<User>, projectUsers: seq<User>) returns (combined: seq<User>)
    ensures combined == MergeUsers(users, projectUsers)
  {
    combined := users;
    var i := 0;
    while i < |projectUsers|
      invariant 0 <= i <= |projectUsers|
      invariant combined == MergeUsers(users, projectUsers[..i])
    {
      var projectUser := projectUsers[i];
      assert projectUsers[..i + 1][..i] == projectUsers[..i];
      if Find(combined, (u: User) => u.id == projectUser.id).None? {
        combined := combined + [projectUser];
      }
      i := i + 1;
    }
    assert projectUsers[..i] == projectUsers;
  }

  // ---------------------------------------------------------------------------
  // Dropping a card
  // ---------------------------------------------------------------------------

  /** The move `handleDragEnd` asks for. */
  datatype Move = Move(taskId: Id, newStatus: TaskStatus)

  /**
   * The decision of `handleDragEnd`: a move exactly when the card was dropped
   * on something, the dragged task exists, the drop target names one of the
   * four statuses, and that status differs from the task's own.
   */
  function DropMove(tasks: seq<Task>, activeId: Id, overId: Option<string>): (r: Option<Move>)
    ensures r.Some? <==>
              && overId.Some?
              && IndexOfTask(tasks, activeId) != -1
              && ParseStatus(overId.value).Some?
              && ParseStatus(overId.value).value != tasks[IndexOfTask(tasks, activeId)].status
    ensures r.Some? ==> r.value == Move(activeId, ParseStatus(overId.value).value)
  {
    if overId.None? then None
    else
      var taskToMove := Find(tasks, (t: Task) => t.id == activeId);
      if taskToMove.None? || StatusName(taskToMove.value.status) == overId.value then None
      else
        var newStatus := ParseStatus(overId.value);
        if newStatus.None? then None
        else
          assert taskToMove.value == tasks[IndexOfTask(tasks, activeId)];
          StatusNameRoundTrip(taskToMove.value.status);
          Some(Move(activeId, newStatus.value))
  }

  // ---------------------------------------------------------------------------
  // The board component's state and handlers
  // ---------------------------------------------------------------------------

  /**
   * The board's React state: the two filters, the card being dragged, and the
   * project record as last read (`Err` when reading it threw).
   */
  class BoardView {
    var selectedPriority: Option<Priority>
    var selectedAssignee: Option<Id>
    var activeTask: Option<Task>
    var currentProjectInfo: Result<ProjectInfo>
    const storage: StorageService

    constructor (storage: StorageService, now: Instant)
      ensures this.storage == storage
      ensures selectedPriority.None? && selectedAssignee.None? && activeTask.None?
      ensures currentProjectInfo == GetProjectInfo(storage.items, now)
    {
      this.storage := storage;
      selectedPriority := None;
      selectedAssignee := None;
      activeTask := None;
      currentProjectInfo := GetProjectInfo(storage.items, now);
    }

    /** The users the assignee filter offers. */
    method AllUsersOf(users: seq<User>) returns (combined: seq<User>)
      ensures combined == MergeUsers(users, if currentProjectInfo.Ok? then currentProjectInfo.value.assignedUsers else [])
    {
      var projectUsers := if currentProjectInfo.Ok? then currentProjectInfo.value.assignedUsers else [];
      combined := AllUsers(users, projectUsers);
    }

    /** The mount effect: persists a default project record if none exists, then reads it. */
    method Mount(now: Instant)
      modifies this, storage
      ensures storage.items == AfterInitializeDefaultProjectInfo(old(storage.items), storage.writeFault, now)
      ensures currentProjectInfo == GetProjectInfo(storage.items, now)
      ensures selectedPriority == old(selectedPriority) && selectedAssignee == old(selectedAssignee) && activeTask == old(activeTask)
    {
      storage.InitializeDefaultProjectInfo(now);
      currentProjectInfo := GetProjectInfo(storage.items, now);
    }

    /** `handleDragStart`: remembers the dragged task, if it is on the board. */
    method HandleDragStart(tasks: seq<Task>, activeId: Id)
      modifies this`activeTask
      ensures activeTask == Find(tasks, (t: Task) => t.id == activeId)
    {
      activeTask := Find(tasks, (t: Task) => t.id == activeId);
    }

    /** `handleDragEnd`: forgets the dragged task; `move` is what is passed to `onMoveTask`, if anything. */
    method HandleDragEnd(tasks: seq<Task>, activeId: Id, overId: Option<string>) returns (move: Option<Move>)
      modifies this`activeTask
      ensures activeTask.None?
      ensures move == DropMove(tasks, activeId, overId)
    {
      activeTask := None;
      if overId.None? {
        return None;
      }
      var taskToMove := Find(tasks, (t: Task) => t.id == activeId);
      if taskToMove.None? || StatusName(taskToMove.value.status) == overId.value {
        return None;
      }
      var newStatus := ParseStatus(overId.value);
      if newStatus.None? {
        return None;
      }
      return Some(Move(activeId, newStatus.value));
    }

    /** `clearFilters`: unsets both filters. */
    method ClearFilters()
      modifies this`selectedPriority, this`selectedAssignee
      ensures selectedPriority.None? && selectedAssignee.None?
    {
      selectedPriority := None;
      selectedAssignee := None;
    }

    /**
     * `handleAddUser`: assigns the user to the project and shows the record
     * read back. `ok` is false when the repository threw; nothing is re-read
     * then and the parent is not told to refresh its users.
     */
    method HandleAddUser(name: string, email: string, freshId: Id, now: Instant) returns (ok: bool)
      modifies this`currentProjectInfo, storage
      ensures storage.items == AfterAddUserToProject(old(storage.items), storage.writeFault, name, email, freshId, now)
      ensures ok == (GetProjectInfo(old(storage.items), now).Ok? && GetUsers(old(storage.items)).Ok?)
      ensures currentProjectInfo == if ok then GetProjectInfo(storage.items, now) else old(currentProjectInfo)
    {
      ok := storage.AddUserToProject(name, email, freshId, now);
      if ok {
        currentProjectInfo := GetProjectInfo(storage.items, now);
      }
    }

    /** `handleDateChange`. */
    method HandleDateChange(date: Option<Instant>, now: Instant)
      modifies this`currentProjectInfo, storage
      ensures storage.items == AfterUpdateProjectDueDate(old(storage.items), storage.writeFault, date, now)
      ensures currentProjectInfo == if GetProjectInfo(old(storage.items), now).Ok? then GetProjectInfo(storage.items, now)
                                    else old(currentProjectInfo)
    {
      var ok := storage.UpdateProjectDueDate(date, now);
      if ok {
        currentProjectInfo := GetProjectInfo(storage.items, now);
      }
    }

    /** `handleAddTag`: the repository call behind the tag guard. */
    method HandleAddTag(tag: string, now: Instant)
      modifies this`currentProjectInfo, storage
      ensures storage.items == AfterAddProjectTag(old(storage.items), storage.writeFault, tag, now)
      ensures currentProjectInfo == if GetProjectInfo(old(storage.items), now).Ok? then GetProjectInfo(storage.items, now)
                                    else old(currentProjectInfo)
    {
      var ok := storage.AddProjectTag(tag, now);
      if ok {
        currentProjectInfo := GetProjectInfo(storage.items, now);
      }
    }

    /** `handleRemoveTag`. */
    method HandleRemoveTag(tag: string, now: Instant)
      modifies this`currentProjectInfo, storage
      ensures storage.items == AfterRemoveProjectTag(old(storage.items), storage.writeFault, tag, now)
      ensures currentProjectInfo == if GetProjectInfo(old(storage.items), now).Ok? then GetProjectInfo(storage.items, now)
                                    else old(currentProjectInfo)
    {
      var ok := storage.RemoveProjectTag(tag, now);
      if ok {
        currentProjectInfo := GetProjectInfo(storage.items, now);
      }
    }

    /** `handleProjectNameChange`. */
    method HandleProjectNameChange(name: string, now: Instant)
      modifies this`currentProjectInfo, storage
      ensures storage.items == AfterUpdateProjectName(old(storage.items), storage.writeFault, name, now)
      ensures currentProjectInfo == if GetProjectInfo(old(storage.items), now).Ok? then GetProjectInfo(storage.items, now)
                                    else old(currentProjectInfo)
    {
      var ok := storage.UpdateProjectName(name, now);
      if ok {
        currentProjectInfo := GetProjectInfo(storage.items, now);
      }
    }
  }
}
