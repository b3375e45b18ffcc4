# Task management board: data layer and board rules in Dafny

This project models the logic of a single-project Kanban board written in
TypeScript and React. The model has five parts:

- **The repository** (`StorageService`, module `Storage`). It keeps tasks, users, the project record and the
  settings under four keys of browser storage. Each operation reads a list or record, edits it and writes it
  back. Every mutator has a specification function (`After...`) that gives the store it leaves behind. A method
  of the class `StorageService` performs the same steps on its `items` field and is proved to leave exactly
  that store.
- **The in-memory task store** (module `TasksContext`). It holds the reducer `tasksReducer` over
  `{tasks, users, loading, error, initialized}`. The provider class `TasksProvider` writes through the
  repository first and then dispatches the matching action. Lemmas prove that memory and storage agree on the
  tasks after every task command, provided task ids are unique and no write fails. A failed write leaves
  storage unchanged while memory still applies the command, so the two then disagree. They also prove that the two stores disagree on users, because storage
  dedups users by email and the reducer by id.
- **The board** (module `Board`):
  - the search-and-filter predicate;
  - the four status columns, proved to partition the filtered tasks;
  - the `allUsers` merge loop, proved against a fold over the project's users;
  - the rule that turns a drop into a move;
  - the component state `BoardView` and its handlers.
- **The tag strip** (module `ProjectTags`). It contains:
  - `String.prototype.trim` over the ECMAScript white-space set;
  - the add guard: non-blank, not already a tag, fewer than `maxTags` tags, with `maxTags` defaulting to 5;
  - the input state machine `TagInput` for Enter, Escape and blur;
  - the five-colour palette and the visibility rules of the add button and the limit notice.
- **Shared definitions.** `Domain` holds the entities: `Task`, `TaskFormData`, `User`, `ProjectInfo`,
  `AppSettings`, `Priority` and `TaskStatus`. `Arrays` holds the JavaScript array built-ins the code uses:
  `filter`, `map`, `findIndex`, `find` and `some`.

Browser storage is a `map` from key strings to an `Item`. An `Item` is one of three things:

- `Blank`: the empty string.
- `Malformed`: text whose reading or `JSON.parse` throws.
- `Parsed(doc)`: a parsed document, one of the shapes the board writes, or `null`.

Other inputs are modelled as parameters:

- `new Date()` becomes the parameter `now`, an integer instant, so turning stored date strings back into dates
  is the identity.
- `crypto.randomUUID()` becomes the parameter `freshId`.
- A storage that throws on writes is the flag `writeFault`. The repository's helpers swallow the error, so a
  faulty write leaves the store unchanged.

Two behaviours of the code are worth stating because a reader might expect otherwise:

- **The repository's `addProjectTag` has no tag limit.** It only refuses duplicates. The cap of `maxTags` is
  enforced by the tag strip alone (`ProjectTags.tsx` line 24). `Storage.AddProjectTagHasNoCap` shows a sixth
  tag being stored. `ProjectTags.UiAddKeepsStoredTagsBounded` shows that the cap still holds for tags added
  through the UI.
- **`getProjectInfo` does not write the default record it returns.** Each read of an empty store makes up a new
  default stamped with the current time (`Storage.DefaultProjectInfoNotPersisted`). Only
  `initializeDefaultProjectInfo` persists one (`Storage.InitializedProjectInfoIsStable`).

## Model

Source paths are relative to the repository root.

| member | source | states |
|---|---|---|
| Storage.Get | src/services/storage.service.ts:69-78 | the parsed document under the key, or the caller's default when the key is absent, blank or unreadable; it never fails |
| Storage.Put | src/services/storage.service.ts:80-86 | a successful write stores the document under the key; a failed write leaves the store unchanged; no other key changes |
| Storage.Delete | src/services/storage.service.ts:88-94 | a successful remove drops the key; a failed one leaves the store unchanged; no other key changes |
| Storage.GetTasks | src/services/storage.service.ts:100-113 | the stored task list, the empty list when nothing readable is stored, and an error when a stored document is not a list |
| Storage.GetUsers | src/services/storage.service.ts:157-164 | the stored user list, the empty list when nothing readable is stored, and an error when a stored document is not a list |
| Storage.GetProjectInfo | src/services/storage.service.ts:198-224 | the stored record; a default stamped with the reading instant when nothing or `null` is stored; an error for other shapes |
| Storage.GetSettings | src/services/storage.service.ts:323-328 | the stored settings, or light theme and English when nothing readable is stored |
| Storage.IndexOfTask | src/services/storage.service.ts:127 | -1 exactly when no task has the id; otherwise the first position holding that id |
| Storage.UserWithEmail | src/services/storage.service.ts:173 | none exactly when no user has the email; otherwise the first user in the list with that email |
| Storage.IndexOfUser | src/services/storage.service.ts:181 | -1 exactly when no user has the id; otherwise the first position holding that id |
| Storage.TasksWithout | src/services/storage.service.ts:136 | a task is kept exactly when its id differs; never longer than the input |
| Storage.UsersWithout | src/services/storage.service.ts:190 | a user is kept exactly when its id differs; never longer than the input |
| Storage.TagsWithout | src/services/storage.service.ts:303 | a tag is kept exactly when it differs from the removed one; never longer than the input |
| Storage.DefaultProjectInfo | src/services/storage.service.ts:203-210 | the default record: the fixed name and description, no assigned users, no tags, no due date, both stamps the given instant |
| Storage.Moved | src/services/storage.service.ts:144-148 | the moved task has the new status and `updatedAt`; every other field is kept |
| Storage.KeySet | src/services/storage.service.ts:404 | a key is in the set exactly when it is one of the listed keys |
| Storage.AfterAddTask | src/services/storage.service.ts:119-123 | the stored task list becomes the old list with the task appended at the end; nothing else changes |
| Storage.AfterUpdateTask | src/services/storage.service.ts:125-132 | an absent id writes nothing; otherwise only the first task with that id is replaced |
| Storage.AfterDeleteTask | src/services/storage.service.ts:134-138 | the stored list keeps exactly the tasks whose id differs |
| Storage.AfterMoveTask | src/services/storage.service.ts:140-151 | an absent id writes nothing; otherwise only the first task with that id gets the new status and `updatedAt` |
| Storage.AfterAddUser | src/services/storage.service.ts:170-177 | appends the user unless a stored user has the same email, in which case nothing is written |
| Storage.AfterUpdateUser | src/services/storage.service.ts:179-186 | an absent id writes nothing; otherwise only the first user with that id is replaced |
| Storage.AfterDeleteUser | src/services/storage.service.ts:188-192 | the stored list keeps exactly the users whose id differs |
| Storage.AfterSaveProjectInfo | src/services/storage.service.ts:226-231 | the record read back equals the saved one with `updatedAt` set to the current instant |
| Storage.AfterInitializeDefaultProjectInfo | src/services/storage.service.ts:233-248 | persists the default record only when nothing or `null` is stored; any other stored record is left alone; a failed write leaves the store unchanged |
| Storage.AfterAddUserToProject | src/services/storage.service.ts:250-276 | a throwing read or a failed write leaves the store unchanged. Otherwise the user is the first stored one with the email, and the users list stays as it is; when no stored user has the email, a new user (fresh id, the given name and email, both stamps now) is appended to the users. When a user with that id is already assigned, the project key is not written. Otherwise the project record becomes the old one with that user appended to `assignedUsers` and `updatedAt` set to now, every other field kept; unique assigned ids stay unique. Only the users and project keys change |
| Storage.AfterRemoveUserFromProject | src/services/storage.service.ts:279-285 | the assigned users keep exactly those with a different id, and the record is restamped |
| Storage.AfterUpdateProjectDueDate | src/services/storage.service.ts:287-291 | the record gets the new due date (none clears it) and is restamped |
| Storage.AfterAddProjectTag | src/services/storage.service.ts:293-299 | a tag already present writes nothing; otherwise the tag is appended, with no limit |
| Storage.AfterRemoveProjectTag | src/services/storage.service.ts:301-305 | the tags keep exactly those different from the removed one |
| Storage.AfterUpdateProjectName | src/services/storage.service.ts:307-311 | only the name changes, and the record is restamped |
| Storage.AfterUpdateProjectDescription | src/services/storage.service.ts:313-317 | only the description changes, and the record is restamped |
| Storage.AfterUpdateTheme | src/services/storage.service.ts:334-337 | the settings get the new theme and keep the stored language |
| Storage.AfterUpdateLanguage | src/services/storage.service.ts:339-342 | the settings get the new language and keep the stored theme |
| Storage.ExportData | src/services/storage.service.ts:376-385 | succeeds exactly when the three getters succeed, and then carries what they read |
| Storage.AfterImport | src/services/storage.service.ts:387-401 | each present field overwrites its key (the project record restamped); absent fields leave their keys untouched; foreign keys never change; a failed write leaves the store unchanged, although `importData` still returns true |
| Storage.AfterClearAll | src/services/storage.service.ts:403-407 | the four board keys are gone, and every other key keeps its value |
| Storage.DeleteTaskIdempotent | src/services/storage.service.ts:134-138 | deleting a task id twice stores the same as deleting it once |
| Storage.AddUserSameEmailOnce | src/services/storage.service.ts:170-177 | adding two users with one email stores exactly one record with that email; the second add writes nothing |
| Storage.DefaultProjectInfoNotPersisted | src/services/storage.service.ts:198-211 | on an empty store, two reads at different instants return different defaults, because nothing was written |
| Storage.InitializedProjectInfoIsStable | src/services/storage.service.ts:233-248 | after initialisation, reads at any instants return the same persisted default |
| Storage.AddProjectTagHasNoCap | src/services/storage.service.ts:293-299 | a stored project with any number of tags, five included, gets a new tag appended |
| Storage.AddProjectTagKeepsTagsDistinct | src/services/storage.service.ts:293-299 | tags without duplicates stay without duplicates |
| Storage.ExportImportRoundTrip | src/services/storage.service.ts:376-401 | importing an export restores tasks, users and settings, and the project record with only `updatedAt` restamped |
| Storage.StorageService.constructor | src/services/storage.service.ts:64 | the repository over the given storage contents and fault flag |
| Storage.StorageService.Set | src/services/storage.service.ts:80-86 | the store becomes `Put` of the old store |
| Storage.StorageService.Remove | src/services/storage.service.ts:88-94 | the store becomes `Delete` of the old store |
| Storage.StorageService.SaveTasks | src/services/storage.service.ts:115-117 | writes the task list under the tasks key |
| Storage.StorageService.AddTask | src/services/storage.service.ts:119-123 | leaves `AfterAddTask` of the old store; fails exactly when reading the tasks throws |
| Storage.StorageService.UpdateTask | src/services/storage.service.ts:125-132 | leaves `AfterUpdateTask` of the old store; fails exactly when reading the tasks throws |
| Storage.StorageService.DeleteTask | src/services/storage.service.ts:134-138 | leaves `AfterDeleteTask` of the old store; fails exactly when reading the tasks throws |
| Storage.StorageService.MoveTask | src/services/storage.service.ts:140-151 | leaves `AfterMoveTask` of the old store; fails exactly when reading the tasks throws |
| Storage.StorageService.SaveUsers | src/services/storage.service.ts:166-168 | writes the user list under the users key |
| Storage.StorageService.AddUser | src/services/storage.service.ts:170-177 | leaves `AfterAddUser` of the old store; fails exactly when reading the users throws |
| Storage.StorageService.UpdateUser | src/services/storage.service.ts:179-186 | leaves `AfterUpdateUser` of the old store |
| Storage.StorageService.DeleteUser | src/services/storage.service.ts:188-192 | leaves `AfterDeleteUser` of the old store |
| Storage.StorageService.SaveProjectInfo | src/services/storage.service.ts:226-231 | leaves `AfterSaveProjectInfo` of the old store |
| Storage.StorageService.InitializeDefaultProjectInfo | src/services/storage.service.ts:233-248 | leaves `AfterInitializeDefaultProjectInfo` of the old store |
| Storage.StorageService.AddUserToProject | src/services/storage.service.ts:250-277 | leaves `AfterAddUserToProject` of the old store; fails exactly when reading the project or the users throws |
| Storage.StorageService.RemoveUserFromProject | src/services/storage.service.ts:279-285 | leaves `AfterRemoveUserFromProject` of the old store |
| Storage.StorageService.UpdateProjectDueDate | src/services/storage.service.ts:287-291 | leaves `AfterUpdateProjectDueDate` of the old store |
| Storage.StorageService.AddProjectTag | src/services/storage.service.ts:293-299 | leaves `AfterAddProjectTag` of the old store |
| Storage.StorageService.RemoveProjectTag | src/services/storage.service.ts:301-305 | leaves `AfterRemoveProjectTag` of the old store |
| Storage.StorageService.UpdateProjectName | src/services/storage.service.ts:307-311 | leaves `AfterUpdateProjectName` of the old store |
| Storage.StorageService.UpdateProjectDescription | src/services/storage.service.ts:313-317 | leaves `AfterUpdateProjectDescription` of the old store |
| Storage.StorageService.SaveSettings | src/services/storage.service.ts:330-332 | writes the settings under the settings key |
| Storage.StorageService.UpdateTheme | src/services/storage.service.ts:334-337 | leaves `AfterUpdateTheme` of the old store |
| Storage.StorageService.UpdateLanguage | src/services/storage.service.ts:339-342 | leaves `AfterUpdateLanguage` of the old store |
| Storage.StorageService.ImportData | src/services/storage.service.ts:387-401 | a document that fails to parse returns false and writes nothing; otherwise returns true and leaves `AfterImport` |
| Storage.StorageService.ClearAllData | src/services/storage.service.ts:403-407 | the loop over the four keys leaves `AfterClearAll` of the old store |
| Domain.ParseStatus | src/types/global.types.ts:5 | a recognised status name parses to the status with that name |
| Domain.StatusNameRoundTrip | src/types/global.types.ts:5 | each status's name parses back to that status |
| TasksContext.ReplaceById | src/features/tasks/contexts/TasksContext.tsx:65-71 | same length; every task with the payload's id is replaced, and the others stay in place |
| TasksContext.MoveById | src/features/tasks/contexts/TasksContext.tsx:79-87 | same length; every task with the id gets the status and `updatedAt`, and the others stay in place |
| TasksContext.TasksReducer | src/features/tasks/contexts/TasksContext.tsx:45-103 | the transition of each action, including which fields each action leaves unchanged |
| TasksContext.ResolveAssignee | src/features/tasks/contexts/TasksContext.tsx:134 | the first in-memory user with the form's id; none exactly when there is no id, the id is empty, or no user has it |
| TasksContext.NewTask | src/features/tasks/contexts/TasksContext.tsx:130-137 | the new task carries the fresh id, the given status, the form's fields, the resolved assignee and the creation instant |
| TasksContext.EditedTask | src/features/tasks/contexts/TasksContext.tsx:155-160 | the form's fields over the existing task; id, status and `createdAt` kept; an absent due date keeps the old one |
| TasksContext.ReplaceByIdIsFirstIndexReplace | src/features/tasks/contexts/TasksContext.tsx:65-71 | with unique ids, the reducer's replace-all equals the repository's first-index replace |
| TasksContext.MoveByIdIsFirstIndexMove | src/features/tasks/contexts/TasksContext.tsx:79-87 | with unique ids, the reducer's move-all equals the repository's first-index move |
| TasksContext.DeleteTaskAbsentAndIdempotent | src/features/tasks/contexts/TasksContext.tsx:73-77 | deleting an absent id leaves the state unchanged, and deleting twice equals deleting once |
| TasksContext.FilterKeepsIdsUnique | src/features/tasks/contexts/TasksContext.tsx:76 | filtering a task list with unique ids keeps them unique |
| TasksContext.ReducerKeepsIdsUnique | src/features/tasks/contexts/TasksContext.tsx:45-103 | every action keeps task and user ids unique, provided added tasks have fresh ids |
| TasksContext.AddUserTwiceIsOnce | src/features/tasks/contexts/TasksContext.tsx:89-98 | adding a user twice equals adding it once |
| TasksContext.TaskCommandsKeepMirror | src/features/tasks/contexts/TasksContext.tsx:140-192 | with unique ids and no write fault, each task command leaves storage and memory holding the same tasks |
| TasksContext.AddUserDedupKeysDiffer | src/features/tasks/contexts/TasksContext.tsx:199-215 | when storage has the email, `addUser` writes nothing, yet memory still gains the fresh-id user |
| TasksContext.TasksProvider.constructor | src/features/tasks/contexts/TasksContext.tsx:37-43 | the provider starts from the initial state: loading, not initialised, no tasks or users |
| TasksContext.TasksProvider.Dispatch | src/features/tasks/contexts/TasksContext.tsx:110 | the state becomes the reducer's result |
| TasksContext.TasksProvider.Mount | src/features/tasks/contexts/TasksContext.tsx:113-126 | initialises from storage and mirrors it, or records the load error when a read throws |
| TasksContext.TasksProvider.AddTask | src/features/tasks/contexts/TasksContext.tsx:128-148 | stores and dispatches the built task (status `backlog` by default), or dispatches the error; keeps storage and memory in agreement |
| TasksContext.TasksProvider.UpdateTask | src/features/tasks/contexts/TasksContext.tsx:150-171 | an id not in memory changes nothing at all; otherwise stores and dispatches the edited task; keeps agreement |
| TasksContext.TasksProvider.DeleteTask | src/features/tasks/contexts/TasksContext.tsx:173-184 | deletes in storage and in memory, or dispatches the error; keeps agreement |
| TasksContext.TasksProvider.MoveTask | src/features/tasks/contexts/TasksContext.tsx:186-197 | moves in storage and in memory, or dispatches the error; keeps agreement |
| TasksContext.TasksProvider.AddUser | src/features/tasks/contexts/TasksContext.tsx:199-221 | storage dedups by email and memory by id; returns the new user, or the error after dispatching it |
| TasksContext.TasksProvider.ClearAllData | src/features/tasks/contexts/TasksContext.tsx:223-231 | stores an empty task list; memory has no tasks and keeps its users |
| Board.LowerChar | src/features/board/components/Board.tsx:95 | ASCII capitals map to the matching lower-case letter; every other character is unchanged |
| Board.Lower | src/features/board/components/Board.tsx:95-97 | same length, lower-cased character by character |
| Board.IncludesAt | src/features/board/components/Board.tsx:95-97 | an occurrence at any position makes `includes` true |
| Board.LowerSlice | src/features/board/components/Board.tsx:95-97 | lower-casing commutes with taking a slice |
| Board.LoweredOccurrence | src/features/board/components/Board.tsx:95-97 | a text containing the query in any case contains it once both are lower-cased |
| Board.MatchesSearch | src/features/board/components/Board.tsx:94-97 | true exactly when the lower-cased title, description or one of the tags contains the lower-cased query |
| Board.MatchesPriority | src/features/board/components/Board.tsx:99 | true when no priority is selected; otherwise exactly when the task has that priority |
| Board.MatchesAssignee | src/features/board/components/Board.tsx:100 | true when no assignee (or the empty id) is selected; otherwise exactly when the task's assignee has that id, so an unassigned task fails |
| Board.FilteredTasks | src/features/board/components/Board.tsx:93-103 | a task is kept exactly when the search, the priority filter and the assignee filter all accept it |
| Board.TasksByStatus | src/features/board/components/Board.tsx:106-108 | a column holds exactly the filtered tasks with its status |
| Board.EmptySearchKeepsAll | src/features/board/components/Board.tsx:93-103 | an empty query with no filters keeps every task, in order |
| Board.SearchIgnoresCase | src/features/board/components/Board.tsx:94-97 | a task whose title contains the query, in any case, passes the search |
| Board.ColumnsPartition | src/features/board/components/Board.tsx:106-108 | the four columns together hold each filtered task exactly as often as the filtered list does, and their sizes add up |
| Board.ColumnsPartitionMultiset | src/features/board/components/Board.tsx:106-108 | the multiset of the filtered tasks is the sum of the four columns' multisets |
| Board.TaskInOwnColumnOnly | src/features/board/components/Board.tsx:106-108 | a filtered task is in its status's column and in no other |
| Board.MovedTaskChangesColumn | src/features/board/components/Board.tsx:106-108 | after the reducer's move of a task to another status, the task is no longer in its old column and is in the new one |
| Board.MergeUsers | src/features/board/components/Board.tsx:73-84 | the given users come first, unchanged; every project user's id is covered; each added user is a project user whose id was new |
| Board.MergeUsersKeepsIdsUnique | src/features/board/components/Board.tsx:77-81 | unique ids stay unique after the merge |
| Board.MergeUsersAppend | src/features/board/components/Board.tsx:77-81 | the merge is a left-to-right fold over the project users |
| Board.AllUsers | src/features/board/components/Board.tsx:73-84 | the push loop computes `MergeUsers` |
| Board.DropMove | src/features/board/components/Board.tsx:117-138 | a move exactly when there is a drop target, the task exists, the target names one of the four statuses and differs from the task's |
| Board.BoardView.constructor | src/features/board/components/Board.tsx:46-49 | no filters, no dragged task, and the project record as read at mount |
| Board.BoardView.AllUsersOf | src/features/board/components/Board.tsx:73-84 | merges the project's assigned users, or none when the record could not be read |
| Board.BoardView.Mount | src/features/board/components/Board.tsx:87-90 | persists the default record if needed, then shows the record read back |
| Board.BoardView.HandleDragStart | src/features/board/components/Board.tsx:111-115 | remembers the dragged task when it is on the board |
| Board.BoardView.HandleDragEnd | src/features/board/components/Board.tsx:117-138 | forgets the dragged task and asks for exactly the move `DropMove` decides |
| Board.BoardView.ClearFilters | src/features/board/components/Board.tsx:140-143 | both filters become unset |
| Board.BoardView.HandleAddUser | src/features/board/components/Board.tsx:146-151 | assigns the user in storage, then shows the record read back; a throwing repository call changes nothing shown |
| Board.BoardView.HandleDateChange | src/features/board/components/Board.tsx:153-157 | updates the due date in storage and shows the record read back |
| Board.BoardView.HandleAddTag | src/features/board/components/Board.tsx:159-163 | adds the tag in storage and shows the record read back |
| Board.BoardView.HandleRemoveTag | src/features/board/components/Board.tsx:165-169 | removes the tag in storage and shows the record read back |
| Board.BoardView.HandleProjectNameChange | src/features/board/components/Board.tsx:171-175 | renames the project in storage and shows the record read back |
| ProjectTags.LeadingSpaces | src/features/project-info/components/ProjectTags.tsx:24 | the length of the white-space prefix: all spaces before it, a non-space at it |
| ProjectTags.TrailingSpaces | src/features/project-info/components/ProjectTags.tsx:24 | the length of the white-space suffix: all spaces after the cut, a non-space just before it |
| ProjectTags.Trim | src/features/project-info/components/ProjectTags.tsx:24 | the slice between leading and trailing white space; empty exactly when the input is blank; otherwise starts and ends with a non-space |
| ProjectTags.TrimIdempotent | src/features/project-info/components/ProjectTags.tsx:24 | trimming twice equals trimming once |
| ProjectTags.TagToAdd | src/features/project-info/components/ProjectTags.tsx:23-29 | the trimmed input is added exactly when it is non-blank, not already a tag, and there are fewer than `maxTags` tags |
| ProjectTags.TagToAddIgnoresPadding | src/features/project-info/components/ProjectTags.tsx:24 | padding the input with white space does not change the decision |
| ProjectTags.GuardKeepsTagsBounded | src/features/project-info/components/ProjectTags.tsx:23-29 | tags that are distinct and within the cap stay so after a guarded add |
| ProjectTags.UiAddKeepsStoredTagsBounded | src/features/project-info/components/ProjectTags.tsx:24 | the guard followed by the repository's uncapped add keeps the stored tags distinct and within the cap |
| ProjectTags.TagInput.constructor | src/features/project-info/components/ProjectTags.tsx:17-21 | `maxTags` defaults to 5; the input starts closed and empty |
| ProjectTags.TagInput.StartAdding | src/features/project-info/components/ProjectTags.tsx:122 | opens the input and keeps its text |
| ProjectTags.TagInput.Change | src/features/project-info/components/ProjectTags.tsx:97 | the input text becomes the typed value |
| ProjectTags.TagInput.HandleAddTag | src/features/project-info/components/ProjectTags.tsx:23-29 | passes on what `TagToAdd` accepts, then clears and closes the input; on rejection nothing changes |
| ProjectTags.TagInput.HandleKeyPress | src/features/project-info/components/ProjectTags.tsx:31-38 | Enter acts as `handleAddTag`; Escape clears and closes without adding; other keys do nothing |
| ProjectTags.TagInput.Blur | src/features/project-info/components/ProjectTags.tsx:99-105 | a non-blank entry goes through `handleAddTag`; a blank one only closes the input |
| ProjectTags.GetTagColor | src/features/project-info/components/ProjectTags.tsx:48-50 | always an entry of the palette |
| ProjectTags.TagColorsCycle | src/features/project-info/components/ProjectTags.tsx:40-50 | colours repeat every five tags, and five consecutive tags get five different colours |
| ProjectTags.ShowAddButton | src/features/project-info/components/ProjectTags.tsx:93-116 | the add button shows exactly when the input is closed and there is room for another tag |
| ProjectTags.ShowLimitNotice | src/features/project-info/components/ProjectTags.tsx:156 | the limit notice shows exactly when there is no room for another tag, and always when `maxTags` is at most 0 |
| ProjectTags.ButtonAndNoticeExclusive | src/features/project-info/components/ProjectTags.tsx:116-156 | the add button and the limit notice never show together, and exactly one shows while the input is closed; while the notice shows, every entry is rejected |

## Left out

- `getProjectStats` (src/services/storage.service.ts:348-374) is not modelled: it uses floating-point division, `Math.ceil` and the wall clock.
- `getStorageUsage` is not modelled: it iterates the browser storage object and computes a floating-point percentage.
- `exportData` is modelled without its JSON text and pretty-printing.
- `importData` takes the parse result as its input: `None` when `JSON.parse` throws, else the fields present. Arbitrary JSON is not modelled. A field counts as absent exactly when it is missing or falsy.
- Dates are integer instants. Turning them into ISO strings and back is the identity, so a malformed date string is not modelled.
- Storage holds only the document shapes the board writes, plus `null`. Other stored JSON values (numbers, `false`, objects of other shapes) are not modelled. Neither are the source's partial successes on them, such as spreading a foreign object.
- Storage.GetTasks: a parsed document that is not a task list counts as a read that throws (`Err`). The source would also accept a list of another entity.
- Storage.GetUsers: the same as `GetTasks`, for the users key.
- Storage.GetSettings: a parsed document that is not a settings record reads as the default. The source would return that document unchanged.
- A failing `localStorage.setItem` or `removeItem` is the single flag `writeFault`, fixed for a repository's lifetime. A store that fails only some writes is not modelled.
- Each command reads the clock once (`now`). The source calls `new Date()` several times within one command: `createdAt` and `updatedAt` of a new task, and the repository's and the reducer's stamps in `moveTask`.
- TasksContext.EditedTask: the source's spread also copies the form's `assigneeId` property into the task object. The model's `Task` has no such field.
- TasksContext.NewTask: the source's `...data` spread also copies the form's `assigneeId` property into the new task object. The model's `Task` has no such field.
- TasksContext.EditedTask: a `dueDate` key present with value `undefined` is treated as absent.
- The provider's `clearAllData` error branch (`Failed to clear data`) is not modelled. `saveTasks` swallows write errors, so that branch is unreachable.
- React scheduling is not modelled. Dispatches apply synchronously, and a command reads the state current at the call.
- Board.LowerChar: models `toLowerCase` for ASCII letters only. Other Unicode case mappings are not modelled.
- `over.id` from the drag library is taken to be a string. Numeric identifiers are not modelled.
- Board.BoardView.HandleAddUser: when the repository call throws, the source's handler propagates the exception and skips `onUsersUpdate`. The model returns `false` and leaves the shown record unchanged.
- A project record that cannot be read is kept as `Err` in `currentProjectInfo`. The source would fail to render the board.
- The parent callbacks `onMoveTask`, `onAddTag`, `onUsersUpdate` and `onRemoveTag` are not called by the model. The handlers return what would be passed to them.
- The filter setters (`setSelectedPriority`, `setSelectedAssignee`) are assignments to `BoardView`'s fields.
- `maxTags` is an integer. Non-integer and `NaN` values of the prop are not modelled.
- Not modelled: rendering, styling, the component library, i18n strings, drag sensors and overlays.
- Not modelled: the layout component (theme and language toggles), the project name editor, the date picker, the user assignment form and the task form modal.
