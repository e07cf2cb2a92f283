# Kanban task store — a verified model

This project models the task store of a client-side Kanban board
(`src/store/tasks.ts`). The store owns four ordered task lists, one per column:
`todos`, `inProgress`, `testing` and `finished`. It maps the column identifiers
`todos`, `in-progress`, `testing` and `finished` to boards and to task statuses.
It appends tasks and gives them fresh numeric ids. It moves a task from one
column to another and rewrites its status. It exports, imports and resets the
four lists, and it mirrors them to browser storage.

Files:

- `wrappers.dfy`: the `Option` type.
- `task_types.dfy`: the task record of `src/types/Task.ts`, the four-column
  enumeration `Board` and the four-list record `Boards`.
- `local_storage.dfy`: the storage adapter of `src/utils/localStorage.ts`. Browser
  storage is a map from key to task list, under the four keys `kanban_todos`,
  `kanban_in_progress`, `kanban_testing` and `kanban_finished`.
- `task_store.dfy`: the store. It has pure lookups, one specification function per
  state change (`AfterAdd`, `AfterMove`, `AfterImport`, `AfterChange`), lemmas about
  those functions, and the class `Store`. The class has the four lists as `seq`
  fields, and its methods are proved to change exactly what the specification
  functions say.

Three behaviours of the code that a reader might not expect:

- `addTask` does not set the task's status to the destination column's status.
  It only assigns an id and appends (`src/store/tasks.ts:107-126`).
  `AddTaskConsistency` states the effect: adding keeps every status in line with
  its column exactly when the caller's task already carries the right status.
- At start-up every board is read from storage when its key is present, even
  when the stored list is empty (`src/utils/localStorage.ts:18-26`). The seed list
  is used only for a missing key.
- `importData` replaces a board whenever that field of the payload is truthy
  (`src/store/tasks.ts:174-177`). A field that is absent or falsy (`null`,
  `undefined`) replaces nothing; it is `None` in the model. A present empty list
  counts, because an array is truthy in JavaScript.

## Model

| member | source | states |
|---|---|---|
| `TaskStore.GetBoardByType` | src/store/tasks.ts:60-73 | Returns a board exactly when the string is one of the four column identifiers, and then the board with that identifier; returns None for every other string |
| `TaskStore.GetBoardByColumnId` | src/store/tasks.ts:60-73 | Each column's identifier maps back to that column, so the lookup is the inverse of `ColumnId` |
| `TaskStore.GetStatusByBoardType` | src/store/tasks.ts:75-88 | Total: a column identifier gets its column's status (to-do, in-progress, testing, finished); any other string gets to-do |
| `TaskStore.AllTasks` | src/store/tasks.ts:203-210 | Length is the sum of the four board lengths; position `i` of column `b` sits at that column's offset plus `i`, in the order todos, inProgress, testing, finished |
| `TaskStore.AllTasksMembership` | src/store/tasks.ts:203-210 | A task is in the concatenation exactly when it is on one of the four boards |
| `TaskStore.MaxId` | src/store/tasks.ts:112 | The maximum of the ids of a non-empty list: no id is larger, and some task has it |
| `TaskStore.NextId` | src/store/tasks.ts:111-112 | 1 when there are no tasks; otherwise larger than every id and one more than some id, that is, max + 1 |
| `TaskStore.NextIdExample` | src/store/tasks.ts:111-112 | Existing ids 1, 3 and 7 give the fresh id 8 |
| `TaskStore.AssignId` | src/store/tasks.ts:110-113 | Only the id may change; a non-zero (truthy) id is kept; a zero id becomes the next id, which differs from every existing id |
| `TaskStore.AddTaskEffect` | src/store/tasks.ts:107-126 | An unknown column changes nothing; on a column, that board becomes the old board plus the id-assigned task at the end, the other three boards are unchanged, and the count grows by one |
| `TaskStore.AddTaskFreshId` | src/store/tasks.ts:110-113 | An assigned id is strictly greater than every id on every board before the call, and is 1 on an empty store |
| `TaskStore.AddTaskConsistency` | src/store/tasks.ts:107-121 | On a store where every status matches its column, adding keeps that true exactly when the task already has the destination's status, because the status is not rewritten |
| `TaskStore.FindIndex` | src/store/tasks.ts:192 | Returns -1 exactly when no task has the id; otherwise the first position holding the id |
| `TaskStore.RemoveAt` | src/store/tasks.ts:198 | `splice(i, 1)`: one element shorter, elements before `i` kept, later ones shifted down by one |
| `TaskStore.MoveTaskNoOp` | src/store/tasks.ts:187-196 | When either identifier is invalid or the source board has no task with the id, no board changes |
| `TaskStore.MoveTaskEffect` | src/store/tasks.ts:192-200 | The first task with the id leaves the source board, gets the target's status and is appended to the target board; the other two boards are unchanged; with the same source and target the task moves to the end |
| `TaskStore.MoveTaskCount` | src/store/tasks.ts:183-201 | A move conserves the total number of tasks |
| `TaskStore.MoveTaskKeepsIds` | src/store/tasks.ts:183-201 | A move conserves the multiset of ids over all boards: no task is lost or duplicated |
| `TaskStore.MoveTaskConsistency` | src/store/tasks.ts:197-200 | A move keeps every task's status in line with its column |
| `TaskStore.AfterImport` | src/store/tasks.ts:172-181 | A null argument changes nothing; otherwise each board whose field is truthy (a list) is replaced by it and every board whose field is absent or falsy is kept |
| `TaskStore.ImportExportRoundTrip` | src/store/tasks.ts:162-177 | Importing the four lists of an export leaves every board as it was |
| `TaskStore.ChangeRestoresConsistency` | src/store/tasks.ts:90-105 | When the drag library drops a task with a stale status into a column and the handler gets that column's identifier, every status matches its column afterwards |
| `TaskStore.Store.GetAllTasks` | src/store/tasks.ts:203-210 | The current boards concatenated: its length is the sum of the four board lengths, and position `i` of column `b` sits at that column's offset plus `i`, in the order todos, inProgress, testing, finished |
| `TaskStore.Store.ExportData` | src/store/tasks.ts:162-170 | The four boards exactly as they are (without the timestamp), and importing them back leaves the store's boards unchanged |
| `TaskStore.Store.constructor` | src/store/tasks.ts:19-38 | Boards are loaded from storage (a seed list for each absent key) when storage is available, and are the seed lists otherwise |
| `TaskStore.Store.AddTask` | src/store/tasks.ts:107-126 | Returns true exactly for a valid column; the new boards are `AfterAdd` of the old; all boards are saved only on success with storage available |
| `TaskStore.Store.MoveTask` | src/store/tasks.ts:183-201 | The new boards are `AfterMove` of the old; storage is not written |
| `TaskStore.Store.ImportData` | src/store/tasks.ts:172-181 | The new boards are `AfterImport` of the old; storage is not written |
| `TaskStore.Store.ResetToDefault` | src/store/tasks.ts:142-151 | Every board becomes its seed list; the four storage keys are removed when storage is available |
| `TaskStore.Store.SaveAllToStorage` | src/store/tasks.ts:128-140 | Writes all four boards under their keys when storage is available, and nothing otherwise; boards are unchanged |
| `TaskStore.Store.ClearStorage` | src/store/tasks.ts:153-160 | Removes the four keys when storage is available, and nothing otherwise; boards are unchanged |
| `TaskStore.Store.Change` | src/store/tasks.ts:90-105 | For an "added" event the added task gets the status for the given identifier and all boards are saved when storage is available; any other event changes nothing |
| `LocalStorage.BoardKeys` | src/utils/localStorage.ts:3-8 | Exactly four distinct keys, one per column |
| `LocalStorage.SaveAllBoards` | src/utils/localStorage.ts:36-46 | Each board is stored under its column's key; keys other than the four are kept |
| `LocalStorage.LoadAllBoards` | src/utils/localStorage.ts:48-60 | Each board is the stored list when its key is present, and the fallback list otherwise |
| `LocalStorage.ClearAllBoardStorage` | src/utils/localStorage.ts:62-74 | The four keys are removed and every other key is kept |
| `LocalStorage.LoadAfterSave` | src/utils/localStorage.ts:36-60 | Loading right after saving gives back exactly the saved boards |
| `LocalStorage.LoadAfterClear` | src/utils/localStorage.ts:55-74 | Loading right after clearing gives the fallback boards |

## Left out

- Vue and Pinia machinery: `defineStore`, `ref`, and the deep `watch` hooks (`src/store/tasks.ts:18, 35-58`). In the application these watchers write a board back to storage after every change, including after `moveTask`, `importData` and `resetToDefault`. The model writes storage only where the store's own code does.
- JSON encoding and decoding and storage failures (quota, disabled storage at write time). The model takes a write as lossless and always successful, and the availability probe `isLocalStorageAvailable` is a constant fixed when the store is built.
- `getStorageInfo` in `src/utils/localStorage.ts` is not part of this model. It only reports storage usage, and the store does not call it.
- The `timestamp` of `exportData`, because it reads the clock.
- Console logging.
- Object aliasing. Tasks are values here. In the source, `addTask` and `moveTask` mutate the caller's or the seed list's task objects in place, and the shallow copies `[...todosData]` share those objects. The model does not capture such sharing.
- TaskStore.Store.Change: the drag event is reduced to the column and position where the library inserted the task. The method requires that position to be inside that column, which is what the library guarantees. Events other than "added" change nothing.
- Type drift in `importData`: a present field is assumed to be a task list. A truthy field of another type, which the source would also assign, is not modelled.
- Number semantics: ids and `progress` are unbounded integers. Floating-point ids, `NaN`, and the argument-count limit of `Math.max(...)` are not modelled. Only the id `0` is falsy.
- The seed data (`src/data/*.ts`) is a parameter of the store, not fixed contents.
- The unused `loading` flag, `src/main.ts` and `src/router/index.ts`, which hold no store logic.
