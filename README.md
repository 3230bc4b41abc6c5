# Task store of the Omniaa task manager, in Dafny

The task manager keeps all of its client state in a single store, `useStore`
(`src/store/useStore.ts`). The state holds:

- the signed-in user;
- the users and the projects, and the current project;
- the current board, whose columns each carry a status and a list of tasks;
- the flat list of all tasks;
- the task filters, and a loading flag and an error message.

Every action is a synchronous transition: it reads the old state, computes new
values for some slots, and hands them to `set`. Each task exists twice, once in
the flat `tasks` list and once inside the column of its status. Each task
action rewrites both copies on its own. This model states exactly what each
action does to the two copies, and which actions keep them consistent.

The modules are:

- `Types` holds the records and enumerations of `src/types/index.ts`.
  - `Partial<T>` becomes a `…Patch` record of `Option` fields, where `None`
    means "not supplied".
  - An optional field `f?: T` is `Option<T>`, so its patch field is
    `Option<Option<T>>`. A patch can therefore clear it.
  - `Date` is an integer timestamp.
- `Lists` holds the JavaScript array operations the store uses: `map`,
  `filter`, `find` and the `splice` of `moveTask`. Each is a function whose
  contract says what it returns.
- `Demo` holds the seed data: four users, one project, five tasks, and a board
  whose columns are built by filtering the tasks on each status.
- `Actions` gives every action as a function from the old state to the new
  one. Each function replaces exactly the slots the action's `set` receives.
  The clock is a parameter `now`.
- `Effects` gives a lemma for each action that rewrites a list or merges a
  patch: the four task actions and `assignTask`, `updateUser`, `updateProject`,
  `deleteProject`, `setFilters` and `clearFilters`, and the persisted
  projection. Each lemma states the action's effect on each slot and on each
  copy of a task. The remaining actions (`setCurrentUser`, `addUser`,
  `setCurrentProject`, `addProject`, `setCurrentBoard`, `updateBoard`,
  `setLoading`, `setError`, `initializeDemoData`) overwrite or append to a
  single slot, and their `Actions` function says all there is to say.
- `Sync` defines `InSync`. It means that task ids are unique, that no two
  columns share a status, and that each column holds exactly the listed tasks
  of its status, once each. `Sync` proves which actions keep `InSync` and
  which ones break it.
- `TaskStore.Store` is the store itself: a class with one field per state
  slot. Each method overwrites the slots its action sets, and is proved equal
  to the `Actions` transition. Every action method also promises each of the two
  invariants that its action keeps: `InSync`, and "the current project is
  one of the listed projects". `setCurrentProject` can install an unlisted
  project and `setCurrentBoard`/`updateBoard` can install any board, so those
  promise only the other invariant. The task actions keep `InSync` under the
  conditions stated in their rows. `Seed` installs arbitrary data and promises
  neither; `InitializeDemoData` establishes both for the demo seed.

Where the code and its documentation disagree, the model follows the code.

- `updateTask` with a patch that changes `status` leaves the task in the
  column of its old status. The board is then out of sync, and
  `Sync.UpdateStatusBreaksSync` proves it.
- `moveTask` to the status a task already has removes the task from its
  column and puts it back nowhere, because the old-status test runs first.
  `Sync.MoveToSameStatusBreaksSync` proves this.
- The code does not promise that `updatedAt` strictly increases. The new value
  is whatever the clock gives, so nothing is claimed about its order.

## Model

| member | source | states |
|---|---|---|
| Lists.Map | src/store/useStore.ts:236-238 | `map` keeps the length, and element `i` of the result is `f` applied to element `i` |
| Lists.Filter | src/store/useStore.ts:304 | `filter` holds exactly the elements the predicate accepts, and is never longer than its input |
| Lists.KeptIndices | src/store/useStore.ts:304 | the accepted positions, strictly increasing, all of them and nothing else |
| Lists.FilterKeepsOrder | src/store/useStore.ts:304 | `filter` is its input read at the accepted positions, left to right, so relative order is kept |
| Lists.Find | src/store/useStore.ts:319 | `find` returns nothing exactly when no element matches; otherwise it returns a matching element with no match before it |
| Lists.InsertAt | src/store/useStore.ts:335-338 | `splice(i, 0, x)` puts `x` at `min(i, n)`, keeps the earlier elements and shifts the later ones up by one; the result is the input plus `x` as a multiset |
| Effects.AddTaskEffect | src/store/useStore.ts:267-281 | `addTask` appends the task to the flat list and to the end of every column of its status; other columns are unchanged, a missing board stays missing, and other slots are unchanged |
| Effects.TouchEffect | src/store/useStore.ts:286 | a matching task gets the patch merged in and `updatedAt = now`, which overrides any `updatedAt` in the patch; other tasks are unchanged |
| Effects.UpdateTaskEffect | src/store/useStore.ts:283-300 | `updateTask` keeps the length and order of the flat list and of every column, changes each copy with the id as above, and moves no task between columns |
| Effects.UpdateUnknownTaskIsNoop | src/store/useStore.ts:283-300 | `updateTask` with an id found in no list leaves the state unchanged |
| Effects.AssignTaskEffect | src/store/useStore.ts:349-350 | `assignTask` sets `assigneeId` and `updatedAt` on every copy of the task and changes nothing else |
| Effects.WithoutEffect | src/store/useStore.ts:304 | filtering out an id keeps every task with another id, in the original order, and nothing else |
| Effects.DeleteTaskEffect | src/store/useStore.ts:302-315 | after `deleteTask`, no task with the id is left in the flat list or in any column; the others keep their order; a missing board stays missing |
| Effects.DeleteThenUpdateIsNoop | src/store/useStore.ts:283-315 | `updateTask` right after `deleteTask` of the same id changes nothing |
| Effects.MoveUnknownTaskIsNoop | src/store/useStore.ts:319-320 | `moveTask` with an id absent from the flat list returns the state unchanged, even if a column holds that id |
| Effects.PlaceAtEffect | src/store/useStore.ts:335-338 | append-then-pop-then-splice equals appending without an index, and inserting at the index with one |
| Effects.MoveTaskEffect | src/store/useStore.ts:317-347 | `moveTask` to another status: only the task changes in the flat list (new status and `now`); columns of the old status lose it, columns of the new status gain it at the end or at `min(i, n)`, and other columns are unchanged |
| Effects.MoveInColumnEffect | src/store/useStore.ts:330-341 | the per-column step of `moveTask`: the old-status test comes first, then the new-status test, and any other column is returned as is |
| Effects.MoveToSameStatusEffect | src/store/useStore.ts:322-334 | `moveTask` to the current status refreshes `updatedAt` in the flat list and removes the task from its column without adding it back |
| Effects.UpdateUserEffect | src/store/useStore.ts:234-239 | `updateUser` merges the patch into every user with the id, keeps the others and the length, and is a no-op for an unknown id |
| Effects.UpdateProjectEffect | src/store/useStore.ts:245-254 | `updateProject` merges into every matching project, and into the current project exactly when its id matches |
| Effects.DeleteProjectEffect | src/store/useStore.ts:255-260 | `deleteProject` removes every project with the id and keeps the others in order; it clears the current project exactly when its id matches; the tasks are untouched |
| Effects.FiltersLaws | src/store/useStore.ts:353-355 | `setFilters` is a right-biased merge as a whole (an empty patch is the identity, it is idempotent, and two patches compose); `clearFilters` yields the empty filters; only the filters slot changes |
| Effects.SetFiltersFields | src/store/useStore.ts:353-354 | `setFilters` installs each of the seven fields the patch supplies and keeps every other field of the current filters |
| Effects.PartializeExactly | src/store/useStore.ts:373-378 | the persisted snapshot determines, and is determined by, exactly the current user, the users, the projects and the tasks |
| Effects.PersistRoundTrip | src/store/useStore.ts:371-378 | restoring a snapshot into a fresh store brings back the four persisted slots; the board, the current project, the filters and the flags are those of a fresh store |
| Sync.FilterKeepsUniqueIds | src/store/useStore.ts:304 | filtering a list with unique ids keeps its ids unique |
| Sync.AppendFreshKeepsUniqueIds | src/store/useStore.ts:269 | appending a task with a new id keeps ids unique |
| Sync.InsertFreshKeepsUniqueIds | src/store/useStore.ts:337 | splicing in a task with a new id keeps ids unique |
| Sync.DemoTaskIdsUnique | src/store/useStore.ts:73-158 | the demo tasks have distinct ids |
| Sync.FilteredColumnMirrors | src/store/useStore.ts:179 | a column built by filtering a list with unique ids on its status holds exactly that list's tasks of its status |
| Sync.DemoStatusesDistinct | src/store/useStore.ts:172-205 | the four demo columns have four different statuses |
| Sync.DemoColumnsFiltered | src/store/useStore.ts:172-205 | each demo column's tasks are the demo tasks filtered on that column's status |
| Sync.DemoInSync | src/store/useStore.ts:362-369 | the state `initializeDemoData` produces is in sync |
| Sync.AddTaskKeepsSync | src/store/useStore.ts:267-281 | `addTask` of a task with a new id keeps the state in sync |
| Sync.DeleteTaskKeepsSync | src/store/useStore.ts:302-315 | `deleteTask` keeps the state in sync |
| Sync.TouchedColumnMirrors | src/store/useStore.ts:285-296 | a column and the flat list, patched alike without touching id or status, still agree |
| Sync.UpdateTaskKeepsSync | src/store/useStore.ts:283-300 | `updateTask` with a patch that changes neither the id nor the status of the listed task (it supplies none or the same one) keeps the state in sync |
| Sync.AssignTaskKeepsSync | src/store/useStore.ts:349-350 | `assignTask` keeps the state in sync |
| Sync.OldColumnMirrors | src/store/useStore.ts:331-333 | a column of the old status, with the task filtered out, agrees with the moved flat list |
| Sync.NewColumnMirrors | src/store/useStore.ts:334-340 | a column of the new status, with the moved task placed in it, agrees with the moved flat list |
| Sync.OtherColumnMirrors | src/store/useStore.ts:341 | a column of any other status, left as it is, agrees with the moved flat list |
| Sync.MovedColumnMirrors | src/store/useStore.ts:330-342 | every column, whichever branch applies to it, agrees with the moved flat list |
| Sync.MoveTaskKeepsSync | src/store/useStore.ts:317-347 | `moveTask` of a listed task to a different status keeps the state in sync |
| Sync.UpdateStatusBreaksSync | src/store/useStore.ts:283-300 | `updateTask` that changes the status of a task of a column breaks the sync |
| Sync.MoveToSameStatusBreaksSync | src/store/useStore.ts:331-334 | `moveTask` to a task's own status, with a column of that status on the board, breaks the sync |
| Sync.UpdateProjectKeepsCurrentListed | src/store/useStore.ts:245-254 | `updateProject` keeps the current project among the listed projects |
| Sync.DeleteProjectKeepsCurrentListed | src/store/useStore.ts:255-260 | `deleteProject` keeps the current project among the listed projects |
| Sync.MoveHeadTask | src/store/useStore.ts:317-347 | moving the first listed task to another column without an index puts its new copy last in that column and removes it from its old column |
| Sync.DemoMoveScenario | src/store/useStore.ts:317-347 | after seeding, moving task "1" to done gives it status done; the done column holds it and the to-do column does not |
| Sync.DemoRenameScenario | src/store/useStore.ts:245-254 | after seeding, renaming project "1" renames both the listed and the current copy, which stay equal |
| TaskStore.Store.constructor | src/store/useStore.ts:220-229 | the store starts with the first demo user signed in and everything else empty, and in sync |
| TaskStore.Store.SetCurrentUser | src/store/useStore.ts:232 | only the current user changes; both invariants are kept |
| TaskStore.Store.AddUser | src/store/useStore.ts:233 | the user is appended and nothing else changes; both invariants are kept |
| TaskStore.Store.UpdateUser | src/store/useStore.ts:234-239 | the users become those of the `updateUser` transition; both invariants are kept |
| TaskStore.Store.SetCurrentProject | src/store/useStore.ts:242 | only the current project changes; `InSync` is kept |
| TaskStore.Store.AddProject | src/store/useStore.ts:243-244 | the project is appended; both invariants are kept |
| TaskStore.Store.UpdateProject | src/store/useStore.ts:245-254 | the `updateProject` transition; both invariants are kept |
| TaskStore.Store.DeleteProject | src/store/useStore.ts:255-260 | the `deleteProject` transition; both invariants are kept |
| TaskStore.Store.SetCurrentBoard | src/store/useStore.ts:263 | only the board changes; the current project stays listed |
| TaskStore.Store.UpdateBoard | src/store/useStore.ts:264 | only the board changes; the current project stays listed |
| TaskStore.Store.AddTask | src/store/useStore.ts:267-281 | the `addTask` transition; a task with a new id keeps the store in sync; the current project stays listed |
| TaskStore.Store.UpdateTask | src/store/useStore.ts:283-300 | the `updateTask` transition; a patch that changes neither id nor status keeps the store in sync; the current project stays listed |
| TaskStore.Store.DeleteTask | src/store/useStore.ts:302-315 | the `deleteTask` transition; both invariants are kept |
| TaskStore.Store.MoveTask | src/store/useStore.ts:317-347 | the `moveTask` transition; moving a listed task to another status keeps the store in sync; the current project stays listed |
| TaskStore.Store.AssignTask | src/store/useStore.ts:349-350 | `updateTask` with the assignee patch; both invariants are kept |
| TaskStore.Store.SetFilters | src/store/useStore.ts:353-354 | the filters are merged with the patch and nothing else changes; both invariants are kept |
| TaskStore.Store.ClearFilters | src/store/useStore.ts:355 | the filters become empty and nothing else changes; both invariants are kept |
| TaskStore.Store.SetLoading | src/store/useStore.ts:358 | only the loading flag changes; both invariants are kept |
| TaskStore.Store.SetError | src/store/useStore.ts:359 | only the error changes; both invariants are kept |
| TaskStore.Store.Seed | src/store/useStore.ts:363-369 | one `set` of the users, the single project (which also becomes current), the board and the tasks |
| TaskStore.Store.InitializeDemoData | src/store/useStore.ts:362-369 | the demo seed is installed, and the store is then in sync with the current project listed |

## Left out

- The React components, routing and the dashboard's derived statistics are not modelled. They are presentation only, and the statistics depend on the clock and floating-point percentages.
- The startup code calls `initializeDemoData` whenever there is no current project (`src/App.tsx:13-14`). This is not modelled.
- The `create`, `devtools` and `persist` middleware and the storage I/O are not modelled. Only the `partialize` projection is. `Actions.Rehydrate` is the middleware's default shallow merge of a stored snapshot into a fresh state.
- Effects.PersistRoundTrip: the round trip is exact only for the model's integer timestamps. The middleware's default storage is JSON, so on reload every `Date` field of the persisted users, projects and tasks comes back as a string, which this model does not capture.
- `new Date()` is the parameter `now`. `updateTask` reads the clock twice, once for the flat copy and once for the column copies (`src/store/useStore.ts:286,294`). The model uses one `now` for both.
- Sync.UpdateTaskKeepsSync: the flat copy and the column copy of an updated task are equal only because both read the one `now`. With two clock readings that differ, the two copies differ in `updatedAt`, and `InSync`, which compares whole task values, would fail.
- Sync.AssignTaskKeepsSync: holds only because both copies read the one `now`, for the same reason as `Sync.UpdateTaskKeepsSync`. The same applies to the sync promises of `TaskStore.Store.UpdateTask` and `TaskStore.Store.AssignTask`.
- Demo dates are `yyyymmdd` integers, which keep the order of the `Date` values but not their millisecond values.
- `estimatedHours` and `actualHours` are `real`. The attachment `size` and the column `order` are `int`. JavaScript floating point is not modelled.
- `moveTask`'s `newIndex` is a `nat`. A negative index counts from the end in `splice`, and this is not modelled.
- Patches cannot set a required field to `undefined`. A `Partial<T>` with an explicit `undefined` for a required field is not modelled.
- Sync.UpdateTaskKeepsSync: only covers patches that change neither `id` nor `status`: each is either not supplied or equal to the task's current value. A status change breaks the sync (`Sync.UpdateStatusBreaksSync`). An id change can create duplicate ids.
- Sync.AddTaskKeepsSync: only covers tasks whose id is not already listed. The store itself does not check this.
- Sync.MoveTaskKeepsSync: only covers a move to a different status. A move to the same status breaks the sync (`Sync.MoveToSameStatusBreaksSync`).
- `InSync` relates the columns to the flat list by membership, not by order. Columns keep an order of their own, set by appends and splices.
