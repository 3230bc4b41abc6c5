/** The store's actions as transitions from the old application state to the
    new one. Each action of `useStore` hands `set` the slots it recomputes; the
    function here returns the old state with exactly those slots replaced. The
    clock (`new Date()`) is the parameter `now`. */
module Actions {
  import opened Types
  import opened Lists
  import opened Demo

  // ---------------------------------------------------------------------
  // Merging a patch into an entity: each supplied field wins

  function MergeUser(u: User, p: UserPatch): User
  {
    User(Pick(u.id, p.id), Pick(u.name, p.name), Pick(u.email, p.email),
         Pick(u.avatar, p.avatar), Pick(u.role, p.role))
  }

  function MergeProject(pr: Project, p: ProjectPatch): Project
  {
    Project(Pick(pr.id, p.id), Pick(pr.name, p.name), Pick(pr.description, p.description),
            Pick(pr.color, p.color), Pick(pr.ownerId, p.ownerId), Pick(pr.owner, p.owner),
            Pick(pr.members, p.members), Pick(pr.tasks, p.tasks),
            Pick(pr.createdAt, p.createdAt), Pick(pr.updatedAt, p.updatedAt))
  }

  function MergeTask(t: Task, p: TaskPatch): Task
  {
    Task(Pick(t.id, p.id), Pick(t.title, p.title), Pick(t.description, p.description),
         Pick(t.status, p.status), Pick(t.priority, p.priority),
         Pick(t.assigneeId, p.assigneeId), Pick(t.assignee, p.assignee),
         Pick(t.createdById, p.createdById), Pick(t.createdBy, p.createdBy),
         Pick(t.createdAt, p.createdAt), Pick(t.updatedAt, p.updatedAt),
         Pick(t.dueDate, p.dueDate), Pick(t.tags, p.tags), Pick(t.comments, p.comments),
         Pick(t.attachments, p.attachments), Pick(t.estimatedHours, p.estimatedHours),
         Pick(t.actualHours, p.actualHours))
  }

  function MergeFilters(f: TaskFilters, p: FiltersPatch): TaskFilters
  {
    TaskFilters(Pick(f.status, p.status), Pick(f.priority, p.priority),
                Pick(f.assigneeId, p.assigneeId), Pick(f.tags, p.tags),
                Pick(f.search, p.search), Pick(f.dueDateFrom, p.dueDateFrom),
                Pick(f.dueDateTo, p.dueDateTo))
  }

  // ---------------------------------------------------------------------
  // The state the store starts from, before any action

  function Initial(): AppState
  {
    AppState(Some(DemoUsers[0]), [], [], None, None, [], NoFilters, false, None)
  }

  // ---------------------------------------------------------------------
  // User actions

  function SetCurrentUser(s: AppState, user: User): AppState
  {
    s.(currentUser := Some(user))
  }

  function AddUser(s: AppState, user: User): AppState
  {
    s.(users := s.users + [user])
  }

  function UpdateUser(s: AppState, userId: Id, updates: UserPatch): AppState
  {
    s.(users := Map(s.users, (u: User) => if u.id == userId then MergeUser(u, updates) else u))
  }

  // ---------------------------------------------------------------------
  // Project actions

  function SetCurrentProject(s: AppState, project: Option<Project>): AppState
  {
    s.(currentProject := project)
  }

  function AddProject(s: AppState, project: Project): AppState
  {
    s.(projects := s.projects + [project])
  }

  function UpdateProject(s: AppState, projectId: Id, updates: ProjectPatch): AppState
  {
    s.(projects := Map(s.projects, (p: Project) => if p.id == projectId then MergeProject(p, updates) else p),
       currentProject :=
         if s.currentProject.Some? && s.currentProject.value.id == projectId
         then Some(MergeProject(s.currentProject.value, updates))
         else s.currentProject)
  }

  function DeleteProject(s: AppState, projectId: Id): AppState
  {
    s.(projects := Filter(s.projects, (p: Project) => p.id != projectId),
       currentProject :=
         if s.currentProject.Some? && s.currentProject.value.id == projectId
         then None
         else s.currentProject)
  }

  // ---------------------------------------------------------------------
  // Board actions

  function SetCurrentBoard(s: AppState, board: Option<Board>): AppState
  {
    s.(currentBoard := board)
  }

  function UpdateBoard(s: AppState, board: Board): AppState
  {
    s.(currentBoard := Some(board))
  }

  // ---------------------------------------------------------------------
  // Task actions

  function IdIs(taskId: Id): Task -> bool
  {
    (t: Task) => t.id == taskId
  }

  function IdIsNot(taskId: Id): Task -> bool
  {
    (t: Task) => t.id != taskId
  }

  /** The tasks whose id differs from `taskId`. */
  function Without(tasks: seq<Task>, taskId: Id): seq<Task>
  {
    Filter(tasks, IdIsNot(taskId))
  }

  /** The board with `f` applied to each of its columns; no board stays no board. */
  function MapColumns(board: Option<Board>, f: Column -> Column): Option<Board>
  {
    match board
    case None => None
    case Some(b) => Some(b.(columns := Map(b.columns, f)))
  }

  function AddTask(s: AppState, task: Task): AppState
  {
    s.(tasks := s.tasks + [task],
       currentBoard := MapColumns(s.currentBoard,
         (col: Column) => if col.status == task.status then col.(tasks := col.tasks + [task]) else col))
  }

  /** A task with the id gets the patch merged in and then the clock as its
      `updatedAt`; any other task is returned as it is. */
  function Touch(t: Task, taskId: Id, updates: TaskPatch, now: Timestamp): Task
  {
    if t.id == taskId then MergeTask(t, updates).(updatedAt := now) else t
  }

  function UpdateTask(s: AppState, taskId: Id, updates: TaskPatch, now: Timestamp): AppState
  {
    s.(tasks := Map(s.tasks, (t: Task) => Touch(t, taskId, updates, now)),
       currentBoard := MapColumns(s.currentBoard,
         (col: Column) => col.(tasks := Map(col.tasks, (t: Task) => Touch(t, taskId, updates, now)))))
  }

  function DeleteTask(s: AppState, taskId: Id): AppState
  {
    s.(tasks := Without(s.tasks, taskId),
       currentBoard := MapColumns(s.currentBoard, (col: Column) => col.(tasks := Without(col.tasks, taskId))))
  }

  /** The task is appended; when an index is given, the last element is
      then taken off again and inserted at that index. */
  function PlaceAt(tasks: seq<Task>, task: Task, newIndex: Option<nat>): seq<Task>
  {
    var appended := tasks + [task];
    if newIndex.None? then appended
    else InsertAt(appended[..|appended| - 1], newIndex.value, appended[|appended| - 1])
  }

  /** One column of `moveTask`: the old-status test comes first. */
  function MoveInColumn(col: Column, taskId: Id, oldStatus: Status, moved: Task,
                        newIndex: Option<nat>): Column
  {
    if col.status == oldStatus then col.(tasks := Without(col.tasks, taskId))
    else if col.status == moved.status then col.(tasks := PlaceAt(col.tasks, moved, newIndex))
    else col
  }

  function MoveTask(s: AppState, taskId: Id, newStatus: Status, newIndex: Option<nat>,
                    now: Timestamp): AppState
  {
    match Find(s.tasks, IdIs(taskId))
    case None => s
    case Some(task) =>
      var moved := task.(status := newStatus, updatedAt := now);
      s.(tasks := Map(s.tasks, (t: Task) => if t.id == taskId then moved else t),
         currentBoard := MapColumns(s.currentBoard,
           (col: Column) => MoveInColumn(col, taskId, task.status, moved, newIndex)))
  }

  function AssignTask(s: AppState, taskId: Id, assigneeId: Id, now: Timestamp): AppState
  {
    UpdateTask(s, taskId, AssigneePatch(assigneeId), now)
  }

  // ---------------------------------------------------------------------
  // Filter, UI and initialisation actions

  function SetFilters(s: AppState, filters: FiltersPatch): AppState
  {
    s.(filters := MergeFilters(s.filters, filters))
  }

  function ClearFilters(s: AppState): AppState
  {
    s.(filters := NoFilters)
  }

  function SetLoading(s: AppState, isLoading: bool): AppState
  {
    s.(isLoading := isLoading)
  }

  function SetError(s: AppState, error: Option<string>): AppState
  {
    s.(error := error)
  }

  /** Replaces the users, the project list (by the one project, which also
      becomes current), the board and the tasks. */
  function Seed(s: AppState, users: seq<User>, project: Project, board: Board,
                tasks: seq<Task>): AppState
  {
    s.(users := users, projects := [project], currentProject := Some(project),
       currentBoard := Some(board), tasks := tasks)
  }

  function InitializeDemoData(s: AppState): AppState
  {
    Seed(s, DemoUsers, DemoProject, DemoBoard, DemoTasks)
  }

  // ---------------------------------------------------------------------
  // Persistence: the `partialize` projection and the default rehydration

  datatype Persisted = Persisted(
    currentUser: Option<User>,
    users: seq<User>,
    projects: seq<Project>,
    tasks: seq<Task>)

  function Partialize(s: AppState): Persisted
  {
    Persisted(s.currentUser, s.users, s.projects, s.tasks)
  }

  /** The persist middleware's default merge of a stored snapshot into a
      state: every stored slot replaces the state's slot of the same name. */
  function Rehydrate(p: Persisted, s: AppState): AppState
  {
    s.(currentUser := p.currentUser, users := p.users, projects := p.projects, tasks := p.tasks)
  }
}
