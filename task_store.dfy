/** The store object: one mutable slot per field of the application state.
    Each action recomputes some slots from the current ones (the transitions
    of `Actions`) and overwrites exactly those, as `set` does with the partial
    state an action returns. */
module TaskStore {
  import opened Types
  import Lists
  import Demo
  import Actions
  import Sync

  class Store {
    var currentUser: Option<User>
    var users: seq<User>
    var projects: seq<Project>
    var currentProject: Option<Project>
    var currentBoard: Option<Board>
    var tasks: seq<Task>
    var filters: TaskFilters
    var isLoading: bool
    var error: Option<string>

    /** The whole state, as one value. */
    function Snapshot(): AppState
      reads this
    {
      AppState(currentUser, users, projects, currentProject, currentBoard, tasks, filters,
               isLoading, error)
    }

    /** The store's initial state: the first demo user is signed in and
        everything else is empty. */
    constructor ()
      ensures Snapshot() == Actions.Initial()
      ensures Sync.InSync(Snapshot()) && Sync.CurrentProjectListed(Snapshot())
    {
      currentUser := Some(Demo.DemoUsers[0]);
      users, projects, currentProject, currentBoard, tasks := [], [], None, None, [];
      filters, isLoading, error := NoFilters, false, None;
    }

    // -------------------------------------------------------------------
    // User actions

    method SetCurrentUser(user: User)
      modifies this
      ensures Snapshot() == Actions.SetCurrentUser(old(Snapshot()), user)
      ensures Sync.InSync(old(Snapshot())) ==> Sync.InSync(Snapshot())
      ensures Sync.CurrentProjectListed(old(Snapshot())) ==> Sync.CurrentProjectListed(Snapshot())
    {
      currentUser := Some(user);
    }

    method AddUser(user: User)
      modifies this
      ensures Snapshot() == Actions.AddUser(old(Snapshot()), user)
      ensures Sync.InSync(old(Snapshot())) ==> Sync.InSync(Snapshot())
      ensures Sync.CurrentProjectListed(old(Snapshot())) ==> Sync.CurrentProjectListed(Snapshot())
    {
      users := users + [user];
    }

    method UpdateUser(userId: Id, updates: UserPatch)
      modifies this
      ensures Snapshot() == Actions.UpdateUser(old(Snapshot()), userId, updates)
      ensures Sync.InSync(old(Snapshot())) ==> Sync.InSync(Snapshot())
      ensures Sync.CurrentProjectListed(old(Snapshot())) ==> Sync.CurrentProjectListed(Snapshot())
    {
      users := Actions.UpdateUser(Snapshot(), userId, updates).users;
    }

    // -------------------------------------------------------------------
    // Project actions

    method SetCurrentProject(project: Option<Project>)
      modifies this
      ensures Snapshot() == Actions.SetCurrentProject(old(Snapshot()), project)
      ensures Sync.InSync(old(Snapshot())) ==> Sync.InSync(Snapshot())
    {
      currentProject := project;
    }

    method AddProject(project: Project)
      modifies this
      ensures Snapshot() == Actions.AddProject(old(Snapshot()), project)
      ensures Sync.InSync(old(Snapshot())) ==> Sync.InSync(Snapshot())
      ensures Sync.CurrentProjectListed(old(Snapshot())) ==> Sync.CurrentProjectListed(Snapshot())
    {
      projects := projects + [project];
    }

    method UpdateProject(projectId: Id, updates: ProjectPatch)
      modifies this
      ensures Snapshot() == Actions.UpdateProject(old(Snapshot()), projectId, updates)
      ensures Sync.InSync(old(Snapshot())) ==> Sync.InSync(Snapshot())
      ensures Sync.CurrentProjectListed(old(Snapshot())) ==> Sync.CurrentProjectListed(Snapshot())
    {
      var next := Actions.UpdateProject(Snapshot(), projectId, updates);
      if Sync.CurrentProjectListed(Snapshot()) {
        Sync.UpdateProjectKeepsCurrentListed(Snapshot(), projectId, updates);
      }
      projects, currentProject := next.projects, next.currentProject;
    }

    method DeleteProject(projectId: Id)
      modifies this
      ensures Snapshot() == Actions.DeleteProject(old(Snapshot()), projectId)
      ensures Sync.InSync(old(Snapshot())) ==> Sync.InSync(Snapshot())
      ensures Sync.CurrentProjectListed(old(Snapshot())) ==> Sync.CurrentProjectListed(Snapshot())
    {
      var next := Actions.DeleteProject(Snapshot(), projectId);
      if Sync.CurrentProjectListed(Snapshot()) {
        Sync.DeleteProjectKeepsCurrentListed(Snapshot(), projectId);
      }
      projects, currentProject := next.projects, next.currentProject;
    }

    // -------------------------------------------------------------------
    // Board actions

    method SetCurrentBoard(board: Option<Board>)
      modifies this
      ensures Snapshot() == Actions.SetCurrentBoard(old(Snapshot()), board)
      ensures Sync.CurrentProjectListed(old(Snapshot())) ==> Sync.CurrentProjectListed(Snapshot())
    {
      currentBoard := board;
    }

    method UpdateBoard(board: Board)
      modifies this
      ensures Snapshot() == Actions.UpdateBoard(old(Snapshot()), board)
      ensures Sync.CurrentProjectListed(old(Snapshot())) ==> Sync.CurrentProjectListed(Snapshot())
    {
      currentBoard := Some(board);
    }

    // -------------------------------------------------------------------
    // Task actions

    method AddTask(task: Task)
      modifies this
      ensures Snapshot() == Actions.AddTask(old(Snapshot()), task)
      ensures Sync.CurrentProjectListed(old(Snapshot())) ==> Sync.CurrentProjectListed(Snapshot())
      ensures Sync.InSync(old(Snapshot())) && (forall t :: t in old(tasks) ==> t.id != task.id)
              ==> Sync.InSync(Snapshot())
    {
      var next := Actions.AddTask(Snapshot(), task);
      if Sync.InSync(Snapshot()) && forall t :: t in tasks ==> t.id != task.id {
        Sync.AddTaskKeepsSync(Snapshot(), task);
      }
      tasks, currentBoard := next.tasks, next.currentBoard;
    }

    method UpdateTask(taskId: Id, updates: TaskPatch, now: Timestamp)
      modifies this
      ensures Snapshot() == Actions.UpdateTask(old(Snapshot()), taskId, updates, now)
      ensures Sync.CurrentProjectListed(old(Snapshot())) ==> Sync.CurrentProjectListed(Snapshot())
      ensures Sync.InSync(old(Snapshot())) && Sync.KeepsKeys(old(tasks), taskId, updates)
              ==> Sync.InSync(Snapshot())
    {
      var next := Actions.UpdateTask(Snapshot(), taskId, updates, now);
      if Sync.InSync(Snapshot()) && Sync.KeepsKeys(tasks, taskId, updates) {
        Sync.UpdateTaskKeepsSync(Snapshot(), taskId, updates, now);
      }
      tasks, currentBoard := next.tasks, next.currentBoard;
    }

    method DeleteTask(taskId: Id)
      modifies this
      ensures Snapshot() == Actions.DeleteTask(old(Snapshot()), taskId)
      ensures Sync.CurrentProjectListed(old(Snapshot())) ==> Sync.CurrentProjectListed(Snapshot())
      ensures Sync.InSync(old(Snapshot())) ==> Sync.InSync(Snapshot())
    {
      var next := Actions.DeleteTask(Snapshot(), taskId);
      if Sync.InSync(Snapshot()) {
        Sync.DeleteTaskKeepsSync(Snapshot(), taskId);
      }
      tasks, currentBoard := next.tasks, next.currentBoard;
    }

    method MoveTask(taskId: Id, newStatus: Status, newIndex: Option<nat>, now: Timestamp)
      modifies this
      ensures Snapshot() == Actions.MoveTask(old(Snapshot()), taskId, newStatus, newIndex, now)
      ensures Sync.CurrentProjectListed(old(Snapshot())) ==> Sync.CurrentProjectListed(Snapshot())
      ensures var found := Lists.Find(old(tasks), Actions.IdIs(taskId));
              Sync.InSync(old(Snapshot())) && found.Some? && found.value.status != newStatus
              ==> Sync.InSync(Snapshot())
    {
      var found := Lists.Find(tasks, Actions.IdIs(taskId));
      var next := Actions.MoveTask(Snapshot(), taskId, newStatus, newIndex, now);
      if Sync.InSync(Snapshot()) && found.Some? && found.value.status != newStatus {
        Sync.MoveTaskKeepsSync(Snapshot(), taskId, found.value, newStatus, newIndex, now);
      }
      tasks, currentBoard := next.tasks, next.currentBoard;
    }

    /** Runs the store's own `UpdateTask` with a patch that supplies only the assignee. */
    method AssignTask(taskId: Id, assigneeId: Id, now: Timestamp)
      modifies this
      ensures Snapshot() == Actions.AssignTask(old(Snapshot()), taskId, assigneeId, now)
      ensures Sync.CurrentProjectListed(old(Snapshot())) ==> Sync.CurrentProjectListed(Snapshot())
      ensures Sync.InSync(old(Snapshot())) ==> Sync.InSync(Snapshot())
    {
      UpdateTask(taskId, AssigneePatch(assigneeId), now);
    }

    // -------------------------------------------------------------------
    // Filter, UI and initialisation actions

    method SetFilters(patch: FiltersPatch)
      modifies this
      ensures Snapshot() == Actions.SetFilters(old(Snapshot()), patch)
      ensures Sync.InSync(old(Snapshot())) ==> Sync.InSync(Snapshot())
      ensures Sync.CurrentProjectListed(old(Snapshot())) ==> Sync.CurrentProjectListed(Snapshot())
    {
      filters := Actions.MergeFilters(filters, patch);
    }

    method ClearFilters()
      modifies this
      ensures Snapshot() == Actions.ClearFilters(old(Snapshot()))
      ensures Sync.InSync(old(Snapshot())) ==> Sync.InSync(Snapshot())
      ensures Sync.CurrentProjectListed(old(Snapshot())) ==> Sync.CurrentProjectListed(Snapshot())
    {
      filters := NoFilters;
    }

    method SetLoading(loading: bool)
      modifies this
      ensures Snapshot() == Actions.SetLoading(old(Snapshot()), loading)
      ensures Sync.InSync(old(Snapshot())) ==> Sync.InSync(Snapshot())
      ensures Sync.CurrentProjectListed(old(Snapshot())) ==> Sync.CurrentProjectListed(Snapshot())
    {
      isLoading := loading;
    }

    method SetError(message: Option<string>)
      modifies this
      ensures Snapshot() == Actions.SetError(old(Snapshot()), message)
      ensures Sync.InSync(old(Snapshot())) ==> Sync.InSync(Snapshot())
      ensures Sync.CurrentProjectListed(old(Snapshot())) ==> Sync.CurrentProjectListed(Snapshot())
    {
      error := message;
    }

    /** One `set` that installs the given seed. */
    method Seed(seedUsers: seq<User>, project: Project, board: Board, seedTasks: seq<Task>)
      modifies this
      ensures Snapshot() == Actions.Seed(old(Snapshot()), seedUsers, project, board, seedTasks)
    {
      users, projects, currentProject := seedUsers, [project], Some(project);
      currentBoard, tasks := Some(board), seedTasks;
    }

    method InitializeDemoData()
      modifies this
      ensures Snapshot() == Actions.InitializeDemoData(old(Snapshot()))
      ensures Sync.InSync(Snapshot()) && Sync.CurrentProjectListed(Snapshot())
    {
      Sync.DemoInSync(Snapshot());
      Seed(Demo.DemoUsers, Demo.DemoProject, Demo.DemoBoard, Demo.DemoTasks);
    }
  }
}
