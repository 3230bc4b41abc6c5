/** The entities of the task manager: users, tasks, projects, boards, columns,
    filters and the application state the store holds. A `Date` is an integer
    timestamp; an optional field is an `Option`; a `Partial<T>` update is a
    `...Patch` record whose fields are `Option`s of the entity's field types,
    where `None` means "this field was not supplied". */
module Types {

  datatype Option<T> = None | Some(value: T)

  type Id = string
  type Timestamp = int

  /** The value a field takes when a patch is merged in: the patch's value
      when it supplies one, the current value otherwise. */
  function Pick<T>(current: T, patch: Option<T>): T
  {
    if patch.Some? then patch.value else current
  }

  datatype Priority = Low | Medium | High | Urgent
  datatype Status = Todo | InProgress | Review | Done
  datatype Role = Admin | Manager | Member

  datatype User = User(
    id: Id,
    name: string,
    email: string,
    avatar: Option<string>,
    role: Role)

  datatype Comment = Comment(
    id: Id,
    content: string,
    authorId: Id,
    author: Option<User>,
    createdAt: Timestamp,
    updatedAt: Option<Timestamp>)

  /** `mimeType` is the source's `type` field (a reserved word here). */
  datatype Attachment = Attachment(
    id: Id,
    name: string,
    url: string,
    size: int,
    mimeType: string,
    uploadedById: Id,
    uploadedBy: Option<User>,
    uploadedAt: Timestamp)

  datatype Task = Task(
    id: Id,
    title: string,
    description: Option<string>,
    status: Status,
    priority: Priority,
    assigneeId: Option<Id>,
    assignee: Option<User>,
    createdById: Id,
    createdBy: Option<User>,
    createdAt: Timestamp,
    updatedAt: Timestamp,
    dueDate: Option<Timestamp>,
    tags: seq<string>,
    comments: seq<Comment>,
    attachments: seq<Attachment>,
    estimatedHours: Option<real>,
    actualHours: Option<real>)

  datatype Project = Project(
    id: Id,
    name: string,
    description: Option<string>,
    color: string,
    ownerId: Id,
    owner: Option<User>,
    members: seq<User>,
    tasks: seq<Task>,
    createdAt: Timestamp,
    updatedAt: Timestamp)

  datatype Column = Column(
    id: Id,
    title: string,
    status: Status,
    color: string,
    order: int,
    tasks: seq<Task>)

  datatype Board = Board(
    id: Id,
    name: string,
    projectId: Id,
    columns: seq<Column>,
    createdAt: Timestamp,
    updatedAt: Timestamp)

  datatype TaskFilters = TaskFilters(
    status: Option<seq<Status>>,
    priority: Option<seq<Priority>>,
    assigneeId: Option<seq<Id>>,
    tags: Option<seq<string>>,
    search: Option<string>,
    dueDateFrom: Option<Timestamp>,
    dueDateTo: Option<Timestamp>)

  /** The filter `{}`: no constraint at all. */
  const NoFilters := TaskFilters(None, None, None, None, None, None, None)

  datatype AppState = AppState(
    currentUser: Option<User>,
    users: seq<User>,
    projects: seq<Project>,
    currentProject: Option<Project>,
    currentBoard: Option<Board>,
    tasks: seq<Task>,
    filters: TaskFilters,
    isLoading: bool,
    error: Option<string>)

  /** `Partial<User>`. */
  datatype UserPatch = UserPatch(
    id: Option<Id>,
    name: Option<string>,
    email: Option<string>,
    avatar: Option<Option<string>>,
    role: Option<Role>)

  /** `Partial<Project>`. */
  datatype ProjectPatch = ProjectPatch(
    id: Option<Id>,
    name: Option<string>,
    description: Option<Option<string>>,
    color: Option<string>,
    ownerId: Option<Id>,
    owner: Option<Option<User>>,
    members: Option<seq<User>>,
    tasks: Option<seq<Task>>,
    createdAt: Option<Timestamp>,
    updatedAt: Option<Timestamp>)

  /** `Partial<Task>`. */
  datatype TaskPatch = TaskPatch(
    id: Option<Id>,
    title: Option<string>,
    description: Option<Option<string>>,
    status: Option<Status>,
    priority: Option<Priority>,
    assigneeId: Option<Option<Id>>,
    assignee: Option<Option<User>>,
    createdById: Option<Id>,
    createdBy: Option<Option<User>>,
    createdAt: Option<Timestamp>,
    updatedAt: Option<Timestamp>,
    dueDate: Option<Option<Timestamp>>,
    tags: Option<seq<string>>,
    comments: Option<seq<Comment>>,
    attachments: Option<seq<Attachment>>,
    estimatedHours: Option<Option<real>>,
    actualHours: Option<Option<real>>)

  /** `Partial<TaskFilters>`. */
  datatype FiltersPatch = FiltersPatch(
    status: Option<Option<seq<Status>>>,
    priority: Option<Option<seq<Priority>>>,
    assigneeId: Option<Option<seq<Id>>>,
    tags: Option<Option<seq<string>>>,
    search: Option<Option<string>>,
    dueDateFrom: Option<Option<Timestamp>>,
    dueDateTo: Option<Option<Timestamp>>)

  /** The patch `{ assigneeId }` that `assignTask` passes to `updateTask`. */
  function AssigneePatch(assigneeId: Id): TaskPatch
  {
    TaskPatch(None, None, None, None, None, Some(Some(assigneeId)), None, None, None,
              None, None, None, None, None, None, None, None)
  }
}
