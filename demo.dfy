/** The demo dataset `initializeDemoData` seeds the store with: four users, one
    project, five tasks and one board whose four columns are built by
    filtering the tasks on each column's status. */
module Demo {
  import opened Types
  import opened Lists

  /** `new Date(year, monthIndex, day)` as an order-preserving timestamp
      (`yyyymmdd`, with the zero-based month of the `Date` constructor). */
  function CalendarDate(year: int, monthIndex: int, day: int): Timestamp
  {
    year * 10000 + (monthIndex + 1) * 100 + day
  }

  function HasStatus(status: Status): Task -> bool
  {
    (t: Task) => t.status == status
  }

  /** The tasks of the given status, in list order. */
  function WithStatus(tasks: seq<Task>, status: Status): seq<Task>
  {
    Filter(tasks, HasStatus(status))
  }

  // Avatar URLs and descriptions of the demo records
  const JohnAvatar: string :=
    "https://images.unsplash.com/photo-1472099645785-5658abf4ff4e?w=32&h=32&fit=crop&crop=face&auto=format"
  const JaneAvatar: string :=
    "https://images.unsplash.com/photo-1494790108755-2616b612b5bc?w=32&h=32&fit=crop&crop=face&auto=format"
  const MikeAvatar: string :=
    "https://images.unsplash.com/photo-1507003211169-0a1dd7228f2d?w=32&h=32&fit=crop&crop=face&auto=format"
  const SarahAvatar: string :=
    "https://images.unsplash.com/photo-1438761681033-6461ffad8d80?w=32&h=32&fit=crop&crop=face&auto=format"
  const LandingPageBrief: string :=
    "Create a modern, responsive landing page for the new product launch. Include hero section, features, and call-to-action."
  const AuthenticationBrief: string :=
    "Add login, registration, and password reset functionality using JWT tokens."
  const PipelineBrief: string :=
    "Configure GitHub Actions for automated testing and deployment to staging and production environments."
  const DocumentationBrief: string :=
    "Create comprehensive API documentation using OpenAPI/Swagger specifications."
  const MobileBrief: string :=
    "Optimize the mobile application for better performance and user experience on iOS and Android."
  const PlatformBrief: string :=
    "Next generation AI platform with enhanced capabilities and user experience"

  const DemoUsers: seq<User> := [
    User("1", "John Doe", "john@omniaa.dev", Some(JohnAvatar), Admin),
    User("2", "Jane Smith", "jane@omniaa.dev", Some(JaneAvatar), Manager),
    User("3", "Mike Johnson", "mike@omniaa.dev", Some(MikeAvatar), Member),
    User("4", "Sarah Wilson", "sarah@omniaa.dev", Some(SarahAvatar), Member)
  ]

  const DemoTasks: seq<Task> := [
    Task("1", "Design new landing page",
         Some(LandingPageBrief),
         Todo, High, Some("2"), None, "1", None,
         CalendarDate(2024, 0, 15), CalendarDate(2024, 0, 15), Some(CalendarDate(2024, 1, 1)),
         ["design", "frontend", "urgent"], [], [], Some(16.0), None),
    Task("2", "Implement user authentication",
         Some(AuthenticationBrief),
         InProgress, Medium, Some("3"), None, "1", None,
         CalendarDate(2024, 0, 10), CalendarDate(2024, 0, 18), Some(CalendarDate(2024, 0, 25)),
         ["backend", "security", "api"], [], [], Some(12.0), Some(8.0)),
    Task("3", "Setup CI/CD pipeline",
         Some(PipelineBrief),
         Review, Medium, Some("4"), None, "2", None,
         CalendarDate(2024, 0, 8), CalendarDate(2024, 0, 20), Some(CalendarDate(2024, 0, 22)),
         ["devops", "automation", "deployment"], [], [], Some(8.0), Some(6.0)),
    Task("4", "Write API documentation",
         Some(DocumentationBrief),
         Done, Low, Some("3"), None, "2", None,
         CalendarDate(2024, 0, 5), CalendarDate(2024, 0, 12), Some(CalendarDate(2024, 0, 15)),
         ["documentation", "api"], [], [], Some(4.0), Some(5.0)),
    Task("5", "Mobile app optimization",
         Some(MobileBrief),
         Todo, Medium, Some("4"), None, "1", None,
         CalendarDate(2024, 0, 20), CalendarDate(2024, 0, 20), Some(CalendarDate(2024, 1, 5)),
         ["mobile", "performance", "optimization"], [], [], Some(20.0), None)
  ]

  const DemoProject: Project :=
    Project("1", "Omniaa Platform V2",
            Some(PlatformBrief),
            "#0ea5e9", "1", None, DemoUsers, DemoTasks,
            CalendarDate(2024, 0, 1), CalendarDate(2024, 0, 20))

  const DemoColumns: seq<Column> := [
    Column("1", "To Do", Todo, "#6b7280", 0, WithStatus(DemoTasks, Todo)),
    Column("2", "In Progress", InProgress, "#f59e0b", 1, WithStatus(DemoTasks, InProgress)),
    Column("3", "Review", Review, "#8b5cf6", 2, WithStatus(DemoTasks, Review)),
    Column("4", "Done", Done, "#22c55e", 3, WithStatus(DemoTasks, Done))
  ]

  const DemoBoard: Board :=
    Board("1", "Main Board", "1", DemoColumns, CalendarDate(2024, 0, 1), CalendarDate(2024, 0, 20))
}
