/** The relationship between the two copies of each task — the flat `tasks`
    list and the task lists inside the columns of `currentBoard` — and, for
    each task action, whether it keeps that relationship. */
module Sync {
  import opened Types
  import opened Lists
  import opened Demo
  import opened Actions
  import opened Effects

  /** No two tasks of the list share an id. */
  ghost predicate UniqueIds(tasks: seq<Task>)
  {
    forall i, j :: 0 <= i < |tasks| && 0 <= j < |tasks| && tasks[i].id == tasks[j].id ==> i == j
  }

  /** No two columns of the board stand for the same status. */
  ghost predicate DistinctStatuses(columns: seq<Column>)
  {
    forall i, j ::
      (0 <= i < |columns| && 0 <= j < |columns| && columns[i].status == columns[j].status) ==> i == j
  }

  /** The column holds, once each, exactly the tasks of the flat list that
      have its status (in an order of its own). */
  ghost predicate Mirrors(column: Column, tasks: seq<Task>)
  {
    UniqueIds(column.tasks) &&
    forall t :: t in column.tasks <==> t in tasks && t.status == column.status
  }

  /** Task ids are unique, and when there is a board, each status has at most
      one column and every column mirrors the flat list: a task of the flat
      list sits in the column of its status if the board has one, and in no
      other column. */
  ghost predicate InSync(s: AppState)
  {
    UniqueIds(s.tasks) &&
    (s.currentBoard.Some? ==>
      DistinctStatuses(s.currentBoard.value.columns) &&
      forall j :: 0 <= j < |s.currentBoard.value.columns| ==>
        Mirrors(s.currentBoard.value.columns[j], s.tasks))
  }

  // ---------------------------------------------------------------------
  // Uniqueness of ids under the list operations

  lemma FilterKeepsUniqueIds(tasks: seq<Task>, keep: Task -> bool)
    requires UniqueIds(tasks)
    ensures UniqueIds(Filter(tasks, keep))
  {
    var r, idx := Filter(tasks, keep), KeptIndices(tasks, keep, 0);
    FilterKeepsOrder(tasks, keep, 0);
    assert tasks[0..] == tasks;
    forall a, b | 0 <= a < |r| && 0 <= b < |r| && r[a].id == r[b].id ensures a == b {
      assert tasks[idx[a]].id == tasks[idx[b]].id;
      assert idx[a] == idx[b];
    }
  }

  lemma AppendFreshKeepsUniqueIds(tasks: seq<Task>, task: Task)
    requires UniqueIds(tasks)
    requires forall t :: t in tasks ==> t.id != task.id
    ensures UniqueIds(tasks + [task])
  {
    var r := tasks + [task];
    assert forall a :: 0 <= a < |tasks| ==> r[a] == tasks[a] && r[a].id != task.id;
  }

  lemma InsertFreshKeepsUniqueIds(tasks: seq<Task>, i: nat, task: Task)
    requires UniqueIds(tasks)
    requires forall t :: t in tasks ==> t.id != task.id
    ensures UniqueIds(InsertAt(tasks, i, task))
  {
    var r, k := InsertAt(tasks, i, task), Min(i, |tasks|);
    forall a | 0 <= a < |r| && a != k
      ensures r[a] == tasks[if a < k then a else a - 1] && r[a].id != task.id
    {
      if a > k {
        assert r[(a - 1) + 1] == tasks[a - 1];
      }
    }
    forall a, b | 0 <= a < |r| && 0 <= b < |r| && r[a].id == r[b].id ensures a == b {
      if a != k && b != k {
        var sa, sb := (if a < k then a else a - 1), (if b < k then b else b - 1);
        assert tasks[sa].id == tasks[sb].id;
      }
    }
  }

  // ---------------------------------------------------------------------
  // The demo seed is in sync

  lemma DemoTaskIdsUnique()
    ensures UniqueIds(DemoTasks)
  {
  }

  /** A column built by filtering a list with unique ids on the column's
      status mirrors that list. */
  lemma FilteredColumnMirrors(column: Column, tasks: seq<Task>)
    requires UniqueIds(tasks)
    requires column.tasks == WithStatus(tasks, column.status)
    ensures Mirrors(column, tasks)
  {
    FilterKeepsUniqueIds(tasks, HasStatus(column.status));
  }

  lemma DemoStatusesDistinct()
    ensures DistinctStatuses(DemoColumns)
  {
    var cols := DemoColumns;
    assert |cols| == 4;
    assert cols[0].status == Todo && cols[1].status == InProgress &&
           cols[2].status == Review && cols[3].status == Done;
    forall i, j | 0 <= i < |cols| && 0 <= j < |cols| && cols[i].status == cols[j].status
      ensures i == j
    {
      assert i == 0 || i == 1 || i == 2 || i == 3;
      assert j == 0 || j == 1 || j == 2 || j == 3;
    }
  }

  lemma DemoColumnsFiltered(j: nat)
    requires j < 4
    ensures |DemoColumns| == 4 && DemoColumns[j].tasks == WithStatus(DemoTasks, DemoColumns[j].status)
  {
    assert j == 0 || j == 1 || j == 2 || j == 3;
  }

  /** Every column of the demo board is the demo tasks filtered on its status,
      so the seeded state is in sync. */
  lemma DemoInSync(s: AppState)
    ensures InSync(InitializeDemoData(s))
  {
    DemoTaskIdsUnique();
    DemoStatusesDistinct();
    forall j | 0 <= j < |DemoColumns| ensures Mirrors(DemoColumns[j], DemoTasks) {
      DemoColumnsFiltered(j);
      FilteredColumnMirrors(DemoColumns[j], DemoTasks);
    }
  }

  // ---------------------------------------------------------------------
  // Actions that keep the two copies in sync

  /** `addTask` with an id the flat list does not have yet keeps the copies in
      sync: the task lands in its status column and in no other. */
  lemma AddTaskKeepsSync(s: AppState, task: Task)
    requires InSync(s)
    requires forall t :: t in s.tasks ==> t.id != task.id
    ensures InSync(AddTask(s, task))
  {
    var r := AddTask(s, task);
    AddTaskEffect(s, task);
    AppendFreshKeepsUniqueIds(s.tasks, task);
    if s.currentBoard.Some? {
      var before, after := s.currentBoard.value.columns, r.currentBoard.value.columns;
      forall j | 0 <= j < |after| ensures Mirrors(after[j], r.tasks) {
        if before[j].status == task.status {
          AppendFreshKeepsUniqueIds(before[j].tasks, task);
        }
      }
    }
  }

  /** `deleteTask` keeps the copies in sync. */
  lemma DeleteTaskKeepsSync(s: AppState, taskId: Id)
    requires InSync(s)
    ensures InSync(DeleteTask(s, taskId))
  {
    var r := DeleteTask(s, taskId);
    DeleteTaskEffect(s, taskId);
    FilterKeepsUniqueIds(s.tasks, IdIsNot(taskId));
    if s.currentBoard.Some? {
      var before, after := s.currentBoard.value.columns, r.currentBoard.value.columns;
      forall j | 0 <= j < |after| ensures Mirrors(after[j], r.tasks) {
        FilterKeepsUniqueIds(before[j].tasks, IdIsNot(taskId));
        WithoutEffect(before[j].tasks, taskId);
        WithoutEffect(s.tasks, taskId);
      }
    }
  }

  /** A patch that changes neither the id nor the status of any task of `s`
      with the given id: it supplies no id or that same id, and no status or
      the status those tasks already have. */
  ghost predicate KeepsKeys(s: seq<Task>, taskId: Id, updates: TaskPatch)
  {
    (updates.id.None? || updates.id.value == taskId) &&
    (updates.status.None? || forall t :: t in s && t.id == taskId ==> t.status == updates.status.value)
  }

  /** The tasks `s` with each one touched by a patch that changes neither
      the id nor the status. */
  ghost predicate TouchedFrom(s': seq<Task>, s: seq<Task>, taskId: Id, updates: TaskPatch,
                              now: Timestamp)
  {
    KeepsKeys(s, taskId, updates) && |s'| == |s| &&
    forall i :: 0 <= i < |s| ==> s'[i] == Touch(s[i], taskId, updates, now)
  }

  lemma TouchedKeepsKeys(s': seq<Task>, s: seq<Task>, taskId: Id, updates: TaskPatch, now: Timestamp)
    requires TouchedFrom(s', s, taskId, updates, now)
    ensures forall i :: 0 <= i < |s| ==> s'[i].id == s[i].id && s'[i].status == s[i].status
  {
    forall i | 0 <= i < |s| ensures s'[i].id == s[i].id && s'[i].status == s[i].status {
      assert s[i] in s;
      TouchEffect(s[i], taskId, updates, now);
    }
  }

  /** Every touched element of `c'` is the touched copy of an element of `c`,
      hence, when `c` is contained in `tasks`, an element of `tasks'`. */
  lemma TouchedSubset(c': seq<Task>, c: seq<Task>, tasks': seq<Task>, tasks: seq<Task>,
                      taskId: Id, updates: TaskPatch, now: Timestamp)
    requires TouchedFrom(c', c, taskId, updates, now) && TouchedFrom(tasks', tasks, taskId, updates, now)
    requires forall t :: t in c ==> t in tasks
    ensures forall x :: x in c' ==> x in tasks'
  {
    forall x | x in c' ensures x in tasks' {
      var k :| 0 <= k < |c'| && c'[k] == x;
      assert c[k] in tasks;
      var i :| 0 <= i < |tasks| && tasks[i] == c[k];
      assert tasks'[i] == x;
    }
  }

  /** The column and the flat list both touched pointwise by a patch that
      changes neither the id nor the status: the column still mirrors the list. */
  lemma TouchedColumnMirrors(column: Column, column': Column, tasks: seq<Task>, tasks': seq<Task>,
                             taskId: Id, updates: TaskPatch, now: Timestamp)
    requires Mirrors(column, tasks)
    requires column'.status == column.status
    requires TouchedFrom(column'.tasks, column.tasks, taskId, updates, now)
    requires TouchedFrom(tasks', tasks, taskId, updates, now)
    ensures Mirrors(column', tasks')
  {
    var c, c', st := column.tasks, column'.tasks, column.status;
    TouchedKeepsKeys(c', c, taskId, updates, now);
    TouchedKeepsKeys(tasks', tasks, taskId, updates, now);
    TouchedSubset(c', c, tasks', tasks, taskId, updates, now);
    assert forall t :: t in c ==> t.status == st;
    forall x | x in tasks' && x.status == st ensures x in c' {
      var i :| 0 <= i < |tasks'| && tasks'[i] == x;
      assert tasks[i] in c;
      var k :| 0 <= k < |c| && c[k] == tasks[i];
      assert c'[k] == x;
    }
  }

  /** `updateTask` with a patch that changes neither the id nor the status
      of the listed task keeps the copies in sync. */
  lemma UpdateTaskKeepsSync(s: AppState, taskId: Id, updates: TaskPatch, now: Timestamp)
    requires InSync(s)
    requires KeepsKeys(s.tasks, taskId, updates)
    ensures InSync(UpdateTask(s, taskId, updates, now))
  {
    var r := UpdateTask(s, taskId, updates, now);
    UpdateTaskEffect(s, taskId, updates, now);
    TouchedKeepsKeys(r.tasks, s.tasks, taskId, updates, now);
    if s.currentBoard.Some? {
      var before, after := s.currentBoard.value.columns, r.currentBoard.value.columns;
      forall j | 0 <= j < |after| ensures Mirrors(after[j], r.tasks) {
        assert KeepsKeys(before[j].tasks, taskId, updates);
        TouchedColumnMirrors(before[j], after[j], s.tasks, r.tasks, taskId, updates, now);
      }
    }
  }

  /** `assignTask` keeps the copies in sync. */
  lemma AssignTaskKeepsSync(s: AppState, taskId: Id, assigneeId: Id, now: Timestamp)
    requires InSync(s)
    ensures InSync(AssignTask(s, taskId, assigneeId, now))
  {
    UpdateTaskKeepsSync(s, taskId, AssigneePatch(assigneeId), now);
  }

  /** The flat list after `moveTask`: the task at `at` is the only one with
      the id, and every copy with the id has become `moved`. */
  ghost predicate MovedInFlatList(before: seq<Task>, after: seq<Task>, at: nat, taskId: Id, moved: Task)
  {
    UniqueIds(before) && at < |before| && before[at].id == taskId && moved.id == taskId &&
    |after| == |before| &&
    forall i :: 0 <= i < |before| ==> after[i] == if before[i].id == taskId then moved else before[i]
  }

  /** A column of the task's old status, once the task is filtered out. */
  lemma OldColumnMirrors(before: seq<Task>, after: seq<Task>, at: nat, taskId: Id, moved: Task,
                         column: Column)
    requires MovedInFlatList(before, after, at, taskId, moved)
    requires Mirrors(column, before)
    requires column.status == before[at].status && moved.status != column.status
    ensures Mirrors(column.(tasks := Without(column.tasks, taskId)), after)
  {
    var c' := Without(column.tasks, taskId);
    FilterKeepsUniqueIds(column.tasks, IdIsNot(taskId));
    WithoutEffect(column.tasks, taskId);
    forall x ensures x in c' <==> x in after && x.status == column.status {
      if x in after && x.status == column.status {
        var i :| 0 <= i < |after| && after[i] == x;
        assert before[i] == x;
      }
      if x in c' {
        var i :| 0 <= i < |before| && before[i] == x;
        assert after[i] == x;
      }
    }
  }

  /** A column of the new status, once the moved task is placed in it. */
  lemma NewColumnMirrors(before: seq<Task>, after: seq<Task>, at: nat, taskId: Id, moved: Task,
                         column: Column, newIndex: Option<nat>)
    requires MovedInFlatList(before, after, at, taskId, moved)
    requires Mirrors(column, before)
    requires column.status == moved.status && before[at].status != column.status
    ensures var placed := if newIndex.None? then column.tasks + [moved]
                          else InsertAt(column.tasks, newIndex.value, moved);
            Mirrors(column.(tasks := placed), after)
  {
    var c := column.tasks;
    var placed := if newIndex.None? then c + [moved] else InsertAt(c, newIndex.value, moved);
    forall t | t in c ensures t.id != taskId {
      var i :| 0 <= i < |before| && before[i] == t;
      assert i != at;
    }
    if newIndex.None? {
      AppendFreshKeepsUniqueIds(c, moved);
    } else {
      InsertFreshKeepsUniqueIds(c, newIndex.value, moved);
      forall x ensures x in placed <==> x in c || x == moved {
        assert x in placed <==> x in multiset(placed);
        assert x in c <==> x in multiset(c);
      }
    }
    assert after[at] == moved;
    forall x ensures x in placed <==> x in after && x.status == column.status {
      if x in after && x.status == column.status {
        var i :| 0 <= i < |after| && after[i] == x;
        if before[i].id != taskId {
          assert before[i] == x;
        }
      }
      if x in c {
        var i :| 0 <= i < |before| && before[i] == x;
        assert after[i] == x;
      }
    }
  }

  /** A column of neither status is left as it is, and still mirrors. */
  lemma OtherColumnMirrors(before: seq<Task>, after: seq<Task>, at: nat, taskId: Id, moved: Task,
                           column: Column)
    requires MovedInFlatList(before, after, at, taskId, moved)
    requires Mirrors(column, before)
    requires column.status != before[at].status && column.status != moved.status
    ensures Mirrors(column, after)
  {
    forall x ensures x in column.tasks <==> x in after && x.status == column.status {
      if x in after && x.status == column.status {
        var i :| 0 <= i < |after| && after[i] == x;
        assert before[i] == x;
      }
      if x in column.tasks {
        var i :| 0 <= i < |before| && before[i] == x;
        assert after[i] == x;
      }
    }
  }

  /** Every column, whichever of the three cases of `moveTask` applies to it,
      still mirrors the flat list after the move. */
  lemma MovedColumnMirrors(before: seq<Task>, after: seq<Task>, at: nat, taskId: Id, moved: Task,
                           column: Column, newIndex: Option<nat>)
    requires MovedInFlatList(before, after, at, taskId, moved)
    requires Mirrors(column, before)
    requires moved.status != before[at].status
    ensures Mirrors(MoveInColumn(column, taskId, before[at].status, moved, newIndex), after)
  {
    MoveInColumnEffect(column, taskId, before[at].status, moved, newIndex);
    if column.status == before[at].status {
      OldColumnMirrors(before, after, at, taskId, moved, column);
    } else if column.status == moved.status {
      NewColumnMirrors(before, after, at, taskId, moved, column, newIndex);
    } else {
      OtherColumnMirrors(before, after, at, taskId, moved, column);
    }
  }

  /** `moveTask` of a task of the flat list to a different status keeps the
      copies in sync: afterwards the task, with its new status, is in the
      column of that status and in no other column. */
  lemma MoveTaskKeepsSync(s: AppState, taskId: Id, task: Task, newStatus: Status,
                          newIndex: Option<nat>, now: Timestamp)
    requires InSync(s)
    requires Find(s.tasks, IdIs(taskId)) == Some(task)
    requires newStatus != task.status
    ensures InSync(MoveTask(s, taskId, newStatus, newIndex, now))
  {
    var r := MoveTask(s, taskId, newStatus, newIndex, now);
    var moved := task.(status := newStatus, updatedAt := now);
    var at :| 0 <= at < |s.tasks| && s.tasks[at] == task;
    assert MovedInFlatList(s.tasks, r.tasks, at, taskId, moved);
    assert UniqueIds(r.tasks) by {
      assert forall i :: 0 <= i < |s.tasks| ==> r.tasks[i].id == s.tasks[i].id;
    }
    if s.currentBoard.Some? {
      var before, after := s.currentBoard.value.columns, r.currentBoard.value.columns;
      assert |after| == |before|;
      forall j | 0 <= j < |after|
        ensures after[j] == MoveInColumn(before[j], taskId, task.status, moved, newIndex)
        ensures after[j].status == before[j].status
      {
        MoveInColumnEffect(before[j], taskId, task.status, moved, newIndex);
      }
      forall j | 0 <= j < |after| ensures Mirrors(after[j], r.tasks) {
        MovedColumnMirrors(s.tasks, r.tasks, at, taskId, moved, before[j], newIndex);
      }
    }
  }

  // ---------------------------------------------------------------------
  // Actions that break the copies apart

  /** `updateTask` with a patch that changes a task's status leaves the task
      in the column of its old status, so a synced state stops being in sync. */
  lemma UpdateStatusBreaksSync(s: AppState, taskId: Id, task: Task, j: nat,
                               updates: TaskPatch, now: Timestamp)
    requires InSync(s)
    requires task in s.tasks && task.id == taskId
    requires s.currentBoard.Some? && j < |s.currentBoard.value.columns|
    requires s.currentBoard.value.columns[j].status == task.status
    requires updates.status.Some? && updates.status.value != task.status
    ensures !InSync(UpdateTask(s, taskId, updates, now))
  {
    var r := UpdateTask(s, taskId, updates, now);
    UpdateTaskEffect(s, taskId, updates, now);
    var c, c' := s.currentBoard.value.columns[j].tasks, r.currentBoard.value.columns[j].tasks;
    assert task in c;
    var k :| 0 <= k < |c| && c[k] == task;
    assert c'[k] in c' && c'[k].status != r.currentBoard.value.columns[j].status;
  }

  /** `moveTask` to the status the task already has takes it out of the
      column of that status and puts it back nowhere, so a synced state
      stops being in sync. */
  lemma MoveToSameStatusBreaksSync(s: AppState, taskId: Id, task: Task, j: nat,
                                   newIndex: Option<nat>, now: Timestamp)
    requires InSync(s)
    requires Find(s.tasks, IdIs(taskId)) == Some(task)
    requires s.currentBoard.Some? && j < |s.currentBoard.value.columns|
    requires s.currentBoard.value.columns[j].status == task.status
    ensures !InSync(MoveTask(s, taskId, task.status, newIndex, now))
  {
    var r := MoveTask(s, taskId, task.status, newIndex, now);
    MoveToSameStatusEffect(s, taskId, task, newIndex, now);
    var at :| 0 <= at < |s.tasks| && s.tasks[at] == task;
    assert r.tasks[at] == task.(updatedAt := now);
    assert r.tasks[at] in r.tasks && r.tasks[at] !in r.currentBoard.value.columns[j].tasks;
  }

  // ---------------------------------------------------------------------
  // The current project and the project list

  /** The current project, if any, is one of the listed projects. */
  ghost predicate CurrentProjectListed(s: AppState)
  {
    s.currentProject.Some? ==> s.currentProject.value in s.projects
  }

  /** `updateProject` patches both copies of the current project alike, so
      the current project stays among the listed ones. */
  lemma UpdateProjectKeepsCurrentListed(s: AppState, projectId: Id, updates: ProjectPatch)
    requires CurrentProjectListed(s)
    ensures CurrentProjectListed(UpdateProject(s, projectId, updates))
  {
    var u := UpdateProject(s, projectId, updates);
    UpdateProjectEffect(s, projectId, updates);
    if s.currentProject.Some? {
      var i :| 0 <= i < |s.projects| && s.projects[i] == s.currentProject.value;
      assert u.projects[i] == u.currentProject.value;
    }
  }

  /** `deleteProject` clears the current project when it removes it from the
      list, so the current project stays among the listed ones. */
  lemma DeleteProjectKeepsCurrentListed(s: AppState, projectId: Id)
    requires CurrentProjectListed(s)
    ensures CurrentProjectListed(DeleteProject(s, projectId))
  {
    DeleteProjectEffect(s, projectId);
  }

  // ---------------------------------------------------------------------
  // Two runs from the demo seed

  /** Moving the first task of the list into the column `to`, from the
      column `from` of its current status, without an index: the flat copy
      gets the new status in place, the target column ends with it and the
      source column no longer holds its id. */
  lemma MoveHeadTask(s: AppState, newStatus: Status, now: Timestamp, from: nat, to: nat)
    requires |s.tasks| > 0 && s.currentBoard.Some?
    requires from < |s.currentBoard.value.columns| && to < |s.currentBoard.value.columns|
    requires s.currentBoard.value.columns[from].status == s.tasks[0].status
    requires s.currentBoard.value.columns[to].status == newStatus != s.tasks[0].status
    ensures var task := s.tasks[0];
      var r := MoveTask(s, task.id, newStatus, None, now);
      r.currentBoard.Some? &&
      |r.currentBoard.value.columns| == |s.currentBoard.value.columns| &&
      |r.tasks| == |s.tasks| && r.tasks[0] == task.(status := newStatus, updatedAt := now) &&
      r.currentBoard.value.columns[to].tasks ==
        s.currentBoard.value.columns[to].tasks + [r.tasks[0]] &&
      forall t :: t in r.currentBoard.value.columns[from].tasks ==> t.id != task.id
  {
    var task := s.tasks[0];
    assert Find(s.tasks, IdIs(task.id)) == Some(task);
    MoveTaskEffect(s, task.id, task, newStatus, None, now);
    WithoutEffect(s.currentBoard.value.columns[from].tasks, task.id);
  }

  /** Moving demo task "1" from to-do to done: the flat copy has status done,
      the done column ends with it, the to-do column no longer holds it. */
  lemma DemoMoveScenario(s: AppState, now: Timestamp)
    ensures var r := MoveTask(InitializeDemoData(s), "1", Done, None, now);
      r.currentBoard.Some? && |r.currentBoard.value.columns| == 4 && |r.tasks| == 5 &&
      r.tasks[0].id == "1" && r.tasks[0].status == Done &&
      r.tasks[0] in r.currentBoard.value.columns[3].tasks &&
      forall t :: t in r.currentBoard.value.columns[0].tasks ==> t.id != "1"
  {
    var d := InitializeDemoData(s);
    assert d.tasks[0].id == "1" && d.tasks[0].status == Todo;
    assert d.currentBoard.value.columns == DemoColumns;
    assert DemoColumns[0].status == Todo && DemoColumns[3].status == Done;
    MoveHeadTask(d, Done, now, 0, 3);
  }

  /** Renaming the demo project, which is also the current project, renames
      both copies. */
  lemma DemoRenameScenario(s: AppState)
    ensures var patch := ProjectPatch(None, Some("Renamed"), None, None, None, None, None, None, None, None);
      var r := UpdateProject(InitializeDemoData(s), "1", patch);
      |r.projects| == 1 && r.projects[0].name == "Renamed" &&
      r.currentProject.Some? && r.currentProject.value.name == "Renamed" &&
      r.currentProject.value == r.projects[0]
  {
  }
}
