/** What each action of the store does, stated slot by slot: which slots it
    replaces, what happens to the flat task list, and what happens to each
    column of the current board. */
module Effects {
  import opened Types
  import opened Lists
  import opened Actions

  /** `after` is `before` with, at most, the task lists of its columns
      replaced: the same board (or none), the same columns in the same order,
      with the same ids, titles, statuses, colours and sort orders. */
  ghost predicate SameLayout(before: Option<Board>, after: Option<Board>)
  {
    before.None? == after.None? &&
    (before.Some? ==>
      var b, a := before.value, after.value;
      a.(columns := b.columns) == b && |a.columns| == |b.columns| &&
      forall j :: 0 <= j < |b.columns| ==> a.columns[j].(tasks := b.columns[j].tasks) == b.columns[j])
  }

  // ---------------------------------------------------------------------
  // addTask

  /** The task goes to the end of the flat list and to the end of every column
      of its status; other columns are untouched, a missing board stays missing. */
  lemma AddTaskEffect(s: AppState, task: Task)
    ensures var r := AddTask(s, task);
      r == s.(tasks := r.tasks, currentBoard := r.currentBoard) &&
      |r.tasks| == |s.tasks| + 1 && r.tasks[..|s.tasks|] == s.tasks && r.tasks[|s.tasks|] == task &&
      SameLayout(s.currentBoard, r.currentBoard) &&
      (s.currentBoard.Some? ==>
        var before, after := s.currentBoard.value.columns, r.currentBoard.value.columns;
        forall j :: 0 <= j < |before| ==>
          after[j].tasks == if before[j].status == task.status then before[j].tasks + [task]
                            else before[j].tasks)
  {
    var r := AddTask(s, task);
    assert r.tasks[..|s.tasks|] == s.tasks;
  }

  // ---------------------------------------------------------------------
  // updateTask and assignTask

  /** The spread order of `updateTask`: the fields the patch supplies win,
      and `updatedAt` is the clock even when the patch supplies one. */
  lemma TouchEffect(t: Task, taskId: Id, updates: TaskPatch, now: Timestamp)
    ensures var r := Touch(t, taskId, updates, now);
      (t.id != taskId ==> r == t) &&
      (t.id == taskId ==>
        r.updatedAt == now &&
        r.status == (if updates.status.Some? then updates.status.value else t.status) &&
        r.(updatedAt := t.updatedAt) == MergeTask(t, updates.(updatedAt := None)))
  {
  }

  /** Both copies keep their length and order; only tasks with the id change,
      each by `Touch`; no task leaves its column, whatever status the patch sets. */
  lemma UpdateTaskEffect(s: AppState, taskId: Id, updates: TaskPatch, now: Timestamp)
    ensures var r := UpdateTask(s, taskId, updates, now);
      r == s.(tasks := r.tasks, currentBoard := r.currentBoard) &&
      |r.tasks| == |s.tasks| &&
      (forall i :: 0 <= i < |s.tasks| ==> r.tasks[i] == Touch(s.tasks[i], taskId, updates, now)) &&
      SameLayout(s.currentBoard, r.currentBoard) &&
      (s.currentBoard.Some? ==>
        var before, after := s.currentBoard.value.columns, r.currentBoard.value.columns;
        forall j :: 0 <= j < |before| ==>
          |after[j].tasks| == |before[j].tasks| &&
          forall k :: 0 <= k < |before[j].tasks| ==>
            after[j].tasks[k] == Touch(before[j].tasks[k], taskId, updates, now))
  {
  }

  /** A task that is in no list is left alone everywhere: with no task of that
      id in the flat list or in any column, `updateTask` changes nothing. */
  lemma UpdateUnknownTaskIsNoop(s: AppState, taskId: Id, updates: TaskPatch, now: Timestamp)
    requires forall t :: t in s.tasks ==> t.id != taskId
    requires s.currentBoard.Some? ==>
      forall c, t :: c in s.currentBoard.value.columns && t in c.tasks ==> t.id != taskId
    ensures UpdateTask(s, taskId, updates, now) == s
  {
    var r := UpdateTask(s, taskId, updates, now);
    assert r.tasks == s.tasks;
    if s.currentBoard.Some? {
      var before, after := s.currentBoard.value.columns, r.currentBoard.value.columns;
      forall j | 0 <= j < |before| ensures after[j] == before[j] {
        assert after[j].tasks == before[j].tasks;
      }
      assert after == before;
    }
  }

  /** `assignTask(id, a)` sets `assigneeId` to `a` and `updatedAt` to the clock
      on every copy of the task, and changes nothing else. */
  lemma AssignTaskEffect(s: AppState, taskId: Id, assigneeId: Id, now: Timestamp)
    ensures var r := AssignTask(s, taskId, assigneeId, now);
      r == s.(tasks := r.tasks, currentBoard := r.currentBoard) &&
      |r.tasks| == |s.tasks| &&
      (forall i :: 0 <= i < |s.tasks| ==>
        r.tasks[i] == if s.tasks[i].id == taskId
                      then s.tasks[i].(assigneeId := Some(assigneeId), updatedAt := now)
                      else s.tasks[i]) &&
      SameLayout(s.currentBoard, r.currentBoard) &&
      (s.currentBoard.Some? ==>
        var before, after := s.currentBoard.value.columns, r.currentBoard.value.columns;
        forall j :: 0 <= j < |before| ==>
          |after[j].tasks| == |before[j].tasks| &&
          forall k :: 0 <= k < |before[j].tasks| ==>
            after[j].tasks[k] == if before[j].tasks[k].id == taskId
                                 then before[j].tasks[k].(assigneeId := Some(assigneeId), updatedAt := now)
                                 else before[j].tasks[k])
  {
    UpdateTaskEffect(s, taskId, AssigneePatch(assigneeId), now);
  }

  // ---------------------------------------------------------------------
  // deleteTask

  /** `Without` keeps every task whose id differs, in the original order,
      and nothing else. */
  lemma {:induction false} WithoutEffect(tasks: seq<Task>, taskId: Id)
    ensures var r, idx := Without(tasks, taskId), KeptIndices(tasks, IdIsNot(taskId), 0);
      (forall t :: t in r <==> t in tasks && t.id != taskId) &&
      |r| == |idx| &&
      (forall k :: 0 <= k < |idx| ==> r[k] == tasks[idx[k]]) &&
      (forall i :: 0 <= i < |tasks| ==> (i in idx <==> tasks[i].id != taskId))
  {
    FilterKeepsOrder(tasks, IdIsNot(taskId), 0);
    assert tasks[0..] == tasks;
  }

  /** No copy of the task survives, in the flat list or in any column; every
      other task stays, in its relative order (see `WithoutEffect`). */
  lemma DeleteTaskEffect(s: AppState, taskId: Id)
    ensures var r := DeleteTask(s, taskId);
      r == s.(tasks := r.tasks, currentBoard := r.currentBoard) &&
      r.tasks == Without(s.tasks, taskId) &&
      (forall t :: t in r.tasks ==> t.id != taskId) &&
      SameLayout(s.currentBoard, r.currentBoard) &&
      (s.currentBoard.Some? ==>
        var before, after := s.currentBoard.value.columns, r.currentBoard.value.columns;
        forall j :: 0 <= j < |before| ==>
          after[j].tasks == Without(before[j].tasks, taskId) &&
          forall t :: t in after[j].tasks ==> t.id != taskId)
  {
  }

  /** After `deleteTask(id)`, `updateTask(id, ...)` finds no copy to patch
      and changes nothing. */
  lemma DeleteThenUpdateIsNoop(s: AppState, taskId: Id, updates: TaskPatch, now: Timestamp)
    ensures var d := DeleteTask(s, taskId);
      UpdateTask(d, taskId, updates, now) == d
  {
    var d := DeleteTask(s, taskId);
    DeleteTaskEffect(s, taskId);
    if d.currentBoard.Some? {
      var after := d.currentBoard.value.columns;
      forall c, t | c in after && t in c.tasks ensures t.id != taskId {
        var j :| 0 <= j < |after| && after[j] == c;
      }
    }
    UpdateUnknownTaskIsNoop(d, taskId, updates, now);
  }

  // ---------------------------------------------------------------------
  // moveTask

  /** A task id that is not in the flat list leaves the whole state as it
      was, even when a column holds a task with that id. */
  lemma MoveUnknownTaskIsNoop(s: AppState, taskId: Id, newStatus: Status,
                              newIndex: Option<nat>, now: Timestamp)
    requires forall t :: t in s.tasks ==> t.id != taskId
    ensures MoveTask(s, taskId, newStatus, newIndex, now) == s
  {
  }

  /** The index-free placement appends; an index inserts the task at
      `min(index, length)`, the pop-then-splice of the source. */
  lemma PlaceAtEffect(tasks: seq<Task>, task: Task, newIndex: Option<nat>)
    ensures newIndex.None? ==> PlaceAt(tasks, task, newIndex) == tasks + [task]
    ensures newIndex.Some? ==> PlaceAt(tasks, task, newIndex) == InsertAt(tasks, newIndex.value, task)
  {
    var appended := tasks + [task];
    assert appended[..|appended| - 1] == tasks;
  }

  /** Moving a task to a different status: in the flat list every copy with
      the id becomes the found task with the new status and the clock's
      `updatedAt`; every column of the old status loses it; every column of
      the new status gains it at the end, or at `min(index, length)`; all
      other columns stay as they were. */
  lemma MoveTaskEffect(s: AppState, taskId: Id, task: Task, newStatus: Status,
                       newIndex: Option<nat>, now: Timestamp)
    requires Find(s.tasks, IdIs(taskId)) == Some(task)
    requires newStatus != task.status
    ensures task in s.tasks && task.id == taskId
    ensures var r, moved := MoveTask(s, taskId, newStatus, newIndex, now),
                            task.(status := newStatus, updatedAt := now);
      r == s.(tasks := r.tasks, currentBoard := r.currentBoard) &&
      |r.tasks| == |s.tasks| &&
      (forall i :: 0 <= i < |s.tasks| ==>
         r.tasks[i] == if s.tasks[i].id == taskId then moved else s.tasks[i]) &&
      SameLayout(s.currentBoard, r.currentBoard) &&
      (s.currentBoard.Some? ==>
        var before, after := s.currentBoard.value.columns, r.currentBoard.value.columns;
        forall j :: 0 <= j < |before| ==>
          after[j].tasks ==
            if before[j].status == task.status then Without(before[j].tasks, taskId)
            else if before[j].status == newStatus then
              (if newIndex.None? then before[j].tasks + [moved]
               else InsertAt(before[j].tasks, newIndex.value, moved))
            else before[j].tasks)
  {
    var moved := task.(status := newStatus, updatedAt := now);
    var r := MoveTask(s, taskId, newStatus, newIndex, now);
    if s.currentBoard.Some? {
      var before, after := s.currentBoard.value.columns, r.currentBoard.value.columns;
      assert |after| == |before|;
      forall j | 0 <= j < |before|
        ensures after[j] == MoveInColumn(before[j], taskId, task.status, moved, newIndex)
      {
      }
      forall j | 0 <= j < |before| {
        MoveInColumnEffect(before[j], taskId, task.status, moved, newIndex);
      }
    }
  }

  lemma MoveInColumnEffect(column: Column, taskId: Id, oldStatus: Status, moved: Task,
                           newIndex: Option<nat>)
    ensures var c := MoveInColumn(column, taskId, oldStatus, moved, newIndex);
      c == column.(tasks := c.tasks) &&
      c.tasks ==
        if column.status == oldStatus then Without(column.tasks, taskId)
        else if column.status == moved.status then
          (if newIndex.None? then column.tasks + [moved] else InsertAt(column.tasks, newIndex.value, moved))
        else column.tasks
  {
    PlaceAtEffect(column.tasks, moved, newIndex);
  }

  /** Moving a task to the status it already has: the flat copy keeps its
      status and takes the clock's `updatedAt`, but the old-status test wins
      in every column of that status, so the task is removed there and put
      back nowhere. */
  lemma MoveToSameStatusEffect(s: AppState, taskId: Id, task: Task,
                               newIndex: Option<nat>, now: Timestamp)
    requires Find(s.tasks, IdIs(taskId)) == Some(task)
    ensures var r := MoveTask(s, taskId, task.status, newIndex, now);
      r == s.(tasks := r.tasks, currentBoard := r.currentBoard) &&
      |r.tasks| == |s.tasks| &&
      (forall i :: 0 <= i < |s.tasks| ==>
         r.tasks[i] == if s.tasks[i].id == taskId then task.(updatedAt := now) else s.tasks[i]) &&
      SameLayout(s.currentBoard, r.currentBoard) &&
      (s.currentBoard.Some? ==>
        var before, after := s.currentBoard.value.columns, r.currentBoard.value.columns;
        forall j :: 0 <= j < |before| ==>
          if before[j].status == task.status
          then after[j].tasks == Without(before[j].tasks, taskId) &&
               forall t :: t in after[j].tasks ==> t.id != taskId
          else after[j] == before[j])
  {
    assert task.(status := task.status, updatedAt := now) == task.(updatedAt := now);
  }

  // ---------------------------------------------------------------------
  // Users and projects

  /** Every user with the id gets the patch merged in; the others, the order
      and the length stay; an unknown id changes nothing. */
  lemma UpdateUserEffect(s: AppState, userId: Id, updates: UserPatch)
    ensures var r := UpdateUser(s, userId, updates);
      r == s.(users := r.users) &&
      |r.users| == |s.users| &&
      (forall i :: 0 <= i < |s.users| ==>
         r.users[i] == if s.users[i].id == userId then MergeUser(s.users[i], updates) else s.users[i]) &&
      ((forall u :: u in s.users ==> u.id != userId) ==> r == s)
  {
    var r := UpdateUser(s, userId, updates);
    if forall u :: u in s.users ==> u.id != userId {
      assert r.users == s.users;
    }
  }

  /** As `UpdateUserEffect` for projects; the current project gets the same
      patch exactly when its id matches. */
  lemma UpdateProjectEffect(s: AppState, projectId: Id, updates: ProjectPatch)
    ensures var r := UpdateProject(s, projectId, updates);
      r == s.(projects := r.projects, currentProject := r.currentProject) &&
      |r.projects| == |s.projects| &&
      (forall i :: 0 <= i < |s.projects| ==>
         r.projects[i] == if s.projects[i].id == projectId then MergeProject(s.projects[i], updates)
                          else s.projects[i]) &&
      (s.currentProject.Some? && s.currentProject.value.id == projectId ==>
         r.currentProject == Some(MergeProject(s.currentProject.value, updates))) &&
      (s.currentProject.None? || s.currentProject.value.id != projectId ==>
         r.currentProject == s.currentProject)
  {
  }

  /** Every project with the id goes, the others stay in order; the current
      project is cleared exactly when its id matches; tasks are not touched. */
  lemma {:induction false} DeleteProjectEffect(s: AppState, projectId: Id)
    ensures var r, keep := DeleteProject(s, projectId), (p: Project) => p.id != projectId;
      r == s.(projects := r.projects, currentProject := r.currentProject) &&
      r.tasks == s.tasks &&
      (forall p :: p in r.projects <==> p in s.projects && p.id != projectId) &&
      r.projects == Filter(s.projects, keep) &&
      (r.currentProject.None? <==> s.currentProject.None? || s.currentProject.value.id == projectId) &&
      (r.currentProject.Some? ==> r.currentProject == s.currentProject)
  {
  }

  // ---------------------------------------------------------------------
  // Filters

  /** The patch that supplies no field. */
  const EmptyFiltersPatch := FiltersPatch(None, None, None, None, None, None, None)

  /** Two patches applied one after the other, as one: the later one wins
      field by field. */
  function ThenFilters(first: FiltersPatch, second: FiltersPatch): FiltersPatch
  {
    FiltersPatch(
      if second.status.Some? then second.status else first.status,
      if second.priority.Some? then second.priority else first.priority,
      if second.assigneeId.Some? then second.assigneeId else first.assigneeId,
      if second.tags.Some? then second.tags else first.tags,
      if second.search.Some? then second.search else first.search,
      if second.dueDateFrom.Some? then second.dueDateFrom else first.dueDateFrom,
      if second.dueDateTo.Some? then second.dueDateTo else first.dueDateTo)
  }

  /** `setFilters` is a right-biased merge (see `SetFiltersFields`): an
      empty patch changes nothing, a patch applied twice acts once, two
      patches in a row act as their combination; only the filters slot
      changes. `clearFilters` leaves no
      constraint, and a patch on a cleared state holds exactly the supplied
      fields. */
  lemma FiltersLaws(s: AppState, f: FiltersPatch, g: FiltersPatch)
    ensures SetFilters(s, f) == s.(filters := SetFilters(s, f).filters)
    ensures SetFilters(s, EmptyFiltersPatch) == s
    ensures SetFilters(SetFilters(s, f), f) == SetFilters(s, f)
    ensures SetFilters(SetFilters(s, f), g) == SetFilters(s, ThenFilters(f, g))
    ensures ClearFilters(s).filters == NoFilters && ClearFilters(s) == s.(filters := NoFilters)
    ensures var c := SetFilters(ClearFilters(s), f).filters;
      c.search == (if f.search.Some? then f.search.value else None) &&
      c.status == (if f.status.Some? then f.status.value else None)
  {
  }

  /** `setFilters` installs every field the patch supplies and keeps every
      other field of the current filters. */
  lemma SetFiltersFields(s: AppState, f: FiltersPatch)
    ensures var before, n := s.filters, SetFilters(s, f).filters;
      n.status == (if f.status.Some? then f.status.value else before.status) &&
      n.priority == (if f.priority.Some? then f.priority.value else before.priority) &&
      n.assigneeId == (if f.assigneeId.Some? then f.assigneeId.value else before.assigneeId) &&
      n.tags == (if f.tags.Some? then f.tags.value else before.tags) &&
      n.search == (if f.search.Some? then f.search.value else before.search) &&
      n.dueDateFrom == (if f.dueDateFrom.Some? then f.dueDateFrom.value else before.dueDateFrom) &&
      n.dueDateTo == (if f.dueDateTo.Some? then f.dueDateTo.value else before.dueDateTo)
  {
  }

  // ---------------------------------------------------------------------
  // Persistence

  /** The stored snapshot holds exactly the current user, the users, the
      projects and the tasks: two states with the same four slots give the
      same snapshot, and different ones give different snapshots. */
  lemma PartializeExactly(s: AppState, t: AppState)
    ensures Partialize(s) == Partialize(t) <==>
      s.currentUser == t.currentUser && s.users == t.users &&
      s.projects == t.projects && s.tasks == t.tasks
  {
  }

  /** Storing then restoring into a fresh store brings back the four
      persisted slots; the board, the current project, the filters and the
      flags are those of the fresh store. */
  lemma PersistRoundTrip(s: AppState)
    ensures var back := Rehydrate(Partialize(s), Initial());
      Partialize(back) == Partialize(s) &&
      back.currentBoard.None? && back.currentProject.None? &&
      back.filters == NoFilters && !back.isLoading && back.error.None?
  {
  }
}
