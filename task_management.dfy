/** The task list of the task-management page: the filter effect that derives the visible
    list from the search box and the two drop-downs, the status update and delete handlers,
    the header statistics, the toggle button's rule and the status and priority labels. The
    task list is replaced wholesale by each handler, so every operation is a function of the
    previous list. */
module TaskManagement {
  import opened Seqs
  import opened Text

  /** A task as the page holds it. `status` and `priority` are kept as the strings the page
      compares, so that codes outside the declared unions reach the labels' default case. */
  datatype Task = Task(
    id: string, title: string, description: string, status: string, priority: string,
    assignee: string, dueDate: string, progress: int, tags: seq<string>, project: string,
    createdAt: string)

  // ---------------------------------------------------------------- the filter effect

  /** The search term, lowercased, occurs in the lowercased title, description or assignee. */
  predicate SearchHit(t: Task, term: string)
  {
    var q := Lower(term);
    Contains(Lower(t.title), q) || Contains(Lower(t.description), q) || Contains(Lower(t.assignee), q)
  }

  /** A task is shown when it meets every active criterion: an empty search term and the
      filter value "all" impose nothing. */
  predicate Shown(t: Task, searchTerm: string, statusFilter: string, priorityFilter: string)
  {
    && (searchTerm == "" || SearchHit(t, searchTerm))
    && (statusFilter == "all" || t.status == statusFilter)
    && (priorityFilter == "all" || t.priority == priorityFilter)
  }

  function Showing(searchTerm: string, statusFilter: string, priorityFilter: string): Task -> bool
  {
    t => Shown(t, searchTerm, statusFilter, priorityFilter)
  }

  /** The three callbacks the effect hands to `.filter`. */
  function Searching(term: string): Task -> bool
  {
    t => SearchHit(t, term)
  }

  function HasStatus(status: string): Task -> bool
  {
    (t: Task) => t.status == status
  }

  function HasPriority(priority: string): Task -> bool
  {
    (t: Task) => t.priority == priority
  }

  /** The effect's chain: the search filter when the term is non-empty, then the status filter
      unless it is "all", then the priority filter unless it is "all". */
  function FilterTasks(tasks: seq<Task>, searchTerm: string, statusFilter: string, priorityFilter: string): seq<Task>
  {
    var bySearch := if searchTerm != "" then Filter(Searching(searchTerm), tasks) else tasks;
    var byStatus := if statusFilter != "all" then Filter(HasStatus(statusFilter), bySearch) else bySearch;
    if priorityFilter != "all" then Filter(HasPriority(priorityFilter), byStatus) else byStatus
  }

  /** One step of the chain: filtering by `p` when the step is active, and keeping the list
      otherwise, is filtering by `q` when `q` holds exactly where the step lets a task through. */
  lemma Step(active: bool, p: Task -> bool, q: Task -> bool, s: seq<Task>)
    requires forall t :: q(t) == (!active || p(t))
    ensures (if active then Filter(p, s) else s) == Filter(q, s)
  {
    if active {
      FilterCongruent(p, q, s);
    } else {
      FilterAll(q, s);
    }
  }

  /** The chained filters keep, in their original order, exactly the tasks that meet every
      active criterion. */
  lemma FilterTasksShown(tasks: seq<Task>, searchTerm: string, statusFilter: string, priorityFilter: string)
    ensures FilterTasks(tasks, searchTerm, statusFilter, priorityFilter) == Filter(Showing(searchTerm, statusFilter, priorityFilter), tasks)
  {
    var p1 := (t: Task) => searchTerm == "" || SearchHit(t, searchTerm);
    var p2 := (t: Task) => statusFilter == "all" || t.status == statusFilter;
    var p3 := (t: Task) => priorityFilter == "all" || t.priority == priorityFilter;
    var p12 := (t: Task) => p1(t) && p2(t);
    var shown := Showing(searchTerm, statusFilter, priorityFilter);
    var bySearch := if searchTerm != "" then Filter(Searching(searchTerm), tasks) else tasks;
    Step(searchTerm != "", Searching(searchTerm), p1, tasks);
    var byStatus := if statusFilter != "all" then Filter(HasStatus(statusFilter), bySearch) else bySearch;
    Step(statusFilter != "all", HasStatus(statusFilter), p2, bySearch);
    FilterFilter(p1, p2, p12, tasks);
    Step(priorityFilter != "all", HasPriority(priorityFilter), p3, byStatus);
    FilterFilter(p12, p3, shown, tasks);
    assert FilterTasks(tasks, searchTerm, statusFilter, priorityFilter) == Filter(shown, tasks);
  }

  /** A task is in the visible list exactly when it is in the task list and meets every
      active criterion. */
  lemma FilterTasksMember(tasks: seq<Task>, searchTerm: string, statusFilter: string, priorityFilter: string, t: Task)
    ensures t in FilterTasks(tasks, searchTerm, statusFilter, priorityFilter) <==>
      t in tasks && Shown(t, searchTerm, statusFilter, priorityFilter)
  {
    FilterTasksShown(tasks, searchTerm, statusFilter, priorityFilter);
    FilterMember(Showing(searchTerm, statusFilter, priorityFilter), tasks, t);
  }

  /** With an empty search and both drop-downs on "all" the visible list is the task list. */
  lemma FilterTasksNone(tasks: seq<Task>)
    ensures FilterTasks(tasks, "", "all", "all") == tasks
  {
    FilterTasksShown(tasks, "", "all", "all");
    FilterAll(Showing("", "all", "all"), tasks);
  }

  // ---------------------------------------------------------------- handlers

  /** `updateTaskStatus(taskId, newStatus)`: every task with that id takes the new status, and
      progress 100 when the new status is "completed"; every other task is kept. */
  function UpdateTaskStatus(tasks: seq<Task>, taskId: string, newStatus: string): (r: seq<Task>)
    ensures |r| == |tasks|
    ensures forall i :: 0 <= i < |tasks| && tasks[i].id != taskId ==> r[i] == tasks[i]
    ensures forall i :: 0 <= i < |tasks| && tasks[i].id == taskId ==>
      && r[i].status == newStatus
      && r[i].progress == (if newStatus == "completed" then 100 else tasks[i].progress)
      && r[i].(status := tasks[i].status, progress := tasks[i].progress) == tasks[i]
  {
    seq(|tasks|, i requires 0 <= i < |tasks| =>
      var t := tasks[i];
      if t.id == taskId then t.(status := newStatus, progress := if newStatus == "completed" then 100 else t.progress)
      else t)
  }

  /** Updating twice to the same status is updating once. */
  lemma UpdateTwice(tasks: seq<Task>, taskId: string, newStatus: string)
    ensures UpdateTaskStatus(UpdateTaskStatus(tasks, taskId, newStatus), taskId, newStatus) ==
      UpdateTaskStatus(tasks, taskId, newStatus)
  {
  }

  /** `deleteTask(taskId)`: every task with that id is removed; the others stay in order. */
  function DeleteTask(tasks: seq<Task>, taskId: string): (r: seq<Task>)
    ensures forall t :: t in r <==> t in tasks && t.id != taskId
  {
    var r := Filter((t: Task) => t.id != taskId, tasks);
    assert forall t :: t in r <==> t in tasks && t.id != taskId by {
      forall t ensures t in r <==> t in tasks && t.id != taskId {
        FilterMember((t: Task) => t.id != taskId, tasks, t);
      }
    }
    r
  }

  /** Deleting an id no task carries keeps the list. */
  lemma DeleteAbsent(tasks: seq<Task>, taskId: string)
    requires forall i :: 0 <= i < |tasks| ==> tasks[i].id != taskId
    ensures DeleteTask(tasks, taskId) == tasks
  {
    FilterAll((t: Task) => t.id != taskId, tasks);
  }

  /** Only the tasks with the updated id change, and those are the ones a delete of that id
      removes: updating and then deleting is deleting. */
  lemma {:induction false} UpdateThenDelete(tasks: seq<Task>, taskId: string, newStatus: string)
    ensures DeleteTask(UpdateTaskStatus(tasks, taskId, newStatus), taskId) == DeleteTask(tasks, taskId)
    decreases |tasks|
  {
    if tasks != [] {
      var u := UpdateTaskStatus(tasks, taskId, newStatus);
      UpdateThenDelete(tasks[1..], taskId, newStatus);
      assert u[1..] == UpdateTaskStatus(tasks[1..], taskId, newStatus);
    }
  }

  /** The toggle button: a completed task goes back to "in-progress", any other is completed. */
  function Toggled(status: string): (r: string)
    ensures status == "completed" <==> r == "in-progress"
    ensures status != "completed" <==> r == "completed"
  {
    if status == "completed" then "in-progress" else "completed"
  }

  /** Pressing the toggle of a task twice brings a completed task back to "completed" and
      leaves any other at "in-progress"; a completed task's progress stays 100. */
  lemma ToggleTwice(tasks: seq<Task>, i: nat)
    requires i < |tasks| && forall j :: 0 <= j < |tasks| && j != i ==> tasks[j].id != tasks[i].id
    ensures var once := UpdateTaskStatus(tasks, tasks[i].id, Toggled(tasks[i].status));
      var twice := UpdateTaskStatus(once, tasks[i].id, Toggled(once[i].status));
      && twice[i].status == (if tasks[i].status == "completed" then "completed" else "in-progress")
      && (tasks[i].status == "completed" ==> twice[i].progress == 100)
      && (forall j :: 0 <= j < |tasks| && j != i ==> twice[j] == tasks[j])
  {
  }

  // ---------------------------------------------------------------- statistics

  datatype TaskStats = TaskStats(total: nat, completed: nat, inProgress: nat, overdue: nat)

  predicate Completed(t: Task)
  {
    t.status == "completed"
  }

  /** `new Date(t.dueDate) < new Date() && t.status !== "completed"`, with the date parsing
      and the clock given as `past`. */
  predicate Overdue(t: Task, past: string -> bool)
  {
    past(t.dueDate) && t.status != "completed"
  }

  /** `getTaskStats()`. */
  function GetTaskStats(tasks: seq<Task>, past: string -> bool): (r: TaskStats)
    ensures r.total == |tasks|
    ensures r.completed + r.inProgress <= r.total
    ensures r.completed + r.overdue <= r.total
  {
    var completed := Count(Completed, tasks);
    var inProgress := Count((t: Task) => t.status == "in-progress", tasks);
    var overdue := Count((t: Task) => Overdue(t, past), tasks);
    CountDisjoint(Completed, (t: Task) => t.status == "in-progress", tasks);
    CountDisjoint(Completed, (t: Task) => Overdue(t, past), tasks);
    TaskStats(|tasks|, completed, inProgress, overdue)
  }

  /** A task counts as overdue only if it is not completed: completing every task with an id
      leaves none of them overdue, and the overdue count does not grow. */
  lemma {:induction false} CompleteNotOverdue(tasks: seq<Task>, taskId: string, past: string -> bool)
    ensures var u := UpdateTaskStatus(tasks, taskId, "completed");
      && Count((t: Task) => Overdue(t, past), u) <= Count((t: Task) => Overdue(t, past), tasks)
      && forall i :: 0 <= i < |u| && u[i].id == taskId ==> !Overdue(u[i], past)
    decreases |tasks|
  {
    if tasks != [] {
      var u := UpdateTaskStatus(tasks, taskId, "completed");
      CompleteNotOverdue(tasks[1..], taskId, past);
      assert u[1..] == UpdateTaskStatus(tasks[1..], taskId, "completed");
    }
  }

  // ---------------------------------------------------------------- labels

  /** `getStatusText`. */
  function StatusText(status: string): (r: string)
    ensures r == "未知" <==> status !in {"completed", "in-progress", "review", "todo"}
  {
    match status
    case "completed" => "已完成"
    case "in-progress" => "进行中"
    case "review" => "待审核"
    case "todo" => "待开始"
    case _ => "未知"
  }

  /** `getPriorityText`. */
  function PriorityText(priority: string): (r: string)
    ensures r == "未知" <==> priority !in {"urgent", "high", "medium", "low"}
  {
    match priority
    case "urgent" => "紧急"
    case "high" => "高"
    case "medium" => "中"
    case "low" => "低"
    case _ => "未知"
  }

  /** `getPriorityColor`. */
  function PriorityColor(priority: string): (r: string)
    ensures r == "bg-gray-500" <==> priority !in {"urgent", "high", "medium", "low"}
  {
    match priority
    case "urgent" => "bg-red-500"
    case "high" => "bg-orange-500"
    case "medium" => "bg-yellow-500"
    case "low" => "bg-green-500"
    case _ => "bg-gray-500"
  }
}
