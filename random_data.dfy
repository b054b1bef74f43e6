/** The tasks `generateRandomData` builds. `Math.random()` is not modelled: each task takes the
    nine numbers it draws as a parameter, each in [0, 1) as `Math.random()` promises. */
module RandomData {
  import opened Wrappers
  import opened Values
  import opened Text
  import opened ObjectStores
  import opened LocalDb
  import opened Loading
  import opened SeedData

  /** The nine draws of one task, in the order the object literal makes them. */
  datatype Draw = Draw(
    assignee: real, assigneeName: real, status: real, priority: real,
    due: real, created: real, updated: real, project: real, tags: real)

  predicate Unit(x: real)
  {
    0.0 <= x < 1.0
  }

  predicate DrawValid(r: Draw)
  {
    && Unit(r.assignee) && Unit(r.assigneeName) && Unit(r.status) && Unit(r.priority)
    && Unit(r.due) && Unit(r.created) && Unit(r.updated) && Unit(r.project) && Unit(r.tags)
  }

  /** `Math.floor(x * n)` for a draw `x`: one of `0` to `n - 1`. */
  function Pick(x: real, n: nat): (i: nat)
    requires Unit(x) && n > 0
    ensures i < n
  {
    var y := x * n as real;
    assert 0.0 <= y < n as real;
    y.Floor
  }

  /** The time value `new Date(t)` keeps for a fractional `t`: truncated toward zero. */
  function Trunc(x: real): int
  {
    if x >= 0.0 then x.Floor else -((-x).Floor)
  }

  lemma TruncBetween(x: real, lo: int, hi: int)
    requires lo as real <= x <= hi as real
    ensures lo <= Trunc(x) <= hi
  {
  }

  /** `new Date(now + x * span)`: a time at most `span` after `now`. */
  function After(now: int, x: real, span: nat): (t: int)
    requires Unit(x)
    ensures now <= t <= now + span
  {
    assert 0.0 <= x * span as real <= span as real;
    TruncBetween(now as real + x * span as real, now, now + span);
    Trunc(now as real + x * span as real)
  }

  /** `new Date(now - x * span)`: a time at most `span` before `now`. */
  function Before(now: int, x: real, span: nat): (t: int)
    requires Unit(x)
    ensures now - span <= t <= now
  {
    assert 0.0 <= x * span as real <= span as real;
    TruncBetween(now as real - x * span as real, now - span, now);
    Trunc(now as real - x * span as real)
  }

  const Statuses: seq<string> := ["pending", "in_progress", "completed", "cancelled"]
  const Priorities: seq<string> := ["low", "medium", "high", "urgent"]
  const TagPool: seq<string> := ["标签1", "标签2", "标签3"]

  /** The `i`-th random task (counting from 0), with no `id`: the store's key generator
      supplies it. */
  function RandomTask(i: nat, r: Draw, now: int): Value
    requires DrawValid(r)
  {
    Object([
      Field("title", Str("随机任务 " + NatToString(i + 1))),
      Field("description", Str("这是第 " + NatToString(i + 1) + " 个随机生成的任务")),
      Field("assigneeId", Num(Pick(r.assignee, 5) + 1)),
      Field("assigneeName", Str("用户" + NatToString(Pick(r.assigneeName, 5) + 1))),
      Field("status", Str(Statuses[Pick(r.status, 4)])),
      Field("priority", Str(Priorities[Pick(r.priority, 4)])),
      Field("dueDate", Date(After(now, r.due, 30 * Day))),
      Field("createdAt", Date(Before(now, r.created, 30 * Day))),
      Field("updatedAt", Date(Before(now, r.updated, Day))),
      Field("projectId", Num(Pick(r.project, 2) + 1)),
      Field("tags", Strings(TagPool[..Pick(r.tags, 3) + 1]))])
  }

  /** The tasks of `generateRandomData(count)`, one per draw. */
  function RandomTasks(draws: seq<Draw>, now: int): (ts: seq<Value>)
    requires forall i :: 0 <= i < |draws| ==> DrawValid(draws[i])
    ensures |ts| == |draws|
  {
    seq(|draws|, i requires 0 <= i < |draws| => RandomTask(i, draws[i], now))
  }

  /** The `i`-th task of `generateRandomData(count)` is built from the `i`-th draws. */
  lemma RandomTaskAt(draws: seq<Draw>, now: int, i: nat)
    requires forall j :: 0 <= j < |draws| ==> DrawValid(draws[j])
    requires i < |draws|
    ensures RandomTasks(draws, now)[i] == RandomTask(i, draws[i], now)
  {
  }

  /** The properties of the `i`-th random task, in the order it declares them. */
  function TaskFields(i: nat, r: Draw, now: int): (fs: seq<Field>)
    requires DrawValid(r)
    ensures RandomTask(i, r, now) == Object(fs)
  {
    RandomTask(i, r, now).fields
  }

  /** A random task's property of that name, found at position `j`. */
  lemma TaskField(i: nat, r: Draw, now: int, name: string, j: nat)
    requires DrawValid(r) && j < 11
    requires name == ["title", "description", "assigneeId", "assigneeName", "status", "priority",
                      "dueDate", "createdAt", "updatedAt", "projectId", "tags"][j]
    ensures Get(RandomTask(i, r, now), name) == Some(TaskFields(i, r, now)[j].value)
  {
    var fs := TaskFields(i, r, now);
    LookupFirst(fs, name, j);
  }

  /** Every random task is assigned to one of users 1 to 5, in project 1 or 2, with one to
      three of the tags in order. */
  lemma TaskAssignment(i: nat, r: Draw, now: int)
    requires DrawValid(r)
    ensures var t := RandomTask(i, r, now);
      && (exists a :: 1 <= a <= 5 && Get(t, "assigneeId") == Some(Num(a)))
      && (exists p :: 1 <= p <= 2 && Get(t, "projectId") == Some(Num(p)))
      && (exists n :: 1 <= n <= 3 && Get(t, "tags") == Some(Strings(TagPool[..n])))
  {
    TaskField(i, r, now, "assigneeId", 2);
    TaskField(i, r, now, "projectId", 9);
    TaskField(i, r, now, "tags", 10);
  }

  /** Every random task has one of the four statuses and one of the four priorities. */
  lemma TaskStates(i: nat, r: Draw, now: int)
    requires DrawValid(r)
    ensures var t := RandomTask(i, r, now);
      && (exists s :: s in Statuses && Get(t, "status") == Some(Str(s)))
      && (exists s :: s in Priorities && Get(t, "priority") == Some(Str(s)))
  {
    TaskChoices(i, r, now);
    assert Statuses[Pick(r.status, 4)] in Statuses;
    assert Priorities[Pick(r.priority, 4)] in Priorities;
  }

  /** The status and priority a random task draws. */
  lemma TaskChoices(i: nat, r: Draw, now: int)
    requires DrawValid(r)
    ensures Get(RandomTask(i, r, now), "status") == Some(Str(Statuses[Pick(r.status, 4)]))
    ensures Get(RandomTask(i, r, now), "priority") == Some(Str(Priorities[Pick(r.priority, 4)]))
  {
    TaskField(i, r, now, "status", 4);
    TaskField(i, r, now, "priority", 5);
  }

  /** Every random task is an object without an `id`, titled by its position from 1. */
  lemma TaskKeyless(i: nat, r: Draw, now: int)
    requires DrawValid(r)
    ensures var t := RandomTask(i, r, now);
      t.Object? && Get(t, "id").None? && Get(t, "title") == Some(Str("随机任务 " + NatToString(i + 1)))
  {
    var fs := TaskFields(i, r, now);
    assert forall j :: 0 <= j < |fs| ==> fs[j].name != "id";
    TaskField(i, r, now, "title", 0);
  }

  /** Every random task is due within 30 days from `now`, was created within the 30 days
      before it and updated within the day before it. */
  lemma TaskTimes(i: nat, r: Draw, now: int)
    requires DrawValid(r)
    ensures var t := RandomTask(i, r, now);
      && (exists ms :: now <= ms <= now + 30 * Day && Get(t, "dueDate") == Some(Date(ms)))
      && (exists ms :: now - 30 * Day <= ms <= now && Get(t, "createdAt") == Some(Date(ms)))
      && (exists ms :: now - Day <= ms <= now && Get(t, "updatedAt") == Some(Date(ms)))
  {
    TaskDue(i, r, now);
    TaskStamps(i, r, now);
  }

  /** The due date a random task draws. */
  lemma TaskDue(i: nat, r: Draw, now: int)
    requires DrawValid(r)
    ensures Get(RandomTask(i, r, now), "dueDate") == Some(Date(After(now, r.due, 30 * Day)))
  {
    TaskField(i, r, now, "dueDate", 6);
  }

  /** The creation and update times a random task draws. */
  lemma TaskStamps(i: nat, r: Draw, now: int)
    requires DrawValid(r)
    ensures Get(RandomTask(i, r, now), "createdAt") == Some(Date(Before(now, r.created, 30 * Day)))
    ensures Get(RandomTask(i, r, now), "updatedAt") == Some(Date(Before(now, r.updated, Day)))
  {
    TaskField(i, r, now, "createdAt", 7);
    TaskField(i, r, now, "updatedAt", 8);
  }

  /** None of the random tasks carries a key at the key path `id`. */
  lemma RandomTasksKeyless(draws: seq<Draw>, now: int)
    requires forall i :: 0 <= i < |draws| ==> DrawValid(draws[i])
    ensures Keyless("id", RandomTasks(draws, now))
  {
    forall j | 0 <= j < |draws| ensures RandomTasks(draws, now)[j].Object? && Get(RandomTasks(draws, now)[j], "id").None? {
      TaskKeyless(j, draws[j], now);
    }
  }

  /** Added to a `tasks` store whose keys all come from its generator and which has numbers
      left for them, the random tasks succeed and are appended in turn under the generator's
      next numbers, each with its number written into `id`; nothing else in the database
      changes. */
  lemma RandomTasksAppend(d: Database, draws: seq<Draw>, now: int)
    requires DatabaseValid(d) && "tasks" in d.stores
    requires forall i :: 0 <= i < |draws| ==> DrawValid(draws[i])
    requires d.stores["tasks"].spec.keyPath == "id" && d.stores["tasks"].spec.autoIncrement
    requires NumericKeys(d.stores["tasks"].entries) && d.stores["tasks"].current + |draws| <= MaxGeneratorNumber + 1
    ensures AddItems(d, "tasks", RandomTasks(draws, now)) ==
      Progress(None, d.(stores := d.stores["tasks" := Appended(d.stores["tasks"], RandomTasks(draws, now))]))
  {
    RandomTasksKeyless(draws, now);
    AddGeneratedItems(d, "tasks", RandomTasks(draws, now));
  }
}
