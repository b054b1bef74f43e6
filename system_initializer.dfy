/** The system initializer panel: a list of initialization steps run in order, each gated on
    its dependencies, with a bounded newest-first log and a progress counter. The panel's
    state (steps, log, current step, overall progress, running flag) is updated by the
    handlers through functional updates of the previous value; `SystemInitializer` holds it
    as fields and its methods run the handlers' loops. What a step's work does (opening the
    database, seeding, storage writes, timers) is not modelled: each attempt's outcome, its
    duration, the random progress a failure shows and the answer to the confirmation dialog
    are given as an `Attempt`. The time of day printed in log entries is a parameter. */
module SystemInit {
  import opened Wrappers
  import opened Text

  datatype Status = Pending | Running | Completed | Failed | Skipped

  /** An initialization step; absent dependencies are the empty list. */
  datatype Step = Step(
    id: string, name: string, description: string, status: Status, progress: int,
    duration: Option<int>, error: Option<string>, dependencies: seq<string>, critical: bool)

  // ---------------------------------------------------------------- the log

  datatype LogKind = Info | Success | ErrorEntry | Warning

  /** What the panel logs. */
  datatype Message =
    | StepStarted(name: string)
    | StepDone(name: string, duration: int)
    | StepFailed(name: string, error: string)
    | StepSkipped(name: string)
    | RunStarted
    | RunDone
    | RunAborted
    | PanelReset

  /** A log line: the time of day it was logged and its message. */
  datatype LogLine = LogLine(stamp: string, message: Message)

  function Kind(m: Message): LogKind
  {
    match m
    case StepStarted(_) => Info
    case StepDone(_, _) => Success
    case StepFailed(_, _) => ErrorEntry
    case StepSkipped(_) => Warning
    case RunStarted => Info
    case RunDone => Success
    case RunAborted => ErrorEntry
    case PanelReset => Info
  }

  /** The message text. */
  function MessageText(m: Message): string
  {
    match m
    case StepStarted(name) => "开始执行: " + name
    case StepDone(name, d) => name + " 完成 (耗时: " + IntToString(d) + "ms)"
    case StepFailed(name, e) => name + " 失败: " + e
    case StepSkipped(name) => "跳过 " + name + ": 依赖项未完成"
    case RunStarted => "🚀 开始系统初始化..."
    case RunDone => "🎉 系统初始化完成"
    case RunAborted => "❌ 系统初始化失败: 用户取消初始化"
    case PanelReset => "🔄 系统初始化已重置"
  }

  function Icon(kind: LogKind): string
  {
    match kind
    case Success => "✅"
    case ErrorEntry => "❌"
    case Warning => "⚠️"
    case Info => "ℹ️"
  }

  /** The line as displayed: `[time] icon message`. */
  function Render(line: LogLine): string
  {
    "[" + line.stamp + "] " + Icon(Kind(line.message)) + " " + MessageText(line.message)
  }

  function Min(a: int, b: int): int
  {
    if a <= b then a else b
  }

  /** `addLog`: the entry goes first, followed by at most 99 of the previous entries. */
  function AddLog<T>(logs: seq<T>, entry: T): (r: seq<T>)
    ensures |r| == Min(|logs| + 1, 100)
    ensures r[0] == entry
    ensures r[1..] == logs[..|r| - 1]
  {
    [entry] + logs[..Min(|logs|, 99)]
  }

  /** Several entries logged in turn. */
  function AddLogs<T>(logs: seq<T>, entries: seq<T>): seq<T>
  {
    if entries == [] then logs else AddLog(AddLogs(logs, entries[..|entries| - 1]), entries[|entries| - 1])
  }

  function Reversed<T>(s: seq<T>): (r: seq<T>)
    ensures |r| == |s|
    ensures forall i :: 0 <= i < |s| ==> r[i] == s[|s| - 1 - i]
  {
    if s == [] then [] else [s[|s| - 1]] + Reversed(s[..|s| - 1])
  }

  /** The log is the most recent entries, newest first, cut to the latest 100. */
  lemma {:induction false} AddLogsNewestFirst<T>(logs: seq<T>, entries: seq<T>)
    requires |logs| <= 100
    ensures var all := Reversed(entries) + logs;
      AddLogs(logs, entries) == all[..Min(|all|, 100)]
    decreases |entries|
  {
    if entries != [] {
      var n := |entries|;
      var init := entries[..n - 1];
      AddLogsNewestFirst(logs, init);
      var prev := Reversed(init) + logs;
      var all := Reversed(entries) + logs;
      assert Reversed(entries) == [entries[n - 1]] + Reversed(init);
      assert all == [entries[n - 1]] + prev;
      var p := prev[..Min(|prev|, 100)];
      assert AddLog(p, entries[n - 1]) == [entries[n - 1]] + p[..Min(|p|, 99)];
      assert p[..Min(|p|, 99)] == prev[..Min(|prev|, 99)];
      assert all[..Min(|all|, 100)] == [entries[n - 1]] + prev[..Min(|prev|, 99)];
    }
  }

  // ---------------------------------------------------------------- step updates

  /** The changes the handlers make to the step with a given id. */
  datatype Change =
    | ToRunning
    | ToProgress(progress: int)
    | ToCompleted(duration: int)
    | ToFailed(progress: int, message: string, duration: int)
    | ToSkipped
    | ToPending

  function Apply(c: Change, s: Step): (r: Step)
    ensures r.id == s.id && r.name == s.name && r.dependencies == s.dependencies && r.critical == s.critical
  {
    match c
    case ToRunning => s.(status := Running, progress := 0)
    case ToProgress(p) => s.(progress := p)
    case ToCompleted(d) => s.(status := Completed, progress := 100, duration := Some(d))
    case ToFailed(p, e, d) => s.(status := Failed, progress := p, error := Some(e), duration := Some(d))
    case ToSkipped => s.(status := Skipped)
    case ToPending => s.(status := Pending, progress := 0, error := None, duration := None)
  }

  /** `prev.map((s) => (s.id === id ? change(s) : s))`. */
  function Updated(steps: seq<Step>, id: string, c: Change): (r: seq<Step>)
    ensures |r| == |steps|
    ensures forall i :: 0 <= i < |steps| ==> r[i] == if steps[i].id == id then Apply(c, steps[i]) else steps[i]
  {
    seq(|steps|, i requires 0 <= i < |steps| => if steps[i].id == id then Apply(c, steps[i]) else steps[i])
  }

  /** Every step back to pending with no progress, error or duration (the reset's map). */
  function Reset(steps: seq<Step>): (r: seq<Step>)
    ensures |r| == |steps|
    ensures forall i :: 0 <= i < |steps| ==>
      && r[i].status == Pending && r[i].progress == 0 && r[i].error.None? && r[i].duration.None?
      && r[i].id == steps[i].id && r[i].name == steps[i].name && r[i].description == steps[i].description
      && r[i].dependencies == steps[i].dependencies && r[i].critical == steps[i].critical
  {
    seq(|steps|, i requires 0 <= i < |steps| => Apply(ToPending, steps[i]))
  }

  /** A later progress update overrides an earlier one. */
  lemma ProgressTwice(steps: seq<Step>, id: string, p: int, q: int)
    ensures Updated(Updated(steps, id, ToProgress(p)), id, ToProgress(q)) == Updated(steps, id, ToProgress(q))
  {
  }

  /** The place of the first step with that id, or the number of steps if there is none. */
  function FirstIndex(steps: seq<Step>, id: string): (i: nat)
    ensures i <= |steps|
    ensures i < |steps| ==> steps[i].id == id
  {
    if steps == [] then 0
    else if steps[0].id == id then 0
    else 1 + FirstIndex(steps[1..], id)
  }

  /** No step before the first place has the id. */
  lemma {:induction false} FirstIndexFirst(steps: seq<Step>, id: string, j: nat)
    requires j < FirstIndex(steps, id)
    ensures steps[j].id != id
  {
    if j > 0 {
      FirstIndexFirst(steps[1..], id, j - 1);
    }
  }

  /** `steps.find((s) => s.id === id)`: the first step with that id. */
  function Find(steps: seq<Step>, id: string): (r: Option<Step>)
    ensures r.None? <==> forall i :: 0 <= i < |steps| ==> steps[i].id != id
    ensures r.Some? ==> r.value.id == id && r.value in steps
  {
    var i := FirstIndex(steps, id);
    assert i == |steps| ==> forall j :: 0 <= j < |steps| ==> steps[j].id != id by {
      forall j | 0 <= j < i {
        FirstIndexFirst(steps, id, j);
      }
    }
    if i < |steps| then Some(steps[i]) else None
  }

  /** No two steps share an id: each step is the first with its id. */
  predicate DistinctIds(steps: seq<Step>)
  {
    forall i :: 0 <= i < |steps| ==> FirstIndex(steps, steps[i].id) == i
  }

  /** Ids that differ pairwise are distinct in that sense. */
  lemma PairwiseDistinct(steps: seq<Step>)
    requires forall i, j :: 0 <= i < j < |steps| ==> steps[i].id != steps[j].id
    ensures DistinctIds(steps)
  {
    forall i | 0 <= i < |steps| ensures FirstIndex(steps, steps[i].id) == i {
      var f := FirstIndex(steps, steps[i].id);
      if i < f {
        FirstIndexFirst(steps, steps[i].id, i);
      }
    }
  }

  /** With distinct ids an update by a step's id changes that step alone. */
  lemma UpdatedAt(steps: seq<Step>, k: nat, c: Change)
    requires DistinctIds(steps) && k < |steps|
    ensures Updated(steps, steps[k].id, c) == steps[k := Apply(c, steps[k])]
  {
    forall i | 0 <= i < |steps| && i != k ensures steps[i].id != steps[k].id {
      assert FirstIndex(steps, steps[i].id) == i;
    }
  }

  lemma FindAt(steps: seq<Step>, k: nat)
    requires DistinctIds(steps) && k < |steps|
    ensures Find(steps, steps[k].id) == Some(steps[k])
  {
    assert FirstIndex(steps, steps[k].id) == k;
  }

  /** The first place of an id depends on the ids alone. */
  lemma {:induction false} FirstIndexIds(steps: seq<Step>, other: seq<Step>, id: string)
    requires |steps| == |other| && forall j :: 0 <= j < |steps| ==> steps[j].id == other[j].id
    ensures FirstIndex(steps, id) == FirstIndex(other, id)
  {
    if steps != [] && steps[0].id != id {
      FirstIndexIds(steps[1..], other[1..], id);
    }
  }

  /** `dependencies.every((depId) => steps.find((s) => s.id === depId)?.status === "completed")`. */
  predicate DepsDone(view: seq<Step>, deps: seq<string>)
  {
    forall j :: 0 <= j < |deps| ==> var f := Find(view, deps[j]); f.Some? && f.value.status == Completed
  }

  /** A step runs when it has no dependencies or all of them are completed in `view`. */
  predicate Gate(view: seq<Step>, step: Step)
  {
    |step.dependencies| == 0 || DepsDone(view, step.dependencies)
  }

  // ---------------------------------------------------------------- running

  /** What one attempt at a step comes to: the error its work threw, if any, how long it took,
      the progress a failure displays (`Math.floor(Math.random() * 80) + 10`), and whether the
      user chose to continue after a critical failure. */
  datatype Attempt = Attempt(error: Option<string>, duration: int, failProgress: int, proceed: bool)

  /** The panel's state. */
  datatype Panel = Panel(steps: seq<Step>, logs: seq<LogLine>, currentStep: Option<string>,
                         overallProgress: real, initializing: bool)

  /** `simulateStep(step)` up to and including its first progress update: the step is running,
      at progress 0, and the start is logged. */
  function Started(p: Panel, step: Step, stamp: string): Panel
  {
    p.(currentStep := Some(step.id), steps := Updated(p.steps, step.id, ToRunning),
       logs := AddLog(p.logs, LogLine(stamp, StepStarted(step.name))))
  }

  /** `simulateStep(step)`: on success the progress loop ends at 100 and the step is completed
      with its duration; on failure the step is failed with the random progress, the message and
      the duration. The flag says whether the run is aborted: a critical step failed and the
      user declined to go on. */
  function Simulate(p: Panel, step: Step, a: Attempt, stamp: string): (r: (Panel, bool))
    ensures r.1 <==> a.error.Some? && step.critical && !a.proceed
    ensures |r.0.steps| == |p.steps|
  {
    var s := Started(p, step, stamp);
    match a.error
    case None =>
      var progressed := Updated(s.steps, step.id, ToProgress(100));
      (s.(steps := Updated(progressed, step.id, ToCompleted(a.duration)),
          logs := AddLog(s.logs, LogLine(stamp, StepDone(step.name, a.duration)))),
       false)
    case Some(e) =>
      (s.(steps := Updated(s.steps, step.id, ToFailed(a.failProgress, e, a.duration)),
          logs := AddLog(s.logs, LogLine(stamp, StepFailed(step.name, e)))),
       step.critical && !a.proceed)
  }

  /** A skipped step: marked skipped and logged. */
  function Skip(p: Panel, step: Step, stamp: string): Panel
  {
    p.(steps := Updated(p.steps, step.id, ToSkipped),
       logs := AddLog(p.logs, LogLine(stamp, StepSkipped(step.name))))
  }

  /** `(completedSteps / totalSteps) * 100`. */
  function Percent(done: nat, total: nat): real
    requires total > 0
  {
    done as real / total as real * 100.0
  }

  /** Where a turn or a run of the loop leaves the panel, the counter and whether the run was
      aborted. */
  datatype Turn = Turn(panel: Panel, counted: nat, aborted: bool)

  /** One turn of the loop of `startInitialization` at the `k`-th step of `snapshot`, with
      `done` steps counted so far: a step whose dependencies are not all completed is skipped
      and not counted; otherwise it is simulated and, unless it aborted the run, counted and
      the overall progress set. The dependency gate reads `snapshot` when `live` is false, as
      the code does, and the current steps when it is true. Returns the panel, the count and
      whether the run is aborted. */
  function StepOnce(snapshot: seq<Step>, k: nat, p: Panel, done: nat, attempts: seq<Attempt>, stamp: string, live: bool): (r: Turn)
    requires k < |snapshot| && |attempts| == |snapshot|
    ensures |r.panel.steps| == |p.steps|
  {
    var step := snapshot[k];
    if !Gate(if live then p.steps else snapshot, step) then Turn(Skip(p, step, stamp), done, false)
    else
      var s := Simulate(p, step, attempts[k], stamp);
      if s.1 then Turn(s.0, done, true)
      else Turn(s.0.(overallProgress := Percent(done + 1, |snapshot|)), done + 1, false)
  }

  /** Every turn of `turn` leaves the number of steps as it was. */
  ghost predicate KeepsLength(turn: (nat, Panel, nat) -> Turn)
  {
    forall k: nat, p: Panel, done: nat :: |turn(k, p, done).panel.steps| == |p.steps|
  }

  /** The turns of the loop over `snapshot`, as a function of the place, the panel and the
      counter; outside the snapshot a turn does nothing. */
  function TurnAt(snapshot: seq<Step>, attempts: seq<Attempt>, stamp: string, live: bool): (r: (nat, Panel, nat) -> Turn)
    ensures KeepsLength(r)
  {
    (k: nat, p: Panel, done: nat) =>
      if k < |snapshot| && |attempts| == |snapshot| then StepOnce(snapshot, k, p, done, attempts, stamp, live)
      else Turn(p, done, false)
  }

  /** A loop of turns from the `k`-th up to the `n`-th that stops after a turn that aborts. */
  function Loop(turn: (nat, Panel, nat) -> Turn, n: nat, k: nat, p: Panel, done: nat): (r: Turn)
    requires k <= n && KeepsLength(turn)
    ensures |r.panel.steps| == |p.steps|
    decreases n - k
  {
    if k == n then Turn(p, done, false)
    else
      var t := turn(k, p, done);
      if t.aborted then t
      else Loop(turn, n, k + 1, t.panel, t.counted)
  }

  /** The loop of `startInitialization` from the `k`-th step on. */
  function RunFrom(snapshot: seq<Step>, k: nat, p: Panel, done: nat, attempts: seq<Attempt>, stamp: string, live: bool): Turn
    requires k <= |snapshot| && |attempts| == |snapshot|
  {
    Loop(TurnAt(snapshot, attempts, stamp, live), |snapshot|, k, p, done)
  }

  /** `startInitialization()`: the run starts logged, with every step reset, and the loop walks
      the steps as they were when the button was pressed; the end is logged as a success, or as
      a failure when the user aborted; the current step is cleared and the run flag dropped. */
  function Start(p: Panel, attempts: seq<Attempt>, stamp: string, live: bool): (r: Panel)
    requires |attempts| == |p.steps|
    ensures |r.steps| == |p.steps| && r.currentStep.None? && !r.initializing
  {
    var begun := p.(initializing := true, overallProgress := 0.0,
                    logs := AddLog(p.logs, LogLine(stamp, RunStarted)),
                    steps := Reset(p.steps));
    var t := RunFrom(p.steps, 0, begun, 0, attempts, stamp, live);
    var q := t.panel;
    var aborted := t.aborted;
    var ended := if aborted then AddLog(q.logs, LogLine(stamp, RunAborted))
                 else AddLog(q.logs, LogLine(stamp, RunDone));
    q.(logs := ended, currentStep := None, initializing := false)
  }

  /** `retryStep(stepId)`: the first step with that id is simulated again; with no such step
      nothing happens. Returns whether the attempt aborted. */
  function Retry(p: Panel, stepId: string, a: Attempt, stamp: string): (r: (Panel, bool))
    ensures (forall i :: 0 <= i < |p.steps| ==> p.steps[i].id != stepId) ==> r == (p, false)
  {
    match Find(p.steps, stepId)
    case None => (p, false)
    case Some(step) => Simulate(p, step, a, stamp)
  }

  /** `resetInitialization()`: every step reset, no current step, progress 0, and a log that
      holds the reset entry alone. */
  function ResetPanel(p: Panel, stamp: string): (r: Panel)
    ensures r.steps == Reset(p.steps) && r.currentStep.None? && r.overallProgress == 0.0
    ensures |r.logs| == 1
  {
    p.(steps := Reset(p.steps), currentStep := None, overallProgress := 0.0,
       logs := AddLog([], LogLine(stamp, PanelReset)))
  }

  // ---------------------------------------------------------------- what a run does

  /** The step at `k` runs in the code's run: its gate reads the steps as they were when the
      button was pressed. */
  predicate Gated(snapshot: seq<Step>, k: nat)
    requires k < |snapshot|
  {
    Gate(snapshot, snapshot[k])
  }

  /** The step at `k` aborts the run: it runs, fails, is critical, and the user declines. */
  predicate Aborts(snapshot: seq<Step>, attempts: seq<Attempt>, k: nat)
    requires k < |snapshot| && |attempts| == |snapshot|
  {
    Gated(snapshot, k) && attempts[k].error.Some? && snapshot[k].critical && !attempts[k].proceed
  }

  /** What the code's run makes of the step at one place, decided by its gate and its
      attempt alone: whether it runs, the status it ends with, the error it keeps when it
      fails, and whether it aborts the run. */
  datatype Plan = Plan(runs: bool, status: Status, error: Option<string>, aborts: bool)

  function PlanAt(snapshot: seq<Step>, attempts: seq<Attempt>, k: nat): Plan
    requires k < |snapshot| && |attempts| == |snapshot|
  {
    var runs := Gated(snapshot, k);
    Plan(runs, if !runs then Skipped else if attempts[k].error.None? then Completed else Failed,
         attempts[k].error, Aborts(snapshot, attempts, k))
  }

  function Plans(snapshot: seq<Step>, attempts: seq<Attempt>): (r: seq<Plan>)
    requires |attempts| == |snapshot|
    ensures |r| == |snapshot| && forall k :: 0 <= k < |snapshot| ==> r[k] == PlanAt(snapshot, attempts, k)
  {
    seq(|snapshot|, k requires 0 <= k < |snapshot| => PlanAt(snapshot, attempts, k))
  }

  /** The first place from `k` on whose step aborts the run, or the number of steps if none
      does. */
  function StopFrom(plans: seq<Plan>, k: nat): (s: nat)
    requires k <= |plans|
    ensures k <= s <= |plans|
    ensures s < |plans| ==> plans[s].aborts
    ensures forall j :: k <= j < s ==> !plans[j].aborts
    decreases |plans| - k
  {
    if k == |plans| then k
    else if plans[k].aborts then k
    else StopFrom(plans, k + 1)
  }

  /** How many of the steps from `k` to `n` run. */
  function RunCount(plans: seq<Plan>, k: nat, n: nat): nat
    requires k <= n <= |plans|
    decreases n - k
  {
    if k == n then 0 else (if plans[k].runs then 1 else 0) + RunCount(plans, k + 1, n)
  }

  /** The panel's steps line up with the snapshot: same length and the same id at each place. */
  predicate Aligned(steps: seq<Step>, snapshot: seq<Step>)
  {
    |steps| == |snapshot| && forall j :: 0 <= j < |steps| ==> steps[j].id == snapshot[j].id
  }

  /** Simulating the step at place `k` changes that step alone: it ends completed at progress
      100 when the attempt succeeds and failed with the attempt's message when it throws. */
  lemma SimulateAt(p: Panel, k: nat, step: Step, a: Attempt, stamp: string)
    requires DistinctIds(p.steps) && k < |p.steps| && p.steps[k].id == step.id
    ensures var q := Simulate(p, step, a, stamp).0;
      && q.steps == p.steps[k := q.steps[k]] && q.steps[k].id == step.id
      && (a.error.None? ==> q.steps[k].status == Completed && q.steps[k].progress == 100)
      && (a.error.Some? ==> q.steps[k].status == Failed && q.steps[k].error == a.error)
  {
    var st := Started(p, step, stamp);
    UpdatedAt(p.steps, k, ToRunning);
    AlignedDistinct(st.steps, p.steps);
    if a.error.None? {
      var progressed := Updated(st.steps, step.id, ToProgress(100));
      UpdatedAt(st.steps, k, ToProgress(100));
      AlignedDistinct(progressed, st.steps);
      UpdatedAt(progressed, k, ToCompleted(a.duration));
    } else {
      UpdatedAt(st.steps, k, ToFailed(a.failProgress, a.error.value, a.duration));
    }
  }

  lemma AlignedDistinct(steps: seq<Step>, snapshot: seq<Step>)
    requires DistinctIds(snapshot) && Aligned(steps, snapshot)
    ensures DistinctIds(steps)
  {
    forall i | 0 <= i < |steps| ensures FirstIndex(steps, steps[i].id) == i {
      FirstIndexIds(steps, snapshot, steps[i].id);
    }
  }

  /** What a turn of the code's loop at place `k` does: it changes that step alone, to the
      verdict its gate and attempt call for; the run aborts exactly when the step aborts, and
      the counter goes up when the step ran and did not abort. */
  predicate TurnOutcome(snapshot: seq<Step>, k: nat, plan: Plan, p: Panel, done: nat, t: Turn)
    requires k < |snapshot| && |p.steps| == |snapshot|
  {
    var q := t.panel;
    && |q.steps| == |p.steps|
    && q.steps == p.steps[k := q.steps[k]] && q.steps[k].id == snapshot[k].id
    && Settled(plan, q.steps[k])
    && t.aborted == plan.aborts
    && t.counted == done + (if plan.runs && !plan.aborts then 1 else 0)
  }

  /** Every turn of `turn` over steps that line up with `snapshot` has the outcome of the
      code's turn. */
  ghost predicate TurnsAsCoded(turn: (nat, Panel, nat) -> Turn, snapshot: seq<Step>, plans: seq<Plan>)
    requires |plans| == |snapshot|
  {
    forall k: nat, p: Panel, done: nat :: k < |snapshot| && Aligned(p.steps, snapshot) ==>
      TurnOutcome(snapshot, k, plans[k], p, done, turn(k, p, done))
  }

  /** One turn of the code's loop at place `k`: it changes that step alone, to the verdict its
      gate and attempt call for; the run aborts exactly when the step aborts, and the counter
      goes up when the step ran and did not abort. */
  lemma StepOnceOutcome(snapshot: seq<Step>, k: nat, p: Panel, done: nat, attempts: seq<Attempt>, stamp: string)
    requires DistinctIds(snapshot) && k < |snapshot| && |attempts| == |snapshot|
    requires Aligned(p.steps, snapshot)
    ensures TurnOutcome(snapshot, k, PlanAt(snapshot, attempts, k), p, done, StepOnce(snapshot, k, p, done, attempts, stamp, false))
  {
    AlignedDistinct(p.steps, snapshot);
    var step := snapshot[k];
    if !Gate(snapshot, step) {
      UpdatedAt(p.steps, k, ToSkipped);
    } else {
      SimulateAt(p, k, step, attempts[k], stamp);
    }
  }

  /** A step ended as its plan says: with the planned status, at progress 100 when completed,
      and with the attempt's message when failed. */
  predicate Settled(plan: Plan, s: Step)
  {
    && s.status == plan.status
    && (s.status == Completed ==> s.progress == 100)
    && (s.status == Failed ==> s.error == plan.error)
  }

  /** Where a run that stopped at `stop` leaves the step at `j`: settled up to the stop, still
      pending after it. */
  predicate Ends(plans: seq<Plan>, stop: nat, j: nat, s: Step)
    requires j < |plans|
  {
    if j <= stop then Settled(plans[j], s) else s.status == Pending
  }

  /** The turns of the code's loop over steps with distinct ids have the outcome stated by
      `TurnOutcome`. */
  lemma TurnAtAsCoded(snapshot: seq<Step>, attempts: seq<Attempt>, stamp: string)
    requires DistinctIds(snapshot) && |attempts| == |snapshot|
    ensures TurnsAsCoded(TurnAt(snapshot, attempts, stamp, false), snapshot, Plans(snapshot, attempts))
  {
    var turn := TurnAt(snapshot, attempts, stamp, false);
    forall k: nat, p: Panel, done: nat | k < |snapshot| && Aligned(p.steps, snapshot)
      ensures TurnOutcome(snapshot, k, Plans(snapshot, attempts)[k], p, done, turn(k, p, done))
    {
      StepOnceOutcome(snapshot, k, p, done, attempts, stamp);
      assert turn(k, p, done) == StepOnce(snapshot, k, p, done, attempts, stamp, false);
    }
  }

  /** A loop whose turns act as the code's, from the `k`-th step: the run is aborted exactly
      when some step from `k` on aborts, and the counter goes up once per step that ran and
      did not abort, failed ones included, skipped ones not. */
  lemma {:induction false} LoopCount(turn: (nat, Panel, nat) -> Turn, snapshot: seq<Step>, plans: seq<Plan>, k: nat, p: Panel, done: nat)
    requires KeepsLength(turn) && k <= |snapshot| && |plans| == |snapshot|
    requires TurnsAsCoded(turn, snapshot, plans) && Aligned(p.steps, snapshot)
    ensures var t := Loop(turn, |snapshot|, k, p, done);
      var stop := StopFrom(plans, k);
      && (t.aborted <==> stop < |snapshot|)
      && t.counted == done + RunCount(plans, k, stop)
    decreases |snapshot| - k
  {
    if k < |snapshot| {
      var t := turn(k, p, done);
      assert TurnOutcome(snapshot, k, plans[k], p, done, t);
      if t.aborted {
        assert Loop(turn, |snapshot|, k, p, done) == t;
        assert StopFrom(plans, k) == k;
      } else {
        LoopCount(turn, snapshot, plans, k + 1, t.panel, t.counted);
        assert Loop(turn, |snapshot|, k, p, done) == Loop(turn, |snapshot|, k + 1, t.panel, t.counted);
        var stop := StopFrom(plans, k + 1);
        assert StopFrom(plans, k) == stop;
        assert RunCount(plans, k, stop) == (if plans[k].runs then 1 else 0) + RunCount(plans, k + 1, stop);
      }
    }
  }

  /** A turn with the code's outcome keeps the steps lined up with the snapshot and changes
      no step but its own. */
  lemma TurnKeeps(snapshot: seq<Step>, k: nat, plan: Plan, p: Panel, done: nat, t: Turn)
    requires k < |snapshot| && Aligned(p.steps, snapshot)
    requires TurnOutcome(snapshot, k, plan, p, done, t)
    ensures Aligned(t.panel.steps, snapshot)
    ensures forall j :: 0 <= j < |snapshot| && j != k ==> t.panel.steps[j] == p.steps[j]
  {
    forall j | 0 <= j < |snapshot| && j != k ensures t.panel.steps[j] == p.steps[j] {
      assert t.panel.steps[j] == p.steps[k := t.panel.steps[k]][j];
    }
  }

  /** A loop whose turns act as the code's keeps the steps lined up with the snapshot and
      leaves the steps before `k` alone. */
  lemma {:induction false} LoopAligned(turn: (nat, Panel, nat) -> Turn, snapshot: seq<Step>, plans: seq<Plan>, k: nat, p: Panel, done: nat)
    requires KeepsLength(turn) && k <= |snapshot| && |plans| == |snapshot|
    requires TurnsAsCoded(turn, snapshot, plans) && Aligned(p.steps, snapshot)
    ensures var q := Loop(turn, |snapshot|, k, p, done).panel;
      && Aligned(q.steps, snapshot)
      && forall j :: 0 <= j < k ==> q.steps[j] == p.steps[j]
    decreases |snapshot| - k
  {
    if k < |snapshot| {
      var t := turn(k, p, done);
      TurnKeeps(snapshot, k, plans[k], p, done, t);
      if t.aborted {
        assert Loop(turn, |snapshot|, k, p, done) == t;
      } else {
        LoopAligned(turn, snapshot, plans, k + 1, t.panel, t.counted);
        assert Loop(turn, |snapshot|, k, p, done) == Loop(turn, |snapshot|, k + 1, t.panel, t.counted);
      }
    }
  }

  /** A loop whose turns act as the code's, from the `k`-th step, on steps still pending from
      `k` on: every step up to the abort point ends skipped, completed or failed as its gate
      and attempt say, and the steps after it stay pending. */
  lemma {:induction false} LoopSteps(turn: (nat, Panel, nat) -> Turn, snapshot: seq<Step>, plans: seq<Plan>, k: nat, p: Panel, done: nat)
    requires KeepsLength(turn) && k <= |snapshot| && |plans| == |snapshot|
    requires TurnsAsCoded(turn, snapshot, plans) && Aligned(p.steps, snapshot)
    requires forall j :: k <= j < |snapshot| ==> p.steps[j].status == Pending
    ensures var q := Loop(turn, |snapshot|, k, p, done).panel;
      var stop := StopFrom(plans, k);
      forall j :: k <= j < |snapshot| ==> Ends(plans, stop, j, q.steps[j])
    decreases |snapshot| - k
  {
    if k < |snapshot| {
      var t := turn(k, p, done);
      TurnKeeps(snapshot, k, plans[k], p, done, t);
      if t.aborted {
        assert Loop(turn, |snapshot|, k, p, done) == t;
        assert StopFrom(plans, k) == k;
      } else {
        LoopSteps(turn, snapshot, plans, k + 1, t.panel, t.counted);
        LoopAligned(turn, snapshot, plans, k + 1, t.panel, t.counted);
        var r := Loop(turn, |snapshot|, k + 1, t.panel, t.counted);
        assert Loop(turn, |snapshot|, k, p, done) == r;
        var stop := StopFrom(plans, k + 1);
        assert StopFrom(plans, k) == stop;
        assert r.panel.steps[k] == t.panel.steps[k];
      }
    }
  }

  /** The whole of `startInitialization()` as the code runs it, on steps with distinct ids: the
      step at `k` ends skipped, completed or failed as the gate over the steps captured at the
      press and its attempt say, up to the abort point; later steps are pending; the run is
      logged as failed exactly when a step aborted it. */
  lemma StartOutcome(p: Panel, attempts: seq<Attempt>, stamp: string)
    requires DistinctIds(p.steps) && |attempts| == |p.steps|
    ensures var r := Start(p, attempts, stamp, false);
      var plans := Plans(p.steps, attempts);
      var stop := StopFrom(plans, 0);
      && (forall j :: 0 <= j < |p.steps| ==> Ends(plans, stop, j, r.steps[j]))
      && r.logs[0] == (if stop < |p.steps| then LogLine(stamp, RunAborted)
                       else LogLine(stamp, RunDone))
  {
    var begun := p.(initializing := true, overallProgress := 0.0,
                    logs := AddLog(p.logs, LogLine(stamp, RunStarted)),
                    steps := Reset(p.steps));
    var turn := TurnAt(p.steps, attempts, stamp, false);
    TurnAtAsCoded(p.steps, attempts, stamp);
    var plans := Plans(p.steps, attempts);
    LoopSteps(turn, p.steps, plans, 0, begun, 0);
    LoopAligned(turn, p.steps, plans, 0, begun, 0);
    LoopCount(turn, p.steps, plans, 0, begun, 0);
  }

  // ---------------------------------------------------------------- the configured steps

  function S(id: string, name: string, description: string, deps: seq<string>, critical: bool): Step
  {
    Step(id, name, description, Pending, 0, None, None, deps, critical)
  }

  /** The eight steps the panel starts with. */
  const InitialSteps: seq<Step> := [
    S("database", "数据库初始化", "创建IndexedDB数据库和表结构", [], true),
    S("seed", "种子数据加载", "加载示例数据和基础配置", ["database"], false),
    S("cache", "缓存系统", "初始化本地缓存和会话存储", ["database"], false),
    S("auth", "认证系统", "配置用户认证和权限管理", ["database"], true),
    S("services", "核心服务", "启动业务逻辑服务和API接口", ["database", "cache", "auth"], true),
    S("workers", "后台任务", "启动队列处理和定时任务", ["services"], false),
    S("monitoring", "监控系统", "配置系统监控和日志收集", ["services"], false),
    S("optimization", "性能优化", "应用缓存策略和性能调优", ["services", "monitoring"], false)]

  lemma InitialStepsDistinct()
    ensures DistinctIds(InitialSteps)
  {
    forall i, j | 0 <= i < j < 8 ensures InitialSteps[i].id != InitialSteps[j].id {
      assert |InitialSteps[i].id| != |InitialSteps[j].id| || InitialSteps[i].id[0] != InitialSteps[j].id[0];
    }
    PairwiseDistinct(InitialSteps);
  }

  /** When no step in `view` is completed, no step with dependencies passes the gate. */
  lemma NothingCompletedBlocks(view: seq<Step>, step: Step)
    requires forall i :: 0 <= i < |view| ==> view[i].status != Completed
    requires |step.dependencies| > 0
    ensures !Gate(view, step)
  {
    var f := Find(view, step.dependencies[0]);
  }

  /** As written, a press while no step is completed (the first one on a fresh panel, or the
      first after a reset) skips every step that has dependencies, however the steps before it
      turn out: the gate reads the steps as they were at the press, not as the run leaves them. */
  lemma FreshRunSkipsDependents(p: Panel, attempts: seq<Attempt>, stamp: string)
    requires DistinctIds(p.steps) && |attempts| == |p.steps|
    requires forall i :: 0 <= i < |p.steps| ==> p.steps[i].status != Completed
    ensures var r := Start(p, attempts, stamp, false);
      forall j :: 0 <= j < |p.steps| && j <= StopFrom(Plans(p.steps, attempts), 0) && |p.steps[j].dependencies| > 0 ==>
        r.steps[j].status == Skipped
  {
    forall j | 0 <= j < |p.steps| && |p.steps[j].dependencies| > 0 ensures !Gated(p.steps, j) {
      NothingCompletedBlocks(p.steps, p.steps[j]);
    }
    StartOutcome(p, attempts, stamp);
  }

  /** As written, a press while no step is completed, on steps where only the first has no
      dependencies: the first step runs and, when it succeeds, every other step is skipped. */
  lemma OnlyLeadingStepRuns(p: Panel, attempts: seq<Attempt>, stamp: string)
    requires DistinctIds(p.steps) && |attempts| == |p.steps| && |p.steps| > 0
    requires forall i :: 0 <= i < |p.steps| ==> p.steps[i].status != Completed
    requires |p.steps[0].dependencies| == 0 && attempts[0].error.None?
    requires forall i :: 1 <= i < |p.steps| ==> |p.steps[i].dependencies| > 0
    ensures var r := Start(p, attempts, stamp, false);
      && r.steps[0].status == Completed
      && forall j :: 1 <= j < |p.steps| ==> r.steps[j].status == Skipped
  {
    var steps := p.steps;
    assert Gated(steps, 0) && !Aborts(steps, attempts, 0);
    forall j | 1 <= j < |steps| ensures !Aborts(steps, attempts, j) {
      NothingCompletedBlocks(steps, steps[j]);
    }
    assert StopFrom(Plans(steps, attempts), 0) == |steps|;
    FreshRunSkipsDependents(p, attempts, stamp);
    StartOutcome(p, attempts, stamp);
  }

  /** The shape of the configured steps: distinct ids, all pending, and only the database
      step without dependencies. */
  lemma InitialStepsShape()
    ensures |InitialSteps| == 8 && DistinctIds(InitialSteps)
    ensures forall i :: 0 <= i < 8 ==> InitialSteps[i].status == Pending
    ensures |InitialSteps[0].dependencies| == 0
    ensures forall i :: 1 <= i < 8 ==> |InitialSteps[i].dependencies| > 0
  {
    InitialStepsDistinct();
  }

  /** The first press on a fresh panel, as written: only the database step runs; even when it
      succeeds, the seven steps after it are all skipped. */
  lemma FirstRunSkipsDependents(attempts: seq<Attempt>, stamp: string, logs: seq<LogLine>)
    requires |attempts| == 8 && attempts[0].error.None?
    ensures var r := Start(Panel(InitialSteps, logs, None, 0.0, false), attempts, stamp, false);
      && r.steps[0].status == Completed
      && forall j :: 1 <= j < 8 ==> r.steps[j].status == Skipped
  {
    InitialStepsShape();
    OnlyLeadingStepRuns(Panel(InitialSteps, logs, None, 0.0, false), attempts, stamp);
  }

  /** Every dependency names a step earlier in the list. */
  predicate Ordered(steps: seq<Step>)
  {
    forall k, j :: 0 <= k < |steps| && 0 <= j < |steps[k].dependencies| ==>
      exists i :: 0 <= i < k && steps[i].id == steps[k].dependencies[j]
  }

  /** With the gate reading the current steps: once the steps before `k` are completed, the
      step at `k` passes the gate, as each of its dependencies is one of them. */
  lemma LiveGateOpen(snapshot: seq<Step>, k: nat, p: Panel)
    requires DistinctIds(snapshot) && Ordered(snapshot) && k < |snapshot|
    requires Aligned(p.steps, snapshot)
    requires forall j :: 0 <= j < k ==> p.steps[j].status == Completed
    ensures Gate(p.steps, snapshot[k])
  {
    var step := snapshot[k];
    AlignedDistinct(p.steps, snapshot);
    forall j | 0 <= j < |step.dependencies|
      ensures var f := Find(p.steps, step.dependencies[j]); f.Some? && f.value.status == Completed
    {
      assert exists i :: 0 <= i < k && snapshot[i].id == step.dependencies[j];
      var i :| 0 <= i < k && snapshot[i].id == step.dependencies[j];
      FindAt(p.steps, i);
    }
  }

  /** A turn at place `k` that completes that step alone and counts it. */
  predicate Completes(k: nat, p: Panel, done: nat, t: Turn)
    requires k < |p.steps|
  {
    && !t.aborted && t.counted == done + 1 && |t.panel.steps| == |p.steps|
    && t.panel.steps == p.steps[k := t.panel.steps[k]]
    && t.panel.steps[k].id == p.steps[k].id && t.panel.steps[k].status == Completed
  }

  /** With the gate reading the current steps, one turn at a step that passes it with a
      successful attempt completes that step alone and counts it. */
  lemma LiveStepCompletes(snapshot: seq<Step>, k: nat, p: Panel, done: nat, attempts: seq<Attempt>, stamp: string)
    requires DistinctIds(snapshot) && k < |snapshot| && |attempts| == |snapshot|
    requires Aligned(p.steps, snapshot) && attempts[k].error.None? && Gate(p.steps, snapshot[k])
    ensures Completes(k, p, done, StepOnce(snapshot, k, p, done, attempts, stamp, true))
  {
    AlignedDistinct(p.steps, snapshot);
    SimulateAt(p, k, snapshot[k], attempts[k], stamp);
  }

  /** Every turn of `turn` over steps that line up with `snapshot` and are completed before
      its place completes the step at its place. */
  ghost predicate TurnsComplete(turn: (nat, Panel, nat) -> Turn, snapshot: seq<Step>)
  {
    forall k: nat, p: Panel, done: nat ::
      k < |snapshot| && Aligned(p.steps, snapshot) && (forall j :: 0 <= j < k ==> p.steps[j].status == Completed) ==>
      Completes(k, p, done, turn(k, p, done))
  }

  /** With the gate reading the current steps, over ordered steps with distinct ids and with
      every attempt succeeding, each turn completes its step. */
  lemma LiveTurnAt(snapshot: seq<Step>, attempts: seq<Attempt>, stamp: string)
    requires DistinctIds(snapshot) && Ordered(snapshot) && |attempts| == |snapshot|
    requires forall j :: 0 <= j < |attempts| ==> attempts[j].error.None?
    ensures TurnsComplete(TurnAt(snapshot, attempts, stamp, true), snapshot)
  {
    var turn := TurnAt(snapshot, attempts, stamp, true);
    forall k: nat, p: Panel, done: nat |
      k < |snapshot| && Aligned(p.steps, snapshot) && (forall j :: 0 <= j < k ==> p.steps[j].status == Completed)
      ensures Completes(k, p, done, turn(k, p, done))
    {
      LiveGateOpen(snapshot, k, p);
      LiveStepCompletes(snapshot, k, p, done, attempts, stamp);
      assert turn(k, p, done) == StepOnce(snapshot, k, p, done, attempts, stamp, true);
    }
  }

  /** A loop whose every turn completes its step, from the `k`-th step with the steps before
      it completed: it does not abort, counts every step from `k` on and completes them all. */
  lemma {:induction false} LiveLoop(turn: (nat, Panel, nat) -> Turn, snapshot: seq<Step>, k: nat, p: Panel, done: nat)
    requires KeepsLength(turn) && TurnsComplete(turn, snapshot) && k <= |snapshot|
    requires Aligned(p.steps, snapshot)
    requires forall j :: 0 <= j < k ==> p.steps[j].status == Completed
    ensures var t := Loop(turn, |snapshot|, k, p, done);
      && !t.aborted && t.counted == done + (|snapshot| - k)
      && forall j :: 0 <= j < |snapshot| ==> t.panel.steps[j].status == Completed
    decreases |snapshot| - k
  {
    if k < |snapshot| {
      var t := turn(k, p, done);
      assert Completes(k, p, done, t);
      assert Aligned(t.panel.steps, snapshot) by {
        forall j | 0 <= j < |snapshot| ensures t.panel.steps[j].id == snapshot[j].id {
          if j != k { assert t.panel.steps[j] == p.steps[j]; }
        }
      }
      LiveLoop(turn, snapshot, k + 1, t.panel, t.counted);
      assert Loop(turn, |snapshot|, k, p, done) == Loop(turn, |snapshot|, k + 1, t.panel, t.counted);
    }
  }

  /** With the gate reading the current steps, a press over ordered steps with distinct ids
      in which every attempt succeeds completes every step. */
  lemma LiveStartCompletes(p: Panel, attempts: seq<Attempt>, stamp: string)
    requires DistinctIds(p.steps) && Ordered(p.steps) && |attempts| == |p.steps|
    requires forall j :: 0 <= j < |attempts| ==> attempts[j].error.None?
    ensures var r := Start(p, attempts, stamp, true);
      forall j :: 0 <= j < |p.steps| ==> r.steps[j].status == Completed
  {
    var begun := p.(initializing := true, overallProgress := 0.0,
                    logs := AddLog(p.logs, LogLine(stamp, RunStarted)),
                    steps := Reset(p.steps));
    LiveTurnAt(p.steps, attempts, stamp);
    LiveLoop(TurnAt(p.steps, attempts, stamp, true), p.steps, 0, begun, 0);
  }

  /** Each configured step depends only on steps listed before it. */
  lemma InitialStepsOrdered()
    ensures Ordered(InitialSteps)
  {
    forall k, j | 0 <= k < |InitialSteps| && 0 <= j < |InitialSteps[k].dependencies|
      ensures exists i :: 0 <= i < k && InitialSteps[i].id == InitialSteps[k].dependencies[j]
    {
      var i := if k == 4 && j == 1 then 2 else if k == 4 && j == 2 then 3
               else if k == 7 && j == 1 then 6 else if k >= 5 then 4 else 0;
      assert InitialSteps[i].id == InitialSteps[k].dependencies[j];
    }
  }

  /** With the gate reading the current steps, the first press on a fresh panel with every
      attempt succeeding completes all eight steps. */
  lemma LiveFirstRunCompletes(attempts: seq<Attempt>, stamp: string, logs: seq<LogLine>)
    requires |attempts| == 8 && forall j :: 0 <= j < 8 ==> attempts[j].error.None?
    ensures var r := Start(Panel(InitialSteps, logs, None, 0.0, false), attempts, stamp, true);
      forall j :: 0 <= j < 8 ==> r.steps[j].status == Completed
  {
    InitialStepsShape();
    InitialStepsOrdered();
    LiveStartCompletes(Panel(InitialSteps, logs, None, 0.0, false), attempts, stamp);
  }

  // ---------------------------------------------------------------- the counts

  /** The completed and failed figures: at most the number of steps together. */
  function StepCounts(steps: seq<Step>): (r: (nat, nat))
    ensures r.0 + r.1 <= |steps|
  {
    if steps == [] then (0, 0)
    else
      var (c, f) := StepCounts(steps[1..]);
      (c + (if steps[0].status == Completed then 1 else 0), f + (if steps[0].status == Failed then 1 else 0))
  }

  /** The `every` over a step's dependencies, as a loop that stops at the first one not
      completed. */
  method DependenciesDone(view: seq<Step>, deps: seq<string>) returns (ready: bool)
    ensures ready == DepsDone(view, deps)
  {
    var j := 0;
    while j < |deps|
      invariant 0 <= j <= |deps|
      invariant DepsDone(view, deps[..j])
    {
      var dep := Find(view, deps[j]);
      if !(dep.Some? && dep.value.status == Completed) {
        assert !DepsDone(view, deps) by {
          assert deps[j] == deps[j];
        }
        return false;
      }
      assert deps[..j + 1] == deps[..j] + [deps[j]];
      j := j + 1;
    }
    assert deps[..j] == deps;
    return true;
  }

  // ---------------------------------------------------------------- the panel object

  class SystemInitializer {
    var steps: seq<Step>
    var logs: seq<LogLine>
    var currentStep: Option<string>
    var overallProgress: real
    var isInitializing: bool

    function State(): Panel
      reads this
    {
      Panel(steps, logs, currentStep, overallProgress, isInitializing)
    }

    constructor ()
      ensures State() == Panel(InitialSteps, [], None, 0.0, false)
    {
      steps := InitialSteps;
      logs := [];
      currentStep := None;
      overallProgress := 0.0;
      isInitializing := false;
    }

    /** `addLog(message, type)`. */
    method AddLogEntry(stamp: string, message: Message)
      modifies this
      ensures State() == old(State()).(logs := AddLog(old(logs), LogLine(stamp, message)))
    {
      logs := AddLog(logs, LogLine(stamp, message));
    }

    /** The progress loop of `simulateStep`: the step's progress goes 0, 20, …, 100. */
    method ProgressLoop(id: string)
      modifies this
      ensures State() == old(State()).(steps := Updated(old(steps), id, ToProgress(100)))
    {
      ghost var base := steps;
      var i := 0;
      while i <= 100
        invariant 0 <= i <= 120 && i % 20 == 0
        invariant steps == if i == 0 then base else Updated(base, id, ToProgress(i - 20))
        invariant State() == old(State()).(steps := steps)
      {
        if i > 0 {
          ProgressTwice(base, id, i - 20, i);
        }
        steps := Updated(steps, id, ToProgress(i));
        i := i + 20;
      }
    }

    /** A step whose dependencies are not all completed: marked skipped and logged. */
    method SkipStep(step: Step, stamp: string)
      modifies this
      ensures State() == Skip(old(State()), step, stamp)
    {
      steps := Updated(steps, step.id, ToSkipped);
      AddLogEntry(stamp, StepSkipped(step.name));
    }

    /** `simulateStep(step)`, including its progress loop (0, 20, …, 100). */
    method SimulateStep(step: Step, a: Attempt, stamp: string) returns (aborted: bool)
      modifies this
      ensures (State(), aborted) == Simulate(old(State()), step, a, stamp)
    {
      ghost var p := State();
      currentStep := Some(step.id);
      steps := Updated(steps, step.id, ToRunning);
      AddLogEntry(stamp, StepStarted(step.name));
      ghost var s := State();
      assert s == Started(p, step, stamp);
      if a.error.Some? {
        steps := Updated(steps, step.id, ToFailed(a.failProgress, a.error.value, a.duration));
        AddLogEntry(stamp, StepFailed(step.name, a.error.value));
        return step.critical && !a.proceed;
      }
      ProgressLoop(step.id);
      assert steps == Updated(s.steps, step.id, ToProgress(100));
      steps := Updated(steps, step.id, ToCompleted(a.duration));
      AddLogEntry(stamp, StepDone(step.name, a.duration));
      return false;
    }

    /** One turn of `startInitialization`'s loop over the captured steps: the dependency
        check, then the skip or the simulation and the counter. */
    method RunStep(snapshot: seq<Step>, k: nat, completedSteps: nat, attempts: seq<Attempt>, stamp: string)
      returns (counted: nat, aborted: bool)
      requires k < |snapshot| && |attempts| == |snapshot|
      modifies this
      ensures Turn(State(), counted, aborted) == TurnAt(snapshot, attempts, stamp, false)(k, old(State()), completedSteps)
    {
      var step := snapshot[k];
      counted := completedSteps;
      if |step.dependencies| > 0 {
        var depsCompleted := DependenciesDone(snapshot, step.dependencies);
        if !depsCompleted {
          SkipStep(step, stamp);
          return counted, false;
        }
      }
      assert Gate(snapshot, step);
      aborted := SimulateStep(step, attempts[k], stamp);
      if !aborted {
        counted := counted + 1;
        overallProgress := Percent(counted, |snapshot|);
      }
    }

    /** `startInitialization()`. */
    method StartInitialization(attempts: seq<Attempt>, stamp: string)
      requires |attempts| == |steps|
      modifies this
      ensures State() == Start(old(State()), attempts, stamp, false)
    {
      ghost var p := State();
      isInitializing := true;
      overallProgress := 0.0;
      AddLogEntry(stamp, RunStarted);
      var snapshot := steps;
      steps := Reset(steps);
      assert State() == p.(initializing := true, overallProgress := 0.0,
                           logs := AddLog(p.logs, LogLine(stamp, RunStarted)),
                           steps := Reset(p.steps));
      ghost var total := RunFrom(snapshot, 0, State(), 0, attempts, stamp, false);
      var completedSteps := 0;
      var aborted := false;
      var k := 0;
      while k < |snapshot| && !aborted
        invariant 0 <= k <= |snapshot|
        invariant !aborted ==> RunFrom(snapshot, k, State(), completedSteps, attempts, stamp, false) == total
        invariant aborted ==> Turn(State(), completedSteps, true) == total
      {
        completedSteps, aborted := RunStep(snapshot, k, completedSteps, attempts, stamp);
        k := k + 1;
      }
      if aborted {
        AddLogEntry(stamp, RunAborted);
      } else {
        AddLogEntry(stamp, RunDone);
      }
      currentStep := None;
      isInitializing := false;
    }

    /** `retryStep(stepId)`. */
    method RetryStep(stepId: string, a: Attempt, stamp: string) returns (aborted: bool)
      modifies this
      ensures (State(), aborted) == Retry(old(State()), stepId, a, stamp)
    {
      var step := Find(steps, stepId);
      if step.Some? {
        aborted := SimulateStep(step.value, a, stamp);
      } else {
        aborted := false;
      }
    }

    /** `resetInitialization()`. */
    method ResetInitialization(stamp: string)
      modifies this
      ensures State() == ResetPanel(old(State()), stamp)
    {
      steps := Reset(steps);
      currentStep := None;
      overallProgress := 0.0;
      logs := [];
      AddLogEntry(stamp, PanelReset);
    }
  }
}
