/** The task-matrix runner: which (model, app) pairs are scheduled and in
    what order, what one task leaves in the tracker and returns, the
    summary counts, and the incremental progress record.

    The tasks are modelled one after another in scheduling order. The
    task function is a parameter: `run` gives, for each pair, the
    `update_status` calls the task makes on its own cell and how it ends.
    Each task writes only its own cell, so running them concurrently
    leaves the same tables. */
module ParallelRun {
  import opened Wrappers
  import opened Text
  import opened Matrix
  import opened Progress

  // ---- Semaphores ----

  /** The semaphores the runner creates: the default one, and the API and
      local ones when their limits are given. */
  datatype Semaphore = DefaultSemaphore | ApiSemaphore | LocalSemaphore

  /** `_get_model_semaphore`: every model uses the default semaphore. */
  function ModelSemaphore(model: string): (s: Semaphore)
    ensures s == DefaultSemaphore
  {
    DefaultSemaphore
  }

  /** So at most `max_concurrent` tasks run at once, whatever their
      models. */
  lemma OneSemaphoreForAll(m1: string, m2: string)
    ensures ModelSemaphore(m1) == ModelSemaphore(m2)
  {
  }

  // ---- Scheduling ----

  /** The pairs scheduled among `cells`, in order: all of them, or those
      listed in `valid` when it is given. */
  function Scheduled(cells: seq<Cell>, valid: Option<seq<Cell>>): (r: seq<Cell>)
    ensures |r| <= |cells|
    decreases |cells|
  {
    if cells == [] then []
    else
      var c := cells[|cells| - 1];
      Scheduled(cells[..|cells| - 1], valid) + (if valid.None? || c in valid.value then [c] else [])
  }

  /** A pair is scheduled exactly when it is in the matrix and, when a
      list of valid pairs is given, in that list. */
  lemma {:induction false} ScheduledMembers(cells: seq<Cell>, valid: Option<seq<Cell>>, c: Cell)
    ensures c in Scheduled(cells, valid) <==> c in cells && (valid.None? || c in valid.value)
    decreases |cells|
  {
    if cells != [] {
      var front := cells[..|cells| - 1];
      ScheduledMembers(front, valid, c);
      assert cells == front + [cells[|cells| - 1]];
    }
  }

  /** Without a list of valid pairs every cell is scheduled, in order. */
  lemma {:induction false} ScheduledAll(cells: seq<Cell>)
    ensures Scheduled(cells, None) == cells
    decreases |cells|
  {
    if cells != [] {
      var front := cells[..|cells| - 1];
      ScheduledAll(front);
      assert cells == front + [cells[|cells| - 1]];
    }
  }

  /** `run_parallel_tasks`' task creation: model-major, app-minor, skipping
      the pairs outside `valid` when it is given. */
  method Enumerate(models: seq<string>, apps: seq<string>, valid: Option<seq<Cell>>) returns (tasks: seq<Cell>)
    ensures tasks == Scheduled(CellOrder(models, apps), valid)
  {
    tasks := [];
    for i := 0 to |models|
      invariant tasks == Scheduled(CellOrder(models[..i], apps), valid)
    {
      ghost var done := CellOrder(models[..i], apps);
      ghost var row := Row(models[i], apps);
      VisitRow(models, apps, i);
      for j := 0 to |apps|
        invariant tasks == Scheduled(done + row[..j], valid)
      {
        VisitNext(models, apps, i, j);
        var cell := (models[i], apps[j]);
        assert ((done + row[..j]) + [cell])[..|done + row[..j]|] == done + row[..j];
        if valid.Some? && cell !in valid.value {
          continue;
        }
        tasks := tasks + [cell];
      }
    }
    assert models[..|models|] == models;
  }

  // ---- One task ----

  /** The `error` key of a task's result: absent, None, or a string. */
  datatype ErrorField = NoErrorKey | NullError | ErrorText(text: string)

  /** What a task returns: its own report, read through `success` and
      `error`, or the record built when it raised. */
  datatype TaskResult =
    | Reported(success: bool, error: ErrorField)
    | Crashed(message: string, fullError: string, model: string, app: string)

  /** How the task function ended: it returned a result, or it raised with
      a message and a traceback. */
  datatype TaskOutcome = Returned(result: TaskResult) | Raised(message: string, traceback: string)

  /** One `update_status` call a task makes on its own cell through the
      tracker it is handed. */
  datatype CellUpdate = CellUpdate(status: string, errorDetail: Option<string>, retryInfo: Option<RetryInfo>)

  /** What running the task function does: its own `update_status` calls,
      in order, and how it ends. */
  datatype TaskRun = TaskRun(updates: seq<CellUpdate>, outcome: TaskOutcome)

  predicate Succeeded(r: TaskResult) {
    r.Reported? && r.success
  }

  /** `result.get('error', 'Unknown error')` of a result that is not a
      success: None when the key holds None. */
  function ErrorValue(r: TaskResult): Option<string> {
    match r
    case Reported(_, NoErrorKey) => Some("Unknown error")
    case Reported(_, NullError) => None
    case Reported(_, ErrorText(e)) => Some(e)
    case Crashed(m, _, _, _) => Some(m)
  }

  /** The message a failed task shows after "❌ Failed: ": the error value
      as an f-string prints it, "None" for None. */
  function FailureText(o: TaskOutcome): string {
    match o
    case Returned(r) => ErrorValue(r).GetOr("None")
    case Raised(m, _) => m
  }

  /** The cell status a finished task leaves. */
  function StatusAfter(o: TaskOutcome): string {
    if o.Returned? && Succeeded(o.result) then "✅ Done" else "❌ Failed: " + FailureText(o)
  }

  /** The error detail a finished task passes to the tracker. */
  function DetailAfter(o: TaskOutcome): Option<string> {
    match o
    case Returned(r) => if Succeeded(r) then None else ErrorValue(r)
    case Raised(m, tb) => Some(m + "\n\nFull traceback:\n" + tb)
  }

  /** What `_run_single_task` returns. */
  function ResultOf(o: TaskOutcome, model: string, app: string): TaskResult {
    match o
    case Returned(r) => r
    case Raised(m, tb) => Crashed(m, tb, model, app)
  }

  /** A task that raised is reported failed, with its message and the
      traceback after it; a success leaves a check mark and no detail; any
      other result leaves a cross and its error, which is also the detail,
      except that an `error` of None shows as "None" and leaves no detail. */
  lemma TaskOutcomeShape(o: TaskOutcome, model: string, app: string)
    ensures o.Raised? ==> !Succeeded(ResultOf(o, model, app))
                          && ResultOf(o, model, app).message == o.message
                          && StatusAfter(o) == "❌ Failed: " + o.message
                          && DetailAfter(o) == Some(o.message + "\n\nFull traceback:\n" + o.traceback)
    ensures Succeeded(ResultOf(o, model, app)) ==> IsCompleted(StatusAfter(o)) && DetailAfter(o) == None
    ensures !Succeeded(ResultOf(o, model, app)) ==>
      && '❌' in StatusAfter(o) && StatusAfter(o) == "❌ Failed: " + FailureText(o)
      && (DetailAfter(o).Some? ==> DetailAfter(o).value == FailureText(o) || o.Raised?)
    ensures o.Returned? && !Succeeded(o.result) ==>
      (DetailAfter(o).None? <==> o.result.Reported? && o.result.error.NullError?)
    ensures o.Returned? && o.result.Reported? && !o.result.success && o.result.error.NullError? ==>
      StatusAfter(o) == "❌ Failed: None" && DetailAfter(o) == None
    ensures o.Returned? && o.result.Reported? && !o.result.success && o.result.error.NoErrorKey? ==>
      StatusAfter(o) == "❌ Failed: Unknown error" && DetailAfter(o) == Some("Unknown error")
  {
    match o {
      case Raised(m, _) =>
        assert StatusAfter(o) == "❌ Failed: " + m;
        assert StatusAfter(o)[0] == '❌';
      case Returned(r) =>
        if Succeeded(r) {
          assert StatusAfter(o) == "✅ Done";
          assert StatusAfter(o)[0] == '✅';
        } else {
          assert StatusAfter(o) == "❌ Failed: " + FailureText(o);
          assert StatusAfter(o)[0] == '❌';
        }
    }
  }

  /** `get_summary` counts a failed task as failed unless its message
      itself shows a check mark. */
  lemma FailedCountedAsFailed(o: TaskOutcome)
    requires !(o.Returned? && Succeeded(o.result))
    requires forall k :: 0 <= k < |FailureText(o)| ==> FailureText(o)[k] != '✅'
    ensures IsFailed(StatusAfter(o))
  {
    var m := FailureText(o);
    var p := "❌ Failed: ";
    var s := p + m;
    assert StatusAfter(o) == s;
    forall k | 0 <= k < |s|
      ensures s[k] != '✅'
    {
      if k >= |p| {
        assert s[k] == m[k - |p|];
      }
    }
    assert s[0] == '❌';
  }

  // ---- A task's own updates ----

  /** The error detail a cell holds after `us`, starting from `prev`: the
      last truthy detail among them, else `prev`. */
  function DetailThrough(prev: Option<string>, us: seq<CellUpdate>): Option<string>
    decreases |us|
  {
    if us == [] then prev
    else if Truthy(us[|us| - 1].errorDetail) then us[|us| - 1].errorDetail
    else DetailThrough(prev, us[..|us| - 1])
  }

  /** The retry record a cell holds after `us`, starting from `prev`. */
  function RetryThrough(prev: Option<RetryInfo>, us: seq<CellUpdate>): Option<RetryInfo>
    decreases |us|
  {
    if us == [] then prev
    else if RetryTruthy(us[|us| - 1].retryInfo) then us[|us| - 1].retryInfo
    else RetryThrough(prev, us[..|us| - 1])
  }

  /** The status a cell holds after `us`, starting from `prev`. */
  function StatusThrough(prev: string, us: seq<CellUpdate>): string {
    if us == [] then prev else us[|us| - 1].status
  }

  /** The timing lines `us` append, in order. */
  function LogThrough(us: seq<CellUpdate>, ts: string): seq<string>
    decreases |us|
  {
    if us == [] then []
    else LogThrough(us[..|us| - 1], ts) + UpdateLog(us[|us| - 1].errorDetail, us[|us| - 1].retryInfo, ts)
  }

  /** A list of updates cut one update further. */
  lemma {:induction false} ThroughNext(us: seq<CellUpdate>, k: nat, e: Option<string>, r: Option<RetryInfo>, s: string, ts: string)
    requires k < |us|
    ensures DetailThrough(e, us[..k + 1]) == if Truthy(us[k].errorDetail) then us[k].errorDetail else DetailThrough(e, us[..k])
    ensures RetryThrough(r, us[..k + 1]) == if RetryTruthy(us[k].retryInfo) then us[k].retryInfo else RetryThrough(r, us[..k])
    ensures StatusThrough(s, us[..k + 1]) == us[k].status
    ensures LogThrough(us[..k + 1], ts) == LogThrough(us[..k], ts) + UpdateLog(us[k].errorDetail, us[k].retryInfo, ts)
  {
    assert us[..k + 1][..k] == us[..k];
  }

  /** The detail after the updates is the last truthy one among them, or
      `prev` when none is truthy. */
  lemma {:induction false} DetailThroughFrom(prev: Option<string>, us: seq<CellUpdate>)
    ensures DetailThrough(prev, us) == if DetailThrough(None, us).None? then prev else DetailThrough(None, us)
    ensures DetailThrough(None, us).Some? ==> Truthy(DetailThrough(None, us))
    decreases |us|
  {
    if us != [] && !Truthy(us[|us| - 1].errorDetail) {
      DetailThroughFrom(prev, us[..|us| - 1]);
    }
  }

  /** Likewise for the retry record. */
  lemma {:induction false} RetryThroughFrom(prev: Option<RetryInfo>, us: seq<CellUpdate>)
    ensures RetryThrough(prev, us) == if RetryThrough(None, us).None? then prev else RetryThrough(None, us)
    decreases |us|
  {
    if us != [] && !RetryTruthy(us[|us| - 1].retryInfo) {
      RetryThroughFrom(prev, us[..|us| - 1]);
    }
  }

  /** The task function's own `update_status` calls on its cell, in order;
      on a cell outside the matrix each of them changes nothing. */
  method ApplyUpdates(tracker: ProgressTracker, model: string, app: string, us: seq<CellUpdate>, ts: string)
    requires tracker.Valid()
    modifies tracker
    ensures tracker.Valid()
    ensures (model, app) in old(tracker.status) ==>
      var c := (model, app);
      && tracker.status == old(tracker.status)[c := StatusThrough(old(tracker.status)[c], us)]
      && tracker.errors == old(tracker.errors)[c := DetailThrough(old(tracker.errors)[c], us)]
      && tracker.retries == old(tracker.retries)[c := RetryThrough(old(tracker.retries)[c], us)]
      && tracker.timing == old(tracker.timing)[c := old(tracker.timing)[c] + LogThrough(us, ts)]
    ensures (model, app) !in old(tracker.status) ==>
      tracker.status == old(tracker.status) && tracker.errors == old(tracker.errors)
      && tracker.retries == old(tracker.retries) && tracker.timing == old(tracker.timing)
    ensures tracker.analysis == old(tracker.analysis)
  {
    var c := (model, app);
    if c !in tracker.status {
      // `update_status` ignores a cell outside the matrix, so every call
      // leaves the tables as they are.
      return;
    }
    ghost var s0, e0, r0, t0 := tracker.status, tracker.errors, tracker.retries, tracker.timing;
    assert us[..0] == [];
    assert t0[c] + [] == t0[c];
    for k := 0 to |us|
      invariant tracker.Valid()
      invariant tracker.status == s0[c := StatusThrough(s0[c], us[..k])]
      invariant tracker.errors == e0[c := DetailThrough(e0[c], us[..k])]
      invariant tracker.retries == r0[c := RetryThrough(r0[c], us[..k])]
      invariant tracker.timing == t0[c := t0[c] + LogThrough(us[..k], ts)]
      invariant tracker.analysis == old(tracker.analysis)
    {
      ApplyOne(tracker, model, app, us, k, ts, s0, e0, r0, t0);
    }
    assert us[..|us|] == us;
  }

  /** Update `k` of the task's own, on tables that hold the updates
      before it. */
  method ApplyOne(tracker: ProgressTracker, model: string, app: string, us: seq<CellUpdate>, k: nat, ts: string,
                  ghost s0: map<Cell, string>, ghost e0: map<Cell, Option<string>>,
                  ghost r0: map<Cell, Option<RetryInfo>>, ghost t0: map<Cell, seq<string>>)
    requires tracker.Valid() && k < |us| && (model, app) in s0 && (model, app) in e0
    requires (model, app) in r0 && (model, app) in t0
    requires tracker.status == s0[(model, app) := StatusThrough(s0[(model, app)], us[..k])]
    requires tracker.errors == e0[(model, app) := DetailThrough(e0[(model, app)], us[..k])]
    requires tracker.retries == r0[(model, app) := RetryThrough(r0[(model, app)], us[..k])]
    requires tracker.timing == t0[(model, app) := t0[(model, app)] + LogThrough(us[..k], ts)]
    modifies tracker
    ensures tracker.Valid()
    ensures tracker.status == s0[(model, app) := StatusThrough(s0[(model, app)], us[..k + 1])]
    ensures tracker.errors == e0[(model, app) := DetailThrough(e0[(model, app)], us[..k + 1])]
    ensures tracker.retries == r0[(model, app) := RetryThrough(r0[(model, app)], us[..k + 1])]
    ensures tracker.timing == t0[(model, app) := t0[(model, app)] + LogThrough(us[..k + 1], ts)]
    ensures tracker.analysis == old(tracker.analysis)
  {
    var c := (model, app);
    ThroughNext(us, k, e0[c], r0[c], s0[c], ts);
    tracker.UpdateStatus(model, app, us[k].status, us[k].errorDetail, us[k].retryInfo, ts);
    Overwrite(s0, c, StatusThrough(s0[c], us[..k]), us[k].status);
    Overwrite(e0, c, DetailThrough(e0[c], us[..k]), us[k].errorDetail);
    Overwrite(r0, c, RetryThrough(r0[c], us[..k]), us[k].retryInfo);
    AppendTwice(t0, c, LogThrough(us[..k], ts), UpdateLog(us[k].errorDetail, us[k].retryInfo, ts));
  }

  /** A second write to a key replaces the first. */
  lemma Overwrite<K, V>(m: map<K, V>, c: K, x: V, y: V)
    ensures m[c := x][c := y] == m[c := y]
  {
  }

  /** `_run_single_task`: mark the cell as starting, run the task (its own
      updates included), then mark it done or failed; an exception becomes
      a failure record, so the method never raises. The final status
      replaces the task's own; the final detail replaces the task's last
      one only when it is truthy. */
  method RunSingleTask(tracker: ProgressTracker, model: string, app: string, run: TaskRun, ts: string)
    returns (result: TaskResult)
    requires tracker.Valid()
    modifies tracker
    ensures tracker.Valid()
    ensures result == ResultOf(run.outcome, model, app)
    ensures (model, app) in old(tracker.status) ==>
      var c := (model, app);
      && tracker.status == old(tracker.status)[c := StatusAfter(run.outcome)]
      && tracker.errors == old(tracker.errors)[c := ErrorThrough(old(tracker.errors)[c], run)]
      && tracker.retries == old(tracker.retries)[c := RetryThrough(old(tracker.retries)[c], run.updates)]
      && tracker.timing == old(tracker.timing)[c := old(tracker.timing)[c] + CellLog(run, ts)]
    ensures (model, app) !in old(tracker.status) ==>
      tracker.status == old(tracker.status) && tracker.errors == old(tracker.errors)
      && tracker.retries == old(tracker.retries) && tracker.timing == old(tracker.timing)
    ensures tracker.analysis == old(tracker.analysis)
  {
    var c := (model, app);
    ghost var s0, e0, r0, t0 := tracker.status, tracker.errors, tracker.retries, tracker.timing;
    tracker.UpdateStatus(model, app, "🚀 Starting...", None, None, ts);
    UpdateLogLength(None, None, ts);
    ApplyUpdates(tracker, model, app, run.updates, ts);
    result := FinishTask(tracker, model, app, run.outcome, ts);
    if c in s0 {
      Overwrite(s0, c, "🚀 Starting...", StatusThrough("🚀 Starting...", run.updates));
      Overwrite(s0, c, StatusThrough("🚀 Starting...", run.updates), StatusAfter(run.outcome));
      Overwrite(e0, c, DetailThrough(e0[c], run.updates), DetailAfter(run.outcome));
      AppendThrice(t0, c, UpdateLog(None, None, ts), LogThrough(run.updates, ts), UpdateLog(DetailAfter(run.outcome), None, ts));
    }
  }

  /** Three appends to one entry of a map of logs, the first of them
      empty, are one append of the other two. */
  lemma AppendThrice<K, T>(m: map<K, seq<T>>, c: K, a: seq<T>, b: seq<T>, d: seq<T>)
    requires c in m && a == []
    ensures var m1 := m[c := m[c] + a];
            var m2 := m1[c := m1[c] + b];
            m2[c := m2[c] + d] == m[c := m[c] + (b + d)]
  {
    assert m[c] + a + b + d == m[c] + (b + d);
  }

  /** The error detail a cell holds after one run of the task from
      `prev`: the final detail when it is truthy, else the task's own
      last truthy detail, else `prev`. */
  function ErrorThrough(prev: Option<string>, run: TaskRun): Option<string> {
    if Truthy(DetailAfter(run.outcome)) then DetailAfter(run.outcome) else DetailThrough(prev, run.updates)
  }

  /** The timing lines one run of the task appends: the task's own, then
      the final update's ERROR line when its detail is truthy. */
  function CellLog(run: TaskRun, ts: string): seq<string> {
    LogThrough(run.updates, ts) + UpdateLog(DetailAfter(run.outcome), None, ts)
  }

  /** The part of `_run_single_task` after the task has run: the cell is
      marked done, or failed with the error as its detail; the retry
      record and the analysis log are left alone. */
  method FinishTask(tracker: ProgressTracker, model: string, app: string, outcome: TaskOutcome, ts: string)
    returns (result: TaskResult)
    requires tracker.Valid()
    modifies tracker
    ensures tracker.Valid()
    ensures result == ResultOf(outcome, model, app)
    ensures (model, app) in old(tracker.status) ==>
      && tracker.status == old(tracker.status)[(model, app) := StatusAfter(outcome)]
      && tracker.errors == (if Truthy(DetailAfter(outcome)) then old(tracker.errors)[(model, app) := DetailAfter(outcome)]
                            else old(tracker.errors))
      && tracker.timing == old(tracker.timing)[(model, app) := old(tracker.timing)[(model, app)] + UpdateLog(DetailAfter(outcome), None, ts)]
    ensures (model, app) !in old(tracker.status) ==>
      tracker.status == old(tracker.status) && tracker.errors == old(tracker.errors) && tracker.timing == old(tracker.timing)
    ensures tracker.retries == old(tracker.retries) && tracker.analysis == old(tracker.analysis)
  {
    match outcome {
      case Returned(r) =>
        if r.Reported? && r.success {
          tracker.UpdateStatus(model, app, "✅ Done", None, None, ts);
        } else {
          var errorMsg := ErrorValue(r);
          tracker.UpdateStatus(model, app, "❌ Failed: " + errorMsg.GetOr("None"), errorMsg, None, ts);
        }
        result := r;
      case Raised(m, tb) =>
        tracker.UpdateStatus(model, app, "❌ Failed: " + m, Some(m + "\n\nFull traceback:\n" + tb), None, ts);
        result := Crashed(m, tb, model, app);
    }
  }

  // ---- The whole run ----

  /** One entry of the summary's `results`. */
  datatype TaskRecord = TaskRecord(model: string, app: string, result: TaskResult)

  /** The records of the scheduled pairs, in scheduling order. */
  function Records(tasks: seq<Cell>, run: Cell -> TaskRun): (r: seq<TaskRecord>)
    ensures |r| == |tasks|
    decreases |tasks|
  {
    if tasks == [] then []
    else
      var c := tasks[|tasks| - 1];
      Records(tasks[..|tasks| - 1], run) + [TaskRecord(c.0, c.1, ResultOf(run(c).outcome, c.0, c.1))]
  }

  /** Record `k` is the result of scheduled pair `k`. */
  lemma {:induction false} RecordsAt(tasks: seq<Cell>, run: Cell -> TaskRun, k: nat)
    requires k < |tasks|
    ensures Records(tasks, run)[k] == TaskRecord(tasks[k].0, tasks[k].1, ResultOf(run(tasks[k]).outcome, tasks[k].0, tasks[k].1))
    decreases |tasks|
  {
    if k < |tasks| - 1 {
      RecordsAt(tasks[..|tasks| - 1], run, k);
    }
  }

  /** How many records report success. */
  function SuccessCount(records: seq<TaskRecord>): (n: nat)
    ensures n <= |records|
    decreases |records|
  {
    if records == [] then 0
    else SuccessCount(records[..|records| - 1]) + (if Succeeded(records[|records| - 1].result) then 1 else 0)
  }

  /** The dictionary `run_parallel_tasks` returns. */
  datatype RunSummary = RunSummary(stage: string, total: nat, successful: nat, failed: nat,
                                   results: seq<TaskRecord>, errors: seq<ErrorRecord>)

  /** The error detail a cell ends with once the tasks in `done` ran on a
      fresh tracker. */
  function ErrorAfter(c: Cell, done: seq<Cell>, run: Cell -> TaskRun): Option<string> {
    if c in done then ErrorThrough(None, run(c)) else None
  }

  /** The retry record a cell ends with once the tasks in `done` ran. */
  function RetryAfter(c: Cell, done: seq<Cell>, run: Cell -> TaskRun): Option<RetryInfo> {
    if c in done then RetryThrough(None, run(c).updates) else None
  }

  /** The status a cell ends with once the tasks in `done` ran. */
  function StatusAfterRun(c: Cell, done: seq<Cell>, run: Cell -> TaskRun): string {
    if c in done then StatusAfter(run(c).outcome) else Waiting
  }

  /** The timing log of a cell once the tasks in `done` ran: one run's
      lines for each time the cell was scheduled. */
  function TimingAfter(c: Cell, done: seq<Cell>, run: Cell -> TaskRun, ts: string): seq<string>
    decreases |done|
  {
    if done == [] then []
    else TimingAfter(c, done[..|done| - 1], run, ts) + (if done[|done| - 1] == c then CellLog(run(c), ts) else [])
  }

  /** The tables of cells `keys` once the tasks in `done` ran on a fresh
      tracker. */
  ghost predicate Tables(status: map<Cell, string>, errors: map<Cell, Option<string>>,
                         retries: map<Cell, Option<RetryInfo>>, timing: map<Cell, seq<string>>,
                         keys: set<Cell>, done: seq<Cell>, run: Cell -> TaskRun, ts: string)
  {
    && status.Keys == keys && errors.Keys == keys && retries.Keys == keys && timing.Keys == keys
    && (forall c :: c in keys ==> status[c] == StatusAfterRun(c, done, run))
    && (forall c :: c in keys ==> errors[c] == ErrorAfter(c, done, run))
    && (forall c :: c in keys ==> retries[c] == RetryAfter(c, done, run))
    && (forall c :: c in keys ==> timing[c] == TimingAfter(c, done, run, ts))
  }

  /** The tracker's tables are those of `Tables`. */
  ghost predicate TablesAfter(tracker: ProgressTracker, keys: set<Cell>, done: seq<Cell>, run: Cell -> TaskRun, ts: string)
    reads tracker
  {
    Tables(tracker.status, tracker.errors, tracker.retries, tracker.timing, keys, done, run, ts)
  }

  /** A second run of a task from the state its first run left ends as
      the first did. */
  lemma RunAgain(c: Cell, done: seq<Cell>, run: Cell -> TaskRun)
    ensures ErrorThrough(ErrorAfter(c, done, run), run(c)) == ErrorThrough(None, run(c))
    ensures RetryThrough(RetryAfter(c, done, run), run(c).updates) == RetryThrough(None, run(c).updates)
  {
    DetailThroughFrom(ErrorAfter(c, done, run), run(c).updates);
    RetryThroughFrom(RetryAfter(c, done, run), run(c).updates);
    if c in done {
      DetailThroughFrom(None, run(c).updates);
      DetailThroughFrom(DetailThrough(None, run(c).updates), run(c).updates);
      RetryThroughFrom(RetryThrough(None, run(c).updates), run(c).updates);
    }
  }

  /** One more scheduled cell. */
  lemma DoneOneMore(c: Cell, d: Cell, done: seq<Cell>, run: Cell -> TaskRun, ts: string)
    ensures c in done + [d] <==> c in done || c == d
    ensures TimingAfter(c, done + [d], run, ts) == TimingAfter(c, done, run, ts) + (if d == c then CellLog(run(c), ts) else [])
  {
    assert (done + [d])[..|done|] == done;
  }

  /** The loop awaiting the tasks: each scheduled pair runs once, in order,
      and its record is collected. */
  method RunAll(tracker: ProgressTracker, tasks: seq<Cell>, run: Cell -> TaskRun, ts: string)
    returns (results: seq<TaskRecord>)
    requires tracker.Valid()
    requires forall k :: 0 <= k < |tasks| ==> tasks[k] in tracker.status
    requires TablesAfter(tracker, tracker.status.Keys, [], run, ts)
    modifies tracker
    ensures tracker.Valid()
    ensures results == Records(tasks, run)
    ensures TablesAfter(tracker, old(tracker.status.Keys), tasks, run, ts)
    ensures tracker.analysis == old(tracker.analysis)
  {
    ghost var keys := tracker.status.Keys;
    results := [];
    for i := 0 to |tasks|
      invariant tracker.Valid()
      invariant results == Records(tasks[..i], run)
      invariant TablesAfter(tracker, keys, tasks[..i], run, ts)
      invariant tracker.analysis == old(tracker.analysis)
    {
      var result := RunNext(tracker, keys, tasks, i, run, ts);
      RecordsNext(tasks, i, run);
      results := results + [TaskRecord(tasks[i].0, tasks[i].1, result)];
    }
    assert tasks[..|tasks|] == tasks;
  }

  /** Task `i` of the loop, on tables in step with the tasks before it. */
  method RunNext(tracker: ProgressTracker, ghost keys: set<Cell>, tasks: seq<Cell>, i: nat, run: Cell -> TaskRun, ts: string)
    returns (result: TaskResult)
    requires tracker.Valid() && i < |tasks| && tasks[i] in keys
    requires TablesAfter(tracker, keys, tasks[..i], run, ts)
    modifies tracker
    ensures tracker.Valid()
    ensures result == ResultOf(run(tasks[i]).outcome, tasks[i].0, tasks[i].1)
    ensures TablesAfter(tracker, keys, tasks[..i + 1], run, ts)
    ensures tracker.analysis == old(tracker.analysis)
  {
    var d := tasks[i];
    ghost var st, er, rt, tm := tracker.status, tracker.errors, tracker.retries, tracker.timing;
    assert (d.0, d.1) == d;
    result := RunSingleTask(tracker, d.0, d.1, run(d), ts);
    RunStep(st, er, rt, tm, keys, tasks[..i], run, d, ts);
    TakeOneMore(tasks, i);
  }

  /** One more record. */
  lemma RecordsNext(tasks: seq<Cell>, i: nat, run: Cell -> TaskRun)
    requires i < |tasks|
    ensures Records(tasks[..i + 1], run)
         == Records(tasks[..i], run) + [TaskRecord(tasks[i].0, tasks[i].1, ResultOf(run(tasks[i]).outcome, tasks[i].0, tasks[i].1))]
  {
    assert tasks[..i + 1][..i] == tasks[..i];
  }

  lemma TakeOneMore<T>(s: seq<T>, i: nat)
    requires i < |s|
    ensures s[..i + 1] == s[..i] + [s[i]]
  {
  }

  /** A fresh tracker's tables are those of no task run. */
  lemma FreshTables(st: map<Cell, string>, er: map<Cell, Option<string>>, rt: map<Cell, Option<RetryInfo>>,
                    tm: map<Cell, seq<string>>, run: Cell -> TaskRun, ts: string)
    requires er.Keys == st.Keys && rt.Keys == st.Keys && tm.Keys == st.Keys
    requires forall c :: c in st ==> st[c] == Waiting && er[c] == None && rt[c] == None && tm[c] == []
    ensures Tables(st, er, rt, tm, st.Keys, [], run, ts)
  {
  }

  /** Running the task of cell `d` on tables in step with `done` leaves
      them in step with `done + [d]`, whether or not `d` ran before. */
  lemma RunStep(st: map<Cell, string>, er: map<Cell, Option<string>>, rt: map<Cell, Option<RetryInfo>>,
                tm: map<Cell, seq<string>>, keys: set<Cell>, done: seq<Cell>, run: Cell -> TaskRun, d: Cell, ts: string)
    requires Tables(st, er, rt, tm, keys, done, run, ts) && d in keys
    ensures Tables(st[d := StatusAfter(run(d).outcome)], er[d := ErrorThrough(er[d], run(d))],
                   rt[d := RetryThrough(rt[d], run(d).updates)], tm[d := tm[d] + CellLog(run(d), ts)],
                   keys, done + [d], run, ts)
  {
    var st', er', rt', tm' := st[d := StatusAfter(run(d).outcome)], er[d := ErrorThrough(er[d], run(d))],
                              rt[d := RetryThrough(rt[d], run(d).updates)], tm[d := tm[d] + CellLog(run(d), ts)];
    RunAgain(d, done, run);
    forall c | c in keys
      ensures st'[c] == StatusAfterRun(c, done + [d], run) && er'[c] == ErrorAfter(c, done + [d], run)
      ensures rt'[c] == RetryAfter(c, done + [d], run) && tm'[c] == TimingAfter(c, done + [d], run, ts)
    {
      DoneOneMore(c, d, done, run, ts);
    }
  }

  /** `run_parallel_tasks`: a fresh tracker, the scheduled tasks run in
      order, their records, the counts and the tracker's error list. */
  method RunParallelTasks(models: seq<string>, apps: seq<string>, valid: Option<seq<Cell>>,
                          run: Cell -> TaskRun, stage: string, ts: string)
    returns (summary: RunSummary, ghost tracker: ProgressTracker)
    ensures summary.stage == stage
    ensures summary.results == Records(Scheduled(CellOrder(models, apps), valid), run)
    ensures summary.total == |summary.results|
    ensures summary.successful == SuccessCount(summary.results)
    ensures summary.failed == summary.total - summary.successful
    ensures tracker.models == models && tracker.apps == apps
    ensures tracker.Valid()
    ensures forall c :: c in tracker.status <==> c.0 in models && c.1 in apps
    ensures forall c :: c in tracker.status ==>
      var done := Scheduled(CellOrder(models, apps), valid);
      && tracker.status[c] == StatusAfterRun(c, done, run)
      && tracker.errors[c] == ErrorAfter(c, done, run)
      && tracker.retries[c] == RetryAfter(c, done, run)
      && tracker.timing[c] == TimingAfter(c, done, run, ts)
      && tracker.analysis[c] == []
    ensures summary.errors == ErrorsOf(CellOrder(models, apps), tracker.errors, tracker.status)
  {
    var t := new ProgressTracker(stage, models, apps);
    tracker := t;
    var tasks := Enumerate(models, apps, valid);
    forall k | 0 <= k < |tasks|
      ensures tasks[k] in t.status
    {
      ScheduledMembers(CellOrder(models, apps), valid, tasks[k]);
      CellOrderMembership(models, apps, tasks[k]);
    }
    FreshTables(t.status, t.errors, t.retries, t.timing, run, ts);
    var results := RunAll(t, tasks, run, ts);
    var errors := t.GetAllErrors();
    var successful := SuccessCount(results);
    summary := RunSummary(stage, |results|, successful, |results| - successful, results, errors);
  }

  /** The run's error list names exactly the scheduled pairs that end with
      a truthy detail, the task's final one or else its own last one, each
      with that detail and its final status. */
  lemma RunErrorsExact(models: seq<string>, apps: seq<string>, valid: Option<seq<Cell>>,
                       run: Cell -> TaskRun, status: map<Cell, string>, errors: map<Cell, Option<string>>,
                       e: ErrorRecord)
    requires forall c :: c in status <==> c.0 in models && c.1 in apps
    requires errors.Keys == status.Keys
    requires forall c :: c in status ==>
      status[c] == StatusAfterRun(c, Scheduled(CellOrder(models, apps), valid), run)
      && errors[c] == ErrorAfter(c, Scheduled(CellOrder(models, apps), valid), run)
    ensures e in ErrorsOf(CellOrder(models, apps), errors, status) <==>
      var r := run((e.model, e.app));
      && (e.model, e.app) in Scheduled(CellOrder(models, apps), valid)
      && Truthy(ErrorThrough(None, r))
      && e.error == ErrorThrough(None, r).value
      && e.status == StatusAfter(r.outcome)
  {
    var c := (e.model, e.app);
    ErrorsOfMembers(CellOrder(models, apps), errors, status, e);
    CellOrderMembership(models, apps, c);
    ScheduledMembers(CellOrder(models, apps), valid, c);
  }

  /** A task that records an error itself and then reports success keeps
      that error: "✅ Done" does not clear it, so the pair is listed. */
  lemma OwnErrorOutlivesSuccess(status: string)
    ensures var r := TaskRun([CellUpdate(status, Some("x"), None)], Returned(Reported(true, NoErrorKey)));
            StatusAfter(r.outcome) == "✅ Done" && ErrorThrough(None, r) == Some("x")
  {
  }

  // ---- Incremental progress ----

  /** An entry of `completed_tasks` in the stage summary file: a bare task
      id, or a record of a success or of a failure. */
  datatype Entry =
    | TaskIdEntry(id: string)
    | SuccessRecord(taskId: string)
    | FailedRecord(taskId: string, error: string, fullError: Option<string>)

  /** The part of a task's data the summary reads: its `error` and
      `full_error` fields. */
  datatype TaskData = TaskData(error: Option<string>, fullError: Option<string>)

  function TaskId(model: string, app: string): string {
    model + "_" + app
  }

  /** The record appended for a task: a failure iff its data has a
      non-empty error. */
  function NewRecord(taskId: string, data: TaskData): (e: Entry)
    ensures e.FailedRecord? <==> Truthy(data.error)
    ensures !e.TaskIdEntry? && e.taskId == taskId
  {
    if Truthy(data.error) then FailedRecord(taskId, data.error.value, data.fullError)
    else SuccessRecord(taskId)
  }

  /** The entry describes the task `taskId`. */
  predicate About(e: Entry, taskId: string) {
    match e
    case TaskIdEntry(id) => id == taskId
    case SuccessRecord(id) => id == taskId
    case FailedRecord(id, _, _) => id == taskId
  }

  /** The old entries kept by `[t for t in completed_tasks if t != task_id]`:
      only a bare id string can equal the id, so records stay. */
  function KeptAsWritten(entries: seq<Entry>, taskId: string): (r: seq<Entry>)
    ensures |r| <= |entries|
    ensures forall e :: e in r <==> e in entries && e != TaskIdEntry(taskId)
    decreases |entries|
  {
    if entries == [] then []
    else
      var e := entries[|entries| - 1];
      KeptAsWritten(entries[..|entries| - 1], taskId) + (if e == TaskIdEntry(taskId) then [] else [e])
  }

  /** The summary update as written. */
  function CompletedAsWritten(entries: seq<Entry>, taskId: string, data: TaskData): seq<Entry> {
    KeptAsWritten(entries, taskId) + [NewRecord(taskId, data)]
  }

  /** The old entries kept once every entry about the task is removed, as
      the removal step intends. */
  function Kept(entries: seq<Entry>, taskId: string): (r: seq<Entry>)
    ensures |r| <= |entries|
    ensures forall k :: 0 <= k < |r| ==> !About(r[k], taskId)
    decreases |entries|
  {
    if entries == [] then []
    else
      var e := entries[|entries| - 1];
      Kept(entries[..|entries| - 1], taskId) + (if About(e, taskId) then [] else [e])
  }

  /** The summary update with the old records of the task removed. */
  function Completed(entries: seq<Entry>, taskId: string, data: TaskData): seq<Entry> {
    Kept(entries, taskId) + [NewRecord(taskId, data)]
  }

  /** As written, saving a task twice leaves two records for it: the
      first save's record is not a bare id, so the filter keeps it. */
  lemma SavedTwiceAsWritten(taskId: string, error: string)
    requires error != ""
    ensures var first := CompletedAsWritten([], taskId, TaskData(Some(error), None));
            var second := CompletedAsWritten(first, taskId, TaskData(None, None));
            second == [FailedRecord(taskId, error, None), SuccessRecord(taskId)]
  {
    var record := FailedRecord(taskId, error, None);
    assert NewRecord(taskId, TaskData(Some(error), None)) == record;
    assert KeptAsWritten([], taskId) == [];
    assert KeptAsWritten([record], taskId) == [record] by {
      assert [record][..0] == [];
    }
    assert CompletedAsWritten([], taskId, TaskData(Some(error), None)) == [record];
    assert NewRecord(taskId, TaskData(None, None)) == SuccessRecord(taskId);
  }

  /** Kept entries are the old ones not about the task, in order. */
  lemma {:induction false} KeptMembers(entries: seq<Entry>, taskId: string, e: Entry)
    ensures e in Kept(entries, taskId) <==> e in entries && !About(e, taskId)
    decreases |entries|
  {
    if entries != [] {
      var front := entries[..|entries| - 1];
      KeptMembers(front, taskId, e);
      assert entries == front + [entries[|entries| - 1]];
    }
  }

  /** After the intended update exactly one entry is about the task (the
      new record, last), and every entry about another task is kept. */
  lemma CompletedOneRecord(entries: seq<Entry>, taskId: string, data: TaskData)
    ensures var r := Completed(entries, taskId, data);
            && r[|r| - 1] == NewRecord(taskId, data)
            && (forall k :: 0 <= k < |r| - 1 ==> !About(r[k], taskId))
            && (forall e :: e in entries && !About(e, taskId) ==> e in r)
  {
    var r := Completed(entries, taskId, data);
    forall e | e in entries && !About(e, taskId)
      ensures e in r
    {
      KeptMembers(entries, taskId, e);
    }
  }

  /** Saving the same data again changes nothing. */
  lemma CompletedIdempotent(entries: seq<Entry>, taskId: string, data: TaskData)
    ensures Completed(Completed(entries, taskId, data), taskId, data) == Completed(entries, taskId, data)
  {
    var kept := Kept(entries, taskId);
    var first := kept + [NewRecord(taskId, data)];
    assert first[..|first| - 1] == kept;
    KeptNothingAbout(kept, taskId);
  }

  /** Entries none of which is about the task are all kept. */
  lemma {:induction false} KeptNothingAbout(entries: seq<Entry>, taskId: string)
    requires forall k :: 0 <= k < |entries| ==> !About(entries[k], taskId)
    ensures Kept(entries, taskId) == entries
    decreases |entries|
  {
    if entries != [] {
      KeptNothingAbout(entries[..|entries| - 1], taskId);
      assert entries == entries[..|entries| - 1] + [entries[|entries| - 1]];
    }
  }

  /** A stage's progress directory: one JSON file per task and the stage
      summary, absent until the first save. */
  class ProgressDir {
    var taskFiles: map<string, TaskData>
    var summary: Option<seq<Entry>>

    constructor ()
      ensures taskFiles == map[] && summary == None
    {
      taskFiles := map[];
      summary := None;
    }

    /** `save_incremental_progress`: write the task's file, then replace
        the task's entries in the summary by its new record. */
    method SaveIncrementalProgress(model: string, app: string, data: TaskData)
      modifies this
      ensures taskFiles == old(taskFiles)[TaskId(model, app) + ".json" := data]
      ensures summary == Some(Completed(old(summary).GetOr([]), TaskId(model, app), data))
    {
      taskFiles := taskFiles[TaskId(model, app) + ".json" := data];
      var entries := summary.GetOr([]);
      var taskId := TaskId(model, app);
      entries := Kept(entries, taskId);
      entries := entries + [NewRecord(taskId, data)];
      summary := Some(entries);
    }
  }
}
