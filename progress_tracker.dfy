/** The terminal progress tracker: one status, error, retry record, timing
    log and analysis log per (model, app) cell, the updates the workers
    make to them, and the summaries read from them.

    The display loop, paging and terminal sizing are not modelled; the
    lock only serialises the updates, which are modelled one at a time.
    The clock is the `ts` parameter, already formatted as `%H:%M:%S`. */
module Progress {
  import opened Wrappers
  import opened Text
  import opened Matrix

  /** The status every cell starts with. */
  const Waiting: string := "⏳ Waiting"

  /** Python's truthiness of an optional string argument. */
  predicate Truthy(s: Option<string>) {
    s.Some? && s.value != ""
  }

  /** One attempt of a list-shaped retry record: its number as shown (the
      default '?' is the caller's), whether it succeeded, and the optional
      generation time and HTML length, already formatted. */
  datatype RetryAttempt = RetryAttempt(attempt: string, success: bool, genTime: Option<string>, htmlLen: Option<string>)

  /** The retry record given to `update_status`: a list of attempts, or
      any other value, seen through its `str()` and its truthiness. */
  datatype RetryInfo = RetryList(attempts: seq<RetryAttempt>) | RetryOther(text: string, truthy: bool)

  predicate RetryTruthy(r: Option<RetryInfo>) {
    r.Some? && (match r.value
                case RetryList(attempts) => attempts != []
                case RetryOther(_, truthy) => truthy)
  }

  /** Shortening for the timing log: at most 150 characters, a longer text
      cut to 147 and marked with "...". */
  function Shorten(s: string): string {
    if |s| <= 150 then s else s[..147] + "..."
  }

  lemma ShortenBounds(s: string)
    ensures |Shorten(s)| <= 150
    ensures Shorten(s) == s <==> |s| <= 150
    ensures StartsWith(s, Shorten(s)) || StartsWith(Shorten(s), s[..147])
  {
  }

  /** Truncation for the analysis log: the first 200 characters and "..."
      when the text is longer. */
  function TruncateAnalysis(s: string): string {
    if |s| > 200 then Prefix(s, 200) + "..." else s
  }

  lemma TruncateAnalysisBounds(s: string)
    ensures |TruncateAnalysis(s)| <= 203
    ensures |s| <= 200 ==> TruncateAnalysis(s) == s
    ensures |s| > 200 ==> TruncateAnalysis(s)[..200] == s[..200] && EndsWith(TruncateAnalysis(s), "...")
  {
  }

  /** The text of one attempt: "Attempt n", then the time and the length
      when they are known. */
  function AttemptSummary(at: RetryAttempt): string {
    Join(" ", ["Attempt " + at.attempt]
              + (if at.genTime.Some? then [at.genTime.value + "s"] else [])
              + (if at.htmlLen.Some? then [at.htmlLen.value + " chars"] else []))
  }

  /** The timing line of one attempt. */
  function RetryLine(at: RetryAttempt, ts: string): string {
    "[" + ts + "] RETRY " + (if at.success then "✅" else "❌") + ": " + AttemptSummary(at)
  }

  /** The timing lines of a list of attempts, in order. */
  function RetryLines(attempts: seq<RetryAttempt>, ts: string): (r: seq<string>)
    ensures |r| == |attempts|
    decreases |attempts|
  {
    if attempts == [] then []
    else RetryLines(attempts[..|attempts| - 1], ts) + [RetryLine(attempts[|attempts| - 1], ts)]
  }

  /** Attempt `k` is logged on line `k`, with the icon of its outcome. */
  lemma {:induction false} RetryLinesAt(attempts: seq<RetryAttempt>, ts: string, k: nat)
    requires k < |attempts|
    ensures RetryLines(attempts, ts)[k] == RetryLine(attempts[k], ts)
    decreases |attempts|
  {
    if k < |attempts| - 1 {
      RetryLinesAt(attempts[..|attempts| - 1], ts, k);
    }
  }

  /** The line the error detail adds to the timing log. */
  function ErrorLine(detail: string, ts: string): string {
    "[" + ts + "] ERROR: " + Shorten(detail)
  }

  /** The timing lines of a retry record. */
  function RetryLog(info: RetryInfo, ts: string): seq<string> {
    match info
    case RetryList(attempts) => RetryLines(attempts, ts)
    case RetryOther(text, _) => ["[" + ts + "] RETRY: " + Shorten(text)]
  }

  /** Everything one `update_status` call appends to the cell's timing log:
      the error line, then the retry lines. */
  function UpdateLog(errorDetail: Option<string>, retryInfo: Option<RetryInfo>, ts: string): seq<string> {
    ErrorLog(errorDetail, ts) + RetryPart(retryInfo, ts)
  }

  /** The error line of an `update_status` call, when it has an error
      detail. */
  function ErrorLog(errorDetail: Option<string>, ts: string): seq<string> {
    if Truthy(errorDetail) then [ErrorLine(errorDetail.value, ts)] else []
  }

  /** The retry lines of an `update_status` call, when it has a retry
      record. */
  function RetryPart(retryInfo: Option<RetryInfo>, ts: string): seq<string> {
    if RetryTruthy(retryInfo) then RetryLog(retryInfo.value, ts) else []
  }

  /** Appending twice to one entry of a map of logs is appending once. */
  lemma AppendTwice<K, T>(m: map<K, seq<T>>, k: K, x: seq<T>, y: seq<T>)
    requires k in m
    ensures m[k := m[k] + x][k := m[k] + x + y] == m[k := m[k] + (x + y)]
  {
    assert m[k] + x + y == m[k] + (x + y);
  }

  /** The log grows by one error line when there is an error detail and by
      one line per listed attempt (or a single line for another record). */
  lemma UpdateLogLength(errorDetail: Option<string>, retryInfo: Option<RetryInfo>, ts: string)
    ensures |UpdateLog(errorDetail, retryInfo, ts)|
         == (if Truthy(errorDetail) then 1 else 0)
          + (if !RetryTruthy(retryInfo) then 0
             else if retryInfo.value.RetryList? then |retryInfo.value.attempts| else 1)
    ensures !Truthy(errorDetail) && !RetryTruthy(retryInfo) ==> UpdateLog(errorDetail, retryInfo, ts) == []
  {
  }

  /** The counts `get_summary` returns. */
  datatype Summary = Summary(total: nat, completed: nat, failed: nat, running: int)

  /** `"✅" in status`: the mark is one character, so the substring test
      is a membership test. */
  predicate IsCompleted(status: string) {
    '✅' in status
  }

  /** A cross and no check mark. */
  predicate IsFailed(status: string) {
    !IsCompleted(status) && '❌' in status
  }

  /** A cell's status; every cell of a tracker has one, so the default
      is never read. */
  function StatusAt(status: map<Cell, string>, c: Cell): string {
    if c in status then status[c] else ""
  }

  /** A cell's error detail, `None` by default like the table's own. */
  function ErrorAt(errors: map<Cell, Option<string>>, c: Cell): Option<string> {
    if c in errors then errors[c] else None
  }

  /** Completed and failed cells among `cells`, counted in order. */
  function Tally(cells: seq<Cell>, status: map<Cell, string>): (r: (nat, nat))
    ensures r.0 + r.1 <= |cells|
    decreases |cells|
  {
    if cells == [] then (0, 0)
    else Bump(Tally(cells[..|cells| - 1], status), StatusAt(status, cells[|cells| - 1]))
  }

  /** Counting one status onto the counts so far. */
  function Bump(counts: (nat, nat), s: string): (nat, nat) {
    if IsCompleted(s) then (counts.0 + 1, counts.1)
    else if IsFailed(s) then (counts.0, counts.1 + 1)
    else counts
  }

  /** Counting one more cell. */
  lemma TallySnoc(cells: seq<Cell>, c: Cell, status: map<Cell, string>)
    ensures Tally(cells + [c], status) == Bump(Tally(cells, status), StatusAt(status, c))
  {
    assert (cells + [c])[..|cells|] == cells;
  }

  /** Counting a row one cell further. */
  lemma TallyNext(done: seq<Cell>, row: seq<Cell>, j: nat, status: map<Cell, string>)
    requires j < |row|
    ensures Tally(done + row[..j + 1], status) == Bump(Tally(done + row[..j], status), StatusAt(status, row[j]))
  {
    assert done + row[..j + 1] == (done + row[..j]) + [row[j]];
    TallySnoc(done + row[..j], row[j], status);
  }

  /** A waiting cell is neither completed nor failed. */
  lemma WaitingNotCounted()
    ensures !IsCompleted(Waiting) && !IsFailed(Waiting)
  {
  }

  /** On a fresh tracker nothing is completed or failed: every cell
      counts as running. */
  lemma {:induction false} TallyAllWaiting(cells: seq<Cell>, status: map<Cell, string>)
    requires forall k :: 0 <= k < |cells| ==> StatusAt(status, cells[k]) == Waiting
    ensures Tally(cells, status) == (0, 0)
    decreases |cells|
  {
    if cells != [] {
      TallyAllWaiting(cells[..|cells| - 1], status);
      WaitingNotCounted();
    }
  }

  /** Counting depends only on the statuses of the counted cells. */
  lemma {:induction false} TallyLocal(cells: seq<Cell>, s1: map<Cell, string>, s2: map<Cell, string>)
    requires forall k :: 0 <= k < |cells| ==> StatusAt(s1, cells[k]) == StatusAt(s2, cells[k])
    ensures Tally(cells, s1) == Tally(cells, s2)
    decreases |cells|
  {
    if cells != [] {
      TallyLocal(cells[..|cells| - 1], s1, s2);
    }
  }

  /** A row of `get_all_errors`. */
  datatype ErrorRecord = ErrorRecord(model: string, app: string, error: string, status: string)

  /** The error records of the cells with an error detail, in order. */
  function ErrorsOf(cells: seq<Cell>, errors: map<Cell, Option<string>>, status: map<Cell, string>): (r: seq<ErrorRecord>)
    ensures |r| <= |cells|
    decreases |cells|
  {
    if cells == [] then []
    else
      var c := cells[|cells| - 1];
      ErrorsOf(cells[..|cells| - 1], errors, status)
      + (if Truthy(ErrorAt(errors, c)) then [ErrorRecord(c.0, c.1, ErrorAt(errors, c).value, StatusAt(status, c))] else [])
  }

  /** Listing one more cell. */
  lemma ErrorsOfSnoc(cells: seq<Cell>, c: Cell, errors: map<Cell, Option<string>>, status: map<Cell, string>)
    ensures ErrorsOf(cells + [c], errors, status)
         == ErrorsOf(cells, errors, status)
            + (if Truthy(ErrorAt(errors, c)) then [ErrorRecord(c.0, c.1, ErrorAt(errors, c).value, StatusAt(status, c))] else [])
  {
    assert (cells + [c])[..|cells|] == cells;
  }

  /** A record is listed exactly when it describes a listed cell with an
      error detail, with that detail and the cell's status. */
  lemma {:induction false} ErrorsOfMembers(cells: seq<Cell>, errors: map<Cell, Option<string>>, status: map<Cell, string>,
                                           e: ErrorRecord)
    ensures e in ErrorsOf(cells, errors, status) <==>
      (e.model, e.app) in cells && Truthy(ErrorAt(errors, (e.model, e.app)))
      && e.error == ErrorAt(errors, (e.model, e.app)).value && e.status == StatusAt(status, (e.model, e.app))
    decreases |cells|
  {
    if cells != [] {
      var front := cells[..|cells| - 1];
      ErrorsOfMembers(front, errors, status, e);
      assert cells == front + [cells[|cells| - 1]];
    }
  }

  class ProgressTracker {
    const stageName: string
    const models: seq<string>
    const apps: seq<string>
    var status: map<Cell, string>
    var errors: map<Cell, Option<string>>
    var retries: map<Cell, Option<RetryInfo>>
    var timing: map<Cell, seq<string>>
    var analysis: map<Cell, seq<string>>

    /** A cell of the matrix. */
    predicate InMatrix(c: Cell) {
      c.0 in models && c.1 in apps
    }

    /** Every cell of the matrix has an entry, and every table has the
        same cells. */
    ghost predicate Valid()
      reads this
    {
      (forall i, j :: 0 <= i < |models| && 0 <= j < |apps| ==> (models[i], apps[j]) in status)
      && errors.Keys == status.Keys && retries.Keys == status.Keys
      && timing.Keys == status.Keys && analysis.Keys == status.Keys
    }

    /** Every cell is waiting, with no error, no retry record and empty
        logs. */
    constructor (stageName: string, models: seq<string>, apps: seq<string>)
      ensures this.stageName == stageName && this.models == models && this.apps == apps
      ensures Valid()
      ensures forall c :: c in status <==> InMatrix(c)
      ensures forall c :: InMatrix(c) ==>
        status[c] == Waiting && errors[c] == None && retries[c] == None && timing[c] == [] && analysis[c] == []
    {
      this.stageName := stageName;
      this.models := models;
      this.apps := apps;
      var cells := set m, a | m in models && a in apps :: (m, a);
      assert forall c: Cell :: c in cells <==> c.0 in models && c.1 in apps by {
        forall c: Cell | c.0 in models && c.1 in apps
          ensures c in cells
        {
          assert c == (c.0, c.1);
        }
      }
      status := map c | c in cells :: Waiting;
      errors := map c | c in cells :: None;
      retries := map c | c in cells :: None;
      timing := map c | c in cells :: [];
      analysis := map c | c in cells :: [];
    }

    /** `update_status`: for a cell of the matrix, set the status; a truthy
        error detail is stored and logged shortened; a truthy retry record
        is stored and logged, one line per attempt when it is a list. A
        cell outside the matrix changes nothing. */
    method UpdateStatus(model: string, app: string, newStatus: string,
                        errorDetail: Option<string>, retryInfo: Option<RetryInfo>, ts: string)
      requires Valid()
      modifies this
      ensures Valid()
      ensures (model, app) !in old(status) ==>
        status == old(status) && errors == old(errors) && retries == old(retries) && timing == old(timing)
      ensures (model, app) in old(status) ==>
        && status == old(status)[(model, app) := newStatus]
        && errors == (if Truthy(errorDetail) then old(errors)[(model, app) := errorDetail] else old(errors))
        && retries == (if RetryTruthy(retryInfo) then old(retries)[(model, app) := retryInfo] else old(retries))
        && timing == old(timing)[(model, app) := old(timing)[(model, app)] + UpdateLog(errorDetail, retryInfo, ts)]
      ensures analysis == old(analysis)
    {
      var cell := (model, app);
      if cell !in status {
        return;
      }
      status := status[cell := newStatus];
      RecordError(cell, errorDetail, ts);
      RecordRetry(cell, retryInfo, ts);
      AppendTwice(old(timing), cell, ErrorLog(errorDetail, ts), RetryPart(retryInfo, ts));
    }

    /** The error part of `update_status`: a truthy detail is stored and
        logged shortened. */
    method RecordError(cell: Cell, errorDetail: Option<string>, ts: string)
      requires cell in errors && cell in retries && cell in timing
      modifies this
      ensures errors.Keys == old(errors.Keys) && retries.Keys == old(retries.Keys) && timing.Keys == old(timing.Keys)
      ensures errors == (if Truthy(errorDetail) then old(errors)[cell := errorDetail] else old(errors))
      ensures timing == old(timing)[cell := old(timing)[cell] + ErrorLog(errorDetail, ts)]
      ensures status == old(status) && retries == old(retries) && analysis == old(analysis)
    {
      if Truthy(errorDetail) {
        errors := errors[cell := errorDetail];
        timing := timing[cell := timing[cell] + [ErrorLine(errorDetail.value, ts)]];
      } else {
        assert timing[cell] + [] == timing[cell];
        assert timing[cell := timing[cell]] == timing;
      }
    }

    /** The retry part of `update_status`: a truthy record is stored and
        logged. */
    method RecordRetry(cell: Cell, retryInfo: Option<RetryInfo>, ts: string)
      requires cell in errors && cell in retries && cell in timing
      modifies this
      ensures errors.Keys == old(errors.Keys) && retries.Keys == old(retries.Keys) && timing.Keys == old(timing.Keys)
      ensures retries == (if RetryTruthy(retryInfo) then old(retries)[cell := retryInfo] else old(retries))
      ensures timing == old(timing)[cell := old(timing)[cell] + RetryPart(retryInfo, ts)]
      ensures status == old(status) && errors == old(errors) && analysis == old(analysis)
    {
      if RetryTruthy(retryInfo) {
        retries := retries[cell := retryInfo];
        AppendRetryLog(cell, retryInfo.value, ts);
      } else {
        assert timing[cell] + [] == timing[cell];
        assert timing[cell := timing[cell]] == timing;
      }
    }

    /** The logging of a retry record in `update_status`. */
    method AppendRetryLog(cell: Cell, info: RetryInfo, ts: string)
      requires cell in timing
      modifies this
      ensures timing == old(timing)[cell := old(timing)[cell] + RetryLog(info, ts)]
      ensures status == old(status) && errors == old(errors) && retries == old(retries) && analysis == old(analysis)
    {
      match info {
        case RetryList(attempts) =>
          AppendRetryLines(cell, attempts, ts);
        case RetryOther(text, _) =>
          timing := timing[cell := timing[cell] + ["[" + ts + "] RETRY: " + Shorten(text)]];
      }
    }

    /** The loop of `update_status` over a list-shaped retry record: one
        timing line per attempt, in order. */
    method AppendRetryLines(cell: Cell, attempts: seq<RetryAttempt>, ts: string)
      requires cell in timing
      modifies this
      ensures timing == old(timing)[cell := old(timing)[cell] + RetryLines(attempts, ts)]
      ensures status == old(status) && errors == old(errors) && retries == old(retries) && analysis == old(analysis)
    {
      ghost var base := timing[cell];
      assert base + RetryLines(attempts[..0], ts) == base;
      for i := 0 to |attempts|
        invariant timing == old(timing)[cell := base + RetryLines(attempts[..i], ts)]
        invariant status == old(status) && errors == old(errors) && retries == old(retries) && analysis == old(analysis)
      {
        assert attempts[..i + 1][..i] == attempts[..i];
        ghost var prev := RetryLines(attempts[..i], ts);
        assert base + RetryLines(attempts[..i + 1], ts) == (base + prev) + [RetryLine(attempts[i], ts)];
        timing := timing[cell := timing[cell] + [RetryLine(attempts[i], ts)]];
      }
      assert attempts[..|attempts|] == attempts;
    }

    /** `add_timing_info`: append the text, stamped, to the cell's timing
        log; nothing for a cell outside the matrix. */
    method AddTimingInfo(model: string, app: string, text: string, ts: string)
      requires Valid()
      modifies this
      ensures Valid()
      ensures (model, app) in old(timing) ==>
        timing == old(timing)[(model, app) := old(timing)[(model, app)] + ["[" + ts + "] " + text]]
      ensures (model, app) !in old(timing) ==> timing == old(timing)
      ensures status == old(status) && errors == old(errors) && retries == old(retries) && analysis == old(analysis)
    {
      var cell := (model, app);
      if cell in timing {
        timing := timing[cell := timing[cell] + ["[" + ts + "] " + text]];
      }
    }

    /** `add_analysis_info`: append the text, truncated and stamped, to the
        cell's analysis log; nothing for a cell outside the matrix. */
    method AddAnalysisInfo(model: string, app: string, text: string, ts: string)
      requires Valid()
      modifies this
      ensures Valid()
      ensures (model, app) in old(analysis) ==>
        analysis == old(analysis)[(model, app) := old(analysis)[(model, app)] + ["[" + ts + "] " + TruncateAnalysis(text)]]
      ensures (model, app) !in old(analysis) ==> analysis == old(analysis)
      ensures status == old(status) && errors == old(errors) && retries == old(retries) && timing == old(timing)
    {
      var cell := (model, app);
      if cell in analysis {
        analysis := analysis[cell := analysis[cell] + ["[" + ts + "] " + TruncateAnalysis(text)]];
      }
    }

    /** `get_summary`: the number of cells, those whose status shows a
        check mark, those that show a cross without one, and the rest. */
    method GetSummary() returns (s: Summary)
      requires Valid()
      ensures s.total == |models| * |apps|
      ensures (s.completed, s.failed) == Tally(CellOrder(models, apps), status)
      ensures s.running == s.total - s.completed - s.failed && s.running >= 0
    {
      var completed, failed := 0, 0;
      for i := 0 to |models|
        invariant (completed, failed) == Tally(CellOrder(models[..i], apps), status)
      {
        VisitRow(models, apps, i);
        completed, failed := TallyRow(i, CellOrder(models[..i], apps), completed, failed);
      }
      assert models[..|models|] == models;
      var total := |models| * |apps|;
      s := Summary(total, completed, failed, total - completed - failed);
    }

    /** The inner loop of `get_summary`: counting the row of model `i`
        onto the counts of the rows before it. */
    method TallyRow(i: nat, ghost done: seq<Cell>, completed0: nat, failed0: nat) returns (completed: nat, failed: nat)
      requires i < |models| && forall j :: 0 <= j < |apps| ==> (models[i], apps[j]) in status
      requires (completed0, failed0) == Tally(done, status)
      ensures (completed, failed) == Tally(done + Row(models[i], apps)[..|apps|], status)
    {
      completed, failed := completed0, failed0;
      ghost var row := Row(models[i], apps);
      assert done + row[..0] == done;
      for j := 0 to |apps|
        invariant (completed, failed) == Tally(done + row[..j], status)
      {
        var cell := (models[i], apps[j]);
        var st := status[cell];
        TallyNext(done, row, j, status);
        // a check mark counts as completed, else a cross as failed
        var counts := Bump((completed, failed), st);
        completed, failed := counts.0, counts.1;
      }
    }

    /** `get_all_errors`: one record per cell with an error detail, in
        iteration order. */
    method GetAllErrors() returns (list: seq<ErrorRecord>)
      requires Valid()
      ensures list == ErrorsOf(CellOrder(models, apps), errors, status)
    {
      list := [];
      for i := 0 to |models|
        invariant list == ErrorsOf(CellOrder(models[..i], apps), errors, status)
      {
        ghost var done := CellOrder(models[..i], apps);
        ghost var row := Row(models[i], apps);
        VisitRow(models, apps, i);
        for j := 0 to |apps|
          invariant list == ErrorsOf(done + row[..j], errors, status)
        {
          var cell := (models[i], apps[j]);
          VisitNext(models, apps, i, j);
          ErrorsOfSnoc(done + row[..j], cell, errors, status);
          var e := errors[cell];
          if e.Some? && e.value != "" {
            list := list + [ErrorRecord(models[i], apps[j], e.value, status[cell])];
          }
        }
      }
      assert models[..|models|] == models;
    }
  }
}
