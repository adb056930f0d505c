/** The commenter's shared machinery: the idle-browser pool, the screenshot
    helper that always hands its browser back, the model-name mapping and
    the retry loop of `analyze_single_failure`.

    The pool is run one call at a time: the lock that guards it and the
    5-slot creation semaphore only order concurrent callers. The semaphore
    is held while a browser is being started and released before it is
    handed out, so it limits concurrent start-ups, not live browsers. */
module Commenter {
  import opened Wrappers
  import opened Text
  import opened Retry
  import opened ModelClient

  /** A browser session, named by the order in which the pool started it. */
  datatype Browser = Browser(id: nat)

  /** Most browsers the idle list keeps. */
  const PoolCapacity: nat := 3

  class BrowserPool {
    /** The idle browsers; the most recently returned one is last. */
    var idle: seq<Browser>
    /** How many browsers have been started. */
    var started: nat
    /** The browsers closed because the idle list was full, in order. */
    var closed: seq<Browser>

    predicate Valid()
      reads this
    {
      |idle| <= PoolCapacity
      && (forall k :: 0 <= k < |idle| ==> idle[k].id < started)
      && (forall i, j :: 0 <= i < j < |idle| ==> idle[i] != idle[j])
    }

    constructor ()
      ensures Valid() && idle == [] && started == 0 && closed == []
    {
      idle := [];
      started := 0;
      closed := [];
    }

    /** `_get_browser_from_pool`: pop the most recently returned idle
        browser, or start a new one when none is idle. */
    method Acquire() returns (b: Browser)
      requires Valid()
      modifies this
      ensures Valid()
      ensures old(idle) != [] ==>
        b == old(idle)[|old(idle)| - 1] && idle == old(idle)[..|old(idle)| - 1] && started == old(started)
      ensures old(idle) == [] ==> b == Browser(old(started)) && idle == [] && started == old(started) + 1
      ensures b.id < started && b !in idle
      ensures closed == old(closed)
    {
      if idle != [] {
        b := idle[|idle| - 1];
        idle := idle[..|idle| - 1];
        return;
      }
      b := Browser(started);
      started := started + 1;
    }

    /** `_return_browser_to_pool`: keep the browser when fewer than three
        are idle, otherwise close it; an error from closing is swallowed,
        so returning never fails. */
    method Release(b: Browser)
      requires Valid() && b.id < started && b !in idle
      modifies this
      ensures Valid()
      ensures |old(idle)| < PoolCapacity ==> idle == old(idle) + [b] && closed == old(closed)
      ensures |old(idle)| >= PoolCapacity ==> idle == old(idle) && closed == old(closed) + [b]
      ensures started == old(started)
    {
      if |idle| < PoolCapacity {
        idle := idle + [b];
      } else {
        closed := closed + [b];
      }
    }

    /** `_capture_version_screenshot`: whatever the page work gives (a
        screenshot and page size, or an exception), the browser goes back
        to the pool. With an idle browser at hand the pool ends as it began;
        otherwise the new browser is the only idle one. */
    method CaptureScreenshot(work: Result<(string, (int, int))>) returns (r: Result<(string, (int, int))>, b: Browser)
      requires Valid()
      modifies this
      ensures Valid()
      ensures r == work
      ensures b in idle
      ensures old(idle) != [] ==> idle == old(idle) && started == old(started)
      ensures old(idle) == [] ==> idle == [Browser(old(started))] && started == old(started) + 1
      ensures closed == old(closed)
    {
      b := Acquire();
      r := work;
      Release(b);
      assert idle[|idle| - 1] == b;
      if old(idle) != [] {
        assert old(idle) == old(idle)[..|old(idle)| - 1] + [b];
      }
    }
  }

  /** `_get_actual_model_name`: "qwen" names the hosted Qwen VL model; any
      other name is used as it is. */
  function ActualModelName(name: string): (r: string)
    ensures name == "qwen" ==> r == "qwen2.5-vl-72b"
    ensures name != "qwen" ==> r == name
  {
    if name == "qwen" then "qwen2.5-vl-72b" else name
  }

  /** Mapping a mapped name again changes nothing. */
  lemma ActualModelNameIdempotent(name: string)
    ensures ActualModelName(ActualModelName(name)) == ActualModelName(name)
    ensures ActualModelName(name) != "qwen"
  {
  }

  // ---- analyze_single_failure ----

  const CommenterAttempts: nat := 5

  /** A reply long enough to be an analysis once stripped. */
  predicate Substantial(reply: string) {
    |Strip(reply)| > 30
  }

  /** The loop ends at attempt index `j`: a substantial reply, or the last
      attempt. */
  function AnalysisStopper(outcomes: seq<Attempt<string>>): nat -> bool {
    (j: nat) => Stops(outcomes, j)
  }

  predicate Stops(outcomes: seq<Attempt<string>>, j: nat) {
    j < |outcomes| && ((outcomes[j].Returned? && Substantial(outcomes[j].value)) || j == CommenterAttempts - 1)
  }

  /** What the loop returns when it ends at attempt `o`. */
  function AnalysisVerdict(o: Attempt<string>): string {
    match o
    case Returned(reply) =>
      if Substantial(reply) then Strip(reply) else "Unable to analyze failure - no valid response received"
    case Raised(e) => "Failed to analyze failure after 5 attempts: " + e
  }

  /** The analysis `analyze_single_failure` returns, with the number of
      commenter calls made; `Pending` when the outcomes run out. */
  function AnalysisResult(storyboardExists: bool, inputs: Result<()>, outcomes: seq<Attempt<string>>): (Outcome<string>, nat) {
    if !storyboardExists then (Done("Storyboard image not found - cannot analyze failure"), 0 as nat)
    else if inputs.Err? then (Done("Error analyzing failure trajectory: " + inputs.error), 0 as nat)
    else
      match FirstWhere(AnalysisStopper(outcomes), 0, |outcomes|)
      case Some(j) => (Done(AnalysisVerdict(outcomes[j])), j + 1)
      case None => (Pending, |outcomes|)
  }

  /** How many of the outcomes are exceptions. */
  function RaisedCount(outcomes: seq<Attempt<string>>): (n: nat)
    ensures n <= |outcomes|
    decreases |outcomes|
  {
    if outcomes == [] then 0
    else RaisedCount(outcomes[..|outcomes| - 1]) + (if outcomes[|outcomes| - 1].Raised? then 1 else 0)
  }

  /** The loop ends at attempt `j` when `j` is the first stopping attempt. */
  lemma EndsAt(storyboardExists: bool, inputs: Result<()>, outcomes: seq<Attempt<string>>, j: nat)
    requires storyboardExists && inputs.Ok?
    requires Stops(outcomes, j)
    requires forall i :: 0 <= i < j ==> !Stops(outcomes, i)
    ensures AnalysisResult(storyboardExists, inputs, outcomes) == (Done(AnalysisVerdict(outcomes[j])), j + 1)
  {
    FirstWhereIs(AnalysisStopper(outcomes), |outcomes|, j);
  }

  lemma RaisedCountStep(outcomes: seq<Attempt<string>>, k: nat)
    requires k < |outcomes|
    ensures RaisedCount(outcomes[..k + 1]) == RaisedCount(outcomes[..k]) + (if outcomes[k].Raised? then 1 else 0)
  {
    assert outcomes[..k + 1][..k] == outcomes[..k];
  }

  /** `analyze_single_failure`: `inputs` is the outcome of taking the
      website screenshot and preparing the prompt; the replies of the
      commenter calls are `outcomes`. A short reply is retried at once; an
      exception is retried after one second, except on the fifth attempt,
      whose exception is reported. The method never raises. */
  method AnalyzeSingleFailure(storyboardExists: bool, inputs: Result<()>, outcomes: seq<Attempt<string>>)
    returns (r: Outcome<string>, calls: nat, sleeps: nat)
    ensures (r, calls) == AnalysisResult(storyboardExists, inputs, outcomes)
    ensures calls <= |outcomes|
    ensures sleeps == RaisedCount(outcomes[..calls]) - (if calls == CommenterAttempts && outcomes[calls - 1].Raised? then 1 else 0)
  {
    if !storyboardExists {
      return Done("Storyboard image not found - cannot analyze failure"), 0, 0;
    }
    if inputs.Err? {
      return Done("Error analyzing failure trajectory: " + inputs.error), 0, 0;
    }
    sleeps := 0;
    for attempt := 0 to CommenterAttempts
      invariant attempt < CommenterAttempts && attempt <= |outcomes|
      invariant forall j :: 0 <= j < attempt ==> !Stops(outcomes, j)
      invariant sleeps == RaisedCount(outcomes[..attempt])
    {
      if attempt == |outcomes| {
        r, calls := Pending, attempt;
        return;
      }
      RaisedCountStep(outcomes, attempt);
      match outcomes[attempt] {
        case Returned(reply) =>
          if reply != "" && Substantial(reply) {
            EndsAt(storyboardExists, inputs, outcomes, attempt);
            r, calls := Done(Strip(reply)), attempt + 1;
            return;
          }
          if attempt == CommenterAttempts - 1 {
            EndsAt(storyboardExists, inputs, outcomes, attempt);
            r, calls := Done("Unable to analyze failure - no valid response received"), attempt + 1;
            return;
          }
        case Raised(e) =>
          if attempt == CommenterAttempts - 1 {
            EndsAt(storyboardExists, inputs, outcomes, attempt);
            r, calls := Done("Failed to analyze failure after 5 attempts: " + e), attempt + 1;
            return;
          }
          sleeps := sleeps + 1;
      }
    }
    assert false;
  }

  /** At most five commenter calls, none without a storyboard; the method
      never raises, and with five outcomes it has an answer. */
  lemma AnalysisBounds(storyboardExists: bool, inputs: Result<()>, outcomes: seq<Attempt<string>>)
    ensures AnalysisResult(storyboardExists, inputs, outcomes).1 <= CommenterAttempts
    ensures !storyboardExists ==> AnalysisResult(storyboardExists, inputs, outcomes).1 == 0
    ensures !AnalysisResult(storyboardExists, inputs, outcomes).0.GaveUp?
    ensures |outcomes| >= CommenterAttempts ==> AnalysisResult(storyboardExists, inputs, outcomes).0.Done?
  {
    if |outcomes| >= CommenterAttempts {
      assert AnalysisStopper(outcomes)(CommenterAttempts - 1);
    }
  }

  /** The first substantial reply within five calls is the answer,
      stripped. */
  lemma FirstSubstantialReplyWins(inputs: Result<()>, outcomes: seq<Attempt<string>>, k: nat)
    requires inputs.Ok? && k < |outcomes| && k < CommenterAttempts
    requires outcomes[k].Returned? && Substantial(outcomes[k].value)
    requires forall j :: 0 <= j < k ==> !(outcomes[j].Returned? && Substantial(outcomes[j].value))
    ensures AnalysisResult(true, inputs, outcomes) == (Done(Strip(outcomes[k].value)), k + 1)
  {
    FirstWhereIs(AnalysisStopper(outcomes), |outcomes|, k);
  }

  /** Five calls without a substantial reply: the fifth decides the
      message, an exception's text or the "no valid response" notice. */
  lemma NoSubstantialReply(inputs: Result<()>, outcomes: seq<Attempt<string>>)
    requires inputs.Ok? && |outcomes| >= CommenterAttempts
    requires forall j :: 0 <= j < CommenterAttempts ==> !(outcomes[j].Returned? && Substantial(outcomes[j].value))
    ensures outcomes[4].Raised? ==>
      AnalysisResult(true, inputs, outcomes) == (Done("Failed to analyze failure after 5 attempts: " + outcomes[4].error), 5)
    ensures outcomes[4].Returned? ==>
      AnalysisResult(true, inputs, outcomes) == (Done("Unable to analyze failure - no valid response received"), 5)
  {
    FirstWhereIs(AnalysisStopper(outcomes), |outcomes|, CommenterAttempts - 1);
  }
}
