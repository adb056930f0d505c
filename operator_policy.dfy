/** The Operator computer-use policy: conversion of the vendor's action
    objects into internal actions, the three-step history it shows the
    model, and the continuation state that chooses between the initial and
    the follow-up call of the Responses loop. */
module OperatorCua {
  import opened Wrappers
  import opened Text
  import opened Actions
  import opened Retry
  import CuaPrompts

  /** The browser viewport the tool is told about. */
  const DisplayWidth: int := 1280
  const DisplayHeight: int := 720

  /** The attempt count at which failures stop being retried. */
  const MaxRetries: nat := 5

  /** A vendor action object seen through the attributes the converter reads;
      an attribute the object lacks is `None`. `button` is `None` unless it
      is a string. */
  datatype VendorAction = VendorAction(
    kind: Option<string>,
    button: Option<string>,
    x: Option<int>, y: Option<int>,
    text: Option<string>,
    scrollX: Option<int>, scrollY: Option<int>,
    deltaX: Option<int>, deltaY: Option<int>,
    keys: Option<seq<string>>, key: Option<string>,
    fromX: Option<int>, fromY: Option<int>,
    toX: Option<int>, toY: Option<int>)

  /** The vendor type names the converter accepts. */
  const KeyKinds: set<string> := {"keypress", "key_press", "keydown", "key_down", "keyup", "key_up", "key"}
  const AcceptedKinds: set<string> :=
    {"click", "double_click", "left_double", "right_click", "right_single", "move", "mousemove",
     "pointer_move", "type", "scroll", "wait", "screenshot", "drag"} + KeyKinds

  /** The action's `x`/`y`, each defaulting to 0. */
  function Target(v: VendorAction): Point {
    Point(v.x.GetOr(0), v.y.GetOr(0))
  }

  /** `_convert_openai_action_to_internal`; `Err` is the raised error. */
  function ConvertAction(v: VendorAction): Result<Action> {
    match v.kind
    case None => Err("Operator action missing type")
    case Some(t) =>
      if t == "click" then
        Ok(if v.button.Some? && Lower(v.button.value) == "right" then RightClick(Target(v)) else LeftClick(Target(v)))
      else if t == "double_click" || t == "left_double" then Ok(DoubleClick(Target(v)))
      else if t == "right_click" || t == "right_single" then Ok(RightClick(Target(v)))
      else if t == "move" || t == "mousemove" || t == "pointer_move" then Ok(MouseMove(Target(v)))
      else if t == "type" then Ok(TypeText(v.text.GetOr("")))
      else if t == "scroll" then
        var sx := if v.scrollX.Some? then v.scrollX.value else v.deltaX.GetOr(0);
        var sy := if v.scrollY.Some? then v.scrollY.value else v.deltaY.GetOr(0);
        Ok(Scroll(Point(v.x.GetOr(DisplayWidth / 2), v.y.GetOr(DisplayHeight / 2)), sx, sy))
      else if t in KeyKinds then
        Ok(Key(if v.keys.Some? then v.keys.value
               else if v.key.Some? && v.key.value != "" then [v.key.value] else []))
      else if t == "wait" then Ok(Wait(2))
      else if t == "screenshot" then Ok(Screenshot)
      else if t == "drag" then
        var fx := if v.fromX.Some? then v.fromX else v.x;
        var fy := if v.fromY.Some? then v.fromY else v.y;
        if fx.Some? && fy.Some? && v.toX.Some? && v.toY.Some? then
          Ok(Drag(Point(fx.value, fy.value), Point(v.toX.value, v.toY.value)))
        else if v.toX.Some? && v.toY.Some? then Ok(MouseMove(Point(v.toX.value, v.toY.value)))
        else Err("Operator drag action missing coordinates")
      else Err("Unsupported OpenAI action type: " + t)
  }

  /** A conversion fails exactly for a missing type, a type outside the
      accepted set, or a drag without a target; a failure yields no action. */
  lemma ConvertRejects(v: VendorAction)
    ensures ConvertAction(v).Err? <==>
      v.kind.None? || v.kind.value !in AcceptedKinds
      || (v.kind.value == "drag" && (v.toX.None? || v.toY.None?))
    ensures v.kind.None? ==> ConvertAction(v) == Err("Operator action missing type")
    ensures v.kind.Some? && v.kind.value !in AcceptedKinds ==>
      ConvertAction(v) == Err("Unsupported OpenAI action type: " + v.kind.value)
  {
    if v.kind.Some? {
      if v.kind.value in KeyKinds {
        ConvertKeys(v);
      } else if v.kind.value in AcceptedKinds {
        ConvertAcceptedNonKey(v);
      }
    }
  }

  /** Every accepted type outside the key synonyms converts, except a drag
      without a target. */
  lemma ConvertAcceptedNonKey(v: VendorAction)
    requires v.kind.Some? && v.kind.value in AcceptedKinds - KeyKinds
    ensures ConvertAction(v).Err? <==> v.kind.value == "drag" && (v.toX.None? || v.toY.None?)
  {
  }

  /** A click is a right click iff its button is "right" in any letter case;
      a missing coordinate is 0. */
  lemma ConvertClick(v: VendorAction)
    requires v.kind == Some("click")
    ensures ConvertAction(v).Ok?
    ensures ConvertAction(v).value.RightClick? <==> v.button.Some? && Lower(v.button.value) == "right"
    ensures ConvertAction(v).value.LeftClick? <==> !(v.button.Some? && Lower(v.button.value) == "right")
    ensures ConvertAction(v).value.at == Point(v.x.GetOr(0), v.y.GetOr(0))
  {
  }

  /** A scroll takes `scroll_x`/`scroll_y` when present, else `delta_x`/`delta_y`,
      else 0, anchored at the action point or the viewport centre. */
  lemma ConvertScroll(v: VendorAction)
    requires v.kind == Some("scroll")
    ensures ConvertAction(v).Ok? && ConvertAction(v).value.Scroll?
    ensures ConvertAction(v).value.pixelsX ==
      if v.scrollX.Some? then v.scrollX.value else if v.deltaX.Some? then v.deltaX.value else 0
    ensures ConvertAction(v).value.pixelsY ==
      if v.scrollY.Some? then v.scrollY.value else if v.deltaY.Some? then v.deltaY.value else 0
    ensures ConvertAction(v).value.at == Point(v.x.GetOr(640), v.y.GetOr(360))
    ensures v.x.None? && v.y.None? ==> ConvertAction(v).value.at == Point(640, 360)
  {
  }

  /** Every key-type synonym gives a key action whose list is `keys`, else the
      single non-empty `key`, else empty. */
  lemma ConvertKeys(v: VendorAction)
    requires v.kind.Some? && v.kind.value in KeyKinds
    ensures ConvertAction(v).Ok? && ConvertAction(v).value.Key?
    ensures v.keys.Some? ==> ConvertAction(v).value.keys == v.keys.value
    ensures v.keys.None? && v.key.Some? && v.key.value != "" ==> ConvertAction(v).value.keys == [v.key.value]
    ensures v.keys.None? && (v.key.None? || v.key.value == "") ==> ConvertAction(v).value.keys == []
  {
  }

  /** A drag with all four coordinates (start falling back to `x`/`y`) is a
      drag; with only the target it is a move to the target; otherwise an error. */
  lemma ConvertDrag(v: VendorAction)
    requires v.kind == Some("drag")
    ensures var fx := if v.fromX.Some? then v.fromX else v.x;
            var fy := if v.fromY.Some? then v.fromY else v.y;
            && (fx.Some? && fy.Some? && v.toX.Some? && v.toY.Some? ==>
                 ConvertAction(v) == Ok(Drag(Point(fx.value, fy.value), Point(v.toX.value, v.toY.value))))
            && (!(fx.Some? && fy.Some?) && v.toX.Some? && v.toY.Some? ==>
                 ConvertAction(v) == Ok(MouseMove(Point(v.toX.value, v.toY.value))))
            && (v.toX.None? || v.toY.None? ==> ConvertAction(v) == Err("Operator drag action missing coordinates"))
  {
  }

  // ---- History shown to the model ----

  /** How many recent steps the history shows. */
  const HistoryWindow: nat := 3

  const Arrow: string := " â†’ "

  /** The action part of one history line, for step number `n`. */
  function ActionText(n: int, a: ActionRecord): string
    requires a.name == Some("left_click") && a.coordinate.Some? ==> |a.coordinate.value| != 1
  {
    var step := "Step " + IntToString(n) + ": ";
    if a.name == Some("left_click") then
      if a.coordinate.Some? && |a.coordinate.value| > 0 then
        step + "Clicked at (" + IntToString(a.coordinate.value[0]) + ", " + IntToString(a.coordinate.value[1]) + ")"
      else ""
    else if a.name == Some("type") then step + "Typed '" + a.text.GetOr("") + "'"
    else if a.name == Some("scroll") then step + "Scrolled " + ScrollDirection(a)
    else if a.name == Some("terminate") then step + "Finished (" + a.status.GetOr("success") + ")"
    else step + a.name.GetOr("unknown")
  }

  /** The history entries for the window `recent`, whose first step is step
      `base + 1` of the trajectory. */
  function Entries(recent: seq<Step>, base: int): (r: seq<string>)
    requires ClicksRenderable(recent)
    ensures |r| == |recent|
    ensures forall i :: 0 <= i < |r| ==> r[i] != ""
  {
    seq(|recent|, i requires 0 <= i < |recent| => Entry(base + i + 1, recent[i]))
  }

  /** One history line: the action text and the result, for step number `n`. */
  function Entry(n: int, s: Step): (e: string)
    requires s.action.name == Some("left_click") && s.action.coordinate.Some? ==> |s.action.coordinate.value| != 1
    ensures |e| > 0
  {
    ActionText(n, s.action) + ResultSuffix(Arrow, s.result)
  }

  /** The history text for a trajectory: its last three steps, in order. */
  function History(t: seq<Step>): string
    requires ClicksRenderable(Window(t, HistoryWindow))
  {
    var recent := Window(t, HistoryWindow);
    Concat(Entries(recent, |t| - |recent|))
  }

  /** The loop of `build_prompt` that writes the history, one line per
      recent step. */
  method HistoryText(trajectory: seq<Step>) returns (history: string)
    requires ClicksRenderable(Window(trajectory, HistoryWindow))
    ensures history == History(trajectory)
  {
    var recent := Window(trajectory, HistoryWindow);
    var base := |trajectory| - |recent|;
    ghost var e := Entries(recent, base);
    history := "";
    var i := 0;
    while i < |recent|
      invariant 0 <= i <= |recent|
      invariant history == Concat(e[..i])
    {
      history := history + (ActionText(base + i + 1, recent[i].action) + ResultSuffix(Arrow, recent[i].result));
      HistoryEntryOfStep(trajectory, i);
      ConcatNext(e, i);
      i := i + 1;
    }
    assert e[..i] == e;
  }

  /** Entry `j` of the history is that of step `base + j` of the
      trajectory, the `j`-th of its last three, numbered `base + j + 1`: by
      its position in the whole trajectory. */
  lemma HistoryEntryOfStep(t: seq<Step>, j: nat)
    requires ClicksRenderable(Window(t, HistoryWindow))
    requires j < |Window(t, HistoryWindow)|
    ensures var recent := Window(t, HistoryWindow);
            var base := |t| - |recent|;
            && recent[j] == t[base + j]
            && Entries(recent, base)[j] == Entry(base + j + 1, recent[j])
  {
  }

  /** The history shows the entries of the last three steps, each once and
      in order: entry `j` sits right after the entries before it. */
  lemma HistoryShowsRecentSteps(t: seq<Step>, i: nat)
    requires ClicksRenderable(Window(t, HistoryWindow))
    requires |t| - HistoryWindow <= i < |t|
    ensures var recent := Window(t, HistoryWindow);
            var base := |t| - |recent|;
            var e := Entries(recent, base);
            OccursAt(History(t), e[i - base], |Concat(e[..i - base])|)
  {
    var recent := Window(t, HistoryWindow);
    var base := |t| - |recent|;
    ConcatPartAt(Entries(recent, base), i - base);
  }

  /** "No previous actions" is shown exactly when the trajectory is empty:
      every entry carries at least its result. */
  lemma HistoryEmptyIff(t: seq<Step>)
    requires ClicksRenderable(Window(t, HistoryWindow))
    ensures History(t) == "" <==> t == []
  {
    var recent := Window(t, HistoryWindow);
    var e := Entries(recent, |t| - |recent|);
    ConcatNonEmpty(e);
  }

  /** A step's result reads "Success" exactly when the step succeeded. */
  lemma ResultSuffixSuccessIff(arrow: string, r: StepResult)
    ensures ResultSuffix(arrow, r) == arrow + "Success\n" <==> r.success
  {
    if !r.success {
      var s := ResultSuffix(arrow, r);
      assert s[|arrow|] == 'F';
      assert (arrow + "Success\n")[|arrow|] == 'S';
    }
  }

  /** A converted scroll is stored without a `pixels` key, so the history
      always reports it as scrolling up, whatever its direction. */
  lemma ConvertedScrollReadsUp(v: VendorAction, n: int)
    requires ConvertAction(v).Ok? && ConvertAction(v).value.Scroll?
    ensures ActionText(n, Record(ConvertAction(v).value)) == "Step " + IntToString(n) + ": Scrolled up"
  {
  }

  // ---- The Responses loop ----

  datatype ComputerCall = ComputerCall(callId: Option<string>, action: VendorAction)

  /** What one call to the Operator API gives: nothing, an exception, or a
      response with its id, its `computer_call` items and its reasoning text. */
  datatype Reply =
    | EmptyReply
    | CallRaised(error: string)
    | Response(id: Option<string>, calls: seq<ComputerCall>, reasoning: string)

  /** The request a call makes: the initial call with the prompt, or the
      follow-up call carrying the previous response and call ids. */
  datatype Request = Initial | FollowUp(previousResponseId: string, callId: Option<string>)

  datatype Fetched = Fetched(action: Action, thought: string)

  /** A reply that yields an action. */
  predicate Usable(o: Reply) {
    o.Response? && |o.calls| > 0 && ConvertAction(o.calls[0].action).Ok?
  }

  /** The loop ends at the reply of attempt number `attempt`. An empty reply
      never ends it; any other failure ends it from the fifth attempt on. */
  predicate StopsAt(o: Reply, attempt: nat) {
    Usable(o) || (!o.EmptyReply? && attempt >= MaxRetries)
  }

  /** What the loop returns or raises when it ends at reply `o`. */
  function Verdict(o: Reply): Outcome<Fetched> {
    if Usable(o) then Done(Fetched(ConvertAction(o.calls[0].action).value, o.reasoning))
    else match o
      case CallRaised(e) => GaveUp(e)
      case Response(_, calls, _) =>
        if |calls| > 0 then GaveUp(ConvertAction(calls[0].action).error)
        else GaveUp("Operator returned no computer_call after retries")
      case EmptyReply => Pending
  }

  /** Whether the loop ends at the reply with index `j`. */
  function Stopper(replies: seq<Reply>): nat -> bool {
    (j: nat) => j < |replies| && StopsAt(replies[j], j + 1)
  }

  /** The result of the loop over the replies `replies`, with the number of
      calls made. */
  function Fetch(replies: seq<Reply>): (Outcome<Fetched>, nat) {
    match FirstWhere(Stopper(replies), 0, |replies|)
    case Some(j) => (Verdict(replies[j]), j + 1)
    case None => (Pending, |replies|)
  }

  /** Empty replies are retried without limit: after any number of them, a
      usable reply still yields its action. */
  lemma EmptyRepliesAreUnbounded(k: nat, o: Reply)
    requires Usable(o)
    ensures Fetch(seq(k, _ => EmptyReply) + [o]) == (Verdict(o), k + 1)
    ensures Verdict(o).Done?
  {
    var rs := seq(k, _ => EmptyReply) + [o];
    FirstWhereIs(Stopper(rs), |rs|, k);
  }

  /** Five failures that are not empty replies end the loop with an error
      after exactly five calls, whatever would have followed. */
  lemma GivesUpAfterFiveFailures(replies: seq<Reply>)
    requires |replies| >= MaxRetries
    requires forall j :: 0 <= j < MaxRetries ==> !replies[j].EmptyReply? && !Usable(replies[j])
    ensures Fetch(replies).0.GaveUp? && Fetch(replies).1 == MaxRetries
  {
    FirstWhereIs(Stopper(replies), |replies|, MaxRetries - 1);
  }

  /** A failure before the fifth attempt is retried: it never ends the loop. */
  lemma EarlyFailureRetried(replies: seq<Reply>)
    requires |replies| >= 1 && !Usable(replies[0])
    ensures Fetch(replies).1 >= 2 || Fetch(replies).0.Pending?
  {
  }

  /** Whatever the replies, an action is returned only from the first usable
      reply, and an error is raised only at or after the fifth attempt. */
  lemma FetchOutcomes(replies: seq<Reply>)
    ensures var (r, n) := Fetch(replies);
            && n <= |replies|
            && (r.Done? ==> Usable(replies[n - 1]) && r.value.action == ConvertAction(replies[n - 1].calls[0].action).value)
            && (r.Done? ==> forall j :: 0 <= j < n - 1 ==> !Usable(replies[j]))
            && (r.GaveUp? ==> n >= MaxRetries && !replies[n - 1].EmptyReply?)
            && (r.Pending? ==> n == |replies|)
  {
    var (r, n) := Fetch(replies);
    if r.Done? {
      forall j | 0 <= j < n - 1
        ensures !Usable(replies[j])
      {
        assert !Stopper(replies)(j);
      }
    }
  }

  /** A continuation id counts as set when it is present and non-empty. */
  predicate IsSet(id: Option<string>) {
    id.Some? && id.value != ""
  }

  class OperatorPolicy {
    var lastResponseId: Option<string>
    var lastCallId: Option<string>
    const maxSteps: int

    constructor (maxSteps: int)
      ensures this.maxSteps == maxSteps
      ensures lastResponseId == None && lastCallId == None
    {
      this.maxSteps := maxSteps;
      lastResponseId := None;
      lastCallId := None;
    }

    /** `execute_task`: the continuation state is cleared before every task. */
    method StartTask()
      modifies this
      ensures lastResponseId == None && lastCallId == None
    {
      lastResponseId := None;
      lastCallId := None;
    }

    /** `_build_computer_use_prompt`: the history is built step by step. */
    method BuildPrompt(task: string, trajectory: seq<Step>, currentStep: int) returns (p: string)
      requires ClicksRenderable(Window(trajectory, HistoryWindow))
      ensures p == CuaPrompts.OperatorPrompt(task, RepeatWarning(Window(trajectory, HistoryWindow)),
                     if trajectory == [] then "No previous actions" else History(trajectory),
                     currentStep, maxSteps)
    {
      var history := HistoryText(trajectory);
      HistoryEmptyIff(trajectory);
      var warning := RepeatWarning(Window(trajectory, HistoryWindow));
      p := CuaPrompts.OperatorPrompt(task, warning, if history == "" then "No previous actions" else history,
                                     currentStep, maxSteps);
    }

    /** The request the next call will make. */
    function NextRequest(): (q: Request)
      reads this
      ensures q.Initial? <==> !IsSet(lastResponseId)
    {
      if IsSet(lastResponseId) then FollowUp(lastResponseId.value, lastCallId) else Initial
    }

    /** `_get_computer_use_action`: calls until a reply yields an action, or a
        non-empty failure happens at attempt five or later. The continuation
        state changes only when an action is returned, and then only for the
        ids that reply carries. */
    method GetAction(replies: seq<Reply>) returns (r: Outcome<Fetched>, calls: nat, request: Request)
      modifies this
      ensures (r, calls) == Fetch(replies)
      ensures request == old(NextRequest())
      ensures r.Done? && replies[calls - 1].id.Some? ==> lastResponseId == replies[calls - 1].id
      ensures r.Done? && replies[calls - 1].calls[0].callId.Some? ==> lastCallId == replies[calls - 1].calls[0].callId
      ensures !(r.Done? && replies[calls - 1].id.Some?) ==> lastResponseId == old(lastResponseId)
      ensures !(r.Done? && replies[calls - 1].calls[0].callId.Some?) ==> lastCallId == old(lastCallId)
    {
      request := NextRequest();
      ghost var stops := Stopper(replies);
      var attempt := 0;
      while true
        invariant 0 <= attempt <= |replies|
        invariant forall j :: 0 <= j < attempt ==> !stops(j)
        invariant lastResponseId == old(lastResponseId) && lastCallId == old(lastCallId)
        decreases |replies| - attempt
      {
        if attempt == |replies| {
          r, calls := Pending, attempt;
          return;
        }
        var stop;
        stop, r := Examine(replies[attempt], attempt + 1);
        attempt := attempt + 1;
        if stop {
          calls := attempt;
          FirstWhereIs(stops, |replies|, attempt - 1);
          return;
        }
      }
    }

    /** One pass of that loop: whether the reply of attempt number `attempt`
        ends it and, when it does, what is returned or raised. Only a usable
        reply changes the continuation ids, and only those it carries. */
    method Examine(o: Reply, attempt: nat) returns (stop: bool, r: Outcome<Fetched>)
      modifies this
      ensures stop == StopsAt(o, attempt)
      ensures stop ==> r == Verdict(o)
      ensures Usable(o) && o.id.Some? ==> lastResponseId == o.id
      ensures Usable(o) && o.calls[0].callId.Some? ==> lastCallId == o.calls[0].callId
      ensures !(Usable(o) && o.id.Some?) ==> lastResponseId == old(lastResponseId)
      ensures !(Usable(o) && o.calls[0].callId.Some?) ==> lastCallId == old(lastCallId)
    {
      stop, r := false, Pending;
      match o {
        case EmptyReply =>
        case CallRaised(e) =>
          if attempt >= MaxRetries {
            stop, r := true, GaveUp(e);
          }
        case Response(id, cs, reasoning) =>
          if |cs| > 0 {
            var converted := ConvertAction(cs[0].action);
            if converted.Ok? {
              if id.Some? {
                lastResponseId := id;
              }
              if cs[0].callId.Some? {
                lastCallId := cs[0].callId;
              }
              stop, r := true, Done(Fetched(converted.value, reasoning));
            } else if attempt >= MaxRetries {
              stop, r := true, GaveUp(converted.error);
            }
          } else if attempt >= MaxRetries {
            stop, r := true, GaveUp("Operator returned no computer_call after retries");
          }
      }
    }
  }
}
