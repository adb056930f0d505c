/** The policy factory and the UI-TARS policy: the Doubao-format history and
    instruction, the extraction of the `Thought:` and `Action:` lines from a
    free-text reply, and the retry loop that asks until a reply parses. */
module UiTarsCua {
  import opened Wrappers
  import opened Text
  import opened Actions
  import opened Retry
  import CuaPrompts

  datatype PolicyKind = OperatorPolicyKind | UiTarsPolicyKind

  /** `create_cua_policy`: which policy serves a model name. */
  function CreatePolicy(modelName: string): (k: PolicyKind)
    ensures k == OperatorPolicyKind <==> modelName == "operator"
    ensures k == UiTarsPolicyKind <==> modelName != "operator"
  {
    if modelName == "operator" then OperatorPolicyKind else UiTarsPolicyKind
  }

  // ---- History and instruction ----

  const HistoryWindow: nat := 5

  const Arrow: string := " -> "

  /** The action part of one Doubao history line. */
  function ActionText(a: ActionRecord): string
    requires a.name == Some("left_click") && a.coordinate.Some? ==> |a.coordinate.value| != 1
  {
    if a.name == Some("left_click") then
      if a.coordinate.Some? && |a.coordinate.value| > 0 then
        "Action: click(point='<point>" + IntToString(a.coordinate.value[0]) + " "
        + IntToString(a.coordinate.value[1]) + "</point>')"
      else ""
    else if a.name == Some("type") then "Action: type(content='" + a.text.GetOr("") + "')"
    else if a.name == Some("scroll") then "Action: scroll(direction='" + ScrollDirection(a) + "')"
    else if a.name == Some("terminate") then "Action: finished(content='" + a.status.GetOr("success") + "')"
    else "Action: " + a.name.GetOr("unknown")
  }

  /** One history line: the action and its result. */
  function Entry(s: Step): (e: string)
    requires s.action.name == Some("left_click") && s.action.coordinate.Some? ==> |s.action.coordinate.value| != 1
    ensures |e| > 0
  {
    ActionText(s.action) + ResultSuffix(Arrow, s.result)
  }

  /** How one step's action reads in the Doubao history: a click shows its
      point, a click without a coordinate shows nothing before the arrow,
      typing shows its text, and a scroll reads "down" exactly for negative
      pixels. */
  lemma EntryRendering(s: Step)
    requires s.action.name == Some("left_click") && s.action.coordinate.Some? ==> |s.action.coordinate.value| != 1
    ensures s.action.name == Some("left_click") && s.action.coordinate.Some? && |s.action.coordinate.value| >= 2 ==>
      StartsWith(Entry(s), "Action: click(point='<point>" + IntToString(s.action.coordinate.value[0]) + " "
                           + IntToString(s.action.coordinate.value[1]) + "</point>')" + Arrow)
    ensures s.action.name == Some("left_click") && (s.action.coordinate.None? || s.action.coordinate.value == []) ==>
      StartsWith(Entry(s), Arrow)
    ensures s.action.name == Some("type") ==>
      StartsWith(Entry(s), "Action: type(content='" + s.action.text.GetOr("") + "')" + Arrow)
    ensures s.action.name == Some("scroll") && s.action.pixels.GetOr(0) < 0 ==>
      StartsWith(Entry(s), "Action: scroll(direction='down')" + Arrow)
    ensures s.action.name == Some("scroll") && s.action.pixels.GetOr(0) >= 0 ==>
      StartsWith(Entry(s), "Action: scroll(direction='up')" + Arrow)
  {
    if s.action.name == Some("left_click") {
      if s.action.coordinate.Some? && |s.action.coordinate.value| >= 2 {
        EntryStarts(s, "Action: click(point='<point>" + IntToString(s.action.coordinate.value[0]) + " "
                       + IntToString(s.action.coordinate.value[1]) + "</point>')");
      } else {
        EntryStarts(s, "");
      }
    } else if s.action.name == Some("type") {
      EntryStarts(s, "Action: type(content='" + s.action.text.GetOr("") + "')");
    } else if s.action.name == Some("scroll") {
      if s.action.pixels.GetOr(0) < 0 {
        EntryStarts(s, "Action: scroll(direction='down')");
      } else {
        EntryStarts(s, "Action: scroll(direction='up')");
      }
    }
  }

  /** A Doubao history line ends in " -> Success" for a successful step and
      in " -> Failed: " and the error, or "unknown error", otherwise. */
  lemma EntryResult(s: Step)
    requires s.action.name == Some("left_click") && s.action.coordinate.Some? ==> |s.action.coordinate.value| != 1
    ensures s.result.success ==> EndsWith(Entry(s), " -> Success\n")
    ensures !s.result.success ==> EndsWith(Entry(s), " -> Failed: " + s.result.error.GetOr("unknown error") + "\n")
  {
    if s.result.success {
      EntryEnds(s, " -> Success\n");
    } else {
      EntryEnds(s, " -> Failed: " + s.result.error.GetOr("unknown error") + "\n");
    }
  }

  /** A line whose action text is `x` starts with `x` and the arrow. */
  lemma EntryStarts(s: Step, x: string)
    requires s.action.name == Some("left_click") && s.action.coordinate.Some? ==> |s.action.coordinate.value| != 1
    requires ActionText(s.action) == x
    ensures StartsWith(Entry(s), x + Arrow)
  {
    var r := ResultSuffix(Arrow, s.result);
    assert r == Arrow + r[|Arrow|..];
    assert Entry(s) == (x + Arrow) + r[|Arrow|..];
    StartsWithAppend(x + Arrow, r[|Arrow|..]);
  }

  /** A line whose result suffix is `y` ends with `y`. */
  lemma EntryEnds(s: Step, y: string)
    requires s.action.name == Some("left_click") && s.action.coordinate.Some? ==> |s.action.coordinate.value| != 1
    requires ResultSuffix(Arrow, s.result) == y
    ensures EndsWith(Entry(s), y)
  {
    assert EndsWith(y, y);
    EndsWithAppend(ActionText(s.action), y, y);
  }

  function Entries(recent: seq<Step>): (r: seq<string>)
    requires ClicksRenderable(recent)
    ensures |r| == |recent|
  {
    seq(|recent|, i requires 0 <= i < |recent| => Entry(recent[i]))
  }

  /** The history text: the last five steps, in order. */
  function History(t: seq<Step>): string
    requires ClicksRenderable(Window(t, HistoryWindow))
  {
    Concat(Entries(Window(t, HistoryWindow)))
  }

  /** The history shows exactly the last five steps, each once and in order,
      and is empty only for an empty trajectory. */
  lemma HistoryShowsRecentSteps(t: seq<Step>, i: nat)
    requires ClicksRenderable(Window(t, HistoryWindow))
    requires |t| - HistoryWindow <= i < |t|
    ensures var recent := Window(t, HistoryWindow);
            var base := |t| - |recent|;
            var e := Entries(recent);
            && e[i - base] == Entry(t[i])
            && OccursAt(History(t), e[i - base], |Concat(e[..i - base])|)
  {
    var recent := Window(t, HistoryWindow);
    var base := |t| - |recent|;
    var e := Entries(recent);
    var j := i - base;
    assert e[j] == Entry(t[i]) by {
      assert recent[j] == t[i];
    }
    assert History(t) == Concat(e);
    ConcatPartAt(e, j);
  }

  lemma HistoryEmptyIff(t: seq<Step>)
    requires ClicksRenderable(Window(t, HistoryWindow))
    ensures History(t) == "" <==> t == []
  {
    var recent := Window(t, HistoryWindow);
    var e := Entries(recent);
    assert forall k :: 0 <= k < |e| ==> e[k] != "" by {
      forall k | 0 <= k < |e| ensures e[k] != "" {
        assert e[k] == Entry(recent[k]);
      }
    }
    ConcatNonEmpty(e);
    assert History(t) == Concat(e);
    assert e == [] <==> t == [] by {
      assert |e| == |recent|;
      assert |recent| == 0 <==> |t| == 0;
    }
  }

  /** The instruction, piece by piece: task, warning, history heading,
      history (or "No previous actions"), step counter. */
  function InstructionParts(task: string, repeatWarning: string, history: string,
                            currentStep: int, maxSteps: int): seq<string> {
    [task + "\n\n",
     repeatWarning,
     "\n\nAction history:\n",
     if history == "" then "No previous actions" else history,
     "\n\n" + CuaPrompts.StepCounter(currentStep, maxSteps)]
  }

  function Instruction(task: string, repeatWarning: string, history: string,
                       currentStep: int, maxSteps: int): string {
    Concat(InstructionParts(task, repeatWarning, history, currentStep, maxSteps))
  }

  /** The instruction starts with the task and then holds the warning, the
      history (or "No previous actions") and "Current step: c/max", in that
      order, the counter ending it. */
  lemma InstructionOrder(task: string, repeatWarning: string, history: string,
                         currentStep: int, maxSteps: int)
    ensures StartsWith(Instruction(task, repeatWarning, history, currentStep, maxSteps), task)
    ensures EndsWith(Instruction(task, repeatWarning, history, currentStep, maxSteps),
                     CuaPrompts.StepCounter(currentStep, maxSteps))
    ensures var shown := if history == "" then "No previous actions" else history;
            exists i, j ::
              (i + |repeatWarning| <= j
              && OccursAt(Instruction(task, repeatWarning, history, currentStep, maxSteps), repeatWarning, i)
              && OccursAt(Instruction(task, repeatWarning, history, currentStep, maxSteps), shown, j))
  {
    var parts := InstructionParts(task, repeatWarning, history, currentStep, maxSteps);
    var p := Concat(parts);
    ConcatEnds(parts);
    assert parts[0][..|task|] == task;
    assert p[..|task|] == parts[0][..|task|];
    var counter := CuaPrompts.StepCounter(currentStep, maxSteps);
    assert parts[4][|parts[4]| - |counter|..] == counter;
    assert p[|p| - |counter|..] == parts[4][|parts[4]| - |counter|..];
    ConcatPartAt(parts, 1);
    ConcatPartAt(parts, 3);
    ConcatOrder(parts, 1, 3);
  }

  /** `_build_computer_use_prompt`: the history is built step by step and
      the instruction is wrapped in the Doubao prompt. */
  method BuildPrompt(task: string, trajectory: seq<Step>, currentStep: int, maxSteps: int)
    returns (p: string)
    requires ClicksRenderable(Window(trajectory, HistoryWindow))
    ensures p == CuaPrompts.DoubaoPrompt(
      Instruction(task, RepeatWarning(Window(trajectory, HistoryWindow)), History(trajectory), currentStep, maxSteps))
  {
    var history := HistoryText(trajectory);
    p := CuaPrompts.DoubaoPrompt(Instruction(task, RepeatWarning(Window(trajectory, HistoryWindow)), history,
                                             currentStep, maxSteps));
  }

  /** The loop of `_build_computer_use_prompt` that writes the history, one
      line per recent step. */
  method HistoryText(trajectory: seq<Step>) returns (history: string)
    requires ClicksRenderable(Window(trajectory, HistoryWindow))
    ensures history == History(trajectory)
  {
    var recent := Window(trajectory, HistoryWindow);
    ghost var e := Entries(recent);
    history := "";
    var i := 0;
    while i < |recent|
      invariant 0 <= i <= |recent|
      invariant history == Concat(e[..i])
    {
      history := history + (ActionText(recent[i].action) + ResultSuffix(Arrow, recent[i].result));
      assert e[i] == Entry(recent[i]);
      ConcatNext(e, i);
      i := i + 1;
    }
    assert e[..i] == e;
  }

  // ---- Thought and action extraction ----

  /** The line, once stripped, starts with `marker`. */
  predicate IsMarked(line: string, marker: string) {
    StartsWith(Strip(line), marker)
  }

  /** The index of the last line that, once stripped, starts with `marker`. */
  function LastMarked(lines: seq<string>, marker: string): (r: Option<nat>)
    ensures r.Some? ==> r.value < |lines| && IsMarked(lines[r.value], marker)
    ensures r.Some? ==> forall m :: r.value < m < |lines| ==> !IsMarked(lines[m], marker)
    ensures r.None? ==> forall k :: 0 <= k < |lines| ==> !IsMarked(lines[k], marker)
    decreases |lines|
  {
    if lines == [] then None
    else if IsMarked(lines[|lines| - 1], marker) then Some(|lines| - 1)
    else LastMarked(lines[..|lines| - 1], marker)
  }

  /** The text of the last marked line after the marker, stripped; empty
      when no line carries the marker. */
  function MarkedText(lines: seq<string>, marker: string): string {
    match LastMarked(lines, marker)
    case Some(k) => Strip(Strip(lines[k])[|marker|..])
    case None => ""
  }

  lemma MarkedTextStep(lines: seq<string>, i: nat, marker: string)
    requires i < |lines|
    ensures MarkedText(lines[..i + 1], marker) ==
      if IsMarked(lines[i], marker) then Strip(Strip(lines[i])[|marker|..])
      else MarkedText(lines[..i], marker)
  {
    assert lines[..i + 1][..i] == lines[..i];
  }

  /** The line loop of `_get_computer_use_action`: every line is stripped and
      a line starting with "Thought:" or "Action:" overwrites that part, so
      each part comes from the last line that carries its marker. */
  method ExtractThoughtAction(content: string) returns (thought: string, action: string)
    ensures thought == MarkedText(Lines(content), "Thought:")
    ensures action == MarkedText(Lines(content), "Action:")
  {
    var lines := Lines(content);
    thought, action := "", "";
    var i := 0;
    while i < |lines|
      invariant 0 <= i <= |lines|
      invariant thought == MarkedText(lines[..i], "Thought:")
      invariant action == MarkedText(lines[..i], "Action:")
    {
      var line := Strip(lines[i]);
      MarkedTextStep(lines, i, "Thought:");
      MarkedTextStep(lines, i, "Action:");
      if StartsWith(line, "Thought:") {
        thought := Strip(line[8..]);
        assert !StartsWith(line, "Action:") by { assert line[0] != 'A'; }
      } else if StartsWith(line, "Action:") {
        action := Strip(line[7..]);
      }
      i := i + 1;
    }
    assert lines[..i] == lines;
  }

  // ---- The retry loop ----

  /** One call to the model: an exception, or the reply text (empty when the
      reply is empty). */
  datatype Reply = Raised(error: string) | Replied(content: string)

  /** The result: the first parsed action and the thought text. */
  datatype Fetched<A> = Fetched(action: A, thought: string)

  /** The reply ends the loop: it is non-empty, has an Action line, and the
      action parser (which may raise) finds at least one action in it. */
  predicate Usable<A>(o: Reply, parse: string -> Result<seq<A>>) {
    o.Replied? && o.content != "" && MarkedText(Lines(o.content), "Action:") != ""
    && parse(o.content).Ok? && |parse(o.content).value| > 0
  }

  /** `_get_computer_use_action` of the UI-TARS policy over the successive
      replies: every failure is retried, without bound. */
  method GetAction<A>(replies: seq<Reply>, parse: string -> Result<seq<A>>)
    returns (r: Outcome<Fetched<A>>, calls: nat)
    ensures calls <= |replies|
    ensures r.Done? ==> (0 < calls && Usable(replies[calls - 1], parse)
      && r.value == Fetched(parse(replies[calls - 1].content).value[0], MarkedText(Lines(replies[calls - 1].content), "Thought:"))
      && forall j :: 0 <= j < calls - 1 ==> !Usable(replies[j], parse))
    ensures r.Pending? ==> calls == |replies| && forall j :: 0 <= j < |replies| ==> !Usable(replies[j], parse)
    ensures !r.GaveUp?
  {
    var attempt := 0;
    while attempt < |replies|
      invariant 0 <= attempt <= |replies|
      invariant forall j :: 0 <= j < attempt ==> !Usable(replies[j], parse)
    {
      var o := replies[attempt];
      attempt := attempt + 1;
      if o.Raised? || o.content == "" {
        continue;
      }
      var thought, action := ExtractThoughtAction(o.content);
      if action == "" {
        continue;
      }
      var parsed := parse(o.content);
      if parsed.Ok? && |parsed.value| > 0 {
        r, calls := Done(Fetched(parsed.value[0], thought)), attempt;
        return;
      }
    }
    r, calls := Pending, attempt;
  }
}
