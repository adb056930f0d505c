/** The prompt templates of the computer-use policies: the Doubao prompt
    wrapped around a UI-TARS instruction, and the Operator instruction. */
module CuaPrompts {
  import opened Text

  /** The Doubao header up to and including the "## Action Space" heading. */
  const DoubaoIntro: string :=
    "You are a GUI agent. You are given a task and your action history, with " +
    "screenshots. You need to perform the next action to complete the task.\n" +
    "\n" +
    "## Output Format\n" +
    "```\n" +
    "Thought: ...\n" +
    "Action: ...\n" +
    "```\n" +
    "\n" +
    "## Action Space\n" +
    "\n"

  /** The verbs the Action Space offers, in order. */
  const ActionVerbs: seq<string> :=
    ["click", "left_double", "right_single", "drag", "hotkey", "type", "scroll", "wait", "finished"]

  /** What follows the verb and its opening parenthesis in each entry. */
  const ActionArguments: seq<string> := [
    @"point='<point>x1 y1</point>')",
    @"point='<point>x1 y1</point>')",
    @"point='<point>x1 y1</point>')",
    @"start_point='<point>x1 y1</point>', end_point='<point>x2 y2</point>')",
    @"key='ctrl c') # Split keys with a space and use lowercase. Also, do not use more than 3 keys in one hotkey action.",
    @"content='xxx') # Use escape characters \\, \\\"", and \\\
 in content part to ensure we can parse the content in normal python string format. If you want to submit your input, use \\\
 at the end of content. ",
    @"point='<point>x1 y1</point>', direction='down or up or right or left') # Show more information on the `direction` side.",
    @") #Sleep for 5s and take a screenshot to check for any changes.",
    @"content='xxx') # Use escape characters \\, \\\"", and \\\
 in content part to ensure we can parse the content in normal python string format."]

  /** The Action Space entries, one per verb, in the order listed. */
  function ActionSpace(): (r: seq<string>)
    ensures |r| == |ActionVerbs|
  {
    [ActionVerbs[0] + "(" + ActionArguments[0],
     ActionVerbs[1] + "(" + ActionArguments[1],
     ActionVerbs[2] + "(" + ActionArguments[2],
     ActionVerbs[3] + "(" + ActionArguments[3],
     ActionVerbs[4] + "(" + ActionArguments[4],
     ActionVerbs[5] + "(" + ActionArguments[5],
     ActionVerbs[6] + "(" + ActionArguments[6],
     ActionVerbs[7] + "(" + ActionArguments[7],
     ActionVerbs[8] + "(" + ActionArguments[8]]
  }

  /** From the end of the Action Space to the instruction heading. */
  const DoubaoNotes: string :=
    "\n" +
    "\n" +
    "\n" +
    "## Note\n" +
    "- Use English in `Thought` part.\n" +
    "- Write a small plan and finally summarize your next action (with its target " +
    "element) in one sentence in `Thought` part.\n" +
    "\n" +
    "## User Instruction\n"

  /** The fixed text that precedes the instruction. */
  function DoubaoHeader(): string {
    HeaderAround(Join("\n", ActionSpace()))
  }

  /** The introduction, a listing of the Action Space, then the notes. */
  function HeaderAround(space: string): string {
    DoubaoIntro + space + DoubaoNotes
  }

  /** `build_doubao_prompt`: the header followed by the instruction. */
  function DoubaoPrompt(instruction: string): string {
    DoubaoHeader() + instruction
  }

  /** The prompt is the fixed header, which ends with the "## User Instruction"
      heading line, followed by the instruction verbatim. */
  lemma DoubaoPromptShape(instruction: string)
    ensures StartsWith(DoubaoPrompt(instruction), DoubaoHeader())
    ensures DoubaoPrompt(instruction)[|DoubaoHeader()|..] == instruction
    ensures EndsWith(DoubaoHeader(), "## User Instruction\n")
  {
    HeaderThenInstruction(Join("\n", ActionSpace()), instruction);
  }

  lemma HeaderThenInstruction(space: string, instruction: string)
    ensures StartsWith(HeaderAround(space) + instruction, HeaderAround(space))
    ensures (HeaderAround(space) + instruction)[|HeaderAround(space)|..] == instruction
    ensures EndsWith(HeaderAround(space), "## User Instruction\n")
  {
    var h := HeaderAround(space);
    StartsWithAppend(h, instruction);
    assert (h + instruction)[|h|..] == instruction;
    NotesEndWithHeading();
    EndsWithAppend(DoubaoIntro + space, DoubaoNotes, "## User Instruction\n");
  }

  lemma NotesEndWithHeading()
    ensures EndsWith(DoubaoNotes, "## User Instruction\n")
  {
    var tail := "## User Instruction\n";
    assert DoubaoNotes[|DoubaoNotes| - |tail|..] == tail;
  }

  /** The Action Space lists exactly the nine verbs, each entry opening with
      its verb and a parenthesis. */
  lemma ActionSpaceVerbs()
    ensures |ActionSpace()| == |ActionVerbs| == 9
    ensures forall k :: 0 <= k < 9 ==> StartsWith(ActionSpace()[k], ActionVerbs[k] + "(")
  {
    forall k | 0 <= k < 9 ensures StartsWith(ActionSpace()[k], ActionVerbs[k] + "(") {
      var v := ActionVerbs[k] + "(";
      assert ActionSpace()[k] == v + ActionArguments[k];
      assert ActionSpace()[k][..|v|] == v;
    }
  }

  const OperatorClosing: string :=
    "\n\nPlease analyze the current state and take the next action to complete the task. If the task appears to be completed successfully, you may finish."

  /** The pieces of `build_operator_prompt`, in order: task line, repeat
      warning, history heading, history, step counter, closing sentence. */
  function OperatorParts(task: string, repeatWarning: string, history: string,
                         currentStep: int, maxSteps: int): seq<string> {
    ["Complete this task: " + task + "\n\n",
     repeatWarning,
     "\n\nContext from previous actions:\n",
     history,
     "\n\n" + StepCounter(currentStep, maxSteps),
     OperatorClosing]
  }

  /** "Current step: c/m". */
  function StepCounter(currentStep: int, maxSteps: int): string {
    "Current step: " + IntToString(currentStep) + "/" + IntToString(maxSteps)
  }

  /** `build_operator_prompt`. */
  function OperatorPrompt(task: string, repeatWarning: string, history: string,
                          currentStep: int, maxSteps: int): string {
    Concat(OperatorParts(task, repeatWarning, history, currentStep, maxSteps))
  }

  /** The Operator prompt opens with the task and ends with the fixed
      closing sentence. */
  lemma OperatorPromptFrame(task: string, repeatWarning: string, history: string,
                            currentStep: int, maxSteps: int)
    ensures StartsWith(OperatorPrompt(task, repeatWarning, history, currentStep, maxSteps),
                       "Complete this task: " + task)
    ensures EndsWith(OperatorPrompt(task, repeatWarning, history, currentStep, maxSteps), OperatorClosing)
  {
    var parts := OperatorParts(task, repeatWarning, history, currentStep, maxSteps);
    var head := "Complete this task: " + task;
    ConcatEnds(parts);
    StartsWithAppend(head, "\n\n");
    StartsWithTrans(Concat(parts), parts[0], head);
  }

  /** The Operator prompt carries the repeat warning, the history and the
      step counter in that order, none overlapping the next. */
  lemma OperatorPromptOrder(task: string, repeatWarning: string, history: string,
                            currentStep: int, maxSteps: int)
    ensures exists i, j, k ::
      (i + |repeatWarning| <= j && j + |history| <= k
      && OccursAt(OperatorPrompt(task, repeatWarning, history, currentStep, maxSteps), repeatWarning, i)
      && OccursAt(OperatorPrompt(task, repeatWarning, history, currentStep, maxSteps), history, j)
      && OccursAt(OperatorPrompt(task, repeatWarning, history, currentStep, maxSteps),
                  StepCounter(currentStep, maxSteps), k))
  {
    var parts := OperatorParts(task, repeatWarning, history, currentStep, maxSteps);
    var counter := StepCounter(currentStep, maxSteps);
    assert |parts| == 6 && parts[1] == repeatWarning && parts[3] == history && parts[4] == "\n\n" + counter;
    var i, j, k := SlotsInOrder(parts, counter);
    assert OperatorPrompt(task, repeatWarning, history, currentStep, maxSteps) == Concat(parts);
    assert OccursAt(Concat(parts), repeatWarning, i) && OccursAt(Concat(parts), history, j);
  }

  /** Slots 1 and 3 of a six-part text, and what follows the blank line
      of slot 4, come in that order. */
  lemma SlotsInOrder(parts: seq<string>, counter: string) returns (i: int, j: int, k: int)
    requires |parts| == 6 && parts[4] == "\n\n" + counter
    ensures i + |parts[1]| <= j && j + |parts[3]| <= k
    ensures OccursAt(Concat(parts), parts[1], i) && OccursAt(Concat(parts), parts[3], j)
    ensures OccursAt(Concat(parts), counter, k)
  {
    var p := Concat(parts);
    ConcatPartAt(parts, 1);
    ConcatPartAt(parts, 3);
    ConcatPartAt(parts, 4);
    ConcatOrder(parts, 1, 3);
    ConcatOrder(parts, 3, 4);
    i, j := |Concat(parts[..1])|, |Concat(parts[..3])|;
    var l := |Concat(parts[..4])|;
    assert parts[4] == "\n\n" + counter + "";
    OccursMiddle(p, "\n\n", counter, "", l);
    k := l + 2;
  }
}
