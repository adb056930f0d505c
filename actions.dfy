/** The internal action vocabulary shared by the computer-use policies, and
    the trajectory entries they read back when they render history.

    A trajectory entry is the dictionary the step loop records per step:
    `{'action': {...}, 'thought': ..., 'result': {'success': ..., 'error': ...}}`.
    Only the keys the history renderers and the storyboard read are kept; a
    key that is missing (or holds `None`) is `None` here. */
module Actions {
  import opened Wrappers
  import opened Text

  datatype Point = Point(x: int, y: int)

  /** The actions the Operator policy produces, one constructor per
      internal `"action"` name. */
  datatype Action =
    | LeftClick(at: Point)
    | RightClick(at: Point)
    | DoubleClick(at: Point)
    | MouseMove(at: Point)
    | TypeText(text: string)
    | Scroll(at: Point, pixelsX: int, pixelsY: int)
    | Key(keys: seq<string>)
    | Wait(time: int)
    | Screenshot
    | Drag(start: Point, target: Point)

  /** The value of the `"action"` key of the internal dictionary. */
  function Name(a: Action): string {
    match a
    case LeftClick(_) => "left_click"
    case RightClick(_) => "right_click"
    case DoubleClick(_) => "double_click"
    case MouseMove(_) => "mouse_move"
    case TypeText(_) => "type"
    case Scroll(_, _, _) => "scroll"
    case Key(_) => "key"
    case Wait(_) => "wait"
    case Screenshot => "screenshot"
    case Drag(_, _) => "drag"
  }

  /** The keys of an internal action dictionary that history rendering reads. */
  datatype ActionRecord = ActionRecord(
    name: Option<string>,
    coordinate: Option<seq<int>>,
    text: Option<string>,
    pixels: Option<int>,
    status: Option<string>)

  /** `{}`: what `t.get('action', {})` gives for an entry without an action. */
  const NoAction := ActionRecord(None, None, None, None, None)

  /** The dictionary an `Action` is stored as, seen through the keys above. */
  function Record(a: Action): (r: ActionRecord)
    ensures r.name == Some(Name(a))
    ensures r.pixels.None? && r.status.None?
    ensures r.coordinate.Some? <==> a.LeftClick? || a.RightClick? || a.DoubleClick? || a.MouseMove? || a.Scroll?
    ensures r.text.Some? <==> a.TypeText?
  {
    var coordinate :=
      match a
      case LeftClick(p) => Some([p.x, p.y])
      case RightClick(p) => Some([p.x, p.y])
      case DoubleClick(p) => Some([p.x, p.y])
      case MouseMove(p) => Some([p.x, p.y])
      case Scroll(p, _, _) => Some([p.x, p.y])
      case _ => None;
    var text := if a.TypeText? then Some(a.text) else None;
    ActionRecord(Some(Name(a)), coordinate, text, None, None)
  }

  /** The `result` dictionary of a step: `success` is its truth value. */
  datatype StepResult = StepResult(success: bool, error: Option<string>)

  datatype Step = Step(action: ActionRecord, thought: Option<string>, result: StepResult)

  /** Python's `trajectory[-n:]`. */
  function Window(t: seq<Step>, n: nat): (r: seq<Step>)
    ensures |r| == if |t| < n then |t| else n
    ensures r == t[|t| - |r|..]
  {
    if |t| <= n then t else t[|t| - n..]
  }

  /** Python's `str(list)` for a list of integers, `None` for a missing one. */
  function CoordinateRepr(c: Option<seq<int>>): string {
    match c
    case None => "None"
    case Some(xs) => "[" + Join(", ", IntStrings(xs)) + "]"
  }

  function IntStrings(xs: seq<int>): (r: seq<string>)
    ensures |r| == |xs|
  {
    seq(|xs|, k requires 0 <= k < |xs| => IntToString(xs[k]))
  }

  /** A left click whose coordinate is a one-element list cannot be rendered:
      the renderers index `coord[1]`. */
  predicate ClicksRenderable(steps: seq<Step>) {
    forall k :: 0 <= k < |steps| && steps[k].action.name == Some("left_click") ==>
      steps[k].action.coordinate.None? || |steps[k].action.coordinate.value| != 1
  }

  /** The two most recent steps are left clicks at the same coordinate. */
  predicate RepeatedClick(t: seq<Step>) {
    |t| >= 2
    && t[|t| - 1].action.name == Some("left_click")
    && t[|t| - 2].action.name == Some("left_click")
    && t[|t| - 1].action.coordinate == t[|t| - 2].action.coordinate
  }

  /** The repeat-click warning both policies put before the history. */
  function RepeatWarning(recent: seq<Step>): string {
    if RepeatedClick(recent) then
      "\n**CRITICAL**: You clicked point " + CoordinateRepr(recent[|recent| - 1].action.coordinate)
      + " twice! Check if task is complete before clicking again."
    else ""
  }

  /** Whatever window of at least two steps the policy looks at, the warning
      is present exactly when the last two steps of the whole trajectory are
      left clicks at equal coordinates, and it names that coordinate. */
  lemma RepeatWarningOfWindow(t: seq<Step>, n: nat)
    requires n >= 2
    ensures RepeatWarning(Window(t, n)) != "" <==> RepeatedClick(t)
    ensures RepeatedClick(t) ==>
      Contains(RepeatWarning(Window(t, n)), CoordinateRepr(t[|t| - 1].action.coordinate))
  {
    var w := Window(t, n);
    if |t| >= 2 {
      assert w[|w| - 1] == t[|t| - 1] && w[|w| - 2] == t[|t| - 2];
    }
    if RepeatedClick(t) {
      var c := CoordinateRepr(t[|t| - 1].action.coordinate);
      var pre := "\n**CRITICAL**: You clicked point ";
      var s := RepeatWarning(w);
      assert s[|pre|..|pre| + |c|] == c;
      ContainsAt(s, c, |pre|);
    }
  }

  /** The text after the action: `Success` when the step succeeded, else the
      error or "unknown error". `arrow` is the separator the policy uses. */
  function ResultSuffix(arrow: string, r: StepResult): string {
    if r.success then arrow + "Success\n"
    else arrow + "Failed: " + r.error.GetOr("unknown error") + "\n"
  }

  /** The scroll direction word the renderers use: "down" iff pixels < 0,
      with a missing pixel count read as 0. */
  function ScrollDirection(a: ActionRecord): string {
    if a.pixels.GetOr(0) < 0 then "down" else "up"
  }
}
