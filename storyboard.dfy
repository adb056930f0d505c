/** The text and geometry helpers of the storyboard generator: the caption
    of a step, the crop window of a screenshot, greedy word wrap and
    truncation with an ellipsis.

    Text width is a parameter, `width`, standing for the font's measure of
    a rendered string; drawing and image I/O are not modelled. */
module Storyboard {
  import opened Wrappers
  import opened Text

  // ---- Step captions ----

  /** A step of the trajectory, as `_get_step_text` reads it: the action's
      type (absent when the step or its action has none), its coordinate
      list and text, and the thought (missing text fields read as ""). */
  datatype Step = Step(actionType: Option<string>, coordinate: seq<int>, text: string, thought: string)

  /** The action part of a caption. A click whose coordinate list has one
      element fails on the second index. */
  function ActionText(s: Step): Result<string> {
    var t := s.actionType.GetOr("unknown");
    if t == "left_click" then
      if s.coordinate == [] then Ok("Click")
      else if |s.coordinate| < 2 then Err("list index out of range")
      else Ok("Click(" + IntToString(s.coordinate[0]) + "," + IntToString(s.coordinate[1]) + ")")
    else if t == "type" then Ok("Type: " + Prefix(s.text, 20))
    else if t == "scroll" then Ok("Scroll")
    else if t == "terminate" then Ok("Finish")
    else Ok(t)
  }

  /** `_get_step_text`: "n. Action: a, Thought: t" for a step of the
      trajectory, numbered from one; "Step n" past its end. */
  function StepText(index: nat, trajectory: seq<Step>): Result<string> {
    if index < |trajectory| then
      var step := trajectory[index];
      match ActionText(step)
      case Err(e) => Err(e)
      case Ok(a) =>
        Ok(NatToString(index + 1) + ". Action: " + a + ", Thought: "
           + (if step.thought != "" then step.thought else "No thought"))
    else Ok("Step " + NatToString(index + 1))
  }

  /** The caption's shape, case by case. */
  lemma StepTextCases(index: nat, trajectory: seq<Step>)
    ensures index >= |trajectory| ==> StepText(index, trajectory) == Ok("Step " + NatToString(index + 1))
    ensures index < |trajectory| && ActionText(trajectory[index]).Ok? ==>
      && StepText(index, trajectory).Ok?
      && StartsWith(StepText(index, trajectory).value, NatToString(index + 1) + ". Action: " + ActionText(trajectory[index]).value)
      && (trajectory[index].thought != "" ==> EndsWith(StepText(index, trajectory).value, trajectory[index].thought))
      && (trajectory[index].thought == "" ==> EndsWith(StepText(index, trajectory).value, "No thought"))
  {
    if index < |trajectory| && ActionText(trajectory[index]).Ok? {
      var step := trajectory[index];
      var head := NatToString(index + 1) + ". Action: " + ActionText(step).value;
      var t := if step.thought != "" then step.thought else "No thought";
      var tail := ", Thought: " + t;
      assert StepText(index, trajectory).value == head + tail;
      StartsWithAppend(head, tail);
      assert head + tail == (head + ", Thought: ") + t;
      EndsWithAppend(head + ", Thought: ", t, t);
    }
  }

  /** Each action type's caption: a click with a coordinate shows it, one
      without shows "Click"; typing shows at most 20 characters; a
      missing type shows "unknown"; an unlisted type shows itself. */
  lemma ActionTextCases(s: Step)
    ensures s.actionType == Some("left_click") && |s.coordinate| >= 2 ==>
      ActionText(s) == Ok("Click(" + IntToString(s.coordinate[0]) + "," + IntToString(s.coordinate[1]) + ")")
    ensures s.actionType == Some("left_click") && s.coordinate == [] ==> ActionText(s) == Ok("Click")
    ensures s.actionType == Some("type") ==>
      ActionText(s).Ok? && StartsWith(ActionText(s).value, "Type: ") && |ActionText(s).value| <= 26
    ensures s.actionType == None ==> ActionText(s) == Ok("unknown")
    ensures ActionText(s).Err? <==> s.actionType == Some("left_click") && |s.coordinate| == 1
    ensures s.actionType.Some? && s.actionType.value !in {"left_click", "type", "scroll", "terminate"} ==>
      ActionText(s) == Ok(s.actionType.value)
  {
  }

  // ---- Crop window ----

  /** The region of a screenshot kept for a storyboard cell. */
  datatype CropBox = CropBox(left: int, top: int, width: nat, height: nat)

  /** Python's `int(x * f)` for the crop factor, 0.6 or 0.5, taken as
      exact. */
  function Scaled(x: nat, wide: bool): nat {
    if wide then x * 6 / 10 else x / 2
  }

  /** The crop size: twice the cell's screenshot size, at least the crop
      factor of the image and never more than the image. */
  function CropSize(size: nat, cell: int, factorOf: nat, wide: bool): (r: nat)
    ensures r <= size
  {
    var target := if 2 * cell < size then 2 * cell else size;
    var c := if target > Scaled(factorOf, wide) then target else Scaled(factorOf, wide);
    if c < size then c else size
  }

  /** Clamp `x` into `[0, hi]` as `max(0, min(hi, x))`. */
  function Clamp(x: int, hi: int): int {
    var m := if hi < x then hi else x;
    if 0 < m then m else 0
  }

  /** `_crop_viewport_screenshot_with_action`'s window: centred, unless
      the action coordinate lies outside it, in which case it is centred
      on the action and clamped to the image. */
  function CropWindow(imageWidth: nat, imageHeight: nat, cellWidth: int, cellHeight: int,
                      action: Option<(int, int)>): CropBox
  {
    var wide := cellWidth > 300;
    var w := CropSize(imageWidth, cellWidth, imageWidth, wide);
    var h := CropSize(imageHeight, cellHeight, imageHeight, wide);
    var left := (imageWidth - w) / 2;
    var top := (imageHeight - h) / 2;
    match action
    case None => CropBox(left, top, w, h)
    case Some((x, y)) =>
      if x < left || x > left + w || y < top || y > top + h then
        CropBox(Clamp(x - w / 2, imageWidth - w), Clamp(y - h / 2, imageHeight - h), w, h)
      else CropBox(left, top, w, h)
  }

  /** Whether a point lies in the box, edges included. */
  predicate Inside(b: CropBox, x: int, y: int) {
    b.left <= x <= b.left + b.width && b.top <= y <= b.top + b.height
  }

  /** The window fits in the image; with no action or an action already in
      the centred window it is the centred one; an action inside the
      image always ends up inside the window. */
  lemma CropWindowProperties(imageWidth: nat, imageHeight: nat, cellWidth: int, cellHeight: int,
                             action: Option<(int, int)>)
    ensures var b := CropWindow(imageWidth, imageHeight, cellWidth, cellHeight, action);
            && b.width <= imageWidth && b.height <= imageHeight
            && 0 <= b.left <= imageWidth - b.width && 0 <= b.top <= imageHeight - b.height
    ensures var b := CropWindow(imageWidth, imageHeight, cellWidth, cellHeight, action);
            var centred := CropBox((imageWidth - b.width) / 2, (imageHeight - b.height) / 2, b.width, b.height);
            (action.None? || Inside(centred, action.value.0, action.value.1)) ==> b == centred
    ensures action.Some? && 0 <= action.value.0 <= imageWidth && 0 <= action.value.1 <= imageHeight ==>
      Inside(CropWindow(imageWidth, imageHeight, cellWidth, cellHeight, action), action.value.0, action.value.1)
  {
  }

  // ---- Word wrap ----

  /** Python's `str.split()`: the maximal runs of non-space characters,
      `current` being the run read so far. */
  function SplitWords(s: string, current: string): (r: seq<string>)
    decreases |s|
  {
    if s == [] then (if current == [] then [] else [current])
    else if IsSpace(s[0]) then (if current == [] then [] else [current]) + SplitWords(s[1..], [])
    else SplitWords(s[1..], current + [s[0]])
  }

  function Words(s: string): seq<string> {
    SplitWords(s, [])
  }

  /** No word is empty or holds a space. */
  lemma {:induction false} SplitWordsShape(s: string, current: string)
    requires forall k :: 0 <= k < |current| ==> !IsSpace(current[k])
    ensures forall w :: w in SplitWords(s, current) ==> w != [] && forall k :: 0 <= k < |w| ==> !IsSpace(w[k])
    decreases |s|
  {
    if s != [] {
      if IsSpace(s[0]) {
        SplitWordsShape(s[1..], []);
      } else {
        SplitWordsShape(s[1..], current + [s[0]]);
      }
    }
  }

  /** The words in order, one list per line. */
  function Flatten(groups: seq<seq<string>>): seq<string>
    decreases |groups|
  {
    if groups == [] then [] else Flatten(groups[..|groups| - 1]) + groups[|groups| - 1]
  }

  lemma FlattenSnoc(groups: seq<seq<string>>, g: seq<string>)
    ensures Flatten(groups + [g]) == Flatten(groups) + g
  {
    assert (groups + [g])[..|groups|] == groups;
  }

  /** The greedy rule's record of a finished line: it ended because the
      next word would not fit on it, or it is a single word too wide on
      its own. */
  predicate Closed(group: seq<string>, next: string, width: string -> int, maxWidth: int) {
    width(Join(" ", group + [next])) > maxWidth || (|group| == 1 && width(group[0]) > maxWidth)
  }

  /** Finished lines: each the words of its group joined by spaces, every
      line of two or more words fits, and each line but the last was
      closed by the greedy rule. */
  ghost predicate Wrapped(lines: seq<string>, groups: seq<seq<string>>, width: string -> int, maxWidth: int) {
    && |lines| == |groups|
    && (forall k :: 0 <= k < |lines| ==> lines[k] == Join(" ", groups[k]) && groups[k] != [])
    && (forall k :: 0 <= k < |lines| && |groups[k]| >= 2 ==> width(lines[k]) <= maxWidth)
    && (forall k :: 0 <= k < |lines| - 1 ==> Closed(groups[k], groups[k + 1][0], width, maxWidth))
  }

  /** The loop's state: finished lines, and a current line that fits when
      it has two or more words and whose first word closed the previous
      line; an empty current line follows a single too-wide word. */
  ghost predicate Wrapping(lines: seq<string>, groups: seq<seq<string>>, current: seq<string>,
                           width: string -> int, maxWidth: int) {
    && Wrapped(lines, groups, width, maxWidth)
    && (|current| >= 2 ==> width(Join(" ", current)) <= maxWidth)
    && (current != [] && groups != [] ==> Closed(groups[|groups| - 1], current[0], width, maxWidth))
    && (current == [] && groups != [] ==> |groups[|groups| - 1]| == 1 && width(groups[|groups| - 1][0]) > maxWidth)
  }

  /** A word that fits joins the current line. */
  lemma AddWord(lines: seq<string>, groups: seq<seq<string>>, current: seq<string>, word: string,
                width: string -> int, maxWidth: int, done: seq<string>)
    requires Wrapping(lines, groups, current, width, maxWidth) && Flatten(groups) + current == done
    requires width(Join(" ", current + [word])) <= maxWidth
    ensures Wrapping(lines, groups, current + [word], width, maxWidth)
    ensures Flatten(groups) + (current + [word]) == done + [word]
  {
    if current != [] {
      assert (current + [word])[0] == current[0];
    }
  }

  /** A word that does not fit closes a non-empty current line and starts
      the next one. */
  lemma CloseLine(lines: seq<string>, groups: seq<seq<string>>, current: seq<string>, word: string,
                  width: string -> int, maxWidth: int)
    requires Wrapping(lines, groups, current, width, maxWidth) && current != []
    requires width(Join(" ", current + [word])) > maxWidth
    ensures Wrapping(lines + [Join(" ", current)], groups + [current], [word], width, maxWidth)
  {
    var lines', groups' := lines + [Join(" ", current)], groups + [current];
    forall k | 0 <= k < |lines'| - 1
      ensures Closed(groups'[k], groups'[k + 1][0], width, maxWidth)
    {
      if k < |lines| - 1 {
        assert groups'[k] == groups[k] && groups'[k + 1] == groups[k + 1];
      }
    }
  }

  /** Closing the current line keeps the words read so far, in order. */
  lemma FlattenClose(groups: seq<seq<string>>, current: seq<string>, word: string, done: seq<string>)
    requires Flatten(groups) + current == done
    ensures Flatten(groups + [current]) + [word] == done + [word]
  {
    FlattenSnoc(groups, current);
  }

  /** A word too wide for an empty line gets a line of its own. */
  lemma LongWord(lines: seq<string>, groups: seq<seq<string>>, word: string, width: string -> int, maxWidth: int,
                 done: seq<string>)
    requires Wrapping(lines, groups, [], width, maxWidth) && Flatten(groups) + [] == done
    requires width(word) > maxWidth
    ensures Wrapping(lines + [word], groups + [[word]], [], width, maxWidth)
    ensures Flatten(groups + [[word]]) + [] == done + [word]
  {
    FlattenSnoc(groups, [word]);
    assert Join(" ", [word]) == word;
    var lines', groups' := lines + [word], groups + [[word]];
    forall k | 0 <= k < |lines'| - 1
      ensures Closed(groups'[k], groups'[k + 1][0], width, maxWidth)
    {
      if k < |lines| - 1 {
        assert groups'[k] == groups[k] && groups'[k + 1] == groups[k + 1];
      }
    }
  }

  /** The last current line, if any, is a finished line. */
  lemma FinishLines(lines: seq<string>, groups: seq<seq<string>>, current: seq<string>, width: string -> int, maxWidth: int)
    requires Wrapping(lines, groups, current, width, maxWidth) && current != []
    ensures Wrapped(lines + [Join(" ", current)], groups + [current], width, maxWidth)
  {
    var lines', groups' := lines + [Join(" ", current)], groups + [current];
    forall k | 0 <= k < |lines'| - 1
      ensures Closed(groups'[k], groups'[k + 1][0], width, maxWidth)
    {
      if k < |lines| - 1 {
        assert groups'[k] == groups[k] && groups'[k + 1] == groups[k + 1];
      }
    }
  }

  /** `_wrap_text`: words are added to the current line while the line
      still fits; a word that does not fit starts a new line, and a word
      too wide for an empty line gets a line of its own. `groups` are the
      words of each line. */
  method WrapText(text: string, width: string -> int, maxWidth: int)
    returns (lines: seq<string>, ghost groups: seq<seq<string>>)
    ensures |lines| == |groups|
    ensures forall k :: 0 <= k < |lines| ==> lines[k] == Join(" ", groups[k]) && groups[k] != []
    ensures Flatten(groups) == Words(text)
    ensures forall k :: 0 <= k < |lines| && |groups[k]| >= 2 ==> width(lines[k]) <= maxWidth
    ensures forall k :: 0 <= k < |lines| - 1 ==> Closed(groups[k], groups[k + 1][0], width, maxWidth)
  {
    lines, groups := WrapWords(Words(text), width, maxWidth);
  }

  /** A prefix one element longer is the prefix and that element. */
  lemma PrefixGrows(words: seq<string>, i: nat)
    requires i < |words|
    ensures words[..i + 1] == words[..i] + [words[i]]
  {
  }

  /** The loop of `_wrap_text` over the words. */
  method WrapWords(words: seq<string>, width: string -> int, maxWidth: int)
    returns (lines: seq<string>, ghost groups: seq<seq<string>>)
    ensures Wrapped(lines, groups, width, maxWidth)
    ensures Flatten(groups) == words
  {
    lines := [];
    groups := [];
    var current: seq<string> := [];
    for i := 0 to |words|
      invariant Wrapping(lines, groups, current, width, maxWidth)
      invariant Flatten(groups) + current == words[..i]
    {
      var word := words[i];
      PrefixGrows(words, i);
      if width(Join(" ", current + [word])) <= maxWidth {
        AddWord(lines, groups, current, word, width, maxWidth, words[..i]);
        current := current + [word];
      } else if current != [] {
        CloseLine(lines, groups, current, word, width, maxWidth);
        FlattenClose(groups, current, word, words[..i]);
        lines := lines + [Join(" ", current)];
        groups := groups + [current];
        current := [word];
      } else {
        assert current + [word] == [word] && Join(" ", [word]) == word;
        LongWord(lines, groups, word, width, maxWidth, words[..i]);
        lines := lines + [word];
        groups := groups + [[word]];
      }
    }
    assert words[..|words|] == words;
    if current != [] {
      FinishLines(lines, groups, current, width, maxWidth);
      FlattenSnoc(groups, current);
      lines := lines + [Join(" ", current)];
      groups := groups + [current];
    }
  }

  // ---- Truncation ----

  /** `text[:n] + "..."` fits. */
  predicate FitsWith(text: string, n: nat, width: string -> int, maxWidth: int)
    requires n <= |text|
  {
    width(text[..n] + "...") <= maxWidth
  }

  /** A measure that grows with the length of the kept prefix, as a font's
      does. */
  predicate Monotone(text: string, width: string -> int) {
    forall a, b :: 0 <= a <= b <= |text| ==> width(text[..a] + "...") <= width(text[..b] + "...")
  }

  /** `_truncate_text_to_width`: the text when it fits; otherwise a binary
      search for the longest prefix that fits with "..." after it, and
      the first character with "..." when none is found. With a monotone
      measure the prefix found is the longest that fits. */
  method TruncateToWidth(text: string, width: string -> int, maxWidth: int) returns (r: string, ghost n: nat)
    ensures width(text) <= maxWidth ==> r == text
    ensures width(text) > maxWidth ==> n <= |text| && r == text[..n] + "..."
    ensures width(text) > maxWidth && FitsWith(text, n, width, maxWidth) ==> width(r) <= maxWidth
    ensures width(text) > maxWidth && !FitsWith(text, n, width, maxWidth) ==> n == |Prefix(text, 1)|
    ensures width(text) > maxWidth && Monotone(text, width) ==>
      (forall m :: n < m <= |text| ==> !FitsWith(text, m, width, maxWidth))
      && (FitsWith(text, n, width, maxWidth) || forall m :: 0 <= m <= |text| ==> !FitsWith(text, m, width, maxWidth))
  {
    n := 0;
    if width(text) <= maxWidth {
      return text, n;
    }
    var left, right := 0, |text|;
    var best := "";
    while left <= right
      invariant 0 <= left <= right + 1 <= |text| + 1
      invariant left == 0 ==> best == ""
      invariant left > 0 ==> best == text[..left - 1] + "..." && FitsWith(text, left - 1, width, maxWidth)
      invariant Monotone(text, width) ==> forall m :: right < m <= |text| ==> !FitsWith(text, m, width, maxWidth)
      invariant Monotone(text, width) ==> forall m :: 0 <= m < left ==> FitsWith(text, m, width, maxWidth)
      decreases right - left + 1
    {
      var mid := (left + right) / 2;
      var test := text[..mid] + "...";
      if width(test) <= maxWidth {
        best := test;
        left := mid + 1;
      } else {
        right := mid - 1;
      }
    }
    if best != "" {
      n := left - 1;
      r := best;
    } else {
      n := |Prefix(text, 1)|;
      r := Prefix(text, 1) + "...";
    }
  }
}
