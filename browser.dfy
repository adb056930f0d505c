/** The mouse and keyboard side of the browser controller. The page is seen
    only through the input events the controller sends it, kept as a log;
    the fixed pauses after each action are not logged. */
module BrowserControl {
  import opened Wrappers
  import opened Text

  datatype MouseButton = LeftButton | RightButton

  /** One input sent to the page. `ScrollWindow` is the script call
      `window.scrollBy(0, dy)`; `Wheel` is a native mouse-wheel event. */
  datatype Event =
    | Click(x: int, y: int, button: MouseButton)
    | DoubleClick(x: int, y: int)
    | Move(x: int, y: int)
    | MouseDown
    | MouseUp
    | Wheel(dx: int, dy: int)
    | ScrollWindow(dy: int)
    | KeyDown(key: string)
    | KeyPress(key: string)
    | KeyUp(key: string)
    | TypeText(text: string)

  /** The dictionary an action returns. */
  datatype ActionResult = Succeeded(message: string) | Failed(error: string)

  // ---- Key names ----

  /** Lower-case key names and their Playwright names. */
  const KeyTable: map<string, string> := map[
    "arrowleft" := "ArrowLeft", "arrowright" := "ArrowRight",
    "arrowup" := "ArrowUp", "arrowdown" := "ArrowDown",
    "left" := "ArrowLeft", "right" := "ArrowRight",
    "up" := "ArrowUp", "down" := "ArrowDown",
    "space" := "Space", "enter" := "Enter", "return" := "Enter",
    "tab" := "Tab", "escape" := "Escape", "backspace" := "Backspace",
    "delete" := "Delete", "shift" := "Shift",
    "ctrl" := "Control", "control" := "Control",
    "alt" := "Alt", "meta" := "Meta", "cmd" := "Meta",
    "home" := "Home", "end" := "End",
    "pageup" := "PageUp", "pagedown" := "PageDown",
    "insert" := "Insert"]

  /** "f" followed by the decimal digits of a number from 1 to 12 (leading
      zeros allowed, as `int` reads them). */
  predicate IsFunctionKey(lk: string) {
    |lk| >= 2 && lk[0] == 'f' && AllDigits(lk[1..]) && 1 <= DigitsValue(lk[1..]) <= 12
  }

  /** `_map_key_name`: function keys and table entries, whatever their
      case, become Playwright names; any other key is kept as given. */
  function MapKeyName(key: string): string {
    var lk := Lower(key);
    if IsFunctionKey(lk) then "F" + NatToString(DigitsValue(lk[1..]))
    else if lk in KeyTable then KeyTable[lk]
    else key
  }

  /** The mapping ignores case: two spellings of a known key map alike, and
      an unknown key comes back exactly as written. */
  lemma MapKeyNameIgnoresCase(a: string, b: string)
    requires Lower(a) == Lower(b)
    ensures MapKeyName(a) == MapKeyName(b) || (MapKeyName(a) == a && MapKeyName(b) == b)
  {
  }

  /** "f1" to "f12", in either case, name the function keys F1 to F12. */
  lemma FunctionKeys(key: string, n: nat)
    requires 1 <= n <= 12
    requires Lower(key) == "f" + NatToString(n)
    ensures MapKeyName(key) == "F" + NatToString(n)
  {
    var lk := Lower(key);
    assert lk[1..] == NatToString(n);
    NatToStringRoundTrip(n);
  }

  /** No table entry starts with "f". */
  lemma TableHasNoF(t: string)
    requires t in KeyTable
    ensures |t| > 0 && t[0] != 'f'
  {
  }

  /** Other f-numbers ("f0", "f13", ...) are not function keys and are not
      in the table: they come back unchanged. */
  lemma OtherFNumbersUnchanged(key: string, n: nat)
    requires n == 0 || n > 12
    requires Lower(key) == "f" + NatToString(n)
    ensures MapKeyName(key) == key
  {
    var lk := Lower(key);
    assert lk[1..] == NatToString(n);
    NatToStringRoundTrip(n);
    if lk in KeyTable {
      TableHasNoF(lk);
    }
  }

  // ---- Key combinations ----

  /** The events of a key combination: the modifiers go down in order, the
      last key is pressed, the modifiers come up in reverse order. */
  function PressEvents(mapped: seq<string>): (evs: seq<Event>)
    requires |mapped| >= 1
    ensures |evs| == 2 * |mapped| - 1
  {
    var n := |mapped| - 1;
    seq(n, i requires 0 <= i < n => KeyDown(mapped[i]))
    + [KeyPress(mapped[n])]
    + seq(n, i requires 0 <= i < n => KeyUp(mapped[n - 1 - i]))
  }

  /** The key events are properly nested: the modifier at position `i` goes
      down at event `i` and comes up at event `2n - 2 - i`, mirrored around
      the single press of the last key; one key gives one press. */
  lemma PressNesting(mapped: seq<string>)
    requires |mapped| >= 1
    ensures var evs := PressEvents(mapped);
            var n := |mapped|;
            && evs[n - 1] == KeyPress(mapped[n - 1])
            && (forall i :: 0 <= i < n - 1 ==> evs[i] == KeyDown(mapped[i]) && evs[2 * n - 2 - i] == KeyUp(mapped[i]))
            && (n == 1 ==> evs == [KeyPress(mapped[0])])
  {
    var evs := PressEvents(mapped);
    var n := |mapped|;
    forall i | 0 <= i < n - 1
      ensures evs[2 * n - 2 - i] == KeyUp(mapped[i])
    {
      assert evs[2 * n - 2 - i] == KeyUp(mapped[n - 2 - (n - 2 - i)]);
    }
  }

  /** Every key pressed down is released: the keys that go down are the
      keys that come up. */
  lemma PressReleasesAll(mapped: seq<string>, k: string)
    requires |mapped| >= 1
    ensures KeyDown(k) in PressEvents(mapped) <==> KeyUp(k) in PressEvents(mapped)
  {
    var evs := PressEvents(mapped);
    var n := |mapped|;
    PressNesting(mapped);
    if KeyDown(k) in evs {
      var p :| 0 <= p < |evs| && evs[p] == KeyDown(k);
      assert p < n - 1;
      assert evs[2 * n - 2 - p] == KeyUp(k);
    }
    if KeyUp(k) in evs {
      var p :| 0 <= p < |evs| && evs[p] == KeyUp(k);
      assert p > n - 1;
      var i := 2 * n - 2 - p;
      assert evs[i] == KeyDown(mapped[i]);
      assert evs[2 * n - 2 - i] == KeyUp(mapped[i]);
    }
  }

  /** The Playwright names of the keys, in order. */
  function MappedKeys(keys: seq<string>): (m: seq<string>)
    ensures |m| == |keys|
  {
    seq(|keys|, i requires 0 <= i < |keys| => MapKeyName(keys[i]))
  }

  /** Python's `' + '.join(keys)` message of a key combination. */
  function PressedMessage(keys: seq<string>): string {
    "Pressed keys: " + Join(" + ", keys)
  }

  /** `scroll_to_coordinates`: "up" in any case scrolls up by `pixels`,
      any other direction scrolls down. */
  function ScrollDelta(direction: string, pixels: int): int {
    if Lower(direction) == "up" then -pixels else pixels
  }

  /** Whatever the word, `scroll` goes up exactly when it spells "up" in
      some mix of letter cases, and down by the same amount otherwise. */
  lemma ScrollUpAnyCase(direction: string, pixels: int)
    ensures ScrollDelta(direction, pixels) ==
      if |direction| == 2 && (direction[0] == 'u' || direction[0] == 'U') && (direction[1] == 'p' || direction[1] == 'P')
      then -pixels else pixels
  {
    var l := Lower(direction);
    if |direction| == 2 && (direction[0] == 'u' || direction[0] == 'U') && (direction[1] == 'p' || direction[1] == 'P') {
      assert l[0] == 'u' && l[1] == 'p';
      assert l == "up";
    }
  }

  class BrowserController {
    const width: int
    const height: int
    /** Every input event sent to the page, oldest first. */
    var events: seq<Event>

    constructor (width: int, height: int)
      ensures this.width == width && this.height == height && events == []
    {
      this.width := width;
      this.height := height;
      events := [];
    }

    method ClickAt(x: int, y: int) returns (r: ActionResult)
      modifies this
      ensures events == old(events) + [Click(x, y, LeftButton)] && r == Succeeded("Clicked")
    {
      events := events + [Click(x, y, LeftButton)];
      r := Succeeded("Clicked");
    }

    method TypeText(text: string) returns (r: ActionResult)
      modifies this
      ensures events == old(events) + [Event.TypeText(text)] && r == Succeeded("Typed: " + text)
    {
      events := events + [Event.TypeText(text)];
      r := Succeeded("Typed: " + text);
    }

    /** `scroll`: 500 pixels up for "up" in any case, else 500 down. */
    method Scroll(direction: string) returns (r: ActionResult)
      modifies this
      ensures events == old(events) + [ScrollWindow(ScrollDelta(direction, 500))]
      ensures r == Succeeded("Scrolled " + direction)
    {
      if Lower(direction) == "up" {
        events := events + [ScrollWindow(-500)];
      } else {
        events := events + [ScrollWindow(500)];
      }
      r := Succeeded("Scrolled " + direction);
    }

    method ScrollBy(dx: int, dy: int) returns (r: ActionResult)
      modifies this
      ensures events == old(events) + [Wheel(dx, dy)]
      ensures r == Succeeded("Scrolled by dx=" + IntToString(dx) + ", dy=" + IntToString(dy))
    {
      events := events + [Wheel(dx, dy)];
      r := Succeeded("Scrolled by dx=" + IntToString(dx) + ", dy=" + IntToString(dy));
    }

    /** `scroll_to_coordinates`: move to the anchor, then a vertical wheel
        of `pixels` against the direction's sign. It reports nothing. */
    method ScrollToCoordinates(x: int, y: int, direction: string, pixels: int)
      modifies this
      ensures events == old(events) + [Move(x, y), Wheel(0, ScrollDelta(direction, pixels))]
    {
      var delta := if Lower(direction) == "up" then -pixels else pixels;
      events := events + [Move(x, y)];
      events := events + [Wheel(0, delta)];
    }

    method DoubleClickAt(x: int, y: int) returns (r: ActionResult)
      modifies this
      ensures events == old(events) + [DoubleClick(x, y)] && r == Succeeded("Double clicked")
    {
      events := events + [DoubleClick(x, y)];
      r := Succeeded("Double clicked");
    }

    method RightClickAt(x: int, y: int) returns (r: ActionResult)
      modifies this
      ensures events == old(events) + [Click(x, y, RightButton)] && r == Succeeded("Right clicked")
    {
      events := events + [Click(x, y, RightButton)];
      r := Succeeded("Right clicked");
    }

    method MoveTo(x: int, y: int) returns (r: ActionResult)
      modifies this
      ensures events == old(events) + [Move(x, y)] && r == Succeeded("Mouse moved")
    {
      events := events + [Move(x, y)];
      r := Succeeded("Mouse moved");
    }

    /** `press_keys`: no keys is an error and sends nothing; otherwise the
        mapped keys are sent as a nested combination and the message names
        the keys as given. */
    method PressKeys(keys: seq<string>) returns (r: ActionResult)
      modifies this
      ensures keys == [] ==> r == Failed("No keys provided") && events == old(events)
      ensures keys != [] ==>
        && events == old(events) + PressEvents(MappedKeys(keys))
        && r == Succeeded(PressedMessage(keys))
    {
      if keys == [] {
        return Failed("No keys provided");
      }
      PressCombination(MappedKeys(keys));
      r := Succeeded(PressedMessage(keys));
    }

    /** The down, press and up events of one key combination, already
        mapped to Playwright names. */
    method PressCombination(mapped: seq<string>)
      requires |mapped| >= 1
      modifies this
      ensures events == old(events) + PressEvents(mapped)
    {
      var n := |mapped| - 1;
      ghost var downs := seq(n, i requires 0 <= i < n => KeyDown(mapped[i]));
      ghost var ups := seq(n, i requires 0 <= i < n => KeyUp(mapped[n - 1 - i]));
      for i := 0 to n
        invariant events == old(events) + downs[..i]
      {
        events := events + [KeyDown(mapped[i])];
        assert downs[..i + 1] == downs[..i] + [downs[i]];
      }
      events := events + [KeyPress(mapped[n])];
      var j := n;
      while j > 0
        invariant 0 <= j <= n
        invariant events == old(events) + downs + [KeyPress(mapped[n])] + ups[..n - j]
      {
        events := events + [KeyUp(mapped[j - 1])];
        assert ups[..n - j + 1] == ups[..n - j] + [ups[n - j]];
        j := j - 1;
      }
      assert ups[..n] == ups;
      assert PressEvents(mapped) == downs + [KeyPress(mapped[n])] + ups;
    }

    /** `drag_to_coordinates`: finish a drag begun with `mouse_down_at`. */
    method DragTo(x: int, y: int) returns (r: ActionResult)
      modifies this
      ensures events == old(events) + [Move(x, y), MouseUp] && r == Succeeded("Dragged to coordinates")
    {
      events := events + [Move(x, y), MouseUp];
      r := Succeeded("Dragged to coordinates");
    }

    method MouseDownAt(x: int, y: int) returns (r: ActionResult)
      modifies this
      ensures events == old(events) + [Move(x, y), MouseDown] && r == Succeeded("Mouse down")
    {
      events := events + [Move(x, y), MouseDown];
      r := Succeeded("Mouse down");
    }

    method ReleaseMouse() returns (r: ActionResult)
      modifies this
      ensures events == old(events) + [MouseUp] && r == Succeeded("Mouse up")
    {
      events := events + [MouseUp];
      r := Succeeded("Mouse up");
    }

    /** `drag_from_to`: move to the start, press, move to the target,
        release. */
    method DragFromTo(x1: int, y1: int, x2: int, y2: int) returns (r: ActionResult)
      modifies this
      ensures events == old(events) + DragEvents(x1, y1, x2, y2)
      ensures r == Succeeded(DragMessage(x1, y1, x2, y2))
    {
      events := events + [Move(x1, y1)];
      events := events + [MouseDown];
      events := events + [Move(x2, y2)];
      events := events + [MouseUp];
      r := Succeeded(DragMessage(x1, y1, x2, y2));
    }
  }

  /** "Dragged from (x1,y1) to (x2,y2)". */
  function DragMessage(x1: int, y1: int, x2: int, y2: int): string {
    "Dragged from (" + IntToString(x1) + "," + IntToString(y1) + ") to ("
    + IntToString(x2) + "," + IntToString(y2) + ")"
  }

  /** The events `drag_from_to` sends, in order. */
  function DragEvents(x1: int, y1: int, x2: int, y2: int): seq<Event> {
    [Move(x1, y1), MouseDown, Move(x2, y2), MouseUp]
  }

  /** Whether the mouse button is held after `evs`: its last explicit press
      or release was a press. */
  function ButtonHeld(evs: seq<Event>): bool {
    if evs == [] then false
    else if evs[|evs| - 1] == MouseDown then true
    else if evs[|evs| - 1] == MouseUp then false
    else ButtonHeld(evs[..|evs| - 1])
  }

  /** Whatever came before, a drag holds the button while it moves to the
      target and leaves it released at the end. */
  lemma DragBalanced(h: seq<Event>, x1: int, y1: int, x2: int, y2: int)
    ensures var d := DragEvents(x1, y1, x2, y2);
            && ButtonHeld(h + d[..2])
            && ButtonHeld(h + d[..3])
            && !ButtonHeld(h + d)
  {
    var d := DragEvents(x1, y1, x2, y2);
    assert (h + d[..3])[..|h| + 2] == h + d[..2];
  }
}
