/**
 * The key handling of events/events.go: `PromptForInput`, a one-line editor folded over
 * the key events that arrive until Enter, and `HandleUserInput`, which applies one event
 * to the browser's focus, search text and per-pane cursors.
 *
 * The events `screen.PollEvent` would deliver are a parameter. The editor spawn, the
 * re-exec in another directory and the file operations the source starts are returned as
 * an `Action`; the prompt's drawing is not modelled.
 */
module Events {
  import opened Wrappers
  import opened Catalog
  import opened Panes
  import Layout

  /** The `tcell` keys the handlers tell apart; `OtherKey` is every other key. */
  datatype Key = KeyCtrlC | KeyEscape | KeyTab | KeyUp | KeyDown | KeyEnter
               | KeyBackspace | KeyBackspace2 | KeyRune | OtherKey

  /**
   * One polled event. For a key, `r` is `ev.Rune()` (`'\0'` for none) and `altOnly` says
   * whether `ev.Modifiers() == tcell.ModAlt`, i.e. Alt is the only modifier held.
   */
  datatype Event = KeyEvent(key: Key, r: char, altOnly: bool) | ResizeEvent

  /** What the source does outside the browser's own state in response to a key. */
  datatype Action =
    | NoAction
    | OpenInEditor(editor: string, file: string)   // `OpenFileInEditor`, then exit
    | ChangeDirectory(dir: string, up: bool)       // `ChangeDirectoryAndRerun`, then exit
    | Rename(from: string, to: string)
    | Move(from: string, to: string)
    | Delete(name: string)
    | Copy(from: string, to: string)

  // ---------------------------------------------------------------- PromptForInput

  predicate IsEnter(e: Event) { e.KeyEvent? && e.key == KeyEnter }

  predicate IsBackspace(e: Event)
  {
    e.KeyEvent? && (e.key == KeyBackspace || e.key == KeyBackspace2)
  }

  /** The prompt returns once an Enter arrives; without one it waits for ever. */
  predicate HasEnter(events: seq<Event>)
  {
    exists i :: 0 <= i < |events| && IsEnter(events[i])
  }

  /** The effect of one event other than Enter on the prompt's buffer. */
  function EditLine(input: string, e: Event): (r: string)
    ensures IsBackspace(e) ==> r == if |input| > 0 then input[..|input| - 1] else input
    ensures !IsBackspace(e) && e.KeyEvent? && e.r != '\0' ==> r == input + [e.r]
    ensures !IsBackspace(e) && (e.ResizeEvent? || e.r == '\0') ==> r == input
  {
    match e
    case ResizeEvent => input
    case KeyEvent(k, r, _) =>
      if k == KeyBackspace || k == KeyBackspace2 then
        if |input| > 0 then input[..|input| - 1] else input
      else if r != '\0' then input + [r]
      else input
  }

  /** The buffer after a run of events none of which is Enter. */
  function Edited(input: string, events: seq<Event>): string
    decreases |events|
  {
    if events == [] then input else Edited(EditLine(input, events[0]), events[1..])
  }

  /** The index of the first Enter. */
  function FirstEnter(events: seq<Event>): (i: nat)
    requires HasEnter(events)
    ensures i < |events| && IsEnter(events[i])
    ensures forall j :: 0 <= j < i ==> !IsEnter(events[j])
    decreases |events|
  {
    if IsEnter(events[0]) then 0
    else
      assert HasEnter(events[1..]) by {
        var i :| 0 <= i < |events| && IsEnter(events[i]);
        assert i > 0 && events[1..][i - 1] == events[i];
      }
      var i := FirstEnter(events[1..]);
      assert forall j :: 1 <= j < i + 1 ==> events[j] == events[1..][j - 1];
      i + 1
  }

  /** What the prompt returns: the edits made by the events before the first Enter. */
  function PromptResult(events: seq<Event>): string
    requires HasEnter(events)
  {
    Edited([], events[..FirstEnter(events)])
  }

  /**
   * The prompt's event loop over the events it polls; `used` is how many it consumed
   * (through the Enter).
   */
  method PromptForInput(events: seq<Event>) returns (text: string, used: nat)
    requires HasEnter(events)
    ensures used == FirstEnter(events) + 1
    ensures text == PromptResult(events)
  {
    var input: string := [];
    var n := FirstEnter(events);
    var k := 0;
    while true
      invariant 0 <= k <= n
      invariant Edited(input, events[k..n]) == Edited([], events[..n])
      decreases n - k
    {
      var ev := events[k];
      if ev.KeyEvent? && ev.key == KeyEnter {
        assert k == n;
        return input, k + 1;
      }
      assert events[k..n][1..] == events[k + 1..n];
      if ev.KeyEvent? {
        if ev.key == KeyBackspace || ev.key == KeyBackspace2 {
          if |input| > 0 {
            input := input[..|input| - 1];
          }
        } else if ev.r != '\0' {
          input := input + [ev.r];
        }
      }
      k := k + 1;
    }
  }

  /** The events of typing the runes of `s` (none of which is the zero rune). */
  function Typing(s: string): (events: seq<Event>)
    ensures |events| == |s|
    ensures forall i :: 0 <= i < |s| ==> events[i] == KeyEvent(KeyRune, s[i], false)
  {
    seq(|s|, i requires 0 <= i < |s| => KeyEvent(KeyRune, s[i], false))
  }

  lemma {:induction false} EditedTyping(input: string, s: string)
    requires forall i :: 0 <= i < |s| ==> s[i] != '\0'
    ensures Edited(input, Typing(s)) == input + s
    decreases |s|
  {
    if s != [] {
      assert Typing(s)[1..] == Typing(s[1..]);
      EditedTyping(input + [s[0]], s[1..]);
      assert input + [s[0]] + s[1..] == input + s;
    }
  }

  /** Typing a text and pressing Enter makes the prompt return exactly that text. */
  lemma TypedTextIsReturned(s: string)
    requires forall i :: 0 <= i < |s| ==> s[i] != '\0'
    ensures HasEnter(Typing(s) + [KeyEvent(KeyEnter, '\r', false)])
    ensures PromptResult(Typing(s) + [KeyEvent(KeyEnter, '\r', false)]) == s
  {
    var events := Typing(s) + [KeyEvent(KeyEnter, '\r', false)];
    assert IsEnter(events[|s|]);
    assert FirstEnter(events) == |s|;
    assert events[..|s|] == Typing(s);
    EditedTyping([], s);
  }

  /** Backspace takes back the rune typed just before it, and does nothing on an empty buffer. */
  lemma BackspaceUndoesRune(input: string, c: char, k: Key, r: char, alt: bool)
    requires c != '\0'
    requires k == KeyBackspace || k == KeyBackspace2
    ensures EditLine(EditLine(input, KeyEvent(KeyRune, c, false)), KeyEvent(k, r, alt)) == input
    ensures EditLine([], KeyEvent(k, r, alt)) == []
  {
    assert (input + [c])[..|input|] == input;
  }

  // ---------------------------------------------------------------- HandleUserInput

  /**
   * What `HandleUserInput` receives and hands back: the focused pane (`-1` once Ctrl-C
   * asks to quit), the search text, the lists shown in the panes, each pane's selected
   * row and window start, and the best match.
   */
  datatype Panel = Panel(
    currentBox: int,
    userInput: string,
    boxes: seq<seq<FileInfo>>,
    selected: seq<int>,
    scroll: seq<int>,
    bestMatch: Option<FileInfo>)

  datatype Handled = Handled(state: Panel, action: Action)

  /** `boxes[b][selectedIndices[b]]` can be read. */
  predicate SelectionValid(s: Panel, b: int)
  {
    0 <= b < |s.boxes| && b < |s.selected| && 0 <= s.selected[b] < |s.boxes[b]|
  }

  /**
   * The guard `currentBox == b && len(boxes[b]) > 0` followed by reading the selected
   * entry can run without an index panic.
   */
  predicate PickDefined(s: Panel, b: nat)
  {
    s.currentBox == b ==> b < |s.boxes| && (|s.boxes[b]| > 0 ==> SelectionValid(s, b))
  }

  /** A file operation key on the Files pane: `r`, `m`, `c` open a prompt, `d` does not. */
  predicate IsPromptingKey(r: char) { r == 'r' || r == 'm' || r == 'c' }

  /** The event is handled without an index panic (and a prompt it opens gets an Enter). */
  predicate StepDefined(s: Panel, e: Event, prompt: seq<Event>)
  {
    match e
    case ResizeEvent => true
    case KeyEvent(k, r, alt) =>
      match k
      case KeyEscape => PickDefined(s, 0)
      case KeyUp =>
        s.currentBox < |s.selected| ==>
          0 <= s.currentBox && (s.selected[s.currentBox] > 0 ==> s.currentBox < |s.scroll|)
      case KeyDown =>
        s.currentBox < |s.selected| ==>
          0 <= s.currentBox < |s.boxes| &&
          (s.selected[s.currentBox] < |s.boxes[s.currentBox]| - 1 ==> s.currentBox < |s.scroll|)
      case KeyEnter => PickDefined(s, 1) && PickDefined(s, 0)
      case KeyRune =>
        (alt && (IsPromptingKey(r) || r == 'd') ==> PickDefined(s, 1)) &&
        (alt && IsPromptingKey(r) && s.currentBox == 1 && |s.boxes[1]| > 0 ==> HasEnter(prompt))
      case _ => true
  }

  /** Up: the focused pane's cursor moves up, when the focus has a cursor. */
  function UpStep(s: Panel): Panel
    requires s.currentBox < |s.selected| ==>
               0 <= s.currentBox && (s.selected[s.currentBox] > 0 ==> s.currentBox < |s.scroll|)
  {
    var b := s.currentBox;
    if b < |s.selected| && s.selected[b] > 0 then
      var d := MoveUp(Cursor(s.selected[b], s.scroll[b]));
      s.(selected := s.selected[b := d.selected], scroll := s.scroll[b := d.scroll])
    else s
  }

  /** Down: the focused pane's cursor moves down within its list, scrolling by the pane's height. */
  function DownStep(s: Panel, increased: int, half: int): Panel
    requires s.currentBox < |s.selected| ==>
               0 <= s.currentBox < |s.boxes| &&
               (s.selected[s.currentBox] < |s.boxes[s.currentBox]| - 1 ==> s.currentBox < |s.scroll|)
  {
    var b := s.currentBox;
    if b < |s.selected| && s.selected[b] < |s.boxes[b]| - 1 then
      var d := MoveDown(Cursor(s.selected[b], s.scroll[b]), |s.boxes[b]|, MaxHeight(b, increased, half));
      s.(selected := s.selected[b := d.selected], scroll := s.scroll[b := d.scroll])
    else s
  }

  /** Enter: open the best match from Search, the selected file from Files, or enter the selected directory. */
  function EnterAction(s: Panel, editor: string): Action
    requires PickDefined(s, 1) && PickDefined(s, 0)
  {
    if s.currentBox == 2 && s.bestMatch.Some? then OpenInEditor(editor, s.bestMatch.value.name)
    else if s.currentBox == 1 && |s.boxes[1]| > 0 then OpenInEditor(editor, s.boxes[1][s.selected[1]].name)
    else if s.currentBox == 0 && |s.boxes[0]| > 0 then ChangeDirectory(s.boxes[0][s.selected[0]].name, false)
    else NoAction
  }

  /** Alt+r, Alt+m, Alt+d, Alt+c on the selected file of the Files pane; any other rune types on Search. */
  function RuneStep(s: Panel, r: char, alt: bool, prompt: seq<Event>): Handled
    requires alt && (IsPromptingKey(r) || r == 'd') ==> PickDefined(s, 1)
    requires alt && IsPromptingKey(r) && s.currentBox == 1 && |s.boxes[1]| > 0 ==> HasEnter(prompt)
  {
    if alt && (IsPromptingKey(r) || r == 'd') then
      if s.currentBox == 1 && |s.boxes[1]| > 0 then
        var name := s.boxes[1][s.selected[1]].name;
        if r == 'd' then Handled(s, Delete(name))
        else
          var target := PromptResult(prompt);
          if target == [] then Handled(s, NoAction)
          else if r == 'r' then Handled(s, Rename(name, target))
          else if r == 'm' then Handled(s, Move(name, target))
          else Handled(s, Copy(name, target))
      else Handled(s, NoAction)
    else if s.currentBox == 2 then Handled(s.(userInput := s.userInput + [r]), NoAction)
    else Handled(s, NoAction)
  }

  /**
   * One call of `HandleUserInput` on event `e`; `prompt` is what a prompt opened by the
   * event would read, `increased` and `half` the heights last stored by
   * `CalculateBoxDimensions`.
   */
  function Step(s: Panel, e: Event, prompt: seq<Event>, increased: int, half: int, editor: string): Handled
    requires StepDefined(s, e, prompt)
  {
    match e
    case ResizeEvent => Handled(s, NoAction)
    case KeyEvent(k, r, alt) =>
      match k
      case KeyCtrlC => Handled(s.(currentBox := -1), NoAction)
      case KeyEscape =>
        if s.currentBox == 0 && |s.boxes[0]| > 0 then Handled(s, ChangeDirectory(s.boxes[0][s.selected[0]].name, true))
        else Handled(s, NoAction)
      case KeyTab => Handled(s.(currentBox := NextBox(s.currentBox)), NoAction)
      case KeyUp => Handled(UpStep(s), NoAction)
      case KeyDown => Handled(DownStep(s, increased, half), NoAction)
      case KeyEnter => Handled(s, EnterAction(s, editor))
      case KeyBackspace =>
        if s.currentBox == 2 && |s.userInput| > 0 then Handled(s.(userInput := s.userInput[..|s.userInput| - 1]), NoAction)
        else Handled(s, NoAction)
      case KeyBackspace2 =>
        if s.currentBox == 2 && |s.userInput| > 0 then Handled(s.(userInput := s.userInput[..|s.userInput| - 1]), NoAction)
        else Handled(s, NoAction)
      case KeyRune => RuneStep(s, r, alt, prompt)
      case OtherKey => Handled(s, NoAction)
  }

  /**
   * `HandleUserInput`: the selections and window starts are the caller's slices, updated in
   * place; focus and search text are handed back. The heights come from the globals `g`.
   */
  method HandleUserInput(g: Layout.Globals, editor: string, currentBox: int, userInput: string,
                         boxes: seq<seq<FileInfo>>, selectedIndices: array<int>, scrollPositions: array<int>,
                         bestMatch: Option<FileInfo>, e: Event, prompt: seq<Event>)
    returns (box: int, input: string, action: Action)
    requires selectedIndices != scrollPositions
    requires StepDefined(Panel(currentBox, userInput, boxes, selectedIndices[..], scrollPositions[..], bestMatch), e, prompt)
    modifies selectedIndices, scrollPositions
    ensures var o := Step(Panel(currentBox, userInput, boxes, old(selectedIndices[..]), old(scrollPositions[..]), bestMatch),
                          e, prompt, g.increasedBoxHeight, g.halfBoxHeight, editor);
            box == o.state.currentBox && input == o.state.userInput && action == o.action &&
            selectedIndices[..] == o.state.selected && scrollPositions[..] == o.state.scroll
  {
    ghost var s := Panel(currentBox, userInput, boxes, selectedIndices[..], scrollPositions[..], bestMatch);
    ghost var o := Step(s, e, prompt, g.increasedBoxHeight, g.halfBoxHeight, editor);
    box, input, action := currentBox, userInput, NoAction;
    if e.ResizeEvent? {
      assert o == Handled(s, NoAction);
      return;
    }
    if e.key == KeyUp {
      MoveSelectionUp(currentBox, selectedIndices, scrollPositions);
      assert o == Handled(UpStep(s), NoAction);
    } else if e.key == KeyDown {
      var maxHeight := 0;
      if currentBox == 0 || currentBox == 1 {
        maxHeight := g.increasedBoxHeight;
      } else if currentBox == 2 || currentBox == 3 {
        maxHeight := g.halfBoxHeight;
      }
      // `len(boxes[currentBox])` is only evaluated behind `currentBox < len(selectedIndices)`
      var length := if currentBox < selectedIndices.Length then |boxes[currentBox]| else 0;
      MoveSelectionDown(currentBox, length, maxHeight, selectedIndices, scrollPositions);
      assert o == Handled(DownStep(s, g.increasedBoxHeight, g.halfBoxHeight), NoAction);
    } else {
      box, input, action := HandleKey(editor, currentBox, userInput, boxes, selectedIndices[..], bestMatch, e, prompt,
                                      scrollPositions[..], g.increasedBoxHeight, g.halfBoxHeight);
    }
  }

  /**
   * The keys of `HandleUserInput` other than Up and Down: none of them moves a selection or
   * a window start.
   */
  method HandleKey(editor: string, currentBox: int, userInput: string, boxes: seq<seq<FileInfo>>, selected: seq<int>,
                   bestMatch: Option<FileInfo>, e: Event, prompt: seq<Event>,
                   ghost scroll: seq<int>, ghost increased: int, ghost half: int)
    returns (box: int, input: string, action: Action)
    requires e.KeyEvent? && e.key != KeyUp && e.key != KeyDown
    requires StepDefined(Panel(currentBox, userInput, boxes, selected, scroll, bestMatch), e, prompt)
    ensures var o := Step(Panel(currentBox, userInput, boxes, selected, scroll, bestMatch), e, prompt, increased, half, editor);
            box == o.state.currentBox && input == o.state.userInput && action == o.action &&
            o.state.selected == selected && o.state.scroll == scroll
  {
    ghost var s := Panel(currentBox, userInput, boxes, selected, scroll, bestMatch);
    ghost var o := Step(s, e, prompt, increased, half, editor);
    box, input, action := currentBox, userInput, NoAction;
    var k := e.key;
    if k == KeyCtrlC {
      box := -1;
      assert o == Handled(s.(currentBox := -1), NoAction);
    } else if k == KeyEscape {
      if currentBox == 0 && |boxes[currentBox]| > 0 {
        var selectedFile := boxes[currentBox][selected[currentBox]];
        action := ChangeDirectory(selectedFile.name, true);
      }
      assert o == Handled(s, action);
    } else if k == KeyTab {
      box := GoRem(currentBox + 1, PaneCount);
      assert o == Handled(s.(currentBox := box), NoAction);
    } else if k == KeyEnter {
      if currentBox == 2 && bestMatch.Some? {
        action := OpenInEditor(editor, bestMatch.value.name);
      } else if currentBox == 1 && |boxes[currentBox]| > 0 {
        action := OpenInEditor(editor, boxes[currentBox][selected[currentBox]].name);
      } else if currentBox == 0 && |boxes[currentBox]| > 0 {
        action := ChangeDirectory(boxes[currentBox][selected[currentBox]].name, false);
      }
      assert o == Handled(s, action);
    } else if k == KeyBackspace || k == KeyBackspace2 {
      if currentBox == 2 && |userInput| > 0 {
        input := userInput[..|userInput| - 1];
      }
      assert o == Handled(s.(userInput := input), NoAction);
    } else if k == KeyRune {
      input, action := HandleRune(currentBox, userInput, boxes, selected, e.r, e.altOnly, prompt);
      assert o == Handled(s.(userInput := input), action);
    } else {
      assert o == Handled(s, NoAction);
    }
  }

  /** The Up branch, on the caller's slices. */
  method MoveSelectionUp(currentBox: int, selectedIndices: array<int>, scrollPositions: array<int>)
    requires selectedIndices != scrollPositions
    requires currentBox < selectedIndices.Length ==>
               0 <= currentBox && (selectedIndices[currentBox] > 0 ==> currentBox < scrollPositions.Length)
    modifies selectedIndices, scrollPositions
    ensures var s := UpStep(Panel(currentBox, [], [], old(selectedIndices[..]), old(scrollPositions[..]), None));
            selectedIndices[..] == s.selected && scrollPositions[..] == s.scroll
  {
    if currentBox < selectedIndices.Length && selectedIndices[currentBox] > 0 {
      selectedIndices[currentBox] := selectedIndices[currentBox] - 1;
      if selectedIndices[currentBox] < scrollPositions[currentBox] {
        scrollPositions[currentBox] := scrollPositions[currentBox] - 1;
      }
    }
  }

  /** The Down branch, on the caller's slices; `length` is the focused pane's list length. */
  method MoveSelectionDown(currentBox: int, length: int, maxHeight: int, selectedIndices: array<int>, scrollPositions: array<int>)
    requires selectedIndices != scrollPositions
    requires currentBox < selectedIndices.Length ==>
               0 <= currentBox && (selectedIndices[currentBox] < length - 1 ==> currentBox < scrollPositions.Length)
    modifies selectedIndices, scrollPositions
    ensures currentBox < selectedIndices.Length && old(selectedIndices[currentBox]) < length - 1 ==>
            var d := MoveDown(Cursor(old(selectedIndices[currentBox]), old(scrollPositions[currentBox])), length, maxHeight);
            selectedIndices[..] == old(selectedIndices[..])[currentBox := d.selected] &&
            scrollPositions[..] == old(scrollPositions[..])[currentBox := d.scroll]
    ensures !(currentBox < selectedIndices.Length && old(selectedIndices[currentBox]) < length - 1) ==>
            selectedIndices[..] == old(selectedIndices[..]) && scrollPositions[..] == old(scrollPositions[..])
  {
    if currentBox < selectedIndices.Length && selectedIndices[currentBox] < length - 1 {
      selectedIndices[currentBox] := selectedIndices[currentBox] + 1;
      if selectedIndices[currentBox] >= scrollPositions[currentBox] + maxHeight - 3 {
        scrollPositions[currentBox] := scrollPositions[currentBox] + 1;
      }
    }
  }

  /** The KeyRune branch: the file operations prompt and act; other runes type into Search. */
  method HandleRune(currentBox: int, userInput: string, boxes: seq<seq<FileInfo>>, selected: seq<int>,
                    r: char, alt: bool, prompt: seq<Event>)
    returns (input: string, action: Action)
    requires var s := Panel(currentBox, userInput, boxes, selected, [], None);
             (alt && (IsPromptingKey(r) || r == 'd') ==> PickDefined(s, 1)) &&
             (alt && IsPromptingKey(r) && currentBox == 1 && |boxes[1]| > 0 ==> HasEnter(prompt))
    ensures var o := RuneStep(Panel(currentBox, userInput, boxes, selected, [], None), r, alt, prompt);
            input == o.state.userInput && action == o.action
  {
    input, action := userInput, NoAction;
    if alt && (r == 'r' || r == 'm' || r == 'c') {
      if currentBox == 1 && |boxes[currentBox]| > 0 {
        var selectedFile := boxes[currentBox][selected[currentBox]];
        var target, _ := PromptForInput(prompt);
        if target != [] {
          action := if r == 'r' then Rename(selectedFile.name, target)
                    else if r == 'm' then Move(selectedFile.name, target)
                    else Copy(selectedFile.name, target);
        }
      }
    } else if alt && r == 'd' {
      if currentBox == 1 && |boxes[currentBox]| > 0 {
        action := Delete(boxes[currentBox][selected[currentBox]].name);
      }
    } else if currentBox == 2 {
      input := userInput + [r];
    }
  }

  // ---------------------------------------------------------------- properties of Step

  /** Each pane's cursor is ordered and inside its list, and focus is on one of the four panes. */
  predicate Valid(s: Panel)
  {
    0 <= s.currentBox < PaneCount &&
    |s.boxes| == PaneCount && |s.selected| == PaneCount && |s.scroll| == PaneCount &&
    forall b :: 0 <= b < PaneCount ==>
      Ordered(Cursor(s.selected[b], s.scroll[b])) && InList(Cursor(s.selected[b], s.scroll[b]), |s.boxes[b]|)
  }

  /** In a valid state no key panics (a prompt that opens still needs its Enter). */
  lemma ValidStepDefined(s: Panel, e: Event, prompt: seq<Event>)
    requires Valid(s) && HasEnter(prompt)
    ensures StepDefined(s, e, prompt)
  {
    assert Ordered(Cursor(s.selected[0], s.scroll[0])) && InList(Cursor(s.selected[0], s.scroll[0]), |s.boxes[0]|);
    assert Ordered(Cursor(s.selected[1], s.scroll[1])) && InList(Cursor(s.selected[1], s.scroll[1]), |s.boxes[1]|);
  }

  /**
   * Every key but Ctrl-C keeps the state valid, and no key changes the lists or the best
   * match; Ctrl-C sets focus to -1 and changes nothing else.
   */
  lemma StepPreservesValid(s: Panel, e: Event, prompt: seq<Event>, increased: int, half: int, editor: string)
    requires Valid(s) && StepDefined(s, e, prompt)
    ensures var t := Step(s, e, prompt, increased, half, editor).state;
            t.boxes == s.boxes && t.bestMatch == s.bestMatch &&
            (e.KeyEvent? && e.key == KeyCtrlC ==> t == s.(currentBox := -1)) &&
            (!(e.KeyEvent? && e.key == KeyCtrlC) ==> Valid(t))
  {
    if e.KeyEvent? && (e.key == KeyUp || e.key == KeyDown) {
      var b := s.currentBox;
      var c := Cursor(s.selected[b], s.scroll[b]);
      assert Ordered(c) && InList(c, |s.boxes[b]|);
      if e.key == KeyUp {
        CursorMoveKeepsValid(s, b, MoveUp(c));
      } else {
        CursorMoveKeepsValid(s, b, MoveDown(c, |s.boxes[b]|, MaxHeight(b, increased, half)));
      }
    }
  }

  /** Replacing one pane's cursor by an ordered cursor inside that pane's list keeps the state valid. */
  lemma CursorMoveKeepsValid(s: Panel, b: int, c: Cursor)
    requires Valid(s) && 0 <= b < PaneCount && Ordered(c) && InList(c, |s.boxes[b]|)
    ensures Valid(s.(selected := s.selected[b := c.selected], scroll := s.scroll[b := c.scroll]))
  {
    var t := s.(selected := s.selected[b := c.selected], scroll := s.scroll[b := c.scroll]);
    forall b' | 0 <= b' < PaneCount
      ensures Ordered(Cursor(t.selected[b'], t.scroll[b'])) && InList(Cursor(t.selected[b'], t.scroll[b']), |t.boxes[b']|)
    {
      if b' != b {
        assert Ordered(Cursor(s.selected[b'], s.scroll[b'])) && InList(Cursor(s.selected[b'], s.scroll[b']), |s.boxes[b']|);
      }
    }
  }

  /**
   * The search text changes only while Search has focus: Backspace drops its last rune and
   * a rune typed without Alt-r/m/d/c is appended. Every other key leaves it alone.
   */
  lemma SearchTextChangesOnlyOnSearch(s: Panel, e: Event, prompt: seq<Event>, increased: int, half: int, editor: string)
    requires StepDefined(s, e, prompt)
    ensures var t := Step(s, e, prompt, increased, half, editor).state;
            t.userInput != s.userInput ==>
              s.currentBox == 2 && e.KeyEvent? &&
              ((IsBackspace(e) && t.userInput == s.userInput[..|s.userInput| - 1]) ||
               (e.key == KeyRune && !(e.altOnly && (IsPromptingKey(e.r) || e.r == 'd')) && t.userInput == s.userInput + [e.r]))
    ensures e.KeyEvent? && e.key == KeyRune && s.currentBox == 2 && !(e.altOnly && (IsPromptingKey(e.r) || e.r == 'd')) ==>
            Step(s, e, prompt, increased, half, editor).state.userInput == s.userInput + [e.r]
  {
  }

  /**
   * Actions act on what the browser shows: the editor opens the best match (Search) or the
   * selected file (Files); a directory change names the selected directory; file
   * operations act on the selected file of a non-empty Files pane, and the ones that
   * prompt never run with an empty target.
   */
  lemma ActionsTargetTheSelection(s: Panel, e: Event, prompt: seq<Event>, increased: int, half: int, editor: string)
    requires StepDefined(s, e, prompt)
    ensures var a := Step(s, e, prompt, increased, half, editor).action;
            a.OpenInEditor? ==>
              (a.editor == editor && e.KeyEvent? && e.key == KeyEnter &&
               ((s.currentBox == 2 && s.bestMatch.Some? && a.file == s.bestMatch.value.name) ||
                (s.currentBox == 1 && SelectionValid(s, 1) && a.file == s.boxes[1][s.selected[1]].name)))
    ensures var a := Step(s, e, prompt, increased, half, editor).action;
            a.ChangeDirectory? ==>
              (s.currentBox == 0 && SelectionValid(s, 0) && a.dir == s.boxes[0][s.selected[0]].name &&
               e.KeyEvent? && (a.up <==> e.key == KeyEscape))
    ensures var a := Step(s, e, prompt, increased, half, editor).action;
            a.Rename? || a.Move? || a.Copy? ==>
              (s.currentBox == 1 && SelectionValid(s, 1) && a.from == s.boxes[1][s.selected[1]].name &&
               a.to == PromptResult(prompt) && a.to != [])
    ensures var a := Step(s, e, prompt, increased, half, editor).action;
            a.Delete? ==>
              (s.currentBox == 1 && SelectionValid(s, 1) && a.name == s.boxes[1][s.selected[1]].name &&
               e == KeyEvent(KeyRune, 'd', true))
  {
  }
  /**
   * The converse of `ActionsTargetTheSelection`: on the pane each key serves, with something
   * to act on, the key always produces its action, and a prompt left empty produces none.
   */
  lemma KeysTriggerActions(s: Panel, e: Event, prompt: seq<Event>, increased: int, half: int, editor: string)
    requires StepDefined(s, e, prompt) && e.KeyEvent?
    ensures var a := Step(s, e, prompt, increased, half, editor).action;
            e.key == KeyEnter && s.currentBox == 2 && s.bestMatch.Some? ==>
              a == OpenInEditor(editor, s.bestMatch.value.name)
    ensures var a := Step(s, e, prompt, increased, half, editor).action;
            e.key == KeyEnter && s.currentBox == 1 && |s.boxes[1]| > 0 ==>
              a == OpenInEditor(editor, s.boxes[1][s.selected[1]].name)
    ensures var a := Step(s, e, prompt, increased, half, editor).action;
            e.key == KeyEnter && s.currentBox == 0 && |s.boxes[0]| > 0 ==>
              a == ChangeDirectory(s.boxes[0][s.selected[0]].name, false)
    ensures var a := Step(s, e, prompt, increased, half, editor).action;
            e.key == KeyEscape && s.currentBox == 0 && |s.boxes[0]| > 0 ==>
              a == ChangeDirectory(s.boxes[0][s.selected[0]].name, true)
    ensures var a := Step(s, e, prompt, increased, half, editor).action;
            e.key == KeyRune && e.altOnly && e.r == 'd' && s.currentBox == 1 && |s.boxes[1]| > 0 ==>
              a == Delete(s.boxes[1][s.selected[1]].name)
    ensures var a := Step(s, e, prompt, increased, half, editor).action;
            e.key == KeyRune && e.altOnly && IsPromptingKey(e.r) && s.currentBox == 1 && |s.boxes[1]| > 0 ==>
              var from, to := s.boxes[1][s.selected[1]].name, PromptResult(prompt);
              if to == [] then a == NoAction
              else if e.r == 'r' then a == Rename(from, to)
              else if e.r == 'm' then a == Move(from, to)
              else a == Copy(from, to)
  {
  }
}
