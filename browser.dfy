/**
 * The event loop of main.go: one `Session` holds the loop's variables (`userInput`,
 * `currentBox`, `scrollPositions`, `selectedIndices`, the three directory lists and the
 * best match). Each turn renders a frame (`Render`) and then applies one polled event
 * (`HandleKey`).
 *
 * The screen size, the polled event, whether `os.Chdir("..")` succeeds and what
 * `os.ReadDir` then lists are parameters. Process exits and spawned commands are returned
 * as an `Outcome`.
 */
module Browser {
  import opened Wrappers
  import opened Screen
  import opened Catalog
  import opened Search
  import opened Listing
  import opened Panes
  import opened Layout
  import opened Events

  /** The loop's variables, as a value. */
  datatype LoopState = LoopState(
    userInput: string,
    currentBox: int,
    scroll: seq<int>,
    selected: seq<int>,
    directories: seq<FileInfo>,
    regularFiles: seq<FileInfo>,
    hiddenFiles: seq<FileInfo>,
    bestMatch: Option<FileInfo>)

  /** How a turn of the loop ends. */
  datatype Outcome =
    | Continue
    | Quit                      // Ctrl-C: `main` returns
    | ExitWith(code: int)       // `os.Exit` after a failed directory read
    | Perform(action: Action)   // the editor or a re-run in another directory takes over, then exit

  /** Focus is on one of the four panes, and every pane's window starts at or above its selection. */
  predicate ValidState(s: LoopState)
  {
    0 <= s.currentBox < PaneCount && |s.scroll| == PaneCount && |s.selected| == PaneCount &&
    forall b :: 0 <= b < PaneCount ==> Ordered(Cursor(s.selected[b], s.scroll[b]))
  }

  /**
   * The three lists the render builds (main.go:236-243): the filtered directories, the
   * filtered regular and hidden files, and a nil list for the search pane.
   */
  function Boxes(s: LoopState): (boxes: seq<seq<FileInfo>>)
    ensures |boxes| == 3 && boxes[2] == []
  {
    [Matching(s.directories, s.userInput), Matching(s.regularFiles + s.hiddenFiles, s.userInput), []]
  }

  /** The best match the render computes from the filtered lists. */
  function BestOf(s: LoopState): Option<FileInfo>
  {
    FirstMatch(Boxes(s)[0] + Boxes(s)[1] + [], s.userInput)
  }

  /**
   * `boxes[currentBox][selectedIndices[currentBox]]` (main.go:275, 283, 410, 413) can be
   * read: the selection of a focused, non-empty directory or file pane is in its list.
   */
  predicate SelectionReadable(s: LoopState)
    requires ValidState(s)
  {
    (s.currentBox == 0 || s.currentBox == 1) && |Boxes(s)[s.currentBox]| > 0 ==>
      s.selected[s.currentBox] < |Boxes(s)[s.currentBox]|
  }

  /** Every list pane's selection is in its list (or on row 0). */
  predicate SelectionsInLists(s: LoopState)
    requires ValidState(s)
  {
    (s.selected[0] == 0 || s.selected[0] < |Boxes(s)[0]|) &&
    (s.selected[1] == 0 || s.selected[1] < |Boxes(s)[1]|)
  }

  lemma SelectionsInListsReadable(s: LoopState)
    requires ValidState(s) && SelectionsInLists(s)
    ensures SelectionReadable(s)
  {
  }

  /** The state right after start-up, once the directory has been read with the query "". */
  function Initial(listing: seq<DirEntry>): LoopState
  {
    LoopState([], 2, [0, 0, 0, 0], [0, 0, 0, 0], Directories(listing), RegularFiles(listing), [],
              FirstMatch(Directories(listing) + RegularFiles(listing) + [], []))
  }

  /** The initial state is valid and its selections are readable. */
  lemma InitialValid(listing: seq<DirEntry>)
    ensures ValidState(Initial(listing)) && SelectionsInLists(Initial(listing))
    ensures Initial(listing).currentBox == 2
  {
  }

  // ---------------------------------------------------------------- render

  /** The name given the command style: the best match's, while Search has focus. */
  function BestName(s: LoopState): Option<string>
  {
    if s.currentBox == 2 && s.bestMatch.Some? then Some(s.bestMatch.value.name) else None
  }

  function Styling(s: LoopState, i: int): RowStyling
    requires ValidState(s) && 0 <= i < PaneCount
  {
    RowStyling(s.selected[i], s.currentBox == i, TextStyle, HighlightStyle, BestName(s), CommandStyle)
  }

  /** Where list pane `i` (0 or 1) starts on screen. */
  function PaneX(i: int, d: Dims): int
  {
    if i == 0 then 0 else d.boxWidth
  }

  /**
   * The rows of list pane `i`: entries `scroll ..` while fewer than `increased - 3` rows are
   * drawn, each name from column `x + 3` and cut at the screen's right edge.
   */
  function PaneRows(s: LoopState, i: int, d: Dims, width: int): seq<Cell>
    requires ValidState(s) && (i == 0 || i == 1)
  {
    WindowRows(PaneX(i, d) + 3, 0, width - PaneX(i, d) - 3, Boxes(s)[i], s.scroll[i], d.increased - 3,
               Styling(s, i), s.scroll[i])
  }

  /** The modelled part of a frame: the four titles, then the rows of the directory and file panes. */
  function FrameCells(s: LoopState, titles: seq<string>, width: int, height: int): seq<Cell>
    requires ValidState(s)
  {
    var d := BoxDimensions(width, height);
    TitleCells(titles, d, TextStyle, 0) + PaneRows(s, 0, d, width) + PaneRows(s, 1, d, width)
  }

  /**
   * The entry the info pane describes (main.go:274-279): the selection of a focused,
   * non-empty list pane, or the best match while Search has focus.
   */
  function InfoFile(s: LoopState): Option<FileInfo>
    requires ValidState(s) && SelectionReadable(s)
  {
    if (s.currentBox == 0 || s.currentBox == 1) && |Boxes(s)[s.currentBox]| > 0 then
      Some(Boxes(s)[s.currentBox][s.selected[s.currentBox]])
    else if s.currentBox == 2 && s.bestMatch.Some? then s.bestMatch
    else None
  }

  /** The info pane shows an entry of the focused list, or the best match (itself in a list) on Search. */
  lemma InfoFileIsListed(s: LoopState)
    requires ValidState(s) && SelectionReadable(s) && s.bestMatch == BestOf(s)
    ensures InfoFile(s).Some? && s.currentBox != 2 ==>
      s.currentBox < 2 && InfoFile(s).value in Boxes(s)[s.currentBox]
    ensures InfoFile(s).Some? && s.currentBox == 2 ==>
      InfoFile(s).value in Boxes(s)[0] + Boxes(s)[1] && Matches(InfoFile(s).value, s.userInput)
    ensures s.currentBox == 3 ==> InfoFile(s) == None
  {
    if s.currentBox == 2 && s.bestMatch.Some? {
      FirstMatchSpec(Boxes(s)[0] + Boxes(s)[1] + [], s.userInput);
      assert Boxes(s)[0] + Boxes(s)[1] + [] == Boxes(s)[0] + Boxes(s)[1];
    }
  }

  /**
   * Within a frame, only the selected row of the focused list pane is highlighted: every
   * highlighted cell is on the screen row of that pane's selection, and Search and File
   * Info focus highlight nothing.
   */
  lemma {:induction false} HighlightOnlyOnSelection(s: LoopState, titles: seq<string>, width: int, height: int)
    requires ValidState(s)
    ensures forall c :: c in FrameCells(s, titles, width, height) && c.style == HighlightStyle ==>
      (s.currentBox == 0 || s.currentBox == 1) && c.y == 1 + s.selected[s.currentBox] - s.scroll[s.currentBox]
  {
    var d := BoxDimensions(width, height);
    TitleCellsStyle(titles, d, TextStyle, 0);
    forall i | i == 0 || i == 1
      ensures forall c :: c in PaneRows(s, i, d, width) && c.style == HighlightStyle ==>
        s.currentBox == i && c.y == 1 + s.selected[i] - s.scroll[i]
    {
      WindowRowsSound(PaneX(i, d) + 3, 0, width - PaneX(i, d) - 3, Boxes(s)[i], s.scroll[i], d.increased - 3,
                      Styling(s, i), s.scroll[i]);
    }
  }

  /**
   * The drawing of main.go:213-271 for state `s`, whose filtered lists are `boxes`: the
   * titles at the pane corners, then the visible rows of each non-nil list.
   */
  method DrawFrame(s: LoopState, boxes: seq<seq<FileInfo>>, titles: seq<string>, width: int, height: int)
    returns (cells: seq<Cell>)
    requires ValidState(s) && boxes == Boxes(s)
    ensures cells == FrameCells(s, titles, width, height)
  {
    var d := BoxDimensions(width, height);
    var titleCells := WriteTitles(titles, d, TextStyle);
    var rows0 := WriteWindow(PaneX(0, d) + 3, 0, width - PaneX(0, d) - 3, boxes[0], s.scroll[0], d.increased - 3,
      Styling(s, 0));
    var rows1 := WriteWindow(PaneX(1, d) + 3, 0, width - PaneX(1, d) - 3, boxes[1], s.scroll[1], d.increased - 3,
      Styling(s, 1));
    assert rows0 == PaneRows(s, 0, d, width);
    assert rows1 == PaneRows(s, 1, d, width);
    cells := titleCells + rows0 + rows1;
  }

  // ---------------------------------------------------------------- key handling

  /** The reset after a successful `os.Chdir("..")`, with the new directory read with the query "". */
  function Reread(s: LoopState, listing: seq<DirEntry>): LoopState
  {
    s.(userInput := [], scroll := [0, 0, 0, 0], selected := [0, 0, 0, 0],
       directories := Matching(Directories(listing), []), regularFiles := Matching(RegularFiles(listing), []),
       hiddenFiles := [], bestMatch := FirstMatch(Directories(listing) + RegularFiles(listing) + [], []))
  }

  /**
   * The event can be handled without an index panic: Down reads `boxes[currentBox]`, which
   * exists for panes 0-2 only, and Enter reads the selected entry of a list pane.
   */
  predicate KeyDefined(s: LoopState, e: Event)
    requires ValidState(s)
  {
    (e.KeyEvent? && e.key == KeyDown ==> s.currentBox < |Boxes(s)|) &&
    (e.KeyEvent? && e.key == KeyEnter ==> SelectionReadable(s))
  }

  datatype StepResult = StepResult(state: LoopState, outcome: Outcome)

  /** Enter (main.go:406-416): open the best match or the selected file, or enter the selected directory. */
  function EnterOutcome(s: LoopState, editor: string): Outcome
    requires ValidState(s) && SelectionReadable(s)
  {
    if s.currentBox == 2 && s.bestMatch.Some? then Perform(OpenInEditor(editor, s.bestMatch.value.name))
    else if s.currentBox == 1 && |Boxes(s)[1]| > 0 then Perform(OpenInEditor(editor, Boxes(s)[1][s.selected[1]].name))
    else if s.currentBox == 0 && |Boxes(s)[0]| > 0 then Perform(ChangeDirectory(Boxes(s)[0][s.selected[0]].name, false))
    else Continue
  }

  /**
   * The key handler of main.go:363-430 on the state `s` of the frame just drawn with layout
   * `d`. `chdirOk` is whether `os.Chdir("..")` succeeds, `relisted` what `os.ReadDir`
   * returns afterwards (`None` when it fails).
   */
  function KeyStep(s: LoopState, e: Event, d: Dims, editor: string, chdirOk: bool,
                   relisted: Option<seq<DirEntry>>): StepResult
    requires ValidState(s) && KeyDefined(s, e)
  {
    match e
    case ResizeEvent => StepResult(s, Continue)
    case KeyEvent(k, r, _) =>
      if k == KeyCtrlC then StepResult(s, Quit)
      else if k == KeyEscape then
        if !chdirOk then StepResult(s, Continue)
        else if relisted.None? then StepResult(s, ExitWith(1))
        else StepResult(Reread(s, relisted.value), Continue)
      else if k == KeyTab then StepResult(s.(currentBox := NextBox(s.currentBox)), Continue)
      else if k == KeyUp then
        var b := s.currentBox;
        var c := MoveUp(Cursor(s.selected[b], s.scroll[b]));
        StepResult(s.(selected := s.selected[b := c.selected], scroll := s.scroll[b := c.scroll]), Continue)
      else if k == KeyDown then
        var b := s.currentBox;
        var c := MoveDown(Cursor(s.selected[b], s.scroll[b]), |Boxes(s)[b]|, MaxHeight(b, d.increased, d.half));
        StepResult(s.(selected := s.selected[b := c.selected], scroll := s.scroll[b := c.scroll]), Continue)
      else if k == KeyEnter then StepResult(s, EnterOutcome(s, editor))
      else if k == KeyBackspace || k == KeyBackspace2 then
        if s.currentBox == 2 && |s.userInput| > 0 then
          StepResult(s.(userInput := s.userInput[..|s.userInput| - 1]), Continue)
        else StepResult(s, Continue)
      else if r != '\0' && s.currentBox == 2 then StepResult(s.(userInput := s.userInput + [r]), Continue)
      else StepResult(s, Continue)
  }

  /** Every handled event keeps the state valid. */
  lemma KeyStepPreservesValid(s: LoopState, e: Event, d: Dims, editor: string, chdirOk: bool,
                              relisted: Option<seq<DirEntry>>)
    requires ValidState(s) && KeyDefined(s, e)
    ensures ValidState(KeyStep(s, e, d, editor, chdirOk, relisted).state)
  {
    var t := KeyStep(s, e, d, editor, chdirOk, relisted).state;
    if e.KeyEvent? && (e.key == KeyUp || e.key == KeyDown) {
      var b := s.currentBox;
      assert Ordered(Cursor(s.selected[b], s.scroll[b]));
      forall b' | 0 <= b' < PaneCount ensures Ordered(Cursor(t.selected[b'], t.scroll[b']))
      {
        if b' != b {
          assert Ordered(Cursor(s.selected[b'], s.scroll[b']));
        }
      }
    }
  }

  /** Up moves the focused pane's cursor as `MoveUp` does and leaves everything else alone. */
  lemma KeyStepUp(s: LoopState, e: Event, d: Dims, editor: string, chdirOk: bool, relisted: Option<seq<DirEntry>>)
    requires ValidState(s) && KeyDefined(s, e) && e.KeyEvent? && e.key == KeyUp
    ensures var c := MoveUp(Cursor(s.selected[s.currentBox], s.scroll[s.currentBox]));
            KeyStep(s, e, d, editor, chdirOk, relisted) ==
            StepResult(s.(selected := s.selected[s.currentBox := c.selected], scroll := s.scroll[s.currentBox := c.scroll]),
                       Continue)
  {
  }

  /** Down moves the focused pane's cursor as `MoveDown` does, within its list and window. */
  lemma KeyStepDown(s: LoopState, e: Event, d: Dims, editor: string, chdirOk: bool, relisted: Option<seq<DirEntry>>)
    requires ValidState(s) && KeyDefined(s, e) && e.KeyEvent? && e.key == KeyDown
    ensures s.currentBox < 3
    ensures var c := MoveDown(Cursor(s.selected[s.currentBox], s.scroll[s.currentBox]), |Boxes(s)[s.currentBox]|,
                              MaxHeight(s.currentBox, d.increased, d.half));
            KeyStep(s, e, d, editor, chdirOk, relisted) ==
            StepResult(s.(selected := s.selected[s.currentBox := c.selected], scroll := s.scroll[s.currentBox := c.scroll]),
                       Continue)
  {
  }

  /**
   * Escape: after a successful `os.Chdir("..")` the search text is cleared and every
   * selection and window start goes back to 0, with focus unchanged; a failed Chdir
   * changes nothing; a failed re-read exits with status 1.
   */
  lemma EscapeResets(s: LoopState, d: Dims, editor: string, chdirOk: bool, relisted: Option<seq<DirEntry>>)
    requires ValidState(s)
    ensures var o := KeyStep(s, KeyEvent(KeyEscape, '\0', false), d, editor, chdirOk, relisted);
            !chdirOk ==> o == StepResult(s, Continue)
    ensures var o := KeyStep(s, KeyEvent(KeyEscape, '\0', false), d, editor, chdirOk, relisted);
            chdirOk && relisted.None? ==> o.outcome == ExitWith(1)
    ensures var o := KeyStep(s, KeyEvent(KeyEscape, '\0', false), d, editor, chdirOk, relisted);
            chdirOk && relisted.Some? ==>
              o.outcome == Continue && o.state.userInput == [] && o.state.currentBox == s.currentBox &&
              (forall b :: 0 <= b < PaneCount ==> o.state.selected[b] == 0 && o.state.scroll[b] == 0) &&
              o.state.directories == Directories(relisted.value) &&
              o.state.regularFiles == RegularFiles(relisted.value) &&
              SelectionsInLists(o.state)
  {
    if chdirOk && relisted.Some? {
      MatchingEmptyQuery(Directories(relisted.value));
      MatchingEmptyQuery(RegularFiles(relisted.value));
    }
  }

  /**
   * Keys that do not edit the search text keep every selection inside its list; editing
   * keys change only the search text, and only on the Search pane.
   */
  lemma NavigationKeepsSelectionsInLists(s: LoopState, e: Event, d: Dims, editor: string, chdirOk: bool,
                                         relisted: Option<seq<DirEntry>>)
    requires ValidState(s) && KeyDefined(s, e) && SelectionsInLists(s)
    ensures var t := KeyStep(s, e, d, editor, chdirOk, relisted).state;
            t.userInput == s.userInput ==> ValidState(t) && SelectionsInLists(t)
    ensures var t := KeyStep(s, e, d, editor, chdirOk, relisted).state;
            t.userInput != s.userInput && !(e.KeyEvent? && e.key == KeyEscape) ==>
              s.currentBox == 2 && t == s.(userInput := t.userInput)
  {
    var t := KeyStep(s, e, d, editor, chdirOk, relisted).state;
    KeyStepPreservesValid(s, e, d, editor, chdirOk, relisted);
    if e.ResizeEvent? {
      assert t == s;
    } else if e.key == KeyEscape {
      if chdirOk && relisted.Some? {
        EscapeResets(s, d, editor, chdirOk, relisted);
      } else {
        assert t == s;
      }
    } else if e.key in {KeyTab, KeyUp, KeyDown} {
      assert t.userInput == s.userInput && t.directories == s.directories;
      assert t.regularFiles == s.regularFiles && t.hiddenFiles == s.hiddenFiles;
      assert Boxes(t) == Boxes(s);
    } else {
      assert t == s.(userInput := t.userInput);
    }
  }

  /**
   * Down on the File Info pane panics: one Tab from the start-up state focuses pane 3, and
   * there Down would read `boxes[3]` of a three-element list.
   */
  lemma DownOnInfoPaneUndefined(listing: seq<DirEntry>, d: Dims, editor: string, chdirOk: bool,
                                relisted: Option<seq<DirEntry>>)
    ensures var t := KeyStep(Initial(listing), KeyEvent(KeyTab, '\t', false), d, editor, chdirOk, relisted).state;
            ValidState(t) && t.currentBox == 3 && !KeyDefined(t, KeyEvent(KeyDown, '\0', false))
  {
    var s := Initial(listing);
    assert ValidState(s);
    KeyStepPreservesValid(s, KeyEvent(KeyTab, '\t', false), d, editor, chdirOk, relisted);
  }

  /** A regular file named `name`, for the example below. */
  function Sample(name: string): FileInfo
  {
    FileInfo(name, "-rw-r--r--", "", 0, "Regular File", "", "")
  }

  /** The query "a" keeps "a" and drops "b"; the empty query keeps both. */
  lemma SampleFilter()
    ensures Matching([Sample("a"), Sample("b")], "a") == [Sample("a")]
    ensures Matching([Sample("a"), Sample("b")], []) == [Sample("a"), Sample("b")]
  {
    var fa, fb := Sample("a"), Sample("b");
    var a: string := "a";
    var b: string := "b";
    assert Lower(a) == a by { assert Lower(a)[0] == LowerChar('a') == 'a'; }
    assert Lower(b) == b by { assert Lower(b)[0] == LowerChar('b') == 'b'; }
    assert Matches(fa, a);
    assert !Matches(fb, a) by {
      assert a[0] != b[0];
      assert !(a <= b);
      assert b[1..] == [];
      assert !Contains(b[1..], a);
    }
    assert [fa, fb][..1] == [fa] && [fa][..0] == [];
    assert Matching([fa], a) == [fa];
    MatchingEmptyQuery([fa, fb]);
  }

  /** Tab moves focus to the next pane and changes nothing else. */
  lemma TabStep(s: LoopState, d: Dims, editor: string, chdirOk: bool, relisted: Option<seq<DirEntry>>)
    requires ValidState(s)
    ensures KeyDefined(s, KeyEvent(KeyTab, '\t', false))
    ensures KeyStep(s, KeyEvent(KeyTab, '\t', false), d, editor, chdirOk, relisted) ==
            StepResult(s.(currentBox := NextBox(s.currentBox)), Continue)
  {
  }

  /** A non-zero rune typed on Search, with or without Alt, is appended to the search text; nothing else changes. */
  lemma TypeStep(s: LoopState, r: char, alt: bool, d: Dims, editor: string, chdirOk: bool, relisted: Option<seq<DirEntry>>)
    requires ValidState(s) && s.currentBox == 2 && r != '\0'
    ensures KeyDefined(s, KeyEvent(KeyRune, r, alt))
    ensures KeyStep(s, KeyEvent(KeyRune, r, alt), d, editor, chdirOk, relisted) ==
            StepResult(s.(userInput := s.userInput + [r]), Continue)
  {
  }

  /**
   * Typing can leave a selection past the end of its list: with files "a" and "b" and "b"
   * selected, typing "a" on Search and tabbing on to Files makes the Files list `["a"]`
   * while its selection is still 1, so the render's `boxes[1][selectedIndices[1]]` is out
   * of range.
   */
  lemma StaleSelectionAfterTyping(d: Dims, editor: string)
    ensures var s0 := LoopState([], 2, [0, 0, 0, 0], [0, 1, 0, 0], [], [Sample("a"), Sample("b")], [], None);
            var tab := KeyEvent(KeyTab, '\t', false);
            var s1 := s0.(userInput := "a");
            var s2 := s1.(currentBox := 3);
            var s3 := s1.(currentBox := 0);
            var s4 := s1.(currentBox := 1);
            ValidState(s0) && SelectionsInLists(s0) && ValidState(s1) && ValidState(s2) && ValidState(s3) &&
            KeyDefined(s0, KeyEvent(KeyRune, 'a', false)) &&
            KeyStep(s0, KeyEvent(KeyRune, 'a', false), d, editor, false, None) == StepResult(s1, Continue) &&
            KeyStep(s1, tab, d, editor, false, None) == StepResult(s2, Continue) &&
            KeyStep(s2, tab, d, editor, false, None) == StepResult(s3, Continue) &&
            KeyStep(s3, tab, d, editor, false, None) == StepResult(s4, Continue) &&
            ValidState(s4) && Boxes(s4)[1] == [Sample("a")] && s4.selected[1] == 1 && !SelectionReadable(s4)
  {
    var files := [Sample("a"), Sample("b")];
    SampleFilter();
    assert files + [] == files;
    var s0 := LoopState([], 2, [0, 0, 0, 0], [0, 1, 0, 0], [], files, [], None);
    assert ValidState(s0) && SelectionsInLists(s0);
    var s1 := s0.(userInput := "a");
    TypeStep(s0, 'a', false, d, editor, false, None);
    assert s0.userInput + ['a'] == "a";
    TabStep(s1, d, editor, false, None);
    TabStep(s1.(currentBox := 3), d, editor, false, None);
    TabStep(s1.(currentBox := 0), d, editor, false, None);
    assert Boxes(s1.(currentBox := 1))[1] == [Sample("a")];
  }

  // ---------------------------------------------------------------- the loop's variables

  class Session {
    var userInput: string
    var currentBox: int
    var scrollPositions: seq<int>
    var selectedIndices: seq<int>
    var directories: seq<FileInfo>
    var regularFiles: seq<FileInfo>
    var hiddenFiles: seq<FileInfo>
    var bestMatch: Option<FileInfo>
    /** `config.PreferredEditor`. */
    const editor: string

    function State(): LoopState
      reads this
    {
      LoopState(userInput, currentBox, scrollPositions, selectedIndices, directories, regularFiles,
                hiddenFiles, bestMatch)
    }

    /**
     * Start-up (main.go:164-178): focus on Search, zero selections and window starts, and
     * the directory read with the empty query. `listing` is what `os.ReadDir(".")` returns;
     * its failure exits before the loop starts.
     */
    constructor (editor: string, listing: seq<DirEntry>)
      ensures State() == Initial(listing) && this.editor == editor
    {
      var query: string := [];
      var r := ReadDirectoryAndUpdateBestMatch(Some(listing), query);
      MatchingEmptyQuery(Directories(listing));
      MatchingEmptyQuery(RegularFiles(listing));
      this.editor := editor;
      userInput := query;
      currentBox := 2;
      scrollPositions := [0, 0, 0, 0];
      selectedIndices := [0, 0, 0, 0];
      directories, regularFiles, hiddenFiles, bestMatch := r.directories, r.regularFiles, r.hiddenFiles, r.bestMatch;
    }

    /**
     * The drawing half of one turn (main.go:201-279) on a `width` x `height` screen: it
     * recomputes the best match from the filtered lists and returns the title and list
     * cells, and the entry the info pane describes.
     */
    method Render(width: int, height: int) returns (cells: seq<Cell>, info: Option<FileInfo>)
      requires ValidState(State()) && SelectionReadable(State())
      modifies this
      ensures State() == old(State()).(bestMatch := BestOf(old(State())))
      ensures cells == FrameCells(State(), Titles, width, height)
      ensures info == InfoFile(State())
    {
      var filteredDirectories := FilterFiles(directories, userInput);
      var filteredFiles := FilterFiles(regularFiles + hiddenFiles, userInput);
      bestMatch := FindBestMatch(filteredDirectories, filteredFiles, [], userInput);
      var boxes := [filteredDirectories, filteredFiles, []];
      cells := DrawFrame(State(), boxes, Titles, width, height);
      if (currentBox == 0 || currentBox == 1) && |boxes[currentBox]| > 0 {
        info := Some(boxes[currentBox][selectedIndices[currentBox]]);
      } else if currentBox == 2 && bestMatch.Some? {
        info := bestMatch;
      } else {
        info := None;
      }
    }

    /**
     * The key-handling half of one turn (main.go:362-430), on the frame just drawn for a
     * `width` x `height` screen.
     */
    method HandleKey(e: Event, width: int, height: int, chdirOk: bool, relisted: Option<seq<DirEntry>>)
      returns (outcome: Outcome)
      requires ValidState(State()) && KeyDefined(State(), e)
      modifies this
      ensures var o := KeyStep(old(State()), e, BoxDimensions(width, height), editor, chdirOk, relisted);
              State() == o.state && outcome == o.outcome
    {
      outcome := Continue;
      if e.ResizeEvent? {
        return;
      }
      var k := e.key;
      if k == KeyEscape {
        outcome := GoToParent(e, width, height, chdirOk, relisted);
      } else if k == KeyUp || k == KeyDown {
        MoveSelection(e, width, height, chdirOk, relisted);
      } else if k == KeyEnter {
        outcome := Open(e, width, height, chdirOk, relisted);
      } else {
        outcome := EditOrFocus(e, width, height, chdirOk, relisted);
      }
    }

    /** Escape: `os.Chdir("..")`, then the reset and the re-read of the new directory. */
    method GoToParent(e: Event, width: int, height: int, chdirOk: bool, relisted: Option<seq<DirEntry>>)
      returns (outcome: Outcome)
      requires ValidState(State()) && e.KeyEvent? && e.key == KeyEscape
      modifies this
      ensures var o := KeyStep(old(State()), e, BoxDimensions(width, height), editor, chdirOk, relisted);
              State() == o.state && outcome == o.outcome
    {
      ghost var s := State();
      ghost var o := KeyStep(s, e, BoxDimensions(width, height), editor, chdirOk, relisted);
      outcome := Continue;
      if chdirOk {
        var r := ReadDirectoryAndUpdateBestMatch(relisted, []);
        if r.ExitedWith? {
          outcome := ExitWith(r.code);
          assert o == StepResult(s, ExitWith(1));
        } else {
          userInput := [];
          scrollPositions := [0, 0, 0, 0];
          selectedIndices := [0, 0, 0, 0];
          directories, regularFiles, hiddenFiles, bestMatch := r.directories, r.regularFiles, r.hiddenFiles, r.bestMatch;
          assert o == StepResult(Reread(s, relisted.value), Continue);
        }
      } else {
        assert o == StepResult(s, Continue);
      }
    }

    /** Up and Down on the focused pane, with the window height of that pane. */
    method MoveSelection(e: Event, width: int, height: int, chdirOk: bool, relisted: Option<seq<DirEntry>>)
      requires ValidState(State()) && KeyDefined(State(), e) && e.KeyEvent? && (e.key == KeyUp || e.key == KeyDown)
      modifies this
      ensures var o := KeyStep(old(State()), e, BoxDimensions(width, height), editor, chdirOk, relisted);
              State() == o.state && o.outcome == Continue
    {
      ghost var s := State();
      if e.key == KeyUp {
        SelectionUp();
        KeyStepUp(s, e, BoxDimensions(width, height), editor, chdirOk, relisted);
      } else {
        SelectionDown(width, height);
        KeyStepDown(s, e, BoxDimensions(width, height), editor, chdirOk, relisted);
      }
    }

    /** Up (main.go:384-391): one row up, the window following when the selection leaves its top. */
    method SelectionUp()
      requires ValidState(State())
      modifies this
      ensures var s := old(State());
              var c := MoveUp(Cursor(s.selected[s.currentBox], s.scroll[s.currentBox]));
              State() == s.(selected := s.selected[s.currentBox := c.selected],
                            scroll := s.scroll[s.currentBox := c.scroll])
    {
      ghost var s := State();
      ghost var c := MoveUp(Cursor(s.selected[currentBox], s.scroll[currentBox]));
      if selectedIndices[currentBox] > 0 {
        selectedIndices := selectedIndices[currentBox := selectedIndices[currentBox] - 1];
        if selectedIndices[currentBox] < scrollPositions[currentBox] {
          scrollPositions := scrollPositions[currentBox := scrollPositions[currentBox] - 1];
        }
      }
      assert selectedIndices == s.selected[currentBox := c.selected];
      assert scrollPositions == s.scroll[currentBox := c.scroll];
    }

    /**
     * Down (main.go:392-405): one row down within the focused pane's list, the window
     * following when the selection reaches its last three rows.
     */
    method SelectionDown(width: int, height: int)
      requires ValidState(State()) && State().currentBox < 3
      modifies this
      ensures var s := old(State());
              var c := MoveDown(Cursor(s.selected[s.currentBox], s.scroll[s.currentBox]), |Boxes(s)[s.currentBox]|,
                                MaxHeight(s.currentBox, BoxDimensions(width, height).increased,
                                          BoxDimensions(width, height).half));
              State() == s.(selected := s.selected[s.currentBox := c.selected],
                            scroll := s.scroll[s.currentBox := c.scroll])
    {
      ghost var s := State();
      var boxes: seq<seq<FileInfo>> := Boxes(State());
      var d := BoxDimensions(width, height);
      var maxHeight := 0;
      if currentBox == 0 || currentBox == 1 {
        maxHeight := d.increased;
      } else if currentBox == 2 || currentBox == 3 {
        maxHeight := d.half;
      }
      assert maxHeight == MaxHeight(currentBox, d.increased, d.half);
      ghost var c := MoveDown(Cursor(s.selected[currentBox], s.scroll[currentBox]), |boxes[currentBox]|, maxHeight);
      if selectedIndices[currentBox] < |boxes[currentBox]| - 1 {
        selectedIndices := selectedIndices[currentBox := selectedIndices[currentBox] + 1];
        if selectedIndices[currentBox] >= scrollPositions[currentBox] + maxHeight - 3 {
          scrollPositions := scrollPositions[currentBox := scrollPositions[currentBox] + 1];
        }
      }
      assert selectedIndices == s.selected[currentBox := c.selected];
      assert scrollPositions == s.scroll[currentBox := c.scroll];
    }

    /** Enter: the editor on the best match or the selected file, or a re-run in the selected directory. */
    method Open(e: Event, width: int, height: int, chdirOk: bool, relisted: Option<seq<DirEntry>>)
      returns (outcome: Outcome)
      requires ValidState(State()) && KeyDefined(State(), e) && e.KeyEvent? && e.key == KeyEnter
      ensures var o := KeyStep(State(), e, BoxDimensions(width, height), editor, chdirOk, relisted);
              State() == o.state && outcome == o.outcome
    {
      var boxes: seq<seq<FileInfo>> := Boxes(State());
      outcome := Continue;
      if currentBox == 2 && bestMatch.Some? {
        outcome := Perform(OpenInEditor(editor, bestMatch.value.name));
      } else if currentBox == 1 && |boxes[currentBox]| > 0 {
        outcome := Perform(OpenInEditor(editor, boxes[currentBox][selectedIndices[currentBox]].name));
      } else if currentBox == 0 && |boxes[currentBox]| > 0 {
        outcome := Perform(ChangeDirectory(boxes[currentBox][selectedIndices[currentBox]].name, false));
      }
    }

    /** Ctrl-C, Tab, Backspace and the default case that types a rune into Search. */
    method EditOrFocus(e: Event, width: int, height: int, chdirOk: bool, relisted: Option<seq<DirEntry>>)
      returns (outcome: Outcome)
      requires ValidState(State()) && e.KeyEvent?
      requires e.key !in {KeyEscape, KeyUp, KeyDown, KeyEnter}
      modifies this
      ensures var o := KeyStep(old(State()), e, BoxDimensions(width, height), editor, chdirOk, relisted);
              State() == o.state && outcome == o.outcome
    {
      outcome := Continue;
      var k := e.key;
      if k == KeyCtrlC {
        outcome := Quit;
      } else if k == KeyTab {
        currentBox := GoRem(currentBox + 1, |Titles|);
      } else if k == KeyBackspace || k == KeyBackspace2 {
        if currentBox == 2 && |userInput| > 0 {
          userInput := userInput[..|userInput| - 1];
        }
      } else if e.r != '\0' {
        if currentBox == 2 {
          userInput := userInput + [e.r];
        }
      }
    }
  }
}
