/**
 * The drawing arithmetic of ui/ui.go: pane geometry (`CalculateBoxDimensions`, which also
 * sets the package globals that events/events.go reads), the visible window of a pane's
 * list (`DrawBox`), the pane titles (`DrawTitles`), clipped text (`displayText`,
 * `truncateString`), the unit choice of `formatFileSize`, and the info pane
 * (`DisplayFileInfo`).
 */
module Layout {
  import opened Wrappers
  import opened Screen
  import opened Catalog

  /** The four pane titles, in pane order. */
  const Titles: seq<string> := ["Directories", "Files", "Search", "File Info"]

  /** Go's `/` on `int`: the quotient is truncated toward zero. */
  function GoDiv(a: int, b: int): (q: int)
    requires b > 0
    ensures a >= 0 ==> q == a / b
    ensures a < 0 ==> q == -((-a) / b)
  {
    if a >= 0 then a / b else -((-a) / b)
  }

  /** The four numbers `CalculateBoxDimensions` returns. */
  datatype Dims = Dims(boxWidth: int, boxHeight: int, half: int, increased: int)

  /**
   * Pane geometry for a `width` x `height` screen: the upper panes are `increased` rows
   * tall, the lower panes `half` rows, and each pane is `boxWidth` columns wide. On a real
   * screen the four panes fit, leaving at most one spare column and two spare rows.
   */
  function BoxDimensions(width: int, height: int): (d: Dims)
    ensures width >= 0 && height >= 0 ==>
      && 0 <= d.half <= d.boxHeight <= d.increased
      && width - 1 <= 2 * d.boxWidth <= width
      && height - 2 <= d.increased + d.half <= height
  {
    var boxWidth := GoDiv(width, 2);
    var boxHeight := GoDiv(height, 2);
    var half := GoDiv(boxHeight, 2);
    Dims(boxWidth, boxHeight, half, boxHeight + half)
  }

  /** Where title `k` is written: the top-left corner of its pane, one column in. */
  function TitleOrigin(k: int, d: Dims): (int, int)
  {
    if k == 0 then (1, 0)
    else if k == 1 then (d.boxWidth + 1, 0)
    else if k == 2 then (1, d.increased)
    else (d.boxWidth + 1, d.increased)
  }

  /** The cells of `titles[k..]`, title `k` written at `TitleOrigin(k, d)`. */
  function TitleCells(titles: seq<string>, d: Dims, style: Style, k: nat): seq<Cell>
    requires k <= |titles|
    decreases |titles| - k
  {
    if k == |titles| then []
    else
      PlainCells(titles[k], 0, TitleOrigin(k, d).0, TitleOrigin(k, d).1, style) + TitleCells(titles, d, style, k + 1)
  }

  /**
   * ui/ui.go's package state: `IncreasedBoxHeight` and `HalfBoxHeight` are written by
   * `CalculateBoxDimensions` and read by the key handler in events/events.go.
   */
  class Globals {
    var increasedBoxHeight: int
    var halfBoxHeight: int

    /** Go's zero values, before any layout has been computed. */
    constructor ()
      ensures increasedBoxHeight == 0 && halfBoxHeight == 0
    {
      increasedBoxHeight := 0;
      halfBoxHeight := 0;
    }

    /** `CalculateBoxDimensions`: compute the geometry and publish the two heights. */
    method CalculateBoxDimensions(width: int, height: int) returns (d: Dims)
      modifies this
      ensures d == BoxDimensions(width, height)
      ensures halfBoxHeight == d.half && increasedBoxHeight == d.increased
    {
      var boxWidth := GoDiv(width, 2);
      var boxHeight := GoDiv(height, 2);
      halfBoxHeight := GoDiv(boxHeight, 2);
      increasedBoxHeight := boxHeight + halfBoxHeight;
      d := Dims(boxWidth, boxHeight, halfBoxHeight, increasedBoxHeight);
    }

    /**
     * `DrawTitles`: its `x`, `y` and string arguments are unused; the titles go to the
     * pane corners of the layout for `width` x `height`, whose heights are published as a
     * side effect.
     */
    method DrawTitles(x: int, y: int, width: int, height: int, style: Style) returns (cells: seq<Cell>)
      modifies this
      ensures cells == TitleCells(Titles, BoxDimensions(width, height), style, 0)
      ensures halfBoxHeight == BoxDimensions(width, height).half
      ensures increasedBoxHeight == BoxDimensions(width, height).increased
    {
      var d := CalculateBoxDimensions(width, height);
      cells := WriteTitles(Titles, d, style);
    }
  }

  /** Appending title `k` to the cells of the titles before it leaves those after it to draw. */
  lemma TitleCellsStep(titles: seq<string>, d: Dims, style: Style, k: nat, done: seq<Cell>, written: seq<Cell>)
    requires k < |titles|
    requires done + TitleCells(titles, d, style, k) == TitleCells(titles, d, style, 0)
    requires written == PlainCells(titles[k], 0, TitleOrigin(k, d).0, TitleOrigin(k, d).1, style)
    ensures (done + written) + TitleCells(titles, d, style, k + 1) == TitleCells(titles, d, style, 0)
  {
    AppendAssociates(done, written, TitleCells(titles, d, style, k + 1));
  }

  /** The loop of `DrawTitles` over its titles, at the corners of layout `d`. */
  method WriteTitles(titles: seq<string>, d: Dims, style: Style) returns (cells: seq<Cell>)
    ensures cells == TitleCells(titles, d, style, 0)
  {
    cells := [];
    for k := 0 to |titles|
      invariant cells + TitleCells(titles, d, style, k) == TitleCells(titles, d, style, 0)
    {
      var written := WriteAllRunes(titles[k], TitleOrigin(k, d).0, TitleOrigin(k, d).1, style);
      TitleCellsStep(titles, d, style, k, cells, written);
      cells := cells + written;
    }
  }

  lemma TitlesAreAscii()
    ensures forall k :: 0 <= k < |Titles| ==> IsAscii(Titles[k])
  {
    assert IsAscii(Titles[0]);
    assert IsAscii(Titles[1]);
    assert IsAscii(Titles[2]);
    assert IsAscii(Titles[3]);
  }

  /** The total length of `titles[m..]`. */
  function TitlesLength(titles: seq<string>, m: nat): nat
    requires m <= |titles|
    decreases |titles| - m
  {
    if m == |titles| then 0 else |titles[m]| + TitlesLength(titles, m + 1)
  }

  /**
   * For ASCII titles, exactly one cell per rune is written, and rune `j` of title `k` lands
   * `j` columns right of the title's origin.
   */
  lemma {:induction false} TitleCellsAt(titles: seq<string>, d: Dims, style: Style, m: nat)
    requires m <= |titles|
    requires forall k :: 0 <= k < |titles| ==> IsAscii(titles[k])
    ensures |TitleCells(titles, d, style, m)| == TitlesLength(titles, m)
    ensures forall k, j :: m <= k < |titles| && 0 <= j < |titles[k]| ==>
      Cell(TitleOrigin(k, d).0 + j, TitleOrigin(k, d).1, titles[k][j], style) in TitleCells(titles, d, style, m)
    decreases |titles| - m
  {
    if m < |titles| {
      TitleCellsAt(titles, d, style, m + 1);
      var tx, ty := TitleOrigin(m, d).0, TitleOrigin(m, d).1;
      PlainCellsAscii(titles[m], 0, tx, ty, style);
      var head := PlainCells(titles[m], 0, tx, ty, style);
      var rest := TitleCells(titles, d, style, m + 1);
      assert TitleCells(titles, d, style, m) == head + rest;
      forall k, j | m <= k < |titles| && 0 <= j < |titles[k]|
        ensures Cell(TitleOrigin(k, d).0 + j, TitleOrigin(k, d).1, titles[k][j], style) in head + rest
      {
        if k == m {
          assert head[j] == Cell(tx + j, ty, titles[m][j], style);
        } else {
          assert Cell(TitleOrigin(k, d).0 + j, TitleOrigin(k, d).1, titles[k][j], style) in rest;
        }
      }
    }
  }

  /** Title cells carry the style they were drawn with, on the row of their pane's top border. */
  lemma {:induction false} TitleCellsStyle(titles: seq<string>, d: Dims, style: Style, k: nat)
    requires k <= |titles|
    ensures forall c :: c in TitleCells(titles, d, style, k) ==>
      c.style == style && (c.y == 0 || c.y == d.increased)
    decreases |titles| - k
  {
    if k < |titles| {
      PlainCellsBounds(titles[k], 0, TitleOrigin(k, d).0, TitleOrigin(k, d).1, style);
      TitleCellsStyle(titles, d, style, k + 1);
    }
  }

  /** Title `k` occupies row `TitleOrigin(k, d).1`, columns `[TitleOrigin(k, d).0, + |Titles[k]|)`. */
  predicate InTitleBand(k: int, d: Dims, x: int, y: int)
    requires 0 <= k < |Titles|
  {
    y == TitleOrigin(k, d).1 && TitleOrigin(k, d).0 <= x < TitleOrigin(k, d).0 + |Titles[k]|
  }

  /**
   * When each pane is at least eleven columns wide ("Directories" is eleven characters)
   * and the upper panes at least one row tall, the bands of different titles are
   * disjoint, so (with `TitleCellsAt`) no title overwrites another.
   */
  lemma TitlesDoNotOverlap(d: Dims, x: int, y: int, k1: int, k2: int)
    requires d.boxWidth >= 11 && d.increased >= 1
    requires 0 <= k1 < |Titles| && 0 <= k2 < |Titles|
    requires InTitleBand(k1, d, x, y) && InTitleBand(k2, d, x, y)
    ensures k1 == k2
  {
    assert |Titles[0]| == 11 && |Titles[1]| == 5 && |Titles[2]| == 6 && |Titles[3]| == 9;
  }

  // ---------------------------------------------------------------- list panes

  /**
   * How a list row is styled. ui/ui.go's `DrawBox` highlights the selected row of the
   * focused pane; main.go's row loop does the same and then gives every row named like
   * the best match the command style while the search pane has focus.
   */
  datatype RowStyling = RowStyling(selected: int, focused: bool, text: Style, highlight: Style,
                                   best: Option<string>, command: Style)

  function RowStyle(st: RowStyling, j: int, name: string): (s: Style)
    ensures st.best == Some(name) ==> s == st.command
    ensures st.best != Some(name) ==> (s == st.highlight <==> st.focused && j == st.selected) || st.highlight == st.text
    ensures st.best != Some(name) && !(st.focused && j == st.selected) ==> s == st.text
  {
    var s := if st.focused && j == st.selected then st.highlight else st.text;
    if st.best == Some(name) then st.command else s
  }

  /**
   * The cells of list rows `i..` of a window: row `j` shows `files[j].name` on screen row
   * `y + (j - scroll) + 1`, its runes placed from column `x0` and cut at byte offset `limit`;
   * rows stop at the end of the list or after `maxLines` rows.
   */
  function WindowRows(x0: int, y: int, limit: int, files: seq<FileInfo>, scroll: int, maxLines: int,
                      st: RowStyling, i: int): seq<Cell>
    requires 0 <= i || i >= scroll + maxLines
    decreases |files| - i
  {
    if i >= |files| || i >= scroll + maxLines then []
    else
      TextCells(files[i].name, x0, y + (i - scroll) + 1, limit, RowStyle(st, i, files[i].name))
      + WindowRows(x0, y, limit, files, scroll, maxLines, st, i + 1)
  }

  /** The last list index of the window, plus one. */
  function WindowEnd(files: seq<FileInfo>, scroll: int, maxLines: int): int
  {
    Min(|files|, scroll + maxLines)
  }

  /**
   * Every cell of the window lies on the screen row of a list index `j` in
   * `[i, WindowEnd)`, inside the column band, shows a rune of that entry's name and has
   * that row's style.
   */
  lemma {:induction false} WindowRowsSound(x0: int, y: int, limit: int, files: seq<FileInfo>, scroll: int,
                                           maxLines: int, st: RowStyling, i: int)
    requires 0 <= i
    ensures forall c :: c in WindowRows(x0, y, limit, files, scroll, maxLines, st, i) ==>
      var j := c.y - y - 1 + scroll;
      && i <= j < WindowEnd(files, scroll, maxLines)
      && x0 <= c.x < x0 + limit
      && c.ch in files[j].name
      && c.style == RowStyle(st, j, files[j].name)
    decreases |files| - i
  {
    if !(i >= |files| || i >= scroll + maxLines) {
      RuneCellsBounds(files[i].name, 0, x0, y + (i - scroll) + 1, limit, RowStyle(st, i, files[i].name));
      WindowRowsSound(x0, y, limit, files, scroll, maxLines, st, i + 1);
    }
  }

  /**
   * Every list index `j` in `[i, WindowEnd)` whose name is not empty is drawn: its first
   * rune is at column `x0` of row `y + (j - scroll) + 1`, with that row's style.
   */
  lemma {:induction false} WindowRowsComplete(x0: int, y: int, limit: int, files: seq<FileInfo>, scroll: int,
                                              maxLines: int, st: RowStyling, i: int)
    requires 0 <= i && limit > 0
    ensures forall j :: i <= j < WindowEnd(files, scroll, maxLines) && files[j].name != [] ==>
      Cell(x0, y + (j - scroll) + 1, files[j].name[0], RowStyle(st, j, files[j].name))
        in WindowRows(x0, y, limit, files, scroll, maxLines, st, i)
    decreases |files| - i
  {
    if !(i >= |files| || i >= scroll + maxLines) {
      WindowRowsComplete(x0, y, limit, files, scroll, maxLines, st, i + 1);
    }
  }

  /**
   * `DrawBox`: the rows `scrollPosition .. min(len, scrollPosition + height - 2) - 1`, each
   * name from column `x + 3` and cut so that it stays left of `x + width`. A negative scroll
   * position makes Go index `files` out of range unless no row fits.
   */
  method DrawBox(x: int, y: int, width: int, height: int, files: seq<FileInfo>, selectedIndex: int,
                 scrollPosition: int, textStyle: Style, highlightStyle: Style, isFocused: bool)
    returns (cells: seq<Cell>)
    requires 0 <= scrollPosition || height - 2 <= 0
    ensures cells == WindowRows(x + 3, y, width - 3, files, scrollPosition, height - 2,
      RowStyling(selectedIndex, isFocused, textStyle, highlightStyle, None, textStyle), scrollPosition)
  {
    // `x+3+j >= x+width` breaks the rune loop: byte offsets below `width - 3` are drawn.
    cells := WriteWindow(x + 3, y, width - 3, files, scrollPosition, height - 2,
      RowStyling(selectedIndex, isFocused, textStyle, highlightStyle, None, textStyle));
  }

  /**
   * The row loop of a list window, shared by `DrawBox` and the render loop of main.go:
   * `for i := scroll; i < len(files) && i < scroll+maxLines; i++`, each row's runes drawn
   * from column `x0` while their byte offset is below `limit`.
   */
  method WriteWindow(x0: int, y: int, limit: int, files: seq<FileInfo>, scroll: int, maxLines: int,
                     st: RowStyling)
    returns (cells: seq<Cell>)
    requires 0 <= scroll || maxLines <= 0
    ensures cells == WindowRows(x0, y, limit, files, scroll, maxLines, st, scroll)
  {
    cells := [];
    var i := scroll;
    while i < |files| && i < scroll + maxLines
      invariant 0 <= i || i >= scroll + maxLines
      invariant scroll <= i
      invariant cells + WindowRows(x0, y, limit, files, scroll, maxLines, st, i)
             == WindowRows(x0, y, limit, files, scroll, maxLines, st, scroll)
      decreases |files| - i
    {
      var file := files[i];
      var style := st.text;
      if st.focused && i == st.selected {
        style := st.highlight;
      }
      if st.best == Some(file.name) {
        style := st.command;
      }
      var row := WriteRunes(file.name, x0, y + (i - scroll) + 1, limit, style);
      AppendAssociates(cells, row, WindowRows(x0, y, limit, files, scroll, maxLines, st, i + 1));
      cells := cells + row;
      i := i + 1;
    }
  }

  // ---------------------------------------------------------------- text fitting

  /**
   * `displayText`: nothing when the row is below the screen or the start column is past
   * its right edge; otherwise the runes whose byte offset `i` keeps `startX + i` on screen
   * and `i` below `maxWidth`.
   */
  function TextOnScreen(screen: Size, startX: int, y: int, text: string, style: Style, maxWidth: int): seq<Cell>
  {
    if y >= screen.height || startX >= screen.width then []
    else TextCells(text, startX, y, Min(screen.width - startX, maxWidth), style)
  }

  /**
   * `displayText` writes only on row `y` above the screen's bottom edge, from column `startX`,
   * left of the screen's right edge and of `startX + maxWidth`. Like the Go code, it does not
   * guard a negative `startX` or `y`.
   */
  lemma TextOnScreenBounds(screen: Size, startX: int, y: int, text: string, style: Style, maxWidth: int)
    ensures forall c :: c in TextOnScreen(screen, startX, y, text, style, maxWidth) ==>
      c.y == y && y < screen.height && startX <= c.x < screen.width && c.x < startX + maxWidth &&
      c.style == style && c.ch in text
  {
    RuneCellsBounds(text, 0, startX, y, Min(screen.width - startX, maxWidth), style);
  }

  /** `displayText` as a loop: `x >= screenWidth || i >= maxWidth` is `i >= min(screenWidth - startX, maxWidth)`. */
  method DisplayText(screen: Size, startX: int, y: int, text: string, style: Style, maxWidth: int)
    returns (cells: seq<Cell>)
    ensures cells == TextOnScreen(screen, startX, y, text, style, maxWidth)
  {
    if y >= screen.height || startX >= screen.width {
      return [];
    }
    cells := WriteRunes(text, startX, y, Min(screen.width - startX, maxWidth), style);
  }

  /**
   * `truncateString`: no runes for a non-positive limit, the whole string when it has at
   * most `maxLen` runes, and otherwise its first `maxLen` runes.
   */
  function Truncate(s: string, maxLen: int): (r: string)
    ensures r <= s
    ensures |r| == Min(|s|, Max(0, maxLen))
  {
    if maxLen <= 0 then ""
    else if |s| <= maxLen then s
    else s[..maxLen]
  }
}
