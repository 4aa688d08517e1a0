/**
 * The arithmetic of the Tab, Up and Down keys, shared by `HandleUserInput` in
 * events/events.go and the inline key handler of main.go: focus moves round the four
 * panes, and each pane keeps a selected row and the first row of its visible window.
 */
module Panes {

  /** `len(ui.Titles)` and `len(titles)`: the number of panes. */
  const PaneCount := 4

  /** Go's `%`: the remainder takes the sign of the dividend. */
  function GoRem(a: int, b: int): (r: int)
    requires b > 0
    ensures a >= 0 ==> 0 <= r < b && r == a % b
    ensures a < 0 ==> -b < r <= 0
  {
    if a >= 0 then a % b else -((-a) % b)
  }

  /** Tab: focus moves to the next pane, wrapping from the last pane to the first. */
  function NextBox(box: int): (r: int)
    ensures -1 <= box < PaneCount ==> 0 <= r < PaneCount
    ensures 0 <= box < PaneCount - 1 ==> r == box + 1
    ensures box == PaneCount - 1 ==> r == 0
  {
    GoRem(box + 1, PaneCount)
  }

  /** Focus after `n` presses of Tab. */
  function TabPresses(box: int, n: nat): int
  {
    if n == 0 then box else NextBox(TabPresses(box, n - 1))
  }

  /** From any pane, `n` Tabs lead to pane `(box + n) mod 4`; four Tabs come back. */
  lemma {:induction false} TabPressesCycle(box: int, n: nat)
    requires 0 <= box < PaneCount
    ensures TabPresses(box, n) == (box + n) % PaneCount
  {
    if n > 0 {
      TabPressesCycle(box, n - 1);
      var prev := (box + n - 1) % PaneCount;
      assert (prev + 1) % PaneCount == (box + n) % PaneCount;
    }
  }

  /** A pane's selected row and the first row of its window. */
  datatype Cursor = Cursor(selected: int, scroll: int)

  /** The window starts at or above the selection, and not above the first row. */
  predicate Ordered(c: Cursor)
  {
    0 <= c.scroll <= c.selected
  }

  /** The selection is a row of a list of `length` rows (row 0 stands for an empty list). */
  predicate InList(c: Cursor, length: int)
  {
    c.selected < length || c.selected == 0
  }

  /** The selection is among the `maxHeight - 3` rows the main loop draws from `scroll`. */
  predicate Visible(c: Cursor, maxHeight: int)
  {
    c.selected < c.scroll + maxHeight - 3
  }

  /**
   * Up: the selection moves up one row when it is not on the first; the window follows it
   * when it leaves the window at the top.
   */
  function MoveUp(c: Cursor): (d: Cursor)
    ensures c.selected > 0 ==> d.selected == c.selected - 1
    ensures c.selected <= 0 ==> d == c
    ensures d.scroll == c.scroll || (d.scroll == c.scroll - 1 && d.selected < c.scroll)
    ensures Ordered(c) ==> Ordered(d)
    ensures forall length :: InList(c, length) ==> InList(d, length)
    ensures forall h :: h >= 4 && Visible(c, h) ==> Visible(d, h)
  {
    if c.selected > 0 then
      var s := c.selected - 1;
      Cursor(s, if s < c.scroll then c.scroll - 1 else c.scroll)
    else c
  }

  /**
   * Down: the selection moves down one row unless it is on the last row of a list of
   * `length` rows; the window scrolls by one when the new selection reaches
   * `scroll + maxHeight - 3`.
   */
  function MoveDown(c: Cursor, length: int, maxHeight: int): (d: Cursor)
    ensures c.selected < length - 1 ==> d.selected == c.selected + 1
    ensures c.selected >= length - 1 ==> d == c
    ensures d.scroll == c.scroll + 1 <==> c.selected < length - 1 && d.selected >= c.scroll + maxHeight - 3
    ensures d.scroll == c.scroll || d.scroll == c.scroll + 1
    ensures Ordered(c) ==> Ordered(d)
    ensures InList(c, length) ==> InList(d, length)
    ensures Visible(c, maxHeight) ==> Visible(d, maxHeight)
  {
    if c.selected < length - 1 then
      var s := c.selected + 1;
      Cursor(s, if s >= c.scroll + maxHeight - 3 then c.scroll + 1 else c.scroll)
    else c
  }

  /** The window height Down uses: the upper panes' height for panes 0 and 1, the lower panes' for 2 and 3. */
  function MaxHeight(box: int, increasedBoxHeight: int, halfBoxHeight: int): (h: int)
    ensures box == 0 || box == 1 ==> h == increasedBoxHeight
    ensures box == 2 || box == 3 ==> h == halfBoxHeight
    ensures !(0 <= box < PaneCount) ==> h == 0
  {
    if box == 0 || box == 1 then increasedBoxHeight
    else if box == 2 || box == 3 then halfBoxHeight
    else 0
  }

  /** Any run of Up and Down presses on one pane keeps its cursor ordered and in its list. */
  function Replay(c: Cursor, downs: seq<bool>, length: int, maxHeight: int): Cursor
    decreases |downs|
  {
    if downs == [] then c
    else
      var c' := if downs[0] then MoveDown(c, length, maxHeight) else MoveUp(c);
      Replay(c', downs[1..], length, maxHeight)
  }

  lemma {:induction false} ReplayKeepsCursorValid(c: Cursor, downs: seq<bool>, length: int, maxHeight: int)
    requires Ordered(c) && InList(c, length)
    ensures Ordered(Replay(c, downs, length, maxHeight))
    ensures InList(Replay(c, downs, length, maxHeight), length)
    decreases |downs|
  {
    if downs != [] {
      var c' := if downs[0] then MoveDown(c, length, maxHeight) else MoveUp(c);
      ReplayKeepsCursorValid(c', downs[1..], length, maxHeight);
    }
  }
}
