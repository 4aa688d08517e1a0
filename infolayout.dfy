/**
 * What the info pane of ui/ui.go (`DisplayFileInfo`) draws: seven label/value rows, each
 * value cut to the columns left of its label, stopping above the screen's last row.
 */
module InfoLayout {
  import opened Wrappers
  import opened Screen
  import opened Catalog
  import opened Layout

  datatype InfoItem = InfoItem(caption: string, value: string)

  /**
   * The seven label/value rows of `DisplayFileInfo`. `sizeText` is what `formatFileSize`
   * prints for the entry's size.
   */
  function InfoItems(file: FileInfo, sizeText: string): seq<InfoItem>
  {
    [ InfoItem("Name:", file.name), InfoItem("Size:", sizeText), InfoItem("Type:", file.fileType),
      InfoItem("Permissions:", file.permissions), InfoItem("Owner:", file.owner),
      InfoItem("Last Modified:", file.lastAccessTime), InfoItem("Git Status:", file.gitRepoStatus) ]
  }

  /** A value longer (in bytes) than its column is cut to `valueWidth - 3` runes plus "...". */
  function DisplayValue(value: string, valueWidth: int): string
  {
    if ByteLen(value) > valueWidth then Truncate(value, valueWidth - 3) + "..." else value
  }

  /** The columns left for an item's value: `maxWidth` less its label and one space. */
  function ValueWidth(maxWidth: int, item: InfoItem): int
  {
    maxWidth - (ByteLen(item.caption) + 1)
  }

  /** One drawn item on row `currentY`: its label and a space, then its value after them. */
  function ItemCells(screen: Size, x: int, maxWidth: int, item: InfoItem, currentY: int,
                     labelStyle: Style, valueStyle: Style): seq<Cell>
  {
    var valueWidth := ValueWidth(maxWidth, item);
    TextOnScreen(screen, x, currentY, item.caption + " ", labelStyle, maxWidth)
    + TextOnScreen(screen, x + ByteLen(item.caption) + 1, currentY, DisplayValue(item.value, valueWidth),
                   valueStyle, valueWidth)
  }

  /**
   * The cells of `items`, the next drawn one on row `currentY`. An item whose value column
   * would be empty is skipped without using a row. `rowsLeft` counts the items that may
   * still be looked at: `DisplayFileInfo` stops at item index `maxDisplayHeight`.
   */
  function InfoRows(screen: Size, x: int, maxWidth: int, items: seq<InfoItem>, rowsLeft: int, currentY: int,
                    labelStyle: Style, valueStyle: Style): seq<Cell>
    decreases |items|
  {
    if items == [] || rowsLeft <= 0 then []
    else if ValueWidth(maxWidth, items[0]) <= 0 then
      InfoRows(screen, x, maxWidth, items[1..], rowsLeft - 1, currentY, labelStyle, valueStyle)
    else
      ItemCells(screen, x, maxWidth, items[0], currentY, labelStyle, valueStyle)
      + InfoRows(screen, x, maxWidth, items[1..], rowsLeft - 1, currentY + 1, labelStyle, valueStyle)
  }

  /**
   * `DisplayFileInfo`: nothing for a nil screen or an origin off the screen; otherwise the
   * items from row `y` down, in at most `maxWidth` columns and never past the right edge.
   */
  function InfoCells(screen: Option<Size>, x: int, y: int, maxWidth: int, items: seq<InfoItem>,
                     labelStyle: Style, valueStyle: Style): seq<Cell>
  {
    if screen.None? then []
    else
      var s := screen.value;
      if x >= s.width || y >= s.height || x < 0 || y < 0 then []
      else
        InfoRows(s, x, Min(maxWidth, s.width - x), items, s.height - y - 1, y, labelStyle, valueStyle)
  }

  /** Every cell lies in columns `[left, right)` and rows `[top, bottom)`. */
  predicate Within(cells: seq<Cell>, left: int, right: int, top: int, bottom: int)
  {
    forall c :: c in cells ==> left <= c.x < right && top <= c.y < bottom
  }

  lemma WithinAppend(a: seq<Cell>, b: seq<Cell>, left: int, right: int, top: int, bottom: int)
    requires Within(a, left, right, top, bottom) && Within(b, left, right, top, bottom)
    ensures Within(a + b, left, right, top, bottom)
  {
    forall c | c in a + b
      ensures left <= c.x < right && top <= c.y < bottom
    {
      if c in a { } else { assert c in b; }
    }
  }

  lemma WithinWiden(cells: seq<Cell>, left: int, right: int, top: int, bottom: int,
                    left': int, right': int, top': int, bottom': int)
    requires Within(cells, left, right, top, bottom)
    requires left' <= left && right <= right' && top' <= top && bottom <= bottom'
    ensures Within(cells, left', right', top', bottom')
  {
  }

  /** `displayText` stays on row `y`, on screen, inside `[startX, startX + maxWidth)`. */
  lemma TextWithin(screen: Size, startX: int, y: int, text: string, style: Style, maxWidth: int)
    ensures Within(TextOnScreen(screen, startX, y, text, style, maxWidth),
                   startX, Min(screen.width, startX + maxWidth), y, Min(y + 1, screen.height))
  {
    TextOnScreenBounds(screen, startX, y, text, style, maxWidth);
  }

  /** One drawn item stays on row `currentY`, on screen and inside the column band `[x, x + maxWidth)`. */
  lemma ItemCellsWithin(screen: Size, x: int, maxWidth: int, item: InfoItem, currentY: int,
                        labelStyle: Style, valueStyle: Style)
    requires x >= 0
    ensures Within(ItemCells(screen, x, maxWidth, item, currentY, labelStyle, valueStyle),
                   x, Min(screen.width, x + maxWidth), currentY, Min(currentY + 1, screen.height))
  {
    var valueWidth := ValueWidth(maxWidth, item);
    var valueX := x + ByteLen(item.caption) + 1;
    var right := Min(screen.width, x + maxWidth);
    var bottom := Min(currentY + 1, screen.height);
    var captionCells := TextOnScreen(screen, x, currentY, item.caption + " ", labelStyle, maxWidth);
    var valueCells := TextOnScreen(screen, valueX, currentY, DisplayValue(item.value, valueWidth), valueStyle, valueWidth);
    TextWithin(screen, x, currentY, item.caption + " ", labelStyle, maxWidth);
    TextWithin(screen, valueX, currentY, DisplayValue(item.value, valueWidth), valueStyle, valueWidth);
    ByteOffsetNonNegative(item.caption, |item.caption|);
    assert valueX + valueWidth == x + maxWidth;
    WithinWiden(valueCells, valueX, Min(screen.width, valueX + valueWidth), currentY, bottom, x, right, currentY, bottom);
    WithinAppend(captionCells, valueCells, x, right, currentY, bottom);
  }

  /** A first item too wide to show uses no row: the rest start on row `currentY`. */
  lemma SkippedItemWithin(screen: Size, x: int, maxWidth: int, items: seq<InfoItem>,
                          rowsLeft: int, currentY: int, labelStyle: Style, valueStyle: Style)
    requires items != [] && rowsLeft > 0 && ValueWidth(maxWidth, items[0]) <= 0
    requires Within(InfoRows(screen, x, maxWidth, items[1..], rowsLeft - 1, currentY, labelStyle, valueStyle),
                    x, Min(screen.width, x + maxWidth), currentY, Min(currentY + (rowsLeft - 1), screen.height))
    ensures Within(InfoRows(screen, x, maxWidth, items, rowsLeft, currentY, labelStyle, valueStyle),
                   x, Min(screen.width, x + maxWidth), currentY, Min(currentY + rowsLeft, screen.height))
  {
    var rest := InfoRows(screen, x, maxWidth, items[1..], rowsLeft - 1, currentY, labelStyle, valueStyle);
    WithinWiden(rest, x, Min(screen.width, x + maxWidth), currentY, Min(currentY + (rowsLeft - 1), screen.height),
                x, Min(screen.width, x + maxWidth), currentY, Min(currentY + rowsLeft, screen.height));
    assert InfoRows(screen, x, maxWidth, items, rowsLeft, currentY, labelStyle, valueStyle) == rest;
  }

  /** A drawn first item on row `currentY`, followed by rows that stay below it, keeps all of them in bounds. */
  lemma DrawnItemWithin(screen: Size, x: int, maxWidth: int, items: seq<InfoItem>,
                        rowsLeft: int, currentY: int, labelStyle: Style, valueStyle: Style)
    requires x >= 0 && items != [] && rowsLeft > 0 && ValueWidth(maxWidth, items[0]) > 0
    requires Within(InfoRows(screen, x, maxWidth, items[1..], rowsLeft - 1, currentY + 1, labelStyle, valueStyle),
                    x, Min(screen.width, x + maxWidth), currentY + 1, Min(currentY + 1 + (rowsLeft - 1), screen.height))
    ensures Within(InfoRows(screen, x, maxWidth, items, rowsLeft, currentY, labelStyle, valueStyle),
                   x, Min(screen.width, x + maxWidth), currentY, Min(currentY + rowsLeft, screen.height))
  {
    var right := Min(screen.width, x + maxWidth);
    var bottom := Min(currentY + rowsLeft, screen.height);
    var head := ItemCells(screen, x, maxWidth, items[0], currentY, labelStyle, valueStyle);
    var rest := InfoRows(screen, x, maxWidth, items[1..], rowsLeft - 1, currentY + 1, labelStyle, valueStyle);
    ItemCellsWithin(screen, x, maxWidth, items[0], currentY, labelStyle, valueStyle);
    WithinWiden(head, x, right, currentY, Min(currentY + 1, screen.height), x, right, currentY, bottom);
    WithinWiden(rest, x, right, currentY + 1, Min(currentY + 1 + (rowsLeft - 1), screen.height), x, right, currentY, bottom);
    WithinAppend(head, rest, x, right, currentY, bottom);
    assert InfoRows(screen, x, maxWidth, items, rowsLeft, currentY, labelStyle, valueStyle) == head + rest;
  }

  /** Whether or not the first item is drawn, the bounds of the rows after it carry over to all of them. */
  lemma InfoRowsStep(screen: Size, x: int, maxWidth: int, items: seq<InfoItem>,
                     rowsLeft: int, currentY: int, labelStyle: Style, valueStyle: Style)
    requires x >= 0 && items != [] && rowsLeft > 0
    requires Within(InfoRows(screen, x, maxWidth, items[1..], rowsLeft - 1, currentY, labelStyle, valueStyle),
                    x, Min(screen.width, x + maxWidth), currentY, Min(currentY + (rowsLeft - 1), screen.height))
    requires Within(InfoRows(screen, x, maxWidth, items[1..], rowsLeft - 1, currentY + 1, labelStyle, valueStyle),
                    x, Min(screen.width, x + maxWidth), currentY + 1, Min(currentY + 1 + (rowsLeft - 1), screen.height))
    ensures Within(InfoRows(screen, x, maxWidth, items, rowsLeft, currentY, labelStyle, valueStyle),
                   x, Min(screen.width, x + maxWidth), currentY, Min(currentY + rowsLeft, screen.height))
  {
    if ValueWidth(maxWidth, items[0]) <= 0 {
      SkippedItemWithin(screen, x, maxWidth, items, rowsLeft, currentY, labelStyle, valueStyle);
    } else {
      DrawnItemWithin(screen, x, maxWidth, items, rowsLeft, currentY, labelStyle, valueStyle);
    }
  }

  /**
   * Drawn items use the rows from `currentY`, at most `rowsLeft` of them and none below the
   * screen, inside the column band `[x, x + maxWidth)` and left of the screen's edge.
   */
  lemma {:induction false} InfoRowsOnScreen(screen: Size, x: int, maxWidth: int, items: seq<InfoItem>,
                                            rowsLeft: int, currentY: int, labelStyle: Style, valueStyle: Style)
    requires x >= 0
    ensures Within(InfoRows(screen, x, maxWidth, items, rowsLeft, currentY, labelStyle, valueStyle),
                   x, Min(screen.width, x + maxWidth), currentY, Min(currentY + rowsLeft, screen.height))
    decreases |items|
  {
    if items != [] && rowsLeft > 0 {
      InfoRowsOnScreen(screen, x, maxWidth, items[1..], rowsLeft - 1, currentY, labelStyle, valueStyle);
      InfoRowsOnScreen(screen, x, maxWidth, items[1..], rowsLeft - 1, currentY + 1, labelStyle, valueStyle);
      InfoRowsStep(screen, x, maxWidth, items, rowsLeft, currentY, labelStyle, valueStyle);
    }
  }

  lemma {:induction false} ByteOffsetNonNegative(s: string, k: nat)
    requires k <= |s|
    ensures ByteOffset(s, k) >= k
  {
    if k > 0 { ByteOffsetNonNegative(s, k - 1); }
  }

  /**
   * On a screen whose origin is on it, the info pane never writes left of `x`, right of
   * `x + maxWidth` or of the screen, above `y`, or on the screen's last row.
   */
  lemma InfoCellsOnScreen(s: Size, x: int, y: int, maxWidth: int, items: seq<InfoItem>,
                          labelStyle: Style, valueStyle: Style)
    requires 0 <= x < s.width && 0 <= y < s.height
    ensures Within(InfoCells(Some(s), x, y, maxWidth, items, labelStyle, valueStyle),
                   x, Min(s.width, x + maxWidth), y, s.height - 1)
  {
    var w := Min(maxWidth, s.width - x);
    InfoRowsOnScreen(s, x, w, items, s.height - y - 1, y, labelStyle, valueStyle);
    assert Min(s.width, x + w) == Min(s.width, x + maxWidth);
    assert Min(y + (s.height - y - 1), s.height) == s.height - 1;
    assert InfoCells(Some(s), x, y, maxWidth, items, labelStyle, valueStyle) ==
           InfoRows(s, x, w, items, s.height - y - 1, y, labelStyle, valueStyle);
  }

  /** Without a screen, or with the origin off it, nothing is drawn. */
  lemma InfoCellsOffScreen(screen: Option<Size>, x: int, y: int, maxWidth: int, items: seq<InfoItem>,
                           labelStyle: Style, valueStyle: Style)
    requires screen.None? || !(0 <= x < screen.value.width && 0 <= y < screen.value.height)
    ensures InfoCells(screen, x, y, maxWidth, items, labelStyle, valueStyle) == []
  {
  }
}
