/** `DisplayFileInfo` of ui/ui.go, drawn by its loop over the items. */
module InfoPane {
  import opened Wrappers
  import opened Screen
  import opened Catalog
  import opened Layout
  import opened InfoLayout

  /**
   * `DisplayFileInfo`: the seven items of `file` (with `sizeText` for its formatted size),
   * drawn by the loop below.
   */
  method DisplayFileInfo(screen: Option<Size>, x: int, y: int, maxWidth: int, file: FileInfo, sizeText: string,
                         labelStyle: Style, valueStyle: Style) returns (cells: seq<Cell>)
    ensures cells == InfoCells(screen, x, y, maxWidth, InfoItems(file, sizeText), labelStyle, valueStyle)
  {
    cells := DrawInfoItems(screen, x, y, maxWidth, InfoItems(file, sizeText), labelStyle, valueStyle);
  }

  /** `DisplayFileInfo` past its checks on the screen and the origin. */
  method DrawInfoItems(screen: Option<Size>, x: int, y: int, maxWidth: int, items: seq<InfoItem>,
                       labelStyle: Style, valueStyle: Style) returns (cells: seq<Cell>)
    ensures cells == InfoCells(screen, x, y, maxWidth, items, labelStyle, valueStyle)
  {
    if screen.None? {
      return [];
    }
    var s := screen.value;
    if x >= s.width || y >= s.height || x < 0 || y < 0 {
      return [];
    }
    var width := Min(maxWidth, s.width - x);
    cells := DrawInfoRows(s, x, width, items, y, s.height - y - 1, labelStyle, valueStyle);
  }

  /** One pass of the item loop that draws: the label, then the value, cut to fit when too long. */
  method DrawInfoItem(s: Size, x: int, width: int, item: InfoItem, currentY: int,
                      labelStyle: Style, valueStyle: Style) returns (cells: seq<Cell>)
    ensures cells == ItemCells(s, x, width, item, currentY, labelStyle, valueStyle)
  {
    var labelWidth := ByteLen(item.caption) + 1;
    var valueWidth := width - labelWidth;
    assert valueWidth == ValueWidth(width, item);
    var labelCells := DisplayText(s, x, currentY, item.caption + " ", labelStyle, width);
    var displayValue := item.value;
    if ByteLen(displayValue) > valueWidth {
      displayValue := Truncate(displayValue, valueWidth - 3) + "...";
    }
    assert displayValue == DisplayValue(item.value, valueWidth);
    assert x + labelWidth == x + ByteLen(item.caption) + 1;
    var valueCells := DisplayText(s, x + labelWidth, currentY, displayValue, valueStyle, valueWidth);
    cells := labelCells + valueCells;
  }

  /** The state of the item loop: `done` followed by what items `i..` still draw from row `currentY` is `total`. */
  predicate RowsSoFar(s: Size, x: int, width: int, items: seq<InfoItem>, i: int, maxDisplayHeight: int, currentY: int,
                      labelStyle: Style, valueStyle: Style, done: seq<Cell>, total: seq<Cell>)
  {
    0 <= i <= |items| &&
    done + InfoRows(s, x, width, items[i..], maxDisplayHeight - i, currentY, labelStyle, valueStyle) == total
  }

  /** Before the first pass nothing is drawn and every item is still to come. */
  lemma RowsStart(s: Size, x: int, width: int, items: seq<InfoItem>, maxDisplayHeight: int, y: int,
                  labelStyle: Style, valueStyle: Style, total: seq<Cell>)
    requires total == InfoRows(s, x, width, items, maxDisplayHeight, y, labelStyle, valueStyle)
    ensures RowsSoFar(s, x, width, items, 0, maxDisplayHeight, y, labelStyle, valueStyle, [], total)
  {
    assert items[0..] == items;
  }

  /** The loop stops at item `i` once `maxDisplayHeight` items were looked at: nothing is left to draw. */
  lemma RowsStop(s: Size, x: int, width: int, items: seq<InfoItem>, i: int, maxDisplayHeight: int, currentY: int,
                 labelStyle: Style, valueStyle: Style, done: seq<Cell>, total: seq<Cell>)
    requires RowsSoFar(s, x, width, items, i, maxDisplayHeight, currentY, labelStyle, valueStyle, done, total)
    requires i == |items| || i >= maxDisplayHeight
    ensures done == total
  {
    assert InfoRows(s, x, width, items[i..], maxDisplayHeight - i, currentY, labelStyle, valueStyle) == [];
  }

  /** Item `i` has no room for its value: it is skipped and the next one goes on the same row. */
  lemma RowsSkip(s: Size, x: int, width: int, items: seq<InfoItem>, i: int, maxDisplayHeight: int, currentY: int,
                 labelStyle: Style, valueStyle: Style, done: seq<Cell>, total: seq<Cell>)
    requires RowsSoFar(s, x, width, items, i, maxDisplayHeight, currentY, labelStyle, valueStyle, done, total)
    requires i < |items| && i < maxDisplayHeight && ValueWidth(width, items[i]) <= 0
    ensures RowsSoFar(s, x, width, items, i + 1, maxDisplayHeight, currentY, labelStyle, valueStyle, done, total)
  {
    assert items[i..][1..] == items[i + 1..];
  }

  /** Item `i` is drawn on row `currentY`; the next one goes on the row below. */
  lemma RowsDraw(s: Size, x: int, width: int, items: seq<InfoItem>, i: int, maxDisplayHeight: int, currentY: int,
                 labelStyle: Style, valueStyle: Style, done: seq<Cell>, item: seq<Cell>, total: seq<Cell>)
    requires RowsSoFar(s, x, width, items, i, maxDisplayHeight, currentY, labelStyle, valueStyle, done, total)
    requires i < |items| && i < maxDisplayHeight && ValueWidth(width, items[i]) > 0
    requires item == ItemCells(s, x, width, items[i], currentY, labelStyle, valueStyle)
    ensures RowsSoFar(s, x, width, items, i + 1, maxDisplayHeight, currentY + 1, labelStyle, valueStyle,
                      done + item, total)
  {
    assert items[i..][1..] == items[i + 1..];
    AppendAssociates(done, item, InfoRows(s, x, width, items[i + 1..], maxDisplayHeight - (i + 1), currentY + 1,
                                          labelStyle, valueStyle));
  }

  /** The loop of `DisplayFileInfo` over the items, from row `y`, with its `break` and `continue`. */
  method DrawInfoRows(s: Size, x: int, width: int, items: seq<InfoItem>, y: int, maxDisplayHeight: int,
                      labelStyle: Style, valueStyle: Style) returns (cells: seq<Cell>)
    ensures cells == InfoRows(s, x, width, items, maxDisplayHeight, y, labelStyle, valueStyle)
  {
    var currentY := y;
    cells := [];
    ghost var total := InfoRows(s, x, width, items, maxDisplayHeight, y, labelStyle, valueStyle);
    RowsStart(s, x, width, items, maxDisplayHeight, y, labelStyle, valueStyle, total);
    var i := 0;
    while i < |items|
      invariant RowsSoFar(s, x, width, items, i, maxDisplayHeight, currentY, labelStyle, valueStyle, cells, total)
    {
      if i >= maxDisplayHeight {
        break;
      }
      if ValueWidth(width, items[i]) <= 0 {
        RowsSkip(s, x, width, items, i, maxDisplayHeight, currentY, labelStyle, valueStyle, cells, total);
        i := i + 1;
        continue;
      }
      var item := DrawInfoItem(s, x, width, items[i], currentY, labelStyle, valueStyle);
      RowsDraw(s, x, width, items, i, maxDisplayHeight, currentY, labelStyle, valueStyle, cells, item, total);
      cells := cells + item;
      i := i + 1;
      currentY := currentY + 1;
    }
    RowsStop(s, x, width, items, i, maxDisplayHeight, currentY, labelStyle, valueStyle, cells, total);
  }
}
