/**
 * The terminal as the browser sees it: every `screen.SetContent(x, y, r, nil, style)`
 * becomes one `Cell` in an output sequence, in call order.
 *
 * Go's `for i, r := range s` yields BYTE offsets `i` into the UTF-8 encoding of `s`,
 * and the drawing loops place rune `r` at column `x0 + i`. `Utf8Len` gives the number of
 * bytes each rune takes, so the offsets are modelled exactly, not only for ASCII.
 */
module Screen {

  /** The styles the browser builds from its configured colours. */
  datatype Style = TextStyle | BorderStyle | HighlightStyle | CommandStyle
                 | BlinkingStyle | LabelStyle | ValueStyle | FocusedStyle

  /** One `SetContent` call. */
  datatype Cell = Cell(x: int, y: int, ch: char, style: Style)

  /** The terminal size, as `screen.Size()` reports it. */
  datatype Size = Size(width: int, height: int)

  function Min(a: int, b: int): int { if a <= b then a else b }
  function Max(a: int, b: int): int { if a >= b then a else b }

  /** Output appended in pieces is the same output (saves the solver an extensionality proof). */
  lemma AppendAssociates(a: seq<Cell>, b: seq<Cell>, c: seq<Cell>)
    ensures a + b + c == a + (b + c)
  {
  }

  /** Number of bytes of the UTF-8 encoding of `c`. */
  function Utf8Len(c: char): (n: int)
    ensures 1 <= n <= 4
    ensures n == 1 <==> c as int < 0x80
  {
    if c as int < 0x80 then 1
    else if c as int < 0x800 then 2
    else if c as int < 0x1_0000 then 3
    else 4
  }

  /** Byte offset of rune `k` of `s`: the `i` that `range` yields with `s[k]`. */
  function ByteOffset(s: string, k: nat): (off: int)
    requires k <= |s|
    decreases k
  {
    if k == 0 then 0 else ByteOffset(s, k - 1) + Utf8Len(s[k - 1])
  }

  /** Go's `len(s)`: the byte length of `s`. */
  function ByteLen(s: string): int { ByteOffset(s, |s|) }

  /** The UTF-8 encoding of one rune, as byte values. */
  function EncodeRune(c: char): (b: seq<int>)
    ensures |b| == Utf8Len(c)
    ensures forall i :: 0 <= i < |b| ==> 0 <= b[i] < 0x100
    ensures c as int < 0x80 ==> b == [c as int]
  {
    var v := c as int;
    if v < 0x80 then [v]
    else if v < 0x800 then [0xC0 + v / 0x40, 0x80 + v % 0x40]
    else if v < 0x1_0000 then [0xE0 + v / 0x1000, 0x80 + v / 0x40 % 0x40, 0x80 + v % 0x40]
    else [0xF0 + v / 0x4_0000, 0x80 + v / 0x1000 % 0x40, 0x80 + v / 0x40 % 0x40, 0x80 + v % 0x40]
  }

  /** The bytes of the first `k` runes of `s`; `Utf8Bytes(s)` is what Go's `s[i]` indexes. */
  function BytesUpTo(s: string, k: nat): (b: seq<int>)
    requires k <= |s|
    ensures |b| == ByteOffset(s, k)
    ensures forall i :: 0 <= i < |b| ==> 0 <= b[i] < 0x100
    decreases k
  {
    if k == 0 then [] else BytesUpTo(s, k - 1) + EncodeRune(s[k - 1])
  }

  function Utf8Bytes(s: string): seq<int> { BytesUpTo(s, |s|) }

  predicate IsAscii(s: string) { forall k :: 0 <= k < |s| ==> s[k] as int < 0x80 }

  /** On ASCII text the byte offset of rune `k` is `k`. */
  lemma {:induction false} AsciiByteOffset(s: string, k: nat)
    requires k <= |s| && IsAscii(s)
    ensures ByteOffset(s, k) == k
  {
    if k > 0 { AsciiByteOffset(s, k - 1); }
  }

  /** On ASCII text byte `i` is rune `i`. */
  lemma {:induction false} AsciiBytes(s: string, k: nat)
    requires k <= |s| && IsAscii(s)
    ensures |BytesUpTo(s, k)| == k
    ensures forall i :: 0 <= i < k ==> BytesUpTo(s, k)[i] == s[i] as int
  {
    AsciiByteOffset(s, k);
    if k > 0 { AsciiBytes(s, k - 1); }
  }

  /**
   * The cells a range loop over `s` writes when it places the rune at byte offset `off`
   * on column `x0 + off` of row `y` and stops at the first offset `>= limit`.
   */
  function RuneCells(s: string, off: int, x0: int, y: int, limit: int, style: Style): seq<Cell>
    decreases |s|
  {
    if s == [] || off >= limit then []
    else [Cell(x0 + off, y, s[0], style)] + RuneCells(s[1..], off + Utf8Len(s[0]), x0, y, limit, style)
  }

  /** The same loop from the start of `s`. */
  function TextCells(s: string, x0: int, y: int, limit: int, style: Style): seq<Cell>
  {
    RuneCells(s, 0, x0, y, limit, style)
  }

  /** Every cell lies on row `y`, in columns `[x0 + off, x0 + limit)`, with the given style. */
  lemma {:induction false} RuneCellsBounds(s: string, off: int, x0: int, y: int, limit: int, style: Style)
    requires off >= 0
    ensures forall c :: c in RuneCells(s, off, x0, y, limit, style) ==>
              c.y == y && x0 + off <= c.x < x0 + limit && c.style == style && c.ch in s
    ensures |RuneCells(s, off, x0, y, limit, style)| <= |s|
  {
    if s != [] && off < limit {
      RuneCellsBounds(s[1..], off + Utf8Len(s[0]), x0, y, limit, style);
    }
  }

  /**
   * On ASCII text the byte offsets are the rune indices: the loop writes the first
   * `limit - off` runes on consecutive columns.
   */
  lemma {:induction false} RuneCellsAscii(s: string, off: int, x0: int, y: int, limit: int, style: Style)
    requires IsAscii(s)
    ensures |RuneCells(s, off, x0, y, limit, style)| == Min(|s|, Max(0, limit - off))
    ensures forall k :: 0 <= k < |RuneCells(s, off, x0, y, limit, style)| ==>
              RuneCells(s, off, x0, y, limit, style)[k] == Cell(x0 + off + k, y, s[k], style)
  {
    if s != [] && off < limit {
      assert IsAscii(s[1..]) by {
        forall k | 0 <= k < |s[1..]| ensures s[1..][k] as int < 0x80 { assert s[1..][k] == s[k + 1]; }
      }
      RuneCellsAscii(s[1..], off + 1, x0, y, limit, style);
    }
  }

  /**
   * The range loop itself: write the runes of `s` at byte offsets below `limit`.
   * The drawing loops in the source all have this shape; each caller states its own limit.
   */
  method WriteRunes(s: string, x0: int, y: int, limit: int, style: Style) returns (cells: seq<Cell>)
    ensures cells == TextCells(s, x0, y, limit, style)
  {
    cells := [];
    var k, off := 0, 0;
    while k < |s|
      invariant 0 <= k <= |s|
      invariant cells + RuneCells(s[k..], off, x0, y, limit, style) == TextCells(s, x0, y, limit, style)
    {
      if off >= limit {
        break;
      }
      assert s[k..][1..] == s[k + 1..];
      cells := cells + [Cell(x0 + off, y, s[k], style)];
      off := off + Utf8Len(s[k]);
      k := k + 1;
    }
  }

  /** The cells of a range loop over `s` with no cut-off: every rune at `x0 + off`. */
  function PlainCells(s: string, off: int, x0: int, y: int, style: Style): (cells: seq<Cell>)
    ensures |cells| == |s|
    decreases |s|
  {
    if s == [] then []
    else [Cell(x0 + off, y, s[0], style)] + PlainCells(s[1..], off + Utf8Len(s[0]), x0, y, style)
  }

  /** On ASCII text rune `k` lands on column `x0 + off + k`. */
  lemma {:induction false} PlainCellsAscii(s: string, off: int, x0: int, y: int, style: Style)
    requires IsAscii(s)
    ensures forall k :: 0 <= k < |s| ==> PlainCells(s, off, x0, y, style)[k] == Cell(x0 + off + k, y, s[k], style)
  {
    if s != [] {
      assert IsAscii(s[1..]) by {
        forall k | 0 <= k < |s[1..]| ensures s[1..][k] as int < 0x80 { assert s[1..][k] == s[k + 1]; }
      }
      PlainCellsAscii(s[1..], off + 1, x0, y, style);
    }
  }

  /** Every cell lies on row `y`, shows a rune of `s` and has the given style. */
  lemma {:induction false} PlainCellsBounds(s: string, off: int, x0: int, y: int, style: Style)
    ensures forall c :: c in PlainCells(s, off, x0, y, style) ==> c.y == y && c.style == style && c.ch in s
    decreases |s|
  {
    if s != [] {
      PlainCellsBounds(s[1..], off + Utf8Len(s[0]), x0, y, style);
    }
  }

  /** A range loop that writes every rune of `s` (as `DrawTitles` does). */
  method WriteAllRunes(s: string, x0: int, y: int, style: Style) returns (cells: seq<Cell>)
    ensures cells == PlainCells(s, 0, x0, y, style)
  {
    cells := [];
    var off := 0;
    for k := 0 to |s|
      invariant cells + PlainCells(s[k..], off, x0, y, style) == PlainCells(s, 0, x0, y, style)
    {
      assert s[k..][1..] == s[k + 1..];
      cells := cells + [Cell(x0 + off, y, s[k], style)];
      off := off + Utf8Len(s[k]);
    }
  }
}
