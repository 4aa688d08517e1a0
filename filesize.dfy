/** The unit choice of `formatFileSize` in ui/ui.go. */
module FileSize {
  import opened Screen
  import opened Catalog

  /** The unit names of `formatFileSize`. */
  const SizeUnits: seq<string> := ["KB", "MB", "GB", "TB", "PB"]

  function Pow1024(e: nat): (p: nat)
    ensures p >= 1
  {
    if e == 0 then 1 else 1024 * Pow1024(e - 1)
  }

  /** How many times `n` can be divided by 1024 before it drops below 1024. */
  function Exponent(n: int): nat
    decreases n
  {
    if n < 1024 then 0 else 1 + Exponent(n / 1024)
  }

  /** 1024 to the power `Exponent(n)` is the largest power of 1024 not above `n`. */
  lemma {:induction false} ExponentBounds(n: int)
    requires n >= 1
    ensures Pow1024(Exponent(n)) <= n < Pow1024(Exponent(n) + 1)
    decreases n
  {
    if n >= 1024 {
      var m := n / 1024;
      ExponentBounds(m);
      var e := Exponent(m);
      assert Exponent(n) == e + 1;
      assert 1024 * m <= n < 1024 * m + 1024;
      assert Pow1024(e + 1) <= n by {
        assert Pow1024(e + 1) == 1024 * Pow1024(e);
        assert 1024 * Pow1024(e) <= 1024 * m;
      }
      assert n < Pow1024(e + 2) by {
        assert Pow1024(e + 2) == 1024 * Pow1024(e + 1);
        assert m + 1 <= Pow1024(e + 1);
        assert 1024 * (m + 1) <= 1024 * Pow1024(e + 1);
      }
    }
  }

  /**
   * What `formatFileSize` prints: `InBytes(n)` is "%d B"; `Scaled(div, unit)` is
   * `size / div` printed with one decimal, followed by `unit`.
   */
  datatype SizeLabel = InBytes(n: int) | Scaled(div: int, unit: string)

  /** The label `formatFileSize` chooses, as written: the unit index is clamped to "PB" but `div` is not. */
  function FileSizeLabel(size: int64): SizeLabel
  {
    if size < 1024 then InBytes(size as int)
    else
      var e := Exponent(size as int / 1024);
      Scaled(Pow1024(e + 1), SizeUnits[Min(e, |SizeUnits| - 1)])
  }

  /** The unit selection loop of `formatFileSize`; the `%.1f` rendering is not modelled. */
  method FormatFileSize(size: int64) returns (r: SizeLabel)
    ensures r == FileSizeLabel(size)
  {
    if size < 1024 {
      return InBytes(size as int);
    }
    var div, exp := 1024, 0;
    var n := size as int / 1024;
    while n >= 1024
      invariant n >= 1
      invariant div == Pow1024(exp + 1)
      invariant Exponent(size as int / 1024) == exp + Exponent(n)
      decreases n
    {
      div := div * 1024;
      exp := exp + 1;
      n := n / 1024;
    }
    if exp >= |SizeUnits| {
      exp := |SizeUnits| - 1;
    }
    r := Scaled(div, SizeUnits[exp]);
  }

  /** The number of bytes one `unit` stands for (1 for anything that is not a unit name). */
  function UnitBytes(unit: string): nat
  {
    if unit == "KB" then Pow1024(1)
    else if unit == "MB" then Pow1024(2)
    else if unit == "GB" then Pow1024(3)
    else if unit == "TB" then Pow1024(4)
    else if unit == "PB" then Pow1024(5)
    else 1
  }

  /** The divisor is always the largest power of 1024 not above the size. */
  lemma FileSizeLabelDivisor(size: int64)
    requires size >= 1024
    ensures FileSizeLabel(size).Scaled?
    ensures FileSizeLabel(size).div <= size as int < 1024 * FileSizeLabel(size).div
  {
    var m := size as int / 1024;
    ExponentBounds(m);
    var e := Exponent(m);
    assert Pow1024(e + 1) == 1024 * Pow1024(e);
    assert Pow1024(e + 2) == 1024 * Pow1024(e + 1);
    assert 1024 * m <= size as int < 1024 * m + 1024;
  }

  /** Below 1024 PiB the printed unit is the one the divisor stands for. */
  lemma FileSizeLabelUnitMatches(size: int64)
    requires 1024 <= size as int < Pow1024(6)
    ensures FileSizeLabel(size).Scaled?
    ensures FileSizeLabel(size).div == UnitBytes(FileSizeLabel(size).unit)
  {
    var m := size as int / 1024;
    ExponentBounds(m);
    var e := Exponent(m);
    assert Pow1024(6) == 1024 * Pow1024(5);
    assert m < Pow1024(5);
    if e >= 5 {
      PowMonotone(5, e);
      assert false;
    }
  }

  lemma {:induction false} PowMonotone(a: nat, b: nat)
    requires a <= b
    ensures Pow1024(a) <= Pow1024(b)
    decreases b
  {
    if a < b { PowMonotone(a, b - 1); }
  }

  /**
   * As written, one exbibyte (2^60 bytes) is divided by 2^60 but labelled "PB": it is shown
   * as "1.0 PB", a thousand and twenty-four times too small.
   */
  lemma ExbibyteShownAsOnePetabyte()
    ensures FileSizeLabel(0x1000_0000_0000_0000) == Scaled(Pow1024(6), "PB")
    ensures UnitBytes("PB") * 1024 == Pow1024(6)
  {
    var m := 0x1000_0000_0000_0000 / 1024;
    assert m == 0x4_0000_0000_0000;
    assert Exponent(m) == 5 by {
      assert Exponent(0x1) == 0;
      assert Exponent(0x400) == 1 + Exponent(0x1);
      assert Exponent(0x10_0000) == 1 + Exponent(0x400);
      assert Exponent(0x4000_0000) == 1 + Exponent(0x10_0000);
      assert Exponent(0x100_0000_0000) == 1 + Exponent(0x4000_0000);
      assert Exponent(m) == 1 + Exponent(0x100_0000_0000);
    }
  }

  /** The evident intent: stop scaling at the last unit, so the divisor always matches it. */
  function FileSizeLabelClamped(size: int64): (r: SizeLabel)
    ensures r.InBytes? <==> size < 1024
    ensures r.InBytes? ==> r.n == size as int
    ensures r.Scaled? ==> r.unit in SizeUnits && r.div == UnitBytes(r.unit)
  {
    if size < 1024 then InBytes(size as int)
    else
      var e := Min(Exponent(size as int / 1024), |SizeUnits| - 1);
      Scaled(Pow1024(e + 1), SizeUnits[e])
  }

  /**
   * With the clamp applied to the divisor too, the printed unit always matches the
   * divisor, the divisor never exceeds the size, and only "PB" may show a value of 1024 or more.
   */
  lemma ClampedLabelUnitMatches(size: int64)
    requires size >= 1024
    ensures FileSizeLabelClamped(size).Scaled?
    ensures FileSizeLabelClamped(size).div == UnitBytes(FileSizeLabelClamped(size).unit)
    ensures FileSizeLabelClamped(size).div <= size as int
    ensures FileSizeLabelClamped(size).unit != "PB" ==> size as int < 1024 * FileSizeLabelClamped(size).div
  {
    FileSizeLabelDivisor(size);
    var e := Exponent(size as int / 1024);
    PowMonotone(Min(e, 4) + 1, e + 1);
  }
}
