/** A label preset's geometry and the A4 grid it yields (app/models/label_setting.py). */
module LabelSettings {
  import opened Wrappers
  import opened Numeric

  /** A4 paper in millimetres. */
  const A4Width: real := 210.0
  const A4Height: real := 297.0

  /** One label preset: label size and margins in millimetres, content switches, default flag. */
  datatype LabelSetting = LabelSetting(
    presetName: string,
    labelWidth: real,
    labelHeight: real,
    marginTop: real,
    marginBottom: real,
    marginLeft: real,
    marginRight: real,
    showPrice: bool,
    showIngredients: bool,
    showExpiryDate: bool,
    showStoreName: bool,
    showLogo: bool,
    logoPath: Option<string>,
    isDefault: bool)

  /** The label size every stored preset has: the schema demands a positive width and height. */
  predicate PositiveSize(s: LabelSetting)
  {
    s.labelWidth > 0.0 && s.labelHeight > 0.0
  }

  function PrintableWidth(s: LabelSetting): real
  {
    A4Width - s.marginLeft - s.marginRight
  }

  function PrintableHeight(s: LabelSetting): real
  {
    A4Height - s.marginTop - s.marginBottom
  }

  /**
   * `count` is what `int(extent / size)` yields: for a non-negative extent the
   * largest number of labels of that size that fit in it; for a negative extent
   * (margins wider than the page) the quotient truncated toward zero.
   */
  predicate FitsAlong(count: int, size: real, extent: real)
  {
    && (extent >= 0.0 ==> 0 <= count && count as real * size <= extent < (count + 1) as real * size)
    && (extent < 0.0 ==> count <= 0 && (count - 1) as real * size < extent <= count as real * size)
  }

  /** Truncating extent / size counts the labels along one side. */
  lemma TruncFits(extent: real, size: real)
    requires size > 0.0
    ensures FitsAlong(Trunc(extent / size), size, extent)
  {
    var x := extent / size;
    var r := Trunc(x);
    assert x * size == extent;
    if extent >= 0.0 {
      assert x >= 0.0;
      assert r as real * size <= x * size;
      assert x * size < (r as real + 1.0) * size;
    } else {
      assert x < 0.0;
      assert (r as real - 1.0) * size < x * size;
      assert x * size <= r as real * size;
    }
  }

  datatype SheetGrid = SheetGrid(labelsPerSheet: int, labelsPerRow: int, labelsPerColumn: int)

  /**
   * How many labels fit on an A4 sheet: per row, per column, and their product.
   */
  function CalculateLabelsPerSheet(s: LabelSetting): (g: SheetGrid)
    requires PositiveSize(s)
    ensures g.labelsPerSheet == g.labelsPerRow * g.labelsPerColumn
    ensures FitsAlong(g.labelsPerRow, s.labelWidth, PrintableWidth(s))
    ensures FitsAlong(g.labelsPerColumn, s.labelHeight, PrintableHeight(s))
  {
    TruncFits(PrintableWidth(s), s.labelWidth);
    TruncFits(PrintableHeight(s), s.labelHeight);
    var labelsPerRow := Trunc(PrintableWidth(s) / s.labelWidth);
    var labelsPerColumn := Trunc(PrintableHeight(s) / s.labelHeight);
    SheetGrid(labelsPerRow * labelsPerColumn, labelsPerRow, labelsPerColumn)
  }

  /** No label fits along an extent shorter than one label. */
  lemma NothingFits(count: int, size: real, extent: real)
    requires size > 0.0 && 0.0 <= extent < size
    requires FitsAlong(count, size, extent)
    ensures count == 0
  {
    var c := count as real;
    assert 0.0 <= c && c * size <= extent;
    assert c * size < size;
    assert (c - 1.0) * size < 0.0;

  }

  /** A label wider than a non-negative printable width fits no column of labels, so none fits on the sheet. */
  lemma TooWideFitsNothing(s: LabelSetting)
    requires PositiveSize(s)
    requires 0.0 <= PrintableWidth(s) < s.labelWidth
    ensures CalculateLabelsPerSheet(s).labelsPerRow == 0
    ensures CalculateLabelsPerSheet(s).labelsPerSheet == 0
  {
    NothingFits(CalculateLabelsPerSheet(s).labelsPerRow, s.labelWidth, PrintableWidth(s));
  }

  /** A label taller than a non-negative printable height fits no row of labels, so none fits on the sheet. */
  lemma TooTallFitsNothing(s: LabelSetting)
    requires PositiveSize(s)
    requires 0.0 <= PrintableHeight(s) < s.labelHeight
    ensures CalculateLabelsPerSheet(s).labelsPerColumn == 0
    ensures CalculateLabelsPerSheet(s).labelsPerSheet == 0
  {
    NothingFits(CalculateLabelsPerSheet(s).labelsPerColumn, s.labelHeight, PrintableHeight(s));
  }

  /** The default 10 mm margins with 70 x 40 mm labels: 2 per row, 6 per column, 12 per sheet. */
  lemma DefaultMarginsExample()
    ensures var s := LabelSetting("standard", 70.0, 40.0, 10.0, 10.0, 10.0, 10.0,
                                  true, true, false, true, false, None, false);
      CalculateLabelsPerSheet(s) == SheetGrid(12, 2, 6)
  {
  }

  /**
   * Margins are only individually non-negative, so the printable extents can be
   * negative: 150 mm left and right margins and 200 mm top and bottom margins
   * with 50 x 50 mm labels give -1 label per row and -2 per column, and a
   * positive 2 labels per sheet although no label fits.
   */
  lemma NegativeExtentsExample()
    ensures var s := LabelSetting("oversized margins", 50.0, 50.0, 200.0, 200.0, 150.0, 150.0,
                                  true, true, false, true, false, None, false);
      CalculateLabelsPerSheet(s) == SheetGrid(2, -1, -2)
  {
  }
}
