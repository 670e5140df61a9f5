/**
 * The label sheet generator (app/utils/pdf_generator.py): the grid in PDF
 * points, the row-major walk over the products with a page break whenever the
 * next row would fall off the sheet, and the text drawn on one label with a
 * cursor that moves down line by line. The canvas is a sequence of drawing
 * operations; fonts and the PDF encoding are not part of this model.
 */
module PdfGenerator {
  import opened Wrappers
  import opened Numeric
  import opened LabelSettings
  import opened LabelText
  import opened Recipes
  import opened Pagination
  import Products

  /** PDF points per millimetre (reportlab's `mm`). */
  const MM: real := 72.0 / 25.4
  /** The A4 page in points. */
  const PageWidth: real := A4Width * MM
  const PageHeight: real := A4Height * MM
  /** Inner padding of a label, in points. */
  const Padding: real := 5.0

  const IngredientsHeading: string := "原材料:"
  const ExpiryPrefix: string := "賞味期限: "

  /**
   * What the generator reads of one product: its name, its selling price and,
   * when the product has a recipe, that recipe's material usages.
   */
  datatype PrintItem = PrintItem(name: string, sellingPrice: Option<real>, recipe: Option<seq<Usage>>)

  /** One canvas call: a label's frame, a string at a baseline, or the end of a page. */
  datatype Op =
    | Frame(x: real, y: real, width: real, height: real)
    | Text(x: real, y: real, text: string)
    | ShowPage

  /** A text line of a label and how far the cursor moves down after drawing it. */
  datatype Line = Line(text: string, advance: real)

  /** The only way generation fails: a grid with no column, where the first `//` divides by zero. */
  datatype LayoutError = ZeroLabelsPerRow

  /* ---- The names of a recipe's materials ---- */

  /** The names of the recipe's materials that still resolve, in usage order. */
  function MaterialNames(us: seq<Usage>): (names: seq<string>)
  {
    if us == [] then []
    else
      var last := us[|us| - 1];
      MaterialNames(us[..|us| - 1]) + (if last.material.Some? then [last.material.value.name] else [])
  }

  /** The loop that collects those names. */
  method CollectMaterialNames(us: seq<Usage>) returns (names: seq<string>)
    ensures names == MaterialNames(us)
  {
    names := [];
    for i := 0 to |us|
      invariant names == MaterialNames(us[..i])
    {
      assert us[..i + 1][..i] == us[..i];
      if us[i].material.Some? {
        names := names + [us[i].material.value.name];
      }
    }
    assert us[..|us|] == us;
  }

  /** A resolved usage contributes its name; an unresolved one is skipped. */
  lemma {:induction false} MaterialNamesCount(us: seq<Usage>)
    ensures |MaterialNames(us)| == |set i | 0 <= i < |us| && us[i].material.Some?|
  {
    if us != [] {
      var n := |us| - 1;
      var init := us[..n];
      MaterialNamesCount(init);
      var before := set i | 0 <= i < |init| && init[i].material.Some?;
      var after := set i | 0 <= i < |us| && us[i].material.Some?;
      assert before == set i | 0 <= i < n && us[i].material.Some?;
      assert n !in before;
      if us[n].material.Some? {
        assert after == before + {n};
      } else {
        assert after == before;
      }
    }
  }

  /** Some usage in `us` resolves to a material called `name`. */
  predicate NamedIn(name: string, us: seq<Usage>)
  {
    exists i :: 0 <= i < |us| && us[i].material.Some? && us[i].material.value.name == name
  }

  /** Every name drawn belongs to a usage whose material resolves to it. */
  lemma {:induction false} MaterialNamesFromUsages(us: seq<Usage>)
    ensures forall k :: 0 <= k < |MaterialNames(us)| ==> NamedIn(MaterialNames(us)[k], us)
  {
    if us != [] {
      var n := |us| - 1;
      var init := MaterialNames(us[..n]);
      MaterialNamesFromUsages(us[..n]);
      var names := MaterialNames(us);
      assert names == init + (if us[n].material.Some? then [us[n].material.value.name] else []);
      forall k | 0 <= k < |names|
        ensures NamedIn(names[k], us)
      {
        if k < |init| {
          assert names[k] == init[k];
          assert NamedIn(init[k], us[..n]);
          var i :| 0 <= i < |us[..n]| && us[..n][i].material.Some? && us[..n][i].material.value.name == init[k];
          assert us[i] == us[..n][i];
        } else {
          assert us[n].material.Some? && us[n].material.value.name == names[k];
        }
      }
    }
  }

  /* ---- The lines of one label ---- */

  /** The expiry date is printed only when one was given and it is not empty. */
  predicate ExpiryGiven(expiry: Option<string>)
  {
    expiry.Some? && expiry.value != ""
  }

  function NameLines(item: PrintItem): seq<Line>
  {
    [Line(NameText(item.name), 20.0)]
  }

  function PriceLines(s: LabelSetting, item: PrintItem): seq<Line>
  {
    if s.showPrice && Products.Truthy(item.sellingPrice) then [Line(PriceText(item.sellingPrice.value), 18.0)] else []
  }

  /** The wrapped ingredient text, ten points per line. */
  function WrappedLines(text: string): seq<Line>
  {
    var ls := WrapLines(text);
    seq(|ls|, i requires 0 <= i < |ls| => Line(ls[i], 10.0))
  }

  function IngredientLines(s: LabelSetting, item: PrintItem): seq<Line>
  {
    if s.showIngredients && item.recipe.Some? then
      [Line(IngredientsHeading, 12.0)] + WrappedLines(IngredientText(MaterialNames(item.recipe.value)))
    else []
  }

  function ExpiryLines(s: LabelSetting, expiry: Option<string>): seq<Line>
  {
    if s.showExpiryDate && ExpiryGiven(expiry) then [Line(ExpiryPrefix + expiry.value, 12.0)] else []
  }

  /** The label's text from the top down: name, price, ingredients, expiry date. */
  function Lines(s: LabelSetting, item: PrintItem, expiry: Option<string>): seq<Line>
  {
    NameLines(item) + PriceLines(s, item) + IngredientLines(s, item) + ExpiryLines(s, expiry)
  }

  /** How far the cursor has moved after drawing `lines`. */
  function Drop(lines: seq<Line>): real
  {
    if lines == [] then 0.0 else lines[0].advance + Drop(lines[1..])
  }

  /** The lines drawn one under the other from baseline `y`, each one its predecessor's advance lower. */
  function Flow(x: real, y: real, lines: seq<Line>): (ops: seq<Op>)
    ensures |ops| == |lines|
    decreases |lines|
  {
    if lines == [] then [] else [Text(x, y, lines[0].text)] + Flow(x, y - lines[0].advance, lines[1..])
  }

  lemma {:induction false} DropAppend(a: seq<Line>, b: seq<Line>)
    ensures Drop(a + b) == Drop(a) + Drop(b)
    decreases |a|
  {
    if a == [] {
      assert a + b == b;
    } else {
      assert (a + b)[0] == a[0];
      assert (a + b)[1..] == a[1..] + b;
      DropAppend(a[1..], b);
    }
  }

  /** Drawing two blocks in turn is drawing the second where the first left the cursor. */
  lemma {:induction false} FlowAppend(x: real, y: real, a: seq<Line>, b: seq<Line>)
    ensures Flow(x, y, a + b) == Flow(x, y, a) + Flow(x, y - Drop(a), b)
    decreases |a|
  {
    if a == [] {
      assert a + b == b;
    } else {
      assert (a + b)[0] == a[0];
      assert (a + b)[1..] == a[1..] + b;
      FlowAppend(x, y - a[0].advance, a[1..], b);
    }
  }

  /** Three blocks drawn in turn, each from where the previous one left the cursor. */
  lemma FlowThree(x: real, y: real, a: seq<Line>, b: seq<Line>, c: seq<Line>)
    ensures Flow(x, y, a + b + c)
      == Flow(x, y, a) + Flow(x, y - Drop(a), b) + Flow(x, y - Drop(a) - Drop(b), c)
  {
    FlowAppend(x, y, a + b, c);
    FlowAppend(x, y, a, b);
    DropAppend(a, b);
  }

  /** Four blocks drawn in turn, each from where the previous one left the cursor. */
  lemma FlowSections(x: real, y: real, a: seq<Line>, b: seq<Line>, c: seq<Line>, d: seq<Line>)
    ensures Flow(x, y, a + b + c + d)
      == Flow(x, y, a) + Flow(x, y - Drop(a), b) + Flow(x, y - Drop(a) - Drop(b), c)
         + Flow(x, y - Drop(a) - Drop(b) - Drop(c), d)
  {
    FlowAppend(x, y, a + b + c, d);
    FlowThree(x, y, a, b, c);
    DropAppend(a + b, c);
    DropAppend(a, b);
  }

  /** The name block is one line at the first baseline, 20 points deep. */
  lemma NameSection(x: real, y: real, item: PrintItem)
    ensures Flow(x, y, NameLines(item)) == [Text(x, y, NameText(item.name))]
    ensures Drop(NameLines(item)) == 20.0
  {
    assert NameLines(item)[1..] == [];
  }

  /**
   * The label's text drawn section by section: the name at the first
   * baseline, and each later section starting where the one above left the
   * cursor (20 points under the name).
   */
  lemma TextSections(x: real, y: real, s: LabelSetting, item: PrintItem, expiry: Option<string>)
    ensures var p, g := PriceLines(s, item), IngredientLines(s, item);
      Flow(x, y, Lines(s, item, expiry))
      == [Text(x, y, NameText(item.name))] + Flow(x, y - 20.0, p) + Flow(x, y - 20.0 - Drop(p), g)
         + Flow(x, y - 20.0 - Drop(p) - Drop(g), ExpiryLines(s, expiry))
  {
    var n, p, g, e := NameLines(item), PriceLines(s, item), IngredientLines(s, item), ExpiryLines(s, expiry);
    FlowSections(x, y, n, p, g, e);
    NameSection(x, y, item);
  }

  /** Line i sits at the starting baseline lowered by the advances of the lines above it. */
  lemma {:induction false} FlowBaselines(x: real, y: real, lines: seq<Line>)
    ensures forall i :: 0 <= i < |lines| ==> Flow(x, y, lines)[i] == Text(x, y - Drop(lines[..i]), lines[i].text)
    decreases |lines|
  {
    if lines != [] {
      FlowBaselines(x, y - lines[0].advance, lines[1..]);
      forall i | 0 <= i < |lines|
        ensures Flow(x, y, lines)[i] == Text(x, y - Drop(lines[..i]), lines[i].text)
      {
        if i > 0 {
          assert lines[..i][1..] == lines[1..][..i - 1];
        }
      }
    }
  }

  /** Both are strings and `a` is drawn on a lower baseline than `b`. */
  predicate Below(a: Op, b: Op)
  {
    a.Text? && b.Text? && a.y < b.y
  }

  predicate PositiveAdvances(lines: seq<Line>)
  {
    forall i :: 0 <= i < |lines| ==> lines[i].advance > 0.0
  }

  lemma {:induction false} DropPositive(lines: seq<Line>)
    requires PositiveAdvances(lines) && lines != []
    ensures Drop(lines) >= lines[0].advance > 0.0
    decreases |lines|
  {
    if |lines| > 1 {
      DropPositive(lines[1..]);
    }
  }

  /** With positive advances the baselines strictly descend: no two lines of a label overprint. */
  lemma FlowDescends(x: real, y: real, lines: seq<Line>)
    requires PositiveAdvances(lines)
    ensures forall i, j :: 0 <= i < j < |lines| ==> Below(Flow(x, y, lines)[j], Flow(x, y, lines)[i])
  {
    FlowBaselines(x, y, lines);
    forall i, j | 0 <= i < j < |lines|
      ensures Below(Flow(x, y, lines)[j], Flow(x, y, lines)[i])
    {
      assert lines[..j] == lines[..i] + lines[i..j];
      DropAppend(lines[..i], lines[i..j]);
      DropPositive(lines[i..j]);
    }
  }

  lemma LinesHavePositiveAdvances(s: LabelSetting, item: PrintItem, expiry: Option<string>)
    ensures PositiveAdvances(Lines(s, item, expiry))
  {
  }

  /** A line's advance and everything above it fit within the whole block's drop. */
  lemma PrefixDropBound(lines: seq<Line>, i: nat)
    requires PositiveAdvances(lines) && i < |lines|
    ensures Drop(lines[..i]) + lines[i].advance <= Drop(lines)
  {
    assert lines == lines[..i] + lines[i..];
    DropAppend(lines[..i], lines[i..]);
    DropPositive(lines[i..]);
  }

  /** Name, price and ingredients together move the cursor down at most 70 points. */
  lemma UpperSectionsDrop(s: LabelSetting, item: PrintItem)
    ensures Drop(NameLines(item) + PriceLines(s, item) + IngredientLines(s, item)) <= 70.0
  {
    var n, p, g := NameLines(item), PriceLines(s, item), IngredientLines(s, item);
    DropAppend(n + p, g);
    DropAppend(n, p);
    assert Drop(n) == 20.0;
    assert Drop(p) <= 18.0;
    if g != [] {
      var w := WrappedLines(IngredientText(MaterialNames(item.recipe.value)));
      assert g == [g[0]] + w;
      DropAppend([g[0]], w);
      if |w| == 2 {
        assert w[1..][1..] == [];
      } else {
        assert w[1..] == [];
      }
    }
    assert Drop(g) <= 32.0;
  }

  /**
   * However the switches are set, every baseline of the label's text lies at
   * most 70 points below the first one (name 20, price 18, heading 12 and two
   * ingredient lines of 10 above the expiry date at the lowest).
   */
  lemma TextBlockDepth(s: LabelSetting, item: PrintItem, expiry: Option<string>)
    ensures var lines := Lines(s, item, expiry);
      forall i :: 0 <= i < |lines| ==> 0.0 <= Drop(lines[..i]) <= 70.0
  {
    var lines := Lines(s, item, expiry);
    var upper := NameLines(item) + PriceLines(s, item) + IngredientLines(s, item);
    assert lines == upper + ExpiryLines(s, expiry);
    LinesHavePositiveAdvances(s, item, expiry);
    UpperSectionsDrop(s, item);
    forall i | 0 <= i < |lines|
      ensures 0.0 <= Drop(lines[..i]) <= 70.0
    {
      DropNonNegative(lines[..i]);
      if i < |upper| {
        assert lines[..i] == upper[..i] && lines[i] == upper[i];
        PrefixDropBound(upper, i);
      } else {
        assert lines[..i] == upper;
      }
    }
  }

  lemma {:induction false} DropNonNegative(lines: seq<Line>)
    requires PositiveAdvances(lines)
    ensures Drop(lines) >= 0.0
    decreases |lines|
  {
    if lines != [] {
      DropPositive(lines);
    }
  }

  /**
   * The ingredient lines after the heading lose nothing of the first 70
   * characters of the list and keep their order, and none is longer than 35.
   */
  lemma IngredientLinesFaithful(text: string)
    ensures var w := WrappedLines(text);
      && (forall i :: 0 <= i < |w| ==> |w[i].text| <= WrapWidth)
      && (|w| == 1 ==> w[0].text == text)
      && (|w| == 2 ==> w[0].text + w[1].text == text[..Min(2 * WrapWidth, |text|)])
      && (|w| == 2 <==> |text| > WrapWidth)
  {
    WrapKeepsFirstSeventy(text);
    var ls := WrapLines(text);
    if |ls| == 2 {
      assert ls[1..][1..] == [];
    } else {
      assert ls[1..] == [];
    }
  }

  /** The price line is "¥" and digits that read back as the integer part of the selling price. */
  lemma PriceLineReadsBack(s: LabelSetting, item: PrintItem, expiry: Option<string>)
    requires s.showPrice && Products.Truthy(item.sellingPrice)
    ensures var t := Lines(s, item, expiry)[1].text;
      t[..|Yen|] == Yen && ParseThousands(t[|Yen|..]) == Trunc(item.sellingPrice.value)
  {
    FormatThousandsRoundTrip(Trunc(item.sellingPrice.value));
  }

  /* ---- The generator ---- */

  class LabelPdfGenerator {
    const setting: LabelSetting
    const storeName: string
    /** Label size and margins in points. */
    const labelWidth: real
    const labelHeight: real
    const marginLeft: real
    const marginTop: real
    const marginRight: real
    const marginBottom: real
    const printableWidth: real
    const printableHeight: real
    const labelsPerRow: int
    const labelsPerColumn: int

    /** The fields as the constructor derives them from the preset. */
    predicate Valid()
    {
      && PositiveSize(setting)
      && labelWidth == setting.labelWidth * MM && labelHeight == setting.labelHeight * MM
      && marginLeft == setting.marginLeft * MM && marginTop == setting.marginTop * MM
      && marginRight == setting.marginRight * MM && marginBottom == setting.marginBottom * MM
      && printableWidth == PageWidth - marginLeft - marginRight
      && printableHeight == PageHeight - marginTop - marginBottom
      && labelsPerRow == Trunc(printableWidth / labelWidth)
      && labelsPerColumn == Trunc(printableHeight / labelHeight)
    }

    constructor (setting: LabelSetting, storeName: string)
      requires PositiveSize(setting)
      ensures this.setting == setting && this.storeName == storeName
      ensures Valid()
    {
      this.setting := setting;
      this.storeName := storeName;
      labelWidth := setting.labelWidth * MM;
      labelHeight := setting.labelHeight * MM;
      marginLeft := setting.marginLeft * MM;
      marginTop := setting.marginTop * MM;
      marginRight := setting.marginRight * MM;
      marginBottom := setting.marginBottom * MM;
      printableWidth := PageWidth - setting.marginLeft * MM - setting.marginRight * MM;
      printableHeight := PageHeight - setting.marginTop * MM - setting.marginBottom * MM;
      labelsPerRow := Trunc((PageWidth - setting.marginLeft * MM - setting.marginRight * MM) / (setting.labelWidth * MM));
      labelsPerColumn := Trunc((PageHeight - setting.marginTop * MM - setting.marginBottom * MM) / (setting.labelHeight * MM));
    }

    /** The grid counts, in points, are the largest numbers of labels that fit across and down the printable area. */
    lemma GridFits()
      requires Valid()
      ensures FitsAlong(labelsPerRow, labelWidth, printableWidth)
      ensures FitsAlong(labelsPerColumn, labelHeight, printableHeight)
    {
      TruncFits(printableWidth, labelWidth);
      TruncFits(printableHeight, labelHeight);
    }

    /** The grid the PDF uses is the grid the settings API reports (`calculate_labels_per_sheet`), computed in millimetres. */
    lemma GridAgreesWithSetting()
      requires Valid()
      ensures labelsPerRow == CalculateLabelsPerSheet(setting).labelsPerRow
      ensures labelsPerColumn == CalculateLabelsPerSheet(setting).labelsPerColumn
    {
      assert printableWidth == PrintableWidth(setting) * MM;
      assert printableHeight == PrintableHeight(setting) * MM;
      QuotientScale(PrintableWidth(setting), setting.labelWidth, MM);
      QuotientScale(PrintableHeight(setting), setting.labelHeight, MM);
    }

    /** The lower-left corner of the label in a slot. */
    function Origin(row: int, col: int): (real, real)
    {
      (marginLeft + col as real * labelWidth, PageHeight - marginTop - (row + 1) as real * labelHeight)
    }

    /** Every label of a grid with at least one row and one column lies inside the page margins. */
    lemma FrameInsideMargins(k: nat)
      requires Valid() && labelsPerRow > 0 && labelsPerColumn > 0
      ensures var slot := SlotAt(k, labelsPerRow, labelsPerColumn);
        var o := Origin(slot.row, slot.col);
        && marginLeft <= o.0 && o.0 + labelWidth <= PageWidth - marginRight
        && marginBottom <= o.1 && o.1 + labelHeight <= PageHeight - marginTop
    {
      var slot := SlotAt(k, labelsPerRow, labelsPerColumn);
      SlotInsideGrid(k, labelsPerRow, labelsPerColumn);
      GridFits();
      CellInside(slot.col, labelsPerRow, labelWidth, printableWidth);
      CellInside(slot.row, labelsPerColumn, labelHeight, printableHeight);
    }

    /** What `_draw_label` puts on the canvas for a label with lower-left corner (x, y). */
    function LabelOps(x: real, y: real, item: PrintItem, expiry: Option<string>): seq<Op>
    {
      [Frame(x, y, labelWidth, labelHeight)]
      + Flow(x + Padding, y + labelHeight - Padding, Lines(setting, item, expiry))
      + (if setting.showStoreName then [Text(x + Padding, y + 5.0, storeName)] else [])
    }

    /** Draws one label: the frame, the text block from the top padding down, then the store name near the bottom. */
    method DrawLabel(x: real, y: real, item: PrintItem, expiry: Option<string>) returns (ops: seq<Op>)
      ensures ops == LabelOps(x, y, item, expiry)
    {
      var contentX := x + Padding;
      var contentY := y + labelHeight - Padding;
      ops := [Frame(x, y, labelWidth, labelHeight)];
      var text := DrawText(contentX, contentY, item, expiry);
      ops := ops + text;
      if setting.showStoreName {
        ops := ops + [Text(contentX, y + 5.0, storeName)];
      }
    }

    /** The label's text, moving a cursor down from (x, y) section by section. */
    method DrawText(x: real, y: real, item: PrintItem, expiry: Option<string>) returns (ops: seq<Op>)
      ensures ops == Flow(x, y, Lines(setting, item, expiry))
    {
      var currentY := y;
      ops := [Text(x, currentY, NameText(item.name))];
      currentY := currentY - 20.0;

      var price, ingredients, expiryDate;
      price, currentY := DrawPrice(x, currentY, item);
      ingredients, currentY := DrawIngredients(x, currentY, item);
      expiryDate, currentY := DrawExpiry(x, currentY, expiry);
      ops := ops + price + ingredients + expiryDate;
      TextSections(x, y, setting, item, expiry);
    }

    /** The price line, when prices are shown and the product has a non-zero selling price. */
    method DrawPrice(x: real, y: real, item: PrintItem) returns (ops: seq<Op>, nextY: real)
      ensures ops == Flow(x, y, PriceLines(setting, item))
      ensures nextY == y - Drop(PriceLines(setting, item))
    {
      ops, nextY := [], y;
      if setting.showPrice && Products.Truthy(item.sellingPrice) {
        ops := [Text(x, y, PriceText(item.sellingPrice.value))];
        nextY := y - 18.0;
      }
    }

    /** The expiry line, when expiry dates are shown and a non-empty date was given. */
    method DrawExpiry(x: real, y: real, expiry: Option<string>) returns (ops: seq<Op>, nextY: real)
      ensures ops == Flow(x, y, ExpiryLines(setting, expiry))
      ensures nextY == y - Drop(ExpiryLines(setting, expiry))
    {
      ops, nextY := [], y;
      if setting.showExpiryDate && ExpiryGiven(expiry) {
        ops := [Text(x, y, ExpiryPrefix + expiry.value)];
        nextY := y - 12.0;
      }
    }

    /** The ingredient block of a label: the heading, then the material list wrapped at 35 characters. */
    method DrawIngredients(x: real, y: real, item: PrintItem) returns (ops: seq<Op>, nextY: real)
      ensures ops == Flow(x, y, IngredientLines(setting, item))
      ensures nextY == y - Drop(IngredientLines(setting, item))
    {
      ops, nextY := [], y;
      if !(setting.showIngredients && item.recipe.Some?) {
        return;
      }
      var currentY := y;
      ops := [Text(x, currentY, IngredientsHeading)];
      currentY := currentY - 12.0;
      var names := CollectMaterialNames(item.recipe.value);
      var materialText := IngredientText(names);
      if |materialText| > WrapWidth {
        ops := ops + [Text(x, currentY, materialText[..WrapWidth])];
        currentY := currentY - 10.0;
        ops := ops + [Text(x, currentY, materialText[WrapWidth..Min(2 * WrapWidth, |materialText|)])];
        currentY := currentY - 10.0;
      } else {
        ops := ops + [Text(x, currentY, materialText)];
        currentY := currentY - 10.0;
      }
      IngredientBlock(x, y, materialText);
      nextY := currentY;
    }

    /** The drawings of the labels in `slots`, in order. */
    function Drawings(slots: seq<Slot>, items: seq<PrintItem>, expiry: Option<string>): (ds: seq<seq<Op>>)
      requires |slots| == |items|
      ensures |ds| == |items|
    {
      if items == [] then []
      else
        var n := |items| - 1;
        var o := Origin(slots[n].row, slots[n].col);
        Drawings(slots[..n], items[..n], expiry) + [LabelOps(o.0, o.1, items[n], expiry)]
    }

    /** The document for `items`: each label drawn at the slot the pagination walk assigns it. */
    function Document(items: seq<PrintItem>, expiry: Option<string>): seq<Op>
      requires labelsPerRow != 0
    {
      var slots := Walk(|items|, labelsPerRow, labelsPerColumn).1;
      Paginate(slots, Drawings(slots, items, expiry))
    }

    /**
     * Row and column of the next label from the running index (Python `//`
     * and `%`), moved to the top-left cell of a new page when the row would
     * fall below the last one.
     */
    method NextPosition(labelIndex: int, ghost page: nat) returns (row: int, col: int, newPage: bool)
      requires labelsPerRow != 0
      ensures var next := Place(Cursor(labelIndex, page), labelsPerRow, labelsPerColumn);
        && next.1 == Slot(if newPage then page + 1 else page, row, col)
        && next.0 == Cursor((if newPage then 0 else labelIndex) + 1, next.1.page)
    {
      row := PyDiv(labelIndex, labelsPerRow);
      col := PyMod(labelIndex, labelsPerRow);
      newPage := false;
      if row >= labelsPerColumn {
        newPage := true;
        row := 0;
        col := 0;
      }
    }

    /** Drawing one more item at one more slot extends the drawings by that label. */
    lemma DrawingsStep(slots: seq<Slot>, items: seq<PrintItem>, i: nat, slot: Slot, expiry: Option<string>)
      requires |slots| == i < |items|
      ensures var o := Origin(slot.row, slot.col);
        Drawings(slots + [slot], items[..i + 1], expiry)
        == Drawings(slots, items[..i], expiry) + [LabelOps(o.0, o.1, items[i], expiry)]
    {
      assert items[..i + 1][..i] == items[..i];
      assert (slots + [slot])[..i] == slots;
    }

    /**
     * `generate_labels`: one label per item in input order. With no column in
     * the grid the first item fails on a division by zero.
     */
    method GenerateLabels(items: seq<PrintItem>, expiry: Option<string>) returns (r: Result<seq<Op>, LayoutError>)
      ensures r.Failure? <==> labelsPerRow == 0 && items != []
      ensures r.Success? && items == [] ==> r.value == []
      ensures r.Success? && items != [] ==> r.value == Document(items, expiry)
    {
      if labelsPerRow == 0 {
        if items == [] {
          return Success([]);
        }
        return Failure(ZeroLabelsPerRow);
      }
      var ops: seq<Op> := [];
      var labelIndex := 0;
      ghost var page: nat := 0;
      ghost var slots: seq<Slot> := [];
      ghost var drawings: seq<seq<Op>> := [];
      for i := 0 to |items|
        invariant |slots| == i
        invariant Walk(i, labelsPerRow, labelsPerColumn) == (Cursor(labelIndex, page), slots)
        invariant drawings == Drawings(slots, items[..i], expiry)
        invariant ops == Paginate(slots, drawings)
      {
        WalkStep(i, labelsPerRow, labelsPerColumn);
        var row, col, newPage := NextPosition(labelIndex, page);
        if newPage {
          labelIndex := 0;
          page := page + 1;
        }
        ops, drawings := DrawNext(slots, drawings, ops, page, row, col, newPage, i, items, expiry);
        labelIndex := labelIndex + 1;
        slots := slots + [Slot(page, row, col)];
      }
      assert items[..|items|] == items;
      return Success(ops);
    }

    /** Ends the page when the slot is on a new one, then draws item i at the slot's corner. */
    method DrawNext(ghost slots: seq<Slot>, ghost drawings: seq<seq<Op>>, ops: seq<Op>, ghost page: nat, row: int, col: int, newPage: bool,
                    i: nat, items: seq<PrintItem>, expiry: Option<string>)
      returns (ops': seq<Op>, ghost drawings': seq<seq<Op>>)
      requires |slots| == i < |items|
      requires drawings == Drawings(slots, items[..i], expiry)
      requires ops == Paginate(slots, drawings)
      requires newPage <==> page != (if slots == [] then 0 else slots[|slots| - 1].page)
      ensures drawings' == Drawings(slots + [Slot(page, row, col)], items[..i + 1], expiry)
      ensures ops' == Paginate(slots + [Slot(page, row, col)], drawings')
    {
      var pageBreak: seq<Op> := [];
      if newPage {
        pageBreak := [ShowPage];
      }
      var origin := Origin(row, col);
      var labelOps := DrawLabel(origin.0, origin.1, items[i], expiry);
      DrawingsStep(slots, items, i, Slot(page, row, col), expiry);
      PaginateStep(slots, drawings, Slot(page, row, col), labelOps);
      ops' := ops + pageBreak + labelOps;
      drawings' := drawings + [labelOps];
    }

    /** No drawing of a label ends a page. */
    lemma {:induction false} DrawingsHaveNoBreaks(slots: seq<Slot>, items: seq<PrintItem>, expiry: Option<string>)
      requires |slots| == |items|
      ensures forall k :: 0 <= k < |items| ==> Breaks(Drawings(slots, items, expiry)[k]) == 0
    {
      if items != [] {
        var n := |items| - 1;
        DrawingsHaveNoBreaks(slots[..n], items[..n], expiry);
        var o := Origin(slots[n].row, slots[n].col);
        LabelHasNoBreaks(o.0, o.1, items[n], expiry);
      }
    }

    lemma LabelHasNoBreaks(x: real, y: real, item: PrintItem, expiry: Option<string>)
      ensures Breaks(LabelOps(x, y, item, expiry)) == 0
    {
      var f := Flow(x + Padding, y + labelHeight - Padding, Lines(setting, item, expiry));
      var store := if setting.showStoreName then [Text(x + Padding, y + 5.0, storeName)] else [];
      FlowHasNoBreaks(x + Padding, y + labelHeight - Padding, Lines(setting, item, expiry));
      BreaksAppend([Frame(x, y, labelWidth, labelHeight)], f);
      BreaksAppend([Frame(x, y, labelWidth, labelHeight)] + f, store);
    }

    /** The document holds exactly as many page breaks as the walk's last page number. */
    lemma DocumentBreaks(items: seq<PrintItem>, expiry: Option<string>)
      requires labelsPerRow != 0
      ensures Breaks(Document(items, expiry)) == Walk(|items|, labelsPerRow, labelsPerColumn).0.page
    {
      var slots := Walk(|items|, labelsPerRow, labelsPerColumn).1;
      DrawingsHaveNoBreaks(slots, items, expiry);
      PaginateBreaks(|items|, labelsPerRow, labelsPerColumn, Drawings(slots, items, expiry));
    }

    /**
     * For a grid with at least one row and one column, n > 0 labels take
     * (n - 1) div P + 1 pages (P labels to a page): the document holds
     * (n - 1) div P page breaks.
     */
    lemma PagesUsed(items: seq<PrintItem>, expiry: Option<string>)
      requires labelsPerRow > 0 && labelsPerColumn > 0 && items != []
      ensures Breaks(Document(items, expiry)) == (|items| - 1) / (labelsPerRow * labelsPerColumn)
    {
      DocumentBreaks(items, expiry);
      WalkClosedForm(|items|, labelsPerRow, labelsPerColumn);
    }

    /** With no row that fits, every label gets a page of its own after a blank first page. */
    lemma PagesUsedWithoutRows(items: seq<PrintItem>, expiry: Option<string>)
      requires labelsPerRow > 0 && labelsPerColumn <= 0
      ensures Breaks(Document(items, expiry)) == |items|
    {
      DocumentBreaks(items, expiry);
      NoRowFitsOnePerPage(|items|, labelsPerRow, labelsPerColumn);
    }
  }

  /** The ingredient block as the drawing code lays it out: the heading, then one or two wrapped lines. */
  lemma IngredientBlock(x: real, y: real, text: string)
    ensures var block := [Line(IngredientsHeading, 12.0)] + WrappedLines(text);
      && (|text| > WrapWidth ==>
          Flow(x, y, block) == [Text(x, y, IngredientsHeading), Text(x, y - 12.0, text[..WrapWidth]),
                                Text(x, y - 22.0, text[WrapWidth..Min(2 * WrapWidth, |text|)])]
          && Drop(block) == 32.0)
      && (|text| <= WrapWidth ==>
          Flow(x, y, block) == [Text(x, y, IngredientsHeading), Text(x, y - 12.0, text)]
          && Drop(block) == 22.0)
  {
    var block := [Line(IngredientsHeading, 12.0)] + WrappedLines(text);
    var w := WrappedLines(text);
    assert block[1..] == w;
    assert Flow(x, y, block) == [Text(x, y, IngredientsHeading)] + Flow(x, y - 12.0, w);
    assert Drop(block) == 12.0 + Drop(w);
    assert Flow(x, y - 12.0, w) == [Text(x, y - 12.0, w[0].text)] + Flow(x, y - 22.0, w[1..]);
    assert Drop(w) == 10.0 + Drop(w[1..]);
    if |text| > WrapWidth {
      var rest := w[1..];
      assert rest[1..] == [];
      assert Flow(x, y - 22.0, rest) == [Text(x, y - 22.0, rest[0].text)] + Flow(x, y - 32.0, rest[1..]);
      assert Drop(rest) == 10.0 + Drop(rest[1..]);
    } else {
      assert w[1..] == [];
    }
  }

  /** The labels' drawings in order, with a page break before each label whose page differs from its predecessor's. */
  function Paginate(slots: seq<Slot>, labels: seq<seq<Op>>): seq<Op>
    requires |slots| == |labels|
  {
    if labels == [] then []
    else
      var n := |labels| - 1;
      var previousPage := if n == 0 then 0 else slots[n - 1].page;
      Paginate(slots[..n], labels[..n]) + (if slots[n].page != previousPage then [ShowPage] else []) + labels[n]
  }

  lemma PaginateStep(slots: seq<Slot>, labels: seq<seq<Op>>, slot: Slot, drawing: seq<Op>)
    requires |slots| == |labels|
    ensures Paginate(slots + [slot], labels + [drawing])
      == Paginate(slots, labels)
         + (if slot.page != (if slots == [] then 0 else slots[|slots| - 1].page) then [ShowPage] else [])
         + drawing
  {
    assert (slots + [slot])[..|slots|] == slots;
    assert (labels + [drawing])[..|labels|] == labels;
  }

  /**
   * Paginating break-free drawings along the walk yields one page break per
   * page the walk moved on to.
   */
  lemma {:induction false} PaginateBreaks(n: nat, perRow: int, perColumn: int, labels: seq<seq<Op>>)
    requires perRow != 0 && |labels| == n
    requires forall k :: 0 <= k < n ==> Breaks(labels[k]) == 0
    ensures Breaks(Paginate(Walk(n, perRow, perColumn).1, labels)) == Walk(n, perRow, perColumn).0.page
  {
    if n > 0 {
      var m := n - 1;
      var w := Walk(m, perRow, perColumn);
      var next := Place(w.0, perRow, perColumn);
      var slots := Walk(n, perRow, perColumn).1;
      assert slots == w.1 + [next.1];
      assert labels == labels[..m] + [labels[m]];
      PaginateBreaks(m, perRow, perColumn, labels[..m]);
      LastSlotOnCursorPage(m, perRow, perColumn);
      PaginateStep(w.1, labels[..m], next.1, labels[m]);
      var brk := if next.1.page != w.0.page then [ShowPage] else [];
      BreaksAppend(Paginate(w.1, labels[..m]), brk);
      BreaksAppend(Paginate(w.1, labels[..m]) + brk, labels[m]);
    }
  }

  /** The number of page breaks among the canvas calls. */
  function Breaks(ops: seq<Op>): nat
  {
    if ops == [] then 0 else (if ops[0].ShowPage? then 1 else 0) + Breaks(ops[1..])
  }

  lemma {:induction false} BreaksAppend(a: seq<Op>, b: seq<Op>)
    ensures Breaks(a + b) == Breaks(a) + Breaks(b)
    decreases |a|
  {
    if a == [] {
      assert a + b == b;
    } else {
      assert (a + b)[0] == a[0];
      assert (a + b)[1..] == a[1..] + b;
      BreaksAppend(a[1..], b);
    }
  }

  lemma {:induction false} FlowHasNoBreaks(x: real, y: real, lines: seq<Line>)
    ensures Breaks(Flow(x, y, lines)) == 0
    decreases |lines|
  {
    if lines != [] {
      FlowHasNoBreaks(x, y - lines[0].advance, lines[1..]);
    }
  }

  /** Cell i (0-based) of a line of `count` cells of `size` ends within the extent. */
  lemma CellInside(i: int, count: int, size: real, extent: real)
    requires 0 <= i < count && size > 0.0 && FitsAlong(count, size, extent)
    ensures 0.0 <= i as real * size && i as real * size + size <= extent
  {
    var j, c := (i + 1) as real, count as real;
    assert j <= c;
    assert (i as real) * size >= 0.0;
    assert j * size <= c * size;
    assert j * size == i as real * size + size;
  }
}
