/**
 * The row-major pagination of `LabelPDFGenerator.generate_labels`
 * (app/utils/pdf_generator.py) as integer arithmetic: a running index within
 * the page, a new page when the next index would fall below the last row.
 */
module Pagination {
  import opened Numeric

  /** Where one label goes: page (0 is the first), row from the top, column from the left. */
  datatype Slot = Slot(page: nat, row: int, col: int)

  /** The loop's state between two labels: the running index and the current page. */
  datatype Cursor = Cursor(labelIndex: int, page: nat)

  /**
   * One iteration of the loop: the slot of the next label and the state after
   * it. When the row would pass the last one a new page starts and the label
   * takes its top-left slot.
   */
  function Place(c: Cursor, perRow: int, perColumn: int): (Cursor, Slot)
    requires perRow != 0
  {
    var row := PyDiv(c.labelIndex, perRow);
    var col := PyMod(c.labelIndex, perRow);
    if row >= perColumn then
      (Cursor(1, c.page + 1), Slot(c.page + 1, 0, 0))
    else
      (Cursor(c.labelIndex + 1, c.page), Slot(c.page, row, col))
  }

  /** The loop run over `n` labels: the final state and the slot of each label, in input order. */
  function Walk(n: nat, perRow: int, perColumn: int): (r: (Cursor, seq<Slot>))
    requires perRow != 0
    ensures |r.1| == n
  {
    if n == 0 then
      (Cursor(0, 0), [])
    else
      var prev := Walk(n - 1, perRow, perColumn);
      var next := Place(prev.0, perRow, perColumn);
      (next.0, prev.1 + [next.1])
  }

  /** The closed form: label k sits at index k mod P of page k div P, P labels to a page, filled row by row. */
  function SlotAt(k: nat, perRow: int, perColumn: int): Slot
    requires perRow > 0 && perColumn > 0
  {
    var perPage := perRow * perColumn;
    Slot(k / perPage, (k % perPage) / perRow, (k % perPage) % perRow)
  }

  lemma DivModUnique(m: int, d: int, q: int, r: int)
    requires d > 0 && 0 <= r < d && m == d * q + r
    ensures m / d == q && m % d == r
  {
    var q', r' := m / d, m % d;
    assert d * (q - q') == r' - r;
    if q > q' {
      MulAtLeast(d, q - q');
    } else if q < q' {
      MulAtLeast(d, q' - q);
    }
  }

  lemma MulAtLeast(d: int, a: int)
    requires d > 0 && a >= 1
    ensures d * a >= d
  {
    assert d * a == d * (a - 1) + d;
  }

  /** Moving on by one label either stays on the page (index + 1) or starts the next page at index 0. */
  lemma DivModStep(m: nat, d: int)
    requires m >= 1 && d > 0
    ensures (m - 1) % d == d - 1 ==> m % d == 0 && m / d == (m - 1) / d + 1
    ensures (m - 1) % d != d - 1 ==> m % d == (m - 1) % d + 1 && m / d == (m - 1) / d
  {
    var q, r := (m - 1) / d, (m - 1) % d;
    assert m - 1 == d * q + r;
    if r == d - 1 {
      DivModUnique(m, d, q + 1, 0);
    } else {
      DivModUnique(m, d, q, r + 1);
    }
  }

  /** With a positive row length, the row of an index passes the last row exactly when the index reaches a full page. */
  lemma RowPastLast(index: int, perRow: int, perColumn: int)
    requires 0 <= index && perRow > 0 && perColumn > 0
    ensures index / perRow >= perColumn <==> index >= perRow * perColumn
  {
    var q := index / perRow;
    assert index == perRow * q + index % perRow;
    if q >= perColumn {
      assert perRow * q >= perRow * perColumn;
    } else {
      assert perRow * q <= perRow * (perColumn - 1);
    }
  }

  /** The cursor after m labels, as the closed form predicts it. */
  function ClosedCursor(m: nat, perRow: int, perColumn: int): Cursor
    requires perRow > 0 && perColumn > 0
  {
    var perPage := perRow * perColumn;
    if m == 0 then Cursor(0, 0) else Cursor((m - 1) % perPage + 1, (m - 1) / perPage)
  }

  /** From the closed-form cursor after m labels, one iteration places label m at its closed-form slot. */
  lemma PlaceFromClosedForm(m: nat, perRow: int, perColumn: int)
    requires perRow > 0 && perColumn > 0
    ensures Place(ClosedCursor(m, perRow, perColumn), perRow, perColumn)
      == (ClosedCursor(m + 1, perRow, perColumn), SlotAt(m, perRow, perColumn))
  {
    var perPage := perRow * perColumn;
    if m == 0 {
      PlaceFirst(perRow, perColumn);
    } else if (m - 1) % perPage == perPage - 1 {
      PlaceAtPageEnd(m, perRow, perColumn);
    } else {
      PlaceWithinPage(m, perRow, perColumn);
    }
  }

  /** The first label goes to the top-left cell of page 0. */
  lemma PlaceFirst(perRow: int, perColumn: int)
    requires perRow > 0 && perColumn > 0
    ensures Place(ClosedCursor(0, perRow, perColumn), perRow, perColumn)
      == (ClosedCursor(1, perRow, perColumn), SlotAt(0, perRow, perColumn))
  {
    PyDivModPositive(0, perRow);
    var perPage := perRow * perColumn;
    assert 0 / perPage == 0 && 0 % perPage == 0;
  }

  /** The last cell of a page is filled: the next label opens a new page at its top-left cell. */
  lemma PlaceAtPageEnd(m: nat, perRow: int, perColumn: int)
    requires perRow > 0 && perColumn > 0 && m >= 1
    requires (m - 1) % (perRow * perColumn) == perRow * perColumn - 1
    ensures Place(ClosedCursor(m, perRow, perColumn), perRow, perColumn)
      == (ClosedCursor(m + 1, perRow, perColumn), SlotAt(m, perRow, perColumn))
  {
    var perPage := perRow * perColumn;
    var c := ClosedCursor(m, perRow, perColumn);
    assert c.labelIndex == perPage;
    DivModStep(m, perPage);
    RowPastLast(c.labelIndex, perRow, perColumn);
    PyDivModPositive(c.labelIndex, perRow);
  }

  /** Within a page the next label takes the next cell in row-major order. */
  lemma PlaceWithinPage(m: nat, perRow: int, perColumn: int)
    requires perRow > 0 && perColumn > 0 && m >= 1
    requires (m - 1) % (perRow * perColumn) != perRow * perColumn - 1
    ensures Place(ClosedCursor(m, perRow, perColumn), perRow, perColumn)
      == (ClosedCursor(m + 1, perRow, perColumn), SlotAt(m, perRow, perColumn))
  {
    var perPage := perRow * perColumn;
    var c := ClosedCursor(m, perRow, perColumn);
    DivModStep(m, perPage);
    assert c.labelIndex == m % perPage;
    RowPastLast(c.labelIndex, perRow, perColumn);
    PyDivModPositive(c.labelIndex, perRow);
  }

  /**
   * For a grid with at least one row and one column, the loop places every
   * label at its closed-form slot, and its running index after n > 0 labels is
   * (n - 1) mod P + 1: always within 1..P, reset only when a page is full.
   */
  lemma {:induction false} WalkClosedForm(n: nat, perRow: int, perColumn: int)
    requires perRow > 0 && perColumn > 0
    ensures var perPage := perRow * perColumn;
      Walk(n, perRow, perColumn).0 ==
        if n == 0 then Cursor(0, 0) else Cursor((n - 1) % perPage + 1, (n - 1) / perPage)
    ensures forall k :: 0 <= k < n ==> Walk(n, perRow, perColumn).1[k] == SlotAt(k, perRow, perColumn)
  {
    if n > 0 {
      WalkClosedForm(n - 1, perRow, perColumn);
      PlaceFromClosedForm(n - 1, perRow, perColumn);
      var prev := Walk(n - 1, perRow, perColumn);
      assert Walk(n, perRow, perColumn).1 == prev.1 + [SlotAt(n - 1, perRow, perColumn)];
    }
  }

  /** Every placed label lies inside the grid: its index within the page is below P. */
  lemma SlotInsideGrid(k: nat, perRow: int, perColumn: int)
    requires perRow > 0 && perColumn > 0
    ensures var s := SlotAt(k, perRow, perColumn);
      0 <= s.row < perColumn && 0 <= s.col < perRow
  {
    var perPage := perRow * perColumn;
    RowPastLast(k % perPage, perRow, perColumn);
  }

  /**
   * A new page is started exactly before labels 0 < k with k mod P = 0; the
   * first label is on page 0.
   */
  lemma NewPageExactlyWhenFull(k: nat, perRow: int, perColumn: int)
    requires perRow > 0 && perColumn > 0 && k >= 1
    ensures var perPage := perRow * perColumn;
      && SlotAt(0, perRow, perColumn).page == 0
      && (SlotAt(k, perRow, perColumn).page == SlotAt(k - 1, perRow, perColumn).page + 1 <==> k % perPage == 0)
      && (k % perPage != 0 ==> SlotAt(k, perRow, perColumn).page == SlotAt(k - 1, perRow, perColumn).page)
  {
    DivModStep(k, perRow * perColumn);
  }

  /** Two different labels never share a cell of the same page. */
  lemma SlotsDistinct(j: nat, k: nat, perRow: int, perColumn: int)
    requires perRow > 0 && perColumn > 0 && j != k
    ensures SlotAt(j, perRow, perColumn) != SlotAt(k, perRow, perColumn)
  {
    var perPage := perRow * perColumn;
    var a, b := SlotAt(j, perRow, perColumn), SlotAt(k, perRow, perColumn);
  }

  lemma PlaceWithoutRows(c: Cursor, perRow: int, perColumn: int)
    requires c.labelIndex >= 0 && perRow > 0 && perColumn <= 0
    ensures Place(c, perRow, perColumn) == (Cursor(1, c.page + 1), Slot(c.page + 1, 0, 0))
  {
    PyDivModPositive(c.labelIndex, perRow);
  }

  /**
   * With a row length of at least one but no row that fits (perColumn <= 0),
   * every label, the first included, starts a new page: label k lands alone on
   * page k + 1 and page 0 stays blank.
   */
  lemma {:induction false} NoRowFitsOnePerPage(n: nat, perRow: int, perColumn: int)
    requires perRow > 0 && perColumn <= 0
    ensures Walk(n, perRow, perColumn).0 == Cursor(if n == 0 then 0 else 1, n)
    ensures forall k :: 0 <= k < n ==> Walk(n, perRow, perColumn).1[k] == Slot(k + 1, 0, 0)
  {
    if n > 0 {
      NoRowFitsOnePerPage(n - 1, perRow, perColumn);
      var prev := Walk(n - 1, perRow, perColumn);
      PlaceWithoutRows(prev.0, perRow, perColumn);
      var slots := prev.1 + [Slot(n, 0, 0)];
      assert Walk(n, perRow, perColumn) == (Cursor(1, n), slots);
      forall k | 0 <= k < n
        ensures slots[k] == Slot(k + 1, 0, 0)
      {
        if k < n - 1 {
          assert slots[k] == prev.1[k];
        }
      }
    }
  }

  /** The closed form on a two-by-six sheet: the first twelve labels fill page 0, the next start page 1. */
  lemma TwoBySixSlots()
    ensures forall k :: 0 <= k < 12 ==> SlotAt(k, 2, 6).page == 0
    ensures SlotAt(11, 2, 6) == Slot(0, 5, 1)
    ensures SlotAt(12, 2, 6) == Slot(1, 0, 0)
    ensures SlotAt(13, 2, 6) == Slot(1, 0, 1)
  {
    forall k | 0 <= k < 12
      ensures SlotAt(k, 2, 6).page == 0
    {
      DivModUnique(k, 12, 0, k);
    }
  }

  /** The fourteen-label example: 2 x 6 labels to a page put labels 0-11 on page 0 and 12, 13 on page 1, row 0. */
  lemma FourteenLabelsExample()
    ensures var slots := Walk(14, 2, 6).1;
      && (forall k :: 0 <= k < 12 ==> slots[k].page == 0)
      && slots[11] == Slot(0, 5, 1)
      && slots[12] == Slot(1, 0, 0)
      && slots[13] == Slot(1, 0, 1)
  {
    WalkClosedForm(14, 2, 6);
    TwoBySixSlots();
  }

  /** After n > 0 steps the walk's cursor is on the page of the last label placed. */
  lemma LastSlotOnCursorPage(n: nat, perRow: int, perColumn: int)
    requires perRow != 0
    ensures n > 0 ==> Walk(n, perRow, perColumn).1[n - 1].page == Walk(n, perRow, perColumn).0.page
  {
  }

  /** One step of the walk places one more slot, and before it the walk's cursor is on the page of the last slot. */
  lemma WalkStep(n: nat, perRow: int, perColumn: int)
    requires perRow != 0
    ensures var w := Walk(n, perRow, perColumn);
      var next := Place(w.0, perRow, perColumn);
      && Walk(n + 1, perRow, perColumn) == (next.0, w.1 + [next.1])
      && (if w.1 == [] then 0 else w.1[|w.1| - 1].page) == w.0.page
  {
    LastSlotOnCursorPage(n, perRow, perColumn);
  }
}
