/**
 * The sheet sequencer (layout_drawer.py): how many sheets a document needs
 * at a given number of pages per sheet, which pages each sheet is given,
 * and the page breaks between sheets. The same sequence is walked by the
 * print preview and the print loop of the application window.
 */
module LayoutDrawing {
  import opened Base
  import opened Pdf
  import opened Painting
  import opened Scaling
  import opened PageSizes
  import opened Layout

  /** `(total + pagesPerSheet - 1) // pagesPerSheet`: how many sheets the sequencer walks. */
  function SheetCount(total: int, pagesPerSheet: int): int
    requires pagesPerSheet != 0
  {
    FloorDiv(total + pagesPerSheet - 1, pagesPerSheet)
  }

  /**
   * For a positive count per sheet the sheet count is the ceiling of
   * `total / pagesPerSheet`: the fewest sheets that hold every page, so no
   * pages means no sheet.
   */
  lemma SheetCountIsCeiling(total: int, pagesPerSheet: int)
    requires total >= 0 && pagesPerSheet > 0
    ensures var n := SheetCount(total, pagesPerSheet);
            n >= 0 && (n - 1) * pagesPerSheet < total <= n * pagesPerSheet
    ensures total == 0 ==> SheetCount(total, pagesPerSheet) == 0
  {
    var n := SheetCount(total, pagesPerSheet);
    assert (n - 1) * pagesPerSheet == n * pagesPerSheet - pagesPerSheet;
    NonNegativeFactor(n, pagesPerSheet);
    if total == 0 {
      NonNegativeFactor(-n, pagesPerSheet);
    }
  }

  lemma NonNegativeFactor(n: int, p: int)
    requires p > 0 && n * p > -p
    ensures n >= 0
  {
    if n < 0 {
      MulRightMonotoneInt(n, -1, p);
    }
  }

  /** The first page of sheet `k`. */
  function SheetStart(k: nat, pagesPerSheet: int): int {
    k * pagesPerSheet
  }

  /** `min(pagesPerSheet, total - start)`: how many pages sheet `k` is given. */
  function SheetSize(total: int, k: nat, pagesPerSheet: int): int {
    Min(pagesPerSheet, total - SheetStart(k, pagesPerSheet))
  }

  /**
   * Sheet `k` as the sequencer paints it: a page break first when it is not
   * the first sheet and the device takes page breaks, then the sheet's cells.
   */
  function SheetPlan(scene: Scene, pagesPerSheet: int, targetWidth: real, targetHeight: real,
                     newPage: bool, k: nat): seq<Command>
  {
    (if k > 0 && newPage then [NewPage] else []) +
    SheetCommands(scene, pagesPerSheet, targetWidth, targetHeight, SheetStart(k, pagesPerSheet),
                  SheetSize(GetPageCount(scene.doc), k, pagesPerSheet))
  }

  /** Sheets 0 .. n-1, in order. */
  function SheetsPrefix(scene: Scene, pagesPerSheet: int, targetWidth: real, targetHeight: real,
                        newPage: bool, n: nat): seq<Command>
  {
    if n == 0 then []
    else SheetsPrefix(scene, pagesPerSheet, targetWidth, targetHeight, newPage, n - 1) +
         SheetPlan(scene, pagesPerSheet, targetWidth, targetHeight, newPage, n - 1)
  }

  /**
   * What `draw_layout` paints: every sheet, or nothing at all when the count
   * per sheet is zero (the division raises and the handler swallows it).
   */
  function LayoutCommands(scene: Scene, pagesPerSheet: int, targetWidth: real, targetHeight: real,
                          onPrinter: bool): seq<Command>
  {
    if pagesPerSheet == 0 then []
    else
      var sheets := SheetCount(GetPageCount(scene.doc), pagesPerSheet);
      if sheets <= 0 then [] else SheetsPrefix(scene, pagesPerSheet, targetWidth, targetHeight, onPrinter, sheets)
  }

  // ---------------------------------------------------------------------
  // Properties of the sequence.

  /**
   * Each sheet before the last is full and the last holds the rest: sheet
   * `k` draws exactly the pages from its own start up to the next sheet's
   * start, both cut off at the end of the document.
   */
  lemma SheetPages(scene: Scene, pagesPerSheet: int, targetWidth: real, targetHeight: real, k: nat)
    requires RendersAll(scene.doc) && pagesPerSheet >= 1
    ensures var total := GetPageCount(scene.doc);
            DrawnPages(SheetCommands(scene, pagesPerSheet, targetWidth, targetHeight, SheetStart(k, pagesPerSheet),
                                     SheetSize(total, k, pagesPerSheet)))
            == Range(Min(SheetStart(k, pagesPerSheet), total), Min(SheetStart(k + 1, pagesPerSheet), total))
    ensures var total := GetPageCount(scene.doc);
            0 <= Min(SheetStart(k, pagesPerSheet), total) <= Min(SheetStart(k + 1, pagesPerSheet), total)
  {
    var total := GetPageCount(scene.doc);
    var start := SheetStart(k, pagesPerSheet);
    NextSheetStart(k, pagesPerSheet);
    SheetDrawsItsPages(scene, pagesPerSheet, targetWidth, targetHeight, start, SheetSize(total, k, pagesPerSheet));
    SheetWindow(start, pagesPerSheet, total);
  }

  lemma NextSheetStart(k: nat, pagesPerSheet: int)
    requires pagesPerSheet >= 1
    ensures 0 <= SheetStart(k, pagesPerSheet)
    ensures SheetStart(k + 1, pagesPerSheet) == SheetStart(k, pagesPerSheet) + pagesPerSheet
  {
  }

  /** The pages a sheet starting at `start` fills, cut off at `total`, as a window of the document. */
  lemma SheetWindow(start: int, pagesPerSheet: int, total: nat)
    requires start >= 0 && pagesPerSheet >= 1
    ensures var filled := Max(0, Min(Min(pagesPerSheet, total - start), total - start));
            Range(start, start + Min(pagesPerSheet, filled)) == Range(Min(start, total), Min(start + pagesPerSheet, total))
    ensures 0 <= Min(start, total) <= Min(start + pagesPerSheet, total)
  {
    var filled := Max(0, Min(Min(pagesPerSheet, total - start), total - start));
    if total <= start {
      assert Range(start, start) == [] && Range(total, total) == [];
    } else {
      assert start + Min(pagesPerSheet, filled) == Min(start + pagesPerSheet, total);
    }
  }

  /** Sheets 0 .. n-1 draw the pages before the start of sheet `n`, cut off at the end of the document. */
  lemma {:induction false} SheetsPrefixPages(scene: Scene, pagesPerSheet: int, targetWidth: real, targetHeight: real,
                                             newPage: bool, n: nat)
    requires RendersAll(scene.doc) && pagesPerSheet >= 1
    ensures DrawnPages(SheetsPrefix(scene, pagesPerSheet, targetWidth, targetHeight, newPage, n))
         == Range(0, Min(SheetStart(n, pagesPerSheet), GetPageCount(scene.doc)))
  {
    var total := GetPageCount(scene.doc);
    if n == 0 {
      assert SheetStart(0, pagesPerSheet) == 0;
      assert Range(0, 0) == [];
    } else {
      var m: nat := n - 1;
      var before := SheetsPrefix(scene, pagesPerSheet, targetWidth, targetHeight, newPage, m);
      var plan := SheetPlan(scene, pagesPerSheet, targetWidth, targetHeight, newPage, m);
      assert SheetsPrefix(scene, pagesPerSheet, targetWidth, targetHeight, newPage, n) == before + plan;
      SheetsPrefixPages(scene, pagesPerSheet, targetWidth, targetHeight, newPage, m);
      SheetPages(scene, pagesPerSheet, targetWidth, targetHeight, m);
      BreakDrawsNothing(scene, pagesPerSheet, targetWidth, targetHeight, newPage, m);
      DrawnPagesAppend(before, plan);
      RangeAppend(0, Min(SheetStart(m, pagesPerSheet), total), Min(SheetStart(n, pagesPerSheet), total));
    }
  }

  /** Sheets 0 .. n-1 leave the painter's state as they found it and break the page before each sheet but the first. */
  lemma {:induction false} SheetsPrefixBalanced(scene: Scene, pagesPerSheet: int, targetWidth: real, targetHeight: real,
                                                newPage: bool, n: nat)
    ensures NewPages(SheetsPrefix(scene, pagesPerSheet, targetWidth, targetHeight, newPage, n))
         == if newPage && n > 0 then n - 1 else 0
    ensures forall st :: Replay(st, SheetsPrefix(scene, pagesPerSheet, targetWidth, targetHeight, newPage, n)) == st
  {
    if n > 0 {
      var k := n - 1;
      var before := SheetsPrefix(scene, pagesPerSheet, targetWidth, targetHeight, newPage, k);
      var total := GetPageCount(scene.doc);
      var brk: seq<Command> := if k > 0 && newPage then [NewPage] else [];
      var cells := SheetCommands(scene, pagesPerSheet, targetWidth, targetHeight, SheetStart(k, pagesPerSheet),
                                 SheetSize(total, k, pagesPerSheet));
      var plan := SheetPlan(scene, pagesPerSheet, targetWidth, targetHeight, newPage, k);
      assert plan == brk + cells;
      SheetsPrefixBalanced(scene, pagesPerSheet, targetWidth, targetHeight, newPage, k);
      assert NewPages(brk) == (if k > 0 && newPage then 1 else 0) by {
        if k > 0 && newPage {
          assert brk[1..] == [];
        }
      }
      assert forall st :: Replay(st, brk) == st by {
        if k > 0 && newPage {
          assert brk[1..] == [];
        }
      }
      assert SheetsPrefix(scene, pagesPerSheet, targetWidth, targetHeight, newPage, n) == before + plan;
      SheetBalanced(scene, pagesPerSheet, targetWidth, targetHeight, SheetStart(k, pagesPerSheet),
                    SheetSize(total, k, pagesPerSheet), PaintState([], []));
      NewPagesAppend(brk, cells);
      NewPagesAppend(before, plan);
      assert NewPages(before) == if newPage && k > 0 then k - 1 else 0;
      forall st ensures Replay(st, before + plan) == st {
        SheetBalanced(scene, pagesPerSheet, targetWidth, targetHeight, SheetStart(k, pagesPerSheet),
                      SheetSize(total, k, pagesPerSheet), st);
        ReplayAppend(st, brk, cells);
        ReplayAppend(st, before, plan);
      }
    }
  }

  /**
   * With at least one page per sheet and every page rendering, the
   * sequencer draws every page of the document exactly once, in order.
   */
  lemma LayoutDrawsEveryPage(scene: Scene, pagesPerSheet: int, targetWidth: real, targetHeight: real, onPrinter: bool)
    requires RendersAll(scene.doc) && pagesPerSheet >= 1
    ensures DrawnPages(LayoutCommands(scene, pagesPerSheet, targetWidth, targetHeight, onPrinter))
         == Range(0, GetPageCount(scene.doc))
  {
    var total := GetPageCount(scene.doc);
    var sheets := SheetCount(total, pagesPerSheet);
    SheetCountIsCeiling(total, pagesPerSheet);
    if sheets > 0 {
      SheetsPrefixPages(scene, pagesPerSheet, targetWidth, targetHeight, onPrinter, sheets);
      assert SheetStart(sheets, pagesPerSheet) >= total;
    } else {
      assert total == 0 && Range(0, 0) == [];
    }
  }

  lemma MulRightMonotoneInt(a: int, b: int, c: int)
    requires a <= b && c >= 0
    ensures a * c <= b * c
  {
  }

  /** The page break in front of a sheet draws no page. */
  lemma BreakDrawsNothing(scene: Scene, pagesPerSheet: int, targetWidth: real, targetHeight: real, newPage: bool, k: nat)
    ensures DrawnPages(SheetPlan(scene, pagesPerSheet, targetWidth, targetHeight, newPage, k))
         == DrawnPages(SheetCommands(scene, pagesPerSheet, targetWidth, targetHeight, SheetStart(k, pagesPerSheet),
                                     SheetSize(GetPageCount(scene.doc), k, pagesPerSheet)))
  {
    var brk: seq<Command> := if k > 0 && newPage then [NewPage] else [];
    var cells := SheetCommands(scene, pagesPerSheet, targetWidth, targetHeight, SheetStart(k, pagesPerSheet),
                               SheetSize(GetPageCount(scene.doc), k, pagesPerSheet));
    DrawnPagesAppend(brk, cells);
    if k > 0 && newPage {
      assert brk[1..] == [];
      assert DrawnPages(brk) == [];
    }
  }

  /**
   * On a printer the sequencer breaks the page once between consecutive
   * sheets and never before the first; on any other device it never does.
   * Either way it leaves the painter's transform and save stack as it found
   * them.
   */
  lemma LayoutPageBreaks(scene: Scene, pagesPerSheet: int, targetWidth: real, targetHeight: real, onPrinter: bool)
    requires pagesPerSheet >= 1
    ensures NewPages(LayoutCommands(scene, pagesPerSheet, targetWidth, targetHeight, onPrinter))
         == if onPrinter && GetPageCount(scene.doc) > 0 then SheetCount(GetPageCount(scene.doc), pagesPerSheet) - 1 else 0
    ensures forall st :: Replay(st, LayoutCommands(scene, pagesPerSheet, targetWidth, targetHeight, onPrinter)) == st
  {
    var total := GetPageCount(scene.doc);
    var sheets := SheetCount(total, pagesPerSheet);
    SheetCountIsCeiling(total, pagesPerSheet);
    if sheets > 0 {
      SheetsPrefixBalanced(scene, pagesPerSheet, targetWidth, targetHeight, onPrinter, sheets);
    }
  }

  class LayoutDrawer {
    constructor ()
    {
    }

    /**
     * `draw_layout`: paints every sheet of the document with the grid
     * handler, breaking the page between sheets when the painter draws on a
     * printer. A zero count per sheet raises inside the guarded block, so
     * nothing is painted.
     */
    method DrawLayout(painter: Painter, pdf: PdfHandler, layout: LayoutHandler, scaling: ScalingHandler,
                      pageSizes: PageSizeHandler, targetWidth: real, targetHeight: real)
      modifies painter
      ensures painter.log == old(painter.log) +
                LayoutCommands(Scene(pdf.document, scaling.scaleFactor, scaling.rotationAngle),
                               layout.pagesPerSheet, targetWidth, targetHeight, painter.onPrinter)
      ensures painter.State() == old(painter.State())
    {
      ghost var scene := Scene(pdf.document, scaling.scaleFactor, scaling.rotationAngle);
      var totalPages := GetPageCount(pdf.document);
      if layout.pagesPerSheet == 0 {
        return;
      }
      var totalLayoutPages := FloorDiv(totalPages + layout.pagesPerSheet - 1, layout.pagesPerSheet);
      if totalLayoutPages <= 0 {
        return;
      }
      for layoutPageIndex := 0 to totalLayoutPages
        invariant painter.log == old(painter.log) +
                    SheetsPrefix(scene, layout.pagesPerSheet, targetWidth, targetHeight, painter.onPrinter, layoutPageIndex)
        invariant painter.State() == old(painter.State())
        invariant Scene(pdf.document, scaling.scaleFactor, scaling.rotationAngle) == scene
      {
        DrawSheet(painter, pdf, layout, scaling, targetWidth, targetHeight, totalPages, layoutPageIndex);
        AppendAssociates(old(painter.log),
                         SheetsPrefix(scene, layout.pagesPerSheet, targetWidth, targetHeight, painter.onPrinter, layoutPageIndex),
                         SheetPlan(scene, layout.pagesPerSheet, targetWidth, targetHeight, painter.onPrinter, layoutPageIndex));
      }
    }

    /**
     * One iteration of the loop in `draw_layout`: the page break, the
     * sheet's first page and page count, and the sheet itself.
     */
    method DrawSheet(painter: Painter, pdf: PdfHandler, layout: LayoutHandler, scaling: ScalingHandler,
                     targetWidth: real, targetHeight: real, totalPages: int, layoutPageIndex: nat)
      requires totalPages == GetPageCount(pdf.document)
      modifies painter
      ensures painter.log == old(painter.log) +
                SheetPlan(Scene(pdf.document, scaling.scaleFactor, scaling.rotationAngle),
                          layout.pagesPerSheet, targetWidth, targetHeight, painter.onPrinter, layoutPageIndex)
      ensures painter.State() == old(painter.State())
    {
      ghost var log0 := painter.log;
      if layoutPageIndex > 0 && painter.onPrinter {
        painter.NewPage();
      }
      ghost var log1 := painter.log;
      var startPdfPage := layoutPageIndex * layout.pagesPerSheet;
      var remainingPages := totalPages - startPdfPage;
      var pageCount := Min(layout.pagesPerSheet, remainingPages);
      layout.DrawAdaptivePages(painter, pdf, scaling, targetWidth, targetHeight, startPdfPage, pageCount);
      ghost var brk: seq<Command> := if layoutPageIndex > 0 && painter.onPrinter then [NewPage] else [];
      AppendAssociates(log0, brk,
                       SheetCommands(Scene(pdf.document, scaling.scaleFactor, scaling.rotationAngle),
                                     layout.pagesPerSheet, targetWidth, targetHeight, startPdfPage, pageCount));
    }
  }
}
