/**
 * The grid and cell-transform engine (layout_handler.py): the fixed table
 * from pages-per-sheet to a grid, the cell geometry, the row-major walk over
 * the cells of one sheet and the transform plan that draws one page into one
 * cell. Geometry is over `real`.
 */
module Layout {
  import opened Base
  import opened Pdf
  import opened Painting
  import opened Scaling
  import opened PageSizes

  datatype LayoutInfo = LayoutInfo(rows: nat, cols: nat, name: string)

  /** The counts the grid table has an entry for. */
  predicate InTable(count: int) {
    count == 1 || count == 2 || count == 3 || count == 4 || count == 6 || count == 9 || count == 16
  }

  /**
   * `_get_layout_info`: the fixed grid table. A grid is never taller than
   * wide, a listed count fills every row of its grid, and any other count
   * falls back to the single 1 x 1 grid.
   */
  function GetLayoutInfo(count: int): (l: LayoutInfo)
    ensures 1 <= l.rows <= l.cols
    ensures InTable(count) ==> (l.rows - 1) * l.cols < count <= l.rows * l.cols
    ensures !InTable(count) ==> l == LayoutInfo(1, 1, "single")
  {
    match count
    case 1 => LayoutInfo(1, 1, "single")
    case 2 => LayoutInfo(1, 2, "two_horizontal")
    case 3 => LayoutInfo(2, 2, "three_grid")
    case 4 => LayoutInfo(2, 2, "four_grid")
    case 6 => LayoutInfo(2, 3, "six_grid")
    case 9 => LayoutInfo(3, 3, "nine_grid")
    case 16 => LayoutInfo(4, 4, "sixteen_grid")
    case _ => LayoutInfo(1, 1, "single")
  }

  /** The table, entry by entry; 6 pages are two rows of three, never three rows of two. */
  lemma GridTable()
    ensures GetLayoutInfo(1) == LayoutInfo(1, 1, "single")
    ensures GetLayoutInfo(2) == LayoutInfo(1, 2, "two_horizontal")
    ensures GetLayoutInfo(3) == LayoutInfo(2, 2, "three_grid")
    ensures GetLayoutInfo(4) == LayoutInfo(2, 2, "four_grid")
    ensures GetLayoutInfo(6) == LayoutInfo(2, 3, "six_grid")
    ensures GetLayoutInfo(9) == LayoutInfo(3, 3, "nine_grid")
    ensures GetLayoutInfo(16) == LayoutInfo(4, 4, "sixteen_grid")
    ensures forall n :: !InTable(n) ==> GetLayoutInfo(n) == LayoutInfo(1, 1, "single")
  {
  }

  /** `_calculate_cell_dimensions`: the target split evenly into `cols` columns and `rows` rows. */
  function CellDimensions(targetWidth: real, targetHeight: real, rows: nat, cols: nat): (real, real)
    requires rows >= 1 && cols >= 1
  {
    (targetWidth / cols as real, targetHeight / rows as real)
  }

  /** `cols` cells tile the width and `rows` cells the height, and a non-negative target gives non-negative cells. */
  lemma CellsTileTarget(targetWidth: real, targetHeight: real, rows: nat, cols: nat)
    requires rows >= 1 && cols >= 1
    ensures var d := CellDimensions(targetWidth, targetHeight, rows, cols);
            d.0 * cols as real == targetWidth && d.1 * rows as real == targetHeight &&
            (targetWidth >= 0.0 && targetHeight >= 0.0 ==> d.0 >= 0.0 && d.1 >= 0.0)
  {
  }

  /** `_calculate_cell_position`: the top-left corner of the cell in column `col`, row `row`. */
  function CellPosition(cellWidth: real, cellHeight: real, col: nat, row: nat): (real, real) {
    (col as real * cellWidth, row as real * cellHeight)
  }

  /** What a cell is drawn from: the document, the content zoom and the rotation. */
  datatype Scene = Scene(doc: Option<Document>, scaleFactor: real, rotation: int)

  /**
   * The content scale of a cell, as `_draw_single_page` computes it: each
   * axis's fit ratio times the zoom, and the smaller of the two.
   */
  function CellScale(width: real, height: real, img: Raster, scaleFactor: real): real
    requires !IsNull(img)
  {
    MinReal(AxisScale(width, img.width, scaleFactor), AxisScale(height, img.height, scaleFactor))
  }

  /** One axis of the content scale: the cell's extent over the raster's, times the zoom. */
  function AxisScale(extent: real, pixels: int, scaleFactor: real): real
    requires pixels > 0
  {
    (extent / pixels as real) * scaleFactor
  }

  /** Page `index` has a page and renders to a non-null raster at 96 dpi. */
  predicate PageRenders(doc: Option<Document>, index: int) {
    0 <= index < GetPageCount(doc) && !IsNull(RenderPage(doc, index, 96).value)
  }

  /**
   * What `_draw_single_page` paints for page `index` into the cell at
   * (x, y) of size width x height: nothing at all for an index past the end
   * or a page that does not render, otherwise the centred drawing, which
   * draws exactly that page and leaves the painter's transform as it was.
   */
  function CellCommands(scene: Scene, width: real, height: real, x: real, y: real, index: int): (cmds: seq<Command>)
    ensures cmds == [] <==> !PageRenders(scene.doc, index)
    ensures DrawnPages(cmds) == if PageRenders(scene.doc, index) then [index] else []
    ensures NewPages(cmds) == 0
    ensures forall st :: Replay(st, cmds) == st
  {
    if index >= GetPageCount(scene.doc) then []
    else match RenderPage(scene.doc, index, 96)
      case None => []
      case Some(img) =>
        if IsNull(img) then []
        else CentredDrawing(img, scene.rotation, x + width / 2.0, y + height / 2.0,
                            CellScale(width, height, img, scene.scaleFactor))
  }

  /** A cell holding a page that renders is painted as that page's centred drawing. */
  lemma CellCommandsDraw(scene: Scene, width: real, height: real, x: real, y: real, index: int, img: Raster)
    requires index < GetPageCount(scene.doc) && RenderPage(scene.doc, index, 96) == Some(img) && !IsNull(img)
    ensures CellCommands(scene, width, height, x, y, index)
         == CentredDrawing(img, scene.rotation, x + width / 2.0, y + height / 2.0, CellScale(width, height, img, scene.scaleFactor))
  {
  }

  /**
   * Cell `i` of a sheet whose first page is `start` and which holds `count`
   * pages: filled only when `i < count` and page `start + i` exists.
   */
  function CellAt(scene: Scene, grid: LayoutInfo, targetWidth: real, targetHeight: real,
                  start: int, count: int, i: nat): seq<Command>
    requires grid.rows >= 1 && grid.cols >= 1
  {
    var dims := CellDimensions(targetWidth, targetHeight, grid.rows, grid.cols);
    var origin := CellPosition(dims.0, dims.1, i % grid.cols, i / grid.cols);
    if i < count && start + i < GetPageCount(scene.doc)
    then CellCommands(scene, dims.0, dims.1, origin.0, origin.1, start + i)
    else []
  }

  /** The cells 0 .. n-1 of a sheet, in row-major order. */
  function SheetPrefix(scene: Scene, grid: LayoutInfo, targetWidth: real, targetHeight: real,
                       start: int, count: int, n: nat): seq<Command>
    requires grid.rows >= 1 && grid.cols >= 1
  {
    if n == 0 then []
    else SheetPrefix(scene, grid, targetWidth, targetHeight, start, count, n - 1) +
         CellAt(scene, grid, targetWidth, targetHeight, start, count, n - 1)
  }

  /** A single cell never turns a page and leaves the painter's state as it found it. */
  lemma CellAtBalanced(scene: Scene, grid: LayoutInfo, targetWidth: real, targetHeight: real,
                       start: int, count: int, i: nat)
    requires grid.rows >= 1 && grid.cols >= 1
    ensures var cell := CellAt(scene, grid, targetWidth, targetHeight, start, count, i);
            NewPages(cell) == 0 && forall st :: Replay(st, cell) == st
  {
    var dims := CellDimensions(targetWidth, targetHeight, grid.rows, grid.cols);
    var origin := CellPosition(dims.0, dims.1, i % grid.cols, i / grid.cols);
    if i < count && start + i < GetPageCount(scene.doc) {
      var cmds := CellCommands(scene, dims.0, dims.1, origin.0, origin.1, start + i);
      assert CellAt(scene, grid, targetWidth, targetHeight, start, count, i) == cmds;
    }
  }

  /** Every prefix of a sheet's walk leaves the painter's state as it found it and never turns a page. */
  lemma {:induction false} SheetPrefixBalanced(scene: Scene, grid: LayoutInfo, targetWidth: real, targetHeight: real,
                                               start: int, count: int, n: nat)
    requires grid.rows >= 1 && grid.cols >= 1
    ensures NewPages(SheetPrefix(scene, grid, targetWidth, targetHeight, start, count, n)) == 0
    ensures forall st :: Replay(st, SheetPrefix(scene, grid, targetWidth, targetHeight, start, count, n)) == st
  {
    if n > 0 {
      var before := SheetPrefix(scene, grid, targetWidth, targetHeight, start, count, n - 1);
      var cell := CellAt(scene, grid, targetWidth, targetHeight, start, count, n - 1);
      SheetPrefixBalanced(scene, grid, targetWidth, targetHeight, start, count, n - 1);
      CellAtBalanced(scene, grid, targetWidth, targetHeight, start, count, n - 1);
      NewPagesAppend(before, cell);
      forall st ensures Replay(st, before + cell) == st {
        ReplayAppend(st, before, cell);
      }
    }
  }

  /** A sheet's walk draws its rasters directly, never through a canvas. */
  lemma SheetPrefixFlat(scene: Scene, grid: LayoutInfo, targetWidth: real, targetHeight: real,
                        start: int, count: int, n: nat)
    requires grid.rows >= 1 && grid.cols >= 1
    ensures var cmds := SheetPrefix(scene, grid, targetWidth, targetHeight, start, count, n);
            RasterPages(cmds) == DrawnPages(cmds)
  {
    var cells := SheetCells(scene, grid, targetWidth, targetHeight, start, count, n);
    forall k | 0 <= k < |cells| ensures RasterPages(cells[k]) == DrawnPages(cells[k]) {
      CellFlat(scene, grid, targetWidth, targetHeight, start, count, k);
    }
    ConcatFlat(cells);
  }

  /** The walk's cells one by one: cell `k` of the first `n` is `CellAt(k)`, and together they make the walk. */
  function SheetCells(scene: Scene, grid: LayoutInfo, targetWidth: real, targetHeight: real,
                      start: int, count: int, n: nat): (cells: seq<seq<Command>>)
    requires grid.rows >= 1 && grid.cols >= 1
    ensures |cells| == n
    ensures Concat(cells) == SheetPrefix(scene, grid, targetWidth, targetHeight, start, count, n)
    ensures forall k :: 0 <= k < n ==> cells[k] == CellAt(scene, grid, targetWidth, targetHeight, start, count, k)
  {
    if n == 0 then [] else
    var before := SheetCells(scene, grid, targetWidth, targetHeight, start, count, n - 1);
    var cells := before + [CellAt(scene, grid, targetWidth, targetHeight, start, count, n - 1)];
    assert cells[..n - 1] == before;
    cells
  }

  lemma CellFlat(scene: Scene, grid: LayoutInfo, targetWidth: real, targetHeight: real,
                 start: int, count: int, i: nat)
    requires grid.rows >= 1 && grid.cols >= 1
    ensures var cell := CellAt(scene, grid, targetWidth, targetHeight, start, count, i);
            RasterPages(cell) == DrawnPages(cell)
  {
    var dims := CellDimensions(targetWidth, targetHeight, grid.rows, grid.cols);
    var origin := CellPosition(dims.0, dims.1, i % grid.cols, i / grid.cols);
    var index := start + i;
    if i < count && index < GetPageCount(scene.doc) && PageRenders(scene.doc, index) {
      var img := RenderPage(scene.doc, index, 96).value;
      CellCommandsDraw(scene, dims.0, dims.1, origin.0, origin.1, index, img);
      CentredDrawingFlat(img, scene.rotation, origin.0 + dims.0 / 2.0, origin.1 + dims.1 / 2.0,
                         CellScale(dims.0, dims.1, img, scene.scaleFactor));
    }
  }

  /**
   * One sheet as `draw_adaptive_pages` paints it: the grid comes from the
   * configured pages-per-sheet, never from `count`, and the walk visits all
   * `pagesPerSheet` cells (none for a negative count, as `range` does).
   */
  function SheetCommands(scene: Scene, pagesPerSheet: int, targetWidth: real, targetHeight: real,
                         start: int, count: int): seq<Command>
  {
    SheetPrefix(scene, GetLayoutInfo(pagesPerSheet), targetWidth, targetHeight, start, count,
                if pagesPerSheet < 0 then 0 else pagesPerSheet)
  }

  // ---------------------------------------------------------------------
  // Properties of the grid.

  /** The origin of cell `i` in a target of the given size, as the walk computes it. */
  function CellOrigin(targetWidth: real, targetHeight: real, pagesPerSheet: int, i: nat): (real, real) {
    var grid := GetLayoutInfo(pagesPerSheet);
    var dims := CellDimensions(targetWidth, targetHeight, grid.rows, grid.cols);
    CellPosition(dims.0, dims.1, i % grid.cols, i / grid.cols)
  }

  /**
   * For every count in the table, each cell the walk visits lies inside the
   * target: the table never has more pages than cells.
   */
  lemma CellInsideTarget(targetWidth: real, targetHeight: real, pagesPerSheet: int, i: nat)
    requires InTable(pagesPerSheet) && i < pagesPerSheet
    requires targetWidth >= 0.0 && targetHeight >= 0.0
    ensures var grid := GetLayoutInfo(pagesPerSheet);
            var dims := CellDimensions(targetWidth, targetHeight, grid.rows, grid.cols);
            var origin := CellOrigin(targetWidth, targetHeight, pagesPerSheet, i);
            0.0 <= origin.0 && origin.0 + dims.0 <= targetWidth &&
            0.0 <= origin.1 && origin.1 + dims.1 <= targetHeight
  {
    var grid := GetLayoutInfo(pagesPerSheet);
    var dims := CellDimensions(targetWidth, targetHeight, grid.rows, grid.cols);
    CellsTileTarget(targetWidth, targetHeight, grid.rows, grid.cols);
    RowInGrid(pagesPerSheet, i);
    SlotInside(i % grid.cols, grid.cols, dims.0, targetWidth);
    SlotInside(i / grid.cols, grid.rows, dims.1, targetHeight);
  }

  /** The walk over a listed count never reaches a row below the grid. */
  lemma RowInGrid(pagesPerSheet: int, i: nat)
    requires InTable(pagesPerSheet) && i < pagesPerSheet
    ensures i / GetLayoutInfo(pagesPerSheet).cols < GetLayoutInfo(pagesPerSheet).rows
  {
    if pagesPerSheet == 3 || pagesPerSheet == 4 {
      assert i / 2 < 2;
    } else if pagesPerSheet == 6 {
      assert i / 3 < 2;
    } else if pagesPerSheet == 9 {
      assert i / 3 < 3;
    } else if pagesPerSheet == 16 {
      assert i / 4 < 4;
    }
  }

  /** Slot `k` of `n` equal slots of size `size` that tile `total` lies within `total`. */
  lemma SlotInside(k: nat, n: nat, size: real, total: real)
    requires k < n && size * n as real == total && size >= 0.0
    ensures 0.0 <= k as real * size && k as real * size + size <= total
  {
    MulRightMonotone(0.0, k as real, size);
    MulRightMonotone((k + 1) as real, n as real, size);
  }

  lemma MulRightMonotone(a: real, b: real, c: real)
    requires a <= b && c >= 0.0
    ensures a * c <= b * c
  {
  }

  lemma MulRightAntitone(a: real, b: real, c: real)
    requires a <= b && c <= 0.0
    ensures b * c <= a * c
  {
    MulRightMonotone(a, b, -c);
    assert a * -c == -(a * c) && b * -c == -(b * c);
  }

  /** Different iterations of the walk occupy different cells. */
  lemma CellSlotsDistinct(i: nat, j: nat, cols: nat)
    requires cols >= 1 && i != j
    ensures (i % cols, i / cols) != (j % cols, j / cols)
  {
    assert i == (i / cols) * cols + i % cols;
    assert j == (j / cols) * cols + j % cols;
  }

  /**
   * A count outside the table keeps the 1 x 1 grid but still walks that many
   * cells, so every cell after the first starts below the target.
   */
  lemma FallbackCellsLeaveTarget(targetWidth: real, targetHeight: real, pagesPerSheet: int, i: nat)
    requires !InTable(pagesPerSheet) && 1 <= i < pagesPerSheet && targetHeight > 0.0
    ensures CellOrigin(targetWidth, targetHeight, pagesPerSheet, i) == (0.0, i as real * targetHeight)
    ensures CellOrigin(targetWidth, targetHeight, pagesPerSheet, i).1 >= targetHeight
  {
    var grid := GetLayoutInfo(pagesPerSheet);
    assert grid == LayoutInfo(1, 1, "single");
    assert CellDimensions(targetWidth, targetHeight, 1, 1) == (targetWidth, targetHeight);
    assert i % 1 == 0 && i / 1 == i;
    var origin := CellOrigin(targetWidth, targetHeight, pagesPerSheet, i);
    assert origin == CellPosition(targetWidth, targetHeight, 0, i);
    assert origin.0 == 0 as real * targetWidth == 0.0;
    assert origin.1 == i as real * targetHeight;
    MulRightMonotone(1.0, i as real, targetHeight);
  }

  /** How many cells of a sheet get a page: the first `min(count, pages left)` ones. */
  function Filled(doc: Option<Document>, start: int, count: int): int {
    Max(0, Min(count, GetPageCount(doc) - start))
  }

  /**
   * With every page rendering, a sheet draws exactly the pages
   * `start .. start + min(pagesPerSheet, count, pages left) - 1`, in order.
   */
  lemma SheetDrawsItsPages(scene: Scene, pagesPerSheet: int, targetWidth: real, targetHeight: real,
                           start: int, count: int)
    requires RendersAll(scene.doc) && start >= 0 && pagesPerSheet >= 0
    ensures DrawnPages(SheetCommands(scene, pagesPerSheet, targetWidth, targetHeight, start, count))
         == Range(start, start + Min(pagesPerSheet, Filled(scene.doc, start, count)))
  {
    SheetPrefixPages(scene, GetLayoutInfo(pagesPerSheet), targetWidth, targetHeight, start, count, pagesPerSheet);
  }

  /**
   * The first `n` cells of the walk, where cell `k` draws page `start + k`
   * for the filled cells and nothing after, draw the run of pages
   * `start .. start + min(n, filled) - 1`.
   */
  lemma SheetPrefixPages(scene: Scene, grid: LayoutInfo, targetWidth: real, targetHeight: real,
                         start: int, count: int, n: nat)
    requires grid.rows >= 1 && grid.cols >= 1
    requires RendersAll(scene.doc) && start >= 0
    ensures DrawnPages(SheetPrefix(scene, grid, targetWidth, targetHeight, start, count, n))
         == Range(start, start + Min(n, Filled(scene.doc, start, count)))
  {
    SheetPrefixRun(scene, grid, targetWidth, targetHeight, start, count, n);
    FilledRunIsRange(start, Filled(scene.doc, start, count), n);
  }

  /** The page cell `i` draws when the first `filled` cells each draw the next page. */
  function CellRun(start: int, filled: int, i: int): seq<int> {
    if i < filled then [start + i] else []
  }

  /** The pages the first `n` such cells draw. */
  function FilledRun(start: int, filled: int, n: nat): seq<int> {
    if n == 0 then [] else FilledRun(start, filled, n - 1) + CellRun(start, filled, n - 1)
  }

  lemma {:induction false} FilledRunIsRange(start: int, filled: int, n: nat)
    requires filled >= 0
    ensures FilledRun(start, filled, n) == Range(start, start + Min(n, filled))
  {
    if n == 0 {
      assert Range(start, start) == [];
    } else {
      FilledRunIsRange(start, filled, n - 1);
      if n - 1 < filled {
        assert Range(start, start + n) == Range(start, start + n - 1) + [start + n - 1];
      } else {
        assert FilledRun(start, filled, n) == FilledRun(start, filled, n - 1) + [];
      }
    }
  }

  lemma SheetPrefixRun(scene: Scene, grid: LayoutInfo, targetWidth: real, targetHeight: real,
                       start: int, count: int, n: nat)
    requires grid.rows >= 1 && grid.cols >= 1
    requires RendersAll(scene.doc) && start >= 0
    ensures DrawnPages(SheetPrefix(scene, grid, targetWidth, targetHeight, start, count, n))
         == FilledRun(start, Filled(scene.doc, start, count), n)
  {
    var cells := SheetCells(scene, grid, targetWidth, targetHeight, start, count, n);
    var f := Filled(scene.doc, start, count);
    forall k | 0 <= k < |cells| ensures DrawnPages(cells[k]) == CellRun(start, f, k) {
      CellAtPages(scene, grid, targetWidth, targetHeight, start, count, k);
    }
    CellsPages(cells, start, f);
  }

  /** Cells that each draw their page of the run draw, together, the run. */
  lemma {:induction false} CellsPages(cells: seq<seq<Command>>, start: int, filled: int)
    requires forall k :: 0 <= k < |cells| ==> DrawnPages(cells[k]) == CellRun(start, filled, k)
    ensures DrawnPages(Concat(cells)) == FilledRun(start, filled, |cells|)
    decreases |cells|
  {
    if cells != [] {
      var init := cells[..|cells| - 1];
      CellsPages(init, start, filled);
      DrawnPagesAppend(Concat(init), cells[|cells| - 1]);
    }
  }

  /** Cell `i` draws page `start + i` exactly when it is one of the filled cells. */
  lemma CellAtPages(scene: Scene, grid: LayoutInfo, targetWidth: real, targetHeight: real,
                    start: int, count: int, i: nat)
    requires RendersAll(scene.doc) && start >= 0 && grid.rows >= 1 && grid.cols >= 1
    ensures DrawnPages(CellAt(scene, grid, targetWidth, targetHeight, start, count, i))
         == CellRun(start, Filled(scene.doc, start, count), i)
  {
    if i < count && start + i < GetPageCount(scene.doc) {
      RenderedPagesAreUsable(scene.doc, start + i, 96);
    }
  }

  /** A whole sheet leaves the painter's transform and save stack as it found them and never turns a page. */
  lemma SheetBalanced(scene: Scene, pagesPerSheet: int, targetWidth: real, targetHeight: real,
                      start: int, count: int, st: PaintState)
    ensures Replay(st, SheetCommands(scene, pagesPerSheet, targetWidth, targetHeight, start, count)) == st
    ensures NewPages(SheetCommands(scene, pagesPerSheet, targetWidth, targetHeight, start, count)) == 0
  {
    SheetPrefixBalanced(scene, GetLayoutInfo(pagesPerSheet), targetWidth, targetHeight, start, count,
                        if pagesPerSheet < 0 then 0 else pagesPerSheet);
  }

  // ---------------------------------------------------------------------
  // Properties of the cell transform.

  /**
   * The code multiplies each ratio by the zoom before taking the minimum;
   * for a non-negative zoom that is the minimum fit ratio times the zoom,
   * and for a negative one it is the larger ratio times the zoom.
   */
  lemma CellScaleIsFitTimesZoom(width: real, height: real, img: Raster, scaleFactor: real)
    requires !IsNull(img)
    ensures var fx, fy := width / img.width as real, height / img.height as real;
            CellScale(width, height, img, scaleFactor)
            == (if scaleFactor >= 0.0 then MinReal(fx, fy) else (if fx <= fy then fy else fx)) * scaleFactor
  {
    var fx, fy := width / img.width as real, height / img.height as real;
    assert AxisScale(width, img.width, scaleFactor) == fx * scaleFactor;
    assert AxisScale(height, img.height, scaleFactor) == fy * scaleFactor;
    if scaleFactor >= 0.0 {
      if fx <= fy {
        MulRightMonotone(fx, fy, scaleFactor);
      } else {
        MulRightMonotone(fy, fx, scaleFactor);
      }
    } else {
      if fx <= fy {
        MulRightAntitone(fx, fy, scaleFactor);
      } else {
        MulRightAntitone(fy, fx, scaleFactor);
      }
    }
  }

  /** With a zoom of at most 1 the scaled raster is no wider and no taller than its cell. */
  lemma ScaledRasterFitsCell(width: real, height: real, img: Raster, scaleFactor: real)
    requires !IsNull(img) && width >= 0.0 && height >= 0.0 && 0.0 <= scaleFactor <= 1.0
    ensures var s := CellScale(width, height, img, scaleFactor);
            0.0 <= s && s * img.width as real <= width && s * img.height as real <= height
  {
    var iw, ih := img.width as real, img.height as real;
    var sx, sy := AxisScale(width, img.width, scaleFactor), AxisScale(height, img.height, scaleFactor);
    assert sx * iw == width * scaleFactor;
    assert sy * ih == height * scaleFactor;
    MulRightMonotone(scaleFactor, 1.0, width);
    MulRightMonotone(scaleFactor, 1.0, height);
    MulRightMonotone(0.0, width / iw, scaleFactor);
    MulRightMonotone(0.0, height / ih, scaleFactor);
    var s := MinReal(sx, sy);
    MulRightMonotone(s, sx, iw);
    MulRightMonotone(s, sy, ih);
  }

  /** At zoom 1 the scaled raster spans its cell exactly on one axis. */
  lemma FullZoomTouchesCell(width: real, height: real, img: Raster)
    requires !IsNull(img)
    ensures var s := CellScale(width, height, img, 1.0);
            s * img.width as real == width || s * img.height as real == height
  {
    var iw, ih := img.width as real, img.height as real;
    assert AxisScale(width, img.width, 1.0) * iw == width;
    assert AxisScale(height, img.height, 1.0) * ih == height;
  }

  /** `int(-k / 2)` for a pixel count `k`: within half a pixel right of the exact half. */
  lemma HalfOffset(k: int)
    requires k >= 0
    ensures -(k as real) / 2.0 <= Trunc(-(k as real) / 2.0) as real <= -(k as real) / 2.0 + 0.5
  {
    var n := Trunc(-(k as real) / 2.0);
    assert (2 * n - 2) as real < -(k as real) <= (2 * n) as real;
    assert 2 * n - 1 <= -k;
  }

  /**
   * With the upright or upside-down rotation and a zoom of at most 1, every
   * point of the drawn raster lands inside its cell, up to the half-pixel
   * shift that `int(-w / 2)` introduces for an odd raster size (half a
   * raster pixel, scaled).
   */
  lemma DrawnRasterStaysInCell(img: Raster, degrees: int, x: real, y: real, width: real, height: real,
                               scaleFactor: real, p: Point)
    requires !IsNull(img) && width >= 0.0 && height >= 0.0 && 0.0 <= scaleFactor <= 1.0
    requires degrees == 0 || degrees == 180
    requires Trunc(-(img.width as real) / 2.0) as real <= p.x <= (Trunc(-(img.width as real) / 2.0) + img.width) as real
    requires Trunc(-(img.height as real) / 2.0) as real <= p.y <= (Trunc(-(img.height as real) / 2.0) + img.height) as real
    ensures var s := CellScale(width, height, img, scaleFactor);
            var q := MapPoint([Translate(x + width / 2.0, y + height / 2.0), Rotate(degrees), Scale(s, s)], p);
            x - s / 2.0 <= q.x <= x + width + s / 2.0 && y - s / 2.0 <= q.y <= y + height + s / 2.0
  {
    ScaledRasterFitsCell(width, height, img, scaleFactor);
    CentredRasterWithinBox(img, degrees, x, y, width, height, CellScale(width, height, img, scaleFactor), p);
  }

  /** The same containment for any isotropic scale that fits the raster into the box. */
  lemma CentredRasterWithinBox(img: Raster, degrees: int, x: real, y: real, width: real, height: real, s: real, p: Point)
    requires !IsNull(img) && (degrees == 0 || degrees == 180)
    requires 0.0 <= s && s * img.width as real <= width && s * img.height as real <= height
    requires Trunc(-(img.width as real) / 2.0) as real <= p.x <= (Trunc(-(img.width as real) / 2.0) + img.width) as real
    requires Trunc(-(img.height as real) / 2.0) as real <= p.y <= (Trunc(-(img.height as real) / 2.0) + img.height) as real
    ensures var q := MapPoint([Translate(x + width / 2.0, y + height / 2.0), Rotate(degrees), Scale(s, s)], p);
            x - s / 2.0 <= q.x <= x + width + s / 2.0 && y - s / 2.0 <= q.y <= y + height + s / 2.0
  {
    MapCentredHalfTurn(x + width / 2.0, y + height / 2.0, degrees, s, p);
    RasterWithinBox(img, degrees, x, y, width, height, s, p);
  }

  /** The containment, stated on the offsets from the cell's centre. */
  lemma RasterWithinBox(img: Raster, degrees: int, x: real, y: real, width: real, height: real, s: real, p: Point)
    requires !IsNull(img)
    requires 0.0 <= s && s * img.width as real <= width && s * img.height as real <= height
    requires Trunc(-(img.width as real) / 2.0) as real <= p.x <= (Trunc(-(img.width as real) / 2.0) + img.width) as real
    requires Trunc(-(img.height as real) / 2.0) as real <= p.y <= (Trunc(-(img.height as real) / 2.0) + img.height) as real
    ensures var qx := x + width / 2.0 + (if degrees == 0 then p.x * s else -(p.x * s));
            var qy := y + height / 2.0 + (if degrees == 0 then p.y * s else -(p.y * s));
            x - s / 2.0 <= qx <= x + width + s / 2.0 && y - s / 2.0 <= qy <= y + height + s / 2.0
  {
    AxisWithinCell(x, width, img.width, p.x, s, degrees);
    AxisWithinCell(y, height, img.height, p.y, s, degrees);
  }

  /** One axis of the containment: a raster coordinate, scaled and possibly mirrored, measured from the cell's middle. */
  lemma AxisWithinCell(lo: real, extent: real, pixels: int, d: real, s: real, degrees: int)
    requires pixels > 0 && 0.0 <= s && s * pixels as real <= extent
    requires Trunc(-(pixels as real) / 2.0) as real <= d <= (Trunc(-(pixels as real) / 2.0) + pixels) as real
    ensures var t := lo + extent / 2.0 + (if degrees == 0 then d * s else -(d * s));
            lo - s / 2.0 <= t <= lo + extent + s / 2.0
  {
    HalfOffset(pixels);
    ScaledOffset(d, pixels as real, s, extent);
    OffsetFromCentre(lo, extent, d * s, if degrees == 0 then d * s else -(d * s), s);
  }

  /** A point offset from the middle of [lo, lo + extent], in either direction, by at most half the extent (plus half a scaled pixel on one side). */
  lemma OffsetFromCentre(lo: real, extent: real, u: real, t: real, s: real)
    requires s >= 0.0 && -extent / 2.0 <= u <= extent / 2.0 + s / 2.0 && (t == u || t == -u)
    ensures lo - s / 2.0 <= lo + extent / 2.0 + t <= lo + extent + s / 2.0
  {
  }

  /** An offset within half a raster (plus half a pixel) of the centre, scaled, stays within half the cell (plus half a scaled pixel). */
  lemma ScaledOffset(d: real, extent: real, s: real, cell: real)
    requires -extent / 2.0 <= d <= extent / 2.0 + 0.5 && s >= 0.0 && s * extent <= cell
    ensures -cell / 2.0 <= d * s <= cell / 2.0 + s / 2.0
  {
    MulRightMonotone(-extent / 2.0, d, s);
    MulRightMonotone(d, extent / 2.0 + 0.5, s);
  }

  /**
   * Whatever the quarter turn, the centre of the drawn raster lands within
   * half a scaled pixel of the cell's centre on each axis: the raster is
   * drawn from `(int(-w / 2), int(-h / 2))`, so for an odd side its centre
   * sits half a pixel off the frame's origin.
   */
  lemma RasterCentreNearCellCentre(img: Raster, degrees: int, cx: real, cy: real, s: real)
    requires QuarterTurn(degrees) && !IsNull(img)
    ensures QuarterTurns([Translate(cx, cy), Rotate(degrees), Scale(s, s)])
    ensures var centre := Point(Trunc(-(img.width as real) / 2.0) as real + img.width as real / 2.0,
                                Trunc(-(img.height as real) / 2.0) as real + img.height as real / 2.0);
            var q := MapPoint([Translate(cx, cy), Rotate(degrees), Scale(s, s)], centre);
            var a := if s >= 0.0 then s else -s;
            cx - a / 2.0 <= q.x <= cx + a / 2.0 && cy - a / 2.0 <= q.y <= cy + a / 2.0
  {
    var centre := Point(Trunc(-(img.width as real) / 2.0) as real + img.width as real / 2.0,
                        Trunc(-(img.height as real) / 2.0) as real + img.height as real / 2.0);
    CentreOffset(img.width);
    CentreOffset(img.height);
    NearOriginStaysNearCentre(degrees, cx, cy, s, centre);
  }

  /** A point at most half a pixel from the origin (right and down) is mapped within half a scaled pixel of the centre. */
  lemma NearOriginStaysNearCentre(degrees: int, cx: real, cy: real, s: real, d: Point)
    requires QuarterTurn(degrees) && 0.0 <= d.x <= 0.5 && 0.0 <= d.y <= 0.5
    ensures QuarterTurns([Translate(cx, cy), Rotate(degrees), Scale(s, s)])
    ensures var q := MapPoint([Translate(cx, cy), Rotate(degrees), Scale(s, s)], d);
            var a := if s >= 0.0 then s else -s;
            cx - a / 2.0 <= q.x <= cx + a / 2.0 && cy - a / 2.0 <= q.y <= cy + a / 2.0
  {
    var a := if s >= 0.0 then s else -s;
    var scaled := Point(d.x * s, d.y * s);
    ScaledHalfPixel(d.x, s);
    ScaledHalfPixel(d.y, s);
    TurnKeepsBox(degrees, scaled.x, scaled.y, a / 2.0);
    var turned := ApplyOp(Rotate(degrees), scaled);
    MapThree(cx, cy, degrees, s, d);
    assert MapPoint([Translate(cx, cy), Rotate(degrees), Scale(s, s)], d) == Point(turned.x + cx, turned.y + cy);
  }

  /** The middle of a raster of `k` pixels drawn from `int(-k / 2)` lies at most half a pixel right of the origin. */
  lemma CentreOffset(k: int)
    requires k >= 0
    ensures 0.0 <= Trunc(-(k as real) / 2.0) as real + k as real / 2.0 <= 0.5
  {
    HalfOffset(k);
  }

  /** A quarter turn keeps a point inside the square of half-side `r` around the origin. */
  lemma TurnKeepsBox(degrees: int, u: real, v: real, r: real)
    requires QuarterTurn(degrees) && -r <= u <= r && -r <= v <= r
    ensures var t := ApplyOp(Rotate(degrees), Point(u, v));
            -r <= t.x <= r && -r <= t.y <= r
  {
    var cs := CosSin(degrees);
    assert cs == (1, 0) || cs == (0, 1) || cs == (-1, 0) || cs == (0, -1);
  }

  /** An offset of at most half a pixel, scaled by `s` of either sign, stays within half of `|s|`. */
  lemma ScaledHalfPixel(d: real, s: real)
    requires 0.0 <= d <= 0.5
    ensures var a := if s >= 0.0 then s else -s;
            -a / 2.0 <= d * s <= a / 2.0
  {
    assert 0.5 * s == s / 2.0 && 0.0 * s == 0.0;
    if s >= 0.0 {
      MulRightMonotone(0.0, d, s);
      MulRightMonotone(d, 0.5, s);
      assert 0.0 <= d * s <= s / 2.0;
    } else {
      MulRightAntitone(0.0, d, s);
      MulRightAntitone(d, 0.5, s);
      assert s / 2.0 <= d * s <= 0.0;
    }
  }

  class LayoutHandler {
    /** Stored by the constructor and never used. */
    const pageSizes: PageSizeHandler
    var pagesPerSheet: int
    var adaptiveMode: bool

    constructor (pageSizes: PageSizeHandler)
      ensures this.pageSizes == pageSizes
      ensures pagesPerSheet == 1 && !adaptiveMode
    {
      this.pageSizes := pageSizes;
      pagesPerSheet := 1;
      adaptiveMode := false;
    }

    method SetPagesPerSheet(count: int)
      modifies this
      ensures pagesPerSheet == count && adaptiveMode == old(adaptiveMode)
    {
      pagesPerSheet := count;
    }

    method SetAdaptiveMode(enabled: bool)
      modifies this
      ensures adaptiveMode == enabled && pagesPerSheet == old(pagesPerSheet)
    {
      adaptiveMode := enabled;
    }

    /**
     * `draw_adaptive_pages`: paints the sheet starting at `currentPageIndex`
     * holding `pageCount` pages and leaves the painter's transform and save
     * stack as they were.
     */
    method DrawAdaptivePages(painter: Painter, pdf: PdfHandler, scaling: ScalingHandler,
                             targetWidth: real, targetHeight: real, currentPageIndex: int, pageCount: int)
      modifies painter
      ensures painter.log == old(painter.log) +
                SheetCommands(Scene(pdf.document, scaling.scaleFactor, scaling.rotationAngle),
                              pagesPerSheet, targetWidth, targetHeight, currentPageIndex, pageCount)
      ensures painter.State() == old(painter.State())
    {
      ghost var scene := Scene(pdf.document, scaling.scaleFactor, scaling.rotationAngle);
      var layout := GetLayoutInfo(pagesPerSheet);
      var cells := if pagesPerSheet < 0 then 0 else pagesPerSheet;
      for i := 0 to cells
        invariant painter.log == old(painter.log) +
                    SheetPrefix(scene, layout, targetWidth, targetHeight, currentPageIndex, pageCount, i)
        invariant painter.State() == old(painter.State())
        invariant Scene(pdf.document, scaling.scaleFactor, scaling.rotationAngle) == scene
      {
        DrawCell(painter, pdf, scaling, layout, targetWidth, targetHeight, currentPageIndex, pageCount, i);
        AppendAssociates(old(painter.log),
                         SheetPrefix(scene, layout, targetWidth, targetHeight, currentPageIndex, pageCount, i),
                         CellAt(scene, layout, targetWidth, targetHeight, currentPageIndex, pageCount, i));
      }
    }

    /**
     * One iteration of the loop in `draw_adaptive_pages`: the cell's row,
     * column and origin, then the page drawn into it when the cell is one of
     * the first `pageCount` and its page exists.
     */
    method DrawCell(painter: Painter, pdf: PdfHandler, scaling: ScalingHandler, layout: LayoutInfo,
                    targetWidth: real, targetHeight: real, currentPageIndex: int, pageCount: int, i: nat)
      requires layout.rows >= 1 && layout.cols >= 1
      modifies painter
      ensures painter.log == old(painter.log) +
                CellAt(Scene(pdf.document, scaling.scaleFactor, scaling.rotationAngle),
                       layout, targetWidth, targetHeight, currentPageIndex, pageCount, i)
      ensures painter.State() == old(painter.State())
    {
      var (cellWidth, cellHeight) := CellDimensions(targetWidth, targetHeight, layout.rows, layout.cols);
      var row := i / layout.cols;
      var col := i % layout.cols;
      var (x, y) := CellPosition(cellWidth, cellHeight, col, row);
      if i < pageCount && currentPageIndex + i < GetPageCount(pdf.document) {
        DrawSinglePage(painter, pdf, scaling, cellWidth, cellHeight, x, y, currentPageIndex + i);
      }
    }

    /** `_draw_single_page`: paints one page into one cell. */
    method DrawSinglePage(painter: Painter, pdf: PdfHandler, scaling: ScalingHandler,
                          width: real, height: real, x: real, y: real, pageIndex: int)
      modifies painter
      ensures painter.log == old(painter.log) +
                CellCommands(Scene(pdf.document, scaling.scaleFactor, scaling.rotationAngle),
                             width, height, x, y, pageIndex)
      ensures painter.State() == old(painter.State())
    {
      if pageIndex >= GetPageCount(pdf.document) {
        return;
      }
      var img := RenderPage(pdf.document, pageIndex, 96);
      if img.None? || IsNull(img.value) {
        return;
      }
      var raster := img.value;
      var contentScaleFactor := scaling.scaleFactor;
      var scaleX := AxisScale(width, raster.width, contentScaleFactor);
      var scaleY := AxisScale(height, raster.height, contentScaleFactor);
      var finalContentScale := MinReal(scaleX, scaleY);
      var originX, originY := Trunc(-(raster.width as real) / 2.0), Trunc(-(raster.height as real) / 2.0);
      ghost var log0 := painter.log;
      painter.Save();
      painter.Translate(x + width / 2.0, y + height / 2.0);
      painter.Rotate(scaling.rotationAngle);
      painter.Scale(finalContentScale, finalContentScale);
      painter.DrawPixmap(originX, originY, raster);
      painter.Restore();
      assert painter.log == log0 + [Command.Save, Apply(TransformOp.Translate(x + width / 2.0, y + height / 2.0)),
                                    Apply(TransformOp.Rotate(scaling.rotationAngle)),
                                    Apply(TransformOp.Scale(finalContentScale, finalContentScale)),
                                    Command.DrawPixmap(originX, originY, raster), Command.Restore];
      assert painter.log == log0 + CentredDrawing(raster, scaling.rotationAngle, x + width / 2.0, y + height / 2.0,
                                                  finalContentScale);
      CellCommandsDraw(Scene(pdf.document, scaling.scaleFactor, scaling.rotationAngle), width, height, x, y, pageIndex, raster);
    }
  }
}
