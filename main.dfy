/**
 * The application window (main.py): the handlers behind the window's
 * controls, the page indicator, slider and navigation buttons they keep up
 * to date, and the two printing loops (preview and direct print) that walk
 * the document sheet by sheet.
 */
module App {
  import opened Base
  import opened Pdf
  import opened Painting
  import opened Scaling
  import opened PageSizes
  import opened Printing
  import opened Layout
  import opened LayoutDrawing
  import opened Display
  import opened Refresh
  import opened Navigation

  /**
   * Sheet `k` as `_print_pages` sends it to the printer: a page break in
   * front of every sheet but the first, then one pixmap the size of the
   * printer's page rectangle with the sheet's cells painted into it.
   */
  function PrintedSheet(scene: Scene, pagesPerSheet: int, pageWidth: int, pageHeight: int,
                        targetWidth: real, targetHeight: real, k: nat): seq<Command>
  {
    (if k > 0 then [NewPage] else []) +
    [DrawCanvas(0, 0, Canvas(pageWidth, pageHeight,
                             SheetCommands(scene, pagesPerSheet, targetWidth, targetHeight, SheetStart(k, pagesPerSheet),
                                           SheetSize(GetPageCount(scene.doc), k, pagesPerSheet))))]
  }

  /** Sheets 0 .. n-1 as `_print_pages` sends them, in order. */
  function PrintedSheets(scene: Scene, pagesPerSheet: int, pageWidth: int, pageHeight: int,
                         targetWidth: real, targetHeight: real, n: nat): seq<Command>
  {
    if n == 0 then []
    else PrintedSheets(scene, pagesPerSheet, pageWidth, pageHeight, targetWidth, targetHeight, n - 1) +
         PrintedSheet(scene, pagesPerSheet, pageWidth, pageHeight, targetWidth, targetHeight, n - 1)
  }

  /** A printed sheet shows exactly the pages of the sheet the sequencer would draw, and breaks the page before it unless it is the first. */
  lemma PrintedSheetPages(scene: Scene, pagesPerSheet: int, pageWidth: int, pageHeight: int,
                          targetWidth: real, targetHeight: real, k: nat)
    requires RendersAll(scene.doc) && pagesPerSheet >= 1
    ensures var total := GetPageCount(scene.doc);
            DrawnPages(PrintedSheet(scene, pagesPerSheet, pageWidth, pageHeight, targetWidth, targetHeight, k))
            == Range(Min(SheetStart(k, pagesPerSheet), total), Min(SheetStart(k + 1, pagesPerSheet), total))
    ensures NewPages(PrintedSheet(scene, pagesPerSheet, pageWidth, pageHeight, targetWidth, targetHeight, k))
            == if k > 0 then 1 else 0
    ensures forall st :: Replay(st, PrintedSheet(scene, pagesPerSheet, pageWidth, pageHeight, targetWidth, targetHeight, k)) == st
  {
    var total := GetPageCount(scene.doc);
    var start := SheetStart(k, pagesPerSheet);
    var size := SheetSize(total, k, pagesPerSheet);
    var cells := SheetCommands(scene, pagesPerSheet, targetWidth, targetHeight, start, size);
    var brk: seq<Command> := if k > 0 then [NewPage] else [];
    var canvas := Canvas(pageWidth, pageHeight, cells);
    assert PrintedSheet(scene, pagesPerSheet, pageWidth, pageHeight, targetWidth, targetHeight, k)
        == brk + [DrawCanvas(0, 0, canvas)];
    CanvasPages(0, 0, canvas);
    SheetPrefixFlat(scene, GetLayoutInfo(pagesPerSheet), targetWidth, targetHeight, start, size, pagesPerSheet);
    SheetPages(scene, pagesPerSheet, targetWidth, targetHeight, k);
    DrawnPagesAppend(brk, [DrawCanvas(0, 0, canvas)]);
    NewPagesAppend(brk, [DrawCanvas(0, 0, canvas)]);
    if k > 0 {
      assert brk[1..] == [];
    }
    forall st ensures Replay(st, brk + [DrawCanvas(0, 0, canvas)]) == st {
      ReplayAppend(st, brk, [DrawCanvas(0, 0, canvas)]);
      if k > 0 {
        assert brk[1..] == [];
      }
    }
  }

  /**
   * Sheets 0 .. n-1 of the print loop draw the pages before the start of
   * sheet `n`, each once and in order, with one page break between
   * consecutive sheets, and leave the printer painter's state as it was.
   */
  lemma {:induction false} PrintedSheetsPages(scene: Scene, pagesPerSheet: int, pageWidth: int, pageHeight: int,
                                              targetWidth: real, targetHeight: real, n: nat)
    requires RendersAll(scene.doc) && pagesPerSheet >= 1
    ensures DrawnPages(PrintedSheets(scene, pagesPerSheet, pageWidth, pageHeight, targetWidth, targetHeight, n))
         == Range(0, Min(SheetStart(n, pagesPerSheet), GetPageCount(scene.doc)))
    ensures NewPages(PrintedSheets(scene, pagesPerSheet, pageWidth, pageHeight, targetWidth, targetHeight, n))
         == if n > 0 then n - 1 else 0
    ensures forall st :: Replay(st, PrintedSheets(scene, pagesPerSheet, pageWidth, pageHeight, targetWidth, targetHeight, n)) == st
  {
    var total := GetPageCount(scene.doc);
    if n == 0 {
      assert SheetStart(0, pagesPerSheet) == 0;
      assert Range(0, 0) == [];
    } else {
      var m: nat := n - 1;
      var before := PrintedSheets(scene, pagesPerSheet, pageWidth, pageHeight, targetWidth, targetHeight, m);
      var sheet := PrintedSheet(scene, pagesPerSheet, pageWidth, pageHeight, targetWidth, targetHeight, m);
      PrintedSheetsPages(scene, pagesPerSheet, pageWidth, pageHeight, targetWidth, targetHeight, m);
      PrintedSheetPages(scene, pagesPerSheet, pageWidth, pageHeight, targetWidth, targetHeight, m);
      NextSheetStart(m, pagesPerSheet);
      DrawnPagesAppend(before, sheet);
      NewPagesAppend(before, sheet);
      RangeAppend(0, Min(SheetStart(m, pagesPerSheet), total), Min(SheetStart(n, pagesPerSheet), total));
      forall st ensures Replay(st, before + sheet) == st {
        ReplayAppend(st, before, sheet);
      }
    }
  }

  /**
   * Direct printing and the print preview agree: with every page
   * rendering, both put every page of the document on paper exactly once,
   * in order, on the same number of sheets.
   */
  lemma PrintMatchesPreview(scene: Scene, pagesPerSheet: int, pageWidth: int, pageHeight: int,
                            targetWidth: real, targetHeight: real)
    requires RendersAll(scene.doc) && pagesPerSheet >= 1
    ensures var sheets := SheetCount(GetPageCount(scene.doc), pagesPerSheet);
            var printed := PrintedSheets(scene, pagesPerSheet, pageWidth, pageHeight, targetWidth, targetHeight,
                                         if sheets > 0 then sheets else 0);
            var previewed := LayoutCommands(scene, pagesPerSheet, targetWidth, targetHeight, true);
            DrawnPages(printed) == DrawnPages(previewed) == Range(0, GetPageCount(scene.doc)) &&
            NewPages(printed) == NewPages(previewed)
  {
    var total := GetPageCount(scene.doc);
    var sheets := SheetCount(total, pagesPerSheet);
    SheetCountIsCeiling(total, pagesPerSheet);
    PrintedSheetsPages(scene, pagesPerSheet, pageWidth, pageHeight, targetWidth, targetHeight, if sheets > 0 then sheets else 0);
    LayoutDrawsEveryPage(scene, pagesPerSheet, targetWidth, targetHeight, true);
    LayoutPageBreaks(scene, pagesPerSheet, targetWidth, targetHeight, true);
    if sheets > 0 {
      assert SheetStart(sheets, pagesPerSheet) >= total;
    }
  }

  class PDFPrinterApp {
    const pdf: PdfHandler
    const scaling: ScalingHandler
    const pageSizes: PageSizeHandler
    const layout: LayoutHandler
    const printHandler: PrintHandler
    const layoutDrawer: LayoutDrawer
    const pageLabel: PageLabel
    const display: DisplayHandler
    const refresher: DisplayRefresher
    /** The scroll area's viewport size; resizing the window is not modelled. */
    const viewportWidth: int
    const viewportHeight: int

    var currentPage: int
    var fitToWindowActive: bool
    /** The page indicator and the slider. */
    var pageInfo: PageInfo
    var buttons: Buttons

    /** The handlers are shared: the display handler and the refresher work on the window's own. */
    predicate Wired() {
      refresher.pdf == pdf && refresher.scaling == scaling && refresher.pageSizes == pageSizes &&
      refresher.layout == layout && refresher.display == display && refresher.printHandler == printHandler &&
      refresher.Wired() && display.pageLabel == pageLabel
    }

    /** The page count of the loaded document. */
    function PageCount(): nat
      reads pdf
    {
      GetPageCount(pdf.document)
    }

    /**
     * The window's invariant: at least one page per sheet, the current page
     * is a page of the document (page 0 when there is none), and while a
     * document is open the slider, the page total and the buttons agree
     * with the current page. Only the indicator's "page n" text may lag,
     * after a slider move.
     */
    predicate Valid()
      reads this, pdf, layout
    {
      Wired() && layout.pagesPerSheet >= 1 &&
      0 <= pageInfo.sliderValue <= pageInfo.sliderMaximum &&
      (if PageCount() > 0 then 0 <= currentPage < PageCount() else currentPage == 0) &&
      (PageCount() > 0 ==>
         var info := PageInfoFor(layout.adaptiveMode, currentPage, layout.pagesPerSheet, PageCount());
         pageInfo.of == info.of && pageInfo.sliderMaximum == info.sliderMaximum &&
         pageInfo.sliderValue == info.sliderValue &&
         buttons == ButtonState(layout.adaptiveMode, currentPage, layout.pagesPerSheet, PageCount()))
    }

    /** `update_page_info` ran with a document open: indicator, slider and buttons are current. */
    predicate InfoCurrent()
      requires layout.pagesPerSheet >= 1
      reads this, pdf, layout
    {
      PageCount() > 0 ==>
        pageInfo == PageInfoFor(layout.adaptiveMode, currentPage, layout.pagesPerSheet, PageCount()) &&
        buttons == ButtonState(layout.adaptiveMode, currentPage, layout.pagesPerSheet, PageCount())
    }

    /** What the window shows: the display scale and the label's picture and fixed size. */
    function Shown(): (real, LabelState)
      reads display, pageLabel
    {
      (display.displayScaleFactor, pageLabel.State())
    }

    /** The scene the layout handler paints: the document with the current zoom and rotation. */
    function CurrentScene(): Scene
      reads pdf, scaling
    {
      Scene(pdf.document, scaling.scaleFactor, scaling.rotationAngle)
    }

    /** The fit-to-window display scale for the current page. */
    function FitScaleNow(): real
      requires Wired()
      reads this, pdf, pageSizes
    {
      var natural := display.GetNaturalDisplaySize(currentPage);
      FitScale(viewportWidth, viewportHeight, natural.0, natural.1)
    }

    /** What `_calculate_and_apply_fit_to_window_scale` leaves on screen, from `before`. */
    function Fitted(before: (real, LabelState)): (real, LabelState)
      requires Wired()
      reads this, pdf, scaling, pageSizes, layout
    {
      if PageCount() > 0 then (FitScaleNow(), refresher.Refreshed(before.1, currentPage, FitScaleNow()))
      else before
    }

    /**
     * What the handlers leave on screen after a settings change: the fitted
     * view while fit-to-window is on, a refresh at display scale 1.0
     * otherwise.
     */
    function Redisplayed(before: (real, LabelState)): (real, LabelState)
      requires Wired()
      reads this, pdf, scaling, pageSizes, layout
    {
      if fitToWindowActive then Fitted(before) else (1.0, refresher.Refreshed(before.1, currentPage, 1.0))
    }

    /**
     * `__init__`: the handlers wired together, page 0, fit-to-window off,
     * adaptive mode on, an empty indicator and slider and both navigation
     * buttons disabled.
     */
    constructor (pointSizes: SizeId -> (real, real), viewportWidth: int, viewportHeight: int)
      ensures Valid()
      ensures pdf.document == None && currentPage == 0 && !fitToWindowActive
      ensures layout.adaptiveMode && layout.pagesPerSheet == 1
      ensures scaling.scaleFactor == 1.0 && scaling.rotationAngle == 0
      ensures pageSizes.pageSize == "A4" && pageSizes.pageOrientation == "portrait"
      ensures printHandler.pageSize == "A4" && printHandler.pageOrientation == "portrait"
      ensures pageInfo == PageInfo(0, 0, 0, 0) && buttons == Buttons(false, false)
      ensures Shown() == (1.0, LabelState(None, None))
      ensures this.viewportWidth == viewportWidth && this.viewportHeight == viewportHeight
    {
      var pdfHandler := new PdfHandler();
      var scalingHandler := new ScalingHandler();
      var pageSizeHandler := new PageSizeHandler(pointSizes);
      var layoutHandler := new LayoutHandler(pageSizeHandler);
      var printing := new PrintHandler();
      var drawer := new LayoutDrawer();
      var shownLabel := new PageLabel();
      var displayHandler := new DisplayHandler(shownLabel, pdfHandler, scalingHandler, pageSizeHandler, layoutHandler);
      var displayRefresher := new DisplayRefresher(pdfHandler, scalingHandler, pageSizeHandler, layoutHandler,
                                                   displayHandler, printing);
      pdf := pdfHandler;
      scaling := scalingHandler;
      pageSizes := pageSizeHandler;
      layout := layoutHandler;
      printHandler := printing;
      layoutDrawer := drawer;
      pageLabel := shownLabel;
      display := displayHandler;
      refresher := displayRefresher;
      this.viewportWidth := viewportWidth;
      this.viewportHeight := viewportHeight;
      currentPage := 0;
      fitToWindowActive := false;
      pageInfo := PageInfo(0, 0, 0, 0);
      buttons := Buttons(false, false);
      new;
      layout.SetAdaptiveMode(true);
    }

    /**
     * `fit_to_window`: with a document open, toggles fit-to-window and
     * either fits the page to the window or goes back to display scale
     * 1.0; without one, does nothing.
     */
    method FitToWindow()
      requires Valid()
      modifies this, display, pageLabel
      ensures Valid()
      ensures fitToWindowActive == (if PageCount() > 0 then !old(fitToWindowActive) else old(fitToWindowActive))
      ensures Shown() == if PageCount() > 0 then Redisplayed(old(Shown())) else old(Shown())
      ensures currentPage == old(currentPage) && pageInfo == old(pageInfo) && buttons == old(buttons)
    {
      if PageCount() > 0 {
        fitToWindowActive := !fitToWindowActive;
        if fitToWindowActive {
          CalculateAndApplyFitToWindowScale();
        } else {
          refresher.RefreshDisplay(currentPage, 1.0);
        }
      }
    }

    /**
     * `_calculate_and_apply_fit_to_window_scale`: with a document open,
     * refreshes at the scale that fits the current page's natural size into
     * the viewport less a 40 pixel border (1.0 when that size is not
     * positive).
     */
    method CalculateAndApplyFitToWindowScale()
      requires Wired()
      modifies display, pageLabel
      ensures Shown() == Fitted(old(Shown()))
    {
      if PageCount() > 0 {
        var availableWidth := viewportWidth - 40;
        var availableHeight := viewportHeight - 40;
        var natural := display.GetNaturalDisplaySize(currentPage);
        var naturalWidth, naturalHeight := natural.0, natural.1;
        if naturalWidth > 0 && naturalHeight > 0 {
          var scaleX := availableWidth as real / naturalWidth as real;
          var scaleY := availableHeight as real / naturalHeight as real;
          var displayScale := MinReal(scaleX, scaleY);
          refresher.RefreshDisplay(currentPage, displayScale);
        } else {
          refresher.RefreshDisplay(currentPage, 1.0);
        }
      }
    }

    /** The fit-to-window branch every settings handler ends with. */
    method Redisplay()
      requires Wired()
      modifies display, pageLabel
      ensures Shown() == Redisplayed(old(Shown()))
    {
      if fitToWindowActive {
        CalculateAndApplyFitToWindowScale();
      } else {
        refresher.RefreshDisplay(currentPage, 1.0);
      }
    }

    /**
     * `update_page_info`: with a document open, the indicator shows the
     * current sheet (adaptive) or page and the total, the slider ranges over
     * the sheets or pages, and the buttons are updated; without one,
     * nothing changes.
     */
    method UpdatePageInfo()
      requires layout.pagesPerSheet >= 1
      requires PageCount() > 0 ==> 0 <= currentPage < PageCount()
      modifies this
      ensures InfoCurrent()
      ensures PageCount() > 0 ==> 0 <= pageInfo.sliderValue <= pageInfo.sliderMaximum
      ensures PageCount() == 0 ==> pageInfo == old(pageInfo) && buttons == old(buttons)
      ensures currentPage == old(currentPage) && fitToWindowActive == old(fitToWindowActive)
    {
      var count := PageCount();
      if count > 0 {
        var pagesPerSheet := layout.pagesPerSheet;
        if layout.adaptiveMode {
          var totalPages := FloorDiv(count + pagesPerSheet - 1, pagesPerSheet);
          var currentGroup := FloorDiv(currentPage, pagesPerSheet) + 1;
          pageInfo := PageInfo(currentGroup, totalPages, Max(0, totalPages - 1), currentGroup - 1);
        } else {
          pageInfo := PageInfo(currentPage + 1, count, Max(0, count - 1), currentPage);
        }
        SliderTracksPosition(layout.adaptiveMode, currentPage, pagesPerSheet, count);
        UpdateButtonState();
      }
    }

    /** `update_button_state`: prev is enabled off the first sheet or page, next before the last. */
    method UpdateButtonState()
      requires layout.pagesPerSheet >= 1
      modifies this
      ensures buttons == ButtonState(layout.adaptiveMode, currentPage, layout.pagesPerSheet, PageCount())
      ensures currentPage == old(currentPage) && fitToWindowActive == old(fitToWindowActive) && pageInfo == old(pageInfo)
    {
      var pagesPerSheet := layout.pagesPerSheet;
      if layout.adaptiveMode {
        var totalPages := FloorDiv(PageCount() + pagesPerSheet - 1, pagesPerSheet);
        var currentGroup := FloorDiv(currentPage, pagesPerSheet);
        buttons := Buttons(currentGroup > 0, currentGroup < totalPages - 1);
      } else {
        buttons := Buttons(currentPage > 0, currentPage < PageCount() - 1);
      }
    }

    /**
     * `zoom_changed`: the entry -1 ("custom") only reveals the input field;
     * any other entry becomes the zoom, switches fit-to-window off and
     * refreshes at display scale 1.0.
     */
    method ZoomChanged(zoomValue: real)
      requires Valid()
      modifies this, scaling, display, pageLabel
      ensures Valid()
      ensures zoomValue == -1.0 ==>
                scaling.scaleFactor == old(scaling.scaleFactor) && fitToWindowActive == old(fitToWindowActive) &&
                Shown() == old(Shown()) && pageInfo == old(pageInfo) && buttons == old(buttons)
      ensures zoomValue != -1.0 ==>
                scaling.scaleFactor == zoomValue && !fitToWindowActive && InfoCurrent() &&
                Shown() == (1.0, refresher.Refreshed(old(pageLabel.State()), currentPage, 1.0))
      ensures scaling.rotationAngle == old(scaling.rotationAngle) && currentPage == old(currentPage)
    {
      if zoomValue != -1.0 {
        scaling.SetScaleFactor(zoomValue);
        fitToWindowActive := false;
        refresher.RefreshDisplay(currentPage, 1.0);
        UpdatePageInfo();
      }
    }

    /**
     * `custom_zoom_entered`: `input` is the typed text read as a number,
     * None when it is not one. A positive percentage becomes the zoom as a
     * fraction, switches fit-to-window off and refreshes at display scale
     * 1.0; anything else only warns.
     */
    method CustomZoomEntered(input: Option<real>)
      requires Valid()
      modifies this, scaling, display, pageLabel
      ensures Valid()
      ensures (input.None? || input.value <= 0.0) ==>
                scaling.scaleFactor == old(scaling.scaleFactor) && fitToWindowActive == old(fitToWindowActive) &&
                Shown() == old(Shown()) && pageInfo == old(pageInfo) && buttons == old(buttons)
      ensures input.Some? && input.value > 0.0 ==>
                scaling.scaleFactor == input.value / 100.0 && !fitToWindowActive && InfoCurrent() &&
                Shown() == (1.0, refresher.Refreshed(old(pageLabel.State()), currentPage, 1.0))
      ensures scaling.rotationAngle == old(scaling.rotationAngle) && currentPage == old(currentPage)
    {
      if input.Some? {
        var zoomValue := input.value;
        if zoomValue > 0.0 {
          scaling.SetScaleFactor(zoomValue / 100.0);
          fitToWindowActive := false;
          refresher.RefreshDisplay(currentPage, 1.0);
          UpdatePageInfo();
        }
      }
    }

    /** `rotate_changed`: the new rotation, then the view and the indicator are redone. */
    method RotateChanged(angle: int)
      requires Valid()
      modifies this, scaling, display, pageLabel
      ensures Valid() && InfoCurrent()
      ensures scaling.rotationAngle == angle && scaling.scaleFactor == old(scaling.scaleFactor)
      ensures Shown() == Redisplayed(old(Shown()))
      ensures currentPage == old(currentPage) && fitToWindowActive == old(fitToWindowActive)
    {
      scaling.SetRotationAngle(angle);
      Redisplay();
      UpdatePageInfo();
    }

    /**
     * `size_changed`: the screen and the printer both take the new paper
     * size, then the view and the indicator are redone.
     */
    method SizeChanged(size: string)
      requires Valid()
      modifies this, pageSizes, printHandler, display, pageLabel
      ensures Valid() && InfoCurrent()
      ensures pageSizes.pageSize == size && printHandler.pageSize == size
      ensures pageSizes.pageOrientation == old(pageSizes.pageOrientation)
      ensures printHandler.pageOrientation == old(printHandler.pageOrientation)
      ensures Shown() == Redisplayed(old(Shown()))
      ensures currentPage == old(currentPage) && fitToWindowActive == old(fitToWindowActive)
    {
      pageSizes.SetPageSize(size);
      printHandler.SetPageSize(size);
      Redisplay();
      UpdatePageInfo();
    }

    /**
     * `adaptive_mode_changed`: switches between the sheet view and the
     * single-page view. The current page is kept as it is, so in adaptive
     * mode it need not start a sheet.
     */
    method AdaptiveModeChanged(checked: bool)
      requires Valid()
      modifies this, layout, display, pageLabel
      ensures Valid() && InfoCurrent()
      ensures layout.adaptiveMode == checked && layout.pagesPerSheet == old(layout.pagesPerSheet)
      ensures Shown() == Redisplayed(old(Shown()))
      ensures currentPage == old(currentPage) && fitToWindowActive == old(fitToWindowActive)
    {
      layout.SetAdaptiveMode(checked);
      Redisplay();
      UpdatePageInfo();
    }

    /**
     * `orientation_changed`: the screen and the printer both take the new
     * orientation, then the view and the indicator are redone.
     */
    method OrientationChanged(orientation: string)
      requires Valid()
      modifies this, pageSizes, printHandler, display, pageLabel
      ensures Valid() && InfoCurrent()
      ensures pageSizes.pageOrientation == orientation && printHandler.pageOrientation == orientation
      ensures pageSizes.pageSize == old(pageSizes.pageSize) && printHandler.pageSize == old(printHandler.pageSize)
      ensures Shown() == Redisplayed(old(Shown()))
      ensures currentPage == old(currentPage) && fitToWindowActive == old(fitToWindowActive)
    {
      pageSizes.SetPageOrientation(orientation);
      printHandler.SetPageOrientation(orientation);
      Redisplay();
      UpdatePageInfo();
    }

    /**
     * `pages_per_sheet_changed`: the new count per sheet (an entry of the
     * 1, 2, 4, 6, 9, 16 list). The current page is kept as it is, so it
     * need not start a sheet of the new size.
     */
    method PagesPerSheetChanged(count: int)
      requires Valid() && count >= 1
      modifies this, layout, display, pageLabel
      ensures Valid() && InfoCurrent()
      ensures layout.pagesPerSheet == count && layout.adaptiveMode == old(layout.adaptiveMode)
      ensures Shown() == Redisplayed(old(Shown()))
      ensures currentPage == old(currentPage) && fitToWindowActive == old(fitToWindowActive)
    {
      layout.SetPagesPerSheet(count);
      Redisplay();
      UpdatePageInfo();
    }

    /**
     * `prev_page`: back one sheet (adaptive) or one page, when there is one.
     * The sheet step honours fit-to-window; the page step always refreshes
     * at display scale 1.0.
     */
    method PrevPage()
      requires Valid()
      modifies this, display, pageLabel
      ensures Valid() && InfoCurrent()
      ensures var target := PrevTarget(old(layout.adaptiveMode), old(currentPage), layout.pagesPerSheet);
              currentPage == (if target.Some? then target.value else old(currentPage)) &&
              Shown() == (if target.None? then old(Shown())
                          else if layout.adaptiveMode then Redisplayed(old(Shown()))
                          else (1.0, refresher.Refreshed(old(pageLabel.State()), currentPage, 1.0)))
      ensures fitToWindowActive == old(fitToWindowActive)
    {
      var pagesPerSheet := layout.pagesPerSheet;
      if layout.adaptiveMode {
        var currentGroup := FloorDiv(currentPage, pagesPerSheet);
        if currentGroup > 0 {
          currentPage := (currentGroup - 1) * pagesPerSheet;
          Redisplay();
        }
        PrevMovesBySheet(old(currentPage), pagesPerSheet);
      } else {
        if currentPage > 0 {
          currentPage := currentPage - 1;
          refresher.RefreshDisplay(currentPage, 1.0);
        }
      }
      UpdatePageInfo();
    }

    /**
     * `next_page`: forward one sheet (adaptive) while a later sheet exists,
     * or one page while a later page exists. The sheet step honours
     * fit-to-window; the page step always refreshes at display scale 1.0.
     */
    method NextPage()
      requires Valid()
      modifies this, display, pageLabel
      ensures Valid() && InfoCurrent()
      ensures var target := NextTarget(old(layout.adaptiveMode), old(currentPage), layout.pagesPerSheet, PageCount());
              currentPage == (if target.Some? then target.value else old(currentPage)) &&
              Shown() == (if target.None? then old(Shown())
                          else if layout.adaptiveMode then Redisplayed(old(Shown()))
                          else (1.0, refresher.Refreshed(old(pageLabel.State()), currentPage, 1.0)))
      ensures fitToWindowActive == old(fitToWindowActive)
    {
      var pagesPerSheet := layout.pagesPerSheet;
      if layout.adaptiveMode {
        var currentGroup := FloorDiv(currentPage, pagesPerSheet);
        var totalPages := FloorDiv(PageCount() + pagesPerSheet - 1, pagesPerSheet);
        if currentGroup < totalPages - 1 {
          currentPage := (currentGroup + 1) * pagesPerSheet;
          Redisplay();
        }
        NextMovesBySheet(old(currentPage), pagesPerSheet, PageCount());
      } else {
        if PageCount() > 0 && currentPage < PageCount() - 1 {
          currentPage := currentPage + 1;
          refresher.RefreshDisplay(currentPage, 1.0);
        }
      }
      UpdatePageInfo();
    }

    /**
     * `scrollbar_changed`: the slider was moved to `value`. With a document
     * open the current page becomes the first page of sheet `value`
     * (adaptive) or page `value`, the view is redone and the buttons are
     * updated; the indicator's text is not.
     */
    method ScrollbarChanged(value: int)
      requires Valid() && 0 <= value <= pageInfo.sliderMaximum
      modifies this, display, pageLabel
      ensures Valid()
      ensures pageInfo == old(pageInfo).(sliderValue := value)
      ensures PageCount() == 0 ==> currentPage == old(currentPage) && Shown() == old(Shown()) && buttons == old(buttons)
      ensures PageCount() > 0 ==>
                currentPage == ScrollTarget(layout.adaptiveMode, old(currentPage), value, layout.pagesPerSheet, PageCount()) &&
                Shown() == Redisplayed(old(Shown()))
      ensures fitToWindowActive == old(fitToWindowActive)
    {
      pageInfo := pageInfo.(sliderValue := value);
      if PageCount() > 0 {
        var pagesPerSheet := layout.pagesPerSheet;
        ghost var target := ScrollTarget(layout.adaptiveMode, currentPage, value, pagesPerSheet, PageCount());
        ScrollRoundTrip(layout.adaptiveMode, currentPage, value, pagesPerSheet, PageCount());
        if layout.adaptiveMode {
          var totalPages := FloorDiv(PageCount() + pagesPerSheet - 1, pagesPerSheet);
          if totalPages > 0 {
            var targetGroup := value;
            currentPage := targetGroup * pagesPerSheet;
          }
        } else {
          currentPage := value;
        }
        assert currentPage == target;
        Redisplay();
        UpdateButtonState();
      }
    }

    /**
     * `eventFilter` for a wheel turn over the page: the slider steps one
     * position towards the start (wheel up) or the end, clamped to its
     * range, and a position that changed is handled as a slider move.
     */
    method WheelScrolled(up: bool)
      requires Valid()
      modifies this, display, pageLabel
      ensures Valid()
      ensures var value := WheelValue(up, old(pageInfo.sliderValue), old(pageInfo.sliderMaximum));
              pageInfo == old(pageInfo).(sliderValue := value) &&
              (value == old(pageInfo.sliderValue) || PageCount() == 0 ==>
                 currentPage == old(currentPage) && Shown() == old(Shown()) && buttons == old(buttons)) &&
              (value != old(pageInfo.sliderValue) && PageCount() > 0 ==>
                 currentPage == ScrollTarget(layout.adaptiveMode, old(currentPage), value, layout.pagesPerSheet, PageCount()) &&
                 Shown() == Redisplayed(old(Shown())))
      ensures fitToWindowActive == old(fitToWindowActive)
    {
      var currentValue := pageInfo.sliderValue;
      var value := if up then Max(0, currentValue - 1) else Min(pageInfo.sliderMaximum, currentValue + 1);
      if value != currentValue {
        ScrollbarChanged(value);
      }
    }

    /**
     * `load_pdf`: `outcome` is None when the file dialog was cancelled,
     * Some(None) when the file could not be opened (the old document stays),
     * and Some(Some(doc)) for the opened document. An opened document
     * resets to page 0 and zoom 1.0, takes the orientation of its first
     * page, is shown and enables the navigation buttons before the
     * indicator is updated.
     */
    method LoadPdf(outcome: Option<Option<Document>>)
      requires Valid()
      modifies this, pdf, scaling, pageSizes, display, pageLabel
      ensures Valid()
      ensures !(outcome.Some? && outcome.value.Some?) ==>
                pdf.document == old(pdf.document) && currentPage == old(currentPage) &&
                scaling.scaleFactor == old(scaling.scaleFactor) && pageSizes.pageOrientation == old(pageSizes.pageOrientation) &&
                Shown() == old(Shown()) && pageInfo == old(pageInfo) && buttons == old(buttons)
      ensures outcome.Some? && outcome.value.Some? ==>
                pdf.document == outcome.value && currentPage == 0 && scaling.scaleFactor == 1.0 &&
                pageSizes.pageOrientation == GetPageOrientation(outcome.value, 0) &&
                Shown() == Redisplayed(old(Shown())) && InfoCurrent() &&
                (PageCount() == 0 ==> pageInfo == old(pageInfo) && buttons == Buttons(true, true))
      ensures scaling.rotationAngle == old(scaling.rotationAngle) && pageSizes.pageSize == old(pageSizes.pageSize)
      ensures fitToWindowActive == old(fitToWindowActive)
    {
      if outcome.Some? {
        var loaded := pdf.LoadPdf(outcome.value);
        if loaded {
          ShowOpened();
        }
      }
    }

    /** What `load_pdf` does once the document has opened. */
    method ShowOpened()
      requires Wired() && layout.pagesPerSheet >= 1
      requires 0 <= pageInfo.sliderValue <= pageInfo.sliderMaximum
      modifies this, scaling, pageSizes, display, pageLabel
      ensures Valid()
      ensures currentPage == 0 && scaling.scaleFactor == 1.0 &&
              pageSizes.pageOrientation == GetPageOrientation(pdf.document, 0) &&
              Shown() == Redisplayed(old(Shown())) && InfoCurrent() &&
              (PageCount() == 0 ==> pageInfo == old(pageInfo) && buttons == Buttons(true, true))
      ensures scaling.rotationAngle == old(scaling.rotationAngle) && pageSizes.pageSize == old(pageSizes.pageSize)
      ensures fitToWindowActive == old(fitToWindowActive)
    {
      currentPage := 0;
      scaling.SetScaleFactor(1.0);
      var initialOrientation := GetPageOrientation(pdf.document, 0);
      pageSizes.SetPageOrientation(initialOrientation);
      Redisplay();
      buttons := Buttons(true, true);
      UpdatePageInfo();
    }

    /**
     * The target size `_preview_paint_requested` and `_print_pages` give
     * the grid: the page rectangle, brought to the screen's orientation
     * when a document is open.
     */
    function PrintTarget(pageWidth: int, pageHeight: int): (target: (real, real))
      reads pdf, pageSizes
      ensures target == (pageWidth as real, pageHeight as real) || target == (pageHeight as real, pageWidth as real)
      ensures PageCount() > 0 && pageSizes.pageOrientation == "portrait" ==> target.0 <= target.1
      ensures PageCount() > 0 && pageSizes.pageOrientation == "landscape" ==> target.0 >= target.1
      ensures PageCount() == 0 ==> target == (pageWidth as real, pageHeight as real)
    {
      if PageCount() > 0 then
        var pdfSize := GetPageSize(pdf.document, 0);
        pageSizes.AdjustDimensionsForOrientation(pageWidth as real, pageHeight as real, pdfSize.0, pdfSize.1)
      else (pageWidth as real, pageHeight as real)
    }

    /**
     * `_preview_paint_requested`: configures the preview's printer, then
     * paints every sheet straight onto it, breaking the page before every
     * sheet but the first.
     */
    method PreviewPaintRequested(printer: Printer, pageWidth: int, pageHeight: int) returns (painter: Painter)
      requires Valid()
      modifies printer
      ensures printer.pageLayout == printHandler.RequestedLayout()
      ensures fresh(painter) && painter.onPrinter
      ensures painter.log == LayoutCommands(CurrentScene(), layout.pagesPerSheet,
                                            PrintTarget(pageWidth, pageHeight).0, PrintTarget(pageWidth, pageHeight).1, true)
    {
      printHandler.ConfigurePrinter(printer);
      painter := new Painter(true);
      var targetWidth, targetHeight := pageWidth as real, pageHeight as real;
      if PageCount() > 0 {
        var pdfSize := GetPageSize(pdf.document, 0);
        var adjusted := pageSizes.AdjustDimensionsForOrientation(targetWidth, targetHeight, pdfSize.0, pdfSize.1);
        targetWidth, targetHeight := adjusted.0, adjusted.1;
      }
      var totalPages := PageCount();
      var pagesPerSheet := layout.pagesPerSheet;
      var totalLayoutPages := FloorDiv(totalPages + pagesPerSheet - 1, pagesPerSheet);
      SheetCountIsCeiling(totalPages, pagesPerSheet);
      for layoutPageIndex := 0 to totalLayoutPages
        modifies painter
        invariant painter.log == SheetsPrefix(CurrentScene(), pagesPerSheet, targetWidth, targetHeight, true, layoutPageIndex)
      {
        PreviewSheet(painter, targetWidth, targetHeight, totalPages, layoutPageIndex);
      }
    }

    /** One pass of the preview loop: the page break and the sheet's cells. */
    method PreviewSheet(painter: Painter, targetWidth: real, targetHeight: real, totalPages: int, layoutPageIndex: nat)
      requires totalPages == PageCount()
      modifies painter
      ensures painter.log == old(painter.log) +
                SheetPlan(CurrentScene(), layout.pagesPerSheet, targetWidth, targetHeight, true, layoutPageIndex)
    {
      ghost var log0 := painter.log;
      if layoutPageIndex > 0 {
        painter.NewPage();
      }
      var pagesPerSheet := layout.pagesPerSheet;
      var startPdfPage := layoutPageIndex * pagesPerSheet;
      var remainingPages := totalPages - startPdfPage;
      var pageCount := Min(pagesPerSheet, remainingPages);
      layout.DrawAdaptivePages(painter, pdf, scaling, targetWidth, targetHeight, startPdfPage, pageCount);
      ghost var brk: seq<Command> := if layoutPageIndex > 0 then [NewPage] else [];
      AppendAssociates(log0, brk, SheetCommands(CurrentScene(), pagesPerSheet, targetWidth, targetHeight, startPdfPage, pageCount));
    }

    /**
     * `_print_pages`: for each of `totalLayoutPages` sheets, a page break
     * before all but the first, the sheet's cells painted into a pixmap the
     * size of the page rectangle, and that pixmap drawn onto the printer.
     */
    method PrintPages(printer: Printer, pageWidth: int, pageHeight: int, totalLayoutPages: int) returns (painter: Painter)
      requires Valid()
      ensures fresh(painter) && painter.onPrinter
      ensures painter.log == PrintedSheets(CurrentScene(), layout.pagesPerSheet, pageWidth, pageHeight,
                                           PrintTarget(pageWidth, pageHeight).0, PrintTarget(pageWidth, pageHeight).1,
                                           if totalLayoutPages > 0 then totalLayoutPages else 0)
    {
      painter := new Painter(true);
      var totalPages := PageCount();
      var pagesPerSheet := layout.pagesPerSheet;
      if totalLayoutPages <= 0 {
        return;
      }
      for layoutPageIndex := 0 to totalLayoutPages
        invariant painter.log == PrintedSheets(CurrentScene(), pagesPerSheet, pageWidth, pageHeight,
                                               PrintTarget(pageWidth, pageHeight).0, PrintTarget(pageWidth, pageHeight).1,
                                               layoutPageIndex)
      {
        PrintSheet(painter, pageWidth, pageHeight, totalPages, layoutPageIndex);
      }
    }

    /** One pass of the print loop: the page break, then the sheet painted into a pixmap and the pixmap drawn. */
    method PrintSheet(painter: Painter, pageWidth: int, pageHeight: int, totalPages: int, layoutPageIndex: nat)
      requires totalPages == PageCount()
      modifies painter
      ensures painter.log == old(painter.log) +
                PrintedSheet(CurrentScene(), layout.pagesPerSheet, pageWidth, pageHeight,
                             PrintTarget(pageWidth, pageHeight).0, PrintTarget(pageWidth, pageHeight).1, layoutPageIndex)
    {
      ghost var log0 := painter.log;
      if layoutPageIndex > 0 {
        painter.NewPage();
      }
      var pixmap := PaintPixmap(pageWidth, pageHeight, totalPages, layoutPageIndex);
      painter.DrawCanvas(0, 0, pixmap);
      ghost var brk: seq<Command> := if layoutPageIndex > 0 then [NewPage] else [];
      AppendAssociates(log0, brk, [DrawCanvas(0, 0, pixmap)]);
    }

    /**
     * The pixmap of one printed sheet: the size of the page rectangle, with
     * the sheet's cells painted into the page rectangle brought to the
     * screen's orientation.
     */
    method PaintPixmap(pageWidth: int, pageHeight: int, totalPages: int, layoutPageIndex: nat) returns (pixmap: Canvas)
      requires totalPages == PageCount()
      ensures pixmap == Canvas(pageWidth, pageHeight,
                               SheetCommands(CurrentScene(), layout.pagesPerSheet,
                                             PrintTarget(pageWidth, pageHeight).0, PrintTarget(pageWidth, pageHeight).1,
                                             SheetStart(layoutPageIndex, layout.pagesPerSheet),
                                             SheetSize(PageCount(), layoutPageIndex, layout.pagesPerSheet)))
    {
      var pixmapPainter := new Painter(false);
      var targetWidth, targetHeight := pageWidth as real, pageHeight as real;
      if PageCount() > 0 {
        var pdfSize := GetPageSize(pdf.document, 0);
        var adjusted := pageSizes.AdjustDimensionsForOrientation(targetWidth, targetHeight, pdfSize.0, pdfSize.1);
        targetWidth, targetHeight := adjusted.0, adjusted.1;
      }
      var pagesPerSheet := layout.pagesPerSheet;
      var startPdfPage := layoutPageIndex * pagesPerSheet;
      var remainingPages := totalPages - startPdfPage;
      var pageCount := Min(pagesPerSheet, remainingPages);
      layout.DrawAdaptivePages(pixmapPainter, pdf, scaling, targetWidth, targetHeight, startPdfPage, pageCount);
      pixmap := Canvas(pageWidth, pageHeight, pixmapPainter.log);
    }

    /**
     * `_direct_print`: configures the printer before the print dialog
     * opens; when the dialog is accepted, prints the document's sheets
     * (the progress bar and the deferral of the printing are not modelled).
     */
    method DirectPrint(printer: Printer, accepted: bool, pageWidth: int, pageHeight: int) returns (painter: Option<Painter>)
      requires Valid()
      modifies printer
      ensures printer.pageLayout == printHandler.RequestedLayout()
      ensures painter.Some? <==> accepted
      ensures painter.Some? ==>
                fresh(painter.value) &&
                painter.value.log == PrintedSheets(CurrentScene(), layout.pagesPerSheet, pageWidth, pageHeight,
                                                   PrintTarget(pageWidth, pageHeight).0, PrintTarget(pageWidth, pageHeight).1,
                                                   SheetCount(PageCount(), layout.pagesPerSheet))
    {
      printHandler.ConfigurePrinter(printer);
      painter := None;
      if accepted {
        var totalPages := PageCount();
        var pagesPerSheet := layout.pagesPerSheet;
        var totalLayoutPages := FloorDiv(totalPages + pagesPerSheet - 1, pagesPerSheet);
        SheetCountIsCeiling(totalPages, pagesPerSheet);
        var printed := PrintPages(printer, pageWidth, pageHeight, totalLayoutPages);
        painter := Some(printed);
      }
    }

    /** `print_pdf`: direct printing, only with a document open. */
    method PrintPdf(printer: Printer, accepted: bool, pageWidth: int, pageHeight: int) returns (painter: Option<Painter>)
      requires Valid()
      modifies printer
      ensures painter.Some? <==> PageCount() > 0 && accepted
      ensures PageCount() > 0 ==> printer.pageLayout == printHandler.RequestedLayout()
      ensures PageCount() == 0 ==> printer.pageLayout == old(printer.pageLayout)
      ensures painter.Some? ==>
                fresh(painter.value) &&
                painter.value.log == PrintedSheets(CurrentScene(), layout.pagesPerSheet, pageWidth, pageHeight,
                                                   PrintTarget(pageWidth, pageHeight).0, PrintTarget(pageWidth, pageHeight).1,
                                                   SheetCount(PageCount(), layout.pagesPerSheet))
    {
      painter := None;
      if PageCount() > 0 {
        painter := DirectPrint(printer, accepted, pageWidth, pageHeight);
      }
    }

    /** `print_preview`: the preview dialog paints the printer's pages, only with a document open. */
    method PrintPreview(printer: Printer, pageWidth: int, pageHeight: int) returns (painter: Option<Painter>)
      requires Valid()
      modifies printer
      ensures painter.Some? <==> PageCount() > 0
      ensures painter.Some? ==>
                fresh(painter.value) && printer.pageLayout == printHandler.RequestedLayout() &&
                painter.value.log == LayoutCommands(CurrentScene(), layout.pagesPerSheet,
                                                    PrintTarget(pageWidth, pageHeight).0, PrintTarget(pageWidth, pageHeight).1, true)
      ensures painter.None? ==> printer.pageLayout == old(printer.pageLayout)
    {
      painter := None;
      if PageCount() > 0 {
        var previewed := PreviewPaintRequested(printer, pageWidth, pageHeight);
        painter := Some(previewed);
      }
    }
  }
}
