/**
 * The refresh dispatcher (display_refresher.py): stores the display scale,
 * clears the label when there is nothing to show, and otherwise runs
 * exactly one of the two views, chosen by the adaptive-mode switch.
 */
module Refresh {
  import opened Base
  import opened Pdf
  import opened Painting
  import opened Scaling
  import opened PageSizes
  import opened Layout
  import opened Printing
  import opened Display

  class DisplayRefresher {
    const pdf: PdfHandler
    const scaling: ScalingHandler
    const pageSizes: PageSizeHandler
    const layout: LayoutHandler
    const display: DisplayHandler
    const printHandler: PrintHandler

    constructor (pdf: PdfHandler, scaling: ScalingHandler, pageSizes: PageSizeHandler,
                 layout: LayoutHandler, display: DisplayHandler, printHandler: PrintHandler)
      ensures this.pdf == pdf && this.scaling == scaling && this.pageSizes == pageSizes
      ensures this.layout == layout && this.display == display && this.printHandler == printHandler
    {
      this.pdf := pdf;
      this.scaling := scaling;
      this.pageSizes := pageSizes;
      this.layout := layout;
      this.display := display;
      this.printHandler := printHandler;
    }

    /** The display handler was built on the same handlers as the refresher. */
    predicate Wired() {
      display.pdf == pdf && display.scaling == scaling && display.pageSizes == pageSizes && display.layout == layout
    }

    /**
     * The label after `refresh_display(currentPage, displayScale)` from the
     * label state `before`: cleared when no page is loaded, the sheet view
     * in adaptive mode, the single view otherwise (which keeps the old
     * picture when the page does not render).
     */
    function Refreshed(before: LabelState, currentPage: int, displayScale: real): (after: LabelState)
      requires Wired()
      reads pdf, scaling, pageSizes, layout
      ensures GetPageCount(pdf.document) == 0 ==> after == LabelState(None, before.pinned)
      ensures GetPageCount(pdf.document) > 0 && layout.adaptiveMode ==>
                after.picture == after.pinned == Some(display.AdaptivePicture(currentPage, displayScale))
      ensures GetPageCount(pdf.document) > 0 && !layout.adaptiveMode ==>
                after.pinned == before.pinned &&
                after.picture == (if PageRenders(pdf.document, currentPage)
                                  then display.SinglePicture(currentPage, displayScale) else before.picture)
    {
      if GetPageCount(pdf.document) == 0 then LabelState(None, before.pinned)
      else if layout.adaptiveMode then
        var p := display.AdaptivePicture(currentPage, displayScale);
        LabelState(Some(p), Some(p))
      else
        match display.SinglePicture(currentPage, displayScale)
        case None => before
        case Some(p) => LabelState(Some(p), before.pinned)
    }

    /**
     * `refresh_display`: the display scale is stored first, whatever
     * follows; then the label is cleared or one view is shown.
     */
    method RefreshDisplay(currentPage: int, displayScale: real)
      requires Wired()
      modifies display, display.pageLabel
      ensures display.displayScaleFactor == displayScale
      ensures display.pageLabel.State() == Refreshed(old(display.pageLabel.State()), currentPage, displayScale)
    {
      display.displayScaleFactor := displayScale;
      if GetPageCount(pdf.document) == 0 {
        display.pageLabel.Clear();
        return;
      }
      if layout.adaptiveMode {
        display.DisplayAdaptivePages(currentPage);
      } else {
        display.DisplaySinglePage(currentPage);
      }
    }

    /**
     * `refresh_all`: a refresh at display scale 1.0, then the print
     * handler takes the page size and orientation the screen uses.
     */
    method RefreshAll(currentPage: int)
      requires Wired()
      modifies display, display.pageLabel, printHandler
      ensures display.displayScaleFactor == 1.0
      ensures display.pageLabel.State() == Refreshed(old(display.pageLabel.State()), currentPage, 1.0)
      ensures printHandler.pageSize == pageSizes.pageSize
      ensures printHandler.pageOrientation == pageSizes.pageOrientation
      ensures printHandler.RequestedLayout().size == SizeIdFor(pageSizes.pageSize)
      ensures printHandler.RequestedLayout().orientation == Landscape <==> pageSizes.pageOrientation == "landscape"
    {
      RefreshDisplay(currentPage, 1.0);
      printHandler.SetPageSize(pageSizes.pageSize);
      printHandler.SetPageOrientation(pageSizes.pageOrientation);
    }
  }

  /**
   * With every page rendering and a valid current page, a refresh in
   * single mode shows the current page alone.
   */
  lemma RefreshShowsCurrentPage(r: DisplayRefresher, before: LabelState, currentPage: int, displayScale: real)
    requires r.Wired() && RendersAll(r.pdf.document) && 0 <= currentPage < GetPageCount(r.pdf.document)
    requires !r.layout.adaptiveMode
    ensures var after := r.Refreshed(before, currentPage, displayScale);
            after.picture.Some? && DrawnPages(after.picture.value.canvas.commands) == [currentPage]
  {
    RenderedPagesAreUsable(r.pdf.document, currentPage, 96);
  }

  /**
   * With every page rendering and a valid current page, a refresh in
   * adaptive mode shows the pages from the current one up to
   * `pages_per_sheet` further, cut off at the end of the document.
   */
  lemma RefreshShowsCurrentSheet(r: DisplayRefresher, before: LabelState, currentPage: int, displayScale: real)
    requires r.Wired() && RendersAll(r.pdf.document) && 0 <= currentPage < GetPageCount(r.pdf.document)
    requires r.layout.adaptiveMode && r.layout.pagesPerSheet >= 1
    ensures var after := r.Refreshed(before, currentPage, displayScale);
            after.picture.Some? &&
            DrawnPages(after.picture.value.canvas.commands)
            == Range(currentPage, Min(currentPage + r.layout.pagesPerSheet, GetPageCount(r.pdf.document)))
  {
    AdaptivePictureShowsSheet(r.display, currentPage, displayScale);
  }
}
