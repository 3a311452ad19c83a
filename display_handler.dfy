/**
 * The screen path (display_handler.py): the page, or the sheet of pages,
 * painted onto a white pixmap the size of the configured paper at 96 dpi,
 * then resized by the display scale and handed to the page label.
 *
 * The pixmap is a `Canvas` (its size and the painter commands drawn into
 * it); Qt's smooth resampling is not modelled, only the box the pixmap is
 * asked to fit (`Resize`).
 */
module Display {
  import opened Base
  import opened Pdf
  import opened Painting
  import opened Scaling
  import opened PageSizes
  import opened Layout
  import opened LayoutDrawing

  /**
   * How the painted pixmap is resized before it is shown: not at all, or
   * smoothly into the box `width x height`, keeping its aspect ratio.
   */
  datatype Resize = Natural | KeepAspect(width: int, height: int)

  /** What the label is given: the painted canvas and the resize applied to it. */
  datatype Picture = Picture(canvas: Canvas, resize: Resize)

  /**
   * The label's state: the picture it shows, and the picture whose size its
   * size was last pinned to by `setFixedSize` (a pin outlives later pictures).
   */
  datatype LabelState = LabelState(picture: Option<Picture>, pinned: Option<Picture>)

  /** The QLabel that shows the page. */
  class PageLabel {
    var picture: Option<Picture>
    var pinned: Option<Picture>

    constructor ()
      ensures picture == None && pinned == None
    {
      picture := None;
      pinned := None;
    }

    function State(): LabelState
      reads this
    {
      LabelState(picture, pinned)
    }

    method SetPixmap(p: Picture)
      modifies this
      ensures picture == Some(p) && pinned == old(pinned)
    {
      picture := Some(p);
    }

    method SetFixedSize(p: Picture)
      modifies this
      ensures pinned == Some(p) && picture == old(picture)
    {
      pinned := Some(p);
    }

    method Clear()
      modifies this
      ensures picture == None && pinned == old(pinned)
    {
      picture := None;
    }
  }

  /**
   * The display-scale step: a factor other than 1.0 asks for the box
   * `(int(w * f), int(h * f))`; exactly 1.0 leaves the pixmap as painted.
   */
  function ResizeFor(width: int, height: int, displayScale: real): (r: Resize)
    ensures r.Natural? <==> displayScale == 1.0
    ensures r.KeepAspect? && width as real * displayScale >= 0.0 ==>
              r.width as real <= width as real * displayScale < r.width as real + 1.0
    ensures r.KeepAspect? && height as real * displayScale >= 0.0 ==>
              r.height as real <= height as real * displayScale < r.height as real + 1.0
  {
    if displayScale != 1.0
    then KeepAspect(Trunc(width as real * displayScale), Trunc(height as real * displayScale))
    else Natural
  }

  /**
   * The content scale of the single-page view: the cell path's
   * `min(W / imgW, H / imgH) * scale_factor`, with a 0.9 margin on top.
   */
  function SingleScale(width: real, height: real, img: Raster, scaleFactor: real): real
    requires !IsNull(img)
  {
    CellScale(width, height, img, scaleFactor) * 0.9
  }

  /**
   * What `display_single_page` paints on a `width x height` canvas: nothing
   * (and no picture) when the page does not render, otherwise the page
   * drawn once, centred on the canvas, with the painter's transform
   * restored afterwards.
   */
  function SingleCommands(doc: Option<Document>, scaleFactor: real, rotation: int,
                          width: int, height: int, currentPage: int): (r: Option<seq<Command>>)
    ensures r.Some? <==> PageRenders(doc, currentPage)
    ensures r.Some? ==> DrawnPages(r.value) == [currentPage] && NewPages(r.value) == 0
    ensures r.Some? ==> forall st :: Replay(st, r.value) == st
  {
    match RenderPage(doc, currentPage, 96)
    case None => None
    case Some(img) =>
      if IsNull(img) then None
      else Some(CentredDrawing(img, rotation, width as real / 2.0, height as real / 2.0,
                               SingleScale(width as real, height as real, img, scaleFactor)))
  }

  /** `min(pages_per_sheet, page_count - current_page)`: how many pages the adaptive view shows. */
  function AdaptiveCount(total: int, pagesPerSheet: int, currentPage: int): int {
    Min(pagesPerSheet, total - currentPage)
  }

  /** What `display_adaptive_pages` paints: the sheet starting at `currentPage`. */
  function AdaptiveCommands(scene: Scene, pagesPerSheet: int, width: int, height: int, currentPage: int): seq<Command> {
    SheetCommands(scene, pagesPerSheet, width as real, height as real, currentPage,
                  AdaptiveCount(GetPageCount(scene.doc), pagesPerSheet, currentPage))
  }

  // ---------------------------------------------------------------------
  // Properties of the two views.

  /**
   * With a zoom between 0 and 1 the single page takes at most 90% of the
   * canvas on each axis, and at zoom 1 exactly 90% on one of them.
   */
  lemma SingleViewMargin(width: real, height: real, img: Raster, scaleFactor: real)
    requires !IsNull(img) && width >= 0.0 && height >= 0.0 && 0.0 <= scaleFactor <= 1.0
    ensures var s := SingleScale(width, height, img, scaleFactor);
            0.0 <= s && s * img.width as real <= 0.9 * width && s * img.height as real <= 0.9 * height
    ensures var s := SingleScale(width, height, img, scaleFactor);
            scaleFactor == 1.0 ==> s * img.width as real == 0.9 * width || s * img.height as real == 0.9 * height
  {
    var c := CellScale(width, height, img, scaleFactor);
    ScaledRasterFitsCell(width, height, img, scaleFactor);
    if scaleFactor == 1.0 {
      FullZoomTouchesCell(width, height, img);
    }
    MarginScale(c, img.width as real, width);
    MarginScale(c, img.height as real, height);
  }

  lemma MarginScale(c: real, pixels: real, extent: real)
    ensures (c * 0.9) * pixels == 0.9 * (c * pixels)
    ensures c * pixels <= extent ==> (c * 0.9) * pixels <= 0.9 * extent
  {
  }

  /**
   * Upright or upside down, with a zoom between 0 and 1, every point of
   * the single page lands on the canvas, give or take the half pixel that
   * `int(-w / 2)` shifts an odd-sized raster by.
   */
  lemma SingleViewOnCanvas(img: Raster, degrees: int, width: real, height: real, scaleFactor: real, p: Point)
    requires !IsNull(img) && width >= 0.0 && height >= 0.0 && 0.0 <= scaleFactor <= 1.0
    requires degrees == 0 || degrees == 180
    requires Trunc(-(img.width as real) / 2.0) as real <= p.x <= (Trunc(-(img.width as real) / 2.0) + img.width) as real
    requires Trunc(-(img.height as real) / 2.0) as real <= p.y <= (Trunc(-(img.height as real) / 2.0) + img.height) as real
    ensures var s := SingleScale(width, height, img, scaleFactor);
            var q := MapPoint([Translate(width / 2.0, height / 2.0), Rotate(degrees), Scale(s, s)], p);
            -s / 2.0 <= q.x <= width + s / 2.0 && -s / 2.0 <= q.y <= height + s / 2.0
  {
    var s := SingleScale(width, height, img, scaleFactor);
    SingleViewMargin(width, height, img, scaleFactor);
    RasterOnCanvas(img, degrees, width, height, s, p);
  }

  /** The containment for any isotropic scale that fits the raster into the canvas. */
  lemma RasterOnCanvas(img: Raster, degrees: int, width: real, height: real, s: real, p: Point)
    requires !IsNull(img) && (degrees == 0 || degrees == 180) && width >= 0.0 && height >= 0.0
    requires 0.0 <= s && s * img.width as real <= 0.9 * width && s * img.height as real <= 0.9 * height
    requires Trunc(-(img.width as real) / 2.0) as real <= p.x <= (Trunc(-(img.width as real) / 2.0) + img.width) as real
    requires Trunc(-(img.height as real) / 2.0) as real <= p.y <= (Trunc(-(img.height as real) / 2.0) + img.height) as real
    ensures var q := MapPoint([Translate(width / 2.0, height / 2.0), Rotate(degrees), Scale(s, s)], p);
            -s / 2.0 <= q.x <= width + s / 2.0 && -s / 2.0 <= q.y <= height + s / 2.0
  {
    MapCentredHalfTurn(width / 2.0, height / 2.0, degrees, s, p);
    RasterWithinBox(img, degrees, 0.0, 0.0, width, height, s, p);
  }

  /**
   * With every page rendering, the adaptive view starting at a valid page
   * shows the pages `currentPage .. min(currentPage + pagesPerSheet, total) - 1`,
   * in order.
   */
  lemma AdaptiveViewShowsSheet(scene: Scene, pagesPerSheet: int, width: int, height: int, currentPage: int)
    requires RendersAll(scene.doc) && currentPage >= 0 && pagesPerSheet >= 1
    ensures var total := GetPageCount(scene.doc);
            DrawnPages(AdaptiveCommands(scene, pagesPerSheet, width, height, currentPage))
            == Range(Min(currentPage, total), Min(currentPage + pagesPerSheet, total))
  {
    var total := GetPageCount(scene.doc);
    SheetDrawsItsPages(scene, pagesPerSheet, width as real, height as real, currentPage,
                       AdaptiveCount(total, pagesPerSheet, currentPage));
    SheetWindow(currentPage, pagesPerSheet, total);
  }

  /** The adaptive view breaks no page and leaves the painter's transform and save stack as it found them. */
  lemma AdaptiveViewBalanced(scene: Scene, pagesPerSheet: int, width: int, height: int, currentPage: int, st: PaintState)
    ensures NewPages(AdaptiveCommands(scene, pagesPerSheet, width, height, currentPage)) == 0
    ensures Replay(st, AdaptiveCommands(scene, pagesPerSheet, width, height, currentPage)) == st
  {
    SheetBalanced(scene, pagesPerSheet, width as real, height as real, currentPage,
                  AdaptiveCount(GetPageCount(scene.doc), pagesPerSheet, currentPage), st);
  }

  class DisplayHandler {
    const pageLabel: PageLabel
    const pdf: PdfHandler
    const scaling: ScalingHandler
    const pageSizes: PageSizeHandler
    const layout: LayoutHandler
    var displayScaleFactor: real

    constructor (pageLabel: PageLabel, pdf: PdfHandler, scaling: ScalingHandler,
                 pageSizes: PageSizeHandler, layout: LayoutHandler)
      ensures this.pageLabel == pageLabel && this.pdf == pdf && this.scaling == scaling
      ensures this.pageSizes == pageSizes && this.layout == layout
      ensures displayScaleFactor == 1.0
    {
      this.pageLabel := pageLabel;
      this.pdf := pdf;
      this.scaling := scaling;
      this.pageSizes := pageSizes;
      this.layout := layout;
      displayScaleFactor := 1.0;
    }

    /**
     * `get_natural_display_size`: the configured paper, turned to the
     * configured orientation, in whole pixels at 96 dpi; the size both
     * views paint on.
     */
    function GetNaturalDisplaySize(currentPage: int): (size: (int, int))
      reads pdf, pageSizes
      ensures var (w, h) := pageSizes.GetPageSizePoints();
              size == (PointsToPixels(w), PointsToPixels(h)) || size == (PointsToPixels(h), PointsToPixels(w))
    {
      var (pdfWidth, pdfHeight) := GetPageSize(pdf.document, currentPage);
      var (outputWidth, outputHeight) := pageSizes.GetPageSizePoints();
      var (width, height) := pageSizes.AdjustDimensionsForOrientation(outputWidth, outputHeight, pdfWidth, pdfHeight);
      (PointsToPixels(width), PointsToPixels(height))
    }

    /**
     * The picture `display_single_page` hands the label at the given display
     * scale: none when the page does not render, otherwise the canvas of the
     * natural size with the current page drawn on it once.
     */
    function SinglePicture(currentPage: int, displayScale: real): (p: Option<Picture>)
      reads pdf, scaling, pageSizes
      ensures p.Some? <==> PageRenders(pdf.document, currentPage)
      ensures p.Some? ==> (p.value.canvas.width, p.value.canvas.height) == GetNaturalDisplaySize(currentPage)
      ensures p.Some? ==> DrawnPages(p.value.canvas.commands) == [currentPage]
      ensures p.Some? ==> (p.value.resize.Natural? <==> displayScale == 1.0)
    {
      var (width, height) := GetNaturalDisplaySize(currentPage);
      match SingleCommands(pdf.document, scaling.scaleFactor, scaling.rotationAngle, width, height, currentPage)
      case None => None
      case Some(cmds) => Some(Picture(Canvas(width, height, cmds), ResizeFor(width, height, displayScale)))
    }

    /** The picture `display_adaptive_pages` hands the label at the given display scale. */
    function AdaptivePicture(currentPage: int, displayScale: real): (p: Picture)
      reads pdf, scaling, pageSizes, layout
      ensures (p.canvas.width, p.canvas.height) == GetNaturalDisplaySize(currentPage)
      ensures p.resize.Natural? <==> displayScale == 1.0
    {
      var (width, height) := GetNaturalDisplaySize(currentPage);
      var scene := Scene(pdf.document, scaling.scaleFactor, scaling.rotationAngle);
      Picture(Canvas(width, height, AdaptiveCommands(scene, layout.pagesPerSheet, width, height, currentPage)),
              ResizeFor(width, height, displayScale))
    }

    /**
     * `display_single_page`: when the page renders, the label shows it on
     * the natural canvas at the current display scale; when it does not,
     * painting ends and the label keeps what it showed.
     */
    method DisplaySinglePage(currentPage: int)
      modifies pageLabel
      ensures pageLabel.picture == if SinglePicture(currentPage, displayScaleFactor).Some?
                               then SinglePicture(currentPage, displayScaleFactor) else old(pageLabel.picture)
      ensures pageLabel.pinned == old(pageLabel.pinned)
    {
      var (pdfWidth, pdfHeight) := GetPageSize(pdf.document, currentPage);
      var (outputWidth, outputHeight) := pageSizes.GetPageSizePoints();
      var (adjustedWidth, adjustedHeight) :=
        pageSizes.AdjustDimensionsForOrientation(outputWidth, outputHeight, pdfWidth, pdfHeight);
      var width, height := PointsToPixels(adjustedWidth), PointsToPixels(adjustedHeight);
      var painter := new Painter(false);
      var img := RenderPage(pdf.document, currentPage, 96);
      assert (width, height) == GetNaturalDisplaySize(currentPage);
      if img.None? || IsNull(img.value) {
        assert SinglePicture(currentPage, displayScaleFactor).None?;
        return;
      }
      var raster := img.value;
      PaintSinglePage(painter, raster, width, height);
      var output := Picture(Canvas(width, height, painter.log), ResizeFor(width, height, displayScaleFactor));
      SinglePictureRenders(this, currentPage, displayScaleFactor, raster);
      pageLabel.SetPixmap(output);
    }

    /**
     * The painting step of `display_single_page` on a fresh painter: the
     * content scale from the two fit ratios and the zoom, with the 0.9
     * margin, then the centred drawing at the canvas centre.
     */
    method PaintSinglePage(painter: Painter, raster: Raster, width: int, height: int)
      requires !IsNull(raster) && painter.log == []
      modifies painter
      ensures painter.log == CentredDrawing(raster, scaling.rotationAngle, width as real / 2.0, height as real / 2.0,
                                            SingleScale(width as real, height as real, raster, scaling.scaleFactor))
    {
      var contentScaleFactor := scaling.scaleFactor;
      var scaleX := AxisScale(width as real, raster.width, contentScaleFactor);
      var scaleY := AxisScale(height as real, raster.height, contentScaleFactor);
      var finalContentScale := MinReal(scaleX, scaleY) * 0.9;
      PaintCentred(painter, raster, scaling.rotationAngle, width as real / 2.0, height as real / 2.0, finalContentScale);
      assert painter.log == [] + CentredDrawing(raster, scaling.rotationAngle, width as real / 2.0, height as real / 2.0,
                                                finalContentScale);
    }

    /**
     * `display_adaptive_pages`: the label shows the sheet starting at
     * `currentPage`, holding `min(pages_per_sheet, pages left)` pages, at the
     * current display scale, and its size is pinned to that picture.
     */
    method DisplayAdaptivePages(currentPage: int)
      modifies pageLabel
      ensures pageLabel.State() == LabelState(Some(AdaptivePicture(currentPage, displayScaleFactor)),
                                          Some(AdaptivePicture(currentPage, displayScaleFactor)))
    {
      var (pdfWidth, pdfHeight) := GetPageSize(pdf.document, currentPage);
      var (outputWidth, outputHeight) := pageSizes.GetPageSizePoints();
      var (adjustedWidth, adjustedHeight) :=
        pageSizes.AdjustDimensionsForOrientation(outputWidth, outputHeight, pdfWidth, pdfHeight);
      var targetWidth, targetHeight := PointsToPixels(adjustedWidth), PointsToPixels(adjustedHeight);
      var painter := new Painter(false);
      var remainingPages := GetPageCount(pdf.document) - currentPage;
      var pageCount := Min(layout.pagesPerSheet, remainingPages);
      layout.DrawAdaptivePages(painter, pdf, scaling, targetWidth as real, targetHeight as real, currentPage, pageCount);
      var combined := Picture(Canvas(targetWidth, targetHeight, painter.log),
                              ResizeFor(targetWidth, targetHeight, displayScaleFactor));
      assert combined == AdaptivePicture(currentPage, displayScaleFactor);
      pageLabel.SetPixmap(combined);
      pageLabel.SetFixedSize(combined);
    }
  }

  /**
   * The six painter calls of the single-page view: save, move to the
   * centre, turn, scale, draw the raster centred on the origin, restore.
   */
  method PaintCentred(painter: Painter, raster: Raster, degrees: int, cx: real, cy: real, s: real)
    modifies painter
    ensures painter.log == old(painter.log) + CentredDrawing(raster, degrees, cx, cy, s)
  {
    ghost var log0 := painter.log;
    painter.Save();
    painter.Translate(cx, cy);
    painter.Rotate(degrees);
    painter.Scale(s, s);
    painter.DrawPixmap(Trunc(-(raster.width as real) / 2.0), Trunc(-(raster.height as real) / 2.0), raster);
    painter.Restore();
    assert painter.log == log0 + [Command.Save, Apply(TransformOp.Translate(cx, cy)), Apply(TransformOp.Rotate(degrees)),
                                  Apply(TransformOp.Scale(s, s)),
                                  Command.DrawPixmap(Trunc(-(raster.width as real) / 2.0), Trunc(-(raster.height as real) / 2.0), raster),
                                  Command.Restore];
  }

  /** When the current page renders, the single picture is that page's centred drawing on the natural canvas. */
  lemma SinglePictureRenders(d: DisplayHandler, currentPage: int, displayScale: real, raster: Raster)
    requires RenderPage(d.pdf.document, currentPage, 96) == Some(raster) && !IsNull(raster)
    ensures var (width, height) := d.GetNaturalDisplaySize(currentPage);
            var cmds := CentredDrawing(raster, d.scaling.rotationAngle, width as real / 2.0, height as real / 2.0,
                                       SingleScale(width as real, height as real, raster, d.scaling.scaleFactor));
            d.SinglePicture(currentPage, displayScale) == Some(Picture(Canvas(width, height, cmds), ResizeFor(width, height, displayScale)))
  {
  }

  /**
   * Under "portrait" the natural size is never wider than tall and under
   * "landscape" never taller than wide (for a paper of non-negative size).
   */
  lemma NaturalSizeOrientation(d: DisplayHandler, currentPage: int)
    requires d.pageSizes.GetPageSizePoints().0 >= 0.0 && d.pageSizes.GetPageSizePoints().1 >= 0.0
    ensures var size := d.GetNaturalDisplaySize(currentPage);
            (d.pageSizes.pageOrientation == "portrait" ==> size.0 <= size.1) &&
            (d.pageSizes.pageOrientation == "landscape" ==> size.0 >= size.1)
  {
    var (pdfWidth, pdfHeight) := GetPageSize(d.pdf.document, currentPage);
    var (w, h) := d.pageSizes.GetPageSizePoints();
    var (aw, ah) := d.pageSizes.AdjustDimensionsForOrientation(w, h, pdfWidth, pdfHeight);
    if aw <= ah {
      PointsToPixelsMonotone(aw, ah);
    } else {
      PointsToPixelsMonotone(ah, aw);
    }
  }

  /**
   * With every page rendering, the adaptive picture for a valid page shows
   * the pages `currentPage .. min(currentPage + pages_per_sheet, total) - 1`.
   */
  lemma AdaptivePictureShowsSheet(d: DisplayHandler, currentPage: int, displayScale: real)
    requires RendersAll(d.pdf.document) && currentPage >= 0 && d.layout.pagesPerSheet >= 1
    ensures var total := GetPageCount(d.pdf.document);
            DrawnPages(d.AdaptivePicture(currentPage, displayScale).canvas.commands)
            == Range(Min(currentPage, total), Min(currentPage + d.layout.pagesPerSheet, total))
  {
    var (width, height) := d.GetNaturalDisplaySize(currentPage);
    AdaptiveViewShowsSheet(Scene(d.pdf.document, d.scaling.scaleFactor, d.scaling.rotationAngle),
                           d.layout.pagesPerSheet, width, height, currentPage);
  }

  /** Which page is current never changes the natural size: the source page's own size is ignored. */
  lemma NaturalSizeIgnoresPage(d: DisplayHandler, page: int, other: int)
    ensures d.GetNaturalDisplaySize(page) == d.GetNaturalDisplaySize(other)
  {
    var (w, h) := d.pageSizes.GetPageSizePoints();
    var (pw, ph) := GetPageSize(d.pdf.document, page);
    var (ow, oh) := GetPageSize(d.pdf.document, other);
    AdjustIgnoresSourcePage(d.pageSizes, w, h, pw, ph, ow, oh);
  }
}
