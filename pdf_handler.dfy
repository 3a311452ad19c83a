/**
 * The page source (pdf_handler.py). The PDF library is foreign: a loaded
 * document is abstracted as the intrinsic size of each page, in points,
 * together with a flag saying whether its pages rasterise; a failed
 * rasterisation yields a null (0 x 0) pixmap, which callers test with
 * `not img` exactly as they would a null QPixmap.
 */
module Pdf {
  import opened Base

  /** An intrinsic page size in points (1/72 inch). */
  datatype PageSize = PageSize(width: real, height: real)

  datatype Document = Document(pages: seq<PageSize>, rasterises: bool)

  /**
   * A rendered page: which page, the zoom it was rendered at, and its pixel
   * size. A null raster has a zero side.
   */
  datatype Raster = Raster(page: int, zoom: real, width: int, height: int)

  /** Qt's `QPixmap.isNull()`, i.e. what `not img` tests. */
  predicate IsNull(img: Raster) {
    img.width <= 0 || img.height <= 0
  }

  /**
   * `get_page_count`: a fitz document is truthy only when it has pages, and
   * no document at all counts as zero pages.
   */
  function GetPageCount(doc: Option<Document>): (n: nat)
    ensures doc.None? ==> n == 0
    ensures doc.Some? ==> n == |doc.value.pages|
  {
    if doc.Some? && |doc.value.pages| > 0 then |doc.value.pages| else 0
  }

  /** `get_page`: the page exists only for `0 <= index < count`. */
  function GetPage(doc: Option<Document>, index: int): (p: Option<PageSize>)
    ensures p.Some? <==> 0 <= index < GetPageCount(doc)
    ensures p.Some? ==> p.value == doc.value.pages[index]
  {
    if doc.Some? && 0 <= index < |doc.value.pages| then Some(doc.value.pages[index]) else None
  }

  /** `get_page_size`: (0, 0) stands for an invalid index. */
  function GetPageSize(doc: Option<Document>, index: int): (s: (real, real))
    ensures 0 <= index < GetPageCount(doc) ==>
              s == (doc.value.pages[index].width, doc.value.pages[index].height)
    ensures !(0 <= index < GetPageCount(doc)) ==> s == (0.0, 0.0)
  {
    match GetPage(doc, index)
    case Some(p) => (p.width, p.height)
    case None => (0.0, 0.0)
  }

  /** `get_page_orientation`: landscape only for a strictly wider page. */
  function GetPageOrientation(doc: Option<Document>, index: int): (o: string)
    ensures o == "landscape" || o == "portrait"
    ensures o == "landscape" <==>
              0 <= index < GetPageCount(doc) &&
              doc.value.pages[index].width > doc.value.pages[index].height
  {
    var (width, height) := GetPageSize(doc, index);
    if width > height then "landscape" else "portrait"
  }

  /** The pixel extent PyMuPDF gives a side of `points` at `zoom`. */
  function RasterExtent(points: real, zoom: real): int {
    Ceil(points * zoom)
  }

  /**
   * `render_page`: nothing for an invalid index; otherwise a raster at zoom
   * `dpi / 72`, which is null when the document does not rasterise.
   */
  function RenderPage(doc: Option<Document>, index: int, dpi: int): (r: Option<Raster>)
    ensures r.Some? <==> 0 <= index < GetPageCount(doc)
    ensures r.Some? ==> r.value.page == index && r.value.zoom * 72.0 == dpi as real
    ensures r.Some? && !doc.value.rasterises ==> IsNull(r.value)
  {
    match GetPage(doc, index)
    case None => None
    case Some(p) =>
      var zoom := dpi as real / 72.0;
      if doc.value.rasterises
      then Some(Raster(index, zoom, RasterExtent(p.width, zoom), RasterExtent(p.height, zoom)))
      else Some(Raster(index, zoom, 0, 0))
  }

  /** Every page of a loaded document renders to a non-null raster. */
  ghost predicate RendersAll(doc: Option<Document>) {
    doc.Some? && doc.value.rasterises &&
    forall k :: 0 <= k < |doc.value.pages| ==>
      doc.value.pages[k].width > 0.0 && doc.value.pages[k].height > 0.0
  }

  lemma RenderedPagesAreUsable(doc: Option<Document>, index: int, dpi: int)
    requires RendersAll(doc) && dpi > 0 && 0 <= index < GetPageCount(doc)
    ensures RenderPage(doc, index, dpi).Some? && !IsNull(RenderPage(doc, index, dpi).value)
  {
    var p := doc.value.pages[index];
    var zoom := dpi as real / 72.0;
    assert p.width * zoom > 0.0 && p.height * zoom > 0.0;
  }

  class PdfHandler {
    var document: Option<Document>

    constructor ()
      ensures document == None
    {
      document := None;
    }

    /**
     * `load_pdf`: `outcome` is what the PDF library produced for the chosen
     * file, None when opening raised. A failure keeps the previous document.
     */
    method LoadPdf(outcome: Option<Document>) returns (ok: bool)
      modifies this
      ensures ok <==> outcome.Some?
      ensures document == if ok then outcome else old(document)
    {
      if outcome.Some? {
        document := outcome;
        ok := true;
      } else {
        ok := false;
      }
    }

    /**
     * `close`: a document without pages is falsy and is left in place; in
     * either case no pages remain.
     */
    method Close()
      modifies this
      ensures document == if old(document).Some? && |old(document).value.pages| > 0
                          then None else old(document)
      ensures GetPageCount(document) == 0
    {
      if document.Some? && |document.value.pages| > 0 {
        document := None;
      }
    }
  }
}
