/**
 * Output page size and orientation (page_size_handler.py): the size-name
 * table, the points-to-pixels conversion used on screen, and the
 * orientation normaliser.
 *
 * Qt's table of point sizes for each size id is foreign; a handler is given
 * it as `pointSizes` when it is made. `QPageLayout.pageSize()` does not
 * depend on the layout's orientation, so the point size a handler reports is
 * the size's own (portrait) one whatever the orientation; the orientation is
 * applied afterwards by `AdjustDimensionsForOrientation`.
 */
module PageSizes {
  import opened Base

  datatype SizeId = A0 | A1 | A2 | A3 | A4 | A5 | A6 | Letter | Legal | Tabloid

  /** The name the size menu uses for each size id. */
  function SizeName(id: SizeId): string {
    match id
    case A0 => "A0"
    case A1 => "A1"
    case A2 => "A2"
    case A3 => "A3"
    case A4 => "A4"
    case A5 => "A5"
    case A6 => "A6"
    case Letter => "Letter"
    case Legal => "Legal"
    case Tabloid => "Tabloid"
  }

  /** `_get_qpagesize_id`: a known name gives its own size; anything else A4. */
  function SizeIdFor(name: string): (id: SizeId)
    ensures (exists known :: SizeName(known) == name) ==> SizeName(id) == name
    ensures (forall known :: SizeName(known) != name) ==> id == A4
  {
    match name
    case "A0" => A0
    case "A1" => A1
    case "A2" => A2
    case "A3" => A3
    case "A4" => A4
    case "A5" => A5
    case "A6" => A6
    case "Letter" => Letter
    case "Legal" => Legal
    case "Tabloid" => Tabloid
    case _ => A4
  }

  /** Every size id survives the trip through its menu name. */
  lemma SizeNameRoundTrip(id: SizeId)
    ensures SizeIdFor(SizeName(id)) == id
  {
  }

  /** `int(points * (96 / 72))`: a length in points as whole pixels at 96 dpi. */
  function PointsToPixels(points: real): (px: int)
    ensures points >= 0.0 ==> px >= 0 && px as real <= points * 4.0 / 3.0 < px as real + 1.0
  {
    Trunc(points * (96.0 / 72.0))
  }

  /** Truncation keeps the order of non-negative lengths, so pixels keep the orientation. */
  lemma PointsToPixelsMonotone(a: real, b: real)
    requires 0.0 <= a <= b
    ensures PointsToPixels(a) <= PointsToPixels(b)
  {
  }

  class PageSizeHandler {
    /** Qt's point size of each size id (foreign). */
    const pointSizes: SizeId -> (real, real)
    var pageSize: string
    var pageOrientation: string

    constructor (pointSizes: SizeId -> (real, real))
      ensures this.pointSizes == pointSizes
      ensures pageSize == "A4" && pageOrientation == "portrait"
    {
      this.pointSizes := pointSizes;
      pageSize := "A4";
      pageOrientation := "portrait";
    }

    method SetPageSize(size: string)
      modifies this
      ensures pageSize == size && pageOrientation == old(pageOrientation)
    {
      pageSize := size;
    }

    method SetPageOrientation(orientation: string)
      modifies this
      ensures pageOrientation == orientation && pageSize == old(pageSize)
    {
      pageOrientation := orientation;
    }

    /** `get_page_size_points`: the configured size's own point size. */
    function GetPageSizePoints(): (real, real)
      reads this
    {
      pointSizes(SizeIdFor(pageSize))
    }

    /** `get_page_size_info`: the same size in whole pixels at 96 dpi. */
    function GetPageSizeInfo(): (px: (int, int))
      reads this
      ensures GetPageSizePoints().0 >= 0.0 ==>
                px.0 as real <= GetPageSizePoints().0 * 4.0 / 3.0 < px.0 as real + 1.0
      ensures GetPageSizePoints().1 >= 0.0 ==>
                px.1 as real <= GetPageSizePoints().1 * 4.0 / 3.0 < px.1 as real + 1.0
    {
      var (width, height) := GetPageSizePoints();
      (PointsToPixels(width), PointsToPixels(height))
    }

    /**
     * `adjust_dimensions_for_orientation`: under "portrait" the result is
     * never wider than tall, under "landscape" never taller than wide; the
     * pair is swapped only when needed, and any other orientation string
     * leaves it alone. The source page's size is accepted and ignored.
     */
    function AdjustDimensionsForOrientation(width: real, height: real, pdfWidth: real, pdfHeight: real): (r: (real, real))
      reads this
      ensures r == (width, height) || r == (height, width)
      ensures pageOrientation == "portrait" ==> r.0 <= r.1
      ensures pageOrientation == "landscape" ==> r.0 >= r.1
      ensures pageOrientation == "portrait" && width <= height ==> r == (width, height)
      ensures pageOrientation == "landscape" && width >= height ==> r == (width, height)
      ensures pageOrientation != "portrait" && pageOrientation != "landscape" ==> r == (width, height)
    {
      if pageOrientation == "portrait" then
        if width > height then (height, width) else (width, height)
      else if pageOrientation == "landscape" then
        if width < height then (height, width) else (width, height)
      else (width, height)
    }
  }

  /** Normalising an already normalised pair changes nothing. */
  lemma AdjustIdempotent(h: PageSizeHandler, width: real, height: real, pdfWidth: real, pdfHeight: real)
    ensures var (w, v) := h.AdjustDimensionsForOrientation(width, height, pdfWidth, pdfHeight);
            h.AdjustDimensionsForOrientation(w, v, pdfWidth, pdfHeight) == (w, v)
  {
  }

  /** The source page's own size never influences the normalised output size. */
  lemma AdjustIgnoresSourcePage(h: PageSizeHandler, width: real, height: real,
                                pdfWidth: real, pdfHeight: real, otherWidth: real, otherHeight: real)
    ensures h.AdjustDimensionsForOrientation(width, height, pdfWidth, pdfHeight)
         == h.AdjustDimensionsForOrientation(width, height, otherWidth, otherHeight)
  {
  }
}
