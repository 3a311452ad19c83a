/**
 * Printer configuration (print_handler.py): the size and orientation the
 * printer is given before a print or a preview. The printer itself is
 * foreign; the model keeps only the page layout it was last given.
 */
module Printing {
  import opened PageSizes

  datatype Orientation = Portrait | Landscape

  datatype Margins = Margins(left: real, top: real, right: real, bottom: real)

  /** What `QPageLayout(size, orientation, margins)` is built from. */
  datatype PageLayout = PageLayout(size: SizeId, orientation: Orientation, margins: Margins)

  class Printer {
    var pageLayout: PageLayout

    constructor (initial: PageLayout)
      ensures pageLayout == initial
    {
      pageLayout := initial;
    }

    method SetPageLayout(layout: PageLayout)
      modifies this
      ensures pageLayout == layout
    {
      pageLayout := layout;
    }
  }

  class PrintHandler {
    var pageSize: string
    var pageOrientation: string

    constructor ()
      ensures pageSize == "A4" && pageOrientation == "portrait"
    {
      pageSize := "A4";
      pageOrientation := "portrait";
    }

    method SetPageSize(size: string)
      modifies this
      ensures pageSize == size && pageOrientation == old(pageOrientation)
    {
      pageSize := size;
    }

    method SetPageOrientation(orientation: string)
      modifies this
      ensures pageOrientation == orientation && pageSize == old(pageSize)
    {
      pageOrientation := orientation;
    }

    /**
     * The layout `configure_printer` builds: the named size (A4 for an
     * unknown name), landscape for exactly "landscape" and portrait for any
     * other string, and no margins.
     */
    function RequestedLayout(): (layout: PageLayout)
      reads this
      ensures layout.orientation == Landscape <==> pageOrientation == "landscape"
      ensures layout.margins == Margins(0.0, 0.0, 0.0, 0.0)
      ensures (exists known :: SizeName(known) == pageSize) ==> SizeName(layout.size) == pageSize
      ensures (forall known :: SizeName(known) != pageSize) ==> layout.size == A4
    {
      var orientation := if pageOrientation == "landscape" then Landscape else Portrait;
      PageLayout(SizeIdFor(pageSize), orientation, Margins(0.0, 0.0, 0.0, 0.0))
    }

    /** `configure_printer`: hands the requested layout to the printer. */
    method ConfigurePrinter(printer: Printer)
      modifies printer
      ensures printer.pageLayout == RequestedLayout()
    {
      var orientation := if pageOrientation == "landscape" then Landscape else Portrait;
      printer.SetPageLayout(PageLayout(SizeIdFor(pageSize), orientation, Margins(0.0, 0.0, 0.0, 0.0)));
    }

    function GetOrientation(): (o: string)
      reads this
      ensures o == pageOrientation
    {
      pageOrientation
    }
  }
}
