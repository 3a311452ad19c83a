# pdf-printer, modelled in Dafny

The system is a small desktop PDF printer. It loads a PDF document and shows one page, or one "sheet" of several pages laid out on a grid. The user can zoom, rotate, pick an output paper size and orientation, fit the picture to the window, and step through the document. Then they can preview or print it with the same N-up layout.

This project models the program's core:
- the PDF wrapper;
- the page-size and print-settings handlers;
- the grid layout engine and the sheet sequencer;
- the on-screen views and the refresh dispatcher;
- the main window's handlers.

The modules follow the source files:

| module | file | form |
|---|---|---|
| `Base` | (shared) | Python arithmetic: `int()` truncation, `//` floor division, `min` on floats, integer ranges |
| `Pdf` | pdf_handler.py | a document value (page sizes, whether it rasterises) and `PdfHandler`, the class that holds the open document |
| `Painting` | (shared) | `QPainter` modelled as a `Painter` class that appends to a command log. `Replay` gives the log's transform and save-stack semantics. `DrawnPages` gives which PDF pages it draws. `NewPages` counts printer page breaks. `MapPoint` applies a transform to a point. |
| `Scaling` | scaling_handler.py | `ScalingHandler` (zoom factor, rotation angle) |
| `PageSizes` | page_size_handler.py | the size-name mapping, point-to-pixel conversion, `PageSizeHandler` and the orientation adjustment |
| `Printing` | print_handler.py | `PrintHandler`, and the page layout it requests of a `Printer` |
| `Layout` | layout_handler.py | the grid table, cell geometry, what one cell and one sheet paint, and `LayoutHandler` |
| `LayoutDrawing` | layout_drawer.py | the sheet sequencer: sheet count, sheet windows, page breaks, and `LayoutDrawer` |
| `Display` | display_handler.py | the page label, the single-page and sheet views, the natural display size, and `DisplayHandler` |
| `Refresh` | display_refresher.py | `DisplayRefresher`, which chooses the view |
| `Navigation` | main.py | the window's page arithmetic as pure functions: sheet of a page, previous/next targets, slider target, button state, page indicator, fit-to-window scale, wheel step |
| `App` | main.py | `PDFPrinterApp`, the window's state and its handlers, plus the print and preview pipelines |

Mutable objects are classes whose methods carry `modifies` clauses and state their whole new state. What the program paints is a command log. It is specified by functions (`CellCommands`, `SheetCommands`, `LayoutCommands`, `PrintedSheets`). Lemmas state what those logs draw:
- which pages are drawn, in which order;
- that the painter's transform and save stack come back unchanged;
- how many printer page breaks are issued;
- where the raster lands.

The main results are these:
- Preview and print both draw every page of a rasterising document exactly once, in order. They issue one page break fewer than there are sheets (`LayoutDrawsEveryPage`, `LayoutPageBreaks`, `PrintMatchesPreview`).
- Each grid cell lies inside the sheet (`CellInsideTarget`). A page scaled at zoom ≤ 1 fits its cell (`ScaledRasterFitsCell`, `DrawnRasterStaysInCell`).
- In adaptive mode, "previous" and "next" move by whole sheets and stay inside the document. The buttons are enabled exactly when a move exists (`PrevMovesBySheet`, `NextMovesBySheet`, `ButtonsMatchMoves`).
- Moving the slider to a value and reading the indicator back gives that value (`ScrollRoundTrip`). The window invariant `PDFPrinterApp.Valid` is kept by every handler: the current page is in range, and the slider and buttons match the position.

## Model

| member | source | states |
|---|---|---|
| Base.Trunc | display_handler.py:32-33 | Python `int()` on a float truncates toward zero: the result is at most one unit below a non-negative argument and at most one unit above a non-positive one |
| Base.Ceil | pdf_handler.py:40-52 | the smallest integer not below its argument (used for the pixel extent of a rendered page) |
| Base.FloorDiv | main.py:150-151 | Python `//`: for a positive divisor `q*b <= a < q*b + b`, and the mirrored bound for a negative one |
| Base.MinReal | layout_handler.py:99 | Python `min` on two floats: not above either argument, and equal to one of them |
| Base.Range | layout_drawer.py:20 | `range(lo, hi)` has `hi - lo` elements, and none when `hi <= lo` |
| Pdf.GetPageCount | pdf_handler.py:20-24 | no document counts as zero pages; otherwise the document's page count |
| Pdf.GetPage | pdf_handler.py:26-30 | a page exactly when `0 <= index < count`, and then the page at that index |
| Pdf.GetPageSize | pdf_handler.py:32-38 | a valid index gives that page's width and height in points; any other index gives (0, 0) |
| Pdf.GetPageOrientation | pdf_handler.py:54-60 | "landscape" exactly when the index is valid and the page is wider than tall; "portrait" otherwise |
| Pdf.RenderPage | pdf_handler.py:40-52 | with `RasterExtent`, each side `ceil(points * zoom)`: a raster exactly when the index is valid. It is of that page, at zoom `dpi / 72`, and null when the document does not rasterise |
| Pdf.RenderedPagesAreUsable | pdf_handler.py:40-52 | with a rasterising document, every valid page at a positive DPI renders to a non-null raster |
| Pdf.PdfHandler.constructor | pdf_handler.py:8-9 | a new handler holds no document |
| Pdf.PdfHandler.LoadPdf | pdf_handler.py:11-18 | reports success exactly when the file opens. Then the document is replaced; on failure the previous document stays |
| Pdf.PdfHandler.Close | pdf_handler.py:62-66 | a non-empty document is dropped, an empty one is left alone; afterwards the page count is 0 |
| Painting.Painter.constructor | main.py:335 | a new painter has an empty log, the identity transform and an empty save stack |
| Painting.Painter.Save | layout_handler.py:102 | appends a save and pushes the current transform |
| Painting.Painter.Restore | layout_handler.py:119 | appends a restore and pops the saved transform; on an empty stack nothing changes |
| Painting.Painter.Translate | layout_handler.py:107 | appends the translation and composes it onto the transform |
| Painting.Painter.Rotate | layout_handler.py:110 | appends the rotation and composes it onto the transform |
| Painting.Painter.Scale | layout_handler.py:113 | appends the scaling and composes it onto the transform |
| Painting.Painter.DrawPixmap | layout_handler.py:116 | appends the drawing of the raster at (x, y); the transform is unchanged |
| Painting.Painter.DrawCanvas | main.py:435 | appends the drawing of an off-screen pixmap at (x, y); the transform is unchanged |
| Painting.Painter.NewPage | main.py:406 | appends a printer page break; the transform is unchanged |
| Painting.ReplayAppend | layout_handler.py:101-119 | running a log in two parts leaves the same painter state as running it whole |
| Painting.DrawnPagesAppend | layout_handler.py:60-76 | the pages drawn by two consecutive logs are the first log's pages followed by the second's |
| Painting.NewPagesAppend | layout_drawer.py:20-36 | page breaks of consecutive logs add up |
| Painting.CanvasPages | main.py:409-435 | drawing an off-screen pixmap draws the pages painted onto it, issues no page break, and leaves the transform alone |
| Painting.CentredDrawing | layout_handler.py:101-119 | the save, translate, rotate, scale, draw, restore block draws exactly its one page, issues no page break, and returns the painter to the state it was in |
| Painting.CentredDrawingOrder | layout_handler.py:101-119 | the raster is drawn at `(int(-w/2), int(-h/2))` after translation to the centre, then rotation, then scaling, with one transform saved |
| Painting.BracketedDrawing | layout_handler.py:101-119 | any six-step save, three transforms, draw, restore block draws only its raster and leaves the painter's state unchanged |
| Painting.MapCentredHalfTurn | layout_handler.py:105-116 | under translate, rotate (0° or 180°) and uniform scale, a point lands at the centre plus its scaled offset, negated for 180° |
| Scaling.ScalingHandler.constructor | scaling_handler.py:8-10 | zoom 1.0, rotation 0 |
| Scaling.ScalingHandler.SetScaleFactor | scaling_handler.py:12-14 | sets the zoom and keeps the rotation |
| Scaling.ScalingHandler.SetRotationAngle | scaling_handler.py:16-18 | sets the rotation and keeps the zoom |
| PageSizes.SizeIdFor | page_size_handler.py:11-28 | each of the ten known names maps to its own size, and any other string to A4 |
| PageSizes.SizeNameRoundTrip | page_size_handler.py:11-28 | mapping a size's name back gives the same size |
| PageSizes.PointsToPixels | page_size_handler.py:47-50 | `int(points * 96/72)`: the largest integer not above `points * 4/3`, for non-negative points |
| PageSizes.PointsToPixelsMonotone | page_size_handler.py:47-50 | a larger size in points never gives fewer pixels |
| PageSizes.PageSizeHandler.constructor | page_size_handler.py:7-9 | A4, portrait |
| PageSizes.PageSizeHandler.SetPageSize | page_size_handler.py:30-32 | sets the size name and keeps the orientation |
| PageSizes.PageSizeHandler.SetPageOrientation | page_size_handler.py:34-36 | sets the orientation and keeps the size name |
| PageSizes.PageSizeHandler.GetPageSizeInfo | page_size_handler.py:38-50 | `GetPageSizePoints` is Qt's point size of the size id the name maps to, whatever the orientation (page_size_handler.py:67-81); both sides of the current paper size converted to 96-DPI pixels by truncation |
| PageSizes.PageSizeHandler.AdjustDimensionsForOrientation | page_size_handler.py:52-63 | the result is the input or the input swapped. Portrait gives width ≤ height and landscape width ≥ height, and already-conforming input is unchanged. Any other orientation string leaves the input unchanged |
| PageSizes.AdjustIdempotent | page_size_handler.py:52-63 | adjusting twice is the same as adjusting once |
| PageSizes.AdjustIgnoresSourcePage | page_size_handler.py:52-63 | the result does not depend on the source page's size arguments |
| Printing.Printer.SetPageLayout | print_handler.py:37 | the printer takes the given page layout |
| Printing.PrintHandler.constructor | print_handler.py:8-10 | A4, portrait |
| Printing.PrintHandler.SetPageSize | print_handler.py:12-14 | sets the size name and keeps the orientation |
| Printing.PrintHandler.SetPageOrientation | print_handler.py:16-18 | sets the orientation and keeps the size name |
| Printing.PrintHandler.RequestedLayout | print_handler.py:20-37 | landscape exactly when the orientation is "landscape", zero margins. The size is the named one when known, A4 otherwise |
| Printing.PrintHandler.ConfigurePrinter | print_handler.py:20-37 | the printer ends up with exactly the requested layout |
| Printing.PrintHandler.GetOrientation | print_handler.py:39-41 | the stored orientation string, as set |
| Layout.GetLayoutInfo | layout_handler.py:21-33 | a grid is never taller than wide. A count in the table fills its last row, and any other count falls back to the 1 × 1 grid |
| Layout.GridTable | layout_handler.py:21-33 | the seven table entries (rows, columns, name), and the fallback for every other count |
| Layout.CellsTileTarget | layout_handler.py:35-39 | about `CellDimensions` (target width / columns, target height / rows): columns × cell width is the target width and rows × cell height the target height; cells are non-negative for a non-negative target |
| Layout.CellInsideTarget | layout_handler.py:41-66 | about `CellPosition` and `CellOrigin` (cell i at column `i % cols`, row `i // cols`, at `(col * cell width, row * cell height)`): for every count in the table, each cell the loop visits lies inside the target rectangle |
| Layout.CellSlotsDistinct | layout_handler.py:60-66 | distinct cell indices get distinct (column, row) slots |
| Layout.FallbackCellsLeaveTarget | layout_handler.py:52-66 | for a count outside the table, every cell after the first is placed at or below the target's bottom edge |
| Layout.CellCommands | layout_handler.py:78-119 | one cell draws nothing exactly when the index is past the end or the page does not render. Otherwise it draws exactly that page. It never breaks the page and restores the painter's state |
| Layout.CellCommandsDraw | layout_handler.py:86-119 | a rendering page is drawn by the centred drawing at the cell's centre, with the cell scale |
| Layout.CellScaleIsFitTimesZoom | layout_handler.py:91-99 | about `CellScale` (`min(width / raster width * zoom, height / raster height * zoom)`): the cell scale is the smaller fit ratio times the zoom (for a negative zoom the larger ratio, as `min` does after the multiplication) |
| Layout.ScaledRasterFitsCell | layout_handler.py:91-99 | at a zoom in [0, 1] the scaled raster fits the cell on both axes |
| Layout.FullZoomTouchesCell | layout_handler.py:91-99 | at zoom 1 the scaled raster fills the cell on at least one axis |
| Layout.DrawnRasterStaysInCell | layout_handler.py:101-119 | at a zoom in [0, 1] and rotation 0° or 180°, every point of the drawn raster lands inside its cell, up to half a scaled pixel from the centring truncation |
| Layout.RasterCentreNearCellCentre | layout_handler.py:101-119 | for every quarter-turn rotation and either sign of the scale s, the middle of the raster drawn from `(int(-w/2), int(-h/2))` lands within half the scale's absolute value of the cell centre on each axis |
| Layout.SheetPrefixBalanced | layout_handler.py:60-76 | any number of cells issues no page break and leaves the painter's state unchanged |
| Layout.SheetPrefixFlat | layout_handler.py:60-76 | the sheet's cells draw only rasters, no nested pixmaps |
| Layout.SheetDrawsItsPages | layout_handler.py:47-76 | about `SheetCommands` and `CellAt` (the grid of `_get_layout_info(pages_per_sheet)`, then cell i for i < pages_per_sheet, drawing page start + i when `i < page_count` and it exists): with every page rendering, a sheet draws pages `start, start+1, …` for `min(pages per sheet, count, pages left)` pages, in order |
| Layout.SheetBalanced | layout_handler.py:47-76 | about `SheetCommands`: a whole sheet issues no page break and leaves the painter's state unchanged |
| Layout.LayoutHandler.constructor | layout_handler.py:8-11 | one page per sheet, adaptive mode off |
| Layout.LayoutHandler.SetPagesPerSheet | layout_handler.py:13-15 | sets the count and keeps the mode |
| Layout.LayoutHandler.SetAdaptiveMode | layout_handler.py:17-19 | sets the mode and keeps the count |
| Layout.LayoutHandler.DrawAdaptivePages | layout_handler.py:47-76 | the painter's log grows by exactly the sheet's commands, and its state is unchanged |
| Layout.LayoutHandler.DrawCell | layout_handler.py:61-76 | one loop iteration: the log grows by the cell's commands, or by nothing for a blank cell |
| Layout.LayoutHandler.DrawSinglePage | layout_handler.py:78-119 | the log grows by the cell's commands, and the painter's state is unchanged |
| LayoutDrawing.SheetCountIsCeiling | layout_drawer.py:16-17 | about `SheetCount` (`(total + n - 1) // n`): `(total + n - 1) // n` is the ceiling of `total / n`: the fewest sheets holding every page, and 0 for no pages |
| LayoutDrawing.SheetPages | layout_drawer.py:26-36 | about `SheetStart` (`k * n`) and `SheetSize` (`min(n, total - k * n)`): sheet k draws pages `k*n` up to `(k+1)*n`, cut off at the document's end |
| LayoutDrawing.SheetsPrefixPages | layout_drawer.py:20-36 | the first m sheets draw pages 0 up to `m*n` (cut off at the end), in order, each once |
| LayoutDrawing.SheetsPrefixBalanced | layout_drawer.py:20-36 | the first m sheets issue m − 1 page breaks on a printer and none elsewhere, and leave the painter's state unchanged |
| LayoutDrawing.LayoutDrawsEveryPage | layout_drawer.py:7-39 | about `LayoutCommands` (every sheet in order, a break before each one after the first on a printer, nothing for a zero count): with every page rendering, the whole layout draws every page of the document exactly once, in order |
| LayoutDrawing.LayoutPageBreaks | layout_drawer.py:20-24 | on a printer the layout issues one break fewer than the sheet count, and none on any other device; the painter's state is unchanged |
| LayoutDrawing.LayoutDrawer.DrawLayout | layout_drawer.py:7-39 | the painter's log grows by exactly the layout's commands, and its state is unchanged |
| LayoutDrawing.LayoutDrawer.DrawSheet | layout_drawer.py:20-36 | one loop iteration: a break when it is not the first sheet on a printer, then the sheet's cells |
| Display.PageLabel.constructor | display_handler.py:8-15 | a new label shows no picture and has no fixed size |
| Display.PageLabel.SetPixmap | display_handler.py:87 | the label shows the picture; the fixed size is kept |
| Display.PageLabel.SetFixedSize | display_handler.py:145 | the label's size is pinned to the picture's; the shown picture is kept |
| Display.PageLabel.Clear | display_refresher.py:17-19 | the label shows nothing; the fixed size is kept |
| Display.ResizeFor | display_handler.py:80-84 | the picture stays at its natural size exactly when the display scale is 1.0. Otherwise its target size is both sides times the scale, truncated |
| Display.SingleCommands | display_handler.py:36-78 | the single view paints something exactly when the page renders. Then it draws exactly that page, issues no page break and restores the painter's state |
| Display.SingleViewMargin | display_handler.py:51-59 | about `SingleScale` (`min(W / raster width * zoom, H / raster height * zoom) * 0.9`): at a zoom in [0, 1] the page takes at most 90 % of the canvas on each axis, and at zoom 1 exactly 90 % on one axis |
| Display.SingleViewOnCanvas | display_handler.py:61-77 | at a zoom in [0, 1] and rotation 0° or 180°, every point of the raster lands on the canvas (up to half a scaled pixel) |
| Display.AdaptiveViewShowsSheet | display_handler.py:125-132 | about `AdaptiveCount` (`min(pages_per_sheet, count - current)`) and `AdaptiveCommands` (the sheet from the current page on the natural-size target): the sheet view draws pages from the current one up to pages-per-sheet more, cut off at the end |
| Display.AdaptiveViewBalanced | display_handler.py:115-135 | the sheet view issues no page break and restores the painter's state |
| Display.DisplayHandler.constructor | display_handler.py:8-15 | keeps its collaborators; display scale 1.0 |
| Display.DisplayHandler.GetNaturalDisplaySize | display_handler.py:155-171 | the paper size in 96-DPI pixels, in the given or the swapped order |
| Display.NaturalSizeOrientation | display_handler.py:155-171 | portrait gives a width ≤ height, landscape a width ≥ height |
| Display.NaturalSizeIgnoresPage | display_handler.py:155-171 | the natural size is the same whichever page is current |
| Display.DisplayHandler.SinglePicture | display_handler.py:17-87 | a picture exactly when the page renders. It is the natural size, draws only the current page, and is rescaled exactly when the display scale is not 1.0 |
| Display.SinglePictureRenders | display_handler.py:17-87 | a rendering page yields the natural-size canvas holding the centred drawing, with the resize for the display scale |
| Display.DisplayHandler.AdaptivePicture | display_handler.py:96-145 | the sheet picture has the natural size and is rescaled exactly when the display scale is not 1.0 |
| Display.AdaptivePictureShowsSheet | display_handler.py:96-145 | with every page rendering, the sheet picture draws the current page and up to pages-per-sheet − 1 after it, cut off at the end |
| Display.DisplayHandler.DisplaySinglePage | display_handler.py:17-94 | the label shows the single picture. When the page does not render, it keeps its old picture; the fixed size is untouched |
| Display.DisplayHandler.PaintSinglePage | display_handler.py:61-77 | a fresh painter's log is exactly the centred drawing at the canvas centre, with the single view's scale |
| Display.PaintCentred | layout_handler.py:101-119 | the painter's log grows by exactly the centred drawing |
| Display.DisplayHandler.DisplayAdaptivePages | display_handler.py:96-153 | the label shows the sheet picture and is pinned to its size |
| Refresh.DisplayRefresher.constructor | display_refresher.py:4-11 | keeps its six collaborators |
| Refresh.DisplayRefresher.Refreshed | display_refresher.py:13-24 | with no pages the label is cleared. In adaptive mode it shows and is pinned to the sheet picture; otherwise it shows the single picture, or keeps the old one when the page does not render |
| Refresh.DisplayRefresher.RefreshDisplay | display_refresher.py:13-24 | the display scale is stored, and the label becomes the refreshed state |
| Refresh.DisplayRefresher.RefreshAll | display_refresher.py:26-33 | a refresh at scale 1.0. The print handler then requests the screen's size (or A4 when unknown) and landscape exactly when the screen is landscape |
| Refresh.RefreshShowsCurrentPage | display_refresher.py:13-24 | in single mode, with a valid page and a rasterising document, the label shows exactly the current page |
| Refresh.RefreshShowsCurrentSheet | display_refresher.py:13-24 | in adaptive mode the label shows the current page and up to pages-per-sheet − 1 after it |
| Navigation.GroupOfSheetStart | main.py:151 | the first page of sheet k lies on sheet k |
| Navigation.GroupBounds | main.py:171 | page p lies on the sheet g with `g*n <= p < (g+1)*n`, and g ≥ 0 for p ≥ 0 |
| Navigation.PrevMovesBySheet | main.py:257-266 | about `PrevTarget` (adaptive: `(g - 1) * n` when the sheet `g = page // n` is above 0; single: `page - 1` when above 0): in adaptive mode "previous" moves exactly when the page is past the first sheet. It goes to the first page of the sheet before, which is an earlier page |
| Navigation.NextMovesBySheet | main.py:297-307 | about `NextTarget` (adaptive: `(g + 1) * n` when `g < sheets - 1`; single: `page + 1` when below count − 1): in adaptive mode "next" moves to the first page of the next sheet, a later page inside the document. It stays put exactly on the last sheet |
| Navigation.SingleStepsStayInDocument | main.py:267-271 | about `PrevTarget` and `NextTarget` in single mode: in single mode "previous" and "next" move by one page exactly when the result stays inside the document |
| Navigation.ButtonsMatchMoves | main.py:167-176 | about `ButtonState` (`g > 0`, `g < sheets - 1` in adaptive mode; `page > 0`, `page < count - 1` otherwise): each button is enabled exactly when its move would change the page |
| Navigation.SliderTracksPosition | main.py:145-162 | about `PageInfoFor` (indicator `g + 1` of sheets, or `page + 1` of count; slider maximum `max(0, total - 1)`, value `g` or the page): the slider's maximum is the sheet count − 1 in adaptive mode and the page count − 1 otherwise. Its value lies in range, and the indicator shows 1 ≤ current ≤ total |
| Navigation.ScrollRoundTrip | main.py:276-289 | about `ScrollTarget` (`value * n` in adaptive mode, `value` otherwise): any slider value in range leads to a page inside the document (a sheet start in adaptive mode), whose indicator gives back that slider value |
| Navigation.FitScaleFits | main.py:77-90 | about `FitScale` (`min((vw - 40) / w, (vh - 40) / h)`, or 1.0 for a non-positive natural size): the fit scale makes the picture fit the viewport minus 40 px on both axes, and fill it on one |
| Navigation.WheelStaysOnSlider | main.py:92-105 | about `WheelValue` (`max(0, v - 1)` up, `min(max, v + 1)` down): a wheel step stays in the slider's range and moves by at most one. It stays put exactly at the end it is moving towards |
| App.PrintedSheetPages | main.py:405-435 | about `PrintedSheet` (a break when k > 0, then a page-rect pixmap holding the sheet, drawn at (0, 0)): printed sheet k draws sheet k's pages through one pixmap, issuing a break exactly when k > 0, and leaves the painter's state unchanged |
| App.PrintedSheetsPages | main.py:400-435 | about `PrintedSheets` (printed sheets 0 to m − 1 in order): the first m printed sheets draw pages 0 up to `m*n` in order and issue m − 1 breaks |
| App.PrintMatchesPreview | main.py:329-435 | printing and previewing draw the same pages, every page exactly once in order, and issue the same number of page breaks |
| App.PDFPrinterApp.constructor | main.py:24-64 | no document, page 0, fit-to-window off, adaptive mode on, one page per sheet, zoom 1.0, rotation 0, A4 portrait on screen and printer, indicator 0 of 0, both buttons off, empty label. The window invariant holds |
| App.PDFPrinterApp.FitToWindow | main.py:66-75 | with pages loaded, it toggles fit-to-window and redisplays (fitted, or at scale 1.0); without pages nothing changes. The invariant is kept |
| App.PDFPrinterApp.CalculateAndApplyFitToWindowScale | main.py:77-90 | through `Fitted`: with pages, a refresh at the fit scale; otherwise nothing changes |
| App.PDFPrinterApp.Redisplay | main.py:250-253 | through `Redisplayed`, the branch every settings handler ends with: with fit-to-window on, the fitted refresh (`Fitted`); otherwise a refresh at display scale 1.0 |
| App.PDFPrinterApp.UpdatePageInfo | main.py:145-165 | with pages, the indicator, slider and buttons match the position and the slider value lies in range. Without pages nothing changes |
| App.PDFPrinterApp.UpdateButtonState | main.py:167-176 | both buttons are set from the position |
| App.PDFPrinterApp.ZoomChanged | main.py:178-191 | the custom entry (−1) changes nothing. Any other value becomes the zoom, turns fit-to-window off, refreshes at scale 1.0 and updates the indicator |
| App.PDFPrinterApp.CustomZoomEntered | main.py:193-207 | a positive percentage becomes the zoom divided by 100, with fit-to-window off and a refresh at 1.0. Unparsable or non-positive input changes nothing |
| App.PDFPrinterApp.RotateChanged | main.py:209-216 | sets the rotation, keeps the zoom, redisplays and updates the indicator |
| App.PDFPrinterApp.SizeChanged | main.py:218-226 | the screen and the printer both take the size, keeping their orientations, then it redisplays |
| App.PDFPrinterApp.AdaptiveModeChanged | main.py:228-235 | sets the mode, keeps the count, redisplays and updates the indicator |
| App.PDFPrinterApp.OrientationChanged | main.py:237-246 | the screen and the printer both take the orientation, keeping their sizes, then it redisplays |
| App.PDFPrinterApp.PagesPerSheetChanged | main.py:248-255 | sets the count, keeps the mode, redisplays and updates the indicator |
| App.PDFPrinterApp.PrevPage | main.py:257-274 | moves to the previous target if there is one, and otherwise stays. It redisplays in adaptive mode, or refreshes at 1.0 in single mode. The invariant is kept |
| App.PDFPrinterApp.NextPage | main.py:297-315 | moves to the next target if there is one, and otherwise stays. It redisplays in adaptive mode, or refreshes at 1.0 in single mode. The invariant is kept |
| App.PDFPrinterApp.ScrollbarChanged | main.py:276-295 | with pages, it moves to the slider's target and redisplays, then updates the buttons; without pages only the slider moves. The invariant is kept |
| App.PDFPrinterApp.WheelScrolled | main.py:92-107 | the slider steps one place up or down, clamped, and a changed position is handled as a slider move |
| App.PDFPrinterApp.LoadPdf | main.py:109-143 | a cancelled or failed load changes nothing. A successful one shows page 0 at zoom 1.0 in the first page's orientation, redisplays, enables both buttons and updates the indicator |
| App.PDFPrinterApp.ShowOpened | main.py:113-141 | after a successful open: page 0, zoom 1.0, the first page's orientation, a redisplay, both buttons enabled, then the indicator update; the window invariant is re-established |
| App.PDFPrinterApp.PrintTarget | main.py:338-346 | the printable area, swapped to match the screen orientation when a document is loaded, as is otherwise |
| App.PDFPrinterApp.PreviewPaintRequested | main.py:329-366 | the printer takes the requested layout, and the preview painter's log is the printer layout of the whole document on the oriented target |
| App.PDFPrinterApp.PreviewSheet | main.py:353-364 | one loop iteration: a page break after the first sheet, then the sheet |
| App.PDFPrinterApp.PrintPages | main.py:389-447 | the printer painter's log is the given number of printed sheets (none for a non-positive count) |
| App.PDFPrinterApp.PrintSheet | main.py:400-435 | one loop iteration: a page break after the first sheet, then the sheet's pixmap drawn at (0, 0) |
| App.PDFPrinterApp.PaintPixmap | main.py:409-432 | the page-sized pixmap holds the sheet drawn on the oriented target |
| App.PDFPrinterApp.DirectPrint | main.py:368-387 | the printer takes the requested layout. Only an accepted dialog prints, and then all sheets (the ceiling count) are printed |
| App.PDFPrinterApp.PrintPdf | main.py:317-320 | prints only with pages loaded and the dialog accepted. Without pages the printer is untouched |
| App.PDFPrinterApp.PrintPreview | main.py:322-327 | previews exactly when pages are loaded. Without pages the printer is untouched |

## Left out

- PyMuPDF and Qt are outside the model:
  - A document is its page sizes plus whether it rasterises.
  - A rendered page's pixel size is taken as the point size times `dpi/72`, rounded up.
  - Qt's point size of each paper size is a function passed to `PageSizeHandler`.
  - Pixels are not modelled; a picture is the command log that paints it.
- Floating point is modelled as exact real arithmetic. `int()` truncation is modelled exactly.
- Pixel sizes follow the code's truncation: `int(842 * 96 / 72)` truncates 1122.67 to 1122 for the A4 height.
- Device pixels are not modelled. That covers the white fill of pixmaps, the render hints, and how Qt's `KeepAspectRatio` smooth scaling picks the final size. `ResizeFor` records the requested size and whether a rescale happens.
- The scroll area, `adjustSize`, `updateGeometry` and window resizing are not modelled. The viewport size is a constant of the window.
- `QApplication.processEvents`, the 100 ms `QTimer` deferral of printing, the progress bar and the message boxes are not modelled. Neither are the exception handler in `_print_pages` and the one in `draw_layout`.
- Signal re-entry is not modelled. In Qt, `setValue`, `setCurrentIndex` and `setCurrentText` emit signals that call handlers again. Examples:
  - The slider value set by `update_page_info` re-enters `scrollbar_changed`.
  - Selecting "100%" on load re-enters `zoom_changed`.
  - Selecting the orientation on load re-enters `orientation_changed`.

  Each handler is modelled on its own, and these follow-on calls can be composed from the modelled handlers.
- The enabling of the print and preview buttons, the visibility and focus of the custom zoom input, and the indicator's text are not modelled. The indicator is modelled by its numbers.
- `ui_handler.py` (widget construction) is not part of this model. The initial widget values the window relies on are:
  - indicator 0 of 0;
  - slider range 0 to 0;
  - both buttons disabled.
- App.PDFPrinterApp.PagesPerSheetChanged: requires a count of at least 1. These are the only values the combo box offers (1, 2, 4, 6, 9, 16). A zero divides by zero only in adaptive mode: `update_page_info` with a document loaded (main.py:150-151) and `update_button_state` (main.py:170-171) raise `ZeroDivisionError` there. In single mode neither handler divides by the count. The model does not reproduce the exception, and keeps the count at least 1 in both modes.
- App.PDFPrinterApp.ScrollbarChanged: requires the value to lie in the slider's range, which Qt's slider guarantees.
- LayoutDrawing.LayoutDrawer.DrawLayout: a pages-per-sheet of 0 makes `draw_layout` raise `ZeroDivisionError`, which it catches and logs. The model treats that case as drawing nothing.
- Layout.DrawnRasterStaysInCell and Display.SingleViewOnCanvas: proved for rotations of 0° and 180° only. For 90° and 270° a non-square page can overhang its cell; for every quarter turn the model states only that the raster's middle lands within half a scaled pixel of the cell centre (`RasterCentreNearCellCentre`).
- Logging (`print`, `logging.error`) is not modelled.

Some behaviour of the code is kept as written:
- In single mode, "previous" and "next" always refresh at display scale 1.0, even while fit-to-window is on.
- Moving the slider updates the buttons but not the indicator text (`pageInfo.shown` keeps its old value).
