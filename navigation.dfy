/**
 * The page arithmetic of the application window (main.py): which page the
 * previous/next buttons and the slider move to, whether the buttons are
 * enabled, what the page indicator and slider show, and the display scale
 * that fits the page into the window. In adaptive mode the window moves by
 * whole sheets of `pages_per_sheet` pages; otherwise by single pages.
 */
module Navigation {
  import opened Base
  import opened LayoutDrawing

  /** `current_page // pages_per_sheet`: the sheet the current page is on. */
  function GroupOf(currentPage: int, pagesPerSheet: int): int
    requires pagesPerSheet != 0
  {
    FloorDiv(currentPage, pagesPerSheet)
  }

  /** Where `prev_page` moves the current page, or None when it stays. */
  function PrevTarget(adaptive: bool, currentPage: int, pagesPerSheet: int): Option<int>
    requires pagesPerSheet != 0
  {
    if adaptive then
      var group := GroupOf(currentPage, pagesPerSheet);
      if group > 0 then Some((group - 1) * pagesPerSheet) else None
    else if currentPage > 0 then Some(currentPage - 1) else None
  }

  /** Where `next_page` moves the current page, or None when it stays. */
  function NextTarget(adaptive: bool, currentPage: int, pagesPerSheet: int, total: int): Option<int>
    requires pagesPerSheet != 0
  {
    if adaptive then
      var group := GroupOf(currentPage, pagesPerSheet);
      if group < SheetCount(total, pagesPerSheet) - 1 then Some((group + 1) * pagesPerSheet) else None
    else if total > 0 && currentPage < total - 1 then Some(currentPage + 1) else None
  }

  /**
   * The current page after `scrollbar_changed(value)` with a document
   * loaded: the first page of sheet `value` in adaptive mode, page `value`
   * otherwise.
   */
  function ScrollTarget(adaptive: bool, currentPage: int, value: int, pagesPerSheet: int, total: int): int
    requires pagesPerSheet != 0
  {
    if adaptive then
      if SheetCount(total, pagesPerSheet) > 0 then value * pagesPerSheet else currentPage
    else value
  }

  datatype Buttons = Buttons(prevEnabled: bool, nextEnabled: bool)

  /** `update_button_state`. */
  function ButtonState(adaptive: bool, currentPage: int, pagesPerSheet: int, total: int): Buttons
    requires pagesPerSheet != 0
  {
    if adaptive then
      var group := GroupOf(currentPage, pagesPerSheet);
      Buttons(group > 0, group < SheetCount(total, pagesPerSheet) - 1)
    else Buttons(currentPage > 0, currentPage < total - 1)
  }

  /**
   * What `update_page_info` puts on screen: "page `shown` of `of`" and the
   * slider's maximum and value.
   */
  datatype PageInfo = PageInfo(shown: int, of: int, sliderMaximum: int, sliderValue: int)

  function PageInfoFor(adaptive: bool, currentPage: int, pagesPerSheet: int, total: int): PageInfo
    requires pagesPerSheet != 0
  {
    if adaptive then
      var sheets := SheetCount(total, pagesPerSheet);
      var group := GroupOf(currentPage, pagesPerSheet) + 1;
      PageInfo(group, sheets, Max(0, sheets - 1), group - 1)
    else PageInfo(currentPage + 1, total, Max(0, total - 1), currentPage)
  }

  /**
   * `_calculate_and_apply_fit_to_window_scale`: the viewport less a 40
   * pixel border over the natural size, the smaller ratio of the two, or
   * 1.0 when the natural size is not positive.
   */
  function FitScale(viewportWidth: int, viewportHeight: int, naturalWidth: int, naturalHeight: int): real {
    if naturalWidth > 0 && naturalHeight > 0 then
      MinReal((viewportWidth - 40) as real / naturalWidth as real, (viewportHeight - 40) as real / naturalHeight as real)
    else 1.0
  }

  /**
   * The slider value after one wheel step in `eventFilter`: one down when
   * the wheel turns up, one up otherwise, clamped to the slider's range.
   */
  function WheelValue(up: bool, value: int, sliderMaximum: int): int {
    if up then Max(0, value - 1) else Min(sliderMaximum, value + 1)
  }

  // ---------------------------------------------------------------------
  // Properties.

  /** The sheet of page `k * pagesPerSheet` is sheet `k`. */
  lemma GroupOfSheetStart(k: int, pagesPerSheet: int)
    requires pagesPerSheet >= 1
    ensures GroupOf(k * pagesPerSheet, pagesPerSheet) == k
  {
    var q := GroupOf(k * pagesPerSheet, pagesPerSheet);
    assert q * pagesPerSheet <= k * pagesPerSheet < q * pagesPerSheet + pagesPerSheet;
    if q < k {
      MulMonotone(q + 1, k, pagesPerSheet);
    } else if q > k {
      MulMonotone(k + 1, q, pagesPerSheet);
    }
  }

  lemma MulMonotone(a: int, b: int, c: int)
    requires a <= b && c >= 0
    ensures a * c <= b * c
  {
  }

  /** The sheet of a page: the first page of that sheet is at or before it, the next sheet's first page after it. */
  lemma GroupBounds(currentPage: int, pagesPerSheet: int)
    requires pagesPerSheet >= 1
    ensures var g := GroupOf(currentPage, pagesPerSheet);
            g * pagesPerSheet <= currentPage < (g + 1) * pagesPerSheet
    ensures currentPage >= 0 ==> GroupOf(currentPage, pagesPerSheet) >= 0
  {
    var g := GroupOf(currentPage, pagesPerSheet);
    if currentPage >= 0 && g < 0 {
      MulMonotone(g + 1, 0, pagesPerSheet);
    }
  }

  /**
   * In adaptive mode `prev_page` moves to the first page of the previous
   * sheet, and does so exactly when the current page is not on sheet 0.
   */
  lemma PrevMovesBySheet(currentPage: int, pagesPerSheet: int)
    requires pagesPerSheet >= 1 && currentPage >= 0
    ensures PrevTarget(true, currentPage, pagesPerSheet).Some? <==> currentPage >= pagesPerSheet
    ensures var t := PrevTarget(true, currentPage, pagesPerSheet);
            t.Some? ==> 0 <= t.value < currentPage && t.value == GroupOf(t.value, pagesPerSheet) * pagesPerSheet &&
                        GroupOf(t.value, pagesPerSheet) == GroupOf(currentPage, pagesPerSheet) - 1
  {
    var g := GroupOf(currentPage, pagesPerSheet);
    GroupBounds(currentPage, pagesPerSheet);
    if g > 0 {
      GroupOfSheetStart(g - 1, pagesPerSheet);
      MulMonotone(0, g - 1, pagesPerSheet);
    } else {
      MulMonotone(g + 1, 1, pagesPerSheet);
    }
  }

  /**
   * In adaptive mode `next_page` moves to the first page of the next sheet,
   * which always holds a page of the document, and does so exactly when
   * the current page is before the last sheet.
   */
  lemma NextMovesBySheet(currentPage: int, pagesPerSheet: int, total: int)
    requires pagesPerSheet >= 1 && currentPage >= 0 && total >= 0
    ensures var t := NextTarget(true, currentPage, pagesPerSheet, total);
            t.Some? ==> currentPage < t.value < total && t.value == GroupOf(t.value, pagesPerSheet) * pagesPerSheet &&
                        GroupOf(t.value, pagesPerSheet) == GroupOf(currentPage, pagesPerSheet) + 1
    ensures NextTarget(true, currentPage, pagesPerSheet, total).None? <==>
              GroupOf(currentPage, pagesPerSheet) >= SheetCount(total, pagesPerSheet) - 1
  {
    var g := GroupOf(currentPage, pagesPerSheet);
    var sheets := SheetCount(total, pagesPerSheet);
    GroupBounds(currentPage, pagesPerSheet);
    SheetCountIsCeiling(total, pagesPerSheet);
    if g < sheets - 1 {
      GroupOfSheetStart(g + 1, pagesPerSheet);
      MulMonotone(g + 1, sheets - 1, pagesPerSheet);
    }
  }

  /** In single mode the buttons step one page and never leave `[0, total)`. */
  lemma SingleStepsStayInDocument(currentPage: int, total: int)
    requires 0 <= currentPage < total
    ensures var t := PrevTarget(false, currentPage, 1);
            (t.Some? <==> currentPage > 0) && (t.Some? ==> t.value == currentPage - 1 && 0 <= t.value < total)
    ensures var t := NextTarget(false, currentPage, 1, total);
            (t.Some? <==> currentPage < total - 1) && (t.Some? ==> t.value == currentPage + 1 && 0 <= t.value < total)
  {
  }

  /** A button is enabled exactly when pressing it would move the current page. */
  lemma ButtonsMatchMoves(adaptive: bool, currentPage: int, pagesPerSheet: int, total: int)
    requires pagesPerSheet != 0 && currentPage >= 0
    ensures ButtonState(adaptive, currentPage, pagesPerSheet, total).prevEnabled
            <==> PrevTarget(adaptive, currentPage, pagesPerSheet).Some?
    ensures ButtonState(adaptive, currentPage, pagesPerSheet, total).nextEnabled
            <==> NextTarget(adaptive, currentPage, pagesPerSheet, total).Some?
  {
  }

  /**
   * The slider ranges over the sheets in adaptive mode and over the pages
   * otherwise, and its value is the current sheet or page, which lies in
   * that range when the current page is a page of the document.
   */
  lemma SliderTracksPosition(adaptive: bool, currentPage: int, pagesPerSheet: int, total: int)
    requires pagesPerSheet >= 1 && 0 <= currentPage < total
    ensures var info := PageInfoFor(adaptive, currentPage, pagesPerSheet, total);
            0 <= info.sliderValue <= info.sliderMaximum &&
            info.sliderMaximum == (if adaptive then SheetCount(total, pagesPerSheet) else total) - 1 &&
            1 <= info.shown <= info.of
  {
    if adaptive {
      var g := GroupOf(currentPage, pagesPerSheet);
      var sheets := SheetCount(total, pagesPerSheet);
      GroupBounds(currentPage, pagesPerSheet);
      SheetCountIsCeiling(total, pagesPerSheet);
      if g > sheets - 1 {
        MulMonotone(sheets, g, pagesPerSheet);
      }
    }
  }

  /**
   * Moving the slider to a position in its range lands on a page of the
   * document that starts the chosen sheet (adaptive) or is the chosen
   * page (single), and the slider then shows the position it was moved to.
   */
  lemma ScrollRoundTrip(adaptive: bool, currentPage: int, value: int, pagesPerSheet: int, total: int)
    requires pagesPerSheet >= 1 && total > 0
    requires 0 <= value <= PageInfoFor(adaptive, currentPage, pagesPerSheet, total).sliderMaximum
    ensures var t := ScrollTarget(adaptive, currentPage, value, pagesPerSheet, total);
            0 <= t < total && (adaptive ==> t == GroupOf(t, pagesPerSheet) * pagesPerSheet) &&
            PageInfoFor(adaptive, t, pagesPerSheet, total).sliderValue == value
  {
    if adaptive {
      var sheets := SheetCount(total, pagesPerSheet);
      SheetCountIsCeiling(total, pagesPerSheet);
      GroupOfSheetStart(value, pagesPerSheet);
      MulMonotone(0, value, pagesPerSheet);
      MulMonotone(value, sheets - 1, pagesPerSheet);
    }
  }

  /**
   * With a positive natural size and a viewport larger than the border,
   * the fitted page fits the viewport less its border on both axes and
   * fills it on one of them.
   */
  lemma FitScaleFits(viewportWidth: int, viewportHeight: int, naturalWidth: int, naturalHeight: int)
    requires naturalWidth > 0 && naturalHeight > 0
    ensures var s := FitScale(viewportWidth, viewportHeight, naturalWidth, naturalHeight);
            s * naturalWidth as real <= (viewportWidth - 40) as real &&
            s * naturalHeight as real <= (viewportHeight - 40) as real &&
            (s * naturalWidth as real == (viewportWidth - 40) as real ||
             s * naturalHeight as real == (viewportHeight - 40) as real)
  {
    var aw, ah := (viewportWidth - 40) as real, (viewportHeight - 40) as real;
    var nw, nh := naturalWidth as real, naturalHeight as real;
    var sx, sy := aw / nw, ah / nh;
    assert sx * nw == aw && sy * nh == ah;
    if sx <= sy {
      assert sx * nh <= sy * nh by { RealMulMonotone(sx, sy, nh); }
    } else {
      assert sy * nw <= sx * nw by { RealMulMonotone(sy, sx, nw); }
    }
  }

  lemma RealMulMonotone(a: real, b: real, c: real)
    requires a <= b && c >= 0.0
    ensures a * c <= b * c
  {
  }

  /**
   * A wheel step keeps the slider in its range and moves it by at most one;
   * it stays put only at the end of the range it is moving towards.
   */
  lemma WheelStaysOnSlider(up: bool, value: int, sliderMaximum: int)
    requires 0 <= value <= sliderMaximum
    ensures var v := WheelValue(up, value, sliderMaximum);
            0 <= v <= sliderMaximum && (v == value - 1 || v == value || v == value + 1) &&
            (v == value <==> (if up then value == 0 else value == sliderMaximum))
  {
  }
}
