/** The two flows that keep the viewport indicator and the scroll offset in
    step. Forward (`resizeViewport`, `updateViewport`): the indicator is the
    window's height and the scroll offset, both scaled by the ratio. Reverse
    (`updateScrollPosition`): the pointer's distance below the minimap's
    top, less half the indicator, scaled back. */
module Viewport {

  import opened Geometry

  /** Height the indicator is given: the window height, scaled. */
  function IndicatorHeight(innerHeight: real, ratio: real): (h: real)
    ensures ratio > 0.0 ==> h / ratio == innerHeight
  {
    innerHeight * ratio
  }

  /** The scroll offset the indicator follows: the page's when the content is
      the root element, the content element's own otherwise. */
  function ScrollOffset(content: Element, root: Element, w: Browser): (s: real)
    ensures SameNode(content, root) ==> s == w.pageYOffset
    ensures !SameNode(content, root) ==> s == w.contentScrollTop
  {
    if SameNode(content, root) then w.pageYOffset else w.contentScrollTop
  }

  /** Indicator `margin-top`: the scroll offset, scaled. */
  function IndicatorMargin(scroll: real, ratio: real): (m: real)
    ensures ratio > 0.0 ==> m / ratio == scroll
  {
    scroll * ratio
  }

  /** `mouseDistanceFromTopOfTarget`: the pointer's page coordinate less the
      minimap's page top, which `position` without pinning computes. */
  function PointerDistance(pageY: real, minimap: Element, w: Browser): (d: real)
    ensures d == pageY - w.pageYOffset - minimap.clientRect.top
  {
    pageY - Position(minimap, NoArg, false, w).top
  }

  /** Scroll offset a drag asks for: the distance with half the indicator's
      rendered height taken off, scaled back to content pixels. */
  function DragScroll(distance: real, indicatorOffsetHeight: real, ratio: real): (y: real)
    requires ratio > 0.0
    ensures IndicatorMargin(y, ratio) + indicatorOffsetHeight / 2.0 == distance
  {
    (distance - indicatorOffsetHeight / 2.0) / ratio
  }

  /** Forward then reverse: with the pointer on the centre of the indicator
      drawn for scroll offset `s`, the drag asks for exactly `s`. */
  lemma SyncThenDragIsIdentity(s: real, indicatorOffsetHeight: real, ratio: real)
    requires ratio > 0.0
    ensures DragScroll(IndicatorMargin(s, ratio) + indicatorOffsetHeight / 2.0, indicatorOffsetHeight, ratio) == s
  {
  }

  /** A drag further down the minimap asks for a larger scroll offset. */
  lemma DragIsMonotone(d1: real, d2: real, indicatorOffsetHeight: real, ratio: real)
    requires ratio > 0.0 && d1 <= d2
    ensures DragScroll(d1, indicatorOffsetHeight, ratio) <= DragScroll(d2, indicatorOffsetHeight, ratio)
  {
  }

  /** The rendered height the drag reads may differ from the assigned one
      (layout rounds it); within half a pixel of it, the requested offset
      misses the round trip by at most a quarter pixel of the minimap, that
      is `1 / (4 * ratio)` content pixels. */
  lemma RoundTripWithinLayoutRounding(s: real, innerHeight: real, indicatorOffsetHeight: real, ratio: real)
    requires ratio > 0.0
    requires -0.5 <= indicatorOffsetHeight - IndicatorHeight(innerHeight, ratio) <= 0.5
    ensures var d := IndicatorMargin(s, ratio) + IndicatorHeight(innerHeight, ratio) / 2.0;
      -0.25 <= (DragScroll(d, indicatorOffsetHeight, ratio) - s) * ratio <= 0.25
  {
    var h := IndicatorHeight(innerHeight, ratio);
    var d := IndicatorMargin(s, ratio) + h / 2.0;
    var y := DragScroll(d, indicatorOffsetHeight, ratio);
    assert y * ratio + indicatorOffsetHeight / 2.0 == s * ratio + h / 2.0;
    assert (y - s) * ratio == (h - indicatorOffsetHeight) / 2.0;
  }

  /** The worked example: window height 800 and ratio 0.1 give an indicator
      80 pixels high; scrolled to 400, its top margin is 40. */
  lemma IndicatorExample()
    ensures IndicatorHeight(800.0, 0.1) == 80.0
    ensures IndicatorMargin(400.0, 0.1) == 40.0
  {
  }

  // ---- Where the drag sends its scroll ------------------------------------

  /** What a drag does: `window.scrollTo(0, y)`, or, in the corrected
      version, setting the content element's own `scrollTop`. */
  datatype ScrollRequest = ScrollWindow(y: real) | ScrollContent(y: real)

  /** The scroll state after the browser carries out a scroll request:
      `scrollTo(0, y)` also scrolls the page back to its left edge; a
      content scroll moves only the element's `scrollTop`. */
  function Apply(req: ScrollRequest, b: Browser): (after: Browser)
    ensures req.ScrollWindow? ==> after == b.(pageXOffset := 0.0, pageYOffset := req.y)
    ensures req.ScrollContent? ==> after == b.(contentScrollTop := req.y)
  {
    match req
    case ScrollWindow(y) => b.(pageXOffset := 0.0, pageYOffset := y)
    case ScrollContent(y) => b.(contentScrollTop := y)
  }

  /** `updateScrollPosition` as written: it always scrolls the window. */
  function UpdateScrollPositionAsWritten(distance: real, indicatorOffsetHeight: real, ratio: real): (req: ScrollRequest)
    requires ratio > 0.0
    ensures req.ScrollWindow? && req.y == DragScroll(distance, indicatorOffsetHeight, ratio)
  {
    ScrollWindow(DragScroll(distance, indicatorOffsetHeight, ratio))
  }

  /** With a content element other than the root, the forward flow follows
      the element's own `scrollTop`, which the as-written drag never moves:
      with the element at the top, ratio 0.1 and a 20 pixel indicator, a
      drag 50 pixels down leaves the indicator's centre at 10, not 50. */
  lemma AsWrittenDragMissesContentScroll(content: Element, root: Element, b: Browser)
    requires !SameNode(content, root) && b.contentScrollTop == 0.0
    ensures var req := UpdateScrollPositionAsWritten(50.0, 20.0, 0.1);
      IndicatorMargin(ScrollOffset(content, root, Apply(req, b)), 0.1) + 20.0 / 2.0 != 50.0
  {
    var y := DragScroll(50.0, 20.0, 0.1);
    assert y == 400.0;
  }

  /** The evidently intended drag: scroll whatever the forward flow tracks. */
  function UpdateScrollPosition(contentIsRoot: bool, distance: real, indicatorOffsetHeight: real, ratio: real): (req: ScrollRequest)
    requires ratio > 0.0
    ensures req.ScrollWindow? <==> contentIsRoot
    ensures req.y == DragScroll(distance, indicatorOffsetHeight, ratio)
  {
    var y := DragScroll(distance, indicatorOffsetHeight, ratio);
    if contentIsRoot then ScrollWindow(y) else ScrollContent(y)
  }

  /** After the corrected drag, the scroll offset the forward flow reads puts
      the indicator's centre under the pointer, whichever element scrolls. */
  lemma DragCentresIndicator(content: Element, root: Element, b: Browser, distance: real, indicatorOffsetHeight: real, ratio: real)
    requires ratio > 0.0
    ensures var req := UpdateScrollPosition(SameNode(content, root), distance, indicatorOffsetHeight, ratio);
      IndicatorMargin(ScrollOffset(content, root, Apply(req, b)), ratio) + indicatorOffsetHeight / 2.0 == distance
  {
  }

  /** When the content is the root element the as-written drag and the
      corrected one agree. */
  lemma CorrectionAgreesOnRoot(distance: real, indicatorOffsetHeight: real, ratio: real)
    requires ratio > 0.0
    ensures UpdateScrollPosition(true, distance, indicatorOffsetHeight, ratio)
         == UpdateScrollPositionAsWritten(distance, indicatorOffsetHeight, ratio)
  {
  }
}
