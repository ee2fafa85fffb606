/** One minimap instance: `render` (markup, then indicator height, then
    indicator margin), the cheap scroll path that only moves the indicator,
    the drag path, and the debouncer in front of `render` on resize. */
module Xivmap {

  import opened Geometry
  import opened Markup
  import opened Viewport
  import opened Debounce
  import opened Config

  /** `debounce(render, 250)`: a quiet period of 250 ms, trailing edge. */
  const ResizeWait: int := 250

  function ResizeDebouncer(): (d: Debouncer)
    ensures d.wait == ResizeWait && !d.immediate && d.timer.None?
  {
    Idle(ResizeWait, false)
  }

  /** What the minimap shows after a render: its `<div>` list and the
      indicator's height and top margin. */
  datatype MinimapView = MinimapView(divs: seq<Div>, indicatorHeight: real, indicatorMargin: real)

  function Ratio(o: Options): real
    requires o.content.offsetWidth > 0.0
  {
    ScaleRatio(o.minimap.offsetWidth, o.content.offsetWidth)
  }

  /** `render()`: `updateDom`, `resizeViewport`, `updateViewport`, all with
      the same layout, so with the same ratio. */
  function Render(o: Options, sampled: seq<Element>, root: Element, w: Browser): (v: MinimapView)
    requires o.content.offsetWidth > 0.0
    ensures |v.divs| == |sampled| + 2
    ensures v.divs[0].Expander? && v.divs[|v.divs| - 1] == Indicator
    ensures v.indicatorHeight * o.content.offsetWidth == w.innerHeight * o.minimap.offsetWidth
    ensures v.indicatorMargin * o.content.offsetWidth == ScrollOffset(o.content, root, w) * o.minimap.offsetWidth
  {
    var ratio := Ratio(o);
    MinimapView(Divs(o.minimap, o.content, sampled, w),
                IndicatorHeight(w.innerHeight, ratio),
                IndicatorMargin(ScrollOffset(o.content, root, w), ratio))
  }

  /** `updateViewport` on a scroll event: only the indicator margin moves. */
  function OnScroll(v: MinimapView, o: Options, root: Element, w: Browser): (v': MinimapView)
    requires o.content.offsetWidth > 0.0
    ensures v'.divs == v.divs && v'.indicatorHeight == v.indicatorHeight
    ensures v'.indicatorMargin * o.content.offsetWidth == ScrollOffset(o.content, root, w) * o.minimap.offsetWidth
  {
    v.(indicatorMargin := IndicatorMargin(ScrollOffset(o.content, root, w), Ratio(o)))
  }

  /** The cheap scroll path is enough: after the page or the content
      element scrolls, updating only the indicator gives the view a full
      render would give. */
  lemma ScrollPathMatchesRender(o: Options, sampled: seq<Element>, root: Element, b1: Browser, b2: Browser)
    requires o.content.offsetWidth > 0.0
    requires b1.innerHeight == b2.innerHeight
    ensures OnScroll(Render(o, sampled, root, b1), o, root, b2) == Render(o, sampled, root, b2)
  {
    DivsIgnoreScrolling(o.minimap, o.content, sampled, b1, b2);
  }

  /** A pointer press or move over the minimap at page coordinate `pageY`
      asks to scroll to the offset that centres the indicator under it.
      This uses the corrected drag, which scrolls the content element when
      that is what the indicator follows. */
  function OnDrag(o: Options, root: Element, pageY: real, w: Browser, indicatorOffsetHeight: real): (req: ScrollRequest)
    requires o.content.offsetWidth > 0.0 && o.minimap.offsetWidth > 0.0
    ensures req.ScrollWindow? <==> SameNode(o.content, root)
    ensures req.y * Ratio(o) + indicatorOffsetHeight / 2.0 == PointerDistance(pageY, o.minimap, w)
  {
    UpdateScrollPosition(SameNode(o.content, root), PointerDistance(pageY, o.minimap, w), indicatorOffsetHeight, Ratio(o))
  }

  /** `beginDragTracking` and `updateScrollPosition` as written: the window
      is scrolled whatever the content element is. */
  function OnDragAsWritten(o: Options, pageY: real, w: Browser, indicatorOffsetHeight: real): (req: ScrollRequest)
    requires o.content.offsetWidth > 0.0 && o.minimap.offsetWidth > 0.0
    ensures req.ScrollWindow?
    ensures req.y * Ratio(o) + indicatorOffsetHeight / 2.0 == PointerDistance(pageY, o.minimap, w)
  {
    UpdateScrollPositionAsWritten(PointerDistance(pageY, o.minimap, w), indicatorOffsetHeight, Ratio(o))
  }

  /** Dragging, then letting the scroll handler run, draws the indicator
      centred under the pointer, whether the root document or a content
      element scrolls. */
  lemma DragThenScrollCentresIndicator(o: Options, sampled: seq<Element>, root: Element, pageY: real, b: Browser)
    requires o.content.offsetWidth > 0.0 && o.minimap.offsetWidth > 0.0
    ensures var v := Render(o, sampled, root, b);
      var req := OnDrag(o, root, pageY, b, v.indicatorHeight);
      var v' := OnScroll(v, o, root, Viewport.Apply(req, b));
      v'.indicatorMargin + v'.indicatorHeight / 2.0 == PointerDistance(pageY, o.minimap, b)
  {
    var v := Render(o, sampled, root, b);
    DragCentresIndicator(o.content, root, b, PointerDistance(pageY, o.minimap, b), v.indicatorHeight, Ratio(o));
  }

  /** As written, dragging the minimap of a content element other than the
      root leaves the whole view as it was: the indicator does not move. */
  lemma AsWrittenDragLeavesViewUnchanged(o: Options, sampled: seq<Element>, root: Element, pageY: real, b: Browser)
    requires o.content.offsetWidth > 0.0 && o.minimap.offsetWidth > 0.0
    requires !SameNode(o.content, root)
    ensures var v := Render(o, sampled, root, b);
      var req := OnDragAsWritten(o, pageY, b, v.indicatorHeight);
      OnScroll(v, o, root, Viewport.Apply(req, b)) == v
  {
  }
}
