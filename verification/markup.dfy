/** What `updateDom` writes into the minimap: the scale ratio, one rounded
    rectangle per sampled element, and the ordered list of `<div>` elements
    (expander first, rectangles in query order, viewport indicator last),
    as structured values; `markup_text.dfy` gives their HTML text. */
module Markup {

  import opened Numbers
  import opened Geometry

  /** Content-to-minimap scale: minimap width over content width. The source
      divides without a guard, so a zero-width content is excluded here. */
  function ScaleRatio(minimapWidth: real, contentWidth: real): (ratio: real)
    requires contentWidth > 0.0
    ensures ratio * contentWidth == minimapWidth
    ensures minimapWidth >= 0.0 ==> ratio >= 0.0
  {
    minimapWidth / contentWidth
  }

  /** A projected rectangle in whole minimap pixels, tagged with the tag name
      of the element it stands for. */
  datatype Rect = Rect(top: int, left: int, width: int, height: int, tag: string)

  /** One `<div>` of the minimap markup. */
  datatype Div =
    | Expander(height: real)   // stretches the minimap to the scaled content height
    | Box(rect: Rect)          // one sampled element
    | Indicator                // the `xivmap-viewport` element

  /** Projects one element: each field is scaled and rounded on its own, the
      top-left corner taken from the pinned position relative to the content
      element. */
  function Project(e: Element, content: Element, ratio: real, w: Browser): (r: Rect)
    ensures IsRounding(r.width, e.offsetWidth * ratio)
    ensures IsRounding(r.height, e.offsetHeight * ratio)
    ensures IsRounding(r.top, Position(e, AncestorArg(content), true, w).top * ratio)
    ensures IsRounding(r.left, Position(e, AncestorArg(content), true, w).left * ratio)
    ensures r.tag == e.tagName
  {
    var pos := Position(e, AncestorArg(content), true, w);
    Rect(Round(pos.top * ratio), Round(pos.left * ratio),
         Round(e.offsetWidth * ratio), Round(e.offsetHeight * ratio), e.tagName)
  }

  /** The rectangles for the sampled elements, in query order. */
  function Boxes(sampled: seq<Element>, content: Element, ratio: real, w: Browser): (bs: seq<Div>)
    ensures |bs| == |sampled|
    ensures forall i :: 0 <= i < |sampled| ==> bs[i] == Box(Project(sampled[i], content, ratio, w))
  {
    if |sampled| == 0 then []
    else [Box(Project(sampled[0], content, ratio, w))] + Boxes(sampled[1..], content, ratio, w)
  }

  /** The `<div>` list `updateDom` builds for `sampled`, the elements
      `querySelectorAll` returned, in order. */
  function Divs(minimap: Element, content: Element, sampled: seq<Element>, w: Browser): (ds: seq<Div>)
    requires content.offsetWidth > 0.0
    ensures |ds| == |sampled| + 2
    ensures ds[0] == Expander(content.offsetHeight * ScaleRatio(minimap.offsetWidth, content.offsetWidth))
    ensures ds[|ds| - 1] == Indicator
    ensures forall i :: 0 <= i < |sampled| ==>
              ds[i + 1] == Box(Project(sampled[i], content, ScaleRatio(minimap.offsetWidth, content.offsetWidth), w))
  {
    Frame(content.offsetHeight * ScaleRatio(minimap.offsetWidth, content.offsetWidth),
          Boxes(sampled, content, ScaleRatio(minimap.offsetWidth, content.offsetWidth), w))
  }

  function Frame(height: real, bs: seq<Div>): (ds: seq<Div>)
    ensures |ds| == |bs| + 2
    ensures ds[0] == Expander(height) && ds[|ds| - 1] == Indicator
    ensures forall i :: 0 <= i < |bs| ==> ds[i + 1] == bs[i]
  {
    [Expander(height)] + bs + [Indicator]
  }

  /** Pinned positions do not read the scroll state, so neither do the
      rectangles: the markup does not depend on how far the page or the
      content element is scrolled. */
  lemma {:induction false} BoxesIgnoreScrolling(sampled: seq<Element>, content: Element, ratio: real, b1: Browser, b2: Browser)
    ensures Boxes(sampled, content, ratio, b1) == Boxes(sampled, content, ratio, b2)
    decreases |sampled|
  {
    if |sampled| > 0 {
      PinnedIgnoresBrowser(sampled[0], AncestorArg(content), b1, b2);
      assert Position(sampled[0], AncestorArg(content), true, b1) == Position(sampled[0], AncestorArg(content), true, b2);
      assert Project(sampled[0], content, ratio, b1) == Project(sampled[0], content, ratio, b2);
      BoxesIgnoreScrolling(sampled[1..], content, ratio, b1, b2);
    }
  }

  lemma DivsIgnoreScrolling(minimap: Element, content: Element, sampled: seq<Element>, b1: Browser, b2: Browser)
    requires content.offsetWidth > 0.0
    ensures Divs(minimap, content, sampled, b1) == Divs(minimap, content, sampled, b2)
  {
    BoxesIgnoreScrolling(sampled, content, ScaleRatio(minimap.offsetWidth, content.offsetWidth), b1, b2);
  }

  /** Exactly one expander and one indicator; every other `<div>` is a
      rectangle whose `data-tag` is the tag name of its element. */
  lemma DivsShape(minimap: Element, content: Element, sampled: seq<Element>, w: Browser)
    requires content.offsetWidth > 0.0
    ensures var ds := Divs(minimap, content, sampled, w);
      && (forall i :: 0 <= i < |ds| ==> (ds[i].Expander? <==> i == 0))
      && (forall i :: 0 <= i < |ds| ==> (ds[i].Indicator? <==> i == |ds| - 1))
      && (forall i :: 0 < i < |ds| - 1 ==> ds[i].Box? && ds[i].rect.tag == sampled[i - 1].tagName)
  {
    var ds := Divs(minimap, content, sampled, w);
    forall i | 0 < i < |ds| - 1
      ensures ds[i].Box? && ds[i].rect.tag == sampled[i - 1].tagName
    {
      assert ds[(i - 1) + 1] == ds[i];
    }
  }

  /** A worked example: content 1000px wide, minimap 100px wide, an
      element at top 500, left 0, 200 by 50 pixels projects to top 50,
      left 0, 20 by 5. */
  lemma ProjectionExample(e: Element, content: Element, w: Browser)
    requires content.offsetWidth == 1000.0
    requires e.offsetWidth == 200.0 && e.offsetHeight == 50.0
    requires Position(e, AncestorArg(content), true, w) == Pos(0.0, 500.0)
    ensures Project(e, content, ScaleRatio(100.0, content.offsetWidth), w) == Rect(50, 0, 20, 5, e.tagName)
  {
    var ratio := ScaleRatio(100.0, content.offsetWidth);
    assert ratio == 0.1;
    RoundOfInteger(50);
    RoundOfInteger(20);
    RoundOfInteger(5);
    RoundOfInteger(0);
    assert 500.0 * ratio == 50 as real;
    assert 200.0 * ratio == 20 as real;
    assert 50.0 * ratio == 5 as real;
  }
}
