/** Element geometry as the layout engine reports it, and the minimap's
    `position` function: pinned mode walks the `offsetParent` chain, the
    default mode reads the bounding box and adds the page scroll, and an
    ancestor argument turns either into a difference of two positions. */
module Geometry {

  import opened Wrappers

  /** A point in CSS pixels. */
  datatype Pos = Pos(left: real, top: real)

  function Origin(): Pos {
    Pos(0.0, 0.0)
  }

  function Add(p: Pos, q: Pos): Pos {
    Pos(p.left + q.left, p.top + q.top)
  }

  function Sub(p: Pos, q: Pos): Pos {
    Pos(p.left - q.left, p.top - q.top)
  }

  /** An element as the model sees it: the layout values the code reads and
      the chain of offset parents, which ends at the root element (whose
      `offsetParent` is `null`). `clientRect` is the top-left corner that
      `getBoundingClientRect` reports, relative to the window; it is a
      snapshot taken in the same scroll state as the `Browser` value it is
      combined with, since a page scroll moves it. `node` is the
      DOM node's identity, which `===` compares. */
  datatype Element = Element(
    node: nat,
    tagName: string,
    offsetLeft: real,
    offsetTop: real,
    offsetWidth: real,
    offsetHeight: real,
    clientRect: Pos,
    offsetParent: Option<Element>)

  /** `a === b`: the same DOM node, whatever its current layout values. */
  predicate SameNode(a: Element, b: Element) {
    a.node == b.node
  }

  /** The scroll state and window size the code reads besides element
      layout: the window's page offsets and inner height, and the content
      element's own `scrollTop`. The offset values of an `Element` do not
      depend on scrolling; its `clientRect` does and must be read in the
      same state. */
  datatype Browser = Browser(pageXOffset: real, pageYOffset: real, innerHeight: real, contentScrollTop: real)

  function Offset(e: Element): Pos {
    Pos(e.offsetLeft, e.offsetTop)
  }

  /** The element followed by each successive offset parent. */
  function OffsetChain(e: Element): (chain: seq<Element>)
    ensures |chain| >= 1 && chain[0] == e
    ensures forall i, j :: 0 <= i && j == i + 1 && j < |chain| ==> chain[i].offsetParent == Some(chain[j])
    ensures chain[|chain| - 1].offsetParent == None
  {
    match e.offsetParent
    case None => [e]
    case Some(p) => [e] + OffsetChain(p)
  }

  /** Componentwise sum of the offsets of a list of elements. */
  function SumOffsets(es: seq<Element>): Pos {
    if |es| == 0 then Origin() else Add(Offset(es[0]), SumOffsets(es[1..]))
  }

  lemma {:induction false} SumOffsetsAppend(a: seq<Element>, b: seq<Element>)
    ensures SumOffsets(a + b) == Add(SumOffsets(a), SumOffsets(b))
  {
    if |a| == 0 {
      assert a + b == b;
    } else {
      assert (a + b)[1..] == a[1..] + b;
      SumOffsetsAppend(a[1..], b);
    }
  }

  /** Pinned-mode position: the element's offsets plus, while there is one,
      the pinned position of its offset parent. */
  function PinnedPosition(e: Element): (p: Pos)
    ensures e.offsetParent == None ==> p == Offset(e)
  {
    match e.offsetParent
    case None => Offset(e)
    case Some(parent) => Add(Offset(e), PinnedPosition(parent))
  }

  /** The pinned position is the sum of the offsets of the element and of
      every offset parent up to the end of the chain; an element with no
      offset parent reports its own offsets. */
  lemma {:induction false} PinnedPositionIsChainSum(e: Element)
    ensures PinnedPosition(e) == SumOffsets(OffsetChain(e))
    ensures e.offsetParent == None ==> PinnedPosition(e) == Offset(e)
  {
    match e.offsetParent
    case None =>
      assert OffsetChain(e)[1..] == [];
    case Some(parent) =>
      PinnedPositionIsChainSum(parent);
      assert OffsetChain(e)[1..] == OffsetChain(parent);
  }

  /** The same walk as the source writes it: a do-while loop that adds the
      current element's offsets and then moves on to its offset parent, until
      there is none. The first pass of the body runs before the loop. */
  method PinnedPositionByWalk(e: Element) returns (p: Pos)
    ensures p == SumOffsets(OffsetChain(e))
  {
    var el := e;
    p := Offset(el);
    while el.offsetParent.Some?
      invariant Add(p, PinnedPosition(el)) == Add(PinnedPosition(e), Offset(el))
      decreases el
    {
      el := el.offsetParent.value;
      p := Add(p, Offset(el));
    }
    PinnedPositionIsChainSum(e);
  }

  /** The second argument of `position`: left out, a boolean (then it is the
      `fixedAtTop` flag) or an ancestor element. */
  datatype PosArg = NoArg | FlagArg(flag: bool) | AncestorArg(ancestor: Element)

  /** The `fixedAtTop` mode in force: a boolean second argument wins over the
      third argument. */
  function PinnedMode(arg: PosArg, fixedAtTop: bool): bool {
    if arg.FlagArg? then arg.flag else fixedAtTop
  }

  /** `position(element, arg, fixedAtTop)`. An absent third argument is
      `false`, which `position` treats alike because it only tests the flag's
      truth. */
  function Position(e: Element, arg: PosArg, fixedAtTop: bool, w: Browser): (p: Pos)
    ensures arg == AncestorArg(e) ==> p == Origin()
    decreases if arg.AncestorArg? then 1 else 0
  {
    var pinned := PinnedMode(arg, fixedAtTop);
    if arg.AncestorArg? then
      Sub(Position(e, FlagArg(pinned), false, w), Position(arg.ancestor, FlagArg(pinned), false, w))
    else if pinned then
      PinnedPosition(e)
    else
      Pos(e.clientRect.left + w.pageXOffset, e.clientRect.top + w.pageYOffset)
  }

  /** Without an ancestor, pinned mode reports the chain sum of offsets;
      pinned mode is on when the boolean second argument says so, or when
      there is no second argument and the third is `true`. */
  lemma PinnedAbsolute(e: Element, arg: PosArg, fixedAtTop: bool, w: Browser)
    requires !arg.AncestorArg? && PinnedMode(arg, fixedAtTop)
    ensures Position(e, arg, fixedAtTop, w) == SumOffsets(OffsetChain(e))
  {
    PinnedPositionIsChainSum(e);
  }

  /** A boolean second argument is only ever the mode flag: the third
      argument is then ignored and no ancestor is subtracted. */
  lemma BooleanArgumentIsTheFlag(e: Element, b: bool, f1: bool, f2: bool, w: Browser)
    ensures Position(e, FlagArg(b), f1, w) == Position(e, FlagArg(b), f2, w)
    ensures Position(e, FlagArg(b), f1, w) == Position(e, NoArg, b, w)
  {
  }

  /** Relative to an ancestor, the position is the componentwise difference
      of the two positions, both taken in the same mode. */
  lemma RelativeIsDifference(e: Element, a: Element, f: bool, w: Browser)
    ensures Position(e, AncestorArg(a), f, w)
         == Sub(Position(e, NoArg, f, w), Position(a, NoArg, f, w))
  {
  }

  /** In pinned mode the position relative to an ancestor is the difference
      of the two chain sums. */
  lemma PinnedRelativeIsChainDifference(e: Element, a: Element, w: Browser)
    ensures Position(e, AncestorArg(a), true, w)
         == Sub(SumOffsets(OffsetChain(e)), SumOffsets(OffsetChain(a)))
  {
    PinnedPositionIsChainSum(e);
    PinnedPositionIsChainSum(a);
  }

  /** Removing a chain's tail sum from the whole chain's sum leaves the sum
      of the links before the tail. */
  lemma {:induction false} SplitChainDifference(p: Pos, chain: seq<Element>, below: seq<Element>, tail: seq<Element>)
    requires chain == below + tail
    requires p == Sub(SumOffsets(chain), SumOffsets(tail))
    ensures p == SumOffsets(below)
  {
    SumOffsetsAppend(below, tail);
  }

  /** The chain from any link onward is that link's own chain. */
  lemma {:induction false} ChainSuffix(e: Element, k: int)
    requires 0 <= k < |OffsetChain(e)|
    ensures OffsetChain(e)[k..] == OffsetChain(OffsetChain(e)[k])
    decreases k
  {
    var chain := OffsetChain(e);
    if k == 0 {
      assert chain[0..] == chain;
    } else {
      var parent := e.offsetParent.value;
      assert chain[1..] == OffsetChain(parent);
      ChainSuffix(parent, k - 1);
      assert chain[k..] == chain[1..][k - 1..];
    }
  }

  /** In pinned mode, an element's position relative to the `k`-th link of
      its offset-parent chain is the sum of the offsets of the links below
      that one. */
  lemma {:induction false} PinnedRelativeAlongChain(e: Element, k: int, w: Browser)
    requires 0 <= k < |OffsetChain(e)|
    ensures Position(e, AncestorArg(OffsetChain(e)[k]), true, w) == SumOffsets(OffsetChain(e)[..k])
  {
    var chain := OffsetChain(e);
    var a := chain[k];
    ChainSuffix(e, k);
    assert chain == chain[..k] + OffsetChain(a);
    PinnedRelativeIsChainDifference(e, a, w);
    SplitChainDifference(Position(e, AncestorArg(a), true, w), chain, chain[..k], OffsetChain(a));
  }

  /** Pinned mode does not read the window at all. */
  lemma PinnedIgnoresBrowser(e: Element, arg: PosArg, w1: Browser, w2: Browser)
    ensures Position(e, arg, true, w1) == Position(e, arg, true, w2) || (arg.FlagArg? && !arg.flag)
  {
  }

  /** Without pinning, a position relative to an ancestor is the difference
      of the two bounding rects: the page-offset terms cancel, so for given
      rects the page offsets added to them play no part. */
  lemma RelativeIgnoresPageScroll(e: Element, a: Element, w1: Browser, w2: Browser)
    ensures Position(e, AncestorArg(a), false, w1) == Position(e, AncestorArg(a), false, w2)
  {
  }
}
