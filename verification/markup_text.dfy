/** The HTML text `updateDom` assigns to `innerHTML`, and what can be read
    off it: every `<div>` contributes exactly one opening and one closing
    tag, so the text holds as many `<div>` elements as the list it came
    from. */
module MarkupText {

  import opened Numbers
  import opened Geometry
  import opened Markup

  /** A `<div>` element with the given attribute text and no children. */
  function DivElement(attributes: string): string {
    "<div" + attributes + "></div>"
  }

  /** `fmt` stands for JavaScript's conversion of a (possibly fractional)
      number to text, used for the expander height. */
  function ExpanderHtml(height: real, fmt: real -> string): string {
    DivElement(" style=" + "\"height: " + fmt(height) + "px\"")
  }

  const IndicatorHtml: string :=
    DivElement(IndicatorAttributes)

  /** ` class="xivmap-viewport" style="position: absolute; top: 0"` */
  const IndicatorAttributes: string :=
    " class=" + "\"xivmap-" + "viewport\"" + " style=" + "\"position: " + "absolute; " + "top: 0\""

  /** One CSS declaration of a pixel length, `name: <value>px;`. */
  function Declaration(name: string, value: int): string {
    name + ": " + IntToString(value) + "px;"
  }

  /** `style="position: absolute; top: …px; left: …px; width: …px; height: …px;"` */
  function StyleAttribute(r: Rect): string {
    "style=" + "\"position: " + "absolute; "
      + Declaration("top", r.top) + " "
      + Declaration("left", r.left) + " "
      + Declaration("width", r.width) + " "
      + Declaration("height", r.height) + "\""
  }

  function BoxHtml(r: Rect): string {
    DivElement(" " + StyleAttribute(r) + " data-tag=" + "\"" + r.tag + "\"")
  }

  function DivHtml(d: Div, fmt: real -> string): string {
    match d
    case Expander(h) => ExpanderHtml(h, fmt)
    case Box(r) => BoxHtml(r)
    case Indicator => IndicatorHtml
  }

  /** The texts of the `<div>`s, in order. */
  function Texts(ds: seq<Div>, fmt: real -> string): (ts: seq<string>)
    ensures |ts| == |ds|
    ensures forall i :: 0 <= i < |ds| ==> ts[i] == DivHtml(ds[i], fmt)
  {
    seq(|ds|, i requires 0 <= i < |ds| => DivHtml(ds[i], fmt))
  }

  function Concat(parts: seq<string>): string {
    if |parts| == 0 then "" else parts[0] + Concat(parts[1..])
  }

  /** The string assigned to `innerHTML`: the `<div>`s' texts, concatenated. */
  function InnerHtml(ds: seq<Div>, fmt: real -> string): string {
    Concat(Texts(ds, fmt))
  }

  // ---- Counting tags ------------------------------------------------------

  /** Occurrences of `c` in `s`. */
  function Count(c: char, s: string): nat {
    if |s| == 0 then 0 else (if s[0] == c then 1 else 0) + Count(c, s[1..])
  }

  lemma {:induction false} CountAppend(c: char, a: string, b: string)
    ensures Count(c, a + b) == Count(c, a) + Count(c, b)
  {
    if |a| == 0 {
      assert a + b == b;
    } else {
      assert (a + b)[1..] == a[1..] + b;
      CountAppend(c, a[1..], b);
    }
  }

  lemma {:induction false} CountAbsent(c: char, s: string)
    requires c !in s
    ensures Count(c, s) == 0
  {
    if |s| > 0 {
      assert forall x :: x in s[1..] ==> x in s;
      CountAbsent(c, s[1..]);
    }
  }

  /** A string that starts with `<` and has no other `<`. */
  lemma CountOneOpening(s: string, rest: string)
    requires s == "<" + rest && '<' !in rest
    ensures Count('<', s) == 1
  {
    assert s[1..] == rest;
    CountAbsent('<', rest);
  }

  /** A `<div>` whose attributes hold no `<` has exactly two: its opening and
      its closing tag. */
  lemma DivElementHasTwoTags(attributes: string)
    requires '<' !in attributes
    ensures Count('<', DivElement(attributes)) == 2
  {
    CountOneOpening("<div", "div");
    CountAbsent('<', attributes);
    CountOneOpening("</div>", "/div>");
    assert "></div>" == ">" + "</div>";
    CountAppend('<', ">", "</div>");
    CountAppend('<', "<div" + attributes, "></div>");
    CountAppend('<', "<div", attributes);
  }

  lemma NoAngleInInt(i: int)
    ensures '<' !in IntToString(i)
  {
  }

  lemma DeclarationHasNoAngle(name: string, value: int)
    requires '<' !in name
    ensures '<' !in Declaration(name, value)
  {
    NoAngleInInt(value);
  }

  lemma StyleAttributeHasNoAngle(r: Rect)
    ensures '<' !in StyleAttribute(r)
  {
    DeclarationHasNoAngle("top", r.top);
    DeclarationHasNoAngle("left", r.left);
    DeclarationHasNoAngle("width", r.width);
    DeclarationHasNoAngle("height", r.height);
  }

  /** Every `<div>` text holds exactly two `<`, provided the number text and
      the tag name carry none. */
  lemma DivHtmlHasTwoTags(d: Div, fmt: real -> string)
    requires d.Expander? ==> '<' !in fmt(d.height)
    requires d.Box? ==> '<' !in d.rect.tag
    ensures Count('<', DivHtml(d, fmt)) == 2
  {
    match d
    case Expander(h) =>
      DivElementHasTwoTags(" style=" + "\"height: " + fmt(h) + "px\"");
    case Box(r) =>
      StyleAttributeHasNoAngle(r);
      DivElementHasTwoTags(" " + StyleAttribute(r) + " data-tag=" + "\"" + r.tag + "\"");
    case Indicator =>
      DivElementHasTwoTags(IndicatorAttributes);
  }

  lemma {:induction false} CountConcat(parts: seq<string>)
    requires forall i :: 0 <= i < |parts| ==> Count('<', parts[i]) == 2
    ensures Count('<', Concat(parts)) == 2 * |parts|
  {
    if |parts| > 0 {
      assert forall i :: 0 <= i < |parts[1..]| ==> parts[1..][i] == parts[i + 1];
      CountConcat(parts[1..]);
      CountAppend('<', parts[0], Concat(parts[1..]));
    }
  }

  /** The tag names and the number text carry no `<`. */
  ghost predicate PlainText(ds: seq<Div>, fmt: real -> string) {
    && (forall x: real :: '<' !in fmt(x))
    && (forall i :: 0 <= i < |ds| && ds[i].Box? ==> '<' !in ds[i].rect.tag)
  }

  /** The HTML text holds exactly two `<` per `<div>`. */
  lemma HtmlTagCount(ds: seq<Div>, fmt: real -> string)
    requires PlainText(ds, fmt)
    ensures Count('<', InnerHtml(ds, fmt)) == 2 * |ds|
  {
    var ts := Texts(ds, fmt);
    forall i | 0 <= i < |ts|
      ensures Count('<', ts[i]) == 2
    {
      DivHtmlHasTwoTags(ds[i], fmt);
    }
    CountConcat(ts);
  }

  /** At the level of text: the markup for `n` sampled elements holds
      exactly `n + 2` `<div>` elements, provided no tag name and no number
      text contains `<`. */
  lemma MarkupDivCount(minimap: Element, content: Element, sampled: seq<Element>, w: Browser, fmt: real -> string)
    requires content.offsetWidth > 0.0
    requires forall x: real :: '<' !in fmt(x)
    requires forall i :: 0 <= i < |sampled| ==> '<' !in sampled[i].tagName
    ensures Count('<', InnerHtml(Divs(minimap, content, sampled, w), fmt)) == 2 * (|sampled| + 2)
  {
    var ds := Divs(minimap, content, sampled, w);
    DivsShape(minimap, content, sampled, w);
    assert PlainText(ds, fmt);
    HtmlTagCount(ds, fmt);
  }

  // ---- Framing ------------------------------------------------------------

  lemma {:induction false} ConcatAppend(a: seq<string>, b: seq<string>)
    ensures Concat(a + b) == Concat(a) + Concat(b)
  {
    if |a| == 0 {
      assert a + b == b;
    } else {
      assert (a + b)[1..] == a[1..] + b;
      ConcatAppend(a[1..], b);
    }
  }

  lemma ConcatSingleton(s: string)
    ensures Concat([s]) == s
  {
    assert [s][1..] == [];
    assert s + "" == s;
  }

  lemma TextsAppend(a: seq<Div>, b: seq<Div>, fmt: real -> string)
    ensures Texts(a + b, fmt) == Texts(a, fmt) + Texts(b, fmt)
  {
    var l, r := Texts(a + b, fmt), Texts(a, fmt) + Texts(b, fmt);
    forall k | 0 <= k < |l|
      ensures l[k] == r[k]
    {
      if k < |a| {
        assert (a + b)[k] == a[k];
      } else {
        assert (a + b)[k] == b[k - |a|];
      }
    }
  }

  /** The text opens with the expander, closes with the viewport indicator,
      and has the rectangles' texts in between, in order. */
  lemma HtmlOfFrame(height: real, bs: seq<Div>, fmt: real -> string)
    ensures InnerHtml(Frame(height, bs), fmt)
         == ExpanderHtml(height, fmt) + InnerHtml(bs, fmt) + IndicatorHtml
  {
    var head, tail := [Expander(height)], [Indicator];
    assert Frame(height, bs) == head + bs + tail;
    TextsAppend(head + bs, tail, fmt);
    TextsAppend(head, bs, fmt);
    var e, tb, i := ExpanderHtml(height, fmt), Texts(bs, fmt), IndicatorHtml;
    assert Texts(head, fmt) == [e];
    assert Texts(tail, fmt) == [i];
    ConcatAppend([e] + tb, [i]);
    ConcatAppend([e], tb);
    ConcatSingleton(e);
    ConcatSingleton(i);
  }
}
