/** How `xivmap(config)` settles its options: `toEl` turns a selector into
    an element, a missing minimap falls back to the `.xivmap` element, a
    missing content element to the root element, and missing selectors to
    the built-in catalogue. The document's `querySelector` is a parameter. */
module Config {

  import opened Wrappers
  import opened Geometry

  /** The built-in selectors, one per kind of content element, in the order
      `xivmap.selectors()` returns them. */
  function DefaultSelectors(): (tags: seq<string>)
    ensures |tags| == 26
    ensures tags[0] == "a" && tags[|tags| - 1] == "pre"
    ensures forall i :: 0 <= i < |tags| ==> IsTagName(tags[i])
  {
    ["a", "h1", "h2", "h3", "h4", "h5", "h6", "input", "button",
     "q", "img", "map", "object", "audio", "video", "code", "textarea",
     "ul", "ol", "dl", "table", "form", "blockquote", "address",
     "p", "pre"]
  }

  /** No selector appears twice in the catalogue. */
  lemma DefaultSelectorsAreDistinct()
    ensures forall i, j :: 0 <= i < j < |DefaultSelectors()| ==> DefaultSelectors()[i] != DefaultSelectors()[j]
  {
  }

  /** A bare lower-case type selector: letters, then possibly digits. */
  predicate IsTagName(s: string) {
    && |s| >= 1
    && 'a' <= s[0] <= 'z'
    && forall i :: 0 <= i < |s| ==> ('a' <= s[i] <= 'z') || ('0' <= s[i] <= '9')
  }

  /** The answer of `document.querySelector(selector)`: the first match,
      `null`, or the `SyntaxError` an invalid selector throws. */
  datatype Lookup = Found(element: Element) | NoMatch | BadSelector

  /** A configuration value that names an element: left out, a selector
      string, or an element. */
  datatype ElementRef = Absent | Selector(text: string) | Node(element: Element)

  /** The `selectors` option: left out, one selector string, or a list. */
  datatype SelectorsOption = NoSelectors | SelectorText(text: string) | SelectorList(items: seq<string>)

  datatype Input = Input(minimap: ElementRef, content: ElementRef, selectors: SelectorsOption)

  /** The settled options the minimap works with. */
  datatype Options = Options(minimap: Element, content: Element, selectors: SelectorsOption)

  datatype ConfigError =
    | InvalidSelector(text: string)  // `querySelector` threw
    | NoMinimap                      // no minimap element: the first render dereferences `null`

  /** `toEl`: a string is looked up, anything else is taken as it is. */
  function ToEl(r: ElementRef, query: string -> Lookup): (l: Lookup)
    ensures r.Selector? ==> l == query(r.text)
    ensures r.Node? ==> l == Found(r.element)
    ensures r.Absent? ==> l == NoMatch
  {
    match r
    case Absent => NoMatch
    case Selector(text) => query(text)
    case Node(e) => Found(e)
  }

  /** JavaScript truth of the `selectors` option: the empty string is
      false, any array (even an empty one) is true. */
  predicate IsTruthy(s: SelectorsOption) {
    s.SelectorList? || (s.SelectorText? && s.text != "")
  }

  /** `config.selectors || xivmap.selectors()`. */
  function ResolveSelectors(s: SelectorsOption): (r: SelectorsOption)
    ensures IsTruthy(s) ==> r == s
    ensures !IsTruthy(s) ==> r == SelectorList(DefaultSelectors())
  {
    if IsTruthy(s) then s else SelectorList(DefaultSelectors())
  }

  /** `toEl(ref) || fallback`, with `querySelector`'s exception passed on. */
  function ElementOr(r: ElementRef, query: string -> Lookup, fallback: Lookup): (l: Lookup)
    ensures ToEl(r, query).Found? ==> l == ToEl(r, query)
    ensures ToEl(r, query).NoMatch? ==> l == fallback
    ensures ToEl(r, query).BadSelector? ==> l == BadSelector
  {
    match ToEl(r, query)
    case Found(e) => Found(e)
    case NoMatch => fallback
    case BadSelector => BadSelector
  }

  /** `toEl(config.minimap) || document.querySelector('.xivmap')`. */
  function MinimapLookup(cfg: Input, query: string -> Lookup): Lookup {
    ElementOr(cfg.minimap, query, query(".xivmap"))
  }

  /** `toEl(config.content) || document.documentElement`: never `null`. */
  function ContentLookup(cfg: Input, query: string -> Lookup, root: Element): (l: Lookup)
    ensures !l.NoMatch?
    ensures l.BadSelector? ==> cfg.content.Selector?
  {
    ElementOr(cfg.content, query, Found(root))
  }

  /** The label of an invalid minimap lookup: the given selector when that
      is what threw, otherwise the `.xivmap` fallback. */
  function MinimapSelectorText(cfg: Input, query: string -> Lookup): (text: string)
    ensures ToEl(cfg.minimap, query).BadSelector? ==> cfg.minimap.Selector? && text == cfg.minimap.text
    ensures !ToEl(cfg.minimap, query).BadSelector? ==> text == ".xivmap"
  {
    if ToEl(cfg.minimap, query).BadSelector? then cfg.minimap.text else ".xivmap"
  }

  /** The selector group the first render hands to `querySelectorAll`. */
  function QueriedGroup(cfg: Input): string {
    SelectorGroup(ResolveSelectors(cfg.selectors))
  }

  /** The options object `xivmap` builds, then the first render, which fails
      at once when there is no minimap element, and next when
      `querySelectorAll` rejects the selector group. `accepts` says which
      groups the document's selector parser takes. Fields are settled in
      order: minimap, then content, so an invalid content selector is
      reported even when the minimap is missing. */
  function Resolve(cfg: Input, query: string -> Lookup, accepts: string -> bool, root: Element): (r: Result<Options, ConfigError>)
    ensures r.Success? <==> && MinimapLookup(cfg, query).Found?
                            && !ContentLookup(cfg, query, root).BadSelector?
                            && accepts(QueriedGroup(cfg))
    ensures r.Success? ==> Found(r.value.minimap) == MinimapLookup(cfg, query)
    ensures r.Success? ==> Found(r.value.content) == ContentLookup(cfg, query, root)
    ensures MinimapLookup(cfg, query).BadSelector? ==>
              r == Failure(InvalidSelector(MinimapSelectorText(cfg, query)))
    ensures !MinimapLookup(cfg, query).BadSelector? && ContentLookup(cfg, query, root).BadSelector? ==>
              cfg.content.Selector? && r == Failure(InvalidSelector(cfg.content.text))
    ensures MinimapLookup(cfg, query).NoMatch? && !ContentLookup(cfg, query, root).BadSelector? ==>
              r == Failure(NoMinimap)
    ensures MinimapLookup(cfg, query).Found? && !ContentLookup(cfg, query, root).BadSelector? && !accepts(QueriedGroup(cfg)) ==>
              r == Failure(InvalidSelector(QueriedGroup(cfg)))
    ensures r.Success? ==> r.value.selectors == ResolveSelectors(cfg.selectors)
    ensures r.Success? && cfg.minimap.Node? ==> r.value.minimap == cfg.minimap.element
    ensures r.Success? && cfg.minimap.Absent? ==> query(".xivmap") == Found(r.value.minimap)
    ensures r.Success? && cfg.content.Absent? ==> r.value.content == root
    ensures r.Success? && cfg.content.Node? ==> r.value.content == cfg.content.element
    ensures cfg.minimap.Absent? && query(".xivmap") == NoMatch && !cfg.content.Selector? ==> r == Failure(NoMinimap)
    ensures cfg.minimap.Selector? && query(cfg.minimap.text) == BadSelector ==> r == Failure(InvalidSelector(cfg.minimap.text))
  {
    var minimap := MinimapLookup(cfg, query);
    var content := ContentLookup(cfg, query, root);
    if minimap.BadSelector? then
      Failure(InvalidSelector(MinimapSelectorText(cfg, query)))
    else if content.BadSelector? then
      Failure(InvalidSelector(cfg.content.text))
    else if minimap.NoMatch? then
      Failure(NoMinimap)
    else if !accepts(QueriedGroup(cfg)) then
      Failure(InvalidSelector(QueriedGroup(cfg)))
    else
      Success(Options(minimap.element, content.element, ResolveSelectors(cfg.selectors)))
  }

  /** The selector string `querySelectorAll` receives: a list is turned into
      text by joining its items with commas. */
  function SelectorGroup(s: SelectorsOption): string
  {
    match s
    case NoSelectors => ""
    case SelectorText(text) => text
    case SelectorList(items) => Join(items)
  }

  function Join(items: seq<string>): string
    decreases |items|
  {
    if |items| == 0 then ""
    else if |items| == 1 then items[0]
    else items[0] + "," + Join(items[1..])
  }

  /** With no minimap or content option and a `.xivmap` element in the
      document, the minimap is that element and the content the root, as
      long as the selector group parses. */
  lemma ResolveDefaults(cfg: Input, query: string -> Lookup, accepts: string -> bool, root: Element)
    requires cfg.minimap.Absent? && cfg.content.Absent? && query(".xivmap").Found?
    ensures accepts(QueriedGroup(cfg)) ==>
              Resolve(cfg, query, accepts, root) == Success(Options(query(".xivmap").element, root, ResolveSelectors(cfg.selectors)))
    ensures !accepts(QueriedGroup(cfg)) ==>
              Resolve(cfg, query, accepts, root) == Failure(InvalidSelector(QueriedGroup(cfg)))
  {
  }

  /** Given elements are used as they are, without any lookup. */
  lemma ResolveGivenElements(cfg: Input, query: string -> Lookup, accepts: string -> bool, root: Element)
    requires cfg.minimap.Node? && cfg.content.Node? && accepts(QueriedGroup(cfg))
    ensures Resolve(cfg, query, accepts, root)
         == Success(Options(cfg.minimap.element, cfg.content.element, ResolveSelectors(cfg.selectors)))
  {
  }

  /** A minimap selector that matches nothing falls back to `.xivmap`;
      without that the first render fails, and an invalid `.xivmap` lookup
      is reported under its own name. */
  lemma ResolveFallsBackToXivmap(cfg: Input, query: string -> Lookup, accepts: string -> bool, root: Element)
    requires cfg.minimap.Selector? && query(cfg.minimap.text) == NoMatch
    requires !ContentLookup(cfg, query, root).BadSelector?
    ensures query(".xivmap").Found? && accepts(QueriedGroup(cfg)) ==>
              Resolve(cfg, query, accepts, root).Success?
              && Resolve(cfg, query, accepts, root).value.minimap == query(".xivmap").element
    ensures query(".xivmap") == NoMatch ==> Resolve(cfg, query, accepts, root) == Failure(NoMinimap)
    ensures query(".xivmap") == BadSelector ==> Resolve(cfg, query, accepts, root) == Failure(InvalidSelector(".xivmap"))
  {
  }

  /** An empty `selectors` array is truthy, so it is kept, and it reaches
      `querySelectorAll` as the empty group, which the parser rejects. */
  lemma EmptySelectorListIsRejected(cfg: Input, query: string -> Lookup, accepts: string -> bool, root: Element)
    requires cfg.selectors == SelectorList([]) && !accepts("")
    requires MinimapLookup(cfg, query).Found? && !ContentLookup(cfg, query, root).BadSelector?
    ensures Resolve(cfg, query, accepts, root) == Failure(InvalidSelector(""))
  {
    assert QueriedGroup(cfg) == "";
  }

  /** Splits a selector group at its commas. */
  function Split(s: string): (parts: seq<string>)
    ensures |parts| >= 1
    decreases |s|
  {
    if |s| == 0 then [""]
    else if s[0] == ',' then [""] + Split(s[1..])
    else var rest := Split(s[1..]); [[s[0]] + rest[0]] + rest[1..]
  }

  lemma {:induction false} SplitPrefix(item: string, rest: string)
    requires ',' !in item
    ensures Split(item + "," + rest) == [item] + Split(rest)
    decreases |item|
  {
    if |item| == 0 {
      assert item + "," + rest == [','] + rest;
      assert ([','] + rest)[1..] == rest;
    } else {
      var s := item + "," + rest;
      assert s[0] == item[0];
      assert s[1..] == item[1..] + "," + rest;
      assert ',' !in item[1..] by {
        assert forall c :: c in item[1..] ==> c in item;
      }
      SplitPrefix(item[1..], rest);
      assert [item[0]] + item[1..] == item;
    }
  }

  lemma {:induction false} SplitPlain(item: string)
    requires ',' !in item
    ensures Split(item) == [item]
    decreases |item|
  {
    if |item| > 0 {
      assert ',' !in item[1..] by {
        assert forall c :: c in item[1..] ==> c in item;
      }
      SplitPlain(item[1..]);
      assert [item[0]] + item[1..] == item;
    }
  }

  /** The comma-joined group lists exactly the selectors, in order, as long
      as none of them contains a comma itself. */
  lemma {:induction false} JoinSplitRoundTrip(items: seq<string>)
    requires |items| >= 1
    requires forall i :: 0 <= i < |items| ==> ',' !in items[i]
    ensures Split(Join(items)) == items
    decreases |items|
  {
    if |items| == 1 {
      SplitPlain(items[0]);
    } else {
      JoinSplitRoundTrip(items[1..]);
      SplitPrefix(items[0], Join(items[1..]));
      assert [items[0]] + items[1..] == items;
    }
  }

  /** Without a `selectors` option the group queried is the 26 built-in
      tags, in catalogue order. */
  lemma DefaultGroupListsTheCatalogue(cfg: Input)
    requires !IsTruthy(cfg.selectors)
    ensures Split(SelectorGroup(ResolveSelectors(cfg.selectors))) == DefaultSelectors()
  {
    var tags := DefaultSelectors();
    forall i | 0 <= i < |tags|
      ensures ',' !in tags[i]
    {
      assert IsTagName(tags[i]);
    }
    JoinSplitRoundTrip(tags);
  }

  /** The jQuery plugin: the matched set's first element is the default
      minimap. A missing or empty-string `minimap` option is replaced. */
  function PluginInput(cfg: Input, first: Option<Element>): (r: Input)
    ensures r.content == cfg.content && r.selectors == cfg.selectors
    ensures cfg.minimap.Node? || (cfg.minimap.Selector? && cfg.minimap.text != "") ==> r.minimap == cfg.minimap
    ensures first.Some? && (cfg.minimap.Absent? || cfg.minimap == Selector("")) ==> r.minimap == Node(first.value)
  {
    var given := cfg.minimap.Node? || (cfg.minimap.Selector? && cfg.minimap.text != "");
    if given then cfg
    else cfg.(minimap := if first.Some? then Node(first.value) else Absent)
  }
}
