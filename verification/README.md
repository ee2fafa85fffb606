# xivmap minimap core, modelled in Dafny

xivmap draws a scaled-down "minimap" of a page (or of one scrolling
element) inside a container element. It does five things:

- It settles its options.
- It computes where every sampled content element sits.
- It projects each element into a rounded rectangle and writes the
  rectangles as `<div>` markup.
- It keeps a viewport indicator in step with the scroll offset, and scrolls
  when the user drags over the minimap.
- It re-renders on resize through a debounce.

The model keeps all of this as pure functions over immutable values. An
element is an `Element` record: a node identity, `offsetLeft`,
`offsetTop`, `offsetWidth`, `offsetHeight`, `tagName`, an opaque
bounding-rect corner taken in the current scroll state, and its optional
`offsetParent`. The scroll state is
a `Browser` record: the window's page offsets and inner height, and the
content element's own `scrollTop`. All lengths are exact `real`s.

Modules follow the program's parts:

- `Numbers`: `Math.round` and the decimal printing of integers.
- `Geometry`: elements, the `offsetParent` chain and `position`.
- `Markup`: the ratio, the projection and the `<div>` list.
- `MarkupText`: the HTML text of the `<div>` list.
- `Viewport`: indicator height and margin, and the drag formula.
- `Debounce`: the timer state machine.
- `Config`: `toEl`, the defaults and the selector catalogue.
- `Xivmap`: `render`, the scroll path, the drag path and the 250 ms resize
  debouncer.

Browser services are not modelled. These become parameters or returned
values:

- `querySelector` is a function from selector text to a `Lookup` result.
- `querySelectorAll` is the sequence of elements it returned, and whether
  it accepts a selector group is a predicate `accepts`.
- The formatting of non-integer numbers is a function `fmt`.
- The clock is an integer time passed with each event.
- `window.scrollTo` becomes a returned `ScrollRequest`.

## Model

| member | source | states |
|---|---|---|
| Numbers.Round | xivmap.js:82-85 | `Math.round`: the result is the integer n with n − ½ ≤ x < n + ½ |
| Numbers.RoundingIsUnique | xivmap.js:82-85 | at most one integer is the rounding of a given value, so the rounded fields are determined |
| Numbers.RoundOfInteger | xivmap.js:82-85 | a value that is already whole is left unchanged |
| Numbers.RoundHalfGoesUp | xivmap.js:82-85 | halves go toward +∞ for negative values too: n + ½ ↦ n + 1 and n − ½ ↦ n |
| Numbers.RoundIsMonotone | xivmap.js:82-85 | rounding never reverses the order of two values |
| Numbers.IntToString | xivmap.js:88-91 | the text concatenated for a rounded pixel value is non-empty, made of digits, and has a leading `-` exactly when the value is negative |
| Numbers.IntTextRoundTrip | xivmap.js:88-91 | the decimal text of every integer reads back as that integer |
| Numbers.IntTextIsInjective | xivmap.js:88-91 | two different pixel values never print the same text |
| Geometry.OffsetChain | xivmap.js:164-169 | the chain starts at the element, each next entry is the previous one's `offsetParent`, and it ends at an element with no `offsetParent` |
| Geometry.PinnedPositionIsChainSum | xivmap.js:164-169 | the pinned position is the sum of the offsets over the whole chain; an element with no `offsetParent` reports just its own offsets |
| Geometry.PinnedPosition | xivmap.js:164-169 | an element with no `offsetParent` reports just its own offsets (the full chain sum is `Geometry.PinnedPositionIsChainSum`) |
| Geometry.PinnedPositionByWalk | xivmap.js:164-169 | the do-while walk up the `offsetParent` links accumulates exactly the chain sum |
| Geometry.Position | xivmap.js:154-177 | an element's position relative to itself is the origin |
| Geometry.PinnedAbsolute | xivmap.js:155-169 | with no ancestor and pinned mode in effect (either flag spelling), `position` is the chain sum |
| Geometry.BooleanArgumentIsTheFlag | xivmap.js:155-157 | a boolean second argument is the pinned flag (`PinnedMode`): the third argument is ignored, and no ancestor is taken |
| Geometry.RelativeIsDifference | xivmap.js:157-161 | with an ancestor, the result is the componentwise difference of the two positions, both taken in the same mode |
| Geometry.PinnedRelativeIsChainDifference | xivmap.js:157-169 | pinned and relative: the difference of the two chain sums |
| Geometry.PinnedRelativeAlongChain | xivmap.js:157-169 | when the ancestor is the k-th link of the element's `offsetParent` chain, the relative pinned position is the sum of the offsets of the k links below it |
| Geometry.PinnedIgnoresBrowser | xivmap.js:164-174 | pinned results never depend on the scroll state; only an explicit `false` flag reads the window |
| Geometry.RelativeIgnoresPageScroll | xivmap.js:157-161 | in bounding-rect mode the page offsets cancel out of a relative position, which is the difference of the two bounding rects |
| Markup.ScaleRatio | xivmap.js:74 | the ratio times the content width is the minimap width, and the ratio is non-negative when the minimap width is |
| Markup.Project | xivmap.js:81-85 | each of width, height, top and left is its own field times the ratio, rounded on its own; top and left come from the pinned position relative to the content element; the tag is the element's `tagName` (line 92) |
| Markup.Boxes | xivmap.js:79-94 | one rectangle per sampled element, in query order |
| Markup.Divs | xivmap.js:74-95 | n + 2 divs: the expander of height `content.offsetHeight × ratio` first, then rectangle i + 1 for element i, then the indicator last |
| Markup.DivsShape | xivmap.js:76-95 | the expander occurs only first and the indicator only last; every div in between is a rectangle carrying its element's tag name |
| Markup.BoxesIgnoreScrolling | xivmap.js:81-94 | the rectangles do not depend on how far the page or the content element is scrolled |
| Markup.DivsIgnoreScrolling | xivmap.js:73-95 | the whole `<div>` list does not depend on how far the page or the content element is scrolled |
| Markup.ProjectionExample | xivmap.js:74-85 | 1000 px content in a 100 px minimap: an element at (0, 500), 200 by 50, becomes top 50, left 0, 20 by 5 |
| MarkupText.DivElementHasTwoTags | xivmap.js:76-77 | a `<div>` whose attributes hold no `<` has exactly two `<`: its opening and closing tags |
| MarkupText.StyleAttributeHasNoAngle | xivmap.js:86-91 | the generated style attribute holds no `<` |
| MarkupText.DivHtmlHasTwoTags | xivmap.js:76-93 | the expander (`ExpanderHtml`), each rectangle (`BoxHtml`) and the indicator (`IndicatorHtml`) are each one `<div>` element, if the number text and the tag name hold no `<` |
| MarkupText.HtmlTagCount | xivmap.js:78-95 | the concatenated text (`InnerHtml`) holds two `<` per div |
| MarkupText.MarkupDivCount | xivmap.js:73-96 | the `innerHTML` written for n sampled elements (`InnerHtml` of `Markup.Divs`) holds exactly n + 2 `<div>` elements |
| MarkupText.HtmlOfFrame | xivmap.js:76-95 | `InnerHtml` is the expander's text, then the rectangles' texts in order, then the indicator's text |
| Viewport.IndicatorHeight | xivmap.js:100-103 | indicator height divided by the ratio is `window.innerHeight` |
| Viewport.ScrollOffset | xivmap.js:107 | the scroll offset is `pageYOffset` when the content is the root node (`===`, by node identity), and the content's `scrollTop` otherwise |
| Viewport.IndicatorMargin | xivmap.js:108-110 | indicator margin divided by the ratio is the scroll offset |
| Viewport.PointerDistance | xivmap.js:122-124 | pointer distance is `pageY` minus the minimap's page top (its bounding-rect top plus `pageYOffset`, lines 171-172) |
| Viewport.DragScroll | xivmap.js:134-139 | the requested scroll offset puts the indicator's centre exactly at the pointer distance |
| Viewport.SyncThenDragIsIdentity | xivmap.js:110-139 | dragging at the centre of the indicator drawn for scroll S requests scroll S |
| Viewport.DragIsMonotone | xivmap.js:134-139 | a pointer further down never requests a smaller scroll offset |
| Viewport.RoundTripWithinLayoutRounding | xivmap.js:103-139 | if layout rounds the indicator's `offsetHeight` by at most ½ px, the round trip is off by at most ¼ px divided by the ratio |
| Viewport.IndicatorExample | xivmap.js:103-110 | with ratio 0.1, an 800 px window gives an 80 px indicator and a 400 px scroll gives a 40 px margin |
| Viewport.UpdateScrollPositionAsWritten | xivmap.js:134-140 | as written, the drag always scrolls the window, to the offset `DragScroll` gives |
| Viewport.Apply | xivmap.js:139 | a window scroll request `scrollTo(0, y)` sets `pageYOffset` to y and `pageXOffset` to 0; a content scroll request moves only the content's `scrollTop` |
| Viewport.AsWrittenDragMissesContentScroll | xivmap.js:107-139 | for any content element other than the root, scrolled to the top, the window scroll as written leaves the offset `ScrollOffset` reads at 0, so a drag 50 px down leaves the indicator's centre at 10 |
| Viewport.UpdateScrollPosition | xivmap.js:107-139 | corrected: scrolls the window exactly when the content is the root element, else the content element, always to `DragScroll` |
| Viewport.DragCentresIndicator | xivmap.js:107-139 | after the corrected drag, the offset `ScrollOffset` reads puts the indicator's centre under the pointer, for the root and for any other content element |
| Viewport.CorrectionAgreesOnRoot | xivmap.js:134-140 | for the root element the correction asks for the same scroll as the code as written |
| Debounce.Idle | xivmap.js:185-186 | a fresh debouncer has no pending timer |
| Debounce.Call | xivmap.js:202-214 | a call records its time; it schedules a timer for `now + wait` only when none is pending (at most one timer); it runs the function at once exactly in `immediate` mode with no timer pending |
| Debounce.Fire | xivmap.js:188-200 | a timer firing less than `wait` after the last call reschedules it for that call plus `wait` and does not run the function; otherwise it clears the timer and runs the function exactly when `immediate` is unset |
| Debounce.RunAppend | xivmap.js:185-215 | running two event sequences one after the other equals running their concatenation, and their invocation counts add up |
| Debounce.BurstNeverInvokes | xivmap.js:188-207 | while every event of a burst comes less than `wait` after the latest call, nothing runs and a timer stays pending |
| Debounce.BurstCollapsesToOneInvocation | xivmap.js:185-215 | a call, a burst of further calls, then one firing at least `wait` after the last call runs the function exactly once and leaves no timer |
| Debounce.ImmediateRunsOnlyOnCall | xivmap.js:195-209 | in `immediate` mode the function runs on a call made with no timer pending, and never when the timer fires |
| Config.DefaultSelectors | xivmap.js:18-25 | the built-in catalogue has 26 entries, from `a` to `pre`, each a bare lower-case tag name |
| Config.DefaultSelectorsAreDistinct | xivmap.js:19-24 | no selector appears twice in the catalogue |
| Config.ToEl | xivmap.js:118-120 | a string is looked up with `querySelector`; an element is taken as it is |
| Config.ResolveSelectors | xivmap.js:42 | a truthy `selectors` option is kept; a missing one or an empty string gives the catalogue |
| Config.ElementOr | xivmap.js:40-41 | `toEl(x)`, or else the fallback: an element found is kept, no match gives the fallback, and an invalid selector's error passes through |
| Config.ContentLookup | xivmap.js:41 | the content lookup never comes back empty, since the root element is the fallback; it can only fail on a content selector |
| Config.MinimapSelectorText | xivmap.js:40 | an invalid minimap lookup is labelled with the given selector when that threw, and with `.xivmap` otherwise |
| Config.Resolve | xivmap.js:39-45 | success exactly when the minimap lookup (falling back to `.xivmap`) finds an element, the content lookup (falling back to the root) raises no error, and `querySelectorAll` accepts the selector group (lines 74-75, the first render); on success the options hold those elements and the resolved selectors; an invalid minimap selector, then an invalid content selector, then a missing minimap, then a rejected selector group are the failures, in that order |
| Config.ResolveDefaults | xivmap.js:39-45 | with no minimap or content option, the minimap is the `.xivmap` element and the content the root element; a rejected selector group (line 75) is the only failure left |
| Config.ResolveGivenElements | xivmap.js:39-43 | element options are used as they are, with no lookup |
| Config.ResolveFallsBackToXivmap | xivmap.js:40-45 | a minimap selector that matches nothing falls back to `.xivmap`; if that is missing too, the first render fails; an invalid `.xivmap` lookup is reported as `.xivmap` |
| Config.EmptySelectorListIsRejected | xivmap.js:75 | an empty `selectors` array is kept as truthy by line 42, reaches `querySelectorAll` as the empty group, and the first render fails with that group |
| Config.JoinSplitRoundTrip | xivmap.js:75 | joining a selector list with commas (`Join`) for `querySelectorAll` loses nothing when no item contains a comma |
| Config.DefaultGroupListsTheCatalogue | xivmap.js:42-75 | without a `selectors` option the group queried (`SelectorGroup`) lists the 26 built-in tags, in catalogue order |
| Config.PluginInput | xivmap.js:5-9 | the jQuery plugin keeps a given minimap and the other options; a missing or empty minimap becomes the first matched element |
| Xivmap.ResizeDebouncer | xivmap.js:38 | the resize debouncer waits 250 ms, trailing edge, and starts with no timer |
| Xivmap.Render | xivmap.js:53-57 | n + 2 divs with the expander first and the indicator last; the indicator height and margin are the window height and scroll offset scaled by minimap width over content width |
| Xivmap.OnScroll | xivmap.js:61-110 | a scroll event leaves the markup and indicator height alone and moves the margin to the scaled scroll offset |
| Xivmap.ScrollPathMatchesRender | xivmap.js:53-111 | after the page or the content element scrolls (any change of the scroll state with the same window height), updating only the indicator gives the view a full render would give |
| Xivmap.OnDrag | xivmap.js:122-139 | with the corrected drag, the target is the window exactly when the content is the root element, and the scaled target plus half the indicator height is the pointer distance |
| Xivmap.OnDragAsWritten | xivmap.js:126-139 | as written, a drag always asks the window to scroll, to the offset that would centre the indicator under the pointer |
| Xivmap.DragThenScrollCentresIndicator | xivmap.js:99-139 | with the corrected drag, for the root document and for any other content element, dragging then letting the scroll handler run draws the indicator centred under the pointer |
| Xivmap.AsWrittenDragLeavesViewUnchanged | xivmap.js:106-139 | as written, dragging the minimap of a content element other than the root, then running the scroll handler, leaves the whole view exactly as it was |

## Left out

- DOM and browser calls are not modelled: `querySelectorAll`, `getBoundingClientRect`, the `innerHTML` write, `scrollTo`, `style` writes. Their results are parameters and their effects are returned values.
- Listener attachment, detachment and `destroy` are event plumbing and are not modelled. The per-drag `mouseup` listener is never removed by the source. When the content is not the root element, the resize listener sits on the content element.
- Element identity (`===` at lines 60, 67 and 107) is modelled by the `node` number each `Element` carries (`Geometry.SameNode`). The content element's `scrollTop` lives in the `Browser` record, so a scroll never changes an element's offset values.
- Geometry.RelativeIgnoresPageScroll holds the bounding rects fixed while the page offsets vary. In a browser a page scroll also moves `getBoundingClientRect`, so the model does not promise that a relative position is unchanged by scrolling, only that the page-offset terms cancel. Each `clientRect` is a snapshot taken in the scroll state it is combined with.
- `console.log` is not modelled. The jQuery plugin is modelled only in its `minimap` default (`Config.PluginInput`).
- `setTimeout` and `Date.now` are not modelled. Time is an integer passed with each event, and a firing is an event.
- Debounce.Call and Debounce.Fire do not model `result`, `context` or `args`. These only carry the wrapped function's return value and arguments, and `render` takes none.
- IEEE double arithmetic is not modelled. All lengths are exact reals, so round-off of the ratio and of the drag round trip is out of scope.
- MarkupText.ExpanderHtml takes the printing of non-integer numbers (the expander height) as the parameter `fmt`. JavaScript's shortest-round-trip number printing is not modelled.
- Numbers.IntToString prints in plain decimal. JavaScript switches to exponent notation at 1e21, so pixel values that large are outside the model.
- Markup.ScaleRatio requires a positive content width. The source divides without a guard, and a zero width would give Infinity or NaN.
- Markup.Divs, Xivmap.Render and Xivmap.OnScroll require a positive content width too, for the same reason.
- Viewport.DragScroll and Xivmap.OnDrag also require a positive ratio, i.e. a positive minimap width, for the same reason.
- `scrollTo` clamping the offset to the scrollable range is a browser effect and is not modelled.
- The minimap width could change when the markup is written, and the three ratio computations inside `render` could then differ. The model computes all three from one layout.
- The source has no visibility or clipping filter, no per-line text expansion, no autohide, and no skipping of zero-size rectangles. This model follows the code, so a div is emitted for every matched element. Later versions of xivmap have these features.
- `gulpfile.js` holds build and deploy tasks only and is not part of this model.

## Findings

| source | as written | input that shows it | evidently intended | confidence | as-written member | corrected member |
|---|---|---|---|---|---|---|
| xivmap.js:139 | the drag always calls `window.scrollTo`, yet the indicator follows `content.scrollTop` when the content is not the root element (lines 60, 107) | content is a scrolling element other than the root; ratio 0.1; indicator height 20; pointer distance 50: the window is asked to scroll to 400 while `scrollTop` stays 0, so the indicator's centre stays at 10, not 50 | scroll the content element when it is the one being tracked | not executed; medium | Viewport.AsWrittenDragMissesContentScroll | Viewport.UpdateScrollPosition |
