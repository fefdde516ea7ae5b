# Scroll view paginator plugin, modelled in Dafny

This project models the core of the YUI scroll view paginator plugin
(`dualaxispaginator/paginator-plugin.js`). The plugin turns a freely
scrolling view into a sequence of pages. It keeps a registry of per-page
records (`cards`: scroll extent, node, cached offsets), a current page index
(`_cIndex`) and an `index` attribute. It routes finished gestures and wheel
events to `next`/`prev`. It rewrites the host's scroll-to requests while a
gesture is active. When memory optimisation is on, it hides the pages
outside a window of `2*padding + 1` pages around the current one.

Files and modules:

- `types.dfy` (`PaginatorTypes`): page records, gestures, scroll arguments and
  plans, configuration, and the `Outcome` of a handler: `Ignored`,
  `Moved(scroll)` or `Failed(error)`.
- `splice.dfy` (`JsArray`): `Array.prototype.splice(start, deleteCount)` as
  section 15.4.4.12 of ECMA-262 (5.1 edition) defines it, including the
  negative-start rule.
- `stage.dfy` (`Stage`): `_getStage`. It has a reference definition of the
  window start, the imperative `GetStage` that reassigns `start` and splices,
  and the lemmas about the visible/hidden split.
- `routing.dfy` (`Routing`): the plugin's pure decisions. These are the
  `prev` target, gesture and wheel classification, `_onScrollTo`'s argument
  rewriting, `scrollToIndex`'s axis, duration and easing choices, and the
  initializer's padding and flick-axis rules.
- `paginator.dfy` (`Paginator`): the class `Paginator`. Its fields are the
  plugin's state plus the host fields the plugin writes (`scrollY`,
  `_maxScrollY`, `_gesture`, the flick axis). Its handlers are methods whose
  `modifies` clauses name exactly the fields they write.

A JavaScript exception is modelled as an error outcome. This covers a
missing `cards[i]`, a null `pageNodes.item(i)` and an undefined
`host._gesture`. Assignments made before the throw stay made, as in
JavaScript. Example: `set('index', 7)` with no record 7 leaves the `index`
attribute at 7 and `_cIndex` where it was.

### Behaviour as written

Where the plugin's documented intent and its code differ, the model follows
the code:

- `_getStage` does not clamp `start` at 0 after the overflow shift. With
  fewer pages than a window, `start` is negative, and `splice` counts it
  from the end. Only the last `n - max(2n - w, 0)` pages stay visible, and
  the current page can be hidden: two pages, padding 1, index 0 hides page 0
  (`Stage.StageShortList`, `Stage.StageHidesCurrentPage`).
- `_gestureMoveEnd` navigates only on gestures along `'x'`, whatever the
  configured axis (`Routing.GestureIntent`).
- `next` and `prev` set the index without a `src`. So gesture and wheel
  navigation also start a page scroll (`Paginator.Paginator.IndexChanged`).
- `next` has no upper bound. Past the last record it requests a page with
  no record, the commit throws, and `_cIndex` stays
  (`Paginator.Paginator.Next`). After a gesture this leaves `_uiEnabled`
  false until the next scroll end. Records are never removed, so after a
  refresh with fewer page nodes `next` can land on a stale record. Then
  `_cIndex` moves past the page list, and only the page scroll throws,
  because there is no page node to measure.
- A supplied easing is replaced by the duration value
  (`Routing.SuppliedEasingDiscarded`).
- A configured padding of 0 becomes 1. A negative configured padding is kept.
- With no gesture, `_onScrollTo` passes the arguments through unchanged.
  During a `'y'` gesture it targets the current page's node. During any
  other gesture it targets the content box.

## Model

| member | source | states |
|---|---|---|
| `JsArray.SpliceRoundTrip` | dualaxispaginator/paginator-plugin.js:423-424 | re-inserting the removed run at the actual start restores the list (deletion and insertion are inverses) |
| `JsArray.SplicePermutes` | dualaxispaginator/paginator-plugin.js:423-424 | removed and left-over elements together are a permutation of the list |
| `JsArray.Splice` | dualaxispaginator/paginator-plugin.js:423 | the removed run has the clamped delete count as its length, and removed plus left-over elements are as many as the list |
| `Stage.WindowStart` | dualaxispaginator/paginator-plugin.js:418-421 | the start is never after `m = max(index - padding, 0)`; it is `m` when a full window fits from `m`, and otherwise pulled back so the window ends exactly at the last page; with fewer pages than a window it is negative, as it is not clamped at 0 |
| `Stage.Stage` | dualaxispaginator/paginator-plugin.js:418-424 | visible and hidden together are as many as the pages; with `p >= 0` and a full window the visible run is exactly `2*padding + 1` long; with fewer pages it is `n - max(2n - w, 0)` long |
| `Stage.GetStage` | dualaxispaginator/paginator-plugin.js:408-430 | the imperative start computation and in-place splice give the visible/hidden split of the reference definition `min(max(index - padding, 0), total - (2*padding + 1))` |
| `Stage.StageWindow` | dualaxispaginator/paginator-plugin.js:412-424 | for `p >= 0`, `total >= 2p+1` and `0 <= index < total`: start lies in `[0, total-(2p+1)]`; visible is the contiguous run `[start, start+2p+1)`, which contains the current page; hidden is the rest in original order |
| `Stage.StagePartition` | dualaxispaginator/paginator-plugin.js:423-424 | for all inputs, visible and hidden together are a permutation of the pages; for distinct page nodes they are disjoint and cover every page |
| `Stage.StageOfPageNumbers` | dualaxispaginator/paginator-plugin.js:418-424 | for pages numbered `0..n-1`, `p >= 0`, `n >= 2p+1` and `0 <= index < n`: page `j` is visible iff `start <= j < start+2p+1`, hidden iff it is another page number |
| `Stage.StageShortList` | dualaxispaginator/paginator-plugin.js:418-424 | with fewer pages than a window, start is negative, the first `max(2n-w, 0)` pages are hidden and only the rest are visible, whatever the index |
| `Stage.StageHidesCurrentPage` | dualaxispaginator/paginator-plugin.js:418-424 | two pages, padding 1, index 0: page 0 (the current one) is hidden and page 1 shown |
| `Stage.StageExamples` | dualaxispaginator/paginator-plugin.js:408-430 | 5 pages, padding 1: index 2 shows {1,2,3} and hides {0,4}; index 4 shows {2,3,4} and hides {0,1} |
| `Routing.PrevTarget` | dualaxispaginator/paginator-plugin.js:513-523 | `prev` requests one page back, never below 0; from page 0 it requests 0 |
| `Routing.GestureIntent` | dualaxispaginator/paginator-plugin.js:267-286 | a finished gesture navigates iff its axis is `'x'`; forward iff `deltaX > 0`, back otherwise (including an unset delta) |
| `Routing.WheelIntent` | dualaxispaginator/paginator-plugin.js:295-324 | a wheel event navigates iff it is inside the bounding box and the axis is `'y'`; forward iff the delta is negative |
| `Routing.WheelGestureNeverNavigates` | dualaxispaginator/paginator-plugin.js:302-306 | the `{axis: 'y'}` gesture a wheel event leaves on the host never navigates a later gesture end |
| `Routing.RewriteScrollTo` | dualaxispaginator/paginator-plugin.js:235-259 | no gesture: arguments unchanged; `'y'` gesture: node becomes the current card's node and x is dropped, or throws without a current card; other gesture: node becomes the content box and y is dropped; duration and easing always pass through |
| `Routing.RewriteMovesOneAxis` | dualaxispaginator/paginator-plugin.js:242-253 | during a gesture, a rewritten scroll always drops one coordinate and always names its target node |
| `Routing.ScrollAttrFor` | dualaxispaginator/paginator-plugin.js:545 | the page scroll sets `scrollX` iff the axis is `'x'`, else `scrollY` |
| `Routing.OffsetPropertyFor` | dualaxispaginator/paginator-plugin.js:544 | the page offset is read from `offsetLeft` iff the axis is `'x'`, else `offsetTop` |
| `Routing.TransitionDuration` | dualaxispaginator/paginator-plugin.js:548 | the given duration, else 300 |
| `Routing.TransitionEasing` | dualaxispaginator/paginator-plugin.js:549 | no easing given: `'ease-out'`; an easing given: the resolved duration instead |
| `Routing.SuppliedEasingDiscarded` | dualaxispaginator/paginator-plugin.js:549 | two calls differing only in the easing they supply animate alike, and never with the supplied easing |
| `Routing.InitialPadding` | dualaxispaginator/paginator-plugin.js:131 | the configured padding unless absent or 0, then 1; never 0 |
| `Routing.InitialFlickAxis` | dualaxispaginator/paginator-plugin.js:139-147 | configured `'x'` forces flicks to `'y'`, `'y'` to `'x'`; any other value leaves the host flick axis as it was |
| `Routing.FlickAcrossPagedAxis` | dualaxispaginator/paginator-plugin.js:139-147 | for a configured `'x'`/`'y'`, the flick axis differs from the paged axis, and page scrolls never set the flick axis's attribute |
| `Paginator.MaxScrollY` | dualaxispaginator/paginator-plugin.js:210-218 | a page's scroll extent is `max(0, scrollHeight - widgetHeight)` |
| `Paginator.StagedHiddenExact` | dualaxispaginator/paginator-plugin.js:389-396 | for `p >= 0`, `n >= 2p+1` and `0 <= index < n`: applying the stage over distinct pages hides exactly the pages outside the window, keeps the current page shown, and leaves other nodes as they were |
| `Paginator.Paginator.constructor` | dualaxispaginator/paginator-plugin.js:125-153 | initial state: no cards, index 0, UI enabled; padding, optimisation flag, axis and host flick axis as the initializer sets them |
| `Paginator.Paginator.AfterHostRender` | dualaxispaginator/paginator-plugin.js:176-188 | the host's `_maxScrollY` becomes the current card's; throws without a current card |
| `Paginator.Paginator.AfterHostUIDimensionsChange` | dualaxispaginator/paginator-plugin.js:197-233 | `total` = node count; each page's `maxScrollY = max(0, scrollHeight - widgetHeight)`; new cards get the node and zero offsets; existing cards keep node and offsets; cards past the node count are untouched |
| `Paginator.Paginator.ScrollToIndex` | dualaxispaginator/paginator-plugin.js:538-560 | the target page node is shown, then scrolled to along the paged axis with the chosen duration and easing; an index with no page node throws and leaves the hidden set as it was |
| `Paginator.Paginator.AfterIndexChange` | dualaxispaginator/paginator-plugin.js:356-374 | with a card for `newVal`: `_cIndex = newVal`, host `_maxScrollY` and `scrollY` become that card's, and the page is scrolled to iff `src` is not `'ui'`; without one: throws before `_cIndex` changes |
| `Paginator.Paginator.SetIndex` | dualaxispaginator/paginator-plugin.js:505 | the `index` attribute takes the target, then the change is committed |
| `Paginator.Paginator.Next` | dualaxispaginator/paginator-plugin.js:500-506 | requests `_cIndex + 1` without an upper clamp; past the last record it throws and `_cIndex` stays; onto a stale record past the page list, `_cIndex` moves there and the page scroll throws |
| `Paginator.Paginator.Prev` | dualaxispaginator/paginator-plugin.js:513-523 | requests `max(_cIndex - 1, 0)`; at page 0 the index stays 0 |
| `Paginator.Paginator.GestureMoveEnd` | dualaxispaginator/paginator-plugin.js:267-286 | always disables the UI; calls `next` iff the gesture axis is `'x'` and `deltaX > 0`, `prev` iff axis `'x'` otherwise, else leaves the index alone; without a gesture it throws before anything changes |
| `Paginator.Paginator.BeforeHostMousewheel` | dualaxispaginator/paginator-plugin.js:295-324 | always sets the host gesture to `{axis: 'y'}`; inside the bounding box on a `'y'` paginator it calls `next` on a negative delta, else `prev`, and then blocks the default and the host unless the navigation throws; otherwise it neither navigates nor blocks |
| `Paginator.Paginator.Optimize` | dualaxispaginator/paginator-plugin.js:382-398 | off: returns false and changes nothing; on: returns `undefined` (modelled as `true`) and shows exactly the visible pages and hides exactly the leftover ones |
| `Paginator.Paginator.ScrollEnded` | dualaxispaginator/paginator-plugin.js:333-342 | writes the host `scrollY` into the current card's `scrollY` only, optimises, re-enables the UI; throws before anything changes without a current card |
| `Paginator.Paginator.ShowNodes` | dualaxispaginator/paginator-plugin.js:439-443 | the given nodes lose the hidden class |
| `Paginator.Paginator.HideNodes` | dualaxispaginator/paginator-plugin.js:452-456 | the given nodes get the hidden class |
| `Paginator.Paginator.UiEnable` | dualaxispaginator/paginator-plugin.js:464-466 | the UI is enabled |
| `Paginator.Paginator.UiDisable` | dualaxispaginator/paginator-plugin.js:474-476 | the UI is disabled |
| `Paginator.ReturnRestoresScroll` | dualaxispaginator/paginator-plugin.js:333-374 | once a scroll end has cached a page's `scrollY`, switching to another page and back restores the host's `scrollY`; the switch back then starts no scroll when `src` is `'ui'`, and otherwise the page scroll, which sets `scrollY` again (line 556) exactly when the axis is not `'x'`; so the restored value is kept when `src` is `'ui'` or the axis is `'x'` |

## Left out

- DOM reads and writes: class and style toggling is a set of hidden page node ids. `bb.contains(e.target)` is a boolean input. `scrollHeight` and `offsetHeight` are integer inputs.
- Paginator.ReturnRestoresScroll: after a switch back that is not from the UI, on any axis but `'x'`, the host's final `scrollY` is the page node's `offsetTop`, a DOM measurement; the method returns the plan that sets it, not the value.
- Paginator.Paginator.ScrollToIndex: the scroll value itself (`offsetLeft`/`offsetTop` of the page node) is a DOM measurement, so the plan names the node and the property instead. The animated `host.set` is not executed.
- YUI plugin and attribute machinery: `Y.extend`, `ATTRS`, the `beforeHostMethod`/`afterHostMethod`/`afterHostEvent` wiring and `Do.Prevent` are left out. Handlers are direct method calls. The prevent token and `preventDefault` are the `Moved` outcome of the wheel handler. `set('index', v)` always delivers the change event; any suppression by the attribute layer is not modelled. Where YUI skips the after-listener for an unchanged value, the plugin does nothing, but the model commits again: `Paginator.Paginator.Prev` at page 0 resets the host's `scrollY` to page 0's cached value and starts a scroll, and a repeated `Paginator.Paginator.Next` past the last record throws again.
- `_getPageNodes` selector querying: the page list is the node id sequence of the last dimension refresh. The model assumes the DOM does not change between a refresh and a later `_getStage` or `scrollToIndex`.
- The `scrollTo` alias (lines 526-528) only forwards to `scrollToIndex`.
- `cards` lives on the prototype and is shared by all instances; one instance is modelled.
- `_uiEnabled` is written but never read in the plugin, so nothing is gated on it.
- Host attribute side effects: setting the host's `scrollY` with `src: 'ui'` is a plain assignment.
- JavaScript values outside the model: numbers are integers (no NaN or fractions). A coordinate of `null` and one absent are both `None`. An axis setting other than `'x'` or `'y'`, including an absent one, is one value.
