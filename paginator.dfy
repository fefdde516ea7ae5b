/** The paginator plugin attached to one scroll view: its page registry, its
    current index, the pages it hides, and the host fields its handlers write. */
module Paginator {
  import opened PaginatorTypes
  import opened Routing
  import Stage

  /** How far a page can scroll inside the widget: its content height minus
      the widget height, never negative. */
  function MaxScrollY(scrollHeight: int, widgetHeight: int): (m: int)
    ensures m >= 0 && m >= scrollHeight - widgetHeight
    ensures m == 0 || m == scrollHeight - widgetHeight
  {
    if scrollHeight < widgetHeight then 0 else scrollHeight - widgetHeight
  }

  /** The node ids of a measured page list, in order. */
  function Ids(nodes: seq<PageNodeInfo>): seq<NodeId>
  {
    seq(|nodes|, i requires 0 <= i < |nodes| => nodes[i].id)
  }

  function Elements(s: seq<NodeId>): set<NodeId>
  {
    set x | x in s
  }

  /** The hidden set after the stage of `index` is applied to `hidden`: the
      visible pages shown, the leftover pages hidden, other nodes as they were. */
  function StagedHidden(hidden: set<NodeId>, index: int, padding: int, pages: seq<NodeId>): set<NodeId>
  {
    var st := Stage.Stage(index, padding, pages);
    (hidden - Elements(st.0)) + Elements(st.1)
  }

  /** Applying a stage over distinct page nodes hides exactly the pages
      outside the window and shows exactly those inside it, the current page
      among them; nodes that are not pages keep their state. */
  lemma StagedHiddenExact(hidden: set<NodeId>, index: int, padding: int, pages: seq<NodeId>)
    requires Stage.Distinct(pages)
    requires 0 <= padding && Stage.VisibleCount(padding) <= |pages|
    requires 0 <= index < |pages|
    ensures var s, w := Stage.WindowStart(index, padding, |pages|), Stage.VisibleCount(padding);
            forall j :: 0 <= j < |pages| ==>
              (pages[j] in StagedHidden(hidden, index, padding, pages) <==> !(s <= j < s + w))
    ensures pages[index] !in StagedHidden(hidden, index, padding, pages)
    ensures forall x :: x !in pages ==> (x in StagedHidden(hidden, index, padding, pages) <==> x in hidden)
  {
  }

  class Paginator {
    /** The page registry, `cards`. */
    var cards: seq<Card>
    /** The cached current index, `_cIndex`. */
    var cIndex: int
    /** The `index` attribute, as last set. */
    var index: int
    /** The `total` attribute. */
    var total: int
    /** The page nodes as last measured: what `_getPageNodes()` returns. */
    var pages: seq<NodeId>
    /** The `axis` attribute. */
    var axis: AxisValue
    var padding: int
    var optimizeMemory: bool
    var uiEnabled: bool
    /** The page nodes that carry the hidden class. */
    var hidden: set<NodeId>

    /** Host fields: `scrollY`, `_maxScrollY`, `_gesture` and the flick axis. */
    var hostScrollY: int
    var hostMaxScrollY: int
    var hostGesture: Option<Gesture>
    var hostFlickAxis: AxisValue

    /** The current index is 0 or names an existing page record; `total`
        counts the page nodes; padding is never 0; every page's scroll extent
        is non-negative. */
    ghost predicate Valid()
      reads this
    {
      && 0 <= cIndex && (cIndex == 0 || cIndex < |cards|)
      && total == |pages|
      && padding != 0
      && (forall i :: 0 <= i < |cards| ==> cards[i].maxScrollY >= 0)
    }

    /** `initializer(config)` on a host whose flick axis, `scrollY` and
        `_maxScrollY` are given. */
    constructor (config: Config, flickAxis: AxisValue, scrollY: int, maxScrollY: int)
      ensures Valid()
      ensures cards == [] && cIndex == 0 && index == 0 && total == 0 && pages == []
      ensures axis == config.axis && padding == InitialPadding(config.padding)
      ensures optimizeMemory == (config.optimizeMemory == Some(true))
      ensures uiEnabled && hidden == {}
      ensures hostFlickAxis == InitialFlickAxis(config.axis, flickAxis)
      ensures hostScrollY == scrollY && hostMaxScrollY == maxScrollY && hostGesture == None
    {
      cards, cIndex, index, total, pages := [], 0, 0, 0, [];
      uiEnabled, hidden := true, {};
      hostScrollY, hostMaxScrollY, hostGesture := scrollY, maxScrollY, None;
      var p := if config.padding.Some? && config.padding.value != 0 then config.padding.value else DefaultPadding;
      optimizeMemory := false;
      if config.optimizeMemory.Some? {
        optimizeMemory := config.optimizeMemory.value;
      }
      axis := config.axis;
      hostFlickAxis := flickAxis;
      if config.axis == AxisX {
        hostFlickAxis := AxisY;
      } else if config.axis == AxisY {
        hostFlickAxis := AxisX;
      }
      padding := p;
    }

    /** `_afterHostRender`: the host's scroll limit becomes the current page's. */
    method AfterHostRender() returns (r: Result<()>)
      requires Valid()
      modifies this`hostMaxScrollY
      ensures Valid()
      ensures cIndex < |cards| ==> r == Ok(()) && hostMaxScrollY == cards[cIndex].maxScrollY
      ensures cIndex >= |cards| ==> r == Err(NoCard(cIndex)) && hostMaxScrollY == old(hostMaxScrollY)
    {
      if cIndex >= |cards| {
        return Err(NoCard(cIndex));
      }
      hostMaxScrollY := cards[cIndex].maxScrollY;
      r := Ok(());
    }

    /** `_afterHostUIDimensionsChange`: with the widget `widgetHeight` high and
        the page nodes `pageNodes` measured, `total` becomes the node count;
        every page's record gets its scroll extent; a record that did not
        exist is created with the node and zero offsets; one that did keeps its
        node and offsets; records past the node count are left alone. */
    method AfterHostUIDimensionsChange(widgetHeight: int, pageNodes: seq<PageNodeInfo>)
      requires Valid()
      modifies this`cards, this`total, this`pages
      ensures Valid()
      ensures total == |pageNodes| && pages == Ids(pageNodes)
      ensures |cards| == (if |old(cards)| < |pageNodes| then |pageNodes| else |old(cards)|)
      ensures forall i :: 0 <= i < |pageNodes| ==>
                cards[i].maxScrollY == MaxScrollY(pageNodes[i].scrollHeight, widgetHeight)
      ensures forall i :: 0 <= i < |pageNodes| && i < |old(cards)| ==>
                cards[i] == old(cards)[i].(maxScrollY := cards[i].maxScrollY)
      ensures forall i :: |old(cards)| <= i < |pageNodes| ==>
                cards[i] == Card(cards[i].maxScrollY, pageNodes[i].id, 0, 0)
      ensures forall i :: |pageNodes| <= i < |old(cards)| ==> cards[i] == old(cards)[i]
    {
      total := |pageNodes|;
      pages := Ids(pageNodes);
      var i := 0;
      while i < |pageNodes|
        invariant 0 <= i <= |pageNodes|
        invariant total == |pageNodes| && pages == Ids(pageNodes)
        invariant |cards| == (if |old(cards)| < i then i else |old(cards)|)
        invariant forall j :: 0 <= j < |cards| ==> cards[j].maxScrollY >= 0
        invariant forall j :: 0 <= j < i ==>
                    cards[j].maxScrollY == MaxScrollY(pageNodes[j].scrollHeight, widgetHeight)
        invariant forall j :: 0 <= j < i && j < |old(cards)| ==>
                    cards[j] == old(cards)[j].(maxScrollY := cards[j].maxScrollY)
        invariant forall j :: |old(cards)| <= j < i ==>
                    cards[j] == Card(cards[j].maxScrollY, pageNodes[j].id, 0, 0)
        invariant forall j :: i <= j < |old(cards)| ==> cards[j] == old(cards)[j]
      {
        var scrollHeight := pageNodes[i].scrollHeight;
        var maxScrollY;
        if scrollHeight < widgetHeight {
          maxScrollY := 0;
        } else {
          maxScrollY := scrollHeight - widgetHeight;
        }
        if i >= |cards| {
          cards := cards + [Card(maxScrollY, pageNodes[i].id, 0, 0)];
        } else {
          cards := cards[i := cards[i].(maxScrollY := maxScrollY)];
        }
        i := i + 1;
      }
    }

    /** The scroll `scrollToIndex(i, duration, easing)` starts for page `i`. */
    function PagePlan(i: int, duration: Option<int>, easing: Option<string>): ScrollPlan
      reads this
      requires 0 <= i < |pages|
    {
      ScrollPlan(pages[i], OffsetPropertyFor(axis), ScrollAttrFor(axis),
                 TransitionDuration(duration), TransitionEasing(duration, easing))
    }

    /** `scrollToIndex(i, duration, easing)`: the page node is shown first, then
        scrolled to along the paged axis; there is no node to measure for an
        index outside the page list, which throws. */
    method ScrollToIndex(i: int, duration: Option<int>, easing: Option<string>) returns (r: Result<ScrollPlan>)
      modifies this`hidden
      ensures 0 <= i < |pages| ==>
                r == Ok(PagePlan(i, duration, easing)) && hidden == old(hidden) - {pages[i]}
      ensures 0 <= i < |pages| ==> r.value.node !in hidden
      ensures !(0 <= i < |pages|) ==> r == Err(NoPageNode(i)) && hidden == old(hidden)
    {
      var offsetProperty := if axis == AxisX then OffsetLeft else OffsetTop;
      var scrollAxis := if axis == AxisX then ScrollXAttr else ScrollYAttr;
      var d := if duration.Some? then duration.value else DefaultDuration;
      var e := if easing.Some? then EasingNumber(d) else EasingName(DefaultEasing);
      if !(0 <= i < |pages|) {
        return Err(NoPageNode(i));
      }
      ShowNodes([pages[i]]);
      r := Ok(ScrollPlan(pages[i], offsetProperty, scrollAxis, d, e));
    }

    /** The effect of committing an index change to `newVal` from `src`: with a
        record for `newVal`, the current index becomes `newVal`, the host's
        scroll limit and `scrollY` become that page's, and unless the change
        came from 'ui' the page is scrolled to with the default transition;
        without one, it throws and none of these change. */
    twostate predicate IndexChanged(newVal: int, src: Src, r: Outcome)
      reads this
    {
      if 0 <= newVal < |cards| then
        && cIndex == newVal
        && hostMaxScrollY == cards[newVal].maxScrollY
        && hostScrollY == cards[newVal].scrollY
        && if src == UiSrc then r == Moved(None) && hidden == old(hidden)
           else if newVal < |pages| then
             r == Moved(Some(PagePlan(newVal, None, None))) && hidden == old(hidden) - {pages[newVal]}
           else r == Failed(NoPageNode(newVal)) && hidden == old(hidden)
      else
        && r == Failed(NoCard(newVal))
        && cIndex == old(cIndex)
        && hostMaxScrollY == old(hostMaxScrollY)
        && hostScrollY == old(hostScrollY)
        && hidden == old(hidden)
    }

    /** `_afterIndexChange` for an index change to `newVal` from `src`. */
    method AfterIndexChange(newVal: int, src: Src) returns (r: Outcome)
      requires Valid()
      modifies this`cIndex, this`hostScrollY, this`hostMaxScrollY, this`hidden
      ensures Valid()
      ensures IndexChanged(newVal, src, r)
    {
      if !(0 <= newVal < |cards|) {
        return Failed(NoCard(newVal));
      }
      var maxScrollY := cards[newVal].maxScrollY;
      hostScrollY := cards[newVal].scrollY;
      hostMaxScrollY := maxScrollY;
      cIndex := newVal;
      if src != UiSrc {
        var s := ScrollToIndex(newVal, None, None);
        r := if s.Ok? then Moved(Some(s.value)) else Failed(s.error);
      } else {
        r := Moved(None);
      }
    }

    /** `set('index', target, {src})`: the attribute takes the value, then the
        change is committed. */
    method SetIndex(target: int, src: Src) returns (r: Outcome)
      requires Valid()
      modifies this`index, this`cIndex, this`hostScrollY, this`hostMaxScrollY, this`hidden
      ensures Valid()
      ensures index == target && IndexChanged(target, src, r)
    {
      index := target;
      r := AfterIndexChange(target, src);
    }

    /** `next`: requests the page after the current one, with no upper bound.
        Past the last record it throws and the current index stays; past the
        last page node but onto a record a shorter refresh left behind, the
        index moves there and the page scroll throws. */
    method Next() returns (r: Outcome)
      requires Valid()
      modifies this`index, this`cIndex, this`hostScrollY, this`hostMaxScrollY, this`hidden
      ensures Valid()
      ensures index == old(cIndex) + 1 && IndexChanged(old(cIndex) + 1, OtherSrc, r)
      ensures old(cIndex) + 1 >= |cards| ==> r == Failed(NoCard(old(cIndex) + 1)) && cIndex == old(cIndex)
      ensures |pages| <= old(cIndex) + 1 < |cards| ==> r == Failed(NoPageNode(old(cIndex) + 1)) && cIndex == old(cIndex) + 1
    {
      var target := cIndex + 1;
      r := SetIndex(target, OtherSrc);
    }

    /** `prev`: requests the page before the current one, or page 0 from page 0. */
    method Prev() returns (r: Outcome)
      requires Valid()
      modifies this`index, this`cIndex, this`hostScrollY, this`hostMaxScrollY, this`hidden
      ensures Valid()
      ensures index == PrevTarget(old(cIndex)) && IndexChanged(PrevTarget(old(cIndex)), OtherSrc, r)
      ensures old(cIndex) == 0 && cards != [] ==> index == 0 && cIndex == 0
    {
      var target := cIndex - 1;
      if target < 0 {
        target := 0;
      }
      r := SetIndex(target, OtherSrc);
    }

    /** The effect of acting on a navigation intent: none leaves the index
        alone; Forward and Backward commit what `next` and `prev` request. */
    twostate predicate NavigatedBy(nav: Option<Nav>, r: Outcome)
      reads this
    {
      match nav
      case None =>
        && r == Ignored
        && index == old(index) && cIndex == old(cIndex)
        && hostScrollY == old(hostScrollY) && hostMaxScrollY == old(hostMaxScrollY)
        && hidden == old(hidden)
      case Some(n) =>
        index == NavTarget(n, old(cIndex)) && IndexChanged(NavTarget(n, old(cIndex)), OtherSrc, r)
    }

    /** `_gestureMoveEnd`: input is disabled, and a gesture along 'x' moves to
        the next page when `deltaX > 0` and to the previous one otherwise;
        without a gesture on the host it throws before anything changes. */
    method GestureMoveEnd() returns (r: Outcome)
      requires Valid()
      modifies this`uiEnabled, this`index, this`cIndex, this`hostScrollY, this`hostMaxScrollY, this`hidden
      ensures Valid()
      ensures hostGesture.None? ==> r == Failed(NoGesture) && unchanged(this)
      ensures hostGesture.Some? ==> !uiEnabled && NavigatedBy(GestureIntent(hostGesture.value), r)
    {
      if hostGesture.None? {
        return Failed(NoGesture);
      }
      var gesture := hostGesture.value;
      var axis := gesture.axis;
      var isForward := GestureIsForward(gesture);
      UiDisable();
      if axis == AxisX {
        if isForward {
          r := Next();
        } else {
          r := Prev();
        }
      } else {
        r := Ignored;
      }
    }

    /** `_beforeHostMousewheel`: the host's gesture becomes a 'y' gesture; a
        wheel event inside the bounding box of a 'y' paginator moves forward
        on a negative delta and back otherwise, after which the browser default
        and the host's own wheel handling are prevented (Moved); any other wheel
        event is left to the host (Ignored). */
    method BeforeHostMousewheel(wheelDelta: int, insideBoundingBox: bool) returns (r: Outcome)
      requires Valid()
      modifies this`hostGesture, this`index, this`cIndex, this`hostScrollY, this`hostMaxScrollY, this`hidden
      ensures Valid()
      ensures hostGesture == Some(WheelGesture)
      ensures NavigatedBy(WheelIntent(wheelDelta, insideBoundingBox, axis), r)
    {
      var isForward := wheelDelta < 0;
      hostGesture := Some(Gesture(AxisY, None, None));
      if insideBoundingBox && axis == AxisY {
        if isForward {
          r := Next();
        } else {
          r := Prev();
        }
      } else {
        r := Ignored;
      }
    }

    /** The hidden set after `_optimize`: unchanged when memory optimisation is
        off, else the stage of the current index applied to it. */
    function OptimizedHidden(h: set<NodeId>): set<NodeId>
      reads this
    {
      if optimizeMemory then StagedHidden(h, cIndex, padding, pages) else h
    }

    /** `_optimize`: does nothing (and returns false) when memory optimisation
        is off; otherwise shows the visible pages and hides the leftover ones.
        There the handler returns nothing (`undefined`), which `applied ==
        true` stands for; no caller reads the result. */
    method Optimize() returns (applied: bool)
      modifies this`hidden
      ensures applied == optimizeMemory
      ensures hidden == OptimizedHidden(old(hidden))
    {
      if !optimizeMemory {
        return false;
      }
      var visible, leftover := Stage.GetStage(cIndex, padding, pages);
      ShowNodes(visible);
      HideNodes(leftover);
      applied := true;
    }

    /** `_scrollEnded`: the host's `scrollY` is cached in the current page's
        record, the pages are optimised and input is enabled again; without a
        record for the current page it throws before anything changes. */
    method ScrollEnded() returns (r: Result<()>)
      requires Valid()
      modifies this`cards, this`hidden, this`uiEnabled
      ensures Valid()
      ensures cIndex < |old(cards)| ==>
                && r == Ok(())
                && cards == old(cards)[cIndex := old(cards)[cIndex].(scrollY := hostScrollY)]
                && hidden == OptimizedHidden(old(hidden))
                && uiEnabled
      ensures cIndex >= |old(cards)| ==> r == Err(NoCard(cIndex)) && unchanged(this)
    {
      if cIndex >= |cards| {
        return Err(NoCard(cIndex));
      }
      var scrollY := hostScrollY;
      cards := cards[cIndex := cards[cIndex].(scrollY := scrollY)];
      var _ := Optimize();
      UiEnable();
      r := Ok(());
    }

    /** `_showNodes`: the nodes lose the hidden class. */
    method ShowNodes(nodes: seq<NodeId>)
      modifies this`hidden
      ensures hidden == old(hidden) - Elements(nodes)
    {
      hidden := hidden - Elements(nodes);
    }

    /** `_hideNodes`: the nodes get the hidden class. */
    method HideNodes(nodes: seq<NodeId>)
      modifies this`hidden
      ensures hidden == old(hidden) + Elements(nodes)
    {
      hidden := hidden + Elements(nodes);
    }

    /** `_uiEnable`. */
    method UiEnable()
      modifies this`uiEnabled
      ensures uiEnabled
    {
      uiEnabled := true;
    }

    /** `_uiDisable`. */
    method UiDisable()
      modifies this`uiEnabled
      ensures !uiEnabled
    {
      uiEnabled := false;
    }
  }

  /** A page's scroll position survives a trip to another page and back: once
      a scroll end has cached it, switching away and back restores the host's
      `scrollY`. The switch back is the outcome `back`: from the UI it starts
      no scroll, so the restored value stays; from anywhere else it starts the
      page scroll, which on any axis but 'x' sets `scrollY` once more, to the
      page's offset. */
  method ReturnRestoresScroll(p: Paginator, other: int, src: Src) returns (back: Outcome)
    requires p.Valid() && p.cIndex < |p.cards| && 0 <= other < |p.cards|
    modifies p
    ensures p.Valid()
    ensures p.cIndex == old(p.cIndex) && p.hostScrollY == old(p.hostScrollY)
    ensures src == UiSrc ==> back == Moved(None)
    ensures src != UiSrc && p.cIndex < |p.pages| ==> back == Moved(Some(p.PagePlan(p.cIndex, None, None)))
    ensures back.Moved? && back.scroll.Some? ==> (back.scroll.value.scrollAttr == ScrollYAttr <==> p.axis != AxisX)
  {
    var here := p.cIndex;
    var ended := p.ScrollEnded();
    var away := p.SetIndex(other, src);
    back := p.SetIndex(here, src);
  }
}
