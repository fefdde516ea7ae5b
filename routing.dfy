/** The plugin's pure decisions: the navigation targets of `next`/`prev`, how a
    finished gesture or a wheel event is classified, how the host's scroll-to
    arguments are rewritten, the parameters `scrollToIndex` chooses, and the
    initializer's padding and flick-axis rules. */
module Routing {
  import opened PaginatorTypes

  /** The `padding` prototype default. */
  const DefaultPadding: int := 1

  /** `TRANSITION.duration` and `TRANSITION.easing`. */
  const DefaultDuration: int := 300
  const DefaultEasing: string := "ease-out"

  /** The index `prev` requests: one page back, but never below 0. */
  function PrevTarget(current: int): (t: int)
    ensures t >= 0
    ensures current >= 1 ==> t == current - 1
    ensures current <= 1 ==> t == 0
  {
    var target := current - 1;
    if target < 0 then 0 else target
  }

  /** The index `next` (Forward) or `prev` (Backward) requests from page
      `current`; `next` has no upper bound. */
  function NavTarget(nav: Nav, current: int): int
  {
    match nav
    case Forward => current + 1
    case Backward => PrevTarget(current)
  }

  /** `isForward` of a finished gesture: the delta along the gesture's own axis
      is positive (a delta the host did not set is not). */
  function GestureIsForward(g: Gesture): bool
  {
    if g.axis == AxisX then g.deltaX.Some? && g.deltaX.value > 0
    else g.deltaY.Some? && g.deltaY.value > 0
  }

  /** What a finished gesture asks for: only a gesture along 'x' navigates,
      whatever axis the paginator is configured with; forward iff `deltaX > 0`. */
  function GestureIntent(g: Gesture): (nav: Option<Nav>)
    ensures nav.Some? <==> g.axis == AxisX
    ensures nav == Some(Forward) <==> g.axis == AxisX && g.deltaX.Some? && g.deltaX.value > 0
    ensures nav == Some(Backward) <==> g.axis == AxisX && (g.deltaX.None? || g.deltaX.value <= 0)
  {
    if g.axis == AxisX then Some(if GestureIsForward(g) then Forward else Backward)
    else None
  }

  /** What a wheel event asks for: it navigates only when it happened inside the
      bounding box and the paginator's axis is 'y'; a negative delta is forward. */
  function WheelIntent(wheelDelta: int, insideBoundingBox: bool, axis: AxisValue): (nav: Option<Nav>)
    ensures nav.Some? <==> insideBoundingBox && axis == AxisY
    ensures nav == Some(Forward) <==> insideBoundingBox && axis == AxisY && wheelDelta < 0
    ensures nav == Some(Backward) <==> insideBoundingBox && axis == AxisY && wheelDelta >= 0
  {
    var isForward := wheelDelta < 0;
    if insideBoundingBox && axis == AxisY then Some(if isForward then Forward else Backward)
    else None
  }

  /** The gesture a wheel event leaves on the host: axis 'y', no deltas. */
  const WheelGesture: Gesture := Gesture(AxisY, None, None)

  /** A wheel event never navigates through `_gestureMoveEnd` afterwards: the
      gesture it leaves behind is along 'y'. */
  lemma WheelGestureNeverNavigates()
    ensures GestureIntent(WheelGesture) == None
  {
  }

  /** `_onScrollTo`: the arguments the host's own scroll-to is called with,
      once, before the original call is prevented. With no gesture they pass
      through; during a 'y' gesture the scroll is moved onto the current page's
      node and its x is dropped; during any other gesture the scroll is moved
      onto the content box and its y is dropped. Reading the current page's
      node throws when the current page has no record. */
  function RewriteScrollTo(gesture: Option<Gesture>, cards: seq<Card>, cIndex: int, args: ScrollArgs): (r: Result<ScrollArgs>)
    ensures gesture.None? ==> r == Ok(args)
    ensures r.Ok? ==> r.value.duration == args.duration && r.value.easing == args.easing
    ensures gesture.Some? && gesture.value.axis == AxisY ==>
              if 0 <= cIndex < |cards| then
                r.Ok? && r.value.node == PageNode(cards[cIndex].node) && r.value.x.None? && r.value.y == args.y
              else r == Err(NoCard(cIndex))
    ensures gesture.Some? && gesture.value.axis != AxisY ==>
              r.Ok? && r.value.node == ContentBox && r.value.y.None? && r.value.x == args.x
  {
    match gesture
    case None => Ok(args)
    case Some(g) =>
      if g.axis == AxisY then
        if 0 <= cIndex < |cards| then Ok(args.(node := PageNode(cards[cIndex].node), x := None))
        else Err(NoCard(cIndex))
      else Ok(args.(node := ContentBox, y := None))
  }

  /** During a gesture, a rewritten scroll never moves along both axes: one
      coordinate is always dropped, and the target is never left unspecified. */
  lemma RewriteMovesOneAxis(g: Gesture, cards: seq<Card>, cIndex: int, args: ScrollArgs)
    ensures var r := RewriteScrollTo(Some(g), cards, cIndex, args);
            r.Ok? ==> (r.value.x.None? || r.value.y.None?) && r.value.node != Unspecified
  {
  }

  /** The host attribute a page scroll sets: `scrollX` for axis 'x', `scrollY`
      for any other axis value. */
  function ScrollAttrFor(axis: AxisValue): (a: ScrollAttr)
    ensures a == ScrollXAttr <==> axis == AxisX
  {
    if axis == AxisX then ScrollXAttr else ScrollYAttr
  }

  /** The measurement that gives a page's offset: `offsetLeft` for axis 'x',
      `offsetTop` for any other axis value. */
  function OffsetPropertyFor(axis: AxisValue): (p: OffsetProperty)
    ensures p == OffsetLeft <==> axis == AxisX
  {
    if axis == AxisX then OffsetLeft else OffsetTop
  }

  /** The duration of a page scroll: the one given, else 300 ms. */
  function TransitionDuration(duration: Option<int>): (d: int)
    ensures duration.Some? ==> d == duration.value
    ensures duration.None? ==> d == DefaultDuration
  {
    if duration.Some? then duration.value else DefaultDuration
  }

  /** The easing of a page scroll: 'ease-out' when none is given; when one is
      given, the duration takes its place. */
  function TransitionEasing(duration: Option<int>, easing: Option<string>): (e: Easing)
    ensures easing.None? ==> e == EasingName(DefaultEasing)
    ensures easing.Some? ==> e == EasingNumber(TransitionDuration(duration))
  {
    if easing.Some? then EasingNumber(TransitionDuration(duration)) else EasingName(DefaultEasing)
  }

  /** A supplied easing never reaches the animation: two calls that differ
      only in the easing they supply scroll alike, and neither with its own
      easing. */
  lemma SuppliedEasingDiscarded(duration: Option<int>, e1: string, e2: string)
    ensures TransitionEasing(duration, Some(e1)) == TransitionEasing(duration, Some(e2))
    ensures TransitionEasing(duration, Some(e1)) != EasingName(e1)
  {
  }

  /** The padding the plugin keeps: the configured one unless it is absent or
      0 (falsy), in which case the default 1; so it is never 0. */
  function InitialPadding(configured: Option<int>): (p: int)
    ensures p != 0
    ensures configured.Some? && configured.value != 0 ==> p == configured.value
    ensures configured.None? || configured.value == 0 ==> p == DefaultPadding
  {
    if configured.Some? && configured.value != 0 then configured.value else DefaultPadding
  }

  /** The host's flick axis after initialisation: the other axis than the
      configured 'x' or 'y'; left as it was for any other configured value. */
  function InitialFlickAxis(configAxis: AxisValue, hostFlickAxis: AxisValue): (f: AxisValue)
    ensures configAxis == AxisX ==> f == AxisY
    ensures configAxis == AxisY ==> f == AxisX
    ensures configAxis == OtherAxis ==> f == hostFlickAxis
  {
    match configAxis
    case AxisX => AxisY
    case AxisY => AxisX
    case OtherAxis => hostFlickAxis
  }

  /** For a configured 'x' or 'y', flicks run across the paged axis: the flick
      axis differs from it, and page scrolls set the attribute of the paged
      axis, never that of the flick axis. */
  lemma FlickAcrossPagedAxis(configAxis: AxisValue, hostFlickAxis: AxisValue)
    requires configAxis != OtherAxis
    ensures InitialFlickAxis(configAxis, hostFlickAxis) != configAxis
    ensures ScrollAttrFor(configAxis) != ScrollAttrFor(InitialFlickAxis(configAxis, hostFlickAxis))
  {
  }
}
