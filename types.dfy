/** Values shared by the paginator plugin model: page records, gestures, scroll
    requests and the outcomes of the plugin's handlers. */
module PaginatorTypes {

  datatype Option<T> = None | Some(value: T)

  /** What makes a handler throw in the plugin: a page record that does not
      exist (`cards[i]` is undefined), a page node that does not exist
      (`pageNodes.item(i)` is null), or no gesture on the host (`host._gesture`
      is undefined). */
  datatype Error = NoCard(index: int) | NoPageNode(index: int) | NoGesture

  datatype Result<T> = Ok(value: T) | Err(error: Error)

  /** A value of an axis setting: the strings 'x' and 'y', or any other value
      (absent included). */
  datatype AxisValue = AxisX | AxisY | OtherAxis

  /** Identity of a page's DOM node. */
  type NodeId = nat

  /** A page node as the dimension refresh sees it: its identity and its
      measured `scrollHeight`. */
  datatype PageNodeInfo = PageNodeInfo(id: NodeId, scrollHeight: int)

  /** The per-page record `{maxScrollY, node, scrollX, scrollY}`. */
  datatype Card = Card(maxScrollY: int, node: NodeId, scrollX: int, scrollY: int)

  /** `host._gesture` while it is defined; a delta the host did not set is None. */
  datatype Gesture = Gesture(axis: AxisValue, deltaX: Option<int>, deltaY: Option<int>)

  /** The node argument of the host's scroll-to: none given, the content box,
      or a page node. */
  datatype NodeRef = Unspecified | ContentBox | PageNode(id: NodeId)

  /** The arguments `(x, y, duration, easing, node)` of the host's scroll-to;
      a coordinate that is null or absent is None. */
  datatype ScrollArgs = ScrollArgs(x: Option<int>, y: Option<int>, duration: Option<int>,
                                   easing: Option<string>, node: NodeRef)

  /** The host attribute an animated page scroll sets. */
  datatype ScrollAttr = ScrollXAttr | ScrollYAttr

  /** The node measurement that gives a page's scroll offset. */
  datatype OffsetProperty = OffsetLeft | OffsetTop

  /** The easing handed to the animation: a timing-function name, or a number. */
  datatype Easing = EasingName(name: string) | EasingNumber(n: int)

  /** What `scrollToIndex` asks the host to do: scroll `scrollAttr` to the value
      of `offsetProperty` of page node `node`, with `duration` and `easing`. */
  datatype ScrollPlan = ScrollPlan(node: NodeId, offsetProperty: OffsetProperty,
                                   scrollAttr: ScrollAttr, duration: int, easing: Easing)

  /** The `src` of an index change: 'ui', or anything else. */
  datatype Src = UiSrc | OtherSrc

  /** A navigation intent: `next` or `prev`. */
  datatype Nav = Forward | Backward

  /** The configuration the plugin is created with; an option not given is None. */
  datatype Config = Config(axis: AxisValue, padding: Option<int>, optimizeMemory: Option<bool>)

  /** How an event handler ends: it did not navigate; it committed an index
      change (with the page scroll it started, if any); or it threw. */
  datatype Outcome = Ignored | Moved(scroll: Option<ScrollPlan>) | Failed(err: Error)
}
