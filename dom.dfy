/** The part of the page that the scroll engine and the widget read and write:
    the attached elements with their layout metrics and computed overflow style,
    the window's scroll offset and viewport height, and the host's own
    `scrollTo`/`scrollBy` behaviour. */
module Dom {

  datatype Option<T> = None | Some(value: T)

  /** Elements are referred to by opaque keys. */
  type NodeId = nat

  /** An element's `className`: a plain string for HTML elements, an animated-string
      object (not a string) for SVG elements. */
  datatype ClassName = ClassText(text: string) | ClassObject

  datatype Element = Element(
    id: string,
    className: ClassName,
    tagName: string,
    scrollTop: int,
    scrollHeight: int,
    clientHeight: int,
    overflowY: string,        // the computed `overflow-y` style
    parent: Option<NodeId>)   // `parentElement`

  datatype Document = Document(
    nodes: map<NodeId, Element>,  // the elements attached to the document
    order: seq<NodeId>,           // the attached elements in document order
    body: NodeId,                 // `document.body`
    root: NodeId,                 // `document.documentElement`
    scrollY: int,                 // `window.scrollY`
    innerHeight: int)             // `window.innerHeight`

  /** What the engine scrolls: the whole page (the source's `null`) or one element. */
  datatype Target = WholePage | ElementRef(node: NodeId)

  /** The result of reading a scroll position: where it is and how far it can go. */
  datatype Position = Position(top: int, max: int)

  /** The DOM's own guarantees: body and root are attached and distinct, every
      parent is attached and comes before its child in key order (so parent
      chains are finite), the document-order list holds exactly the attached
      elements, and no scroll offset is negative. */
  predicate WellFormed(d: Document) {
    && d.body in d.nodes && d.root in d.nodes && d.body != d.root
    && (forall id :: id in d.nodes && d.nodes[id].parent.Some? ==>
          d.nodes[id].parent.value in d.nodes && d.nodes[id].parent.value < id)
    && (forall i :: 0 <= i < |d.order| ==> d.order[i] in d.nodes)
    && (forall id :: id in d.nodes ==> id in d.order)
    && (forall id :: id in d.nodes ==> d.nodes[id].scrollTop >= 0)
    && d.scrollY >= 0
  }

  /** An element that is no longer attached reports no extent, no offset and no parent. */
  const Detached := Element("", ClassText(""), "", 0, 0, 0, "", None)

  function NodeOf(d: Document, id: NodeId): Element {
    if id in d.nodes then d.nodes[id] else Detached
  }

  function Parent(d: Document, id: NodeId): Option<NodeId> {
    NodeOf(d, id).parent
  }

  function Min(a: int, b: int): int { if a <= b then a else b }
  function Max(a: int, b: int): int { if a <= b then b else a }

  /** The current offset and the largest offset of a target (`getScrollPosition`). */
  function ScrollPosition(d: Document, t: Target): (p: Position)
    ensures t.ElementRef? && t.node !in d.nodes ==> p == Position(0, 0)
  {
    match t
    case ElementRef(id) =>
      var e := NodeOf(d, id);
      Position(e.scrollTop, e.scrollHeight - e.clientHeight)
    case WholePage =>
      var r := NodeOf(d, d.root);
      Position(if d.scrollY != 0 then d.scrollY else r.scrollTop, r.scrollHeight - d.innerHeight)
  }

  /** The host's `scrollTo`: the new offset is the requested one clamped into the
      scrollable range; a detached element does not move. For the window the
      root element's `scrollTop` follows `scrollY`. */
  function ScrollTo(d: Document, t: Target, y: int): (r: Document)
    ensures ScrollPosition(r, t).max == ScrollPosition(d, t).max
    ensures (t.WholePage? || t.node in d.nodes) ==>
              ScrollPosition(r, t).top == Min(Max(y, 0), Max(0, ScrollPosition(d, t).max))
    ensures t.ElementRef? && t.node !in d.nodes ==> r == d
    ensures t.ElementRef? ==> r.scrollY == d.scrollY && r.innerHeight == d.innerHeight
    ensures r.order == d.order && r.body == d.body && r.root == d.root
    ensures r.nodes.Keys == d.nodes.Keys
    ensures forall id :: id in d.nodes && (t.WholePage? ==> id != d.root) && t != ElementRef(id) ==>
              r.nodes[id] == d.nodes[id]
  {
    var v := Min(Max(y, 0), Max(0, ScrollPosition(d, t).max));
    match t
    case ElementRef(id) =>
      if id in d.nodes then d.(nodes := d.nodes[id := d.nodes[id].(scrollTop := v)]) else d
    case WholePage =>
      var nodes := if d.root in d.nodes then d.nodes[d.root := d.nodes[d.root].(scrollTop := v)] else d.nodes;
      d.(scrollY := v, nodes := nodes)
  }

  /** The host's `scrollBy`: a `scrollTo` relative to the current offset. */
  function ScrollBy(d: Document, t: Target, dy: int): (r: Document)
    ensures ScrollPosition(r, t).max == ScrollPosition(d, t).max
    ensures 0 <= ScrollPosition(d, t).top < ScrollPosition(d, t).max && 0 <= dy ==>
              ScrollPosition(r, t).top == Min(ScrollPosition(d, t).top + dy, ScrollPosition(d, t).max)
  {
    ScrollTo(d, t, ScrollPosition(d, t).top + dy)
  }
}
