/** The floating control widget of content/widget.js: the walk that finds the
    scrollable element under the pointer, dragging the widget within the
    viewport, and showing, hiding and toggling it. */
module Widget {
  import opened Dom
  import opened Scrollability

  // ---- finding the scrollable element under the pointer ----

  /** The chain of elements `findScrollableFromTarget` visits from `el`: `el`
      and its ancestors by `parentElement`, stopping before the body, the root
      or a missing parent. */
  function Ancestry(d: Document, el: Option<NodeId>): (c: seq<NodeId>)
    requires WellFormed(d)
    ensures forall i :: 0 <= i < |c| ==> c[i] != d.body && c[i] != d.root
    ensures forall i :: 0 < i < |c| ==> Parent(d, c[i - 1]) == Some(c[i])
    ensures c != [] <==> el.Some? && el.value != d.body && el.value != d.root
    ensures c != [] ==> c[0] == el.value
    decreases if el.Some? then el.value + 1 else 0
  {
    if el.None? || el.value == d.body || el.value == d.root then []
    else [el.value] + Ancestry(d, Parent(d, el.value))
  }

  /** The chain ends where the walk stops: the last element's parent is
      missing, the body or the root. */
  lemma {:induction false} AncestryEnd(d: Document, el: Option<NodeId>)
    requires WellFormed(d)
    ensures var c := Ancestry(d, el);
      c != [] ==> var p := Parent(d, c[|c| - 1]); p.None? || p.value == d.body || p.value == d.root
    decreases if el.Some? then el.value + 1 else 0
  {
    if el.Some? && el.value != d.body && el.value != d.root {
      var rest := Ancestry(d, Parent(d, el.value));
      if rest != [] {
        AncestryEnd(d, Parent(d, el.value));
        assert Ancestry(d, el)[|Ancestry(d, el)| - 1] == rest[|rest| - 1];
      }
    }
  }

  /** `findScrollableFromTarget(target)`: the nearest element of the chain that
      is scrollable, or nothing when none of them is. The body and the root
      are never returned. */
  method FindScrollableFromTarget(d: Document, target: Option<NodeId>) returns (r: Option<NodeId>)
    requires WellFormed(d)
    ensures var c := Ancestry(d, target);
      r.None? <==> forall i :: 0 <= i < |c| ==> !IsScrollable(d, ElementRef(c[i]))
    ensures var c := Ancestry(d, target);
      r.Some? ==> exists k :: 0 <= k < |c| && c[k] == r.value && IsScrollable(d, ElementRef(c[k])) &&
                             forall i :: 0 <= i < k ==> !IsScrollable(d, ElementRef(c[i]))
    ensures r.Some? ==> r.value != d.body && r.value != d.root
    ensures target.None? ==> r.None?
  {
    if target.None? {
      return None;
    }
    ghost var c := Ancestry(d, target);
    ghost var k := 0;
    var el := target;
    while el.Some? && el.value != d.body && el.value != d.root
      invariant 0 <= k <= |c|
      invariant Ancestry(d, el) == c[k..]
      invariant forall i :: 0 <= i < k ==> !IsScrollable(d, ElementRef(c[i]))
      decreases if el.Some? then el.value + 1 else 0
    {
      if IsScrollable(d, ElementRef(el.value)) {
        return el;
      }
      el := Parent(d, el.value);
      k := k + 1;
    }
    return None;
  }

  // ---- dragging ----

  function MinReal(a: real, b: real): real { if a <= b then a else b }
  function MaxReal(a: real, b: real): real { if a <= b then b else a }

  /** The clamp of a drag move: an offset from the viewport's edge is first
      kept from going negative, then kept small enough that the widget stays
      inside the viewport (`limit` is the viewport's extent less the widget's). */
  function DragClamp(v: real, limit: real): (r: real)
    ensures r <= limit
    ensures 0.0 <= limit ==> 0.0 <= r
    ensures 0.0 <= v <= limit ==> r == v
    ensures v < 0.0 <= limit ==> r == 0.0
    ensures v > limit ==> r == limit
    ensures limit < 0.0 ==> r == limit
  {
    MinReal(MaxReal(0.0, v), limit)
  }

  /** The widget: whether it has been created, its `style.display`, its saved
      position (offsets from the right and bottom edges of the viewport), and
      the drag in progress. */
  class FloatingWidget {
    var present: bool
    var display: string
    var right: real
    var bottom: real
    var isDragging: bool
    var startX: real
    var startY: real
    var startRight: real
    var startBottom: real

    /** Shown: created, and not set to `none`. */
    predicate Visible()
      reads this
    {
      present && display != "none"
    }

    /** The script loaded: no widget yet, the default position 20, 20. */
    constructor()
      ensures !present && !isDragging
      ensures right == 20.0 && bottom == 20.0
    {
      present := false;
      display := "";
      right := 20.0;
      bottom := 20.0;
      isDragging := false;
      startX := 0.0;
      startY := 0.0;
      startRight := 0.0;
      startBottom := 0.0;
    }

    /** `initWidget()`: creates the widget once; a fresh element has no
        `display` of its own, so it is shown. */
    method InitWidget()
      modifies this`present, this`display
      ensures present && Visible() == (old(present) ==> old(Visible()))
      ensures old(present) ==> display == old(display)
      ensures !old(present) ==> display == ""
    {
      if present {
        return;
      }
      present := true;
      display := "";
    }

    /** The header's `mousedown` (not on the minimize button): a drag starts
        from the pointer and the widget's current offsets from the right and
        bottom edges. */
    method MouseDown(onMinimizeButton: bool, clientX: real, clientY: real,
                     rectRight: real, rectBottom: real, innerWidth: real, innerHeight: real)
      requires present
      modifies this
      ensures onMinimizeButton ==> isDragging == old(isDragging) && startX == old(startX) && startY == old(startY) &&
                                   startRight == old(startRight) && startBottom == old(startBottom)
      ensures !onMinimizeButton ==> isDragging && startX == clientX && startY == clientY &&
                                    startRight == innerWidth - rectRight && startBottom == innerHeight - rectBottom
      ensures present && display == old(display) && right == old(right) && bottom == old(bottom)
    {
      if onMinimizeButton {
        return;
      }
      isDragging := true;
      startX := clientX;
      startY := clientY;
      startRight := innerWidth - rectRight;
      startBottom := innerHeight - rectBottom;
    }

    /** The document's `mousemove` during a drag: the widget follows the pointer
        and is clamped into the viewport, whose extent less the widget's own is
        `innerWidth - rectWidth` across and `innerHeight - rectHeight` down. */
    method MouseMove(clientX: real, clientY: real, rectWidth: real, rectHeight: real,
                     innerWidth: real, innerHeight: real)
      modifies this`right, this`bottom
      ensures !isDragging ==> right == old(right) && bottom == old(bottom)
      ensures isDragging ==> right == DragClamp(startRight - (clientX - startX), innerWidth - rectWidth)
      ensures isDragging ==> bottom == DragClamp(startBottom - (clientY - startY), innerHeight - rectHeight)
      ensures isDragging ==> right <= innerWidth - rectWidth && bottom <= innerHeight - rectHeight
      ensures isDragging && rectWidth <= innerWidth ==> 0.0 <= right
      ensures isDragging && rectHeight <= innerHeight ==> 0.0 <= bottom
    {
      if !isDragging {
        return;
      }
      var deltaX := clientX - startX;
      var deltaY := clientY - startY;
      right := MaxReal(0.0, startRight - deltaX);
      bottom := MaxReal(0.0, startBottom - deltaY);
      right := MinReal(right, innerWidth - rectWidth);
      bottom := MinReal(bottom, innerHeight - rectHeight);
    }

    /** The document's `mouseup`: the drag ends where it is. */
    method MouseUp()
      modifies this`isDragging
      ensures !isDragging
    {
      if isDragging {
        isDragging := false;
      }
    }

    /** `showWidget()`. */
    method ShowWidget()
      modifies this`display
      ensures Visible() == present
      ensures present ==> display == "block"
      ensures !present ==> display == old(display)
    {
      if present {
        display := "block";
      }
    }

    /** `hideWidget()`. */
    method HideWidget()
      modifies this`display
      ensures !Visible()
      ensures present ==> display == "none"
      ensures !present ==> display == old(display)
    {
      if present {
        display := "none";
      }
    }

    /** `toggleWidget()`: flips between shown and hidden; nothing when there is
        no widget. */
    method ToggleWidget()
      modifies this`display
      ensures present ==> Visible() == !old(Visible())
      ensures present ==> display == (if old(display) != "none" then "none" else "block")
      ensures !present ==> display == old(display)
    {
      if present {
        var isVisible := display != "none";
        display := if isVisible then "none" else "block";
      }
    }
  }
}
