/** Which targets can scroll, and the list of candidates offered to the user
    (`isScrollable`, `isPageScrollable`, `findScrollableElements`). */
module Scrollability {
  import opened Dom
  import opened Labels

  /** `isScrollable`: never the whole page, the body or the root element;
      otherwise content taller than the box and an overflow style that scrolls. */
  predicate IsScrollable(d: Document, t: Target) {
    match t
    case WholePage => false
    case ElementRef(id) =>
      if id == d.body || id == d.root then false
      else
        var e := NodeOf(d, id);
        e.scrollHeight > e.clientHeight && (e.overflowY == "scroll" || e.overflowY == "auto")
  }

  /** `isPageScrollable`: the document is taller than the viewport. */
  predicate IsPageScrollable(d: Document) {
    NodeOf(d, d.root).scrollHeight > d.innerHeight
  }

  /** A scrollable element has room to move: its largest offset is positive. */
  lemma ScrollableHasRoom(d: Document, t: Target)
    requires IsScrollable(d, t)
    ensures t.ElementRef? && t.node in d.nodes
    ensures t.node != d.body && t.node != d.root
    ensures ScrollPosition(d, t).max > 0
  {
  }

  /** The page check and the page's scroll range agree. */
  lemma PageScrollableIffRoom(d: Document)
    ensures IsPageScrollable(d) <==> ScrollPosition(d, WholePage).max > 0
  {
  }

  datatype EntryKind = PageKind | ElementKind

  /** One entry of the candidate list: `{element, label, type}` (`name` is the label). */
  datatype Entry = Entry(element: Target, name: string, kind: EntryKind)

  const PageEntry := Entry(WholePage, WholePageLabel, PageKind)

  function ElementEntry(d: Document, id: NodeId): Entry {
    Entry(ElementRef(id), ElementLabel(NodeOf(d, id)), ElementKind)
  }

  /** The element entries for a run of elements, in the same order. */
  function ElementEntries(d: Document, ids: seq<NodeId>): seq<Entry> {
    if ids == [] then []
    else
      var last := ids[|ids| - 1];
      ElementEntries(d, ids[..|ids| - 1]) + (if IsScrollable(d, ElementRef(last)) then [ElementEntry(d, last)] else [])
  }

  /** Every element entry names a scrollable element of the run, with its label. */
  lemma {:induction false} ElementEntriesSound(d: Document, ids: seq<NodeId>)
    ensures forall k :: 0 <= k < |ElementEntries(d, ids)| ==>
      var e := ElementEntries(d, ids)[k];
      e.kind == ElementKind && e.element.ElementRef? && e.element.node in ids &&
      IsScrollable(d, e.element) && e == ElementEntry(d, e.element.node)
  {
    if ids != [] {
      ElementEntriesSound(d, ids[..|ids| - 1]);
    }
  }

  /** Every scrollable element of the run has its entry in the list. */
  lemma {:induction false} ElementEntriesComplete(d: Document, ids: seq<NodeId>)
    ensures forall i :: 0 <= i < |ids| && IsScrollable(d, ElementRef(ids[i])) ==>
      ElementEntry(d, ids[i]) in ElementEntries(d, ids)
  {
    if ids != [] {
      var pre := ids[..|ids| - 1];
      ElementEntriesComplete(d, pre);
      forall i | 0 <= i < |ids| && IsScrollable(d, ElementRef(ids[i]))
        ensures ElementEntry(d, ids[i]) in ElementEntries(d, ids)
      {
        if i < |ids| - 1 {
          assert ids[i] == pre[i];
        }
      }
    }
  }

  /** The candidate list: the page entry first when the page scrolls, then the element entries. */
  function CandidateList(d: Document): seq<Entry> {
    (if IsPageScrollable(d) then [PageEntry] else []) + ElementEntries(d, d.order)
  }

  /** The page entry appears at most once and only at the head; every other entry
      is a scrollable element's, and every scrollable element has one. */
  lemma CandidateListShape(d: Document)
    ensures var r := CandidateList(d);
      && ((|r| > 0 && r[0].kind == PageKind) <==> IsPageScrollable(d))
      && (forall k :: 0 <= k < |r| && r[k].kind == PageKind ==> k == 0 && r[k] == PageEntry)
      && (forall k :: 0 <= k < |r| && r[k].kind == ElementKind ==>
            IsScrollable(d, r[k].element) && r[k] == ElementEntry(d, r[k].element.node))
      && (forall i :: 0 <= i < |d.order| && IsScrollable(d, ElementRef(d.order[i])) ==>
            ElementEntry(d, d.order[i]) in r)
  {
    var head: seq<Entry> := if IsPageScrollable(d) then [PageEntry] else [];
    var tail := ElementEntries(d, d.order);
    var r := CandidateList(d);
    assert r == head + tail;
    ElementEntriesSound(d, d.order);
    ElementEntriesComplete(d, d.order);
    forall k | 0 <= k < |r|
      ensures r[k].kind == PageKind ==> k == 0 && r[k] == PageEntry
      ensures r[k].kind == ElementKind ==> IsScrollable(d, r[k].element) && r[k] == ElementEntry(d, r[k].element.node)
    {
      if k < |head| {
        assert r[k] == PageEntry;
      } else {
        assert r[k] == tail[k - |head|];
      }
    }
    forall i | 0 <= i < |d.order| && IsScrollable(d, ElementRef(d.order[i]))
      ensures ElementEntry(d, d.order[i]) in r
    {
      assert ElementEntry(d, d.order[i]) in tail;
    }
  }

  /** `findScrollableElements`: the page entry first when the page scrolls, then
      one entry per scrollable element in document order. */
  method FindScrollableElements(d: Document) returns (r: seq<Entry>)
    ensures r == CandidateList(d)
    ensures (|r| > 0 && r[0].kind == PageKind) <==> IsPageScrollable(d)
    ensures forall k :: 0 <= k < |r| && r[k].kind == PageKind ==> k == 0 && r[k] == PageEntry
    ensures forall k :: 0 <= k < |r| && r[k].kind == ElementKind ==>
              IsScrollable(d, r[k].element) && r[k] == ElementEntry(d, r[k].element.node)
    ensures forall i :: 0 <= i < |d.order| && IsScrollable(d, ElementRef(d.order[i])) ==>
              ElementEntry(d, d.order[i]) in r
  {
    r := [];
    if IsPageScrollable(d) {
      r := r + [PageEntry];
    }
    ghost var head := r;
    var i := 0;
    while i < |d.order|
      invariant 0 <= i <= |d.order|
      invariant r == head + ElementEntries(d, d.order[..i])
    {
      var el := d.order[i];
      if IsScrollable(d, ElementRef(el)) {
        r := r + [Entry(ElementRef(el), ElementLabel(NodeOf(d, el)), ElementKind)];
      }
      assert d.order[..i + 1][..i] == d.order[..i];
      i := i + 1;
    }
    assert d.order[..i] == d.order;
    CandidateListShape(d);
  }
}
