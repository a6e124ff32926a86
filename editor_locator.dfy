/** The editor locator of the content script (`findGoogleDocsEditor`).

    The live page is abstracted to what the locator can observe of it: for
    each CSS selector, the elements `querySelectorAll` returns, in document
    order, each with its rendered size. */
module EditorLocator {
  import opened Wrappers

  /** An element as the locator sees it: an identity and its
      `offsetWidth` / `offsetHeight`. */
  datatype Element = Element(id: nat, offsetWidth: int, offsetHeight: int)

  /** The answers of `querySelectorAll`: a selector missing from the map
      matches nothing. */
  type Document = map<string, seq<Element>>

  /** Where a first-pass match was found: which selector, which element. */
  datatype Hit = Hit(selector: nat, index: nat)

  const ContentEditable: string := "[contenteditable=\"true\"]"
  const AppViewEditor: string := ".kix-appview-editor"

  /** The selectors tried in the first pass, most specific first. */
  const Selectors: seq<string> := [
    ".kix-lineview-content",
    "[contenteditable=\"true\"][role=\"textbox\"]",
    AppViewEditor,
    "[data-params*=\"editor\"]",
    "[aria-label*=\"document\"]",
    ContentEditable,
    "[role=\"textbox\"]",
    ".kix-page-content-wrapper",
    ".kix-appview-editor-content"
  ]

  function QueryAll(doc: Document, selector: string): seq<Element>
  {
    if selector in doc then doc[selector] else []
  }

  /** The size test of both passes: wider and taller than 100 pixels. */
  predicate Visible(e: Element)
  {
    e.offsetWidth > 100 && e.offsetHeight > 100
  }

  ghost predicate HiddenBefore(els: seq<Element>, n: nat)
    requires n <= |els|
  {
    forall j | 0 <= j < n :: !Visible(els[j])
  }

  /** `k` is the position of the first visible element of `els`. */
  ghost predicate IsFirstVisible(els: seq<Element>, k: nat)
  {
    k < |els| && Visible(els[k]) && HiddenBefore(els, k)
  }

  ghost predicate NoneVisible(els: seq<Element>)
  {
    forall e | e in els :: !Visible(e)
  }

  /** No element matched by the selectors `lo .. hi-1` is visible. */
  ghost predicate MissesBetween(doc: Document, lo: nat, hi: nat)
    requires hi <= |Selectors|
  {
    forall i | lo <= i < hi :: NoneVisible(QueryAll(doc, Selectors[i]))
  }

  /** The inner loop of either pass: the position of the first visible
      element, or None when there is none. */
  function FirstVisibleAt(els: seq<Element>): (r: Option<nat>)
    ensures r.Some? ==> IsFirstVisible(els, r.value)
    ensures r.None? ==> NoneVisible(els)
    decreases |els|
  {
    if els == [] then None
    else if Visible(els[0]) then Some(0)
    else
      match FirstVisibleAt(els[1..])
      case Some(k) => Some(k + 1)
      case None => None
  }

  /** The first pass, from selector `i` on: the first visible element in
      selector order, then document order. */
  function SearchFrom(doc: Document, i: nat): (r: Option<Hit>)
    requires i <= |Selectors|
    ensures r.Some? ==> i <= r.value.selector < |Selectors|
    ensures r.Some? ==> MissesBetween(doc, i, r.value.selector)
    ensures r.Some? ==> IsFirstVisible(QueryAll(doc, Selectors[r.value.selector]), r.value.index)
    decreases |Selectors| - i
  {
    if i == |Selectors| then None
    else
      match FirstVisibleAt(QueryAll(doc, Selectors[i]))
      case Some(k) => Some(Hit(i, k))
      case None => SearchFrom(doc, i + 1)
  }

  /** What `findGoogleDocsEditor` returns: the first-pass match, else the
      first visible contenteditable element, else the first
      `.kix-appview-editor` whatever its size, else null. */
  function Locate(doc: Document): Option<Element>
  {
    match SearchFrom(doc, 0)
    case Some(h) => Some(QueryAll(doc, Selectors[h.selector])[h.index])
    case None =>
      match FirstVisibleElement(QueryAll(doc, ContentEditable))
      case Some(e) => Some(e)
      case None =>
        var areas := QueryAll(doc, AppViewEditor);
        if areas != [] then Some(areas[0]) else None
  }

  function FirstVisibleElement(els: seq<Element>): Option<Element>
  {
    match FirstVisibleAt(els)
    case Some(k) => Some(els[k])
    case None => None
  }

  lemma FirstVisibleAtUnique(els: seq<Element>, k: nat)
    requires IsFirstVisible(els, k)
    ensures FirstVisibleAt(els) == Some(k)
  {
    assert els[k] in els;
  }

  /** The first pass fails exactly when every element it examines is
      hidden. */
  lemma {:induction false} SearchFromNone(doc: Document, i: nat)
    requires i <= |Selectors|
    ensures SearchFrom(doc, i).None? <==> MissesBetween(doc, i, |Selectors|)
    decreases |Selectors| - i
  {
    if i < |Selectors| {
      SearchFromNone(doc, i + 1);
      var els := QueryAll(doc, Selectors[i]);
      if FirstVisibleAt(els).None? {
        assert MissesBetween(doc, i + 1, |Selectors|) ==> MissesBetween(doc, i, |Selectors|);
      } else {
        var k := FirstVisibleAt(els).value;
        assert els[k] in els;
      }
    }
  }

  /** First match: when every element of the selectors before `i` is
      hidden and `k` is the first visible element of selector `i`, that
      element is the editor. */
  lemma LocateFirstPass(doc: Document, i: nat, k: nat)
    requires i < |Selectors|
    requires MissesBetween(doc, 0, i)
    requires IsFirstVisible(QueryAll(doc, Selectors[i]), k)
    ensures Locate(doc) == Some(QueryAll(doc, Selectors[i])[k])
  {
    var els := QueryAll(doc, Selectors[i]);
    assert els[k] in els;
    SearchFromNone(doc, 0);
    var h := SearchFrom(doc, 0).value;
    var found := QueryAll(doc, Selectors[h.selector]);
    assert found[h.index] in found;
    assert h.selector == i;
    FirstVisibleAtUnique(els, h.index);
    FirstVisibleAtUnique(els, k);
  }

  /** When the first pass finds nothing, the contenteditable pass finds
      nothing either (its selector was already tried), and the result is
      the first `.kix-appview-editor`, of whatever size, or null. */
  lemma LocateFallback(doc: Document)
    requires MissesBetween(doc, 0, |Selectors|)
    ensures FirstVisibleAt(QueryAll(doc, ContentEditable)).None?
    ensures var areas := QueryAll(doc, AppViewEditor);
            Locate(doc) == if areas != [] then Some(areas[0]) else None
    ensures Locate(doc).Some? ==> !Visible(Locate(doc).value)
  {
    SearchFromNone(doc, 0);
    assert Selectors[5] == ContentEditable;
    assert Selectors[2] == AppViewEditor;
    var areas := QueryAll(doc, AppViewEditor);
    if areas != [] {
      assert areas[0] in areas;
    }
  }

  /** Null is returned exactly when no examined element is visible and
      the page has no `.kix-appview-editor`. */
  lemma LocateNoneIff(doc: Document)
    ensures Locate(doc).None? <==>
              MissesBetween(doc, 0, |Selectors|) && QueryAll(doc, AppViewEditor) == []
  {
    SearchFromNone(doc, 0);
    if MissesBetween(doc, 0, |Selectors|) {
      LocateFallback(doc);
    }
  }

  /** The located element is either visible and matched by one of the
      selectors, or the size-blind last resort. */
  lemma LocateSound(doc: Document)
    ensures Locate(doc).Some? ==>
              (Visible(Locate(doc).value) &&
               exists i | 0 <= i < |Selectors| :: Locate(doc).value in QueryAll(doc, Selectors[i]))
              || (MissesBetween(doc, 0, |Selectors|) && Locate(doc).value == QueryAll(doc, AppViewEditor)[0])
  {
    SearchFromNone(doc, 0);
    match SearchFrom(doc, 0)
    case Some(h) =>
      var els := QueryAll(doc, Selectors[h.selector]);
      assert els[h.index] in els;
    case None =>
      LocateFallback(doc);
  }

  /** The inner `for` loop: scans `elements` in order and stops at the
      first visible one. */
  method ScanForVisible(elements: seq<Element>) returns (found: Option<nat>)
    ensures found == FirstVisibleAt(elements)
  {
    var j := 0;
    while j < |elements|
      invariant 0 <= j <= |elements|
      invariant HiddenBefore(elements, j)
    {
      if Visible(elements[j]) {
        FirstVisibleAtUnique(elements, j);
        return Some(j);
      }
      j := j + 1;
    }
    found := None;
  }

  /** `findGoogleDocsEditor`: the selector loop with early return, the
      contenteditable loop, then the last-resort lookup. */
  method FindGoogleDocsEditor(doc: Document) returns (editor: Option<Element>)
    ensures editor == Locate(doc)
  {
    var i := 0;
    while i < |Selectors|
      invariant 0 <= i <= |Selectors|
      invariant SearchFrom(doc, 0) == SearchFrom(doc, i)
    {
      var elements := QueryAll(doc, Selectors[i]);
      var k := ScanForVisible(elements);
      if k.Some? {
        return Some(elements[k.value]);
      }
      i := i + 1;
    }
    var editables := QueryAll(doc, ContentEditable);
    var k := ScanForVisible(editables);
    if k.Some? {
      editor := Some(editables[k.value]);
      return;
    }
    var areas := QueryAll(doc, AppViewEditor);
    if areas != [] {
      return Some(areas[0]);
    }
    return None;
  }
}
