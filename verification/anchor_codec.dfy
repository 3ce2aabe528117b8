/**
 * The anchor codec: a pane records where its reader is as a structural
 * anchor (a bounded child-index path, the element's tag name and its
 * ordinal among elements of that tag), and the other pane finds the
 * matching element in its own document, by path first and by tag ordinal
 * when the path does not lead to an element of that tag.
 */
module AnchorCodec {
  import opened Wrappers
  import opened Dom
  import opened Layout

  /** The most child indices an anchor path records. */
  const MaxPathDepth := 9

  /** Inline wrappers that `pickAnchorElement` climbs out of. */
  const SpanTag := "SPAN"

  /** A structural fingerprint of the element under the anchor line. */
  datatype Anchor = Anchor(path: seq<int>, tagName: string, tagOrdinal: int, offsetRatio: real)

  // ---------------------------------------------------------------------
  // buildElementPath

  /** The path an anchor records for the element at `element`: its last
      `MaxPathDepth` child indices, or all of them for a shallower element. */
  function AnchorPath(element: Pos): seq<int>
  {
    element[|element| - Min(|element|, MaxPathDepth)..]
  }

  /** Walks up from the element towards the body, putting each step's index
      among its parent's children in front, and stops at the body or after
      `MaxPathDepth` steps. */
  method BuildElementPath(doc: Element, element: Pos) returns (path: seq<int>)
    requires ValidPos(doc, element)
    ensures path == AnchorPath(element)
    ensures |path| <= MaxPathDepth
    ensures |element| <= MaxPathDepth ==> path == element
    ensures |element| > MaxPathDepth ==> |path| == MaxPathDepth
    ensures var top := element[..|element| - |path|];
            ValidPos(doc, top) && ValidPos(Subtree(doc, top), path)
  {
    path := [];
    var current := element;
    while current != [] && |path| < MaxPathDepth
      invariant current + path == element
      invariant |path| <= MaxPathDepth
      decreases |current|
    {
      var index := current[|current| - 1];
      assert current == current[..|current| - 1] + [index];
      path := [index] + path;
      current := current[..|current| - 1];
    }
    assert current == element[..|element| - |path|];
    assert path == element[|current|..];
    ValidAppend(doc, current, path);
  }

  // ---------------------------------------------------------------------
  // resolveElementPath

  /** What `resolveElementPath` finds: the element the path leads to from
      the body, or nothing when some index on the way is out of range. */
  function ResolvePath(doc: Element, path: seq<int>): Option<Pos>
  {
    if ValidPos(doc, path) then Some(path) else None
  }

  /** Walks the path down from the body and gives up at the first index
      that is negative or past the current element's children. */
  method ResolveElementPath(doc: Element, path: seq<int>) returns (r: Option<Pos>)
    ensures r == ResolvePath(doc, path)
  {
    var current := doc;
    for i := 0 to |path|
      invariant ValidPos(doc, path[..i]) && current == Subtree(doc, path[..i])
    {
      var index := path[i];
      ValidStep(doc, path[..i], index);
      assert path[..i + 1] == path[..i] + [index];
      if index < 0 || index >= |current.children| {
        ValidPrefix(doc, path, i + 1);
        return None;
      }
      current := current.children[index];
    }
    assert path[..|path|] == path;
    return Some(path);
  }

  /** Resolution fails exactly when some step meets an index that is out of
      range for the element reached so far. */
  lemma ResolveFailsAtBadIndex(doc: Element, path: seq<int>)
    ensures ResolvePath(doc, path).None? <==>
      exists k :: 0 <= k < |path| && ValidPos(doc, path[..k]) &&
                  !(0 <= path[k] < |Subtree(doc, path[..k]).children|)
  {
    if ValidPos(doc, path) {
      forall k | 0 <= k < |path| && ValidPos(doc, path[..k])
        ensures 0 <= path[k] < |Subtree(doc, path[..k]).children|
      {
        ValidPrefix(doc, path, k + 1);
        assert path[..k + 1] == path[..k] + [path[k]];
        ValidStep(doc, path[..k], path[k]);
      }
    } else {
      var k := 0;
      while k < |path| && ValidPos(doc, path[..k + 1])
        invariant 0 <= k <= |path| && ValidPos(doc, path[..k])
      {
        k := k + 1;
      }
      assert path[..|path|] == path;
      assert path[..k + 1] == path[..k] + [path[k]];
      ValidStep(doc, path[..k], path[k]);
    }
  }

  // ---------------------------------------------------------------------
  // getTagOrdinal and resolveByTagOrdinal

  /** The element's index among the document's elements of its tag, or -1
      when it has no tag name or is not among them. */
  function TagOrdinal(doc: Element, element: Pos): int
    requires ValidPos(doc, element)
  {
    var tag := TagAt(doc, element);
    if tag == "" then -1 else IndexOf(ElementsByTagName(doc, tag), element)
  }

  /** Scans `getElementsByTagName(tag)` for the element. */
  method GetTagOrdinal(doc: Element, element: Pos) returns (ordinal: int)
    requires ValidPos(doc, element)
    ensures ordinal == TagOrdinal(doc, element)
  {
    var tag := Subtree(doc, element).tag;
    if tag == "" {
      return -1;
    }
    var elements := ElementsByTagName(doc, tag);
    var i := 0;
    while i < |elements|
      invariant 0 <= i <= |elements|
      invariant element !in elements[..i]
    {
      if elements[i] == element {
        return i;
      }
      assert elements[..i + 1] == elements[..i] + [elements[i]];
      i := i + 1;
    }
    assert elements[..i] == elements;
    return -1;
  }

  /** Every element with a tag name has an ordinal, and that ordinal
      indexes the element itself among the elements of its tag. */
  lemma TagOrdinalFound(doc: Element, element: Pos)
    requires ValidPos(doc, element) && TagAt(doc, element) != ""
    ensures 0 <= TagOrdinal(doc, element) < |ElementsByTagName(doc, TagAt(doc, element))|
    ensures ElementsByTagName(doc, TagAt(doc, element))[TagOrdinal(doc, element)] == element
  {
    TaggedComplete(doc, [], TagAt(doc, element), element);
    assert [] + element == element;
  }

  /** The `ordinal`-th element tagged `tagName` in document order; nothing
      for a missing tag name, a negative ordinal or one past the last. */
  function ResolveByTagOrdinal(doc: Element, tagName: string, ordinal: int): (r: Option<Pos>)
    ensures r.Some? <==> tagName != "" && 0 <= ordinal < |ElementsByTagName(doc, tagName)|
    ensures r.Some? ==> ValidPos(doc, r.value) && TagAt(doc, r.value) == tagName
    ensures r.Some? ==> r.value == ElementsByTagName(doc, tagName)[ordinal]
  {
    if tagName == "" || ordinal < 0 then None
    else
      var elements := ElementsByTagName(doc, tagName);
      if ordinal >= |elements| then None
      else
        TaggedSound(doc, [], tagName, elements[ordinal]);
        assert elements[ordinal][0..] == elements[ordinal];
        Some(elements[ordinal])
  }

  /** Looking an element up by its own tag and ordinal finds it again. */
  lemma TagOrdinalRoundTrip(doc: Element, element: Pos)
    requires ValidPos(doc, element) && TagAt(doc, element) != ""
    ensures ResolveByTagOrdinal(doc, TagAt(doc, element), TagOrdinal(doc, element)) == Some(element)
  {
    TagOrdinalFound(doc, element);
  }

  // ---------------------------------------------------------------------
  // findTargetFromAnchor

  /** The anchor's path leads to an element whose tag is the anchor's (or
      the anchor names no tag). */
  predicate PathMatches(doc: Element, a: Anchor)
  {
    ValidPos(doc, a.path) && (a.tagName == "" || TagAt(doc, a.path) == a.tagName)
  }

  /** Path first; when the path fails or leads to an element of another
      tag, the tag ordinal. */
  function FindTarget(doc: Element, anchor: Option<Anchor>): (r: Option<Pos>)
    ensures anchor.None? ==> r.None?
    ensures r.Some? ==> ValidPos(doc, r.value)
    ensures anchor.Some? && PathMatches(doc, anchor.value) ==> r == Some(anchor.value.path)
    ensures anchor.Some? && !PathMatches(doc, anchor.value) ==>
              r == ResolveByTagOrdinal(doc, anchor.value.tagName, anchor.value.tagOrdinal)
  {
    match anchor
    case None => None
    case Some(a) =>
      var byPath := ResolvePath(doc, a.path);
      var element :=
        if byPath.Some? && a.tagName != "" && TagAt(doc, byPath.value) != a.tagName then None
        else byPath;
      if element.Some? then element else ResolveByTagOrdinal(doc, a.tagName, a.tagOrdinal)
  }

  method FindTargetFromAnchor(doc: Element, anchor: Option<Anchor>) returns (r: Option<Pos>)
    ensures r == FindTarget(doc, anchor)
  {
    if anchor.None? {
      return None;
    }
    var a := anchor.value;
    var element := ResolveElementPath(doc, a.path);
    if element.Some? && a.tagName != "" && Subtree(doc, element.value).tag != a.tagName {
      element := None;
    }
    if element.None? {
      element := ResolveByTagOrdinal(doc, a.tagName, a.tagOrdinal);
    }
    return element;
  }

  // ---------------------------------------------------------------------
  // pickAnchorElement

  /** The nearest ancestor-or-self of `p` that is not a SPAN, or the body. */
  function Unwrap(doc: Element, p: Pos): (r: Pos)
    requires ValidPos(doc, p)
    ensures |r| <= |p| && r == p[..|r|] && ValidPos(doc, r)
    ensures r == [] || TagAt(doc, r) != SpanTag
    ensures forall k :: |r| < k <= |p| ==> ValidPos(doc, p[..k]) && TagAt(doc, p[..k]) == SpanTag
    decreases |p|
  {
    if p != [] && TagAt(doc, p) == SpanTag then
      ValidPrefix(doc, p, |p| - 1);
      var r := Unwrap(doc, p[..|p| - 1]);
      assert forall k :: 0 <= k <= |p| - 1 ==> p[..|p| - 1][..k] == p[..k];
      assert p[..|p|] == p;
      r
    else
      assert p[..|p|] == p;
      p
  }

  /** The element `pickAnchorElement` settles on for a hit. */
  function PickedElement(doc: Element, hit: Hit): (r: Option<Pos>)
    requires HitInDocument(doc, hit)
    ensures r.Some? ==> ValidPos(doc, r.value)
  {
    match hit
    case Nothing => None
    case ElementHit(at) => Some(Unwrap(doc, at))
    case TextHit(parent) => if parent.None? then None else Some(Unwrap(doc, parent.value))
  }

  /** Hit-tests at the probe point, goes from a text node to its parent
      element, and climbs out of SPAN wrappers. */
  method PickAnchorElement(page: Page) returns (element: Option<Pos>)
    requires HitInDocument(page.doc, ProbeHit(page))
    ensures element == PickedElement(page.doc, ProbeHit(page))
  {
    var node := page.elementFromPoint(ProbeX(page.view), ProbeY(page.view));
    var start: Option<Pos>;
    match node {
      case Nothing => return None;
      case ElementHit(at) => start := Some(at);
      case TextHit(parent) => start := parent;
    }
    if start.None? {
      return None;
    }
    var e := start.value;
    while e != [] && Subtree(page.doc, e).tag == SpanTag
      invariant ValidPos(page.doc, e) && Unwrap(page.doc, e) == Unwrap(page.doc, start.value)
      decreases |e|
    {
      ValidPrefix(page.doc, e, |e| - 1);
      e := e[..|e| - 1];
    }
    return Some(e);
  }

  // ---------------------------------------------------------------------
  // buildAnchor

  /** The anchor a pane records for an element. */
  function AnchorFor(page: Page, element: Pos): Anchor
    requires ValidPos(page.doc, element)
  {
    Anchor(AnchorPath(element), TagAt(page.doc, element), TagOrdinal(page.doc, element),
           OffsetRatio(page.view, page.rectTop(element), page.rectHeight(element)))
  }

  /** The anchor for whatever lies under the probe point, if anything. */
  function AnchorAt(page: Page): Option<Anchor>
    requires HitInDocument(page.doc, ProbeHit(page))
  {
    match PickedElement(page.doc, ProbeHit(page))
    case None => None
    case Some(e) => Some(AnchorFor(page, e))
  }

  method BuildAnchor(page: Page) returns (anchor: Option<Anchor>)
    requires HitInDocument(page.doc, ProbeHit(page))
    ensures anchor == AnchorAt(page)
    ensures anchor.Some? ==> |anchor.value.path| <= MaxPathDepth
    ensures anchor.Some? ==> 0.0 <= anchor.value.offsetRatio <= 1.0
  {
    var element := PickAnchorElement(page);
    if element.None? {
      return None;
    }
    var e := element.value;
    var offsetRatio := OffsetRatio(page.view, page.rectTop(e), page.rectHeight(e));
    var path := BuildElementPath(page.doc, e);
    var ordinal := GetTagOrdinal(page.doc, e);
    return Some(Anchor(path, Subtree(page.doc, e).tag, ordinal, offsetRatio));
  }

  // ---------------------------------------------------------------------
  // Properties of the codec

  /** An anchor built for an element at most `MaxPathDepth` levels below
      the body resolves, in the same document, to that element. */
  lemma AnchorRoundTrip(page: Page, element: Pos)
    requires ValidPos(page.doc, element) && |element| <= MaxPathDepth
    ensures FindTarget(page.doc, Some(AnchorFor(page, element))) == Some(element)
  {
  }

  /** At any depth, an anchor for an element with a tag name resolves in the
      same document to an element of that tag: the element itself, unless
      the element is deeper than `MaxPathDepth` and its truncated path,
      read from the body, leads to another element of the same tag. */
  lemma AnchorResolvesToSameTag(page: Page, element: Pos)
    requires ValidPos(page.doc, element) && TagAt(page.doc, element) != ""
    ensures var r := FindTarget(page.doc, Some(AnchorFor(page, element)));
            r.Some? && TagAt(page.doc, r.value) == TagAt(page.doc, element) &&
            (r.value == element || (|element| > MaxPathDepth && r.value == AnchorPath(element)))
  {
    TagOrdinalRoundTrip(page.doc, element);
  }

  /** A DIV nested `n` levels deep in single DIV children. */
  function DivChain(n: nat): Element
  {
    if n == 0 then Element("DIV", []) else Element("DIV", [DivChain(n - 1)])
  }

  lemma {:induction false} DivChainPos(n: nat, k: nat)
    requires k <= n
    ensures ValidPos(DivChain(n), seq(k, _ => 0)) && TagAt(DivChain(n), seq(k, _ => 0)) == "DIV"
  {
    if k > 0 {
      DivChainPos(n - 1, k - 1);
      assert seq(k, _ => 0)[1..] == seq(k - 1, _ => 0);
    }
  }

  /** In a body holding ten nested DIVs, the anchor for the innermost one
      records only its last nine indices; read from the body they lead to
      its parent, a DIV too, so the anchor resolves to the parent. */
  lemma DeepAnchorLandsOnAncestor(page: Page)
    requires page.doc == Element("BODY", [DivChain(9)])
    ensures var e := seq(10, _ => 0);
            ValidPos(page.doc, e) &&
            FindTarget(page.doc, Some(AnchorFor(page, e))) == Some(e[..9])
  {
    var e := seq(10, _ => 0);
    DivChainPos(9, 9);
    DivChainPos(9, 8);
    assert e[1..] == seq(9, _ => 0);
    assert e[..9] == [0] + seq(8, _ => 0);
    assert e[..9][1..] == seq(8, _ => 0);
    assert ValidPos(page.doc, e);
    assert AnchorPath(e) == e[1..];
    assert e[1..] == e[..9];
    assert ValidPos(page.doc, e[..9]) && TagAt(page.doc, e[..9]) == "DIV";
  }
}
