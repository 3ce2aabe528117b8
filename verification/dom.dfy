/**
 * The document as the anchor codec sees it: a tree of elements rooted at
 * `document.body`. An element is identified by its position, the child
 * indices that lead to it from the body, so two positions denote the same
 * element exactly when they are equal.
 */
module Dom {
  import opened Wrappers

  /** An element: its tag name and its element children in document order. */
  datatype Element = Element(tag: string, children: seq<Element>)

  /** Child indices from the body down to an element. */
  type Pos = seq<int>

  /** What `document.elementFromPoint` returned: nothing, an element, or a
      text node (with its parent element, if it has one). */
  datatype Hit = Nothing | ElementHit(at: Pos) | TextHit(parent: Option<Pos>)

  /** `p` leads from `n` through existing children only. */
  predicate ValidPos(n: Element, p: Pos)
    decreases |p|
  {
    p == [] || (0 <= p[0] < |n.children| && ValidPos(n.children[p[0]], p[1..]))
  }

  /** The element that `p` leads to from `n`. */
  function Subtree(n: Element, p: Pos): Element
    requires ValidPos(n, p)
    decreases |p|
  {
    if p == [] then n else Subtree(n.children[p[0]], p[1..])
  }

  /** The tag name of the element at `p`. */
  function TagAt(n: Element, p: Pos): string
    requires ValidPos(n, p)
  {
    Subtree(n, p).tag
  }

  /** The element positions a hit refers to are in the document. */
  predicate HitInDocument(doc: Element, hit: Hit)
  {
    match hit
    case Nothing => true
    case ElementHit(at) => ValidPos(doc, at)
    case TextHit(parent) => parent.Some? ==> ValidPos(doc, parent.value)
  }

  /** Walking `a` and then `b` is walking `a + b`. */
  lemma {:induction false} ValidAppend(n: Element, a: Pos, b: Pos)
    ensures ValidPos(n, a + b) <==> ValidPos(n, a) && ValidPos(Subtree(n, a), b)
    ensures ValidPos(n, a + b) ==> Subtree(n, a + b) == Subtree(Subtree(n, a), b)
    decreases |a|
  {
    if a == [] {
      assert a + b == b;
    } else {
      assert (a + b)[0] == a[0];
      assert (a + b)[1..] == a[1..] + b;
      if 0 <= a[0] < |n.children| {
        ValidAppend(n.children[a[0]], a[1..], b);
      }
    }
  }

  /** Every ancestor of an element in the document is in the document. */
  lemma ValidPrefix(n: Element, p: Pos, k: nat)
    requires k <= |p|
    ensures ValidPos(n, p) ==> ValidPos(n, p[..k])
  {
    ValidAppend(n, p[..k], p[k..]);
    assert p[..k] + p[k..] == p;
  }

  /** Stepping to child `i` of the element at `p`. */
  lemma ValidStep(n: Element, p: Pos, i: int)
    requires ValidPos(n, p)
    ensures ValidPos(n, p + [i]) <==> 0 <= i < |Subtree(n, p).children|
    ensures 0 <= i < |Subtree(n, p).children| ==> Subtree(n, p + [i]) == Subtree(n, p).children[i]
  {
    ValidAppend(n, p, [i]);
  }

  /**
   * The positions of the elements tagged `tag` in the subtree `n`, which
   * sits at position `at`, listed in document (pre-)order: the element
   * itself first, then each child's subtree from left to right.
   */
  function Tagged(n: Element, at: Pos, tag: string): seq<Pos>
    decreases n, 1, 0
  {
    (if n.tag == tag then [at] else []) + TaggedFrom(n, at, tag, 0)
  }

  /** The tagged positions in the subtrees of children `i..` of `n`. */
  function TaggedFrom(n: Element, at: Pos, tag: string, i: nat): seq<Pos>
    requires i <= |n.children|
    decreases n, 0, |n.children| - i
  {
    if i == |n.children| then []
    else Tagged(n.children[i], at + [i], tag) + TaggedFrom(n, at, tag, i + 1)
  }

  /** `document.getElementsByTagName(tag)`: the elements of that tag in
      document order. */
  function ElementsByTagName(doc: Element, tag: string): seq<Pos>
  {
    Tagged(doc, [], tag)
  }

  /** Everything the collection lists is an element of that tag below `at`. */
  lemma {:induction false} TaggedSound(n: Element, at: Pos, tag: string, q: Pos)
    requires q in Tagged(n, at, tag)
    ensures |at| <= |q| && q[..|at|] == at
    ensures ValidPos(n, q[|at|..]) && TagAt(n, q[|at|..]) == tag
    decreases n, 1, 0
  {
    if n.tag == tag && q == at {
      assert q[|at|..] == [];
    } else {
      assert q in TaggedFrom(n, at, tag, 0);
      TaggedFromSound(n, at, tag, 0, q);
    }
  }

  lemma {:induction false} TaggedFromSound(n: Element, at: Pos, tag: string, i: nat, q: Pos)
    requires i <= |n.children|
    requires q in TaggedFrom(n, at, tag, i)
    ensures |at| < |q| && q[..|at|] == at
    ensures ValidPos(n, q[|at|..]) && TagAt(n, q[|at|..]) == tag
    decreases n, 0, |n.children| - i
  {
    if q in Tagged(n.children[i], at + [i], tag) {
      var c := n.children[i];
      TaggedSound(c, at + [i], tag, q);
      var rest := q[|at| + 1..];
      assert q[..|at| + 1] == at + [i];
      assert q[|at|] == i;
      assert q[|at|..] == [i] + rest;
      assert ([i] + rest)[1..] == rest;
      assert ValidPos(n, q[|at|..]);
      assert Subtree(n, q[|at|..]) == Subtree(c, rest);
      assert q[..|at|] == (at + [i])[..|at|];
    } else {
      TaggedFromSound(n, at, tag, i + 1, q);
    }
  }

  /** Every element of that tag below `at` is in the collection. */
  lemma {:induction false} TaggedComplete(n: Element, at: Pos, tag: string, p: Pos)
    requires ValidPos(n, p) && TagAt(n, p) == tag
    ensures at + p in Tagged(n, at, tag)
    decreases n, 1, 0
  {
    if p == [] {
      assert at + p == at;
    } else {
      TaggedFromComplete(n, at, tag, 0, p);
    }
  }

  lemma {:induction false} TaggedFromComplete(n: Element, at: Pos, tag: string, i: nat, p: Pos)
    requires ValidPos(n, p) && TagAt(n, p) == tag
    requires p != [] && i <= p[0]
    ensures at + p in TaggedFrom(n, at, tag, i)
    decreases n, 0, |n.children| - i
  {
    if i == p[0] {
      TaggedComplete(n.children[i], at + [i], tag, p[1..]);
      assert (at + [i]) + p[1..] == at + p;
    } else {
      TaggedFromComplete(n, at, tag, i + 1, p);
    }
  }

  /** The first index of `x` in `s`, or -1: `Array.prototype.indexOf`. */
  function IndexOf<T(==)>(s: seq<T>, x: T): (r: int)
    ensures -1 <= r < |s|
    ensures r >= 0 <==> x in s
    ensures r >= 0 ==> s[r] == x && x !in s[..r]
  {
    if s == [] then -1
    else if s[0] == x then 0
    else
      var k := IndexOf(s[1..], x);
      if k < 0 then -1
      else
        assert s[..k + 1] == [s[0]] + s[1..][..k];
        k + 1
  }
}
