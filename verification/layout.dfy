/**
 * The geometry a pane reads from its window: scroll position and extents,
 * hit-testing and element boxes, all taken as inputs. Pixel values that the
 * browser may report as fractions are `real`; `scrollHeight`,
 * `innerHeight` and `innerWidth` are integers, as in the DOM.
 */
module Layout {
  import opened Wrappers
  import opened Dom

  /** How far below the top of the viewport the anchor line sits. */
  const AnchorY := 120

  /** The scrolling element's state and the window size. */
  datatype Viewport = Viewport(scrollTop: real, scrollHeight: int, innerHeight: int, innerWidth: int)

  /** A pane's document together with the DOM services the codec uses:
      `elementFromPoint` and, per element, its bounding box's top (relative
      to the viewport) and height. */
  datatype Page = Page(
    doc: Element,
    view: Viewport,
    elementFromPoint: (int, int) -> Hit,
    rectTop: Pos -> real,
    rectHeight: Pos -> real)

  function RealMin(a: real, b: real): real { if a <= b then a else b }

  function RealMax(a: real, b: real): real { if a <= b then b else a }

  function Abs(x: real): real { if x < 0.0 then -x else x }

  /** `Math.min(Math.max(x, 0), 1)`. */
  function Clamp01(x: real): (r: real)
    ensures 0.0 <= r <= 1.0
    ensures 0.0 <= x <= 1.0 ==> r == x
    ensures x < 0.0 ==> r == 0.0
    ensures x > 1.0 ==> r == 1.0
  {
    RealMin(RealMax(x, 0.0), 1.0)
  }

  /** `Math.round`: the nearest integer, halves rounded up. */
  function Round(x: real): (r: int)
    ensures x - 0.5 < r as real <= x + 0.5
  {
    (x + 0.5).Floor
  }

  /** The largest scroll position: `max(scrollHeight - innerHeight, 0)`. */
  function MaxScroll(v: Viewport): (m: int)
    ensures m >= 0
    ensures m == 0 <==> v.scrollHeight - v.innerHeight <= 0
    ensures m > 0 ==> m == v.scrollHeight - v.innerHeight
  {
    Max(v.scrollHeight - v.innerHeight, 0)
  }

  /** `getScrollProgress`: how far through its scrollable range the page
      is, as a fraction. */
  function ScrollProgress(v: Viewport): (p: real)
    ensures 0.0 <= p <= 1.0
    ensures MaxScroll(v) == 0 ==> p == 0.0
    ensures MaxScroll(v) > 0 && 0.0 <= v.scrollTop <= MaxScroll(v) as real ==>
              p * MaxScroll(v) as real == v.scrollTop
  {
    var max := MaxScroll(v);
    if max <= 0 then 0.0 else Clamp01(v.scrollTop / max as real)
  }

  /** The anchor line as the anchor offset is measured against it:
      `min(ANCHOR_Y, innerHeight - 1)`. */
  function AnchorLine(v: Viewport): int
  {
    Min(AnchorY, v.innerHeight - 1)
  }

  /** The horizontal coordinate `pickAnchorElement` hit-tests at: the middle
      of the viewport, at least 1. */
  function ProbeX(v: Viewport): (x: int)
    ensures x >= 1
    ensures v.innerWidth >= 2 ==> 2 * x <= v.innerWidth < 2 * x + 2
  {
    Max(v.innerWidth / 2, 1)
  }

  /** The vertical coordinate `pickAnchorElement` hit-tests at: the anchor
      line, kept inside the viewport and at least 1. */
  function ProbeY(v: Viewport): (y: int)
    ensures 1 <= y <= AnchorY
    ensures 2 <= v.innerHeight <= AnchorY + 1 ==> y == v.innerHeight - 1
    ensures v.innerHeight > AnchorY ==> y == AnchorY
  {
    Min(AnchorY, Max(v.innerHeight - 1, 1))
  }

  /** What lies under the probe point. */
  function ProbeHit(page: Page): Hit
  {
    page.elementFromPoint(ProbeX(page.view), ProbeY(page.view))
  }

  /** Where the anchor line falls through an element whose box starts at
      `top` and is `height` high, as a fraction of that height. */
  function OffsetRatio(v: Viewport, top: real, height: real): (r: real)
    ensures 0.0 <= r <= 1.0
    ensures top >= AnchorLine(v) as real ==> r == 0.0
    ensures top + RealMax(height, 1.0) <= AnchorLine(v) as real ==> r == 1.0
  {
    var h := RealMax(height, 1.0);
    var through := AnchorLine(v) as real - top;
    assert through >= h ==> through / h >= 1.0 by {
      if through >= h {
        assert through / h * h == through;
      }
    }
    Clamp01(through / h)
  }

  /** The scroll position that puts the point `offsetRatio` of the way down
      an element (box top `rectTop`, height `rectHeight`) on the anchor
      line, before clamping. */
  function AnchoredTop(v: Viewport, rectTop: real, rectHeight: real, offsetRatio: real): (t: int)
    ensures
      var mark := v.scrollTop + rectTop + RealMax(rectHeight, 1.0) * Clamp01(offsetRatio);
      mark - AnchorLine(v) as real - 0.5 < t as real <= mark - AnchorLine(v) as real + 0.5
  {
    var elementTop := v.scrollTop + rectTop;
    Round(elementTop + RealMax(rectHeight, 1.0) * Clamp01(offsetRatio) - AnchorLine(v) as real)
  }

  /** Decoding undoes encoding on the same geometry: when the anchor line
      crosses the element's box, the offset ratio the pane records puts the
      page back at its own scroll position (rounded). */
  lemma AnchoredTopRestoresScroll(v: Viewport, top: real, height: real)
    requires top <= AnchorLine(v) as real <= top + RealMax(height, 1.0)
    ensures AnchoredTop(v, top, height, OffsetRatio(v, top, height)) == Round(v.scrollTop)
  {
    // Inside the box the ratio is (line - top) / h, unclamped, so the
    // anchored mark is scrollTop + top + (line - top) - line.
  }

  /** The fallback scroll position: `round(max * progress)` with the
      progress clamped to [0,1]; it never leaves the scroll range. */
  function ProgressTop(v: Viewport, progress: real): (t: int)
    ensures 0 <= t <= MaxScroll(v)
    ensures progress <= 0.0 ==> t == 0
    ensures progress >= 1.0 ==> t == MaxScroll(v)
  {
    var max := MaxScroll(v) as real;
    var p := Clamp01(progress);
    assert 0.0 <= max * p <= max by {
      assert max * p <= max * 1.0;
    }
    Round(max * p)
  }

  /** `Math.min(Math.max(t, 0), maxScroll)`. */
  function ClampTop(v: Viewport, t: int): (r: int)
    ensures 0 <= r <= MaxScroll(v)
    ensures 0 <= t <= MaxScroll(v) ==> r == t
    ensures t < 0 ==> r == 0
    ensures t > MaxScroll(v) ==> r == MaxScroll(v)
  {
    Min(Max(t, 0), MaxScroll(v))
  }
}
