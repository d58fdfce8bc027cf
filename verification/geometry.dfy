/** Shared geometry of the star field: configuration constants, clamping,
    the canvas bounds test and the interaction radius that grows while the
    pointer is held down.  All coordinates are reals; IEEE rounding is not
    modelled. */
module Geometry {

  /** Distance kept free along every edge of the logical canvas (px). */
  const EDGE_BUFFER: real := 1.0
  /** Extra tolerance granted to touch positions (px). */
  const TOUCH_BUFFER: real := 5.0
  /** Radius of the attraction query when an interaction starts (px). */
  const BASE_INTERACTION_RADIUS: real := 15.0
  /** Time after which the attraction radius stops growing (ms). */
  const MAX_INTERACTION_TIME: int := 10000

  datatype Vec = Vec(x: real, y: real)

  /** The drawing surface: its size in physical pixels and the device pixel
      ratio that converts physical to logical pixels. */
  datatype Canvas = Canvas(width: real, height: real, dpr: real) {
    predicate Valid() {
      dpr > 0.0 && width >= 0.0 && height >= 0.0
    }

    function LogicalWidth(): (w: real)
      requires Valid()
      ensures w >= 0.0
    {
      width / dpr
    }

    function LogicalHeight(): (h: real)
      requires Valid()
      ensures h >= 0.0
    {
      height / dpr
    }
  }

  /** The logical size times the device pixel ratio is the physical size. */
  lemma LogicalSize(c: Canvas)
    requires c.Valid()
    ensures c.LogicalWidth() * c.dpr == c.width && c.LogicalHeight() * c.dpr == c.height
  {
  }

  /** The canvas element's box on the page, in CSS (logical) pixels. */
  datatype Rect = Rect(left: real, top: real, width: real, height: real)

  function Min(a: real, b: real): real { if a <= b then a else b }
  function Max(a: real, b: real): real { if a >= b then a else b }
  function Abs(a: real): real { if a < 0.0 then -a else a }

  /** `Math.max(lo, Math.min(v, hi))`: the lower bound wins when the bounds cross. */
  function Clamp(v: real, lo: real, hi: real): (r: real)
    ensures lo <= r
    ensures lo <= hi ==> r <= hi
    ensures lo <= v <= hi ==> r == v
    ensures r == v || r == lo || r == hi
  {
    Max(lo, Min(v, hi))
  }

  lemma ClampIdempotent(v: real, lo: real, hi: real)
    ensures Clamp(Clamp(v, lo, hi), lo, hi) == Clamp(v, lo, hi)
  {
  }

  /** Squared Euclidean distance between two points. */
  function DistSq(a: Vec, b: Vec): real
  {
    (a.x - b.x) * (a.x - b.x) + (a.y - b.y) * (a.y - b.y)
  }

  lemma MulPositive(a: real, b: real)
    requires a > 0.0 && b > 0.0
    ensures a * b > 0.0
  {
  }

  lemma MulNonNegative(a: real, b: real)
    requires a >= 0.0 && b >= 0.0
    ensures a * b >= 0.0
  {
    if a > 0.0 && b > 0.0 { MulPositive(a, b); }
  }

  lemma Cancel(a: real, b: real, k: real)
    requires k > 0.0 && a * k == b * k
    ensures a == b
  {
    assert (a - b) * k == 0.0;
    if a > b { MulPositive(a - b, k); }
    if a < b { MulPositive(b - a, k); }
  }

  lemma SquareNonNegative(a: real)
    ensures a * a >= 0.0
  {
  }

  lemma SquareLess(a: real, b: real)
    requires 0.0 <= a < b
    ensures a * a < b * b
  {
    assert b * b - a * a == (b - a) * (b + a);
    MulPositive(b - a, b + a);
  }

  /** A coordinate difference is bounded by any distance bound. */
  lemma WithinRadius(d: real, e: real, r: real)
    requires r >= 0.0 && d * d + e * e <= r * r
    ensures -r <= d <= r && -r <= e <= r
  {
    SquareNonNegative(d);
    SquareNonNegative(e);
    if d > r { SquareLess(r, d); }
    if d < -r { assert (-d) * (-d) == d * d; SquareLess(r, -d); }
    if e > r { SquareLess(r, e); }
    if e < -r { assert (-e) * (-e) == e * e; SquareLess(r, -e); }
  }

  /** Multiplying by a non-negative factor preserves order. */
  lemma MulMonotone(k: real, p: real, q: real)
    requires k >= 0.0 && p <= q
    ensures k * p <= k * q
  {
    assert k * q - k * p == k * (q - p);
  }

  /** `constrainToCanvas(value, max)`: clamps a logical coordinate to the
      edge buffer of a canvas whose physical extent is `max`. */
  function ConstrainToCanvas(value: real, max: real, dpr: real): real
    requires dpr > 0.0
  {
    var maxLogical := max / dpr;
    Max(EDGE_BUFFER, Min(value, maxLogical - EDGE_BUFFER))
  }

  /** The constrained coordinate lies within the edge buffer of the logical
      extent `max / dpr` (when that is wide enough to have an inside), and
      a coordinate already there is left alone. */
  lemma ConstrainToCanvasSpec(value: real, max: real, dpr: real)
    requires dpr > 0.0
    ensures var r := ConstrainToCanvas(value, max, dpr);
            && r >= EDGE_BUFFER
            && (max / dpr >= 2.0 * EDGE_BUFFER ==> r <= max / dpr - EDGE_BUFFER)
            && (EDGE_BUFFER <= value <= max / dpr - EDGE_BUFFER ==> r == value)
            && (value < EDGE_BUFFER ==> r == EDGE_BUFFER)
  {
  }

  lemma ConstrainToCanvasIdempotent(value: real, max: real, dpr: real)
    requires dpr > 0.0
    ensures ConstrainToCanvas(ConstrainToCanvas(value, max, dpr), max, dpr)
         == ConstrainToCanvas(value, max, dpr)
  {
  }

  /** `isPositionInBounds(x, y)`: a physical position lies on the canvas,
      widened by the touch tolerance and narrowed by the edge buffer. */
  function IsPositionInBounds(x: real, y: real, c: Canvas): bool
  {
    var buffer := EDGE_BUFFER * c.dpr;
    var touchBuffer := TOUCH_BUFFER * c.dpr;
    x >= buffer - touchBuffer && x <= c.width - buffer + touchBuffer
    && y >= buffer - touchBuffer && y <= c.height - buffer + touchBuffer
  }

  /** The bounds test accepts the physical canvas widened by
      TOUCH_BUFFER - EDGE_BUFFER device pixels per logical pixel. */
  lemma PositionInBoundsSpec(x: real, y: real, c: Canvas)
    ensures IsPositionInBounds(x, y, c)
            <==> (-4.0 * c.dpr <= x <= c.width + 4.0 * c.dpr
                  && -4.0 * c.dpr <= y <= c.height + 4.0 * c.dpr)
  {
  }

  /** Every physical point of the canvas itself passes the bounds test. */
  lemma CanvasPointsInBounds(x: real, y: real, c: Canvas)
    requires c.Valid()
    requires 0.0 <= x <= c.width && 0.0 <= y <= c.height
    ensures IsPositionInBounds(x, y, c)
  {
    PositionInBoundsSpec(x, y, c);
  }

  /** One axis of the bounds test on a logical point scaled to physical
      pixels: `a` logical pixels are `pa` physical ones, on
      an axis `extent` logical pixels long that are `physical` physical
      ones. */
  lemma ScaledAxisBounds(a: real, pa: real, extent: real, physical: real, k: real)
    requires k > 0.0 && pa == a * k && extent * k == physical
    ensures (-4.0 * k <= pa <= physical + 4.0 * k) <==> (-4.0 <= a <= extent + 4.0)
  {
    assert (-4.0 * k <= pa) <==> (-4.0 <= a) by {
      ScaledLe(-4.0, a, k);
    }
    assert (pa <= physical + 4.0 * k) <==> (a <= extent + 4.0) by {
      assert (extent + 4.0) * k == extent * k + 4.0 * k;
      ScaledLe(a, extent + 4.0, k);
    }
  }

  /** Scaling by a positive factor preserves and reflects order. */
  lemma ScaledLe(p: real, q: real, k: real)
    requires k > 0.0
    ensures p * k <= q * k <==> p <= q
  {
    if p <= q {
      assert q * k - p * k == (q - p) * k;
      MulNonNegative(q - p, k);
    } else {
      assert p * k - q * k == (p - q) * k;
      MulPositive(p - q, k);
    }
  }

  /** Half the smaller logical dimension: the radius reached after
      MAX_INTERACTION_TIME. */
  function MaxRadius(c: Canvas): (r: real)
    requires c.Valid()
    ensures r >= 0.0
    ensures r <= c.LogicalWidth() / 2.0 && r <= c.LogicalHeight() / 2.0
    ensures r == c.LogicalWidth() / 2.0 || r == c.LogicalHeight() / 2.0
  {
    Min(c.LogicalWidth(), c.LogicalHeight()) / 2.0
  }

  /** Fraction of the growth period that has passed, for an interaction
      that has lasted `elapsed` milliseconds. */
  function Progress(elapsed: int): (p: real)
    ensures elapsed >= 0 ==> 0.0 <= p <= 1.0
    ensures elapsed >= MAX_INTERACTION_TIME ==> p == 1.0
  {
    (if elapsed <= MAX_INTERACTION_TIME then elapsed else MAX_INTERACTION_TIME) as real
      / MAX_INTERACTION_TIME as real
  }

  /** Linear interpolation from `a` (at p = 0) to `b` (at p = 1). */
  function Lerp(a: real, b: real, p: real): real
  {
    a + (b - a) * p
  }

  /** An interpolated point lies between the ends, and moves away from `a`
      towards `b` as `p` grows. */
  lemma LerpBetween(a: real, b: real, p: real)
    ensures 0.0 <= p <= 1.0 ==> Min(a, b) <= Lerp(a, b, p) <= Max(a, b)
  {
    if 0.0 <= p <= 1.0 {
      var d := if a <= b then b - a else a - b;
      MulNonNegative(d, p);
      MulNonNegative(d, 1.0 - p);
      assert d * (1.0 - p) == d - d * p;
      assert 0.0 <= d * p <= d;
      if a > b {
        assert (b - a) * p == -(d * p);
      }
    }
  }

  lemma LerpMonotone(a: real, b: real, p1: real, p2: real)
    requires p1 <= p2
    ensures a <= b ==> Lerp(a, b, p1) <= Lerp(a, b, p2)
    ensures b <= a ==> Lerp(a, b, p1) >= Lerp(a, b, p2)
  {
    if a <= b {
      MulMonotone(b - a, p1, p2);
    } else {
      MulMonotone(a - b, p1, p2);
    }
  }

  /** `getDynamicInteractionRadius()`, with `Date.now() - interactionStartTime`
      passed in as `elapsed`. */
  function DynamicInteractionRadius(elapsed: int, c: Canvas): (r: real)
    requires c.Valid()
    ensures elapsed == 0 ==> r == BASE_INTERACTION_RADIUS
    ensures elapsed >= MAX_INTERACTION_TIME ==> r == MaxRadius(c)
    ensures elapsed >= 0 ==> Min(BASE_INTERACTION_RADIUS, MaxRadius(c)) <= r
                           <= Max(BASE_INTERACTION_RADIUS, MaxRadius(c))
    ensures elapsed >= 0 ==> r >= 0.0
  {
    LerpBetween(BASE_INTERACTION_RADIUS, MaxRadius(c), Progress(elapsed));
    Lerp(BASE_INTERACTION_RADIUS, MaxRadius(c), Progress(elapsed))
  }

  /** The radius never shrinks during one interaction, as long as the canvas
      is at least 2 * BASE_INTERACTION_RADIUS wide and high; on a smaller
      canvas it shrinks from the base radius to MaxRadius instead. */
  lemma DynamicRadiusMonotone(e1: int, e2: int, c: Canvas)
    requires c.Valid()
    requires e1 <= e2
    ensures MaxRadius(c) >= BASE_INTERACTION_RADIUS ==>
              DynamicInteractionRadius(e1, c) <= DynamicInteractionRadius(e2, c)
    ensures MaxRadius(c) <= BASE_INTERACTION_RADIUS ==>
              DynamicInteractionRadius(e1, c) >= DynamicInteractionRadius(e2, c)
  {
    LerpMonotone(BASE_INTERACTION_RADIUS, MaxRadius(c), Progress(e1), Progress(e2));
  }

  /** A worked example: an 800 x 600 canvas held for ten seconds. */
  lemma DynamicRadiusScenario(dpr: real)
    requires dpr > 0.0
    ensures DynamicInteractionRadius(10000, Canvas(800.0 * dpr, 600.0 * dpr, dpr)) == 300.0
  {
    var c := Canvas(800.0 * dpr, 600.0 * dpr, dpr);
    MulPositive(800.0, dpr);
    MulPositive(600.0, dpr);
    assert c.Valid();
    LogicalSize(c);
    Cancel(c.LogicalWidth(), 800.0, dpr);
    Cancel(c.LogicalHeight(), 600.0, dpr);
  }
}
