/** The two geometry helpers of the hit-scan shooter (laser.js), over exact reals:
    where the firing ray leaves the screen, and whether a segment touches a circle. */
module Geometry {
  import opened JsNum

  datatype Point = Point(x: real, y: real)

  /** The threshold below which a direction component counts as zero. */
  const EPS: real := 1.0 / 1000000.0

  function Abs(r: real): real
  {
    if r < 0.0 then -r else r
  }

  /** The point at parameter t on the line from a through b. */
  function Along(a: Point, b: Point, t: real): Point
  {
    Point(a.x + t * (b.x - a.x), a.y + t * (b.y - a.y))
  }

  function Dist2(p: Point, q: Point): real
  {
    (p.x - q.x) * (p.x - q.x) + (p.y - q.y) * (p.y - q.y)
  }

  predicate InBox(p: Point, w: real, h: real)
  {
    0.0 <= p.x <= w && 0.0 <= p.y <= h
  }

  predicate OnBorder(p: Point, w: real, h: real)
  {
    p.x == 0.0 || p.x == w || p.y == 0.0 || p.y == h
  }

  // ---------------------------------------------------------------------------
  // rayToScreenEdge

  /** A crossing of the ray with one of the four screen edges. */
  datatype Crossing = Crossing(t: real, at: Point)

  predicate Degenerate(a: Point, b: Point)
  {
    Abs(b.x - a.x) < EPS && Abs(b.y - a.y) < EPS
  }

  /** The crossing with the vertical edge x = e, if it lies ahead of a and
      between 0 and h. */
  function CrossVertical(a: Point, b: Point, e: real, h: real): seq<Crossing>
    requires b.x - a.x != 0.0
  {
    var t := (e - a.x) / (b.x - a.x);
    var y := a.y + t * (b.y - a.y);
    if t > 0.0 && y >= 0.0 && y <= h then [Crossing(t, Point(e, y))] else []
  }

  /** The crossing with the horizontal edge y = e, if it lies ahead of a and
      between 0 and w. */
  function CrossHorizontal(a: Point, b: Point, e: real, w: real): seq<Crossing>
    requires b.y - a.y != 0.0
  {
    var t := (e - a.y) / (b.y - a.y);
    var x := a.x + t * (b.x - a.x);
    if t > 0.0 && x >= 0.0 && x <= w then [Crossing(t, Point(x, e))] else []
  }

  /** The crossings with x = 0, x = w, y = 0 and y = h, in that order, that lie
      ahead of a and within the perpendicular bound. */
  function EdgeCrossings(a: Point, b: Point, w: real, h: real): seq<Crossing>
  {
    (if Abs(b.x - a.x) > EPS then CrossVertical(a, b, 0.0, h) + CrossVertical(a, b, w, h) else [])
    + (if Abs(b.y - a.y) > EPS then CrossHorizontal(a, b, 0.0, w) + CrossHorizontal(a, b, h, w) else [])
  }

  lemma DivThenMul(n: real, d: real)
    requires d != 0.0
    ensures (n / d) * d == n
  {
  }

  lemma CrossVerticalOnRay(a: Point, b: Point, e: real, h: real)
    requires b.x - a.x != 0.0
    ensures forall c | c in CrossVertical(a, b, e, h) ::
      c.t > 0.0 && c.at == Along(a, b, c.t) && c.at.x == e && 0.0 <= c.at.y <= h
  {
    DivThenMul(e - a.x, b.x - a.x);
  }

  lemma CrossHorizontalOnRay(a: Point, b: Point, e: real, w: real)
    requires b.y - a.y != 0.0
    ensures forall c | c in CrossHorizontal(a, b, e, w) ::
      c.t > 0.0 && c.at == Along(a, b, c.t) && c.at.y == e && 0.0 <= c.at.x <= w
  {
    DivThenMul(e - a.y, b.y - a.y);
  }

  /** The first crossing of least t: what a stable sort by t puts in front. */
  function Nearest(cs: seq<Crossing>): (c: Crossing)
    requires cs != []
    ensures c in cs
    ensures forall d | d in cs :: c.t <= d.t
  {
    if |cs| == 1 then cs[0]
    else
      var rest := Nearest(cs[1..]);
      assert forall d | d in cs :: d == cs[0] || d in cs[1..];
      if cs[0].t <= rest.t then cs[0] else rest
  }

  /** Where the ray from a through b, extended beyond b, leaves [0, w] x [0, h]. */
  function RayToScreenEdge(a: Point, b: Point, w: real, h: real): Point
  {
    if Degenerate(a, b) then a
    else
      var cs := EdgeCrossings(a, b, w, h);
      if cs == [] then b else Nearest(cs).at
  }

  /** Every crossing lies ahead of a on the ray through b, on the screen border,
      and inside the screen. */
  lemma CrossingsOnRayAndBorder(a: Point, b: Point, w: real, h: real)
    requires 0.0 <= w && 0.0 <= h
    ensures forall c | c in EdgeCrossings(a, b, w, h) ::
      c.t > 0.0 && c.at == Along(a, b, c.t) && OnBorder(c.at, w, h) && InBox(c.at, w, h)
  {
    if Abs(b.x - a.x) > EPS {
      CrossVerticalOnRay(a, b, 0.0, h);
      CrossVerticalOnRay(a, b, w, h);
    }
    if Abs(b.y - a.y) > EPS {
      CrossHorizontalOnRay(a, b, 0.0, w);
      CrossHorizontalOnRay(a, b, h, w);
    }
  }

  /** The edge point: a itself for a null direction, b when no candidate
      crossing exists, and otherwise the earliest candidate crossing. An axis
      whose direction component is at most 1e-6 offers no candidate. */
  lemma RayToScreenEdgeSpec(a: Point, b: Point, w: real, h: real)
    requires 0.0 <= w && 0.0 <= h
    ensures Degenerate(a, b) ==> RayToScreenEdge(a, b, w, h) == a
    ensures !Degenerate(a, b) && EdgeCrossings(a, b, w, h) == [] ==> RayToScreenEdge(a, b, w, h) == b
    ensures !Degenerate(a, b) && EdgeCrossings(a, b, w, h) != [] ==>
      exists c :: c in EdgeCrossings(a, b, w, h) &&
        RayToScreenEdge(a, b, w, h) == Along(a, b, c.t) && c.t > 0.0 &&
        OnBorder(RayToScreenEdge(a, b, w, h), w, h) && InBox(RayToScreenEdge(a, b, w, h), w, h) &&
        forall d | d in EdgeCrossings(a, b, w, h) :: c.t <= d.t
  {
    CrossingsOnRayAndBorder(a, b, w, h);
    var cs := EdgeCrossings(a, b, w, h);
    if !Degenerate(a, b) && cs != [] {
      var c := Nearest(cs);
      assert c in cs;
    }
  }

  lemma MulLe(x: real, y: real, k: real)
    requires x <= y && k >= 0.0
    ensures x * k <= y * k
  {
  }

  lemma QuotientPositive(n: real, d: real)
    requires (n > 0.0 && d > 0.0) || (n < 0.0 && d < 0.0)
    ensures n / d > 0.0
  {
  }

  /** Along one axis: starting strictly between lo and hi with speed v, the
      position at any time up to the moment t2 the bound ahead is reached stays
      within [lo, hi]. */
  lemma StaysBetween(p: real, v: real, t: real, t2: real, lo: real, hi: real)
    requires lo < p < hi && v != 0.0 && 0.0 < t <= t2
    requires p + t2 * v == (if v > 0.0 then hi else lo)
    ensures lo <= p + t * v <= hi
  {
    if v > 0.0 {
      MulLe(0.0, t, v);
      MulLe(t, t2, v);
    } else {
      MulLe(0.0, t, -v);
      MulLe(t, t2, -v);
    }
  }

  /** The time at which the ray reaches the bound ahead along one axis. */
  lemma TimeToBound(p: real, v: real, lo: real, hi: real)
    requires lo < p < hi && v != 0.0
    ensures var t := ((if v > 0.0 then hi else lo) - p) / v;
      t > 0.0 && p + t * v == (if v > 0.0 then hi else lo)
  {
    var e := if v > 0.0 then hi else lo;
    DivThenMul(e - p, v);
    QuotientPositive(e - p, v);
  }

  /** From a point strictly inside the screen, a ray whose components are both
      above the threshold always meets an edge, so the fallback to b is not taken. */
  lemma RayFromInsideMeetsEdge(a: Point, b: Point, w: real, h: real)
    requires 0.0 < a.x < w && 0.0 < a.y < h
    requires Abs(b.x - a.x) > EPS && Abs(b.y - a.y) > EPS
    ensures EdgeCrossings(a, b, w, h) != []
  {
    var vx, vy := b.x - a.x, b.y - a.y;
    var ex := if vx > 0.0 then w else 0.0;
    var ey := if vy > 0.0 then h else 0.0;
    var tx, ty := (ex - a.x) / vx, (ey - a.y) / vy;
    if tx <= ty {
      VerticalFirst(a, b, w, h);
      CrossingsInclude(a, b, w, h, true);
    } else {
      HorizontalFirst(a, b, w, h);
      CrossingsInclude(a, b, w, h, false);
    }
  }

  /** The list of crossings holds those with the edges ahead on each axis. */
  lemma CrossingsInclude(a: Point, b: Point, w: real, h: real, vertical: bool)
    requires Abs(b.x - a.x) > EPS && Abs(b.y - a.y) > EPS
    requires vertical ==> CrossVertical(a, b, if b.x - a.x > 0.0 then w else 0.0, h) != []
    requires !vertical ==> CrossHorizontal(a, b, if b.y - a.y > 0.0 then h else 0.0, w) != []
    ensures EdgeCrossings(a, b, w, h) != []
  {
    var v0, v1 := CrossVertical(a, b, 0.0, h), CrossVertical(a, b, w, h);
    var h0, h1 := CrossHorizontal(a, b, 0.0, w), CrossHorizontal(a, b, h, w);
    assert EdgeCrossings(a, b, w, h) == v0 + v1 + (h0 + h1);
    assert |EdgeCrossings(a, b, w, h)| == |v0| + |v1| + |h0| + |h1|;
  }

  /** When the vertical edge ahead comes first, the ray meets it within [0, h]. */
  lemma VerticalFirst(a: Point, b: Point, w: real, h: real)
    requires 0.0 < a.x < w && 0.0 < a.y < h
    requires b.x - a.x != 0.0 && b.y - a.y != 0.0
    requires var ex, ey := (if b.x - a.x > 0.0 then w else 0.0), (if b.y - a.y > 0.0 then h else 0.0);
      (ex - a.x) / (b.x - a.x) <= (ey - a.y) / (b.y - a.y)
    ensures CrossVertical(a, b, if b.x - a.x > 0.0 then w else 0.0, h) != []
  {
    var vx, vy := b.x - a.x, b.y - a.y;
    var ex := if vx > 0.0 then w else 0.0;
    var ey := if vy > 0.0 then h else 0.0;
    TimeToBound(a.x, vx, 0.0, w);
    TimeToBound(a.y, vy, 0.0, h);
    StaysBetween(a.y, vy, (ex - a.x) / vx, (ey - a.y) / vy, 0.0, h);
  }

  /** When the horizontal edge ahead comes first, the ray meets it within [0, w]. */
  lemma HorizontalFirst(a: Point, b: Point, w: real, h: real)
    requires 0.0 < a.x < w && 0.0 < a.y < h
    requires b.x - a.x != 0.0 && b.y - a.y != 0.0
    requires var ex, ey := (if b.x - a.x > 0.0 then w else 0.0), (if b.y - a.y > 0.0 then h else 0.0);
      (ey - a.y) / (b.y - a.y) < (ex - a.x) / (b.x - a.x)
    ensures CrossHorizontal(a, b, if b.y - a.y > 0.0 then h else 0.0, w) != []
  {
    var vx, vy := b.x - a.x, b.y - a.y;
    var ex := if vx > 0.0 then w else 0.0;
    var ey := if vy > 0.0 then h else 0.0;
    TimeToBound(a.x, vx, 0.0, w);
    TimeToBound(a.y, vy, 0.0, h);
    StaysBetween(a.x, vx, (ey - a.y) / vy, (ex - a.x) / vx, 0.0, w);
  }

  // ---------------------------------------------------------------------------
  // segmentCircleIntersect

  /** The outcome of segmentCircleIntersect: a miss, or a hit at parameter t
      with its contact point. */
  datatype Contact = Miss | Hit(t: real, at: Point)

  /** The squared length of the segment from a to b. */
  function Len2(a: Point, b: Point): real
  {
    (b.x - a.x) * (b.x - a.x) + (b.y - a.y) * (b.y - a.y)
  }

  /** The dot product of c - a with b - a. */
  function Dot(a: Point, b: Point, c: Point): real
  {
    (c.x - a.x) * (b.x - a.x) + (c.y - a.y) * (b.y - a.y)
  }

  /** The squared segment length, with 1 standing in for a null segment. */
  function SafeLength2(a: Point, b: Point): (l: real)
    ensures l > 0.0
    ensures Len2(a, b) != 0.0 ==> l == Len2(a, b)
  {
    if Len2(a, b) == 0.0 then 1.0 else Len2(a, b)
  }

  /** u clamped to [0, 1]. */
  function Clamp01(u: real): (t: real)
    ensures 0.0 <= t <= 1.0
    ensures 0.0 <= u <= 1.0 ==> t == u
  {
    MaxR(0.0, MinR(1.0, u))
  }

  /** The projection parameter of c on the segment, clamped to [0, 1]. */
  function ClosestParam(a: Point, b: Point, c: Point): (t: real)
    ensures 0.0 <= t <= 1.0
  {
    Clamp01(Dot(a, b, c) / SafeLength2(a, b))
  }

  function SegmentCircleIntersect(a: Point, b: Point, c: Point, r: real): (res: Contact)
    ensures res.Hit? ==> 0.0 <= res.t <= 1.0 && res.at == Along(a, b, res.t)
    ensures res.Hit? <==> Dist2(Along(a, b, ClosestParam(a, b, c)), c) <= r * r
  {
    var t := ClosestParam(a, b, c);
    var p := Along(a, b, t);
    if Dist2(p, c) <= r * r then Hit(t, p) else Miss
  }

  /** The squared distance from c to the point at parameter u, as a quadratic in u. */
  lemma DistAlongQuadratic(a: Point, b: Point, c: Point, u: real, l2: real, dot: real)
    requires l2 == (b.x - a.x) * (b.x - a.x) + (b.y - a.y) * (b.y - a.y)
    requires dot == (c.x - a.x) * (b.x - a.x) + (c.y - a.y) * (b.y - a.y)
    ensures Dist2(Along(a, b, u), c) == l2 * u * u - 2.0 * u * dot + Dist2(a, c)
  {
    var vx, vy, wx, wy := b.x - a.x, b.y - a.y, c.x - a.x, c.y - a.y;
    assert Along(a, b, u).x - c.x == u * vx - wx;
    assert Along(a, b, u).y - c.y == u * vy - wy;
    SquareOfDifference(u, vx, wx);
    SquareOfDifference(u, vy, wy);
  }

  lemma SquareOfDifference(u: real, v: real, w: real)
    ensures (u * v - w) * (u * v - w) == v * v * u * u - 2.0 * u * w * v + w * w
  {
  }

  lemma QuadraticGap(l2: real, dot: real, k: real, s: real, t: real)
    ensures (l2 * s * s - 2.0 * s * dot + k) - (l2 * t * t - 2.0 * t * dot + k)
      == l2 * ((s - t) * (s - t)) + 2.0 * ((s - t) * (l2 * t - dot))
  {
  }

  lemma SquareNonneg(x: real)
    ensures x * x >= 0.0
  {
    if x < 0.0 {
      MulLe(0.0, -x, -x);
    } else {
      MulLe(0.0, x, x);
    }
  }

  lemma SquarePositive(x: real)
    requires x != 0.0
    ensures x * x > 0.0
  {
  }

  /** On [0, 1], the quadratic l2 * u^2 - 2 * u * dot + k with l2 > 0 is least at
      its vertex dot / l2 clamped to [0, 1]. */
  lemma ClampedVertexIsLeast(l2: real, dot: real, k: real, s: real, t: real)
    requires l2 > 0.0 && 0.0 <= s <= 1.0
    requires t == Clamp01(dot / l2)
    ensures l2 * t * t - 2.0 * t * dot + k <= l2 * s * s - 2.0 * s * dot + k
  {
    QuadraticGap(l2, dot, k, s, t);
    DivThenMul(dot, l2);
    var s0 := dot / l2;
    var g := (s - t) * (l2 * t - dot);
    if s0 < 0.0 {
      assert t == 0.0;
      assert dot < 0.0;
      MulLe(0.0, s - t, l2 * t - dot);
    } else if s0 > 1.0 {
      assert t == 1.0;
      assert dot > l2;
      MulLe(0.0, t - s, dot - l2 * t);
      assert g == (t - s) * (dot - l2 * t);
    } else {
      assert t == s0;
      assert l2 * t - dot == 0.0;
    }
    assert g >= 0.0;
    SquareNonneg(s - t);
    MulLe(0.0, (s - t) * (s - t), l2);
  }

  /** The clamped projection is the point of the segment closest to c. */
  lemma ClosestParamIsClosest(a: Point, b: Point, c: Point, s: real)
    requires Len2(a, b) != 0.0 && 0.0 <= s <= 1.0
    ensures Dist2(Along(a, b, ClosestParam(a, b, c)), c) <= Dist2(Along(a, b, s), c)
  {
    var t := ClosestParam(a, b, c);
    var l2, dot := SafeLength2(a, b), Dot(a, b, c);
    DistAlongQuadratic(a, b, c, s, l2, dot);
    DistAlongQuadratic(a, b, c, t, l2, dot);
    ClampedVertexIsLeast(l2, dot, Dist2(a, c), s, t);
  }

  /** A hit is reported exactly when some point of the segment lies within r of c. */
  lemma SegmentHitIffTouches(a: Point, b: Point, c: Point, r: real)
    requires Len2(a, b) != 0.0
    ensures SegmentCircleIntersect(a, b, c, r).Hit? <==>
      exists s :: 0.0 <= s <= 1.0 && Dist2(Along(a, b, s), c) <= r * r
  {
    if exists s :: 0.0 <= s <= 1.0 && Dist2(Along(a, b, s), c) <= r * r {
      var s :| 0.0 <= s <= 1.0 && Dist2(Along(a, b, s), c) <= r * r;
      ClosestParamIsClosest(a, b, c, s);
    }
    if SegmentCircleIntersect(a, b, c, r).Hit? {
      var t := ClosestParam(a, b, c);
      assert 0.0 <= t <= 1.0 && Dist2(Along(a, b, t), c) <= r * r;
    }
  }

  /** A segment whose ends coincide is tested as the point a. */
  lemma PointSegmentContact(a: Point, c: Point, r: real)
    ensures SegmentCircleIntersect(a, a, c, r) ==
      if Dist2(a, c) <= r * r then Hit(0.0, a) else Miss
  {
    assert Dot(a, a, c) == 0.0;
    assert Along(a, a, 0.0) == a;
  }
}
