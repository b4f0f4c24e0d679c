/** Where the crew is along its route (src/components/CrewMap.js, progressOnRoute). The east-west scale at a latitude and
  * the distance between two points are given functions; arithmetic is exact.
  */
module RouteProgress {
  import opened Common

  datatype Point = Point(lat: real, lon: real)

  /** `east(lat)`: length of a degree of longitude relative to a degree of latitude. `metres(p, q)`: distance on the ground. */
  datatype Earth = Earth(east: real -> real, metres: (Point, Point) -> real)

  ghost predicate Sane(e: Earth) { forall p: Point :: e.metres(p, p) == 0.0 }

  /** `off` is None when the route has no segment to be near (the code's Infinity). */
  datatype Progress = Progress(off: Option<real>, left: real, ahead: seq<Point>)

  function At(a: Point, b: Point, t: real): Point { Point(a.lat + (b.lat - a.lat) * t, a.lon + (b.lon - a.lon) * t) }

  function Clamp(x: real): real { MaxR(0.0, MinR(1.0, x)) }

  function Times(x: real, y: real): real { x * y }

  function Inner(x: real, y: real, u: real, v: real): real { Times(x, u) + Times(y, v) }

  /** East and north components of the way from a to b. */
  function Dx(east: real, a: Point, b: Point): real { (b.lon - a.lon) * east }
  function Dy(a: Point, b: Point): real { b.lat - a.lat }

  function Len2(east: real, a: Point, b: Point): real { Inner(Dx(east, a, b), Dy(a, b), Dx(east, a, b), Dy(a, b)) }

  function Dot(east: real, a: Point, b: Point, h: Point): real {
    Inner(Dx(east, a, h), Dy(a, h), Dx(east, a, b), Dy(a, b))
  }

  /** How far along segment a-b its nearest point lies. */
  function Along(east: real, a: Point, b: Point, h: Point): real {
    if Len2(east, a, b) == 0.0 then 0.0 else Clamp(Dot(east, a, b, h) / Len2(east, a, b))
  }

  function Nearest(e: Earth, a: Point, b: Point, h: Point): Point { At(a, b, Along(e.east(a.lat), a, b, h)) }

  /** Scaled squared distance with one east-west factor. */
  function Dist2(east: real, p: Point, q: Point): real { Len2(east, p, q) }

  // ---- one segment: the clamped foot is the nearest point ----

  /** A parabola's clamped vertex is its minimum on [0, 1]. */
  lemma ClampMinimises(len2: real, dot: real, s: real)
    requires len2 > 0.0 && 0.0 <= s <= 1.0
    ensures var t := Clamp(dot / len2); len2 * t * t - 2.0 * dot * t <= len2 * s * s - 2.0 * dot * s
  {
    var v := dot / len2;
    assert dot == v * len2;
    var t := Clamp(v);
    assert 0.0 <= t <= 1.0;
    var d := (s - t) * (s + t - 2.0 * v);
    if s > t {
      Signs(s - t, s + t - 2.0 * v);
    } else if s < t {
      Signs(t - s, 2.0 * v - s - t);
      assert (t - s) * (2.0 * v - s - t) == d;
    } else {
      assert d == 0.0 * (s + t - 2.0 * v) == 0.0;
    }
    Signs(len2, d);
    Parabola(len2, v, s, t);
  }

  lemma Signs(x: real, y: real)
    requires x >= 0.0 && y >= 0.0
    ensures x * y >= 0.0
  {
  }

  lemma Parabola(len2: real, v: real, s: real, t: real)
    ensures len2 * ((s - t) * (s + t - 2.0 * v)) == (len2 * s * s - 2.0 * (v * len2) * s) - (len2 * t * t - 2.0 * (v * len2) * t)
  {
  }

  /** Squared distance along the segment, as a parabola in the position. */
  lemma DistAlong(east: real, a: Point, b: Point, h: Point, t: real)
    ensures Dist2(east, h, At(a, b, t)) == Dist2(east, a, h) + (Len2(east, a, b) * t * t - 2.0 * Dot(east, a, b, h) * t)
  {
    var x, y, hx, hy := Dx(east, a, b), Dy(a, b), Dx(east, a, h), Dy(a, h);
    var p := At(a, b, t);
    FootOffset(east, a, b, h, t);
    Expand(x, y, hx, hy, t, Len2(east, a, b), Dot(east, a, b, h));
    hide Inner, Dx, Dy;
  }

  lemma FootOffset(east: real, a: Point, b: Point, h: Point, t: real)
    ensures Dx(east, h, At(a, b, t)) == Dx(east, a, b) * t - Dx(east, a, h)
    ensures Dy(h, At(a, b, t)) == Dy(a, b) * t - Dy(a, h)
  {
  }

  lemma Expand(x: real, y: real, hx: real, hy: real, t: real, len2: real, dot: real)
    requires len2 == Inner(x, y, x, y) && dot == Inner(hx, hy, x, y)
    ensures Inner(x * t - hx, y * t - hy, x * t - hx, y * t - hy) == Inner(hx, hy, hx, hy) + (len2 * t * t - 2.0 * dot * t)
  {
    assert (x * t - hx) * (x * t - hx) == x * x * t * t - 2.0 * (hx * x) * t + hx * hx;
    assert (y * t - hy) * (y * t - hy) == y * y * t * t - 2.0 * (hy * y) * t + hy * hy;
  }

  lemma SumOfSquares(x: real, y: real)
    ensures Inner(x, y, x, y) >= 0.0
    ensures x != 0.0 || y != 0.0 ==> Inner(x, y, x, y) > 0.0
  {
    Square(x);
    Square(y);
    hide Times;
  }

  lemma PositiveTimes(x: real, y: real)
    requires x > 0.0 && y > 0.0
    ensures Times(x, y) > 0.0
  {
  }

  lemma NegatedTimes(x: real, y: real)
    ensures Times(-x, -y) == Times(x, y)
  {
  }

  lemma Square(x: real)
    ensures Times(x, x) >= 0.0
    ensures x != 0.0 ==> Times(x, x) > 0.0
  {
    NegatedTimes(x, x);
    assert Times(0.0, 0.0) == 0.0;
    hide Times;
    if x > 0.0 { PositiveTimes(x, x); }
    if x < 0.0 { PositiveTimes(-x, -x); }
  }

  /** On every segment, for every position: no point of the segment is nearer than the clamped foot. */
  lemma FootIsNearest(east: real, a: Point, b: Point, h: Point, s: real)
    requires 0.0 <= s <= 1.0
    ensures 0.0 <= Along(east, a, b, h) <= 1.0
    ensures Dist2(east, h, At(a, b, Along(east, a, b, h))) <= Dist2(east, h, At(a, b, s))
  {
    var t, len2, dot := Along(east, a, b, h), Len2(east, a, b), Dot(east, a, b, h);
    NotNegative(east, a, b, h);
    DistAlong(east, a, b, h, t);
    DistAlong(east, a, b, h, s);
    hide Len2, Dot;
    if len2 == 0.0 {
      NoParabola(s);
      NoParabola(t);
    } else {
      ClampMinimises(len2, dot, s);
    }
  }

  lemma NotNegative(east: real, a: Point, b: Point, h: Point)
    ensures Len2(east, a, b) >= 0.0
    ensures Len2(east, a, b) == 0.0 ==> Dot(east, a, b, h) == 0.0
  {
    SumOfSquares(Dx(east, a, b), Dy(a, b));
    DotOfNothing(Dx(east, a, h), Dy(a, h));
    hide Inner, Dx, Dy;
  }

  lemma DotOfNothing(x: real, y: real)
    ensures Inner(x, y, 0.0, 0.0) == 0.0
  {
  }

  lemma NoParabola(t: real)
    ensures 0.0 * t * t - 2.0 * 0.0 * t == 0.0
  {
  }

  // ---- the whole route ----

  /** How far off segment i the crew is. */
  function Off(e: Earth, pts: seq<Point>, h: Point, i: nat): real
    requires i + 1 < |pts|
  {
    e.metres(h, Nearest(e, pts[i], pts[i + 1], h))
  }

  /** Length of a polyline. */
  function Length(e: Earth, pts: seq<Point>): real {
    if |pts| < 2 then 0.0 else e.metres(pts[0], pts[1]) + Length(e, pts[1..])
  }

  /** Segment seg is the earliest one the crew is least off. */
  ghost predicate Earliest(e: Earth, pts: seq<Point>, h: Point, seg: nat) {
    && seg + 1 < |pts|
    && (forall i :: 0 <= i && i + 1 < |pts| ==> Off(e, pts, h, seg) <= Off(e, pts, h, i))
    && (forall i :: 0 <= i < seg ==> Off(e, pts, h, seg) < Off(e, pts, h, i))
  }

  lemma {:induction false} LengthSnoc(e: Earth, pts: seq<Point>, p: Point)
    requires pts != []
    ensures Length(e, pts + [p]) == Length(e, pts) + e.metres(pts[|pts| - 1], p)
  {
    if |pts| == 1 {
      assert (pts + [p])[1..] == [p];
    } else {
      assert (pts + [p])[1..] == pts[1..] + [p];
      LengthSnoc(e, pts[1..], p);
    }
  }

  /** The first loop: the nearest point over all segments, the earliest one on a tie. */
  method NearestSegment(e: Earth, coords: seq<Point>, h: Point) returns (off: Option<real>, seg: nat, point: Point)
    requires coords != []
    ensures |coords| == 1 ==> off == None && seg == 0 && point == coords[0]
    ensures |coords| > 1 ==> Earliest(e, coords, h, seg) && off == Some(Off(e, coords, h, seg)) && point == Nearest(e, coords[seg], coords[seg + 1], h)
  {
    off, seg, point := None, 0, coords[0];
    var i := 0;
    while i < |coords| - 1
      invariant 0 <= i <= |coords| - 1
      invariant i == 0 ==> off == None && point == coords[0] && seg == 0
      invariant i > 0 ==> seg < i && off == Some(Off(e, coords, h, seg)) && point == Nearest(e, coords[seg], coords[seg + 1], h)
      invariant i > 0 ==> forall k :: 0 <= k < i ==> Off(e, coords, h, seg) <= Off(e, coords, h, k)
      invariant i > 0 ==> forall k :: 0 <= k < seg ==> Off(e, coords, h, seg) < Off(e, coords, h, k)
    {
      var p, d := Foot(e, coords, h, i);
      if off.None? || d < off.value { off, seg, point := Some(d), i, p; }
      i := i + 1;
    }
  }

  method Foot(e: Earth, coords: seq<Point>, h: Point, i: nat) returns (p: Point, d: real)
    requires i + 1 < |coords|
    ensures p == Nearest(e, coords[i], coords[i + 1], h) && d == Off(e, coords, h, i)
  {
    var a, b := coords[i], coords[i + 1];
    var kx := e.east(a.lat);
    var len2 := Len2(kx, a, b);
    var t := if len2 == 0.0 then 0.0 else MaxR(0.0, MinR(1.0, Dot(kx, a, b, h) / len2));
    p := Point(a.lat + (b.lat - a.lat) * t, a.lon + (b.lon - a.lon) * t);
    d := e.metres(h, p);
  }

  /** The second loop: the road left from the point through every vertex after its segment. */
  method RoadLeft(e: Earth, coords: seq<Point>, seg: nat, point: Point) returns (left: real)
    requires Sane(e) && seg < |coords|
    ensures left == Length(e, [point] + coords[seg + 1..])
  {
    left := e.metres(point, if seg + 1 < |coords| then coords[seg + 1] else point);
    var j := seg + 1;
    if j == |coords| {
      assert coords[seg + 1..] == [];
      return;
    }
    ghost var ahead := [point] + coords[seg + 1..j + 1];
    assert ahead == [point, coords[j]] && ahead[1..] == [coords[j]];
    while j < |coords| - 1
      invariant seg + 1 <= j < |coords|
      invariant ahead == [point] + coords[seg + 1..j + 1]
      invariant left == Length(e, ahead)
    {
      LengthSnoc(e, ahead, coords[j + 1]);
      assert coords[seg + 1..j + 2] == coords[seg + 1..j + 1] + [coords[j + 1]];
      assert ahead + [coords[j + 1]] == [point] + coords[seg + 1..j + 2];
      ahead := ahead + [coords[j + 1]];
      left := left + e.metres(coords[j], coords[j + 1]);
      j := j + 1;
    }
    assert coords[seg + 1..j + 1] == coords[seg + 1..];
  }

  /** progressOnRoute: the distance off the route is the least over its segments, from the earliest segment achieving
    * it; the road left is the length of the line still ahead, which runs from the nearest point on that segment through
    * every vertex after it. */
  method ProgressOnRoute(e: Earth, coords: seq<Point>, here: Option<Point>) returns (r: Option<Progress>, seg: nat)
    requires Sane(e)
    ensures r.None? <==> coords == [] || here.None?
    ensures r.Some? ==> r.value.left == Length(e, r.value.ahead)
    ensures r.Some? && |coords| == 1 ==> r.value.off.None? && r.value.ahead == coords
    ensures r.Some? && |coords| > 1 ==>
      && Earliest(e, coords, here.value, seg) && r.value.off == Some(Off(e, coords, here.value, seg))
      && r.value.ahead == [Nearest(e, coords[seg], coords[seg + 1], here.value)] + coords[seg + 1..]
  {
    seg := 0;
    if coords == [] || here.None? { return None, 0; }
    var off, point;
    off, seg, point := NearestSegment(e, coords, here.value);
    var left := RoadLeft(e, coords, seg, point);
    assert |coords| == 1 ==> [point] + coords[seg + 1..] == coords;
    r := Some(Progress(off, left, [point] + coords[seg + 1..]));
  }

  // ---- with one east-west factor, the nearest point of the whole route ----

  /** Distances that grow with the scaled squared distance, all with the same factor. */
  ghost predicate Flat(e: Earth, east: real, pts: seq<Point>) {
    && (forall i :: 0 <= i < |pts| ==> e.east(pts[i].lat) == east)
    && (forall p: Point, q: Point, r: Point :: Dist2(east, p, q) <= Dist2(east, p, r) ==> e.metres(p, q) <= e.metres(p, r))
  }

  /** When the projection and the distance share one factor, no point anywhere on the route is nearer than the one the
    * crew is placed at. */
  lemma NearestOfTheRoute(e: Earth, east: real, pts: seq<Point>, h: Point, seg: nat, i: nat, s: real)
    requires Flat(e, east, pts) && Earliest(e, pts, h, seg) && i + 1 < |pts| && 0.0 <= s <= 1.0
    ensures Off(e, pts, h, seg) <= e.metres(h, At(pts[i], pts[i + 1], s))
  {
    FootIsNearest(east, pts[i], pts[i + 1], h, s);
    assert e.east(pts[i].lat) == east;
    assert Off(e, pts, h, i) <= e.metres(h, At(pts[i], pts[i + 1], s));
    assert Off(e, pts, h, seg) <= Off(e, pts, h, i);
  }
}
