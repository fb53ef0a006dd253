/** Polygon geometry shared by the calculators: the shoelace sum in its two loop forms (over a
    ring that is closed by wrapping the index, and over an explicitly closed vertex list), the
    invariances that make the resulting area a property of the polygon rather than of how its
    vertex list is written, the centroid, and the scan that picks the first strictly longest
    edge. Points are `(x, y)` = `(longitude, latitude)` pairs, as in the source. */
module Polygon {
  import opened Numeric

  datatype Point = Point(x: real, y: real)

  /** The shoelace term of the edge p -> q. */
  function Cross(p: Point, q: Point): real { p.x * q.y - q.x * p.y }

  /** Sum of the shoelace terms of the open path s[0] -> s[1] -> ... -> s[|s|-1], accumulated in
      the order the loops of the source visit the edges. */
  function PathSum(s: seq<Point>): real
  {
    if |s| < 2 then 0.0 else PathSum(s[..|s| - 1]) + Cross(s[|s| - 2], s[|s| - 1])
  }

  /** The same sum over the ring, including the wrap-around edge s[|s|-1] -> s[0]. */
  function CyclicSum(s: seq<Point>): real
  {
    if s == [] then 0.0 else PathSum(s) + Cross(s[|s| - 1], s[0])
  }

  /** `coords + [coords[0]]` unless the list is already closed. */
  function Close(s: seq<Point>): (r: seq<Point>)
    requires s != []
    ensures |r| == if s[0] == s[|s| - 1] then |s| else |s| + 1
    ensures r[0] == s[0] && r[|r| - 1] == s[0]
    ensures r[..|s|] == s
  {
    if s[0] != s[|s| - 1] then s + [s[0]] else s
  }

  function Reverse(s: seq<Point>): (r: seq<Point>)
    ensures |r| == |s|
  {
    if s == [] then [] else [s[|s| - 1]] + Reverse(s[..|s| - 1])
  }

  /** Moves the first vertex to the end. */
  function Rotate(s: seq<Point>): seq<Point>
  {
    if s == [] then [] else s[1..] + [s[0]]
  }

  function Scale(s: seq<Point>, kx: real, ky: real): (r: seq<Point>)
    ensures |r| == |s|
    ensures forall i :: 0 <= i < |s| ==> r[i] == Point(s[i].x * kx, s[i].y * ky)
  {
    seq(|s|, i requires 0 <= i < |s| => Point(s[i].x * kx, s[i].y * ky))
  }

  lemma PathSumSnoc(s: seq<Point>, p: Point)
    requires s != []
    ensures PathSum(s + [p]) == PathSum(s) + Cross(s[|s| - 1], p)
  {
    assert (s + [p])[..|s|] == s;
  }

  /** The path sum can equally be peeled from the front. */
  lemma {:induction false} PathSumFront(s: seq<Point>)
    requires |s| >= 2
    ensures PathSum(s) == Cross(s[0], s[1]) + PathSum(s[1..])
  {
    if |s| > 2 {
      PathSumFront(s[..|s| - 1]);
      assert s[..|s| - 1][1..] == s[1..][..|s| - 2];
    }
  }

  /** Summing over the explicitly closed list is the cyclic sum. */
  lemma ClosedPathIsCyclic(s: seq<Point>)
    requires s != []
    ensures PathSum(Close(s)) == CyclicSum(s)
  {
    if s[0] != s[|s| - 1] {
      PathSumSnoc(s, s[0]);
    }
  }

  /** Fewer than three vertices enclose nothing. */
  lemma DegenerateCyclicSum(s: seq<Point>)
    requires |s| < 3
    ensures CyclicSum(s) == 0.0
  {
    if |s| == 2 {
      assert PathSum(s[..1]) == 0.0;
    }
  }

  /** Repeating the first vertex at the end does not change the cyclic sum. */
  lemma CyclicSumClosedCopy(s: seq<Point>)
    requires s != []
    ensures CyclicSum(s + [s[0]]) == CyclicSum(s)
  {
    PathSumSnoc(s, s[0]);
  }

  /** Starting the ring at another vertex does not change the cyclic sum. */
  lemma CyclicSumRotate(s: seq<Point>)
    ensures CyclicSum(Rotate(s)) == CyclicSum(s)
  {
    if |s| >= 2 {
      PathSumFront(s);
      PathSumSnoc(s[1..], s[0]);
    }
  }

  lemma {:induction false} ReverseAt(s: seq<Point>, i: nat)
    requires i < |s|
    ensures Reverse(s)[i] == s[|s| - 1 - i]
  {
    if i > 0 {
      ReverseAt(s[..|s| - 1], i - 1);
    }
  }

  lemma {:induction false} PathSumReverse(s: seq<Point>)
    ensures PathSum(Reverse(s)) == -PathSum(s)
  {
    if |s| >= 2 {
      var r := Reverse(s);
      var init := s[..|s| - 1];
      ReverseAt(init, 0);
      assert r[1..] == Reverse(init);
      PathSumFront(r);
      PathSumReverse(init);
    }
  }

  /** Walking the ring the other way negates the cyclic sum, so its absolute value is kept. */
  lemma CyclicSumReverse(s: seq<Point>)
    ensures CyclicSum(Reverse(s)) == -CyclicSum(s)
  {
    if s != [] {
      PathSumReverse(s);
      ReverseAt(s, 0);
      ReverseAt(s, |s| - 1);
    }
  }

  lemma NextIndex(i: int, n: int)
    requires 0 <= i < n
    ensures (i + 1) % n == if i + 1 < n then i + 1 else 0
  {
  }

  /** The loop `for i in range(n): j = (i + 1) % n; area += x_i * y_j - x_j * y_i`. */
  method CyclicShoelace(s: seq<Point>) returns (area: real)
    ensures area == CyclicSum(s)
  {
    var n := |s|;
    area := 0.0;
    var i := 0;
    while i < n
      invariant 0 <= i <= n
      invariant area == if i == n then CyclicSum(s) else PathSum(s[..i + 1])
    {
      var j := (i + 1) % n;
      NextIndex(i, n);
      area := area + s[i].x * s[j].y - s[j].x * s[i].y;
      if i + 1 < n {
        assert s[..i + 2][..i + 1] == s[..i + 1];
      } else {
        assert s[..i + 1] == s;
      }
      i := i + 1;
    }
  }

  /** The loop `for i in range(len(c) - 1): area += x_i * y_{i+1} - x_{i+1} * y_i` over an
      explicitly closed list. */
  method PathShoelace(s: seq<Point>) returns (area: real)
    ensures area == PathSum(s)
  {
    area := 0.0;
    if |s| < 2 {
      return;
    }
    var i := 0;
    while i < |s| - 1
      invariant 0 <= i <= |s| - 1
      invariant area == PathSum(s[..i + 1])
    {
      area := area + s[i].x * s[i + 1].y - s[i + 1].x * s[i].y;
      assert s[..i + 2][..i + 1] == s[..i + 1];
      i := i + 1;
    }
    assert s[..|s|] == s;
  }

  function Xs(s: seq<Point>): (r: seq<real>)
    ensures |r| == |s| && forall i :: 0 <= i < |s| ==> r[i] == s[i].x
  {
    seq(|s|, i requires 0 <= i < |s| => s[i].x)
  }

  function Ys(s: seq<Point>): (r: seq<real>)
    ensures |r| == |s| && forall i :: 0 <= i < |s| ==> r[i] == s[i].y
  {
    seq(|s|, i requires 0 <= i < |s| => s[i].y)
  }

  /** The vertex average, `(0, 0)` for no vertices. */
  function Centroid(s: seq<Point>): (c: Point)
    ensures s == [] ==> c == Point(0.0, 0.0)
    ensures s != [] ==> c.x == Mean(Xs(s)) && c.y == Mean(Ys(s))
  {
    if s == [] then Point(0.0, 0.0) else Point(Mean(Xs(s)), Mean(Ys(s)))
  }

  /** The centroid of vertices that lie in a box lies in the box. */
  lemma CentroidInBox(s: seq<Point>, lo: Point, hi: Point)
    requires s != []
    requires forall i :: 0 <= i < |s| ==> lo.x <= s[i].x <= hi.x && lo.y <= s[i].y <= hi.y
    ensures lo.x <= Centroid(s).x <= hi.x && lo.y <= Centroid(s).y <= hi.y
  {
    MeanBounds(Xs(s), lo.x, hi.x);
    MeanBounds(Ys(s), lo.y, hi.y);
  }

  /** The edge s[i] -> s[(i + 1) % |s|] as a vector. */
  function EdgeDx(s: seq<Point>, i: nat): real
    requires i < |s|
  {
    s[(i + 1) % |s|].x - s[i].x
  }

  function EdgeDy(s: seq<Point>, i: nat): real
    requires i < |s|
  {
    s[(i + 1) % |s|].y - s[i].y
  }

  /** `math.sqrt(dx**2 + dy**2)` of edge i. */
  function EdgeLength(m: MathLib, s: seq<Point>, i: nat): real
    requires i < |s|
  {
    m.sqrt(EdgeDx(s, i) * EdgeDx(s, i) + EdgeDy(s, i) * EdgeDy(s, i))
  }

  function EdgeLengths(m: MathLib, s: seq<Point>): (r: seq<real>)
    ensures |r| == |s|
    ensures forall i :: 0 <= i < |s| ==> r[i] == EdgeLength(m, s, i)
  {
    seq(|s|, i requires 0 <= i < |s| => EdgeLength(m, s, i))
  }

  /** The compass bearing of edge i, `math.degrees(math.atan2(dx, dy))`, in (-180, 180]. */
  function EdgeBearing(m: MathLib, s: seq<Point>, i: nat): real
    requires i < |s|
  {
    Degrees(m.atan2(EdgeDx(s, i), EdgeDy(s, i)))
  }

  /** Metres per degree of longitude at latitude `lat`: `111320 * math.cos(math.radians(lat))`. */
  function LongitudeScale(m: MathLib, lat: real): real
  {
    111320.0 * m.cos(Radians(lat))
  }

  /** At a latitude within [-90, 90] the longitude scale is not negative. */
  lemma LongitudeScaleNonNegative(m: MathLib, lat: real)
    requires m.CosPositive() && -90.0 <= lat <= 90.0
    ensures LongitudeScale(m, lat) >= 0.0
  {
    assert -PI / 2.0 <= Radians(lat) <= PI / 2.0 by {
      MulLe(-90.0, lat, PI);
      MulLe(lat, 90.0, PI);
    }
  }

  /** The mean latitude of vertices within [-90, 90] is within [-90, 90]. */
  lemma MeanLatitudeInRange(s: seq<Point>)
    requires s != []
    requires forall i :: 0 <= i < |s| ==> -90.0 <= s[i].y <= 90.0
    ensures -90.0 <= Mean(Ys(s)) <= 90.0
  {
    MeanBounds(Ys(s), -90.0, 90.0);
  }

  /** Half the absolute shoelace sum, in square degrees, scaled to square metres at a latitude
      within [-90, 90], is not negative. */
  lemma ScaledAreaNonNegative(m: MathLib, shoelace: real, lat: real)
    requires m.CosPositive() && -90.0 <= lat <= 90.0
    ensures Abs(shoelace) / 2.0 * 111320.0 * LongitudeScale(m, lat) >= 0.0
  {
    LongitudeScaleNonNegative(m, lat);
    MulLe(0.0, LongitudeScale(m, lat), Abs(shoelace) / 2.0 * 111320.0);
  }

  /** Closing a ring adds no new vertex, so bounds on the latitudes carry over. */
  lemma CloseKeepsLatitudes(s: seq<Point>)
    requires s != []
    requires forall i :: 0 <= i < |s| ==> -90.0 <= s[i].y <= 90.0
    ensures forall i :: 0 <= i < |Close(s)| ==> -90.0 <= Close(s)[i].y <= 90.0
  {
    var r := Close(s);
    forall i | 0 <= i < |r| ensures -90.0 <= r[i].y <= 90.0 {
      if i < |s| {
        assert r[i] == r[..|s|][i];
      }
    }
  }
}
