/**
 How far a planned path leaves its field: distances to the boundary and the crossing test for being
 inside it, over the reals. Distances are kept squared, which orders them the same.
 */
module Boundary {
  import opened Wrappers

  datatype Point = Point(x: real, y: real)

  datatype Edge = Edge(start: Point, end: Point)

  function Square(x: real): real {
    x * x
  }

  function Times(a: real, b: real): real {
    a * b
  }

  function DistanceSquared(p: Point, q: Point): real {
    Square(p.x - q.x) + Square(p.y - q.y)
  }

  function Step(a: real, b: real, t: real): real {
    a + t * (b - a)
  }

  // The point a fraction of the way along an edge.
  function Along(e: Edge, t: real): Point {
    Point(Step(e.start.x, e.end.x, t), Step(e.start.y, e.end.y, t))
  }

  function Span(e: Edge): real {
    Square(e.end.x - e.start.x) + Square(e.end.y - e.start.y)
  }

  function Clamped(t: real): real {
    if t > 1.0 then 1.0 else if t < 0.0 then 0.0 else t
  }

  function Dot(p: Point, e: Edge): real {
    Times(p.x - e.start.x, e.end.x - e.start.x) + Times(p.y - e.start.y, e.end.y - e.start.y)
  }

  // The squared distance to a segment, by projecting onto its line and clamping to its ends.
  function DistanceToSegment(p: Point, e: Edge): real {
    if Span(e) == 0.0 then DistanceSquared(p, e.start)
    else DistanceSquared(p, Along(e, Clamped(Dot(p, e) / Span(e))))
  }

  // ---------- The clamped projection is the nearest point ----------

  lemma {:induction false} SquareIsNonNegative(x: real)
    ensures Square(x) >= 0.0
  {}

  function Parabola(s: real, r: real, t: real): real {
    Square(t) * s - 2.0 * (t * r)
  }

  lemma {:induction false} AlongOneAxis(p: real, a: real, b: real, t: real)
    ensures Square(p - Step(a, b, t)) == Square(p - a) + Parabola(Square(b - a), Times(p - a, b - a), t)
  {}

  lemma {:induction false} ParabolasAdd(s: real, u: real, r: real, q: real, t: real)
    ensures Parabola(s, r, t) + Parabola(u, q, t) == Parabola(s + u, r + q, t)
  {}

  // The squared distance along the edge is a parabola in the fraction.
  lemma {:induction false} DistanceAlong(p: Point, e: Edge, t: real)
    ensures DistanceSquared(p, Along(e, t)) == DistanceSquared(p, e.start) + Parabola(Span(e), Dot(p, e), t)
  {
    AlongOneAxis(p.x, e.start.x, e.end.x, t);
    AlongOneAxis(p.y, e.start.y, e.end.y, t);
    ParabolasAdd(Square(e.end.x - e.start.x), Square(e.end.y - e.start.y),
                 Times(p.x - e.start.x, e.end.x - e.start.x), Times(p.y - e.start.y, e.end.y - e.start.y), t);
  }

  // The parabola at the clamped minimum is below every other point of the segment.
  lemma {:induction false} ClampedIsLowest(u: real, t: real)
    requires 0.0 <= t <= 1.0
    ensures var c := Clamped(u); Square(c) - 2.0 * (c * u) <= Square(t) - 2.0 * (t * u)
  {
    var c := Clamped(u);
    assert (t * t - 2.0 * (t * u)) - (c * c - 2.0 * (c * u)) == (t - c) * (t + c - 2.0 * u);
    if u > 1.0 {
      assert (t - 1.0) * (t + 1.0 - 2.0 * u) == (1.0 - t) * (2.0 * u - 1.0 - t);
      ProductIsNonNegative(1.0 - t, 2.0 * u - 1.0 - t);
    } else if u < 0.0 {
      ProductIsNonNegative(t, t - 2.0 * u);
    } else {
      SquareIsNonNegative(t - u);
    }
  }

  lemma {:induction false} ProductIsNonNegative(a: real, b: real)
    requires a >= 0.0 && b >= 0.0
    ensures a * b >= 0.0
  {}

  lemma {:induction false} TimesIsPositive(a: real, b: real)
    requires a > 0.0 && b > 0.0
    ensures Times(a, b) > 0.0
  {}

  lemma {:induction false} SquareIsPositive(x: real)
    requires x != 0.0
    ensures Square(x) > 0.0
  {
    if x > 0.0 {
      TimesIsPositive(x, x);
      assert Square(x) == Times(x, x);
    } else {
      TimesIsPositive(-x, -x);
      assert Square(x) == Times(-x, -x);
    }
  }

  lemma {:induction false} SumOfSquares(a: real, b: real)
    ensures Square(a) + Square(b) >= 0.0
    ensures a != 0.0 || b != 0.0 ==> Square(a) + Square(b) > 0.0
  {
    SquareIsNonNegative(a);
    SquareIsNonNegative(b);
    if a != 0.0 {
      SquareIsPositive(a);
    } else if b != 0.0 {
      SquareIsPositive(b);
    }
  }

  lemma {:induction false} SpanOfPoint(e: Edge)
    ensures Span(e) >= 0.0
    ensures Span(e) == 0.0 ==> e.end.x == e.start.x && e.end.y == e.start.y
  {
    SumOfSquares(e.end.x - e.start.x, e.end.y - e.start.y);
  }

  lemma {:induction false} ClampedParabola(s: real, r: real, t: real)
    requires s > 0.0 && 0.0 <= t <= 1.0
    ensures Parabola(s, r, Clamped(r / s)) <= Parabola(s, r, t)
  {
    ClampedIsLowest(r / s, t);
  }

  // No point of the segment is nearer.
  lemma {:induction false} NoPointIsNearer(p: Point, e: Edge, t: real)
    requires 0.0 <= t <= 1.0
    ensures DistanceToSegment(p, e) <= DistanceSquared(p, Along(e, t))
  {
    SpanOfPoint(e);
    if Span(e) > 0.0 {
      DistanceAlong(p, e, t);
      DistanceAlong(p, e, Clamped(Dot(p, e) / Span(e)));
      ClampedParabola(Span(e), Dot(p, e), t);
    } else {
      AlongPoint(e, t);
    }
  }

  lemma {:induction false} AlongPoint(e: Edge, t: real)
    requires e.end.x == e.start.x && e.end.y == e.start.y
    ensures Along(e, t) == e.start
  {}

  // The distance to a segment is that of its nearest point.
  lemma {:induction false} DistanceIsToNearestPoint(p: Point, e: Edge)
    ensures exists t :: 0.0 <= t <= 1.0 && DistanceSquared(p, Along(e, t)) == DistanceToSegment(p, e)
    ensures forall t :: 0.0 <= t <= 1.0 ==> DistanceToSegment(p, e) <= DistanceSquared(p, Along(e, t))
  {
    var t := if Span(e) == 0.0 then 0.0 else Clamped(Dot(p, e) / Span(e));
    assert DistanceSquared(p, Along(e, t)) == DistanceToSegment(p, e);
    forall t | 0.0 <= t <= 1.0 ensures DistanceToSegment(p, e) <= DistanceSquared(p, Along(e, t)) {
      NoPointIsNearer(p, e, t);
    }
  }

  // ---------- The ring ----------

  // Each vertex joined to the next, and the last to the first.
  function Edges(boundary: seq<Point>): seq<Edge> {
    seq(|boundary|, i requires 0 <= i < |boundary| =>
      Edge(boundary[i], if i + 1 < |boundary| then boundary[i + 1] else boundary[0]))
  }

  // One end of the edge is above the level, the other is not.
  predicate Straddles(y: real, e: Edge) {
    (e.start.y > y) != (e.end.y > y)
  }

  // Where the edge's line meets the level.
  function MeetsLevel(e: Edge, y: real): real
    requires e.start.y != e.end.y
  {
    (e.end.x - e.start.x) * (y - e.start.y) / (e.end.y - e.start.y) + e.start.x
  }

  // A ray to the right of the point crosses the edge.
  predicate Crosses(p: Point, e: Edge) {
    Straddles(p.y, e) && p.x < MeetsLevel(e, p.y)
  }

  predicate OddCrossings(p: Point, edges: seq<Edge>) {
    edges != [] && OddCrossings(p, edges[..|edges| - 1]) != Crosses(p, Last(edges))
  }

  predicate Inside(p: Point, boundary: seq<Point>) {
    OddCrossings(p, Edges(boundary))
  }

  method ComputeInside(p: Point, boundary: seq<Point>) returns (inside: bool)
    ensures inside == Inside(p, boundary)
  {
    inside := false;
    var edges := Edges(boundary);
    for i := 0 to |edges|
      invariant inside == OddCrossings(p, edges[..i])
    {
      assert edges[..i + 1][..i] == edges[..i];
      if Crosses(p, edges[i]) {
        inside := !inside;
      }
    }
    assert edges[..|edges|] == edges;
  }

  // ---------- The excursion ----------

  datatype ExcursionError = NoEdges

  // The least distance to the first n edges.
  function LeastUpTo(p: Point, edges: seq<Edge>, n: nat): real
    requires 0 < n <= |edges|
  {
    var last := DistanceToSegment(p, edges[n - 1]);
    if n == 1 then last
    else
      var earlier := LeastUpTo(p, edges, n - 1);
      if last < earlier then last else earlier
  }

  // Of a point outside a ring, how far; a ring without vertices has no distance.
  function WorstUpTo(points: seq<Point>, boundary: seq<Point>, n: nat): Result<real, ExcursionError>
    requires n <= |points|
  {
    if n == 0 then Success(0.0)
    else
      var worst := WorstUpTo(points, boundary, n - 1);
      if worst.Failure? || Inside(points[n - 1], boundary) then worst
      else if boundary == [] then Failure(NoEdges)
      else
        var distance := LeastUpTo(points[n - 1], Edges(boundary), |boundary|);
        Success(if distance > worst.value then distance else worst.value)
  }

  function Excursion(points: seq<Point>, boundary: seq<Point>): Result<real, ExcursionError> {
    WorstUpTo(points, boundary, |points|)
  }

  method MaxExcursion(points: seq<Point>, boundary: seq<Point>) returns (worst: Result<real, ExcursionError>)
    ensures worst == Excursion(points, boundary)
  {
    var furthest := 0.0;
    var edges := Edges(boundary);
    for i := 0 to |points|
      invariant WorstUpTo(points, boundary, i) == Success(furthest)
    {
      var inside := ComputeInside(points[i], boundary);
      if inside {
        continue;
      }
      if edges == [] {
        FailureStays(points, boundary, i + 1, |points|);
        return Failure(NoEdges);
      }
      var nearest := DistanceToSegment(points[i], edges[0]);
      for k := 1 to |edges|
        invariant nearest == LeastUpTo(points[i], edges, k)
      {
        var distance := DistanceToSegment(points[i], edges[k]);
        if distance < nearest {
          nearest := distance;
        }
      }
      if nearest > furthest {
        furthest := nearest;
      }
    }
    worst := Success(furthest);
  }

  lemma {:induction false} FailureStays(points: seq<Point>, boundary: seq<Point>, n: nat, m: nat)
    requires n <= m <= |points| && WorstUpTo(points, boundary, n) == Failure(NoEdges)
    ensures WorstUpTo(points, boundary, m) == Failure(NoEdges)
  {
    if n < m {
      FailureStays(points, boundary, n, m - 1);
    }
  }

  // ---------- What the excursion is ----------

  ghost predicate OnBoundary(q: Point, boundary: seq<Point>) {
    exists i, t :: 0 <= i < |boundary| && 0.0 <= t <= 1.0 && q == Along(Edges(boundary)[i], t)
  }

  // The squared distance from a point to the nearest point of the boundary.
  ghost predicate IsDistanceTo(p: Point, boundary: seq<Point>, d: real) {
    && (exists q :: OnBoundary(q, boundary) && DistanceSquared(p, q) == d)
    && (forall q :: OnBoundary(q, boundary) ==> d <= DistanceSquared(p, q))
  }

  lemma {:induction false} LeastIsLeast(p: Point, edges: seq<Edge>, n: nat)
    requires 0 < n <= |edges|
    ensures exists i :: 0 <= i < n && LeastUpTo(p, edges, n) == DistanceToSegment(p, edges[i])
    ensures forall i :: 0 <= i < n ==> LeastUpTo(p, edges, n) <= DistanceToSegment(p, edges[i])
  {
    if n == 1 || LeastUpTo(p, edges, n) == DistanceToSegment(p, edges[n - 1]) {
      assert LeastUpTo(p, edges, n) == DistanceToSegment(p, edges[n - 1]);
    }
    if n > 1 {
      LeastIsLeast(p, edges, n - 1);
    }
  }

  lemma {:induction false} LeastIsDistance(p: Point, boundary: seq<Point>)
    requires boundary != []
    ensures IsDistanceTo(p, boundary, LeastUpTo(p, Edges(boundary), |boundary|))
  {
    var edges := Edges(boundary);
    var d := LeastUpTo(p, edges, |boundary|);
    LeastIsLeast(p, edges, |boundary|);
    var i :| 0 <= i < |boundary| && d == DistanceToSegment(p, edges[i]);
    DistanceIsToNearestPoint(p, edges[i]);
    var t :| 0.0 <= t <= 1.0 && DistanceSquared(p, Along(edges[i], t)) == d;
    assert OnBoundary(Along(edges[i], t), boundary);
    forall q | OnBoundary(q, boundary) ensures d <= DistanceSquared(p, q) {
      var k, s :| 0 <= k < |boundary| && 0.0 <= s <= 1.0 && q == Along(edges[k], s);
      DistanceIsToNearestPoint(p, edges[k]);
    }
  }

  lemma {:induction false} DistanceIsOne(p: Point, boundary: seq<Point>, c: real, d: real)
    requires IsDistanceTo(p, boundary, c) && IsDistanceTo(p, boundary, d)
    ensures c == d
  {}

  // The greatest of zero and the distances of the points outside.
  ghost predicate IsExcursion(points: seq<Point>, boundary: seq<Point>, n: nat, worst: real)
    requires n <= |points|
  {
    && worst >= 0.0
    && (forall i, d :: 0 <= i < n && !Inside(points[i], boundary) && IsDistanceTo(points[i], boundary, d) ==> d <= worst)
    && (worst == 0.0
        || exists i :: 0 <= i < n && !Inside(points[i], boundary) && IsDistanceTo(points[i], boundary, worst))
  }

  lemma {:induction false} WorstIsExcursion(points: seq<Point>, boundary: seq<Point>, n: nat)
    requires n <= |points| && boundary != []
    ensures WorstUpTo(points, boundary, n).Success?
    ensures IsExcursion(points, boundary, n, WorstUpTo(points, boundary, n).value)
  {
    if n > 0 {
      WorstIsExcursion(points, boundary, n - 1);
      var p, worst := points[n - 1], WorstUpTo(points, boundary, n).value;
      if !Inside(p, boundary) {
        var d := LeastUpTo(p, Edges(boundary), |boundary|);
        LeastIsDistance(p, boundary);
        forall e | IsDistanceTo(p, boundary, e) ensures e <= worst {
          DistanceIsOne(p, boundary, d, e);
        }
      }
    }
  }

  // The excursion is the greatest, over the points outside, of the distance to the nearest point of the
  // boundary; zero when none is outside. It fails only for a ring without vertices and a path with points.
  lemma {:induction false} ExcursionIsGreatestDistance(points: seq<Point>, boundary: seq<Point>)
    ensures Excursion(points, boundary).Failure? <==> boundary == [] && points != []
    ensures boundary != [] ==> IsExcursion(points, boundary, |points|, Excursion(points, boundary).value)
    ensures (forall p :: p in points ==> Inside(p, boundary)) ==> Excursion(points, boundary) == Success(0.0)
  {
    if boundary != [] {
      WorstIsExcursion(points, boundary, |points|);
    } else if points != [] {
      FailureStays(points, boundary, 1, |points|);
    }
  }

  // ---------- How a ring is written does not matter ----------

  function Flip(e: Edge): Edge {
    Edge(e.end, e.start)
  }

  lemma {:induction false} FlippedCrosses(p: Point, e: Edge)
    ensures Crosses(p, Flip(e)) == Crosses(p, e)
  {}

  lemma {:induction false} CrossingsOfConcat(p: Point, first: seq<Edge>, second: seq<Edge>)
    ensures OddCrossings(p, first + second) == (OddCrossings(p, first) != OddCrossings(p, second))
  {
    if second == [] {
      assert first + second == first;
    } else {
      var edges := first + second;
      assert edges[..|edges| - 1] == first + second[..|second| - 1];
      CrossingsOfConcat(p, first, second[..|second| - 1]);
    }
  }

  lemma {:induction false} OneCrossing(p: Point, e: Edge)
    ensures OddCrossings(p, [e]) == Crosses(p, e)
  {}

  // The edges walked the other way.
  function Backwards(edges: seq<Edge>): seq<Edge> {
    seq(|edges|, i requires 0 <= i < |edges| => Flip(edges[|edges| - 1 - i]))
  }

  lemma {:induction false} CrossingsBackwards(p: Point, edges: seq<Edge>)
    ensures OddCrossings(p, Backwards(edges)) == OddCrossings(p, edges)
  {
    if edges != [] {
      var earlier, last: Edge := edges[..|edges| - 1], Last(edges);
      CrossingsBackwards(p, earlier);
      assert Backwards(edges) == [Flip(last)] + Backwards(earlier);
      CrossingsOfConcat(p, [Flip(last)], Backwards(earlier));
      OneCrossing(p, Flip(last));
      FlippedCrosses(p, last);
    }
  }

  // Three ways to write the same ring: from another vertex, in the other direction, or with its first
  // vertex repeated at the end.
  datatype Rewriting = FromVertex(k: nat) | OtherDirection | RepeatingFirst

  function Reversed(boundary: seq<Point>): seq<Point> {
    seq(|boundary|, i requires 0 <= i < |boundary| => boundary[|boundary| - 1 - i])
  }

  function Rewritten(boundary: seq<Point>, how: Rewriting): seq<Point>
    requires boundary != []
  {
    match how
    case FromVertex(k) => var j := k % |boundary|; boundary[j..] + boundary[..j]
    case OtherDirection => Reversed(boundary)
    case RepeatingFirst => boundary + [boundary[0]]
  }

  lemma {:induction false} EdgesFromVertex(boundary: seq<Point>, k: nat)
    requires k < |boundary|
    ensures Edges(boundary[k..] + boundary[..k]) == Edges(boundary)[k..] + Edges(boundary)[..k]
  {}

  lemma {:induction false} EdgesReversed(boundary: seq<Point>)
    requires boundary != []
    ensures var edges := Edges(boundary);
            Edges(Reversed(boundary)) == Backwards(edges[..|edges| - 1]) + [Flip(Last(edges))]
  {
    var edges, reversed := Edges(boundary), Edges(Reversed(boundary));
    var n := |boundary|;
    assert reversed[n - 1] == Flip(edges[n - 1]);
    forall i | 0 <= i < n - 1 ensures reversed[i] == Backwards(edges[..n - 1])[i] {
      assert reversed[i] == Edge(boundary[n - 1 - i], boundary[n - 2 - i]);
      assert edges[..n - 1][n - 2 - i] == edges[n - 2 - i] == Edge(boundary[n - 2 - i], boundary[n - 1 - i]);
      assert Backwards(edges[..n - 1])[i] == Flip(edges[..n - 1][n - 2 - i]);
    }
  }

  lemma {:induction false} EdgesRepeating(boundary: seq<Point>)
    requires boundary != []
    ensures Edges(boundary + [boundary[0]]) == Edges(boundary) + [Edge(boundary[0], boundary[0])]
  {}

  lemma {:induction false} RewrittenInside(p: Point, boundary: seq<Point>, how: Rewriting)
    requires boundary != []
    ensures Inside(p, Rewritten(boundary, how)) == Inside(p, boundary)
  {
    var edges := Edges(boundary);
    match how
    case FromVertex(k) =>
      var j := k % |boundary|;
      EdgesFromVertex(boundary, j);
      CrossingsOfConcat(p, edges[j..], edges[..j]);
      CrossingsOfConcat(p, edges[..j], edges[j..]);
      assert edges[..j] + edges[j..] == edges;
    case OtherDirection =>
      var earlier, last: Edge := edges[..|edges| - 1], Last(edges);
      EdgesReversed(boundary);
      CrossingsOfConcat(p, Backwards(earlier), [Flip(last)]);
      CrossingsBackwards(p, earlier);
      OneCrossing(p, Flip(last));
      FlippedCrosses(p, last);
    case RepeatingFirst =>
      EdgesRepeating(boundary);
      CrossingsOfConcat(p, edges, [Edge(boundary[0], boundary[0])]);
      OneCrossing(p, Edge(boundary[0], boundary[0]));
  }

  // The edges hold every point of the edge: it is one of them, either way round, or just a vertex.
  ghost predicate Holds(edges: seq<Edge>, e: Edge) {
    exists j :: 0 <= j < |edges| && (edges[j] == e || edges[j] == Flip(e) || (e.end == e.start == edges[j].start))
  }

  lemma {:induction false} FlippedAlong(e: Edge, t: real)
    ensures Along(Flip(e), 1.0 - t) == Along(e, t)
  {}

  lemma {:induction false} OnHeldEdge(edges: seq<Edge>, e: Edge, t: real)
    requires Holds(edges, e) && 0.0 <= t <= 1.0
    ensures exists j, s :: 0 <= j < |edges| && 0.0 <= s <= 1.0 && Along(edges[j], s) == Along(e, t)
  {
    var j :| 0 <= j < |edges| && (edges[j] == e || edges[j] == Flip(e) || (e.end == e.start == edges[j].start));
    if edges[j] == e {
      assert Along(edges[j], t) == Along(e, t);
    } else if edges[j] == Flip(e) {
      FlippedAlong(e, t);
      assert Along(edges[j], 1.0 - t) == Along(e, t);
    } else {
      assert Along(edges[j], 0.0) == Along(e, t);
    }
  }

  ghost predicate HoldsAll(edges: seq<Edge>, others: seq<Edge>) {
    forall i :: 0 <= i < |others| ==> Holds(edges, others[i])
  }

  lemma {:induction false} BoundaryOfHeld(a: seq<Point>, b: seq<Point>, q: Point)
    requires HoldsAll(Edges(b), Edges(a)) && OnBoundary(q, a)
    ensures OnBoundary(q, b)
  {
    var i, t :| 0 <= i < |a| && 0.0 <= t <= 1.0 && q == Along(Edges(a)[i], t);
    assert Holds(Edges(b), Edges(a)[i]);
    OnHeldEdge(Edges(b), Edges(a)[i], t);
    var j, s :| 0 <= j < |b| && 0.0 <= s <= 1.0 && Along(Edges(b)[j], s) == Along(Edges(a)[i], t);
  }

  lemma {:induction false} FromVertexHolds(boundary: seq<Point>, j: nat)
    requires j < |boundary|
    ensures HoldsAll(Edges(boundary[j..] + boundary[..j]), Edges(boundary))
    ensures HoldsAll(Edges(boundary), Edges(boundary[j..] + boundary[..j]))
  {
    var edges, others, n := Edges(boundary), Edges(boundary[j..] + boundary[..j]), |boundary|;
    EdgesFromVertex(boundary, j);
    forall i | 0 <= i < n ensures Holds(others, edges[i]) {
      assert others[if i < j then n - j + i else i - j] == edges[i];
    }
    forall i | 0 <= i < n ensures Holds(edges, others[i]) {
      assert edges[if i < n - j then j + i else i - (n - j)] == others[i];
    }
  }

  lemma {:induction false} ReversedHolds(boundary: seq<Point>)
    requires boundary != []
    ensures HoldsAll(Edges(Reversed(boundary)), Edges(boundary))
    ensures HoldsAll(Edges(boundary), Edges(Reversed(boundary)))
  {
    var edges, others, n := Edges(boundary), Edges(Reversed(boundary)), |boundary|;
    EdgesReversed(boundary);
    forall i | 0 <= i < n ensures Holds(others, edges[i]) {
      assert others[if i < n - 1 then n - 2 - i else n - 1] == Flip(edges[i]);
    }
    forall i | 0 <= i < n ensures Holds(edges, others[i]) {
      assert edges[if i < n - 1 then n - 2 - i else n - 1] == Flip(others[i]);
    }
  }

  lemma {:induction false} RepeatingHolds(boundary: seq<Point>)
    requires boundary != []
    ensures HoldsAll(Edges(boundary + [boundary[0]]), Edges(boundary))
    ensures HoldsAll(Edges(boundary), Edges(boundary + [boundary[0]]))
  {
    var edges, others := Edges(boundary), Edges(boundary + [boundary[0]]);
    EdgesRepeating(boundary);
    forall i | 0 <= i < |edges| ensures Holds(others, edges[i]) {
      assert others[i] == edges[i];
    }
    forall i | 0 <= i < |others| ensures Holds(edges, others[i]) {
      assert i < |edges| ==> edges[i] == others[i];
      assert edges[0].start == boundary[0];
    }
  }

  lemma {:induction false} RewrittenHolds(boundary: seq<Point>, how: Rewriting)
    requires boundary != []
    ensures HoldsAll(Edges(Rewritten(boundary, how)), Edges(boundary))
    ensures HoldsAll(Edges(boundary), Edges(Rewritten(boundary, how)))
  {
    match how
    case FromVertex(k) => FromVertexHolds(boundary, k % |boundary|);
    case OtherDirection => ReversedHolds(boundary);
    case RepeatingFirst => RepeatingHolds(boundary);
  }

  // Rings with the same inside and the same boundary have the same excursion.
  lemma {:induction false} SameDistances(a: seq<Point>, b: seq<Point>, p: Point, d: real)
    requires HoldsAll(Edges(b), Edges(a)) && HoldsAll(Edges(a), Edges(b))
    requires IsDistanceTo(p, a, d)
    ensures IsDistanceTo(p, b, d)
  {
    var q :| OnBoundary(q, a) && DistanceSquared(p, q) == d;
    BoundaryOfHeld(a, b, q);
    forall q | OnBoundary(q, b) ensures d <= DistanceSquared(p, q) {
      BoundaryOfHeld(b, a, q);
    }
  }

  lemma {:induction false} SameLeast(a: seq<Point>, b: seq<Point>, p: Point)
    requires a != [] && b != []
    requires HoldsAll(Edges(b), Edges(a)) && HoldsAll(Edges(a), Edges(b))
    ensures LeastUpTo(p, Edges(a), |a|) == LeastUpTo(p, Edges(b), |b|)
  {
    var d := LeastUpTo(p, Edges(a), |a|);
    LeastIsDistance(p, a);
    LeastIsDistance(p, b);
    SameDistances(a, b, p, d);
    DistanceIsOne(p, b, d, LeastUpTo(p, Edges(b), |b|));
  }

  lemma {:induction false} SameExcursionOnWay(a: seq<Point>, b: seq<Point>, points: seq<Point>, n: nat)
    requires n <= |points| && a != [] && b != []
    requires HoldsAll(Edges(b), Edges(a)) && HoldsAll(Edges(a), Edges(b))
    requires forall p :: Inside(p, a) == Inside(p, b)
    ensures WorstUpTo(points, a, n) == WorstUpTo(points, b, n)
  {
    if n > 0 {
      SameExcursionOnWay(a, b, points, n - 1);
      assert Inside(points[n - 1], a) == Inside(points[n - 1], b);
      SameLeast(a, b, points[n - 1]);
    }
  }

  // The start vertex, the direction, and whether the ring repeats its closing point (as section 3.1.6 of
  // RFC 7946 has it) change neither which points are inside nor the excursion of a path.
  lemma {:induction false} RewritingChangesNothing(boundary: seq<Point>, how: Rewriting, points: seq<Point>)
    requires boundary != []
    ensures forall p :: Inside(p, Rewritten(boundary, how)) == Inside(p, boundary)
    ensures Excursion(points, Rewritten(boundary, how)) == Excursion(points, boundary)
  {
    forall p ensures Inside(p, Rewritten(boundary, how)) == Inside(p, boundary) {
      RewrittenInside(p, boundary, how);
    }
    RewrittenHolds(boundary, how);
    SameExcursionOnWay(Rewritten(boundary, how), boundary, points, |points|);
  }

  // The ring after rewriting it any number of times.
  function RewrittenAll(boundary: seq<Point>, how: seq<Rewriting>): seq<Point>
    requires boundary != []
    decreases |how|
  {
    if how == [] then boundary else RewrittenAll(Rewritten(boundary, how[0]), how[1..])
  }

  lemma {:induction false} WritingsOfOneRingAgree(boundary: seq<Point>, how: seq<Rewriting>, points: seq<Point>)
    requires boundary != []
    ensures forall p :: Inside(p, RewrittenAll(boundary, how)) == Inside(p, boundary)
    ensures Excursion(points, RewrittenAll(boundary, how)) == Excursion(points, boundary)
    decreases |how|
  {
    if how != [] {
      RewritingChangesNothing(boundary, how[0], points);
      WritingsOfOneRingAgree(Rewritten(boundary, how[0]), how[1..], points);
    }
  }

  // ---------- What inside means ----------

  predicate OddStraddles(y: real, edges: seq<Edge>) {
    edges != [] && OddStraddles(y, edges[..|edges| - 1]) != Straddles(y, Last(edges))
  }

  // Walking vertex by vertex, the number of level changes is odd exactly when the two ends differ.
  lemma {:induction false} StraddlesToVertex(y: real, boundary: seq<Point>, n: nat)
    requires n < |boundary|
    ensures OddStraddles(y, Edges(boundary)[..n]) == ((boundary[0].y > y) != (boundary[n].y > y))
  {
    var edges := Edges(boundary);
    if n > 0 {
      StraddlesToVertex(y, boundary, n - 1);
      assert edges[..n][..n - 1] == edges[..n - 1];
      assert Last(edges[..n]) == Edge(boundary[n - 1], boundary[n]);
    }
  }

  // A closed ring crosses any level an even number of times.
  lemma {:induction false} RingStraddlesEvenly(y: real, boundary: seq<Point>)
    ensures !OddStraddles(y, Edges(boundary))
  {
    var edges := Edges(boundary);
    if boundary != [] {
      StraddlesToVertex(y, boundary, |boundary| - 1);
      assert Last(edges) == Edge(boundary[|boundary| - 1], boundary[0]);
    }
  }

  lemma {:induction false} MeetsBetweenEnds(e: Edge, y: real)
    requires Straddles(y, e)
    ensures MeetsLevel(e, y) >= e.start.x || MeetsLevel(e, y) >= e.end.x
    ensures MeetsLevel(e, y) <= e.start.x || MeetsLevel(e, y) <= e.end.x
  {
    var dx, dy := e.end.x - e.start.x, e.end.y - e.start.y;
    var t := (y - e.start.y) / dy;
    FractionOf(y - e.start.y, dy);
    assert y - e.start.y == t * dy;
    assert dx * (y - e.start.y) == 0.0 + (dx * t) * dy;
    assert MeetsLevel(e, y) == dx * t + e.start.x;
    assert dx - dx * t == dx * (1.0 - t);
    if dx >= 0.0 {
      ProductIsNonNegative(dx, t);
      ProductIsNonNegative(dx, 1.0 - t);
    } else {
      ProductIsNonNegative(-dx, t);
      ProductIsNonNegative(-dx, 1.0 - t);
    }
  }

  // Between the ends of an edge the fraction is between zero and one.
  lemma {:induction false} FractionOf(a: real, d: real)
    requires d != 0.0 && (if d > 0.0 then 0.0 <= a <= d else d <= a <= 0.0)
    ensures 0.0 <= a / d <= 1.0
  {}

  lemma {:induction false} LeftOfAll(p: Point, edges: seq<Edge>)
    requires forall i :: 0 <= i < |edges| ==> p.x < edges[i].start.x && p.x < edges[i].end.x
    ensures OddCrossings(p, edges) == OddStraddles(p.y, edges)
  {
    if edges != [] {
      LeftOfAll(p, edges[..|edges| - 1]);
      if Straddles(p.y, Last(edges)) {
        MeetsBetweenEnds(Last(edges), p.y);
      }
    }
  }

  lemma {:induction false} NoneCrossed(p: Point, edges: seq<Edge>)
    requires forall i :: 0 <= i < |edges| ==> !Crosses(p, edges[i])
    ensures !OddCrossings(p, edges)
  {
    if edges != [] {
      NoneCrossed(p, edges[..|edges| - 1]);
    }
  }

  // The point is on one side of the whole ring.
  ghost predicate BesideRing(p: Point, boundary: seq<Point>) {
    || (forall i :: 0 <= i < |boundary| ==> p.x < boundary[i].x)
    || (forall i :: 0 <= i < |boundary| ==> p.x >= boundary[i].x)
    || (forall i :: 0 <= i < |boundary| ==> p.y < boundary[i].y)
    || (forall i :: 0 <= i < |boundary| ==> p.y >= boundary[i].y)
  }

  // A point left of, right of, below or above every vertex is never inside, whatever the ring's shape.
  lemma {:induction false} BesideIsOutside(p: Point, boundary: seq<Point>)
    requires BesideRing(p, boundary)
    ensures !Inside(p, boundary)
  {
    var edges := Edges(boundary);
    if forall i :: 0 <= i < |boundary| ==> p.x < boundary[i].x {
      LeftOfAll(p, edges);
      RingStraddlesEvenly(p.y, boundary);
    } else {
      forall i | 0 <= i < |edges| ensures !Crosses(p, edges[i]) {
        if Straddles(p.y, edges[i]) {
          MeetsBetweenEnds(edges[i], p.y);
        }
      }
      NoneCrossed(p, edges);
    }
  }

  function Rectangle(left: real, bottom: real, right: real, top: real): seq<Point> {
    [Point(left, bottom), Point(right, bottom), Point(right, top), Point(left, top)]
  }

  // For an upright rectangle the crossing test is the half-open range test.
  lemma {:induction false} InsideRectangleIff(p: Point, left: real, bottom: real, right: real, top: real)
    requires left < right && bottom < top
    ensures Inside(p, Rectangle(left, bottom, right, top)) <==> left <= p.x < right && bottom <= p.y < top
  {
    var a, b, c, d := Point(left, bottom), Point(right, bottom), Point(right, top), Point(left, top);
    var edges := Edges(Rectangle(left, bottom, right, top));
    assert edges == ([Edge(a, b)] + [Edge(b, c)]) + ([Edge(c, d)] + [Edge(d, a)]);
    CrossingsOfConcat(p, [Edge(a, b)] + [Edge(b, c)], [Edge(c, d)] + [Edge(d, a)]);
    CrossingsOfConcat(p, [Edge(a, b)], [Edge(b, c)]);
    CrossingsOfConcat(p, [Edge(c, d)], [Edge(d, a)]);
    OneCrossing(p, Edge(a, b));
    OneCrossing(p, Edge(b, c));
    OneCrossing(p, Edge(c, d));
    OneCrossing(p, Edge(d, a));
  }
}
