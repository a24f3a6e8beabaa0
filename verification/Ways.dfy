/**
 What the crossing test tells, for rings of any shape: a segment that stays off the boundary keeps its side,
 each edge that a way cuts swaps the sides, and so any way out tells the same as the test's own ray.
 */
module Ways {
  import opened Wrappers
  import opened Boundary
  import opened BoundarySides

  // ---------- The ring ----------

  // Every edge the segment meets, it cuts: it passes no vertex, neither ends on the boundary nor runs
  // along it.
  ghost predicate CutsCleanly(s: Edge, edges: seq<Edge>) {
    forall i :: 0 <= i < |edges| ==> Meet(edges[i], s) ==> Cuts(edges[i], s)
  }

  ghost predicate OddMeets(s: Edge, edges: seq<Edge>) {
    edges != [] && OddMeets(s, edges[..|edges| - 1]) != Meet(Last(edges), s)
  }

  // Walking vertex by vertex: the two rays' crossings of the walk, and the edges of it that are cut, are
  // told by whether it starts and stops on different sides of what the segment sweeps.
  lemma {:induction false} CrossingsToVertex(s: Edge, boundary: seq<Point>, n: nat)
    requires s.start.y < s.end.y && n < |boundary| && CutsCleanly(s, Edges(boundary))
    ensures var walked := Edges(boundary)[..n];
            ((OddCrossings(s.start, walked) != OddCrossings(s.end, walked)) != OddMeets(s, walked)) ==
            (IsSwept(boundary[0], s) != IsSwept(boundary[n], s))
  {
    var edges := Edges(boundary);
    if n > 0 {
      CrossingsToVertex(s, boundary, n - 1);
      assert edges[..n][..n - 1] == edges[..n - 1];
      assert Last(edges[..n]) == edges[n - 1] == Edge(boundary[n - 1], boundary[n]);
      CutTurnsIff(edges[n - 1], s);
    }
  }

  lemma {:induction false} RisingSegment(s: Edge, boundary: seq<Point>)
    requires s.start.y < s.end.y && CutsCleanly(s, Edges(boundary))
    ensures (Inside(s.start, boundary) != Inside(s.end, boundary)) == OddMeets(s, Edges(boundary))
  {
    var edges := Edges(boundary);
    if boundary != [] {
      CrossingsToVertex(s, boundary, |boundary| - 1);
      assert Last(edges) == edges[|edges| - 1] == Edge(boundary[|boundary| - 1], boundary[0]);
      CutTurnsIff(Last(edges), s);
    }
  }

  lemma {:induction false} LevelSegment(p: Point, q: Point, edges: seq<Edge>)
    requires p.y == q.y && CutsCleanly(Edge(p, q), edges)
    ensures (OddCrossings(p, edges) != OddCrossings(q, edges)) == OddMeets(Edge(p, q), edges)
  {
    if edges != [] {
      var last: Edge := Last(edges);
      LevelSegment(p, q, edges[..|edges| - 1]);
      assert last == edges[|edges| - 1];
      if Meet(last, Edge(p, q)) {
        CutAtOneLevel(last, p, q);
      } else {
        SameLevel(last, p, q);
      }
    }
  }

  lemma {:induction false} FlippedMeets(e: Edge, s: Edge)
    requires Meet(e, s)
    ensures Meet(e, Flip(s))
  {
    var t, u :| 0.0 <= t <= 1.0 && 0.0 <= u <= 1.0 && Along(e, t) == Along(s, u);
    FlippedAlong(s, u);
    assert Along(e, t) == Along(Flip(s), 1.0 - u);
  }

  lemma {:induction false} FlippedCut(e: Edge, s: Edge)
    ensures Meet(e, Flip(s)) == Meet(e, s) && Cuts(e, Flip(s)) == Cuts(e, s)
  {
    if Meet(e, s) {
      FlippedMeets(e, s);
    }
    if Meet(e, Flip(s)) {
      FlippedMeets(e, Flip(s));
    }
  }

  lemma {:induction false} FlippedOdd(s: Edge, edges: seq<Edge>)
    ensures OddMeets(Flip(s), edges) == OddMeets(s, edges) && CutsCleanly(Flip(s), edges) == CutsCleanly(s, edges)
  {
    forall i | 0 <= i < |edges|
      ensures Meet(edges[i], Flip(s)) == Meet(edges[i], s) && Cuts(edges[i], Flip(s)) == Cuts(edges[i], s)
    {
      FlippedCut(edges[i], s);
    }
    if edges != [] {
      FlippedOdd(s, edges[..|edges| - 1]);
      assert Last(edges) == edges[|edges| - 1];
    }
  }

  // The ends of a segment that cuts what it meets are on different sides of the ring if and only if it
  // cuts an odd number of its edges.
  lemma {:induction false} SegmentSwapsSidesIff(s: Edge, boundary: seq<Point>)
    requires CutsCleanly(s, Edges(boundary))
    ensures (Inside(s.start, boundary) != Inside(s.end, boundary)) == OddMeets(s, Edges(boundary))
  {
    FlippedOdd(s, Edges(boundary));
    if s.start.y < s.end.y {
      RisingSegment(s, boundary);
    } else if s.start.y > s.end.y {
      RisingSegment(Flip(s), boundary);
    } else {
      LevelSegment(s.start, s.end, Edges(boundary));
    }
  }

  // ---------- Ways ----------

  // Joins its points by segments, each of which cuts what it meets.
  ghost predicate IsCleanWay(way: seq<Point>, boundary: seq<Point>) {
    way != [] && forall i :: 0 < i < |way| ==> CutsCleanly(Edge(way[i - 1], way[i]), Edges(boundary))
  }

  // An odd number of edges is cut along the way.
  ghost predicate OddOnWay(way: seq<Point>, boundary: seq<Point>)
    decreases |way|
  {
    |way| > 1 && OddMeets(Edge(way[0], way[1]), Edges(boundary)) != OddOnWay(way[1..], boundary)
  }

  // Whatever way leads from one point to another, they are on different sides of the ring if and only if an
  // odd number of its edges is cut on the way.
  lemma {:induction false} WaySwapsSidesIff(way: seq<Point>, boundary: seq<Point>)
    requires IsCleanWay(way, boundary)
    ensures (Inside(way[0], boundary) != Inside(Last(way), boundary)) == OddOnWay(way, boundary)
    decreases |way|
  {
    if |way| > 1 {
      SegmentSwapsSidesIff(Edge(way[0], way[1]), boundary);
      forall i | 0 < i < |way[1..]| ensures CutsCleanly(Edge(way[1..][i - 1], way[1..][i]), Edges(boundary)) {
        assert CutsCleanly(Edge(way[i + 1 - 1], way[i + 1]), Edges(boundary));
      }
      WaySwapsSidesIff(way[1..], boundary);
    }
  }

  // So the test does not depend on its ray: any way out to a point beside the ring tells the same.
  lemma {:induction false} AnyWayOutTells(way: seq<Point>, boundary: seq<Point>)
    requires IsCleanWay(way, boundary) && BesideRing(Last(way), boundary)
    ensures Inside(way[0], boundary) <==> OddOnWay(way, boundary)
  {
    WaySwapsSidesIff(way, boundary);
    BesideIsOutside(Last(way), boundary);
  }

  // No point of the segment, its ends included, is on the boundary.
  ghost predicate StaysOff(s: Edge, boundary: seq<Point>) {
    forall t :: 0.0 <= t <= 1.0 ==> !OnBoundary(Along(s, t), boundary)
  }

  lemma {:induction false} MeetingIsOn(s: Edge, boundary: seq<Point>, i: nat)
    requires i < |boundary| && Meet(Edges(boundary)[i], s)
    ensures !StaysOff(s, boundary)
  {
    var t, u :| 0.0 <= t <= 1.0 && 0.0 <= u <= 1.0 && Along(Edges(boundary)[i], t) == Along(s, u);
    assert OnBoundary(Along(s, u), boundary);
  }

  lemma {:induction false} OffMeetsNone(s: Edge, boundary: seq<Point>, i: nat)
    requires StaysOff(s, boundary) && i < |boundary|
    ensures !Meet(Edges(boundary)[i], s)
  {
    if Meet(Edges(boundary)[i], s) {
      MeetingIsOn(s, boundary, i);
    }
  }

  lemma {:induction false} NoneMet(s: Edge, edges: seq<Edge>)
    requires forall i :: 0 <= i < |edges| ==> !Meet(edges[i], s)
    ensures !OddMeets(s, edges)
  {
    if edges != [] {
      NoneMet(s, edges[..|edges| - 1]);
      assert Last(edges) == edges[|edges| - 1];
    }
  }

  // Two points joined by a segment that stays off the boundary are both inside or both outside.
  lemma {:induction false} SegmentKeepsSide(s: Edge, boundary: seq<Point>)
    requires StaysOff(s, boundary)
    ensures Inside(s.start, boundary) == Inside(s.end, boundary)
  {
    forall i | 0 <= i < |boundary| ensures !Meet(Edges(boundary)[i], s) {
      OffMeetsNone(s, boundary, i);
    }
    NoneMet(s, Edges(boundary));
    SegmentSwapsSidesIff(s, boundary);
  }
}
