/**
 One edge of a ring and one segment: what the rays from the segment's ends tell of the edge, if the segment
 does not meet it and if it cuts it.
 */
module BoundarySides {
  import opened Wrappers
  import opened Boundary

  // ---------- Where a line is at a level ----------

  function Slope(e: Edge): real
    requires e.start.y != e.end.y
  {
    (e.end.x - e.start.x) / (e.end.y - e.start.y)
  }

  lemma {:induction false} ProductOverDivisor(a: real, b: real, d: real)
    requires d != 0.0
    ensures a * b / d == Times(a / d, b)
  {}

  lemma {:induction false} OnLine(e: Edge, y: real)
    requires e.start.y != e.end.y
    ensures MeetsLevel(e, y) == Times(Slope(e), y - e.start.y) + e.start.x
  {
    ProductOverDivisor(e.end.x - e.start.x, y - e.start.y, e.end.y - e.start.y);
  }

  lemma {:induction false} AtEnds(e: Edge)
    requires e.start.y != e.end.y
    ensures MeetsLevel(e, e.start.y) == e.start.x && MeetsLevel(e, e.end.y) == e.end.x
  {
    OnLine(e, e.start.y);
    OnLine(e, e.end.y);
  }

  predicate Spans(e: Edge, y: real) {
    e.start.y <= y <= e.end.y || e.end.y <= y <= e.start.y
  }

  // Within its levels, the line's point is on the edge.
  lemma {:induction false} PointAtLevel(e: Edge, y: real) returns (t: real)
    requires e.start.y != e.end.y && Spans(e, y)
    ensures 0.0 <= t <= 1.0 && Along(e, t) == Point(MeetsLevel(e, y), y)
  {
    t := (y - e.start.y) / (e.end.y - e.start.y);
    FractionOf(y - e.start.y, e.end.y - e.start.y);
  }

  ghost predicate Meet(e: Edge, s: Edge) {
    exists t, u :: 0.0 <= t <= 1.0 && 0.0 <= u <= 1.0 && Along(e, t) == Along(s, u)
  }

  lemma {:induction false} MeetAtLevel(e: Edge, s: Edge, y: real)
    requires e.start.y != e.end.y && s.start.y != s.end.y && Spans(e, y) && Spans(s, y)
    requires MeetsLevel(e, y) == MeetsLevel(s, y)
    ensures Meet(e, s)
  {
    var t := PointAtLevel(e, y);
    var u := PointAtLevel(s, y);
    assert Along(e, t) == Along(s, u);
  }

  // A line above zero at one level and not above it at another is zero at one between them.
  lemma {:induction false} ZeroBetween(m: real, c: real, y: real, z: real) returns (w: real)
    requires Times(m, y) + c > 0.0 && Times(m, z) + c <= 0.0
    ensures Times(m, w) + c == 0.0 && (y <= w <= z || z <= w <= y)
  {
    w := -c / m;
    assert Times(m, w) == Times(-c / m, m);
    assert Times(m, y - w) == Times(m, y) + c && Times(m, z - w) == Times(m, z) + c;
    SideOfZero(m, y - w);
    SideOfZero(m, z - w);
  }

  lemma {:induction false} SideOfZero(m: real, d: real)
    requires m != 0.0
    ensures Times(m, d) > 0.0 <==> (if m > 0.0 then d > 0.0 else d < 0.0)
  {}

  // How far right of one line the other is, at a level.
  lemma {:induction false} GapIsLine(e: Edge, s: Edge, y: real)
    requires e.start.y != e.end.y && s.start.y != s.end.y
    ensures var m := Slope(e) - Slope(s);
            var c := (e.start.x - Times(Slope(e), e.start.y)) - (s.start.x - Times(Slope(s), s.start.y));
            MeetsLevel(e, y) - MeetsLevel(s, y) == Times(m, y) + c
  {
    OnLine(e, y);
    OnLine(s, y);
  }

  // Two edges that do not meet keep their sides at all the levels they share.
  lemma {:induction false} SidesAreKept(e: Edge, s: Edge, y: real, z: real)
    requires e.start.y != e.end.y && s.start.y != s.end.y && !Meet(e, s)
    requires Spans(e, y) && Spans(e, z) && Spans(s, y) && Spans(s, z)
    ensures MeetsLevel(s, y) < MeetsLevel(e, y) ==> MeetsLevel(s, z) < MeetsLevel(e, z)
  {
    if MeetsLevel(s, y) < MeetsLevel(e, y) && MeetsLevel(s, z) >= MeetsLevel(e, z) {
      var m := Slope(e) - Slope(s);
      var c := (e.start.x - Times(Slope(e), e.start.y)) - (s.start.x - Times(Slope(s), s.start.y));
      GapIsLine(e, s, y);
      GapIsLine(e, s, z);
      var w := ZeroBetween(m, c, y, z);
      GapIsLine(e, s, w);
      MeetAtLevel(e, s, w);
    }
  }

  // ---------- One edge ----------

  // The vertex is right of the rising segment, at a level the segment reaches.
  predicate IsSwept(v: Point, s: Edge)
    requires s.start.y < s.end.y
  {
    s.start.y < v.y <= s.end.y && MeetsLevel(s, v.y) < v.x
  }

  ghost predicate SameSides(e: Edge, s: Edge, y: real, z: real)
    requires e.start.y != e.end.y && s.start.y != s.end.y
  {
    (MeetsLevel(s, y) < MeetsLevel(e, y)) == (MeetsLevel(s, z) < MeetsLevel(e, z))
  }

  lemma {:induction false} SharedLevels(e: Edge, s: Edge, y: real, z: real)
    requires e.start.y != e.end.y && s.start.y != s.end.y && !Meet(e, s)
    ensures Spans(e, y) && Spans(e, z) && Spans(s, y) && Spans(s, z) ==> SameSides(e, s, y, z)
  {
    if Spans(e, y) && Spans(e, z) && Spans(s, y) && Spans(s, z) {
      SidesAreKept(e, s, y, z);
      SidesAreKept(e, s, z, y);
    }
  }

  lemma {:induction false} SlopingEdge(e: Edge, s: Edge)
    requires s.start.y < s.end.y && e.start.y != e.end.y && !Meet(e, s)
    ensures (Crosses(s.start, e) != Crosses(s.end, e)) == (IsSwept(e.start, s) != IsSwept(e.end, s))
  {
    var p, q, a, b := s.start.y, s.end.y, e.start.y, e.end.y;
    AtEnds(e);
    AtEnds(s);
    SharedLevels(e, s, p, q);
    SharedLevels(e, s, p, a);
    SharedLevels(e, s, p, b);
    SharedLevels(e, s, q, a);
    SharedLevels(e, s, q, b);
    SharedLevels(e, s, a, b);
  }

  lemma {:induction false} PointOfLevel(e: Edge, x: real) returns (t: real)
    requires e.start.y == e.end.y && e.start.x != e.end.x
    requires e.start.x <= x <= e.end.x || e.end.x <= x <= e.start.x
    ensures 0.0 <= t <= 1.0 && Along(e, t) == Point(x, e.start.y)
  {
    t := (x - e.start.x) / (e.end.x - e.start.x);
    FractionOf(x - e.start.x, e.end.x - e.start.x);
  }

  lemma {:induction false} LevelEdgeIsMet(e: Edge, s: Edge)
    requires s.start.y != s.end.y && e.start.y == e.end.y && Spans(s, e.start.y)
    requires var x := MeetsLevel(s, e.start.y); (x < e.start.x) != (x < e.end.x)
    ensures Meet(e, s)
  {
    var u := PointAtLevel(s, e.start.y);
    var t := PointOfLevel(e, MeetsLevel(s, e.start.y));
    assert Along(e, t) == Along(s, u);
  }

  // A level edge that the segment passes between the ends of would meet it.
  lemma {:induction false} LevelEdge(e: Edge, s: Edge)
    requires s.start.y < s.end.y && e.start.y == e.end.y && !Meet(e, s)
    ensures !Crosses(s.start, e) && !Crosses(s.end, e) && IsSwept(e.start, s) == IsSwept(e.end, s)
  {
    if IsSwept(e.start, s) != IsSwept(e.end, s) {
      LevelEdgeIsMet(e, s);
    }
  }

  lemma {:induction false} CrossedOnceIsMet(e: Edge, p: Point, q: Point)
    requires p.y == q.y && Straddles(p.y, e)
    requires (p.x < MeetsLevel(e, p.y)) != (q.x < MeetsLevel(e, p.y))
    ensures Meet(e, Edge(p, q))
  {
    var t := PointAtLevel(e, p.y);
    var u := PointOfLevel(Edge(p, q), MeetsLevel(e, p.y));
    assert Along(e, t) == Along(Edge(p, q), u);
  }

  // Between two points at one level an edge that only one ray crosses would be met.
  lemma {:induction false} SameLevel(e: Edge, p: Point, q: Point)
    requires p.y == q.y && !Meet(e, Edge(p, q))
    ensures Crosses(p, e) == Crosses(q, e)
  {
    if Crosses(p, e) != Crosses(q, e) {
      CrossedOnceIsMet(e, p, q);
    }
  }

  lemma {:induction false} EdgeSides(e: Edge, s: Edge)
    requires s.start.y < s.end.y && !Meet(e, s)
    ensures (Crosses(s.start, e) != Crosses(s.end, e)) == (IsSwept(e.start, s) != IsSwept(e.end, s))
  {
    if e.start.y == e.end.y {
      LevelEdge(e, s);
    } else {
      SlopingEdge(e, s);
    }
  }

  // ---------- An edge that is cut ----------

  // On which side of the edge's line the point is, and how far.
  function Turn(e: Edge, v: Point): real {
    Times(e.end.x - e.start.x, v.y - e.start.y) - Times(e.end.y - e.start.y, v.x - e.start.x)
  }

  // The edge's line parts the two points, neither of them on it.
  predicate Parts(e: Edge, v: Point, w: Point) {
    (Turn(e, v) > 0.0 && Turn(e, w) < 0.0) || (Turn(e, v) < 0.0 && Turn(e, w) > 0.0)
  }

  // Each runs from one side of the other to the other side.
  predicate Cuts(e: Edge, s: Edge) {
    Parts(s, e.start, e.end) && Parts(e, s.start, s.end)
  }

  lemma {:induction false} PartedAtLevels(e: Edge, v: Point, w: Point)
    requires e.start.y != e.end.y && Parts(e, v, w)
    ensures || (MeetsLevel(e, v.y) > v.x && MeetsLevel(e, w.y) < w.x)
            || (MeetsLevel(e, v.y) < v.x && MeetsLevel(e, w.y) > w.x)
  {
    var dy := e.end.y - e.start.y;
    SideOfZero(dy, MeetsLevel(e, v.y) - v.x);
    SideOfZero(dy, MeetsLevel(e, w.y) - w.x);
    SideOfZero(dy, v.x - MeetsLevel(e, v.y));
    SideOfZero(dy, w.x - MeetsLevel(e, w.y));
  }

  // A level line parts two points by their levels.
  lemma {:induction false} PartedByLevel(e: Edge, v: Point, w: Point)
    requires e.start.y == e.end.y && Parts(e, v, w)
    ensures v.y < e.start.y < w.y || w.y < e.start.y < v.y
  {
    var dx := e.end.x - e.start.x;
    assert Turn(e, v) == Times(dx, v.y - e.start.y) && Turn(e, w) == Times(dx, w.y - e.start.y);
    assert dx != 0.0;
    SideOfZero(dx, v.y - e.start.y);
    SideOfZero(dx, w.y - e.start.y);
    SideOfZero(dx, e.start.y - v.y);
    SideOfZero(dx, e.start.y - w.y);
  }

  // Where two lines cross, and on which side of it the gap between them has which sign.
  lemma {:induction false} GapTurns(e: Edge, s: Edge) returns (m: real, w: real)
    requires e.start.y != e.end.y && s.start.y != s.end.y && Cuts(e, s)
    ensures m != 0.0 && forall y :: MeetsLevel(e, y) - MeetsLevel(s, y) == Times(m, y - w)
  {
    m := Slope(e) - Slope(s);
    var c := (e.start.x - Times(Slope(e), e.start.y)) - (s.start.x - Times(Slope(s), s.start.y));
    AtEnds(e);
    PartedAtLevels(s, e.start, e.end);
    GapIsLine(e, s, e.start.y);
    GapIsLine(e, s, e.end.y);
    if Times(m, e.start.y) + c > 0.0 {
      w := ZeroBetween(m, c, e.start.y, e.end.y);
    } else {
      w := ZeroBetween(m, c, e.end.y, e.start.y);
    }
    forall y ensures MeetsLevel(e, y) - MeetsLevel(s, y) == Times(m, y - w) {
      GapIsLine(e, s, y);
      assert Times(m, y - w) == Times(m, y) - Times(m, w);
    }
  }

  lemma {:induction false} GapSide(e: Edge, s: Edge, m: real, w: real, y: real)
    requires e.start.y != e.end.y && s.start.y != s.end.y && m != 0.0
    requires MeetsLevel(e, y) - MeetsLevel(s, y) == Times(m, y - w) != 0.0
    ensures y != w && (MeetsLevel(s, y) < MeetsLevel(e, y) <==> (y > w) == (m > 0.0))
  {
    SideOfZero(m, y - w);
  }

  lemma {:induction false} SlopingCut(e: Edge, s: Edge)
    requires s.start.y < s.end.y && e.start.y != e.end.y && Cuts(e, s)
    ensures (Crosses(s.start, e) != Crosses(s.end, e)) != (IsSwept(e.start, s) != IsSwept(e.end, s))
  {
    var p, q, a, b := s.start.y, s.end.y, e.start.y, e.end.y;
    AtEnds(e);
    AtEnds(s);
    PartedAtLevels(e, s.start, s.end);
    PartedAtLevels(s, e.start, e.end);
    var m, w := GapTurns(e, s);
    GapSide(e, s, m, w, p);
    GapSide(e, s, m, w, q);
    GapSide(e, s, m, w, a);
    GapSide(e, s, m, w, b);
  }

  lemma {:induction false} LevelCut(e: Edge, s: Edge)
    requires s.start.y < s.end.y && e.start.y == e.end.y && Cuts(e, s)
    ensures !Crosses(s.start, e) && !Crosses(s.end, e) && IsSwept(e.start, s) != IsSwept(e.end, s)
  {
    PartedByLevel(e, s.start, s.end);
    PartedAtLevels(s, e.start, e.end);
  }

  lemma {:induction false} CutAtOneLevel(e: Edge, p: Point, q: Point)
    requires p.y == q.y && Cuts(e, Edge(p, q))
    ensures Crosses(p, e) != Crosses(q, e)
  {
    PartedByLevel(Edge(p, q), e.start, e.end);
    PartedAtLevels(e, p, q);
  }

  // An edge counts towards the difference of the two rays, and of its own ends, exactly when it is cut.
  lemma {:induction false} CutTurnsIff(e: Edge, s: Edge)
    requires s.start.y < s.end.y && (Meet(e, s) ==> Cuts(e, s))
    ensures ((Crosses(s.start, e) != Crosses(s.end, e)) != (IsSwept(e.start, s) != IsSwept(e.end, s))) == Meet(e, s)
  {
    if !Meet(e, s) {
      EdgeSides(e, s);
    } else if e.start.y == e.end.y {
      LevelCut(e, s);
    } else {
      SlopingCut(e, s);
    }
  }
}
