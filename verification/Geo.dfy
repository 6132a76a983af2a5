/** Point in polygon by ray casting, with the bounding box tested first. */
module Geo {
  import opened Reals
  import opened Results

  datatype Coordinate = Coordinate(lat: real, lng: real)

  datatype Edge = Edge(a: Coordinate, b: Coordinate)

  const EPSILON: real := 0.000000001

  function Min(x: real, y: real): real { if x < y then x else y }
  function Max(x: real, y: real): real { if x > y then x else y }
  function Abs(x: real): real { if x < 0.0 then -x else x }

  datatype Polygon = Polygon(ring: seq<Coordinate>, min: Coordinate, max: Coordinate)

  // ---------------------------------------------------------------- building

  /** The ring of a vertex list: an explicit closing vertex is dropped. */
  function RingOf(vertices: seq<Coordinate>): seq<Coordinate>
  {
    var n := |vertices|;
    if n > 1 && vertices[0] == vertices[n - 1] then vertices[..n - 1] else vertices
  }

  /** The box is exactly the extent of the ring. */
  predicate Bounds(ring: seq<Coordinate>, min: Coordinate, max: Coordinate)
  {
    && (forall v :: v in ring ==> min.lat <= v.lat <= max.lat && min.lng <= v.lng <= max.lng)
    && (exists v :: v in ring && v.lat == min.lat) && (exists v :: v in ring && v.lng == min.lng)
    && (exists v :: v in ring && v.lat == max.lat) && (exists v :: v in ring && v.lng == max.lng)
  }

  predicate WellBuilt(p: Polygon) { |p.ring| >= 3 && Bounds(p.ring, p.min, p.max) }

  method NewPolygon(vertices: seq<Coordinate>) returns (r: Option<Polygon>)
    ensures r.None? <==> |RingOf(vertices)| < 3
    ensures r.Some? ==> r.value.ring == RingOf(vertices) && WellBuilt(r.value)
  {
    var ring := vertices;
    var n := |ring|;
    if n > 1 && ring[0] == ring[n - 1] {
      ring := ring[..n - 1];
    }
    if |ring| < 3 {
      return None;
    }
    var south, west, north, east := ring[0], ring[0], ring[0], ring[0];
    for i := 1 to |ring|
      invariant south in ring && west in ring && north in ring && east in ring
      invariant forall k :: 0 <= k < i ==> south.lat <= ring[k].lat <= north.lat && west.lng <= ring[k].lng <= east.lng
    {
      var v := ring[i];
      if v.lat < south.lat { south := v; }
      if v.lng < west.lng { west := v; }
      if v.lat > north.lat { north := v; }
      if v.lng > east.lng { east := v; }
    }
    r := Some(Polygon(ring, Coordinate(south.lat, west.lng), Coordinate(north.lat, east.lng)));
  }

  // ---------------------------------------------------------------- the edge tests

  function Cross(a: Coordinate, b: Coordinate, c: Coordinate): real
  {
    (c.lat - a.lat) * (b.lng - a.lng) - (c.lng - a.lng) * (b.lat - a.lat)
  }

  predicate OnSegment(e: Edge, c: Coordinate)
  {
    && Abs(Cross(e.a, e.b, c)) <= EPSILON
    && Min(e.a.lat, e.b.lat) - EPSILON <= c.lat <= Max(e.a.lat, e.b.lat) + EPSILON
    && Min(e.a.lng, e.b.lng) - EPSILON <= c.lng <= Max(e.a.lng, e.b.lng) + EPSILON
  }

  predicate Straddles(e: Edge, c: Coordinate) { (e.a.lat > c.lat) != (e.b.lat > c.lat) }

  /** Where an edge crosses a latitude. */
  function CrossLng(e: Edge, c: Coordinate): real
    requires e.a.lat != e.b.lat
  {
    e.a.lng + (c.lat - e.a.lat) / (e.b.lat - e.a.lat) * (e.b.lng - e.a.lng)
  }

  predicate Crosses(e: Edge, c: Coordinate) { Straddles(e, c) && c.lng < CrossLng(e, c) }

  /** The closed ring's edges, each from a vertex back to the one before. */
  function EdgesOf(ring: seq<Coordinate>): seq<Edge>
  {
    seq(|ring|, i requires 0 <= i < |ring| => Edge(ring[i], ring[if i == 0 then |ring| - 1 else i - 1]))
  }

  function Tally(edges: seq<Edge>, test: Edge -> bool): nat
  {
    if edges == [] then 0 else Tally(edges[..|edges| - 1], test) + if test(edges[|edges| - 1]) then 1 else 0
  }

  function Crossings(edges: seq<Edge>, c: Coordinate): nat { Tally(edges, (e: Edge) => Crosses(e, c)) }

  predicate OnBoundary(edges: seq<Edge>, c: Coordinate) { exists e :: e in edges && OnSegment(e, c) }

  /** The full edge walk: on an edge, or an odd number of edges east of the point. */
  predicate Walk(ring: seq<Coordinate>, c: Coordinate)
  {
    OnBoundary(EdgesOf(ring), c) || Crossings(EdgesOf(ring), c) % 2 == 1
  }

  predicate InBox(p: Polygon, c: Coordinate)
  {
    p.min.lat <= c.lat <= p.max.lat && p.min.lng <= c.lng <= p.max.lng
  }

  /** Whether a point lies inside: rejected outside the box, otherwise the walk with its running parity. */
  method Contains(p: Polygon, c: Coordinate) returns (inside: bool)
    ensures inside == (InBox(p, c) && Walk(p.ring, c))
  {
    if c.lat < p.min.lat || c.lat > p.max.lat || c.lng < p.min.lng || c.lng > p.max.lng {
      return false;
    }
    inside := false;
    var n := |p.ring|;
    var i, j := 0, n - 1;
    ghost var edges := EdgesOf(p.ring);
    assert edges[..0] == [] && edges[..n] == edges;
    assert !OnBoundary([], c) && Crossings([], c) == 0;
    hide OnSegment, OnBoundary, Crossings;
    while i < n
      invariant 0 <= i <= n && j == if i == 0 then n - 1 else i - 1
      invariant !OnBoundary(edges[..i], c)
      invariant inside == (Crossings(edges[..i], c) % 2 == 1)
    {
      var vi, vj := p.ring[i], p.ring[j];
      assert edges[i] == Edge(vi, vj);
      NextEdge(edges, i, c);
      ghost var before := inside;
      if OnSegment(Edge(vi, vj), c) {
        OnBoundaryFrom(edges, i, c);
        return true;
      }
      if (vi.lat > c.lat) != (vj.lat > c.lat) {
        var crossLng := vi.lng + (c.lat - vi.lat) / (vj.lat - vi.lat) * (vj.lng - vi.lng);
        if c.lng < crossLng {
          inside := !inside;
        }
      }
      assert inside == (before != Crosses(edges[i], c));
      i, j := i + 1, i;
    }
  }

  /** What one more edge adds to the walk. */
  lemma NextEdge(edges: seq<Edge>, i: nat, c: Coordinate)
    requires i < |edges|
    ensures OnBoundary(edges[..i + 1], c) <==> OnBoundary(edges[..i], c) || OnSegment(edges[i], c)
    ensures Crossings(edges[..i + 1], c) == Crossings(edges[..i], c) + if Crosses(edges[i], c) then 1 else 0
  {
    hide OnSegment, Crosses;
    assert edges[..i + 1][..i] == edges[..i];
    assert edges[..i + 1] == edges[..i] + [edges[i]];
  }

  lemma OnBoundaryFrom(edges: seq<Edge>, i: nat, c: Coordinate)
    requires i < |edges| && OnSegment(edges[i], c)
    ensures OnBoundary(edges, c)
  {
  }

  // ---------------------------------------------------------------- parity round a closed ring

  lemma {:induction false} TallyConcat(x: seq<Edge>, y: seq<Edge>, test: Edge -> bool)
    ensures Tally(x + y, test) == Tally(x, test) + Tally(y, test)
  {
    if y == [] {
      assert x + y == x;
    } else {
      assert (x + y)[..|x + y| - 1] == x + y[..|y| - 1];
      TallyConcat(x, y[..|y| - 1], test);
    }
  }

  /** Along the path of a ring, the number of straddling edges tells whether the two ends are on different sides. */
  lemma {:induction false} PathParity(ring: seq<Coordinate>, c: Coordinate, k: nat)
    requires k < |ring|
    ensures Tally(EdgesOf(ring)[1..k + 1], (e: Edge) => Straddles(e, c)) % 2 ==
            if (ring[0].lat > c.lat) != (ring[k].lat > c.lat) then 1 else 0
  {
    if k > 0 {
      var edges := EdgesOf(ring);
      assert edges[1..k + 1][..k - 1] == edges[1..k];
      assert edges[1..k + 1][k - 1] == Edge(ring[k], ring[k - 1]);
      PathParity(ring, c, k - 1);
    }
  }

  /** Whatever the ring and the latitude, an even number of edges straddle it. */
  lemma StraddlingEdgesAreEven(ring: seq<Coordinate>, c: Coordinate)
    ensures Tally(EdgesOf(ring), (e: Edge) => Straddles(e, c)) % 2 == 0
  {
    if ring != [] {
      var edges, test := EdgesOf(ring), (e: Edge) => Straddles(e, c);
      PathParity(ring, c, |ring| - 1);
      assert edges == [edges[0]] + edges[1..|ring|];
      TallyConcat([edges[0]], edges[1..|ring|], test);
      assert [edges[0]][..0] == [];
    }
  }

  lemma {:induction false} TallyAgrees(edges: seq<Edge>, one: Edge -> bool, other: Edge -> bool)
    requires forall e :: e in edges ==> one(e) == other(e)
    ensures Tally(edges, one) == Tally(edges, other)
  {
    if edges != [] {
      TallyAgrees(edges[..|edges| - 1], one, other);
    }
  }

  // ---------------------------------------------------------------- the early rejection

  lemma FractionBetween(x: real, y: real, z: real)
    requires (x > z) != (y > z)
    ensures x != y && 0.0 <= (z - x) / (y - x) <= 1.0
  {
    if x > z {
      NegatedQuotient(z - x, y - x);
      UnitFraction(x - z, x - y);
    } else {
      UnitFraction(z - x, y - x);
    }
  }

  lemma UnitFraction(part: real, whole: real)
    requires 0.0 <= part <= whole && whole > 0.0
    ensures 0.0 <= part / whole <= 1.0
  {
    QuotientIs(0.0, whole, 0.0);
    DivideGrows(0.0, part, whole);
    QuotientIs(whole, whole, 1.0);
    DivideGrows(part, whole, whole);
  }

  lemma ScaledUp(t: real, d: real)
    requires 0.0 <= t <= 1.0 && d >= 0.0
    ensures 0.0 <= t * d <= d
  {
    NonNegative(t, d);
    TimesGrows(t, 1.0, d);
  }

  lemma ScaledBetween(t: real, d: real)
    requires 0.0 <= t <= 1.0
    ensures Min(0.0, d) <= t * d <= Max(0.0, d)
  {
    if d >= 0.0 {
      ScaledUp(t, d);
    } else {
      ScaledUp(t, -d);
      Negates(t, d);
    }
  }

  lemma CrossingIsBetween(e: Edge, c: Coordinate)
    requires Straddles(e, c)
    ensures Min(e.a.lng, e.b.lng) <= CrossLng(e, c) <= Max(e.a.lng, e.b.lng)
  {
    FractionBetween(e.a.lat, e.b.lat, c.lat);
    ScaledBetween((c.lat - e.a.lat) / (e.b.lat - e.a.lat), e.b.lng - e.a.lng);
  }

  /** Outside the box no edge can be crossed an odd number of times: the full walk has a point only by finding it on an edge. */
  lemma OutsideTheBoxOnlyEdgesCount(p: Polygon, c: Coordinate)
    requires WellBuilt(p) && !InBox(p, c)
    ensures Walk(p.ring, c) <==> OnBoundary(EdgesOf(p.ring), c)
  {
    var edges := EdgesOf(p.ring);
    var crosses, straddles, never := (e: Edge) => Crosses(e, c), (e: Edge) => Straddles(e, c), (e: Edge) => false;
    forall e | e in edges
      ensures c.lng < p.min.lng ==> crosses(e) == straddles(e)
      ensures c.lng >= p.min.lng ==> crosses(e) == never(e)
    {
      EdgeOutsideTheBox(p, e, c);
    }
    if c.lng < p.min.lng {
      TallyAgrees(edges, crosses, straddles);
      StraddlingEdgesAreEven(p.ring, c);
    } else {
      TallyAgrees(edges, crosses, never);
      NeverTallies(edges);
    }
  }

  lemma EdgeOutsideTheBox(p: Polygon, e: Edge, c: Coordinate)
    requires WellBuilt(p) && !InBox(p, c) && e in EdgesOf(p.ring)
    ensures Crosses(e, c) <==> Straddles(e, c) && c.lng < p.min.lng
  {
    assert e.a in p.ring && e.b in p.ring;
    hide CrossLng;
    if Straddles(e, c) {
      CrossingIsBetween(e, c);
    }
  }

  /** Testing the box first changes the answer for exactly the points that lie outside the box and yet on an edge. */
  lemma BoxFirstIsTheWalk(p: Polygon, c: Coordinate)
    requires WellBuilt(p)
    ensures (InBox(p, c) && Walk(p.ring, c)) == Walk(p.ring, c) <==> InBox(p, c) || !OnBoundary(EdgesOf(p.ring), c)
  {
    if !InBox(p, c) {
      OutsideTheBoxOnlyEdgesCount(p, c);
    }
  }

  predicate FarOutside(p: Polygon, c: Coordinate)
  {
    || c.lat < p.min.lat - EPSILON || c.lat > p.max.lat + EPSILON
    || c.lng < p.min.lng - EPSILON || c.lng > p.max.lng + EPSILON
  }

  /** More than epsilon outside the box a point is on no edge, so there the box-first test is the walk. */
  lemma BoxRejectionIsSafe(p: Polygon, c: Coordinate)
    requires WellBuilt(p) && FarOutside(p, c)
    ensures !Walk(p.ring, c)
  {
    forall e | e in EdgesOf(p.ring)
      ensures !OnSegment(e, c)
    {
      assert e.a in p.ring && e.b in p.ring;
    }
    OutsideTheBoxOnlyEdgesCount(p, c);
  }

  lemma {:induction false} NeverTallies(edges: seq<Edge>)
    ensures Tally(edges, (e: Edge) => false) == 0
  {
    if edges != [] {
      NeverTallies(edges[..|edges| - 1]);
    }
  }

  // ---------------------------------------------------------------- what a crossing is

  /** The point a share t along an edge lies at the point's latitude, and east of it. */
  predicate MeetsEastOf(e: Edge, c: Coordinate, t: real)
  {
    e.a.lat + t * (e.b.lat - e.a.lat) == c.lat && c.lng < e.a.lng + t * (e.b.lng - e.a.lng)
  }

  lemma ShareIsTheFraction(e: Edge, c: Coordinate, t: real)
    requires e.a.lat != e.b.lat && e.a.lat + t * (e.b.lat - e.a.lat) == c.lat
    ensures CrossLng(e, c) == e.a.lng + t * (e.b.lng - e.a.lng)
  {
    QuotientIs(c.lat - e.a.lat, e.b.lat - e.a.lat, t);
  }

  /** An edge is crossed when its ends lie on different sides and some point of it is on the latitude and east of the point. */
  lemma CrossesMeaning(e: Edge, c: Coordinate)
    ensures Crosses(e, c) <==>
            (e.a.lat > c.lat) != (e.b.lat > c.lat) && exists t: real :: 0.0 <= t <= 1.0 && MeetsEastOf(e, c, t)
  {
    if Straddles(e, c) {
      if t: real :| 0.0 <= t <= 1.0 && MeetsEastOf(e, c, t) {
        ShareIsTheFraction(e, c, t);
      } else if Crosses(e, c) {
        var t := CrossedAt(e, c);
        assert MeetsEastOf(e, c, t);
      }
    }
  }

  lemma CrossedAt(e: Edge, c: Coordinate) returns (t: real)
    requires Crosses(e, c)
    ensures 0.0 <= t <= 1.0 && MeetsEastOf(e, c, t)
  {
    var d := e.b.lat - e.a.lat;
    t := (c.lat - e.a.lat) / d;
    FractionBetween(e.a.lat, e.b.lat, c.lat);
    Quotient(c.lat - e.a.lat, d);
  }

  // ---------------------------------------------------------------- triangles

  function Minus(a: Coordinate, b: Coordinate): Coordinate { Coordinate(a.lat - b.lat, a.lng - b.lng) }

  /** Twice the area spanned by two arrows, with its sign. */
  function Span(u: Coordinate, v: Coordinate): real { u.lat * v.lng - u.lng * v.lat }

  /** The point with these weights on two corners, and the rest of one on the third. */
  predicate Weighs(a: Coordinate, b: Coordinate, d: Coordinate, c: Coordinate, x: real, y: real)
  {
    var u, v, w := Minus(b, a), Minus(d, a), Minus(c, a);
    w.lat == x * u.lat + y * v.lat && w.lng == x * u.lng + y * v.lng
  }

  /** How far east of the point the edge from a to b meets its latitude. */
  lemma CrossingOffset(a: Coordinate, b: Coordinate, d: Coordinate, c: Coordinate, x: real, y: real)
    requires Weighs(a, b, d, c, x, y) && a.lat != b.lat
    ensures (CrossLng(Edge(a, b), c) - c.lng) * Minus(b, a).lat == -(y * Span(Minus(b, a), Minus(d, a)))
  {
    var u, v, w := Minus(b, a), Minus(d, a), Minus(c, a);
    var t := w.lat / u.lat;
    Quotient(w.lat, u.lat);
    assert CrossLng(Edge(a, b), c) - c.lng == t * u.lng - w.lng;
    OffsetProduct(t, u.lat, u.lng, v.lat, v.lng, w.lat, w.lng, x, y);
  }

  lemma OffsetProduct(t: real, u1: real, u2: real, v1: real, v2: real, w1: real, w2: real, x: real, y: real)
    requires t * u1 == w1 && w1 == x * u1 + y * v1 && w2 == x * u2 + y * v2
    ensures (t * u2 - w2) * u1 == -(y * (u1 * v2 - u2 * v1))
  {
    assert (t * u2 - w2) * u1 == (t * u1) * u2 - w2 * u1;
    assert w1 * u2 == x * u1 * u2 + y * v1 * u2;
    assert w2 * u1 == x * u2 * u1 + y * v2 * u1;
    assert y * (u1 * v2 - u2 * v1) == y * v2 * u1 - y * v1 * u2;
  }

  predicate AllPositive(x: real, y: real) { x > 0.0 && y > 0.0 && x + y < 1.0 }

  /** One corner on its own side of the latitude: the two edges from it differ as the weights of their far ends agree. */
  predicate LoneCorner(a: Coordinate, b: Coordinate, d: Coordinate, c: Coordinate)
  {
    (a.lat > c.lat) != (b.lat > c.lat) && (d.lat > c.lat) == (b.lat > c.lat)
  }

  lemma CrossesByWeight(a: Coordinate, b: Coordinate, d: Coordinate, c: Coordinate, x: real, y: real)
    requires Weighs(a, b, d, c, x, y) && Straddles(Edge(a, b), c)
    ensures Crosses(Edge(a, b), c) <==>
            if b.lat > a.lat then y * Span(Minus(b, a), Minus(d, a)) < 0.0 else y * Span(Minus(b, a), Minus(d, a)) > 0.0
  {
    CrossingOffset(a, b, d, c, x, y);
    hide CrossLng, Span, Weighs;
    SignOfProduct(CrossLng(Edge(a, b), c) - c.lng, b.lat - a.lat);
  }

  lemma SpanTurns(u: Coordinate, v: Coordinate)
    ensures Span(v, u) == -Span(u, v)
  {
  }

  lemma EdgesDifferByWeight(a: Coordinate, b: Coordinate, d: Coordinate, c: Coordinate, x: real, y: real)
    requires Weighs(a, b, d, c, x, y) && Span(Minus(b, a), Minus(d, a)) != 0.0 && LoneCorner(a, b, d, c) && x != 0.0 && y != 0.0
    ensures Crosses(Edge(a, b), c) != Crosses(Edge(a, d), c) <==> (x > 0.0) == (y > 0.0)
  {
    var k := Span(Minus(b, a), Minus(d, a));
    CrossesByWeight(a, b, d, c, x, y);
    assert Weighs(a, d, b, c, y, x);
    CrossesByWeight(a, d, b, c, y, x);
    SpanTurns(Minus(b, a), Minus(d, a));
    hide Span, Weighs, Crosses;
    assert x * -k == -(x * k);
    SignOfProduct(x, k);
    SignOfProduct(y, k);
  }

  lemma LoneCornerAbove(u: real, v: real, w: real, x: real, y: real)
    requires w == x * u + y * v && x != 0.0 && y != 0.0 && (x > 0.0) == (y > 0.0)
    requires u > 0.0 && v > 0.0 && 0.0 <= w <= u && w <= v
    ensures x > 0.0 && y > 0.0 && x + y <= 1.0
  {
    SignOfProduct(x, u);
    SignOfProduct(y, v);
    if x + y > 1.0 {
      WeighedAbove(if u < v then u else v, u, v, x, y, x * u, y * v);
    }
  }

  lemma WeighedAbove(m: real, u: real, v: real, x: real, y: real, p: real, q: real)
    requires 0.0 < m <= u && m <= v && x > 0.0 && y > 0.0 && x + y > 1.0 && p == x * u && q == y * v
    ensures p + q > m
  {
    var a, b := m * x, m * y;
    TimesGrows(m, u, x);
    TimesGrows(m, v, y);
    assert a <= p && b <= q;
    WeighedTogether(x, y, m, a, b);
  }

  /** Seen from a lone corner, weights of one sign are positive and leave the corner no negative weight. */
  lemma LoneCornerWeights(u: real, v: real, w: real, x: real, y: real)
    requires w == x * u + y * v && x != 0.0 && y != 0.0 && (x > 0.0) == (y > 0.0)
    requires (u < 0.0 && v < 0.0 && u <= w < 0.0 && v <= w) || (u > 0.0 && v > 0.0 && 0.0 <= w < u && w < v)
    ensures x > 0.0 && y > 0.0 && x + y <= 1.0
  {
    if u > 0.0 {
      LoneCornerAbove(u, v, w, x, y);
    } else {
      assert x * -u == -(x * u) && y * -v == -(y * v);
      LoneCornerAbove(-u, -v, -w, x, y);
    }
  }

  lemma WeighedTogether(x: real, y: real, m: real, a: real, b: real)
    requires x + y > 1.0 && m > 0.0 && a == m * x && b == m * y
    ensures a + b > m
  {
    var k := x + y;
    var t := k * m;
    TimesGrowsStrictly(1.0, k, m);
    assert t > m;
    Distributes(-x, y, m);
    assert y - -x == k && -x * m == -(m * x);
  }

  lemma OnItsEdge(a: Coordinate, b: Coordinate, d: Coordinate, c: Coordinate, x: real)
    requires Weighs(a, b, d, c, x, 0.0) && Straddles(Edge(a, b), c)
    ensures OnSegment(Edge(a, b), c)
  {
    var e := Edge(a, b);
    FractionBetween(a.lat, b.lat, c.lat);
    QuotientIs(c.lat - a.lat, b.lat - a.lat, x);
    assert c.lat == a.lat + x * (b.lat - a.lat) && c.lng == a.lng + x * (b.lng - a.lng);
    hide OnSegment;
    BetweenEnds(e, x, c);
  }

  lemma OnFarEdge(a: Coordinate, b: Coordinate, d: Coordinate, c: Coordinate, x: real, y: real)
    requires Weighs(a, b, d, c, x, y) && x >= 0.0 && y >= 0.0 && x + y == 1.0
    ensures OnSegment(Edge(d, b), c)
  {
    assert c.lat - a.lat == x * (b.lat - a.lat) + y * (d.lat - a.lat);
    assert y == 1.0 - x;
    Distributes(x, 1.0, d.lat - a.lat);
    Distributes(x, 1.0, d.lng - a.lng);
    assert c.lat == d.lat + x * (b.lat - d.lat);
    assert c.lng == d.lng + x * (b.lng - d.lng);
    hide OnSegment;
    BetweenEnds(Edge(d, b), x, c);
  }

  lemma TriangleEdges(a: Coordinate, b: Coordinate, d: Coordinate, c: Coordinate)
    ensures EdgesOf([a, b, d]) == [Edge(a, d), Edge(b, a), Edge(d, b)]
    ensures Crossings([Edge(a, d), Edge(b, a), Edge(d, b)], c) ==
            (if Crosses(Edge(a, d), c) then 1 else 0) + (if Crosses(Edge(a, b), c) then 1 else 0) +
            (if Crosses(Edge(d, b), c) then 1 else 0)
    ensures OnBoundary([Edge(a, d), Edge(b, a), Edge(d, b)], c) <==>
            OnSegment(Edge(a, d), c) || OnSegment(Edge(a, b), c) || OnSegment(Edge(d, b), c)
  {
    FlipKeepsTests(Edge(a, b), c);
    hide Crosses, OnSegment;
    var edges := [Edge(a, d), Edge(b, a), Edge(d, b)];
    assert edges[..0] == [] && edges[..3] == edges && Crossings([], c) == 0;
    NextEdge(edges, 0, c);
    NextEdge(edges, 1, c);
    NextEdge(edges, 2, c);
  }

  lemma LoneCornerWalk(a: Coordinate, b: Coordinate, d: Coordinate, c: Coordinate, x: real, y: real)
    requires Weighs(a, b, d, c, x, y) && Span(Minus(b, a), Minus(d, a)) != 0.0 && LoneCorner(a, b, d, c)
    requires !OnBoundary(EdgesOf([a, b, d]), c)
    ensures Walk([a, b, d], c) <==> AllPositive(x, y)
  {
    TriangleEdges(a, b, d, c);
    assert Weighs(a, d, b, c, y, x);
    hide EdgesOf, OnSegment, Span;
    if x == 0.0 {
      OnItsEdge(a, d, b, c, y);
    }
    if y == 0.0 {
      OnItsEdge(a, b, d, c, x);
    }
    EdgesDifferByWeight(a, b, d, c, x, y);
    assert !Crosses(Edge(d, b), c);
    hide Crosses, OnBoundary;
    if (x > 0.0) == (y > 0.0) {
      LoneCornerWeights(b.lat - a.lat, d.lat - a.lat, c.lat - a.lat, x, y);
      if x + y == 1.0 {
        OnFarEdge(a, b, d, c, x, y);
      }
    }
  }

  /** Corners all on one side of the latitude: nothing is crossed, and no point of the latitude is inside. */
  lemma OneSideWalk(a: Coordinate, b: Coordinate, d: Coordinate, c: Coordinate, x: real, y: real)
    requires Weighs(a, b, d, c, x, y) && Span(Minus(b, a), Minus(d, a)) != 0.0
    requires (a.lat > c.lat) == (b.lat > c.lat) == (d.lat > c.lat)
    requires !OnBoundary(EdgesOf([a, b, d]), c)
    ensures !Walk([a, b, d], c) && !AllPositive(x, y)
  {
    TriangleEdges(a, b, d, c);
    if AllPositive(x, y) {
      WeighedHeights(a, b, d, c, x, y);
      OneSideIsFlat(a.lat - c.lat, b.lat - c.lat, d.lat - c.lat, 1.0 - x - y, x, y);
    }
  }

  lemma WeighedHeights(a: Coordinate, b: Coordinate, d: Coordinate, c: Coordinate, x: real, y: real)
    requires Weighs(a, b, d, c, x, y)
    ensures (a.lat - c.lat) * (1.0 - x - y) + (b.lat - c.lat) * x + (d.lat - c.lat) * y == 0.0
  {
    var p, u, v := a.lat - c.lat, b.lat - a.lat, d.lat - a.lat;
    assert -p == x * u + y * v;
    assert (p + u) * x == p * x + u * x && (p + v) * y == p * y + v * y;
    assert p * (1.0 - x - y) == p - p * x - p * y;
    assert b.lat - c.lat == p + u && d.lat - c.lat == p + v;
  }

  lemma OneSideIsFlat(p: real, q: real, r: real, s: real, x: real, y: real)
    requires s > 0.0 && x > 0.0 && y > 0.0 && p * s + q * x + r * y == 0.0
    requires (p > 0.0 && q > 0.0 && r > 0.0) || (p <= 0.0 && q <= 0.0 && r <= 0.0)
    ensures p == q == r == 0.0
  {
    SignOfProduct(p, s);
    SignOfProduct(q, x);
    SignOfProduct(r, y);
  }

  // ---------------------------------------------------------------- the same ring written differently

  function Rotated(ring: seq<Coordinate>, k: nat): seq<Coordinate>
    requires k <= |ring|
  {
    ring[k..] + ring[..k]
  }

  function Reversed(ring: seq<Coordinate>): seq<Coordinate>
  {
    seq(|ring|, i requires 0 <= i < |ring| => ring[|ring| - 1 - i])
  }

  /** Starting the ring at another vertex changes nothing. */
  lemma RotationKeepsWalk(ring: seq<Coordinate>, k: nat, c: Coordinate)
    requires k <= |ring|
    ensures Walk(Rotated(ring, k), c) == Walk(ring, c)
  {
    var edges, turned := EdgesOf(ring), EdgesOf(Rotated(ring, k));
    var test := (e: Edge) => Crosses(e, c);
    var front, back := edges[..k], edges[k..];
    RotatedEdges(ring, k);
    assert edges == front + back;
    hide Crosses, OnSegment, EdgesOf, Rotated;
    TallyConcat(back, front, test);
    TallyConcat(front, back, test);
    SameBoundary(back + front, front + back, c);
  }

  lemma RotatedEdges(ring: seq<Coordinate>, k: nat)
    requires k <= |ring|
    ensures EdgesOf(Rotated(ring, k)) == EdgesOf(ring)[k..] + EdgesOf(ring)[..k]
  {
  }

  lemma SameBoundary(edges: seq<Edge>, other: seq<Edge>, c: Coordinate)
    requires forall e :: e in edges <==> e in other
    ensures OnBoundary(edges, c) == OnBoundary(other, c)
  {
  }

  function Flip(e: Edge): Edge { Edge(e.b, e.a) }

  lemma FlippedCrossing(e: Edge, c: Coordinate)
    requires e.a.lat != e.b.lat
    ensures CrossLng(Flip(e), c) == CrossLng(e, c)
  {
    var d, t := e.b.lat - e.a.lat, (c.lat - e.a.lat) / (e.b.lat - e.a.lat);
    var u := (c.lat - e.b.lat) / (e.a.lat - e.b.lat);
    Quotient(c.lat - e.a.lat, d);
    Quotient(c.lat - e.b.lat, -d);
    assert e.a.lat - e.b.lat == -d && u * -d == -(u * d);
    Distributes(1.0 - t, u, d);
    Distributes(t, 1.0, d);
    ZeroFactor(u - (1.0 - t), d);
    var w := e.b.lng - e.a.lng;
    assert u == 1.0 - t && e.a.lng - e.b.lng == -w;
    Distributes(t, 1.0, w);
    assert u * -w == -(u * w);
  }

  lemma FlipKeepsTests(e: Edge, c: Coordinate)
    ensures Crosses(Flip(e), c) == Crosses(e, c)
    ensures OnSegment(Flip(e), c) == OnSegment(e, c)
  {
    if Straddles(e, c) {
      FlippedCrossing(e, c);
    }
    assert Cross(e.b, e.a, c) == -Cross(e.a, e.b, c);
  }

  /** Tallying the mirror images of edges in the opposite order gives the same count. */
  lemma {:induction false} MirroredTally(edges: seq<Edge>, mirrored: seq<Edge>, c: Coordinate)
    requires |mirrored| == |edges| && forall i :: 0 <= i < |edges| ==> mirrored[i] == Flip(edges[|edges| - 1 - i])
    ensures Crossings(mirrored, c) == Crossings(edges, c)
    decreases |edges|
  {
    if edges != [] {
      var n, test := |edges|, (e: Edge) => Crosses(e, c);
      MirroredTally(edges[1..], mirrored[..n - 1], c);
      FlipKeepsTests(edges[0], c);
      assert edges == [edges[0]] + edges[1..];
      TallyConcat([edges[0]], edges[1..], test);
      assert [edges[0]][..0] == [];
    }
  }

  /** Walking the ring the other way round changes nothing. */
  lemma ReversalKeepsWalk(ring: seq<Coordinate>, c: Coordinate)
    ensures Walk(Reversed(ring), c) == Walk(ring, c)
  {
    if ring != [] {
      var n := |ring|;
      var start := Rotated(ring, 1);
      var edges, mirrored := EdgesOf(start), EdgesOf(Reversed(ring));
      RotationKeepsWalk(ring, 1, c);
      forall i | 0 <= i < n
        ensures mirrored[i] == Flip(edges[n - 1 - i])
      {
      }
      MirroredTally(edges, mirrored, c);
      forall e
        ensures e in edges && OnSegment(e, c) ==> Flip(e) in mirrored && OnSegment(Flip(e), c)
        ensures e in mirrored && OnSegment(e, c) ==> Flip(e) in edges && OnSegment(Flip(e), c)
      {
        FlipKeepsTests(e, c);
        if e in edges {
          var i :| 0 <= i < n && edges[i] == e;
          assert mirrored[n - 1 - i] == Flip(e);
        }
        if e in mirrored {
          var i :| 0 <= i < n && mirrored[i] == e;
          assert edges[n - 1 - i] == Flip(e);
        }
      }
    }
  }

  lemma BoxIsUnique(ring: seq<Coordinate>, other: seq<Coordinate>, p: Polygon, q: Polygon)
    requires Bounds(ring, p.min, p.max) && Bounds(other, q.min, q.max)
    requires forall v :: v in ring <==> v in other
    ensures p.min == q.min && p.max == q.max
  {
  }

  /** Two ways of writing one ring down. */
  predicate SameRing(ring: seq<Coordinate>, other: seq<Coordinate>)
  {
    || (exists k :: 0 <= k <= |ring| && other == Rotated(ring, k))
    || (exists k :: 0 <= k <= |ring| && other == Reversed(Rotated(ring, k)))
  }

  lemma SameRingWalks(ring: seq<Coordinate>, other: seq<Coordinate>, c: Coordinate)
    requires SameRing(ring, other)
    ensures Walk(ring, c) <==> Walk(other, c)
    ensures forall v :: v in ring <==> v in other
  {
    hide Walk, Rotated, Reversed;
    if k :| 0 <= k <= |ring| && other == Rotated(ring, k) {
      RotationKeepsWalk(ring, k, c);
      SameVertices(ring, k);
    } else {
      var k :| 0 <= k <= |ring| && other == Reversed(Rotated(ring, k));
      RotationKeepsWalk(ring, k, c);
      ReversalKeepsWalk(Rotated(ring, k), c);
      SameVertices(ring, k);
    }
  }

  /** Contains gives one answer however the ring is rotated or reversed. */
  lemma ContainsIgnoresWriting(p: Polygon, q: Polygon, c: Coordinate)
    requires WellBuilt(p) && WellBuilt(q) && SameRing(p.ring, q.ring)
    ensures (InBox(p, c) && Walk(p.ring, c)) == (InBox(q, c) && Walk(q.ring, c))
  {
    SameRingWalks(p.ring, q.ring, c);
    BoxIsUnique(p.ring, q.ring, p, q);
  }

  lemma SameVertices(ring: seq<Coordinate>, k: nat)
    requires k <= |ring|
    ensures forall v :: v in ring <==> v in Rotated(ring, k)
    ensures forall v :: v in ring <==> v in Reversed(Rotated(ring, k))
  {
    var turned := Rotated(ring, k);
    assert ring == ring[..k] + ring[k..];
    forall v | v in turned
      ensures v in Reversed(turned)
    {
      var i :| 0 <= i < |turned| && turned[i] == v;
      assert Reversed(turned)[|turned| - 1 - i] == v;
    }
  }

  /** Repeating the first vertex at the end of an open list builds the same ring. */
  lemma ClosingVertexIsIgnored(vertices: seq<Coordinate>)
    requires |vertices| > 1 && vertices[0] != vertices[|vertices| - 1]
    ensures RingOf(vertices + [vertices[0]]) == RingOf(vertices) == vertices
  {
  }

  /** Whether building a polygon from a list drops the list's last vertex. */
  predicate Closed(vertices: seq<Coordinate>) { |vertices| > 1 && vertices[0] == vertices[|vertices| - 1] }

  /** On the corner at which a closed list is trimmed, within epsilon. */
  predicate AtDroppedCorner(vertices: seq<Coordinate>, c: Coordinate)
  {
    Closed(vertices) && OnSegment(Edge(vertices[0], vertices[0]), c)
  }

  lemma CornerIsNotCrossed(a: Coordinate, c: Coordinate)
    ensures !Crosses(Edge(a, a), c)
  {
  }

  /** Dropping the closing vertex drops one edge without length, which matters only to points on that corner. */
  lemma TrimmingDropsACorner(vertices: seq<Coordinate>, c: Coordinate)
    ensures Walk(vertices, c) <==> Walk(RingOf(vertices), c) || AtDroppedCorner(vertices, c)
  {
    if Closed(vertices) {
      var edges, rest, n := EdgesOf(vertices), EdgesOf(RingOf(vertices)), |vertices|;
      var corner := Edge(vertices[0], vertices[0]);
      var crosses := (e: Edge) => Crosses(e, c);
      assert edges[0] == corner;
      assert edges == [corner] + edges[1..];
      assert edges[1..n - 1] == rest[1..] && edges[n - 1] == rest[0];
      assert edges[1..] == rest[1..] + [rest[0]];
      assert rest == [rest[0]] + rest[1..];
      TallyConcat([corner], edges[1..], crosses);
      TallyConcat(rest[1..], [rest[0]], crosses);
      TallyConcat([rest[0]], rest[1..], crosses);
      CornerIsNotCrossed(vertices[0], c);
      assert [corner][..0] == [];
      assert forall e :: e in edges <==> e == corner || e in rest;
    }
  }

  /**
   Whatever rotation or reversal of a vertex list a polygon is built from, Contains gives one answer, but for points on
   a corner at which one of the lists was trimmed.
   */
  lemma ContainsIgnoresListing(vertices: seq<Coordinate>, other: seq<Coordinate>, p: Polygon, q: Polygon, c: Coordinate)
    requires SameRing(vertices, other)
    requires WellBuilt(p) && p.ring == RingOf(vertices) && WellBuilt(q) && q.ring == RingOf(other)
    ensures InBox(p, c) == InBox(q, c)
    ensures Walk(p.ring, c) || AtDroppedCorner(vertices, c) <==> Walk(q.ring, c) || AtDroppedCorner(other, c)
  {
    SameRingWalks(vertices, other, c);
    TrimmingDropsACorner(vertices, c);
    TrimmingDropsACorner(other, c);
    TrimmingKeepsVertices(vertices);
    TrimmingKeepsVertices(other);
    BoxIsUnique(p.ring, q.ring, p, q);
  }

  lemma TrimmingKeepsVertices(vertices: seq<Coordinate>)
    ensures forall v :: v in RingOf(vertices) <==> v in vertices
  {
    if Closed(vertices) {
      assert vertices == RingOf(vertices) + [vertices[0]];
      assert vertices[0] in RingOf(vertices);
    }
  }

  const CORNER: Coordinate := Coordinate(0.0, 0.0)
  const NEAR: Coordinate := Coordinate(10.0, 1.0)
  const FAR: Coordinate := Coordinate(10.0, 2.0)
  const BESIDE: Coordinate := Coordinate(0.0, EPSILON)

  lemma BesideTheCorner(to: Coordinate)
    requires to.lat == 10.0 && to.lng >= 1.0
    ensures !OnSegment(Edge(CORNER, to), BESIDE) && !Crosses(Edge(CORNER, to), BESIDE)
    ensures !OnSegment(Edge(to, CORNER), BESIDE) && !Crosses(Edge(to, CORNER), BESIDE)
  {
    assert CrossLng(Edge(CORNER, to), BESIDE) == 0.0;
    assert CrossLng(Edge(to, CORNER), BESIDE) == to.lng + (0.0 - 10.0) / (0.0 - 10.0) * (0.0 - to.lng) == 0.0;
  }

  lemma TriangleMissesBeside()
    ensures !Walk([CORNER, NEAR, FAR], BESIDE)
  {
    var edges := EdgesOf([CORNER, NEAR, FAR]);
    assert edges == [Edge(CORNER, FAR), Edge(NEAR, CORNER), Edge(FAR, NEAR)];
    BesideTheCorner(NEAR);
    BesideTheCorner(FAR);
    assert !OnSegment(Edge(FAR, NEAR), BESIDE) && !Crosses(Edge(FAR, NEAR), BESIDE);
    hide OnSegment, Crosses;
    var crosses, never := (e: Edge) => Crosses(e, BESIDE), (e: Edge) => false;
    TallyAgrees(edges, crosses, never);
    NeverTallies(edges);
  }

  lemma TriangleIsWellBuilt(ring: seq<Coordinate>)
    requires |ring| >= 3 && forall v :: v in ring <==> v in [CORNER, NEAR, FAR]
    ensures WellBuilt(Polygon(ring, CORNER, FAR))
  {
    assert CORNER in ring && FAR in ring && NEAR in ring;
    assert forall v :: v in ring ==> v == CORNER || v == NEAR || v == FAR;
  }

  lemma CornerKept()
    ensures Walk([NEAR, FAR, CORNER, CORNER], BESIDE)
  {
    var turned := [NEAR, FAR, CORNER, CORNER];
    assert EdgesOf(turned)[3] == Edge(CORNER, CORNER) && OnSegment(Edge(CORNER, CORNER), BESIDE);
    OnBoundaryIsInside(turned, BESIDE);
  }

  /** On such a corner the answers can differ: the trimmed list loses the corner's epsilon, a rotation of it keeps it. */
  lemma TrimmedCornersDiffer() returns (vertices: seq<Coordinate>, k: nat, p: Polygon, q: Polygon, c: Coordinate)
    ensures Closed(vertices) && k <= |vertices|
    ensures WellBuilt(p) && p.ring == RingOf(vertices) && WellBuilt(q) && q.ring == RingOf(Rotated(vertices, k))
    ensures InBox(p, c) && !Walk(p.ring, c) && InBox(q, c) && Walk(q.ring, c)
  {
    var ring, turned := [CORNER, NEAR, FAR], [NEAR, FAR, CORNER, CORNER];
    vertices, k, c := [CORNER, NEAR, FAR, CORNER], 1, BESIDE;
    p, q := Polygon(ring, CORNER, FAR), Polygon(turned, CORNER, FAR);
    hide Walk, WellBuilt;
    assert RingOf(vertices) == ring && Rotated(vertices, 1) == turned && RingOf(turned) == turned;
    TriangleMissesBeside();
    CornerKept();
    TriangleIsWellBuilt(ring);
    TriangleIsWellBuilt(turned);
  }

  lemma OnBoundaryIsInside(ring: seq<Coordinate>, c: Coordinate)
    requires OnBoundary(EdgesOf(ring), c)
    ensures Walk(ring, c)
  {
  }

  lemma BetweenEnds(e: Edge, t: real, c: Coordinate)
    requires 0.0 <= t <= 1.0
    requires c == Coordinate(e.a.lat + t * (e.b.lat - e.a.lat), e.a.lng + t * (e.b.lng - e.a.lng))
    ensures OnSegment(e, c)
    ensures Min(e.a.lat, e.b.lat) <= c.lat <= Max(e.a.lat, e.b.lat)
    ensures Min(e.a.lng, e.b.lng) <= c.lng <= Max(e.a.lng, e.b.lng)
  {
    var x, y := e.b.lat - e.a.lat, e.b.lng - e.a.lng;
    ScaledBetween(t, x);
    ScaledBetween(t, y);
    assert (t * x) * y - (t * y) * x == 0.0;
    assert c.lat - e.a.lat == t * x && c.lng - e.a.lng == t * y;
    assert Cross(e.a, e.b, c) == 0.0;
  }

  /** Every point of every edge is inside: a shop on the border is served. */
  lemma BorderIsInside(p: Polygon, i: nat, t: real, c: Coordinate)
    requires WellBuilt(p) && i < |p.ring| && 0.0 <= t <= 1.0
    requires var e := EdgesOf(p.ring)[i];
             c == Coordinate(e.a.lat + t * (e.b.lat - e.a.lat), e.a.lng + t * (e.b.lng - e.a.lng))
    ensures InBox(p, c) && Walk(p.ring, c)
  {
    var e := EdgesOf(p.ring)[i];
    assert e in EdgesOf(p.ring) && e.a in p.ring && e.b in p.ring;
    hide Cross, Walk;
    BetweenEnds(e, t, c);
    assert OnBoundary(EdgesOf(p.ring), c);
    assert Walk(p.ring, c) by {
      OnBoundaryIsInside(p.ring, c);
    }
  }

  /** Within epsilon of the box the two do differ: a point grazing an edge from outside is rejected although the walk has it. */
  lemma GrazingPointsAreRejected()
    ensures exists p: Polygon, c :: WellBuilt(p) && !FarOutside(p, c) && Walk(p.ring, c) && !InBox(p, c)
  {
    var a, b, d := Coordinate(0.0, 0.0), Coordinate(0.0, 1.0), Coordinate(1.0, 0.0);
    var p := Polygon([a, b, d], a, Coordinate(1.0, 1.0));
    var c := Coordinate(-EPSILON, 0.5);
    assert a in p.ring && b in p.ring && d in p.ring;
    assert OnSegment(Edge(b, a), c);
    assert EdgesOf(p.ring)[1] == Edge(b, a);
    OnBoundaryIsInside(p.ring, c);
    assert WellBuilt(p) && !FarOutside(p, c) && Walk(p.ring, c) && !InBox(p, c);
  }

  // ---------------------------------------------------------------- what a triangle holds

  lemma SpanRotates(a: Coordinate, b: Coordinate, d: Coordinate)
    ensures Span(Minus(d, b), Minus(a, b)) == Span(Minus(b, a), Minus(d, a))
  {
  }

  lemma WeighsRotates(a: Coordinate, b: Coordinate, d: Coordinate, c: Coordinate, x: real, y: real)
    requires Weighs(a, b, d, c, x, y)
    ensures Weighs(b, d, a, c, y, 1.0 - x - y)
  {
    WeighsRotatesOne(b.lat - a.lat, d.lat - a.lat, c.lat - a.lat, x, y);
    WeighsRotatesOne(b.lng - a.lng, d.lng - a.lng, c.lng - a.lng, x, y);
  }

  lemma WeighsRotatesOne(u: real, v: real, w: real, x: real, y: real)
    requires w == x * u + y * v
    ensures w - u == y * (v - u) + (1.0 - x - y) * -u
  {
    assert y * (v - u) == y * v - y * u;
    assert (1.0 - x - y) * -u == -u + x * u + y * u;
  }

  lemma TriangleTurns(a: Coordinate, b: Coordinate, d: Coordinate, c: Coordinate)
    ensures Walk([b, d, a], c) == Walk([a, b, d], c)
    ensures OnBoundary(EdgesOf([b, d, a]), c) == OnBoundary(EdgesOf([a, b, d]), c)
  {
    assert Rotated([a, b, d], 1) == [b, d, a];
    RotationKeepsWalk([a, b, d], 1, c);
    TriangleEdges(a, b, d, c);
    TriangleEdges(b, d, a, c);
    FlipKeepsTests(Edge(a, d), c);
    FlipKeepsTests(Edge(b, a), c);
    FlipKeepsTests(Edge(d, b), c);
    hide Walk, OnSegment;
  }

  /**
   A triangle holds exactly its inside and its border: of a point on no edge, given by its weights on the corners, the walk
   says inside if and only if every corner has some.
   */
  lemma TriangleIsItsInside(a: Coordinate, b: Coordinate, d: Coordinate, c: Coordinate, x: real, y: real)
    requires Span(Minus(b, a), Minus(d, a)) != 0.0 && Weighs(a, b, d, c, x, y)
    ensures Walk([a, b, d], c) <==> OnBoundary(EdgesOf([a, b, d]), c) || (x > 0.0 && y > 0.0 && x + y < 1.0)
  {
    if OnBoundary(EdgesOf([a, b, d]), c) {
      OnBoundaryIsInside([a, b, d], c);
    } else {
      TriangleOffItsEdges(a, b, d, c, x, y);
    }
  }

  lemma TriangleOffItsEdges(a: Coordinate, b: Coordinate, d: Coordinate, c: Coordinate, x: real, y: real)
    requires Span(Minus(b, a), Minus(d, a)) != 0.0 && Weighs(a, b, d, c, x, y)
    requires !OnBoundary(EdgesOf([a, b, d]), c)
    ensures Walk([a, b, d], c) <==> AllPositive(x, y)
  {
    SpanRotates(a, b, d);
    SpanRotates(b, d, a);
    WeighsRotates(a, b, d, c, x, y);
    WeighsRotates(b, d, a, c, y, 1.0 - x - y);
    TriangleTurns(a, b, d, c);
    TriangleTurns(b, d, a, c);
    hide Walk, EdgesOf, OnBoundary, Span, Weighs;
    if LoneCorner(a, b, d, c) {
      LoneCornerWalk(a, b, d, c, x, y);
    } else if LoneCorner(b, d, a, c) {
      LoneCornerWalk(b, d, a, c, y, 1.0 - x - y);
    } else if LoneCorner(d, a, b, c) {
      LoneCornerWalk(d, a, b, c, 1.0 - x - y, x);
    } else {
      OneSideWalk(a, b, d, c, x, y);
    }
  }

  lemma WeightsStayBetween(p: real, q: real, r: real, c: real, x: real, y: real, lo: real, hi: real)
    requires AllPositive(x, y) && c - p == x * (q - p) + y * (r - p)
    requires lo <= p <= hi && lo <= q <= hi && lo <= r <= hi
    ensures lo <= c <= hi
  {
    var s := 1.0 - x - y;
    var f, g, h := s * p, x * q, y * r;
    ThreeShares(p, q, r, x, y, f, g, h);
    WeighedBound(lo, p, q, r, s, x, y, f, g, h);
    WeighedBound(-hi, -p, -q, -r, s, x, y, -f, -g, -h);
  }

  lemma ThreeShares(p: real, q: real, r: real, x: real, y: real, f: real, g: real, h: real)
    requires f == (1.0 - x - y) * p && g == x * q && h == y * r
    ensures p + x * (q - p) + y * (r - p) == f + g + h
  {
    assert x * (q - p) == x * q - x * p;
    assert y * (r - p) == y * r - y * p;
    assert (1.0 - x - y) * p == p - x * p - y * p;
  }

  lemma SharesOfOne(lo: real, s: real, x: real, y: real, a: real, b: real, d: real)
    requires s + x + y == 1.0 && a == lo * s && b == lo * x && d == lo * y
    ensures a + b + d == lo
  {
    assert s == 1.0 - x - y;
    assert lo * (1.0 - x - y) == lo - lo * x - lo * y;
  }

  lemma WeighedBound(lo: real, p: real, q: real, r: real, s: real, x: real, y: real, f: real, g: real, h: real)
    requires s > 0.0 && x > 0.0 && y > 0.0 && s + x + y == 1.0 && lo <= p && lo <= q && lo <= r
    requires f == s * p && g == x * q && h == y * r
    ensures lo <= f + g + h
  {
    var a, b, d := lo * s, lo * x, lo * y;
    TimesGrows(lo, p, s);
    TimesGrows(lo, q, x);
    TimesGrows(lo, r, y);
    assert a <= f && b <= g && d <= h;
    SharesOfOne(lo, s, x, y, a, b, d);
  }

  lemma CornersInTheBox(p: Polygon, a: Coordinate, b: Coordinate, d: Coordinate)
    requires WellBuilt(p) && p.ring == [a, b, d]
    ensures InBox(p, a) && InBox(p, b) && InBox(p, d)
  {
    assert a in p.ring && b in p.ring && d in p.ring;
  }

  lemma WeighedLat(a: Coordinate, b: Coordinate, d: Coordinate, c: Coordinate, x: real, y: real, lo: real, hi: real)
    requires Weighs(a, b, d, c, x, y) && AllPositive(x, y)
    requires lo <= a.lat <= hi && lo <= b.lat <= hi && lo <= d.lat <= hi
    ensures lo <= c.lat <= hi
  {
    WeightsStayBetween(a.lat, b.lat, d.lat, c.lat, x, y, lo, hi);
  }

  lemma WeighedLng(a: Coordinate, b: Coordinate, d: Coordinate, c: Coordinate, x: real, y: real, lo: real, hi: real)
    requires Weighs(a, b, d, c, x, y) && AllPositive(x, y)
    requires lo <= a.lng <= hi && lo <= b.lng <= hi && lo <= d.lng <= hi
    ensures lo <= c.lng <= hi
  {
    WeightsStayBetween(a.lng, b.lng, d.lng, c.lng, x, y, lo, hi);
  }

  lemma InsideIsInTheBox(p: Polygon, a: Coordinate, b: Coordinate, d: Coordinate, c: Coordinate, x: real, y: real)
    requires WellBuilt(p) && p.ring == [a, b, d] && Weighs(a, b, d, c, x, y) && AllPositive(x, y)
    ensures InBox(p, c)
  {
    CornersInTheBox(p, a, b, d);
    hide WellBuilt, Weighs, AllPositive;
    WeighedLat(a, b, d, c, x, y, p.min.lat, p.max.lat);
    WeighedLng(a, b, d, c, x, y, p.min.lng, p.max.lng);
  }

  /** Contains has every point inside a triangle, and no point beyond one of its sides unless it is on an edge. */
  lemma TriangleContains(p: Polygon, a: Coordinate, b: Coordinate, d: Coordinate, c: Coordinate, x: real, y: real)
    requires WellBuilt(p) && p.ring == [a, b, d]
    requires Span(Minus(b, a), Minus(d, a)) != 0.0 && Weighs(a, b, d, c, x, y)
    ensures x > 0.0 && y > 0.0 && x + y < 1.0 ==> InBox(p, c) && Walk(p.ring, c)
    ensures x < 0.0 || y < 0.0 || x + y > 1.0 ==> (InBox(p, c) && Walk(p.ring, c) ==> OnBoundary(EdgesOf(p.ring), c))
  {
    TriangleIsItsInside(a, b, d, c, x, y);
    hide Walk, EdgesOf, OnBoundary, Weighs, Span, WellBuilt, InBox;
    if AllPositive(x, y) {
      InsideIsInTheBox(p, a, b, d, c, x, y);
    }
  }
}
