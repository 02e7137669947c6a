/**
 * The procedural geometry of the logo: angle conversion, the four mesh
 * builders (ring, filled disk, single triangle, fan-triangulated polygon),
 * the placement of the exterior and interior triangles around a circle,
 * the triangle centroid, and the static table of the eight parts of the
 * letter "R".
 *
 * A mesh is a position buffer and an index buffer, read three indices at a
 * time as triangles. The engine's mesh object, its topology flag and its
 * asset usage are not modelled; coordinates are reals, not f32.
 */
module Geometry {
  import opened RealTrig

  datatype Vec2 = Vec2(x: real, y: real)
  datatype Vec3 = Vec3(x: real, y: real, z: real)

  /** A 2D point placed in the z = 0 plane, as every builder stores it. */
  function Flat(p: Vec2): Vec3
  {
    Vec3(p.x, p.y, 0.0)
  }

  /** The point at distance `radius` from the origin in direction `angle`. */
  function Polar(t: Trig, radius: real, angle: real): Vec2
  {
    Vec2(radius * t.cos(angle), radius * t.sin(angle))
  }

  /** Squared distance from the origin. */
  function NormSquared(p: Vec2): real
  {
    p.x * p.x + p.y * p.y
  }

  lemma PolarRadius(t: Trig, radius: real, angle: real)
    requires Pythagorean(t)
    ensures NormSquared(Polar(t, radius, angle)) == radius * radius
  {
    var c, s := t.cos(angle), t.sin(angle);
    assert c * c + s * s == 1.0;
    calc {
      NormSquared(Polar(t, radius, angle));
      (radius * c) * (radius * c) + (radius * s) * (radius * s);
      radius * radius * (c * c + s * s);
    }
  }

  // ------------------------------------------------------------------
  // Angle utilities
  // ------------------------------------------------------------------

  function DegreesToRadians(t: Trig, degrees: real): real
  {
    degrees * t.pi / 180.0
  }

  /** The documented examples: 0°, 90°, 180° and 360°, and additivity. */
  lemma DegreesToRadiansExamples(t: Trig, a: real, b: real)
    ensures DegreesToRadians(t, 0.0) == 0.0
    ensures DegreesToRadians(t, 90.0) == t.pi / 2.0
    ensures DegreesToRadians(t, 180.0) == t.pi
    ensures DegreesToRadians(t, 360.0) == 2.0 * t.pi
    ensures DegreesToRadians(t, a + b) == DegreesToRadians(t, a) + DegreesToRadians(t, b)
  {
  }

  // ------------------------------------------------------------------
  // Meshes
  // ------------------------------------------------------------------

  /** Every index of a buffer is the result of a Rust `as u32` cast. */
  const U32Limit: nat := 0x1_0000_0000

  function AsU32(n: nat): (r: nat)
    ensures r < U32Limit && r <= n
    ensures n < U32Limit ==> r == n
  {
    n % U32Limit
  }

  datatype Mesh = Mesh(positions: seq<Vec3>, indices: seq<nat>)

  /** A triangle list: indices come in triples and each names a position. */
  predicate WellFormed(m: Mesh)
  {
    && |m.indices| % 3 == 0
    && forall k :: 0 <= k < |m.indices| ==> m.indices[k] < |m.positions|
  }

  function TriangleCount(m: Mesh): nat
  {
    |m.indices| / 3
  }

  /**
   * The blocks f(0), f(1), …, f(m-1), one after another: an index buffer
   * that a loop builds by pushing one block of indices per step.
   */
  function Blocks(f: nat -> seq<nat>, m: nat): seq<nat>
  {
    if m == 0 then [] else Blocks(f, m - 1) + f(m - 1)
  }

  /** With blocks of width w, m blocks hold w·m entries. */
  lemma {:induction false} BlocksLength(f: nat -> seq<nat>, w: nat, m: nat)
    requires forall j :: 0 <= j < m ==> |f(j)| == w
    ensures |Blocks(f, m)| == w * m
  {
    if m > 0 {
      BlocksLength(f, w, m - 1);
      assert w * (m - 1) + w == w * m;
    }
  }

  /** When every block's entries are below `bound`, so is every entry of the buffer. */
  lemma {:induction false} BlocksBound(f: nat -> seq<nat>, m: nat, bound: nat)
    requires forall j, c :: 0 <= j < m && 0 <= c < |f(j)| ==> f(j)[c] < bound
    ensures forall k :: 0 <= k < |Blocks(f, m)| ==> Blocks(f, m)[k] < bound
  {
    if m > 0 {
      BlocksBound(f, m - 1, bound);
      var p := Blocks(f, m - 1);
      forall k | 0 <= k < |Blocks(f, m)|
        ensures Blocks(f, m)[k] < bound
      {
        if k >= |p| {
          assert Blocks(f, m)[k] == f(m - 1)[k - |p|];
        }
      }
    }
  }

  /** The first i blocks are a prefix of the first m, for i <= m. */
  lemma {:induction false} BlocksPrefix(f: nat -> seq<nat>, i: nat, m: nat)
    requires i <= m
    ensures |Blocks(f, i)| <= |Blocks(f, m)|
    ensures Blocks(f, m)[..|Blocks(f, i)|] == Blocks(f, i)
  {
    if i < m {
      BlocksPrefix(f, i, m - 1);
      var p := Blocks(f, m - 1);
      assert Blocks(f, m)[..|p|] == p;
    }
  }

  /** Block i sits intact right after the blocks before it. */
  lemma {:induction false} BlockAt(f: nat -> seq<nat>, m: nat, i: nat)
    requires i < m
    ensures |Blocks(f, i)| + |f(i)| <= |Blocks(f, m)|
    ensures Blocks(f, m)[|Blocks(f, i)| .. |Blocks(f, i)| + |f(i)|] == f(i)
  {
    BlocksPrefix(f, i + 1, m);
    var b, p, q := Blocks(f, m), Blocks(f, i), Blocks(f, i + 1);
    assert q == p + f(i);
    assert b[|p| .. |q|] == q[|p|..];
  }

  /** Angle of segment `i` of `n`: 2π·i/n. */
  function SegmentAngle(t: Trig, i: nat, n: nat): real
    requires n > 0
  {
    2.0 * t.pi * (i as real) / (n as real)
  }

  /** Vertex `i` of a circle of `n` vertices and the given radius. */
  function CircleVertex(t: Trig, radius: real, i: nat, n: nat): Vec3
    requires i < n
  {
    Flat(Polar(t, radius, SegmentAngle(t, i, n)))
  }

  /** The `n` vertices of a circle of the given radius, in angle order. */
  function CircleVertices(t: Trig, radius: real, n: nat): (vs: seq<Vec3>)
    ensures |vs| == n
    ensures forall i :: 0 <= i < n ==> vs[i] == CircleVertex(t, radius, i, n)
  {
    seq(n, i requires 0 <= i < n => CircleVertex(t, radius, i, n))
  }


  /** The segment after i, modulo n: i + 1, or 0 after the last. */
  lemma NextSegment(i: nat, n: nat)
    requires i < n
    ensures (i + 1) % n == if i == n - 1 then 0 else i + 1
  {
  }

  // --- Ring (annulus) ---

  /**
   * The six indices of segment i of a ring of n segments: the quad between
   * outer vertices i, next and inner vertices n+i, n+next, where next is
   * i+1 or, for the last segment, 0, split into the triangles
   * (i, n+i, next) and (next, n+i, n+next).
   */
  function RingSegmentIndices(n: nat, i: nat): (s: seq<nat>)
    ensures |s| == 6
    ensures i < n ==> forall c :: 0 <= c < 6 ==> s[c] < 2 * n
  {
    var next := if i == n - 1 then 0 else i + 1;
    [AsU32(i), AsU32(n + i), AsU32(next), AsU32(next), AsU32(n + i), AsU32(n + next)]
  }

  function RingSegments(n: nat): nat -> seq<nat>
  {
    i => RingSegmentIndices(n, i)
  }

  /** The ring's index buffer: six entries per segment, each naming one of the 2n vertices. */
  function RingIndices(n: nat): (ix: seq<nat>)
    ensures |ix| == 6 * n
    ensures forall k :: 0 <= k < |ix| ==> ix[k] < 2 * n
  {
    BlocksLength(RingSegments(n), 6, n);
    BlocksBound(RingSegments(n), n, 2 * n);
    Blocks(RingSegments(n), n)
  }

  /**
   * The ring mesh as a whole: n outer vertices, then n inner vertices at
   * the same angles, then 2n triangles whose indices all name one of them.
   */
  function CircleMesh(t: Trig, outerRadius: real, innerRadius: real, n: nat): (m: Mesh)
    ensures |m.positions| == 2 * n && |m.indices| == 6 * n
    ensures TriangleCount(m) == 2 * n
    ensures m.positions[..n] == CircleVertices(t, outerRadius, n)
    ensures m.positions[n..] == CircleVertices(t, innerRadius, n)
    ensures m.indices == RingIndices(n)
    ensures WellFormed(m)
  {
    var ps := CircleVertices(t, outerRadius, n) + CircleVertices(t, innerRadius, n);
    assert ps[..n] == CircleVertices(t, outerRadius, n);
    Mesh(ps, RingIndices(n))
  }

  /**
   * Segment i of the ring emits, at entries 6i .. 6i+5, the triangles
   * (i, n+i, next) and (next, n+i, n+next), where next is i+1, or 0 for
   * the last segment: outer vertices are 0..n-1, inner ones n..2n-1.
   * This needs the 2n vertex numbers to fit the u32 index type.
   */
  lemma RingSegment(n: nat, i: nat)
    requires i < n && 2 * n <= U32Limit
    ensures var next := if i == n - 1 then 0 else i + 1;
      RingIndices(n)[6 * i .. 6 * i + 6] == [i, n + i, next, next, n + i, n + next]
  {
    BlockAt(RingSegments(n), n, i);
    BlocksLength(RingSegments(n), 6, i);
  }

  /**
   * The last segment closes the ring: its triangles are (n-1, 2n-1, 0)
   * and (0, 2n-1, n), back to outer vertex 0 and inner vertex n.
   */
  lemma RingWrapsAround(n: nat)
    requires 0 < n && 2 * n <= U32Limit
    ensures RingIndices(n)[6 * n - 6 ..] == [n - 1, 2 * n - 1, 0, 0, 2 * n - 1, n]
  {
    RingSegment(n, n - 1);
  }

  /** The ring built the way the source does: three loops pushing onto growing buffers. */
  method CreateCircleMesh(t: Trig, outerRadius: real, innerRadius: real, segments: nat) returns (m: Mesh)
    ensures m == CircleMesh(t, outerRadius, innerRadius, segments)
  {
    var positions: seq<Vec3> := [];
    var indices: seq<nat>;
    for i := 0 to segments
      invariant |positions| == i
      invariant forall k :: 0 <= k < i ==> positions[k] == CircleVertex(t, outerRadius, k, segments)
    {
      positions := positions + [CircleVertex(t, outerRadius, i, segments)];
    }
    for i := 0 to segments
      invariant |positions| == segments + i
      invariant forall k :: 0 <= k < segments ==> positions[k] == CircleVertex(t, outerRadius, k, segments)
      invariant forall k :: segments <= k < segments + i ==>
        positions[k] == CircleVertex(t, innerRadius, k - segments, segments)
    {
      positions := positions + [CircleVertex(t, innerRadius, i, segments)];
    }
    indices := RingIndexLoop(segments);
    RingPositions(t, outerRadius, innerRadius, segments, positions);
    m := Mesh(positions, indices);
  }

  /** The ring's third loop: two triangles per segment, wrapping with `% segments`. */
  method RingIndexLoop(segments: nat) returns (indices: seq<nat>)
    ensures indices == RingIndices(segments)
  {
    indices := [];
    for i := 0 to segments
      invariant indices == Blocks(RingSegments(segments), i)
    {
      var next := (i + 1) % segments;
      NextSegment(i, segments);
      var before := indices;
      indices := indices + [AsU32(i), AsU32(segments + i), AsU32(next)];
      indices := indices + [AsU32(next), AsU32(segments + i), AsU32(segments + next)];
      assert indices == before + RingSegmentIndices(segments, i);
    }
  }

  /** Outer vertices followed by inner vertices, entry by entry, are the ring's position buffer. */
  lemma RingPositions(t: Trig, outerRadius: real, innerRadius: real, n: nat, positions: seq<Vec3>)
    requires |positions| == 2 * n
    requires forall k :: 0 <= k < n ==> positions[k] == CircleVertex(t, outerRadius, k, n)
    requires forall k :: n <= k < 2 * n ==> positions[k] == CircleVertex(t, innerRadius, k - n, n)
    ensures positions == CircleMesh(t, outerRadius, innerRadius, n).positions
  {
    var spec := CircleMesh(t, outerRadius, innerRadius, n).positions;
    forall k | 0 <= k < 2 * n
      ensures positions[k] == spec[k]
    {
      if k < n {
        assert spec[k] == spec[..n][k];
      } else {
        assert spec[k] == spec[n..][k - n];
      }
    }
  }

  // --- Filled disk ---

  /**
   * The fan triangle of rim segment i of a disk of n segments: the centre,
   * rim vertex i+1 and the next rim vertex, i+2, or 1 for the last segment.
   */
  function DiskTriangle(n: nat, i: nat): (s: seq<nat>)
    ensures |s| == 3
    ensures i < n ==> forall c :: 0 <= c < 3 ==> s[c] <= n
  {
    var next := if i == n - 1 then 1 else i + 2;
    [0, AsU32(i + 1), AsU32(next)]
  }

  function DiskTriangles(n: nat): nat -> seq<nat>
  {
    i => DiskTriangle(n, i)
  }

  /** The disk's index buffer: one triangle per rim segment, each entry naming one of the n+1 vertices. */
  function DiskIndices(n: nat): (ix: seq<nat>)
    ensures |ix| == 3 * n
    ensures forall k :: 0 <= k < |ix| ==> ix[k] <= n
  {
    BlocksLength(DiskTriangles(n), 3, n);
    BlocksBound(DiskTriangles(n), n, n + 1);
    Blocks(DiskTriangles(n), n)
  }

  /** The filled disk as a whole: the centre, the n rim vertices, n fan triangles. */
  function FilledCircleMesh(t: Trig, radius: real, n: nat): (m: Mesh)
    ensures |m.positions| == n + 1 && |m.indices| == 3 * n
    ensures TriangleCount(m) == n
    ensures m.positions[0] == Vec3(0.0, 0.0, 0.0)
    ensures m.positions[1..] == CircleVertices(t, radius, n)
    ensures m.indices == DiskIndices(n)
    ensures WellFormed(m)
  {
    Mesh([Vec3(0.0, 0.0, 0.0)] + CircleVertices(t, radius, n), DiskIndices(n))
  }

  /** Triangle i of the disk is (0, i+1, i+2), the last one wrapping to (0, n, 1). */
  lemma DiskFan(n: nat, i: nat)
    requires i < n && n < U32Limit
    ensures DiskIndices(n)[3 * i .. 3 * i + 3] == [0, i + 1, if i == n - 1 then 1 else i + 2]
  {
    BlockAt(DiskTriangles(n), n, i);
    BlocksLength(DiskTriangles(n), 3, i);
  }

  /** The disk built the way the source does: the centre, then two loops pushing. */
  method CreateFilledCircleMesh(t: Trig, radius: real, segments: nat) returns (m: Mesh)
    ensures m == FilledCircleMesh(t, radius, segments)
  {
    var positions: seq<Vec3> := [Vec3(0.0, 0.0, 0.0)];
    var indices: seq<nat> := [];
    for i := 0 to segments
      invariant |positions| == i + 1 && positions[0] == Vec3(0.0, 0.0, 0.0)
      invariant forall k :: 1 <= k <= i ==> positions[k] == CircleVertex(t, radius, k - 1, segments)
    {
      positions := positions + [CircleVertex(t, radius, i, segments)];
    }
    for i := 0 to segments
      invariant indices == Blocks(DiskTriangles(segments), i)
    {
      var next := if i == segments - 1 then 1 else i + 2;
      indices := indices + [0, AsU32(i + 1), AsU32(next)];
    }
    var spec := FilledCircleMesh(t, radius, segments);
    assert positions[1..] == spec.positions[1..];
    assert positions == [positions[0]] + positions[1..];
    assert spec.positions == [spec.positions[0]] + spec.positions[1..];
    m := Mesh(positions, indices);
  }

  // --- Single triangle ---

  /** The three points, in order, in the z = 0 plane, as the one triangle (0, 1, 2). */
  function CreateTriangleFromPoints(p1: Vec2, p2: Vec2, p3: Vec2): (m: Mesh)
    ensures m.positions == FlatPoints([p1, p2, p3]) && m.indices == [0, 1, 2]
    ensures WellFormed(m) && TriangleCount(m) == 1
  {
    Mesh([Flat(p1), Flat(p2), Flat(p3)], [0, 1, 2])
  }


  // --- Fan-triangulated polygon ---

  datatype GeometryError = TooFewPoints

  datatype Result<T> = Ok(value: T) | Err(error: GeometryError)

  /** Fan triangle j of a polygon: the pivot 0 and the consecutive points j+1, j+2. */
  function FanTriangle(j: nat): (s: seq<nat>)
    ensures |s| == 3
    ensures forall c :: 0 <= c < 3 ==> s[c] <= j + 2
  {
    [0, AsU32(j + 1), AsU32(j + 2)]
  }

  /** The fan over n >= 2 points: n - 2 triangles, every entry naming one of the points. */
  function FanIndices(n: nat): (ix: seq<nat>)
    requires n >= 2
    ensures |ix| == 3 * (n - 2)
    ensures forall k :: 0 <= k < |ix| ==> ix[k] < n
  {
    BlocksLength(FanTriangle, 3, n - 2);
    BlocksBound(FanTriangle, n - 2, n);
    Blocks(FanTriangle, n - 2)
  }

  /** The points in order, in the z = 0 plane. */
  function FlatPoints(points: seq<Vec2>): (ps: seq<Vec3>)
    ensures |ps| == |points|
    ensures forall k :: 0 <= k < |points| ==> ps[k] == Vec3(points[k].x, points[k].y, 0.0)
  {
    seq(|points|, k requires 0 <= k < |points| => Flat(points[k]))
  }

  /**
   * The polygon mesh as a whole: an error for fewer than 3 points,
   * otherwise the points in order and n - 2 fan triangles from point 0.
   */
  function PolygonFromPoints(points: seq<Vec2>): (r: Result<Mesh>)
    ensures r.Err? <==> |points| < 3
    ensures r.Err? ==> r.error == TooFewPoints
    ensures r.Ok? ==>
      && r.value.positions == FlatPoints(points)
      && TriangleCount(r.value) == |points| - 2
      && r.value.indices == FanIndices(|points|)
      && WellFormed(r.value)
  {
    if |points| < 3 then
      Err(TooFewPoints)
    else
      Ok(Mesh(FlatPoints(points), FanIndices(|points|)))
  }

  /** Triangle j of the fan is (0, j+1, j+2): every triangle shares vertex 0. */
  lemma PolygonFan(n: nat, j: nat)
    requires 3 <= n < U32Limit && j < n - 2
    ensures FanIndices(n)[3 * j .. 3 * j + 3] == [0, j + 1, j + 2]
  {
    BlockAt(FanTriangle, n - 2, j);
    BlocksLength(FanTriangle, 3, j);
  }

  /** A three-point polygon is exactly the single-triangle mesh. */
  lemma TriangleIsThreePointPolygon(p1: Vec2, p2: Vec2, p3: Vec2)
    ensures PolygonFromPoints([p1, p2, p3]) == Ok(CreateTriangleFromPoints(p1, p2, p3))
  {
    PolygonFan(3, 0);
    assert FanIndices(3) == FanIndices(3)[0..3];
    assert FlatPoints([p1, p2, p3]) == [Flat(p1), Flat(p2), Flat(p3)];
  }

  /** The polygon built the way the source does: mapped positions, then a loop pushing the fan. */
  method CreatePolygonFromPoints(points: seq<Vec2>) returns (r: Result<Mesh>)
    ensures r == PolygonFromPoints(points)
  {
    if |points| < 3 {
      return Err(TooFewPoints);
    }
    var n := |points|;
    var positions := seq(n, k requires 0 <= k < n => Flat(points[k]));
    var indices: seq<nat> := [];
    for i := 1 to n - 1
      invariant indices == Blocks(FanTriangle, i - 1)
    {
      indices := indices + [0, AsU32(i), AsU32(i + 1)];
    }
    assert positions == FlatPoints(points);
    r := Ok(Mesh(positions, indices));
  }


  // ------------------------------------------------------------------
  // Placement of the triangles around a circle
  // ------------------------------------------------------------------

  datatype TrianglePoints = TrianglePoints(p1: Vec2, p2: Vec2, p3: Vec2)

  /** Height of the equilateral triangle of the given side: side·√3/2. */
  function Height(t: Trig, side: real): real
  {
    side * (t.sqrt3 / 2.0)
  }

  /**
   * The angles of the two base vertices: symmetric about `baseAngle`, and
   * spanning an arc of length `side` on the circle of `radius` (the
   * small-angle stand-in for a chord of that length).
   */
  function BaseAngles(baseAngle: real, radius: real, side: real): (a: (real, real))
    requires radius != 0.0
    ensures a.0 + a.1 == 2.0 * baseAngle
    ensures radius * (a.1 - a.0) == side
  {
    var halfSide := side / 2.0;
    (baseAngle - halfSide / radius, baseAngle + halfSide / radius)
  }

  function ExteriorTrianglePoints(t: Trig, baseAngle: real, circleRadius: real, side: real): TrianglePoints
    requires circleRadius != 0.0
  {
    var angles := BaseAngles(baseAngle, circleRadius, side);
    TrianglePoints(
      Polar(t, circleRadius, angles.0),
      Polar(t, circleRadius, angles.1),
      Polar(t, circleRadius + Height(t, side), baseAngle))
  }

  function InteriorTrianglePoints(t: Trig, baseAngle: real, innerRadius: real, side: real): TrianglePoints
    requires innerRadius != 0.0
  {
    var angles := BaseAngles(baseAngle, innerRadius, side);
    TrianglePoints(
      Polar(t, innerRadius, angles.0),
      Polar(t, innerRadius, angles.1),
      Polar(t, innerRadius - Height(t, side), baseAngle))
  }

  /**
   * The exterior triangle's base vertices lie on the circle and its apex at
   * radius R + side·√3/2 along the base angle.
   */
  lemma ExteriorTriangleRadii(t: Trig, baseAngle: real, circleRadius: real, side: real)
    requires Pythagorean(t) && circleRadius != 0.0
    ensures var ps := ExteriorTrianglePoints(t, baseAngle, circleRadius, side);
      var apex := circleRadius + side * t.sqrt3 / 2.0;
      && NormSquared(ps.p1) == circleRadius * circleRadius
      && NormSquared(ps.p2) == circleRadius * circleRadius
      && NormSquared(ps.p3) == apex * apex
      && ps.p3 == Polar(t, apex, baseAngle)
  {
    var angles := BaseAngles(baseAngle, circleRadius, side);
    PolarRadius(t, circleRadius, angles.0);
    PolarRadius(t, circleRadius, angles.1);
    PolarRadius(t, circleRadius + Height(t, side), baseAngle);
    assert Height(t, side) == side * t.sqrt3 / 2.0;
  }

  /**
   * The interior triangle's base vertices lie on the inner circle and its
   * apex at radius r − side·√3/2 along the base angle.
   */
  lemma InteriorTriangleRadii(t: Trig, baseAngle: real, innerRadius: real, side: real)
    requires Pythagorean(t) && innerRadius != 0.0
    ensures var ps := InteriorTrianglePoints(t, baseAngle, innerRadius, side);
      var apex := innerRadius - side * t.sqrt3 / 2.0;
      && NormSquared(ps.p1) == innerRadius * innerRadius
      && NormSquared(ps.p2) == innerRadius * innerRadius
      && NormSquared(ps.p3) == apex * apex
      && ps.p3 == Polar(t, apex, baseAngle)
  {
    var angles := BaseAngles(baseAngle, innerRadius, side);
    PolarRadius(t, innerRadius, angles.0);
    PolarRadius(t, innerRadius, angles.1);
    PolarRadius(t, innerRadius - Height(t, side), baseAngle);
    assert Height(t, side) == side * t.sqrt3 / 2.0;
  }

  /**
   * On the same circle, the interior triangle shares the exterior one's
   * base, and its apex is the exterior apex mirrored through the point of
   * the circle at the base angle.
   */
  lemma InteriorMirrorsExterior(t: Trig, baseAngle: real, radius: real, side: real)
    requires radius != 0.0
    ensures var ext := ExteriorTrianglePoints(t, baseAngle, radius, side);
      var inn := InteriorTrianglePoints(t, baseAngle, radius, side);
      var mid := Polar(t, radius, baseAngle);
      && inn.p1 == ext.p1 && inn.p2 == ext.p2
      && ext.p3.x + inn.p3.x == 2.0 * mid.x
      && ext.p3.y + inn.p3.y == 2.0 * mid.y
  {
    var h := Height(t, side);
    var c, s := t.cos(baseAngle), t.sin(baseAngle);
    assert (radius + h) * c + (radius - h) * c == 2.0 * (radius * c);
    assert (radius + h) * s + (radius - h) * s == 2.0 * (radius * s);
  }

  // ------------------------------------------------------------------
  // Centroid
  // ------------------------------------------------------------------

  /** The coordinate-wise mean of the three vertices. */
  function TriangleCentroid(p1: Vec2, p2: Vec2, p3: Vec2): (c: Vec2)
    ensures (p1.x - c.x) + (p2.x - c.x) + (p3.x - c.x) == 0.0
    ensures (p1.y - c.y) + (p2.y - c.y) + (p3.y - c.y) == 0.0
  {
    Vec2((p1.x + p2.x + p3.x) / 3.0, (p1.y + p2.y + p3.y) / 3.0)
  }

  /**
   * The centroid ignores vertex order, follows a translation of the
   * triangle, and the triangle (0,0), (6,0), (0,6) has centroid (2,2).
   */
  lemma CentroidProperties(p1: Vec2, p2: Vec2, p3: Vec2, v: Vec2)
    ensures TriangleCentroid(p2, p3, p1) == TriangleCentroid(p1, p2, p3)
    ensures TriangleCentroid(p2, p1, p3) == TriangleCentroid(p1, p2, p3)
    ensures var shift := (p: Vec2) => Vec2(p.x + v.x, p.y + v.y);
      TriangleCentroid(shift(p1), shift(p2), shift(p3)) == shift(TriangleCentroid(p1, p2, p3))
    ensures TriangleCentroid(Vec2(0.0, 0.0), Vec2(6.0, 0.0), Vec2(0.0, 6.0)) == Vec2(2.0, 2.0)
  {
  }

  // ------------------------------------------------------------------
  // The letter "R"
  // ------------------------------------------------------------------

  /** One polygon of the logo: a diagnostic name, its contour, its draw depth. */
  datatype RPartDefinition = RPartDefinition(name: string, points: seq<Vec2>, zOrder: real)

  /**
   * The eight parts of the "R", listed in drawing order: depths rise from
   * 0.40 by 0.01 per part, all in front of the centroid markers and below
   * 0.50, and every contour has 4 to 6 vertices.
   */
  function GetAllRParts(): (parts: seq<RPartDefinition>)
    ensures |parts| == 8
    ensures forall k :: 0 <= k < |parts| ==> parts[k].zOrder == 0.40 + 0.01 * (k as real)
    ensures forall j, k :: 0 <= j < k < |parts| ==> parts[j].zOrder < parts[k].zOrder
    ensures forall k :: 0 <= k < |parts| ==> 0.40 <= parts[k].zOrder < 0.50
    ensures forall k :: 0 <= k < |parts| ==> 4 <= |parts[k].points| <= 6
  {
    [
      RPartDefinition("Haut du R",
        [Vec2(-140.0, 90.0), Vec2(60.0, 90.0), Vec2(60.0, 50.0), Vec2(-100.0, 50.0)],
        0.40),
      RPartDefinition("Gauche du R",
        [Vec2(-80.0, 50.0), Vec2(-30.0, 50.0), Vec2(-30.0, -50.0), Vec2(-80.0, -50.0)],
        0.41),
      RPartDefinition("Arrondi du R",
        [Vec2(60.0, 90.0), Vec2(85.0, 60.0), Vec2(100.0, 30.0), Vec2(85.0, 0.0), Vec2(60.0, -30.0)],
        0.42),
      RPartDefinition("Centre du R",
        [Vec2(60.0, 50.0), Vec2(40.0, 50.0), Vec2(60.0, 10.0), Vec2(40.0, 10.0)],
        0.43),
      RPartDefinition("Pied gauche du R",
        [Vec2(-80.0, -50.0), Vec2(-10.0, -50.0), Vec2(-10.0, -80.0), Vec2(-140.0, -80.0),
         Vec2(-160.0, -50.0), Vec2(-80.0, -50.0)],
        0.44),
      RPartDefinition("Milieu du R",
        [Vec2(60.0, -30.0), Vec2(60.0, 10.0), Vec2(-30.0, 10.0), Vec2(-30.0, -30.0)],
        0.45),
      RPartDefinition("Jambe droite du R",
        [Vec2(60.0, -30.0), Vec2(20.0, -30.0), Vec2(60.0, -50.0), Vec2(100.0, -50.0)],
        0.46),
      RPartDefinition("Pied droit du R",
        [Vec2(160.0, -50.0), Vec2(30.0, -50.0), Vec2(30.0, -80.0), Vec2(120.0, -80.0)],
        0.47)
    ]
  }

  /**
   * Every part of the "R" passes the polygon builder's three-point check,
   * so none is skipped, and each yields |points| - 2 fan triangles.
   */
  lemma AllRPartsBuild()
    ensures forall part :: part in GetAllRParts() ==>
      PolygonFromPoints(part.points).Ok? &&
      TriangleCount(PolygonFromPoints(part.points).value) == |part.points| - 2
  {
    var parts := GetAllRParts();
    forall part | part in parts
      ensures PolygonFromPoints(part.points).Ok?
    {
      var k :| 0 <= k < |parts| && parts[k] == part;
      assert |part.points| >= 4;
    }
  }
}
