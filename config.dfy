/**
 * The logo's configuration: the sizes, counts and qualities every builder
 * is called with, and what follows from them for the assembled logo: the
 * ring's inner edge, the mesh sizes at these settings, where the triangles
 * sit relative to the ring, and that the colours handed out are distinct.
 */
module Config {
  import opened RealTrig
  import opened Geometry
  import opened Materials

  /** Outer radius of the main ring, in pixels. */
  const CircleRadius: real := 200.0
  /** Width of the ring's band, in pixels. */
  const CircleThickness: real := 30.0
  /** Segments of the main ring. */
  const CircleSegments: nat := 64
  /** Number of rainbow triangles around the ring. */
  const ExteriorTrianglesCount: nat := 36
  /** Side of a rainbow triangle, in pixels. */
  const SmallTriangleSide: real := 25.0
  /** Number of coloured triangles inside the ring. */
  const InteriorTrianglesCount: nat := 5
  /** Side of an interior triangle, in pixels. */
  const LargeTriangleSide: real := 80.0
  /** Radius of the marker disk at each interior triangle's centroid. */
  const SmallCircleRadius: real := 15.0
  /** Segments of a marker disk. */
  const SmallCircleSegments: nat := 32

  /** The ring's inner radius: the outer radius less the band's width. */
  function InnerRadius(): (r: real)
    ensures 0.0 < r < CircleRadius
    ensures r + CircleThickness == CircleRadius
  {
    CircleRadius - CircleThickness
  }

  /** The hue step of the rainbow in degrees: consecutive triangles are 10° apart. */
  function ExteriorAngleDegrees(i: nat): (d: real)
    ensures i < ExteriorTrianglesCount ==> 0.0 <= d < 360.0
  {
    (i as real) * 10.0
  }

  /** The interior triangles start at the top (90°) and are 72° apart. */
  function InteriorAngleDegrees(i: nat): (d: real)
    ensures i < InteriorTrianglesCount ==> 90.0 <= d < 450.0
  {
    (i as real) * 72.0 + 90.0
  }

  /**
   * Each setting lies in the range its documentation recommends, and both
   * circles have at least three segments: radius 150–300, band 10–15% of
   * the radius, rainbow side 10–15%, interior side 35–45%, marker radius
   * 5–10%, marker quality 24–48 segments and no finer than the ring.
   */
  lemma RecommendedRanges()
    ensures 150.0 <= CircleRadius <= 300.0
    ensures 0.10 * CircleRadius <= CircleThickness <= 0.15 * CircleRadius
    ensures 0.10 * CircleRadius <= SmallTriangleSide <= 0.15 * CircleRadius
    ensures 0.35 * CircleRadius <= LargeTriangleSide <= 0.45 * CircleRadius
    ensures 0.05 * CircleRadius <= SmallCircleRadius <= 0.10 * CircleRadius
    ensures 24 <= SmallCircleSegments <= 48 && SmallCircleSegments <= CircleSegments
    ensures CircleSegments >= 3 && SmallCircleSegments >= 3
  {
  }

  /**
   * The rainbow triangles divide the full turn evenly: their count divides
   * 360, the 10° step times the count is one turn, and the interior
   * triangles' 72° step times their count is one turn too.
   */
  lemma EvenSpacing(t: Trig)
    ensures 360 % ExteriorTrianglesCount == 0 && 360 / ExteriorTrianglesCount == 10
    ensures 360 / InteriorTrianglesCount == 72
    ensures ExteriorAngleDegrees(ExteriorTrianglesCount) == 360.0
    ensures DegreesToRadians(t, ExteriorAngleDegrees(ExteriorTrianglesCount)) == 2.0 * t.pi
    ensures InteriorAngleDegrees(InteriorTrianglesCount) - InteriorAngleDegrees(0) == 360.0
  {
  }

  /**
   * At these settings the main ring has 128 vertices and 128 triangles, and
   * a marker disk 33 vertices and 32 triangles; both are well formed.
   */
  lemma ConfiguredMeshSizes(t: Trig)
    ensures var ring := CircleMesh(t, CircleRadius, InnerRadius(), CircleSegments);
      |ring.positions| == 128 && |ring.indices| == 384 && TriangleCount(ring) == 128 && WellFormed(ring)
    ensures var disk := FilledCircleMesh(t, SmallCircleRadius, SmallCircleSegments);
      |disk.positions| == 33 && |disk.indices| == 96 && TriangleCount(disk) == 32 && WellFormed(disk)
  {
  }

  /** The squared distance of a mesh vertex from the origin, in the drawing plane. */
  function PlanarNormSquared(v: Vec3): real
  {
    NormSquared(Vec2(v.x, v.y))
  }

  /**
   * The rainbow triangles' bases sit on the ring's outer edge: every outer
   * vertex of the configured ring, and both base vertices of every rainbow
   * triangle, lie at the configured radius.
   */
  lemma ExteriorBasesOnOuterEdge(t: Trig, i: nat, k: nat)
    requires Pythagorean(t) && i < ExteriorTrianglesCount && k < CircleSegments
    ensures var ring := CircleMesh(t, CircleRadius, InnerRadius(), CircleSegments);
      var tri := ExteriorTrianglePoints(t, DegreesToRadians(t, ExteriorAngleDegrees(i)), CircleRadius, SmallTriangleSide);
      && PlanarNormSquared(ring.positions[k]) == CircleRadius * CircleRadius
      && NormSquared(tri.p1) == CircleRadius * CircleRadius
      && NormSquared(tri.p2) == CircleRadius * CircleRadius
  {
    var ring := CircleMesh(t, CircleRadius, InnerRadius(), CircleSegments);
    assert ring.positions[k] == CircleVertices(t, CircleRadius, CircleSegments)[k];
    PolarRadius(t, CircleRadius, SegmentAngle(t, k, CircleSegments));
    ExteriorTriangleRadii(t, DegreesToRadians(t, ExteriorAngleDegrees(i)), CircleRadius, SmallTriangleSide);
  }

  /**
   * The interior triangles' bases sit on the ring's inner edge: every inner
   * vertex of the configured ring, and both base vertices of every interior
   * triangle, lie at the inner radius.
   */
  lemma InteriorBasesOnInnerEdge(t: Trig, i: nat, k: nat)
    requires Pythagorean(t) && i < InteriorTrianglesCount && k < CircleSegments
    ensures var ring := CircleMesh(t, CircleRadius, InnerRadius(), CircleSegments);
      var tri := InteriorTrianglePoints(t, DegreesToRadians(t, InteriorAngleDegrees(i)), InnerRadius(), LargeTriangleSide);
      && PlanarNormSquared(ring.positions[CircleSegments + k]) == InnerRadius() * InnerRadius()
      && NormSquared(tri.p1) == InnerRadius() * InnerRadius()
      && NormSquared(tri.p2) == InnerRadius() * InnerRadius()
  {
    var ring := CircleMesh(t, CircleRadius, InnerRadius(), CircleSegments);
    assert ring.positions[CircleSegments + k] == ring.positions[CircleSegments..][k];
    assert ring.positions[CircleSegments + k] == CircleVertices(t, InnerRadius(), CircleSegments)[k];
    PolarRadius(t, InnerRadius(), SegmentAngle(t, k, CircleSegments));
    InteriorTriangleRadii(t, DegreesToRadians(t, InteriorAngleDegrees(i)), InnerRadius(), LargeTriangleSide);
  }

  /**
   * With √3 for `sqrt3`, a rainbow triangle's apex lies outside the ring
   * (between radius 221.6 and 221.7), and an interior triangle's apex lies
   * inside the ring's hole yet away from the centre (between radius 100.7
   * and 100.8), so the interior apexes never meet at the origin.
   */
  lemma ApexClearance(t: Trig, i: nat)
    requires Pythagorean(t) && IsSqrt3(t)
    ensures var ext := ExteriorTrianglePoints(t, DegreesToRadians(t, ExteriorAngleDegrees(i)), CircleRadius, SmallTriangleSide);
      221.6 * 221.6 < NormSquared(ext.p3) < 221.7 * 221.7
    ensures var inn := InteriorTrianglePoints(t, DegreesToRadians(t, InteriorAngleDegrees(i)), InnerRadius(), LargeTriangleSide);
      100.7 * 100.7 < NormSquared(inn.p3) < 100.8 * 100.8
  {
    Sqrt3Bounds(t);
    var extApex := CircleRadius + SmallTriangleSide * t.sqrt3 / 2.0;
    var innApex := InnerRadius() - LargeTriangleSide * t.sqrt3 / 2.0;
    ExteriorTriangleRadii(t, DegreesToRadians(t, ExteriorAngleDegrees(i)), CircleRadius, SmallTriangleSide);
    InteriorTriangleRadii(t, DegreesToRadians(t, InteriorAngleDegrees(i)), InnerRadius(), LargeTriangleSide);
    assert 221.6 < extApex < 221.7;
    assert 100.7 < innApex < 100.8;
    SquareBetween(221.6, extApex, 221.7);
    SquareBetween(100.7, innApex, 100.8);
  }

  /** Squaring keeps strict order between positive reals. */
  lemma SquareBetween(lo: real, x: real, hi: real)
    requires 0.0 < lo < x < hi
    ensures lo * lo < x * x < hi * hi
  {
    assert lo * lo < lo * x < x * x;
    assert x * x < x * hi < hi * hi;
  }

  /** The 36 rainbow triangles get 36 different colours, each hue within one turn. */
  lemma RainbowColorsDistinct(i: nat, j: nat)
    requires i < ExteriorTrianglesCount && j < ExteriorTrianglesCount
    ensures 0.0 <= GetRainbowColor(i).hue < 360.0
    ensures GetRainbowColor(i) == GetRainbowColor(j) <==> i == j
  {
    RainbowInjective(i, j);
  }

  /** The 5 interior triangles get the 5 palette colours, no two alike. */
  lemma InteriorColorsDistinct(i: nat, j: nat)
    requires i < InteriorTrianglesCount && j < InteriorTrianglesCount
    ensures GetInteriorTriangleColor(i) == GetInteriorTriangleColor(j) <==> i == j
  {
    InteriorColorSameIff(i, j);
  }
}
