# LogoRust geometry, colours and configuration in Dafny

This project models the computational core of a Bevy program that draws a
logo: a thick red-orange ring, 36 rainbow triangles standing on the ring's
outer edge, 5 coloured triangles hanging from its inner edge with a
translucent white disk at each centroid, and a letter "R" made of eight
polygons. The model covers three source files:

- `src/geometry.rs`:
  - angle conversion;
  - the four mesh builders: ring, filled disk, single triangle and fan-triangulated polygon;
  - placement of the exterior and interior triangles;
  - the triangle centroid;
  - the table of the eight parts of the "R".
- `src/materials.rs`: the four colour functions.
- `src/config.rs`: the constants, and what they imply about the assembled logo.

The Dafny modules are:

- `RealTrig` (`realtrig.dfy`): the trigonometric functions and the constants π and √3. They are a value of type `Trig` rather than fixed functions. Lemmas state the algebraic facts they rely on as requirements: cos² + sin² = 1, and √3 · √3 = 3.
- `Geometry` (`geometry.dfy`):
  - A mesh is plain data: a position buffer and an index buffer of triangles.
  - Every index goes through `AsU32`, Rust's wrapping `as u32` cast.
  - The three builders that push onto growing `Vec`s in loops are methods with the same loops. Each is proved equal to a closed-form specification function (`CircleMesh`, `FilledCircleMesh` and `PolygonFromPoints`), and the shape properties are proved about those functions.
  - An index buffer is a concatenation of blocks, one block per loop step (`Blocks`). The methods keep the invariant "the buffer so far is the first i blocks".
- `Materials` (`materials.dfy`): colours as sRGB or HSL values with alpha.
- `Config` (`config.dfy`): the constants, and lemmas that connect them to the builders and colours.

Two modelling choices:

- The polygon builder panics on fewer than three points. That panic is modelled as the result `Err(TooFewPoints)`, and `PolygonFromPoints` states that the error happens exactly when there are fewer than 3 points.
- The ring and disk builders accept any segment count, including 0, 1 and 2, and so do `CreateCircleMesh` and `CreateFilledCircleMesh`. No ring or disk member requires at least three segments.

## Model

| member | source | states |
|---|---|---|
| RealTrig.Sqrt3Bounds | src/geometry.rs:280 | the positive root of 3 used for the triangle height lies strictly between 1.73 and 1.7321 |
| Geometry.DegreesToRadians | src/geometry.rs:38-40 | degrees × π / 180; its contract is carried by `DegreesToRadiansExamples` |
| Geometry.DegreesToRadiansExamples | src/geometry.rs:31-39 | d·π/180 maps 0° to 0, 90° to π/2, 180° to π and 360° to 2π, and is additive |
| Geometry.AsU32 | src/geometry.rs:105-113 | the `as u32` cast gives a value below 2³², never above its input, and equal to its input when it fits |
| Geometry.PolarRadius | src/geometry.rs:79-83 | a vertex built as (r cos a, r sin a) lies at squared distance r² from the origin |
| Geometry.CircleVertices | src/geometry.rs:73-84 | n vertices, vertex i at angle 2π·i/n on the given radius, with z = 0 |
| Geometry.RingSegmentIndices | src/geometry.rs:101-113 | one segment pushes six indices, and for a segment of the ring each names one of the 2n vertices |
| Geometry.RingIndices | src/geometry.rs:99-114 | the ring's index buffer has 6n entries, every one below 2n |
| Geometry.CircleMesh | src/geometry.rs:63-66 | 2n positions (n outer, then n inner at the same angles), 6n indices, 2n triangles, and a well-formed triangle list |
| Geometry.RingSegment | src/geometry.rs:99-114 | entries 6i..6i+5 are (i, n+i, next) and (next, n+i, n+next), with next = i+1, or 0 for the last segment |
| Geometry.RingWrapsAround | src/geometry.rs:101 | the last segment emits (n-1, 2n-1, 0) and (0, 2n-1, n), closing the ring at outer vertex 0 and inner vertex n |
| Geometry.CreateCircleMesh | src/geometry.rs:67-123 | the three-loop builder returns exactly CircleMesh |
| Geometry.RingIndexLoop | src/geometry.rs:99-114 | the index loop, with `(i + 1) % segments`, pushes exactly RingIndices |
| Geometry.DiskTriangle | src/geometry.rs:159-167 | one step pushes three indices, and for a rim segment of the disk each is at most n; the exact triple is stated by `DiskFan` |
| Geometry.DiskIndices | src/geometry.rs:159-167 | the disk's index buffer has 3n entries, every one at most n |
| Geometry.FilledCircleMesh | src/geometry.rs:144-155 | n+1 positions, the first exactly (0,0,0) and then the n rim vertices, n triangles, well formed |
| Geometry.DiskFan | src/geometry.rs:159-167 | triangle i is (0, i+1, i+2), and the last is (0, n, 1) |
| Geometry.CreateFilledCircleMesh | src/geometry.rs:138-175 | the two-loop builder returns exactly FilledCircleMesh |
| Geometry.CreateTriangleFromPoints | src/geometry.rs:187-204 | the three points in order with z = 0, the index buffer [0, 1, 2], one well-formed triangle |
| Geometry.FanTriangle | src/geometry.rs:237-241 | one step pushes three indices, each at most j+2; the exact triple is stated by `PolygonFan` |
| Geometry.FanIndices | src/geometry.rs:234-241 | n-2 triangles, every index below n |
| Geometry.FlatPoints | src/geometry.rs:227-230 | the points in order, each placed at z = 0 |
| Geometry.PolygonFromPoints | src/geometry.rs:222-249 | an error exactly when there are fewer than 3 points; otherwise the points in order, n-2 fan triangles and a well-formed mesh |
| Geometry.PolygonFan | src/geometry.rs:234-241 | triangle j of the fan is (0, j+1, j+2) |
| Geometry.TriangleIsThreePointPolygon | src/geometry.rs:187-196 | the polygon builder on three points gives exactly the single-triangle mesh |
| Geometry.CreatePolygonFromPoints | src/geometry.rs:222-249 | the early-fail, map and loop builder returns exactly PolygonFromPoints |
| Geometry.BaseAngles | src/geometry.rs:283-285 | the two base angles are symmetric about the base angle and span an arc of length `side` on the circle |
| Geometry.ExteriorTrianglePoints | src/geometry.rs:274-307 | the two base points on the circle at the `BaseAngles` angles and the apex at radius R + height along the base angle; its contract is carried by `ExteriorTriangleRadii` |
| Geometry.InteriorTrianglePoints | src/geometry.rs:319-348 | the two base points on the inner circle at the `BaseAngles` angles and the apex at radius r − height along the base angle; its contract is carried by `InteriorTriangleRadii` |
| Geometry.ExteriorTriangleRadii | src/geometry.rs:274-307 | both base points lie on the circle, and the apex lies at radius R + side·√3/2 along the base angle |
| Geometry.InteriorTriangleRadii | src/geometry.rs:319-348 | both base points lie on the inner circle, and the apex lies at radius r − side·√3/2 along the base angle |
| Geometry.InteriorMirrorsExterior | src/geometry.rs:319-348 | on one circle the interior triangle shares the exterior triangle's base, and its apex mirrors the exterior apex through the circle point at the base angle |
| Geometry.TriangleCentroid | src/geometry.rs:364-369 | the deviations of the three vertices from the result sum to zero in x and in y, so the result is the coordinate-wise mean |
| Geometry.CentroidProperties | src/geometry.rs:355-369 | the centroid ignores vertex order, follows translations, and (0,0),(6,0),(0,6) gives (2,2) |
| Geometry.GetAllRParts | src/geometry.rs:423-526 | 8 parts with depths 0.40 + 0.01·k, strictly increasing and within [0.40, 0.50), each with 4 to 6 points |
| Geometry.AllRPartsBuild | src/systems/setup.rs:294-303 | every part of the table (src/geometry.rs:423-526) passes the three-point check that the scene and the builder make (src/geometry.rs:223), so none is skipped, and each yields \|points\| − 2 triangles |
| Materials.GetMainCircleColor | src/materials.rs:26-28 | opaque sRGB (0.8, 0.2, 0.1) |
| Materials.GetRainbowColor | src/materials.rs:45-60 | the hue (i·10/360)·360 is exactly 10·i degrees, with saturation 0.8, lightness 0.6 and full opacity |
| Materials.RainbowExamples | src/materials.rs:40-44 | indices 0, 9, 18 and 27 give hues 0°, 90°, 180° and 270° |
| Materials.RainbowInjective | src/materials.rs:45-60 | two indices give the same rainbow colour exactly when they are equal |
| Materials.Palette | src/materials.rs:78-84 | five colours, no two alike |
| Materials.GetInteriorTriangleColor | src/materials.rs:76-89 | the result is always one of the five palette colours |
| Materials.PaletteOrder | src/materials.rs:78-84 | indices 0..4 give azure, orange, emerald, fuchsia and violet, in that order |
| Materials.InteriorColorPeriodic | src/materials.rs:86-88 | indices i and i+5 give the same colour, and index 7 gives emerald |
| Materials.InteriorColorSameIff | src/materials.rs:88 | two indices give the same palette colour exactly when they agree modulo 5 |
| Materials.GetSmallCircleColor | src/materials.rs:101-103 | white at alpha 0.7 |
| Config.InnerRadius | src/systems/setup.rs:93-94 | the ring's inner radius is positive, below the outer radius, and CircleThickness below it |
| Config.ExteriorAngleDegrees | src/systems/setup.rs:150 | the 36 rainbow angles lie within one turn [0°, 360°) |
| Config.InteriorAngleDegrees | src/systems/setup.rs:206 | the 5 interior angles start at 90° and stay below 450° |
| Config.RecommendedRanges | src/config.rs:18-86 | every setting lies in its documented range, and both circle qualities have at least 3 segments |
| Config.EvenSpacing | src/config.rs:43-49 | 36 divides 360 with step 10°, 36 steps make 2π radians, and 5 interior steps of 72° make one turn |
| Config.ConfiguredMeshSizes | src/config.rs:39 | the configured ring has 128 vertices and 128 triangles, a marker disk 33 vertices and 32 triangles, and both are well formed |
| Config.ExteriorBasesOnOuterEdge | src/systems/setup.rs:154-158 | the ring's outer vertices and every rainbow triangle's base vertices lie at the same radius, 200 |
| Config.InteriorBasesOnInnerEdge | src/systems/setup.rs:210-216 | the ring's inner vertices and every interior triangle's base vertices lie at the same radius, 170 |
| Config.ApexClearance | src/config.rs:72 | rainbow apexes lie outside the ring, between radius 221.6 and 221.7; interior apexes lie in the hole, between radius 100.7 and 100.8, away from the centre |
| Config.RainbowColorsDistinct | src/config.rs:49 | the 36 rainbow triangles get 36 distinct colours, each with a hue in [0°, 360°) |
| Config.InteriorColorsDistinct | src/config.rs:66 | the 5 interior triangles get 5 distinct palette colours |

Items without a contract of their own, and so outside the table:

- the `Geometry.RPartDefinition` datatype (src/geometry.rs:381-394): a name, a contour and a draw depth;
- the `Config` constants, each the value declared in `src/config.rs`: `CircleRadius` (line 23), `CircleThickness` (30), `CircleSegments` (39), `ExteriorTrianglesCount` (49), `SmallTriangleSide` (55), `InteriorTrianglesCount` (66), `LargeTriangleSide` (72), `SmallCircleRadius` (80) and `SmallCircleSegments` (86). Their properties are stated by `Config.RecommendedRanges`, `Config.EvenSpacing` and the other `Config` lemmas.

## Left out

- f32 arithmetic: every coordinate, radius, angle, depth and colour component is an exact real. Rounding, infinities and NaN are not modelled.
- `cos`, `sin`, π and √3 are not computed. They are a `Trig` parameter, and lemmas state the algebraic facts they need (cos² + sin² = 1, √3 · √3 = 3). No claim depends on their numeric values beyond these facts.
- Engine types: Bevy's `Mesh` builder, its topology and asset-usage flags, `Vec2`/`Color`/`ColorMaterial`, and the wrapping of a colour into a material. A mesh is a pair of sequences, and a colour is a datatype.
- Geometry.CreatePolygonFromPoints: the panic aborts the program in the source. The model returns `Err(TooFewPoints)` instead and does not capture the abort.
- Geometry.BaseAngles: requires a non-zero radius. In f32, a zero radius divides by zero and gives infinite or NaN angles, a case the model does not represent.
- Geometry.ExteriorTrianglePoints: requires a non-zero radius, for the same reason.
- Geometry.InteriorTrianglePoints: requires a non-zero radius, for the same reason.
- Geometry.RingSegment: stated only when the 2n vertex numbers fit in u32. The builders model the wrapping cast, but the triangle shape beyond that size is not described.
- Geometry.RingWrapsAround: stated only when the 2n vertex numbers fit in u32, for the same reason.
- Geometry.DiskFan: stated only when n fits in u32, for the same reason.
- Geometry.PolygonFan: stated only when n fits in u32, for the same reason.
- Geometry.ExteriorTriangleRadii: does not claim the placed triangles are equilateral. The base half-angle side/2/R is a small-angle approximation, so the chord is not exactly `side`.
- Geometry.TriangleCentroid: does not state the documented claim that the centroid is equidistant from the three sides. That holds only for equilateral triangles; in general it describes the incentre.
- Geometry.GetAllRParts: the contours are data only. Their convexity or simplicity is not claimed. "Centre du R" lists its corners in crossing order, and "Pied gauche du R" repeats its first point as its last, which gives one degenerate fan triangle.
- Materials.GetRainbowColor: the hue is not reduced modulo 360. The source passes 10·i unreduced, and the colour library's own handling of hues outside [0, 360) is not modelled.
- Scene assembly in `src/systems/setup.rs` is not modelled: spawning entities, transforms, depth constants and printed summaries. Only its angle formulas and its use of the configuration appear, in `Config`. Its check that skips parts with fewer than three points is covered by `Geometry.AllRPartsBuild`.
- `src/lib.rs`, `src/main.rs` and `src/systems/mod.rs` hold only application and plugin wiring, and are not modelled.
