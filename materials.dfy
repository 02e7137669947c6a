/**
 * The colours of the logo: the main ring's colour, the rainbow hue of the
 * exterior triangles, the five-colour palette of the interior triangles
 * and the translucent white of the centroid markers.
 *
 * A colour is a value of the engine's two colour spaces that are used
 * here, sRGB with alpha and HSL with alpha; the engine's material wrapper
 * around a colour is not modelled.
 */
module Materials {

  datatype Color =
    | Srgba(red: real, green: real, blue: real, alpha: real)
    | Hsla(hue: real, saturation: real, lightness: real, alpha: real)

  /** An opaque sRGB colour, as the engine's `srgb` constructor builds it. */
  function Srgb(red: real, green: real, blue: real): Color
  {
    Srgba(red, green, blue, 1.0)
  }

  /** An opaque HSL colour, as the engine's `hsl` constructor builds it. */
  function Hsl(hue: real, saturation: real, lightness: real): Color
  {
    Hsla(hue, saturation, lightness, 1.0)
  }

  /** The ring's colour: opaque red-orange, sRGB (0.8, 0.2, 0.1). */
  function GetMainCircleColor(): (c: Color)
    ensures c.Srgba? && c.alpha == 1.0
    ensures c.red == 0.8 && c.green == 0.2 && c.blue == 0.1
  {
    Srgb(0.8, 0.2, 0.1)
  }

  /**
   * The rainbow colour of exterior triangle `index`: the hue fraction
   * index·10/360 scaled back to degrees, so each triangle turns the hue by
   * 10°, at saturation 0.8 and lightness 0.6.
   */
  function GetRainbowColor(index: nat): (c: Color)
    ensures c == Hsl(10.0 * (index as real), 0.8, 0.6)
  {
    var hueFraction := (index as real * 10.0) / 360.0;
    var hueDegrees := hueFraction * 360.0;
    Hsl(hueDegrees, 0.8, 0.6)
  }

  /** The documented hues: index 0 is 0°, 9 is 90°, 18 is 180°, 27 is 270°. */
  lemma RainbowExamples()
    ensures GetRainbowColor(0).hue == 0.0
    ensures GetRainbowColor(9).hue == 90.0
    ensures GetRainbowColor(18).hue == 180.0
    ensures GetRainbowColor(27).hue == 270.0
  {
  }

  /** Two rainbow indices get the same colour exactly when they are equal. */
  lemma RainbowInjective(i: nat, j: nat)
    ensures GetRainbowColor(i) == GetRainbowColor(j) <==> i == j
  {
    if GetRainbowColor(i) == GetRainbowColor(j) {
      assert 10.0 * (i as real) == 10.0 * (j as real);
    }
  }

  const Azure := Srgb(0.2, 0.6, 0.9)
  const Orange := Srgb(0.9, 0.6, 0.2)
  const Emerald := Srgb(0.2, 0.9, 0.6)
  const Fuchsia := Srgb(0.9, 0.2, 0.6)
  const Violet := Srgb(0.6, 0.2, 0.9)

  /** The interior triangles' palette, in order. */
  function Palette(): (p: seq<Color>)
    ensures |p| == 5
    ensures forall j, k :: 0 <= j < k < |p| ==> p[j] != p[k]
  {
    [Azure, Orange, Emerald, Fuchsia, Violet]
  }

  /** The palette entry of interior triangle `index`, cycling every five. */
  function GetInteriorTriangleColor(index: nat): (c: Color)
    ensures c in Palette()
  {
    var colors := Palette();
    colors[index % |colors|]
  }

  /** Index 0..4 give azure, orange, emerald, fuchsia and violet, in that order. */
  lemma PaletteOrder()
    ensures GetInteriorTriangleColor(0) == Azure
    ensures GetInteriorTriangleColor(1) == Orange
    ensures GetInteriorTriangleColor(2) == Emerald
    ensures GetInteriorTriangleColor(3) == Fuchsia
    ensures GetInteriorTriangleColor(4) == Violet
  {
  }

  /** The lookup repeats every five indices; the documented index 7 is emerald. */
  lemma InteriorColorPeriodic(index: nat)
    ensures GetInteriorTriangleColor(index + 5) == GetInteriorTriangleColor(index)
    ensures GetInteriorTriangleColor(7) == Emerald
  {
    assert (index + 5) % 5 == index % 5;
  }

  /** Two indices get the same palette colour exactly when they agree modulo five. */
  lemma InteriorColorSameIff(i: nat, j: nat)
    ensures GetInteriorTriangleColor(i) == GetInteriorTriangleColor(j) <==> i % 5 == j % 5
  {
    var p := Palette();
    if i % 5 != j % 5 {
      if i % 5 < j % 5 {
        assert p[i % 5] != p[j % 5];
      } else {
        assert p[j % 5] != p[i % 5];
      }
    }
  }

  /** The centroid markers' colour: white at 70% opacity. */
  function GetSmallCircleColor(): (c: Color)
    ensures c.Srgba? && c.red == 1.0 && c.green == 1.0 && c.blue == 1.0
    ensures c.alpha == 0.7
  {
    Srgba(1.0, 1.0, 1.0, 0.7)
  }
}
