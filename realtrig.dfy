/**
 * Real-number stand-ins for the f32 mathematics the logo geometry calls:
 * `cos`, `sin`, the constant π and √3. The model does not fix them; it
 * takes them as a parameter of type `Trig`, so every property proved about
 * the geometry holds for any choice of these functions and constants that
 * meets the predicates a lemma asks for.
 */
module RealTrig {

  /** The transcendental operations used by the geometry, as values. */
  datatype Trig = Trig(cos: real -> real, sin: real -> real, pi: real, sqrt3: real)

  /** cos² + sin² = 1 at every angle: what makes `(r cos a, r sin a)` lie at radius r. */
  ghost predicate Pythagorean(t: Trig)
  {
    forall a: real :: t.cos(a) * t.cos(a) + t.sin(a) * t.sin(a) == 1.0
  }

  /** `sqrt3` is the positive square root of 3. */
  predicate IsSqrt3(t: Trig)
  {
    t.sqrt3 > 0.0 && t.sqrt3 * t.sqrt3 == 3.0
  }

  /** The positive square root of 3 lies strictly between 1.73 and 1.7321. */
  lemma Sqrt3Bounds(t: Trig)
    requires IsSqrt3(t)
    ensures 1.73 < t.sqrt3 < 1.7321
  {
    var s := t.sqrt3;
    assert s <= 1.73 ==> s * s <= 1.73 * 1.73;
    assert s >= 1.7321 ==> s * s >= 1.7321 * 1.7321;
  }
}
