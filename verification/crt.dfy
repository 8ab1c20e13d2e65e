/**
 Shared vocabulary of the three CRT post-process variants: the two crate-wide
 thresholds, the clamp every `*` operator applies to its scale factor, the
 floor applied to the glow field, and the readiness of the two uniform
 bindings every node needs before it may draw.

 Settings fields are `f32` in the crate; here they are `real`, so rounding is
 not modelled.
 */
module Crt {

  /** At or below this an effect amount counts as "off" for pass skipping. */
  const MinAmount: real := 0.001

  /** Smallest scale factor a settings record is ever multiplied by. */
  const MinScale: real := 0.01

  /** Glow/bloom-trigger fields never fall below unit intensity. */
  const GlowFloor: real := 1.0

  /** The scale factor actually used: `factor.max(MIN_SCALE)`. */
  function ClampScale(factor: real): (c: real)
    ensures c >= MinScale
    ensures factor >= MinScale ==> c == factor
    ensures factor <= MinScale ==> c == MinScale
  {
    if factor >= MinScale then factor else MinScale
  }

  /** A scaled glow value, floored at unit intensity: `(g * c).max(1.0)`. */
  function FloorGlow(scaled: real): (g: real)
    ensures g >= GlowFloor
    ensures scaled >= GlowFloor ==> g == scaled
    ensures scaled <= GlowFloor ==> g == GlowFloor
  {
    if scaled >= GlowFloor then scaled else GlowFloor
  }

  /**
   An ordinary field under the `*` operator: multiplied by the clamped
   factor. A zero or negative factor never switches a non-zero field off.
   */
  function ScaleAmount(x: real, factor: real): (y: real)
    ensures factor >= MinScale ==> y == x * factor
    ensures factor <= MinScale ==> y == x * MinScale
    ensures y == 0.0 <==> x == 0.0
    ensures x >= 0.0 ==> y >= 0.0
  {
    x * ClampScale(factor)
  }

  /** A glow field under the `*` operator: scaled like any field, then floored at 1. */
  function ScaleGlow(g: real, factor: real): (y: real)
    ensures y >= GlowFloor
    ensures y >= ScaleAmount(g, factor)
    ensures y == GlowFloor || y == ScaleAmount(g, factor)
  {
    FloorGlow(ScaleAmount(g, factor))
  }

  /** Whether the settings uniform and the engine globals uniform are bound. */
  datatype Bindings = Bindings(settings: bool, globals: bool) {
    predicate Ready() {
      settings && globals
    }
  }

  /** A larger factor never gives a non-negative field less. */
  lemma ScaleAmountMonotone(x: real, f1: real, f2: real)
    requires x >= 0.0 && f1 <= f2
    ensures ScaleAmount(x, f1) <= ScaleAmount(x, f2)
  {
    var c1, c2 := ClampScale(f1), ClampScale(f2);
    var d := c2 - c1;
    assert x * d >= 0.0;
    assert x * c2 == x * c1 + x * d;
  }

  /** A larger factor never gives a glow field less; a negative one floors to 1 at every factor. */
  lemma ScaleGlowMonotone(g: real, f1: real, f2: real)
    requires f1 <= f2
    ensures ScaleGlow(g, f1) <= ScaleGlow(g, f2)
  {
    if g >= 0.0 {
      ScaleAmountMonotone(g, f1, f2);
      FloorGlowMonotone(ScaleAmount(g, f1), ScaleAmount(g, f2));
    }
  }

  /** Scaling by 1 leaves a field alone, and a glow field already at least 1. */
  lemma ScaleByOne(x: real)
    ensures ScaleAmount(x, 1.0) == x
    ensures x >= GlowFloor ==> ScaleGlow(x, 1.0) == x
  {
  }

  /**
   A factor `a` at or above MIN_SCALE followed by a damping factor `b` in
   [MIN_SCALE, 1], with the product still at or above MIN_SCALE, compose into
   one, for plain fields and for glow fields. The bound on `b` is what the
   glow floor needs: it is applied between the two steps, and only a second
   factor of at most 1 keeps a floored 1 from rising above the floor again.
   */
  lemma ScaleDamping(x: real, a: real, b: real)
    requires MinScale <= a && MinScale <= b <= 1.0
    requires a * b >= MinScale
    ensures ScaleAmount(ScaleAmount(x, a), b) == ScaleAmount(x, a * b)
    ensures ScaleGlow(ScaleGlow(x, a), b) == ScaleGlow(x, a * b)
  {
    var xa := x * a;
    assert ScaleAmount(x, a) == xa;
    assert ScaleAmount(xa, b) == xa * b;
    assert ScaleAmount(x, a * b) == x * (a * b);
    assert xa * b == x * (a * b);
    GlowFloorDamped(xa, b);
    assert ScaleGlow(x, a) == FloorGlow(xa);
    assert ScaleAmount(FloorGlow(xa), b) == FloorGlow(xa) * b;
  }

  /** Flooring, damping by `b <= 1` and flooring again is flooring once. */
  lemma GlowFloorDamped(x: real, b: real)
    requires 0.0 < b <= 1.0
    ensures FloorGlow(FloorGlow(x) * b) == FloorGlow(x * b)
  {
    if x < GlowFloor {
      var d := GlowFloor - x;
      assert d * b > 0.0;
      assert GlowFloor * b == x * b + d * b;
    }
  }

  /** A field is left as it was exactly when it is zero or the clamped factor is 1. */
  lemma ScaleAmountFixed(x: real, factor: real)
    ensures ScaleAmount(x, factor) == x <==> x == 0.0 || ClampScale(factor) == 1.0
  {
    var c := ClampScale(factor);
    assert x * c - x == x * (c - 1.0);
  }

  /** The glow floor preserves order. */
  lemma FloorGlowMonotone(x: real, y: real)
    requires x <= y
    ensures FloorGlow(x) <= FloorGlow(y)
  {
  }
}
