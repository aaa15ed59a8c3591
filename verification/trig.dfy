/** `calculateTrigValues` and `updateCalculatorDisplay` (components.js).
    The host's Math.sin, Math.cos and Math.tan are not modelled: their values
    at the angle's radian measure arrive as a `Sample`. */
module Trig {
  import opened JsArith
  import opened AngleMath
  import opened Wrappers

  /** What Math.sin, Math.cos and Math.tan returned for degToRad(angleDeg). */
  datatype Sample = Sample(sin: real, cos: real, tan: real)

  /** The record `calculateTrigValues` returns. */
  datatype TrigValues = TrigValues(sin: JsValue, cos: JsValue, tan: JsValue)

  /** The string shown instead of a number when the tangent is undefined. */
  const InfinityMarker: string := "∞"

  /** The first test of `calculateTrigValues`: `angleDeg % 90 === 0`. */
  predicate IsRightAngleMultiple(angleDeg: real) {
    Rem(angleDeg, 90.0) == 0.0
  }

  /** Both tests that lead to an infinite tangent:
      `angleDeg % 90 === 0` and then `angleDeg % 180 === 90`. */
  predicate TanUndefined(angleDeg: real) {
    Rem(angleDeg, 90.0) == 0.0 && Rem(angleDeg, 180.0) == 90.0
  }

  /** The same set of angles, described without `%`: the whole numbers
      90, 270, 450, ... (odd multiples of 90 that are not negative). */
  predicate NonNegativeOddRightAngle(angleDeg: real) {
    angleDeg.Floor as real == angleDeg
    && angleDeg.Floor >= 90
    && (angleDeg.Floor - 90) % 180 == 0
  }

  /** The truncated-remainder tests pick out exactly the non-negative odd
      multiples of 90: since `%` keeps the dividend's sign, -90 % 180 is -90
      and the negative odd multiples fail the second test. */
  lemma TanUndefinedIff(angleDeg: real)
    ensures TanUndefined(angleDeg) <==> NonNegativeOddRightAngle(angleDeg)
  {
    if TanUndefined(angleDeg) {
      var j := ((angleDeg - 90.0) / 180.0).Floor;
      assert angleDeg == 90.0 + 180.0 * j as real;
      assert 0.0 <= angleDeg;
      assert j >= 0;
      assert angleDeg.Floor == 90 + 180 * j;
      assert (angleDeg.Floor - 90) % 180 == (180 * j) % 180 == 0;
    }
    if NonNegativeOddRightAngle(angleDeg) {
      var j := (angleDeg.Floor - 90) / 180;
      assert angleDeg.Floor == 90 + 180 * j;
      assert j >= 0;
      assert angleDeg / 180.0 == j as real + 0.5;
      assert Trunc(angleDeg / 180.0) == j;
      assert angleDeg / 90.0 == (2 * j + 1) as real;
      assert Trunc(angleDeg / 90.0) == 2 * j + 1;
    }
  }

  /** Only whole multiples of 90 pass `angleDeg % 90 === 0`, so an angle
      with a fractional part always takes the general branch. */
  lemma RightAngleMultipleIsWhole(angleDeg: real)
    ensures IsRightAngleMultiple(angleDeg) <==>
              angleDeg.Floor as real == angleDeg && angleDeg.Floor % 90 == 0
  {
    if IsRightAngleMultiple(angleDeg) {
      // `Rem`'s contract gives MultipleOf(a - r, b); here the remainder r is 0.
      var j := ((angleDeg - 0.0) / 90.0).Floor;
      assert MultipleOf(angleDeg - 0.0, 90.0);
      assert angleDeg == 90.0 * j as real;
      assert angleDeg.Floor == 90 * j;
      assert (90 * j) % 90 == 0;
    }
    if angleDeg.Floor as real == angleDeg && angleDeg.Floor % 90 == 0 {
      WholeMultipleIsRightAngleMultiple(angleDeg.Floor / 90);
    }
  }

  lemma WholeMultipleIsRightAngleMultiple(j: int)
    ensures IsRightAngleMultiple(90.0 * j as real)
  {
    var a := 90.0 * j as real;
    assert a / 90.0 == j as real;
    assert Trunc(a / 90.0) == j;
  }

  /** The tangent chosen inside the special branch: +Infinity when
      `angleDeg % 360 === 90`, -Infinity for the other odd multiples of 90,
      and Math.tan otherwise. */
  function SpecialTangent(angleDeg: real, tan: real): (t: Number)
    requires IsRightAngleMultiple(angleDeg)
    ensures t.Finite? <==> !NonNegativeOddRightAngle(angleDeg)
    ensures t == PosInfinity <==>
              NonNegativeOddRightAngle(angleDeg) && (angleDeg.Floor - 90) % 360 == 0
    ensures t.Finite? ==> t.value == tan
  {
    TanUndefinedIff(angleDeg);
    if Rem(angleDeg, 180.0) == 90.0 then
      QuarterTurnSign(angleDeg);
      if Rem(angleDeg, 360.0) == 90.0 then PosInfinity else NegInfinity
    else
      Finite(tan)
  }

  /** For 90, 270, 450, ...: `% 360` is 90 exactly for 90, 450, 810, ... */
  lemma QuarterTurnSign(angleDeg: real)
    requires NonNegativeOddRightAngle(angleDeg)
    ensures Rem(angleDeg, 360.0) == 90.0 <==> (angleDeg.Floor - 90) % 360 == 0
  {
    var k := angleDeg.Floor;
    var j := (k - 90) / 180;
    assert k == 90 + 180 * j;
    if j % 2 == 0 {
      var i := j / 2;
      assert k == 90 + 360 * i;
      assert angleDeg / 360.0 == i as real + 0.25;
      assert Trunc(angleDeg / 360.0) == i;
      assert (k - 90) % 360 == (360 * i) % 360 == 0;
    } else {
      var i := j / 2;
      assert k == 270 + 360 * i;
      assert angleDeg / 360.0 == i as real + 0.75;
      assert Trunc(angleDeg / 360.0) == i;
      assert (k - 90) % 360 == (180 + 360 * i) % 360 == 180;
    }
  }

  /** `calculateTrigValues(angleDeg)`. Sine and cosine are always rounded
      numbers; the tangent is the "∞" string exactly for 90, 270, 450, ...
      and the rounded Math.tan value for every other angle (including -90). */
  function CalculateTrigValues(angleDeg: real, at: Sample): (r: TrigValues)
    ensures r.sin == Num(Finite(RoundNumber(at.sin)))
    ensures r.cos == Num(Finite(RoundNumber(at.cos)))
    ensures r.tan == Str(InfinityMarker) <==> NonNegativeOddRightAngle(angleDeg)
    ensures !NonNegativeOddRightAngle(angleDeg) ==> r.tan == Num(Finite(RoundNumber(at.tan)))
  {
    TanUndefinedIff(angleDeg);
    if IsRightAngleMultiple(angleDeg) then
      var tan := SpecialTangent(angleDeg, at.tan);
      TrigValues(
        RoundValue(Num(Finite(at.sin))),
        RoundValue(Num(Finite(at.cos))),
        if tan == PosInfinity || tan == NegInfinity then Str(InfinityMarker) else RoundValue(Num(tan)))
    else
      TrigValues(
        RoundValue(Num(Finite(at.sin))),
        RoundValue(Num(Finite(at.cos))),
        RoundValue(Num(Finite(at.tan))))
  }

  /** 90 and 270 reach opposite infinities inside the special branch, and
      both are shown as the same "∞"; 450 behaves like 90. */
  lemma InfinitiesCollapse(at: Sample)
    ensures SpecialTangent(90.0, at.tan) == PosInfinity
    ensures SpecialTangent(270.0, at.tan) == NegInfinity
    ensures SpecialTangent(450.0, at.tan) == PosInfinity
    ensures CalculateTrigValues(90.0, at).tan == Str(InfinityMarker)
    ensures CalculateTrigValues(270.0, at).tan == Str(InfinityMarker)
    ensures CalculateTrigValues(450.0, at).tan == Str(InfinityMarker)
  {
    assert NonNegativeOddRightAngle(90.0) && (90 - 90) % 360 == 0;
    assert NonNegativeOddRightAngle(270.0) && (270 - 90) % 360 != 0;
    assert NonNegativeOddRightAngle(450.0) && (450 - 90) % 360 == 0;
    assert Rem(90.0, 90.0) == 0.0 && Rem(270.0, 90.0) == 0.0 && Rem(450.0, 90.0) == 0.0;
  }

  /** -90 and -270 pass the first test but not the second, so they show a
      number; 0 and 180 are special angles with a numeric tangent. */
  lemma NegativeOddRightAnglesShowNumbers(at: Sample)
    ensures IsRightAngleMultiple(-90.0) && IsRightAngleMultiple(-270.0)
    ensures CalculateTrigValues(-90.0, at).tan == Num(Finite(RoundNumber(at.tan)))
    ensures CalculateTrigValues(-270.0, at).tan == Num(Finite(RoundNumber(at.tan)))
    ensures CalculateTrigValues(0.0, at).tan == Num(Finite(RoundNumber(at.tan)))
    ensures CalculateTrigValues(180.0, at).tan == Num(Finite(RoundNumber(at.tan)))
  {
    assert Rem(-90.0, 90.0) == 0.0 && Rem(-270.0, 90.0) == 0.0;
  }

  /** Worked values, with the double-precision samples Math.sin, Math.cos
      and Math.tan return near the exact values. */
  lemma WorkedExampleZero()
    ensures CalculateTrigValues(0.0, Sample(0.0, 1.0, 0.0))
              == TrigValues(Num(Finite(0.0)), Num(Finite(1.0)), Num(Finite(0.0)))
  {
    assert !NonNegativeOddRightAngle(0.0);
    RoundIsNearestGridPoint(0.0, 0);
    RoundIsNearestGridPoint(1.0, 1000);
  }

  lemma WorkedExampleThirty()
    ensures CalculateTrigValues(30.0, Sample(0.49999999999999994, 0.8660254037844387, 0.5773502691896257))
              == TrigValues(Num(Finite(0.5)), Num(Finite(0.866)), Num(Finite(0.577)))
  {
    assert !NonNegativeOddRightAngle(30.0);
    RoundIsNearestGridPoint(0.49999999999999994, 500);
    RoundIsNearestGridPoint(0.8660254037844387, 866);
    RoundIsNearestGridPoint(0.5773502691896257, 577);
  }

  lemma WorkedExampleFortyFive()
    ensures CalculateTrigValues(45.0, Sample(0.7071067811865475, 0.7071067811865476, 0.9999999999999999))
              == TrigValues(Num(Finite(0.707)), Num(Finite(0.707)), Num(Finite(1.0)))
  {
    assert !NonNegativeOddRightAngle(45.0);
    RoundIsNearestGridPoint(0.7071067811865475, 707);
    RoundIsNearestGridPoint(0.7071067811865476, 707);
    RoundIsNearestGridPoint(0.9999999999999999, 1000);
  }

  lemma WorkedExampleNinety()
    ensures CalculateTrigValues(90.0, Sample(1.0, 0.00000000000000006123233995736766, 16331239353195370.0))
              == TrigValues(Num(Finite(1.0)), Num(Finite(0.0)), Str(InfinityMarker))
  {
    InfinitiesCollapse(Sample(1.0, 0.00000000000000006123233995736766, 16331239353195370.0));
    RoundIsNearestGridPoint(0.00000000000000006123233995736766, 0);
    RoundIsNearestGridPoint(1.0, 1000);
  }

  /** The text fields `updateCalculatorDisplay` writes. The three main fields
      are always on the page; the unit-circle readouts (`circleSin`,
      `circleCos`, `circleCoords`) may each be missing. The coordinate pair
      stands for the "(cos, sin)" text. */
  datatype Display = Display(
    sinValue: JsValue, cosValue: JsValue, tanValue: JsValue,
    circleSin: Option<JsValue>, circleCos: Option<JsValue>,
    circleCoords: Option<(JsValue, JsValue)>)

  predicate HasCircleReadouts(d: Display) {
    d.circleSin.Some? && d.circleCos.Some? && d.circleCoords.Some?
  }

  /** `updateCalculatorDisplay(angleDeg)`: the main fields always show the
      computed values; the circle readouts are written only when all three
      exist, and are otherwise left exactly as they were. */
  function UpdateCalculatorDisplay(d: Display, angleDeg: real, at: Sample): (d': Display)
    ensures var v := CalculateTrigValues(angleDeg, at);
            d'.sinValue == v.sin && d'.cosValue == v.cos && d'.tanValue == v.tan
    ensures HasCircleReadouts(d') <==> HasCircleReadouts(d)
    ensures HasCircleReadouts(d) ==>
              d'.circleSin == Some(d'.sinValue) && d'.circleCos == Some(d'.cosValue)
              && d'.circleCoords == Some((d'.cosValue, d'.sinValue))
    ensures !HasCircleReadouts(d) ==>
              d'.circleSin == d.circleSin && d'.circleCos == d.circleCos
              && d'.circleCoords == d.circleCoords
  {
    var v := CalculateTrigValues(angleDeg, at);
    var d1 := d.(sinValue := v.sin, cosValue := v.cos, tanValue := v.tan);
    if HasCircleReadouts(d) then
      d1.(circleSin := Some(v.sin), circleCos := Some(v.cos), circleCoords := Some((v.cos, v.sin)))
    else
      d1
  }

  /** Showing the same angle twice leaves the display as after the first
      time; when the circle readouts exist, every field is rewritten, so the
      result does not depend on the previously shown values. */
  lemma UpdateIdempotent(d: Display, e: Display, angleDeg: real, at: Sample)
    requires HasCircleReadouts(d) == HasCircleReadouts(e)
    ensures UpdateCalculatorDisplay(UpdateCalculatorDisplay(d, angleDeg, at), angleDeg, at)
              == UpdateCalculatorDisplay(d, angleDeg, at)
    ensures HasCircleReadouts(d) ==>
              UpdateCalculatorDisplay(d, angleDeg, at) == UpdateCalculatorDisplay(e, angleDeg, at)
  {
  }
}
