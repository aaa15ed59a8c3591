/** Degree/radian conversion and the display rounding of `roundValue`
    (components.js). Arithmetic is over exact reals; the host's Math.PI is a
    parameter because pi is not a Dafny real literal. */
module AngleMath {
  import opened JsArith

  /** `degToRad`: degrees times pi/180. */
  function DegToRad(degrees: real, pi: real): (radians: real)
    requires pi > 0.0
    ensures radians * 180.0 == degrees * pi
    ensures degrees == 180.0 ==> radians == pi
    ensures 0.0 < degrees <==> 0.0 < radians
  {
    degrees * (pi / 180.0)
  }

  /** `radToDeg`: radians times 180/pi. */
  function RadToDeg(radians: real, pi: real): (degrees: real)
    requires pi > 0.0
    ensures degrees * pi == radians * 180.0
    ensures radians == pi ==> degrees == 180.0
    ensures 0.0 < radians <==> 0.0 < degrees
  {
    radians * (180.0 / pi)
  }

  /** The two conversions undo each other. */
  lemma DegRadRoundTrip(degrees: real, radians: real, pi: real)
    requires pi > 0.0
    ensures RadToDeg(DegToRad(degrees, pi), pi) == degrees
    ensures DegToRad(RadToDeg(radians, pi), pi) == radians
  {
    assert (pi / 180.0) * (180.0 / pi) == 1.0;
  }

  /** `roundValue`'s default precision: three decimals, i.e. a grid of
      step 1/1000 (Math.pow(10, 3)). */
  const Scale: real := 1000.0

  /** Half a unit in the last kept decimal place. */
  const HalfStep: real := 0.5 / Scale

  /** `x` has at most three digits after the decimal point. */
  predicate OnGrid(x: real) {
    (x * Scale).Floor as real == x * Scale
  }

  /** A JavaScript value as `roundValue` sees it: a number, or anything
      else (here: a string). */
  datatype JsValue = Num(n: Number) | Str(s: string)

  /** The numeric core of `roundValue`: Math.round(v * 1000) / 1000. The
      result is on the 1/1000 grid and within half a step of `v`. */
  function RoundNumber(v: real): (r: real)
    ensures OnGrid(r)
    ensures v - HalfStep < r <= v + HalfStep
  {
    Round(v * Scale) as real / Scale
  }

  /** The rounded value is the one grid point in the window
      (v - half step, v + half step]: any grid point `k / 1000` in that
      window is the result. Together with `RoundNumber`'s contract this pins
      the result down without reference to Math.round. */
  lemma RoundIsNearestGridPoint(v: real, k: int)
    requires v - HalfStep < k as real / Scale <= v + HalfStep
    ensures RoundNumber(v) == k as real / Scale
  {
    RoundUnique(v * Scale, k);
  }

  /** Rounding an already rounded value changes nothing. */
  lemma RoundIdempotent(v: real)
    ensures RoundNumber(RoundNumber(v)) == RoundNumber(v)
  {
    var r := RoundNumber(v);
    RoundIsNearestGridPoint(r, (r * Scale).Floor);
  }

  /** A value exactly halfway between two grid points rounds to the upper
      one, whatever its sign: Math.round's ties go toward +infinity. */
  lemma RoundHalfUp(k: int)
    ensures RoundNumber((k as real + 0.5) / Scale) == (k + 1) as real / Scale
  {
    RoundIsNearestGridPoint((k as real + 0.5) / Scale, k + 1);
  }

  /** 0.0005 rounds up to 0.001 and -0.0005 rounds up to zero (not away
      from zero). */
  lemma DisplayRoundingTies()
    ensures RoundNumber(0.0005) == 0.001
    ensures RoundNumber(-0.0005) == 0.0
    ensures RoundNumber(-1.2345) == -1.234
  {
    RoundHalfUp(0);
    RoundHalfUp(-1);
    RoundHalfUp(-1235);
  }

  /** `roundValue(value)`: non-numbers are returned unchanged, and so are
      the infinities (Math.round keeps them). */
  function RoundValue(value: JsValue): (r: JsValue)
    ensures !value.Num? ==> r == value
    ensures value.Num? ==> r.Num?
    ensures value.Num? && value.n.Finite? ==>
              r.n.Finite? && OnGrid(r.n.value)
              && value.n.value - HalfStep < r.n.value <= value.n.value + HalfStep
    ensures value.Num? && !value.n.Finite? ==> r == value
  {
    match value
    case Num(Finite(v)) => Num(Finite(RoundNumber(v)))
    case _ => value
  }
}
