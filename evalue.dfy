/**
 * The E-value of VanderWeele and Ding (2017) as the DAG advisor computes it:
 * `E = r + sqrt(r * (r - 1))`, where a ratio at or below 1 is first replaced by its
 * reciprocal, an E-value for the confidence bound nearer to 1, and a robustness tier.
 *
 * `math.sqrt` is a parameter: any function that returns the non-negative square root of
 * every non-negative real (`IsSqrt`). Rounding to two decimals is not modelled.
 */
module EValues {
  import opened Common

  ghost predicate IsSqrt(sqrt: real -> real)
  {
    forall x: real :: 0.0 <= x ==> 0.0 <= sqrt(x) && sqrt(x) * sqrt(x) == x
  }

  datatype Tier = Weak | Moderate | Strong

  datatype EValue = EValue(pointEstimate: real, ciBound: Option<real>,
                           interpretation: string, robustness: Tier)

  const WeakText := "Low robustness to unmeasured confounding. Small bias could explain the effect."
  const ModerateText := "Moderate robustness. Unmeasured confounder would need moderate association with both exposure and outcome."
  const StrongText := "Strong robustness. Unmeasured confounder would need strong association with both exposure and outcome."

  function Abs(x: real): real { if x < 0.0 then -x else x }

  /** A ratio at or below 1 is replaced by its reciprocal (the protective-effect rule). */
  function Normalize(effect: real): real
    requires effect != 0.0
  {
    if effect <= 1.0 then 1.0 / effect else effect
  }

  /** `r + sqrt(r * (r - 1))` on a ratio for which the square root is defined. */
  function Formula(sqrt: real -> real, r: real): real
  {
    r + sqrt(r * (r - 1.0))
  }

  /** The E-value of a non-zero ratio, after normalisation. */
  function PointE(sqrt: real -> real, effect: real): real
    requires effect != 0.0
  {
    Formula(sqrt, Normalize(effect))
  }

  /** After normalisation the argument of the square root is never negative. */
  lemma NormalizedInDomain(effect: real)
    requires effect != 0.0
    ensures Normalize(effect) * (Normalize(effect) - 1.0) >= 0.0
    ensures effect > 0.0 ==> Normalize(effect) >= 1.0
    ensures 0.0 < effect < 1.0 || effect > 1.0 ==> Normalize(effect) > 1.0
  {
    if effect <= 1.0 {
      Reciprocal(effect);
    }
  }

  /** Where the reciprocal of a non-zero real lies. */
  lemma Reciprocal(e: real)
    requires e != 0.0
    ensures e * (1.0 / e) == 1.0
    ensures 0.0 < e <= 1.0 ==> 1.0 / e >= 1.0
    ensures 0.0 < e < 1.0 ==> 1.0 / e > 1.0
    ensures 1.0 < e ==> 0.0 < 1.0 / e < 1.0
    ensures e < 0.0 ==> 1.0 / e < 0.0
  {
    var r := 1.0 / e;
    assert e * r == 1.0;
    assert r - 1.0 == (1.0 - e) / e;
  }

  /** Which bound is used: the one nearer to 1, and the upper one on a tie. */
  function ClosestToNull(lower: real, upper: real): (c: real)
    ensures c == lower || c == upper
    ensures Abs(c - 1.0) <= Abs(lower - 1.0) && Abs(c - 1.0) <= Abs(upper - 1.0)
    ensures Abs(lower - 1.0) == Abs(upper - 1.0) ==> c == upper
  {
    if Abs(lower - 1.0) < Abs(upper - 1.0) then lower else upper
  }

  /** The truth value of an optional float: present and non-zero. */
  predicate Truthy(o: Option<real>)
  {
    o.Some? && o.value != 0.0
  }

  function TierOf(e: real): (t: Tier)
    ensures t == Weak <==> e < 1.5
    ensures t == Moderate <==> 1.5 <= e < 2.0
    ensures t == Strong <==> 2.0 <= e
  {
    if e < 1.5 then Weak else if e < 2.0 then Moderate else Strong
  }

  function Interpretation(t: Tier): string
  {
    match t
    case Weak => WeakText
    case Moderate => ModerateText
    case Strong => StrongText
  }

  /** The E-value of the confidence bound nearer to 1, computed only when both bounds are
      truthy, and kept only when it is truthy itself (which it always is). */
  function CiEValue(sqrt: real -> real, ciLower: Option<real>, ciUpper: Option<real>): (ci: Option<real>)
    requires IsSqrt(sqrt)
    ensures ci.Some? <==> Truthy(ciLower) && Truthy(ciUpper)
    ensures ci.Some? ==> ci.value == PointE(sqrt, ClosestToNull(ciLower.value, ciUpper.value))
  {
    if Truthy(ciLower) && Truthy(ciUpper) then
      var c := ClosestToNull(ciLower.value, ciUpper.value);
      // a bound above 1 is used as is, any other is inverted
      var t := if c > 1.0 then c else 1.0 / c;
      var e := Formula(sqrt, t);
      assert t == Normalize(c);
      EValueNotZero(sqrt, c);
      if e != 0.0 then Some(e) else None
    else None
  }

  /** `calculate_e_value`. The effect measure is accepted and ignored, as in the implementation. */
  function CalculateEValue(sqrt: real -> real, effectMeasure: string, effectSize: real,
                           ciLower: Option<real>, ciUpper: Option<real>): (r: Result<EValue>)
    requires IsSqrt(sqrt)
    ensures r.Failure? <==> effectSize == 0.0
    ensures r.Failure? ==> r.error == ZeroDivisionError
    ensures r.Success? ==> r.value.pointEstimate == PointE(sqrt, effectSize)
    ensures r.Success? ==> r.value.robustness == TierOf(r.value.pointEstimate)
    ensures r.Success? ==> r.value.interpretation == Interpretation(r.value.robustness)
    ensures r.Success? ==> r.value.ciBound == CiEValue(sqrt, ciLower, ciUpper)
  {
    if effectSize == 0.0 then Failure(ZeroDivisionError)
    else
      var r := if effectSize <= 1.0 then 1.0 / effectSize else effectSize;
      var point := Formula(sqrt, r);
      assert r == Normalize(effectSize);
      var tier := TierOf(point);
      Success(EValue(point, CiEValue(sqrt, ciLower, ciUpper), Interpretation(tier), tier))
  }

  // ---------- algebraic facts about the formula ----------

  lemma SqrtOfSquare(sqrt: real -> real, a: real)
    requires IsSqrt(sqrt) && 0.0 <= a
    ensures sqrt(a * a) == a
  {
    var s := sqrt(a * a);
    assert 0.0 <= a * a;
    assert s >= 0.0 && s * s == a * a;
    assert (s - a) * (s + a) == 0.0;
    if s + a != 0.0 {
      assert s - a == ((s - a) * (s + a)) / (s + a);
    }
  }

  lemma SqrtStrictlyIncreasing(sqrt: real -> real, a: real, b: real)
    requires IsSqrt(sqrt) && 0.0 <= a < b
    ensures sqrt(a) < sqrt(b)
  {
    var sa, sb := sqrt(a), sqrt(b);
    assert sa >= 0.0 && sa * sa == a;
    assert sb >= 0.0 && sb * sb == b;
    assert sb != 0.0;
    var d := sb + sa;
    assert d > 0.0;
    assert (sb - sa) * d == b - a;
  }

  /** A negative normalised ratio t gives t + sqrt(t(t-1)) > 0, so the bound is never dropped
      by the truth test on its E-value. */
  lemma EValueNotZero(sqrt: real -> real, c: real)
    requires IsSqrt(sqrt) && c != 0.0
    ensures PointE(sqrt, c) != 0.0
  {
    NormalizedInDomain(c);
    var t := Normalize(c);
    if t < 0.0 {
      var m := -t;
      SqrtOfSquare(sqrt, m);
      assert t * (t - 1.0) == m * m + m;
      SqrtStrictlyIncreasing(sqrt, m * m, m * m + m);
      assert sqrt(t * (t - 1.0)) > m;
    } else {
      assert sqrt(t * (t - 1.0)) >= 0.0;
    }
  }

  /** For every positive ratio the E-value is at least 1, and equals 1 exactly at no effect. */
  lemma EValueAtLeastOne(sqrt: real -> real, effect: real)
    requires IsSqrt(sqrt) && effect > 0.0
    ensures PointE(sqrt, effect) >= 1.0
    ensures PointE(sqrt, effect) == 1.0 <==> effect == 1.0
  {
    NormalizedInDomain(effect);
    var r := Normalize(effect);
    assert sqrt(r * (r - 1.0)) >= 0.0;
    if effect == 1.0 {
      assert r == 1.0;
      SqrtOfSquare(sqrt, 0.0);
    }
  }

  /** A ratio and its reciprocal have the same E-value (protective-effect symmetry). */
  lemma EValueSymmetric(sqrt: real -> real, x: real)
    requires x > 0.0
    ensures PointE(sqrt, x) == PointE(sqrt, 1.0 / x)
  {
    Reciprocal(x);
    var y := 1.0 / x;
    Reciprocal(y);
    assert 1.0 / y == x;
  }

  /** Above 1 the formula is strictly increasing. */
  lemma FormulaStrictlyIncreasing(sqrt: real -> real, r1: real, r2: real)
    requires IsSqrt(sqrt) && r1 > r2 >= 1.0
    ensures Formula(sqrt, r1) > Formula(sqrt, r2)
  {
    assert r2 * (r2 - 1.0) >= 0.0;
    assert r1 * (r1 - 1.0) > r2 * (r2 - 1.0) by {
      assert r1 * (r1 - 1.0) - r2 * (r2 - 1.0) == (r1 - r2) * (r1 + r2 - 1.0);
      assert (r1 - r2) * (r1 + r2 - 1.0) > 0.0;
    }
    SqrtStrictlyIncreasing(sqrt, r2 * (r2 - 1.0), r1 * (r1 - 1.0));
  }

  /** The worked example: RR 1.5 with CI 1.2 to 1.9 gives about 2.37 (strong) and, from the
      lower bound, about 1.69. */
  lemma WorkedExample(sqrt: real -> real)
    requires IsSqrt(sqrt)
    ensures var r := CalculateEValue(sqrt, "RR", 1.5, Some(1.2), Some(1.9));
      && r.Success?
      && 2.366 < r.value.pointEstimate < 2.367
      && r.value.robustness == Strong
      && r.value.ciBound.Some?
      && 1.689 < r.value.ciBound.value < 1.69
  {
    assert 1.5 * (1.5 - 1.0) == 0.75;
    SqrtOfSquare(sqrt, 0.866);
    SqrtOfSquare(sqrt, 0.867);
    SqrtStrictlyIncreasing(sqrt, 0.866 * 0.866, 0.75);
    SqrtStrictlyIncreasing(sqrt, 0.75, 0.867 * 0.867);
    assert ClosestToNull(1.2, 1.9) == 1.2;
    assert 1.2 * (1.2 - 1.0) == 0.24;
    SqrtOfSquare(sqrt, 0.489);
    SqrtOfSquare(sqrt, 0.49);
    SqrtStrictlyIncreasing(sqrt, 0.489 * 0.489, 0.24);
    SqrtStrictlyIncreasing(sqrt, 0.24, 0.49 * 0.49);
  }
}
