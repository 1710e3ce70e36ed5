/**
 * The suitability score of a soil sample for a crop: the relative deviation
 * of each of the seven readings from the crop's ideal, weighted and turned
 * into a 0-100 score (recommendationService.ts lines 761-784).
 */
module Scoring {
  import opened Wrappers
  import opened Soil
  import opened CropCatalog

  function Abs(x: real): real
  {
    if x < 0.0 then -x else x
  }

  /** `ideal.f || 0`: the value a reading is compared against; an absent or zero ideal gives 0. */
  function Target(ideal: Option<real>): real
  {
    if ideal.Some? && ideal.value != 0.0 then ideal.value else 0.0
  }

  /** `ideal.f || 1`: the divisor of the deviation, never zero. */
  function Denominator(ideal: Option<real>): (d: real)
    ensures d != 0.0
    ensures d == 1.0 <== ideal.None? || ideal.value == 0.0
  {
    if ideal.Some? && ideal.value != 0.0 then ideal.value else 1.0
  }

  /** `Math.abs((actual - (ideal || 0)) / (ideal || 1))`. */
  function Deviation(actual: real, ideal: Option<real>): (d: real)
    ensures d >= 0.0
    ensures d == 0.0 <==> actual == Target(ideal)
  {
    Abs((actual - Target(ideal)) / Denominator(ideal))
  }

  /** The weight of each field: 0.15 for the six soil and climate readings, 0.1 for rainfall. */
  function Weight(f: Field): (w: real)
    ensures w > 0.0
  {
    if f == Rainfall then 0.1 else 0.15
  }

  /** `nitrogenDiff` ... `rainfallDiff`: the seven deviations of `s` from `ideal`, as a vector of the same shape. */
  function Deviations(s: SoilData, ideal: PartialSoil): SoilData
  {
    SoilData(
      Deviation(s.nitrogen, ideal.nitrogen),
      Deviation(s.phosphorus, ideal.phosphorus),
      Deviation(s.potassium, ideal.potassium),
      Deviation(s.temperature, ideal.temperature),
      Deviation(s.humidity, ideal.humidity),
      Deviation(s.ph, ideal.ph),
      Deviation(s.rainfall, ideal.rainfall))
  }

  /** The weighted sum of a vector of deviations, in the source's order. */
  function Weighted(d: SoilData): real
  {
    d.nitrogen * Weight(Nitrogen) + d.phosphorus * Weight(Phosphorus) + d.potassium * Weight(Potassium) +
    d.temperature * Weight(Temperature) + d.humidity * Weight(Humidity) + d.ph * Weight(Ph) +
    d.rainfall * Weight(Rainfall)
  }

  /** `totalDiff`: the weighted sum of the seven deviations. */
  function TotalDeviation(s: SoilData, ideal: PartialSoil): real
  {
    Weighted(Deviations(s, ideal))
  }

  /** `Math.max(0, Math.min(100, 100 - totalDiff * 100))`. */
  function SuitabilityScore(s: SoilData, ideal: PartialSoil): (r: real)
    ensures 0.0 <= r <= 100.0
  {
    var raw := 100.0 - TotalDeviation(s, ideal) * 100.0;
    if raw > 100.0 then 100.0 else if raw < 0.0 then 0.0 else raw
  }

  /** The deviation of the field `f` of `s`, as `TotalDeviation` weighs it. */
  function FieldDeviation(s: SoilData, ideal: PartialSoil, f: Field): real
  {
    Deviation(Get(s, f), IdealOf(ideal, f))
  }

  /** The reading `f` of `s` equals its target. */
  predicate OnTarget(s: SoilData, ideal: PartialSoil, f: Field)
  {
    Get(s, f) == Target(IdealOf(ideal, f))
  }

  /** An absent or zero ideal compares the raw reading with 0 and divides by 1. */
  lemma ZeroIdealUsesRawReading(actual: real, ideal: Option<real>)
    requires ideal.None? || ideal.value == 0.0
    ensures Deviation(actual, ideal) == Abs(actual)
  {
  }

  lemma TotalDeviationNonNegative(s: SoilData, ideal: PartialSoil)
    ensures TotalDeviation(s, ideal) >= 0.0
  {
    DeviationsNonNegative(s, ideal);
    WeightedZeroIff(Deviations(s, ideal));
  }

  /** The weighted sum is zero exactly when every reading is on its target. */
  lemma TotalDeviationZeroIffOnTarget(s: SoilData, ideal: PartialSoil)
    ensures TotalDeviation(s, ideal) == 0.0 <==> forall f :: OnTarget(s, ideal, f)
  {
    var d := Deviations(s, ideal);
    DeviationsNonNegative(s, ideal);
    WeightedZeroIff(d);
    forall f ensures Get(d, f) == 0.0 <==> OnTarget(s, ideal, f) {
      GetDeviations(s, ideal, f);
    }
  }

  /** Every entry of the deviation vector is non-negative. */
  lemma DeviationsNonNegative(s: SoilData, ideal: PartialSoil)
    ensures forall f :: Get(Deviations(s, ideal), f) >= 0.0
  {
    forall f ensures Get(Deviations(s, ideal), f) >= 0.0 {
      GetDeviations(s, ideal, f);
    }
  }

  /** A weighted sum of non-negative entries is non-negative, and zero exactly when every entry is. */
  lemma WeightedZeroIff(d: SoilData)
    requires forall f :: Get(d, f) >= 0.0
    ensures Weighted(d) >= 0.0
    ensures Weighted(d) == 0.0 <==> forall f :: Get(d, f) == 0.0
  {
    assert Get(d, Nitrogen) >= 0.0 && Get(d, Phosphorus) >= 0.0 && Get(d, Potassium) >= 0.0;
    assert Get(d, Temperature) >= 0.0 && Get(d, Humidity) >= 0.0 && Get(d, Ph) >= 0.0;
    assert Get(d, Rainfall) >= 0.0;
    if Weighted(d) == 0.0 {
      forall f ensures Get(d, f) == 0.0 {
        match f
        case Nitrogen =>
        case Phosphorus =>
        case Potassium =>
        case Temperature =>
        case Humidity =>
        case Ph =>
        case Rainfall =>
      }
    }
  }

  /** Entry `f` of the deviation vector is the deviation of reading `f`. */
  lemma GetDeviations(s: SoilData, ideal: PartialSoil, f: Field)
    ensures Get(Deviations(s, ideal), f) == FieldDeviation(s, ideal, f)
  {
    match f
    case Nitrogen =>
    case Phosphorus =>
    case Potassium =>
    case Temperature =>
    case Humidity =>
    case Ph =>
    case Rainfall =>
  }

  /** The score is 100 exactly when every reading is on its target. */
  lemma ScoreIsHundredIffOnTarget(s: SoilData, ideal: PartialSoil)
    ensures SuitabilityScore(s, ideal) == 100.0 <==> forall f :: OnTarget(s, ideal, f)
  {
    TotalDeviationNonNegative(s, ideal);
    TotalDeviationZeroIffOnTarget(s, ideal);
  }

  /** A sample equal to a complete ideal vector scores exactly 100. */
  lemma ExactSampleScoresHundred(s: SoilData, ideal: PartialSoil)
    requires forall f :: IdealOf(ideal, f) == Some(Get(s, f))
    ensures SuitabilityScore(s, ideal) == 100.0
  {
    forall f ensures OnTarget(s, ideal, f) {
    }
    ScoreIsHundredIffOnTarget(s, ideal);
  }

  /** Rice's ideal vector, read as a sample. */
  const RiceSample: SoilData := SoilData(80.0, 40.0, 40.0, 25.0, 80.0, 6.5, 200.0)

  /** The ideal vector `CROP_DATA` gives rice. */
  const RiceIdeal: PartialSoil := AllFields(80.0, 40.0, 40.0, 25.0, 80.0, 6.5, 200.0)

  /** The sample at rice's ideal vector scores exactly 100 for rice. */
  lemma RiceSampleScoresHundred()
    ensures "rice" in CropData && SuitabilityScore(RiceSample, CropData["rice"].idealConditions) == 100.0
  {
    RiceProfile();
    RiceSampleMatchesIdeal();
  }

  /** Rice's ideal vector, read as a sample, scores 100 against itself. */
  lemma RiceSampleMatchesIdeal()
    ensures SuitabilityScore(RiceSample, RiceIdeal) == 100.0
  {
    forall f ensures IdealOf(RiceIdeal, f) == Some(Get(RiceSample, f)) {
    }
    ExactSampleScoresHundred(RiceSample, RiceIdeal);
  }

  /** Changing only field `f` changes the weighted sum by that field's weighted change. */
  lemma TotalDeviationOneField(s: SoilData, ideal: PartialSoil, f: Field, v: real)
    ensures TotalDeviation(With(s, f, v), ideal) - TotalDeviation(s, ideal)
         == Weight(f) * (Deviation(v, IdealOf(ideal, f)) - FieldDeviation(s, ideal, f))
  {
    var x := Deviation(v, IdealOf(ideal, f));
    DeviationsWith(s, ideal, f, v);
    GetDeviations(s, ideal, f);
    WeightedWith(Deviations(s, ideal), f, x);
  }

  /** Changing reading `f` changes only deviation `f`. */
  lemma DeviationsWith(s: SoilData, ideal: PartialSoil, f: Field, v: real)
    ensures Deviations(With(s, f, v), ideal) == With(Deviations(s, ideal), f, Deviation(v, IdealOf(ideal, f)))
  {
    match f
    case Nitrogen =>
    case Phosphorus =>
    case Potassium =>
    case Temperature =>
    case Humidity =>
    case Ph =>
    case Rainfall =>
  }

  /** Changing one entry of a deviation vector changes the weighted sum by that entry's weighted change. */
  lemma WeightedWith(d: SoilData, f: Field, x: real)
    ensures Weighted(With(d, f, x)) - Weighted(d) == Weight(f) * (x - Get(d, f))
  {
    match f
    case Nitrogen =>
    case Phosphorus =>
    case Potassium =>
    case Temperature =>
    case Humidity =>
    case Ph =>
    case Rainfall =>
  }

  lemma DivNonNegative(x: real, e: real)
    requires x >= 0.0 && e > 0.0
    ensures x / e >= 0.0
  {
  }

  lemma DivNegate(x: real, d: real)
    requires d != 0.0
    ensures (-x) / d == -(x / d) && x / (-d) == -(x / d)
  {
  }

  lemma AbsQuotientPositive(x: real, e: real)
    requires e > 0.0
    ensures Abs(x / e) == Abs(x) / e
  {
    if x < 0.0 {
      DivNegate(x, e);
      DivNonNegative(-x, e);
    } else {
      DivNonNegative(x, e);
    }
  }

  /** The absolute value of a quotient is the quotient of the absolute values. */
  lemma AbsQuotient(x: real, d: real)
    requires d != 0.0
    ensures Abs(x / d) == Abs(x) / Abs(d)
  {
    if d < 0.0 {
      DivNegate(x, -d);
      AbsQuotientPositive(x, -d);
    } else {
      AbsQuotientPositive(x, d);
    }
  }

  lemma QuotientMonotone(a: real, b: real, c: real)
    requires a <= b && c > 0.0
    ensures a / c <= b / c
  {
    assert b / c - a / c == (b - a) / c;
  }

  /** Dividing by the same non-zero number keeps the order of absolute values. */
  lemma AbsQuotientMonotone(x: real, y: real, d: real)
    requires d != 0.0 && Abs(x) <= Abs(y)
    ensures Abs(x / d) <= Abs(y / d)
  {
    AbsQuotient(x, d);
    AbsQuotient(y, d);
    QuotientMonotone(Abs(x), Abs(y), Abs(d));
  }

  /**
   * Holding the other readings fixed, moving one reading no closer to its
   * target never raises the score.
   */
  lemma MovingAwayNeverRaisesScore(s: SoilData, ideal: PartialSoil, f: Field, v: real)
    requires Abs(v - Target(IdealOf(ideal, f))) >= Abs(Get(s, f) - Target(IdealOf(ideal, f)))
    ensures SuitabilityScore(With(s, f, v), ideal) <= SuitabilityScore(s, ideal)
  {
    var o := IdealOf(ideal, f);
    AbsQuotientMonotone(Get(s, f) - Target(o), v - Target(o), Denominator(o));
    var grow := Deviation(v, o) - FieldDeviation(s, ideal, f);
    assert grow >= 0.0;
    assert Weight(f) * grow >= 0.0;
    TotalDeviationOneField(s, ideal, f, v);
    ScoreAntitone(With(s, f, v), s, ideal);
  }

  /** A larger weighted sum never gives a higher score. */
  lemma ScoreAntitone(s1: SoilData, s2: SoilData, ideal: PartialSoil)
    requires TotalDeviation(s1, ideal) >= TotalDeviation(s2, ideal)
    ensures SuitabilityScore(s1, ideal) <= SuitabilityScore(s2, ideal)
  {
  }
}
