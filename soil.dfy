/**
 * The soil sample the recommendation form collects, the partial "ideal
 * conditions" vector a crop profile carries, and the input domain the form's
 * sliders allow.
 */
module Soil {
  import opened Wrappers

  /** The seven readings of `SoilData`; the source uses IEEE doubles, modelled as reals. */
  datatype SoilData = SoilData(
    nitrogen: real,
    phosphorus: real,
    potassium: real,
    temperature: real,
    humidity: real,
    ph: real,
    rainfall: real)

  /** Names one of the seven readings. */
  datatype Field = Nitrogen | Phosphorus | Potassium | Temperature | Humidity | Ph | Rainfall

  /** The fields in the order the crop tables write them. */
  const Fields: seq<Field> := [Nitrogen, Phosphorus, Potassium, Temperature, Humidity, Ph, Rainfall]

  function Get(s: SoilData, f: Field): real
  {
    match f
    case Nitrogen => s.nitrogen
    case Phosphorus => s.phosphorus
    case Potassium => s.potassium
    case Temperature => s.temperature
    case Humidity => s.humidity
    case Ph => s.ph
    case Rainfall => s.rainfall
  }

  /** The sample with field `f` replaced by `v` and every other field kept. */
  function With(s: SoilData, f: Field, v: real): (r: SoilData)
    ensures Get(r, f) == v
    ensures forall g :: g != f ==> Get(r, g) == Get(s, g)
  {
    match f
    case Nitrogen => s.(nitrogen := v)
    case Phosphorus => s.(phosphorus := v)
    case Potassium => s.(potassium := v)
    case Temperature => s.(temperature := v)
    case Humidity => s.(humidity := v)
    case Ph => s.(ph := v)
    case Rainfall => s.(rainfall := v)
  }

  /** `Partial<SoilData>`: any subset of the seven fields may be missing. */
  datatype PartialSoil = PartialSoil(
    nitrogen: Option<real>,
    phosphorus: Option<real>,
    potassium: Option<real>,
    temperature: Option<real>,
    humidity: Option<real>,
    ph: Option<real>,
    rainfall: Option<real>)

  /** The object literal `{}`. */
  const NoConditions: PartialSoil := PartialSoil(None, None, None, None, None, None, None)

  /** A vector that gives all seven fields, as every crop table entry does. */
  function AllFields(n: real, p: real, k: real, t: real, h: real, ph: real, r: real): PartialSoil
  {
    PartialSoil(Some(n), Some(p), Some(k), Some(t), Some(h), Some(ph), Some(r))
  }

  function IdealOf(c: PartialSoil, f: Field): Option<real>
  {
    match f
    case Nitrogen => c.nitrogen
    case Phosphorus => c.phosphorus
    case Potassium => c.potassium
    case Temperature => c.temperature
    case Humidity => c.humidity
    case Ph => c.ph
    case Rainfall => c.rainfall
  }

  /** The lower and upper bound of each slider of the recommendation form. */
  function SliderMin(f: Field): real { 0.0 }

  function SliderMax(f: Field): real
  {
    match f
    case Nitrogen => 140.0
    case Phosphorus => 140.0
    case Potassium => 140.0
    case Temperature => 40.0
    case Humidity => 100.0
    case Ph => 14.0
    case Rainfall => 300.0
  }

  /** Every reading lies within its slider's range: non-negative and bounded. */
  predicate InFormRange(s: SoilData)
  {
    forall f :: SliderMin(f) <= Get(s, f) <= SliderMax(f)
  }

  /** The sample the recommendation context starts from. */
  const DefaultSample: SoilData := SoilData(50.0, 50.0, 50.0, 25.0, 60.0, 6.5, 100.0)

  lemma DefaultSampleInFormRange()
    ensures InFormRange(DefaultSample)
  {
    forall f ensures SliderMin(f) <= Get(DefaultSample, f) <= SliderMax(f) {
      match f
      case Nitrogen =>
      case Phosphorus =>
      case Potassium =>
      case Temperature =>
      case Humidity =>
      case Ph =>
      case Rainfall =>
    }
  }
}
