/** The atmosphere data model and the unit constants of
    src/atmosphereParameters/definitions.h.  Every physical unit of the source is an alias of
    one scalar type; here they are all `real`, and the unit constants are plain reals. */
module Definitions {
  import opened Vec

  // Base units.
  const M: real := 1.0
  const NM: real := 1.0
  const RAD: real := 1.0
  const SR: real := 1.0
  const WATT: real := 1.0
  const LM: real := 1.0

  // Derived units.
  const PI: real := 3.14159265358979323846
  const KM: real := 1000.0 * M
  const M2: real := M * M
  const M3: real := M * M * M
  const PI_RAD: real := PI * RAD
  const DEG: real := PI_RAD / 180.0
  const WATT_PER_SQUARE_METER: real := WATT / M2
  const WATT_PER_SQUARE_METER_PER_SR: real := WATT / (M2 * SR)
  const WATT_PER_SQUARE_METER_PER_NM: real := WATT / (M2 * NM)
  const WATT_PER_SQUARE_METER_PER_SR_PER_NM: real := WATT / (M2 * SR * NM)
  const WATT_PER_CUBIC_METER_PER_SR_PER_NM: real := WATT / (M3 * SR * NM)
  const CD: real := LM / SR
  const KCD: real := 1000.0 * CD
  const CD_PER_SQUARE_METER: real := CD / M2
  const KCD_PER_SQUARE_METER: real := KCD / M2

  /** Every base unit is 1, so a kilometre is the number 1000 and every derived
      irradiance/radiance unit is 1: the units are comments, never conversions. */
  lemma UnitsAreScalars()
    ensures M == NM == RAD == SR == WATT == LM == 1.0
    ensures KM == 1000.0 * M == 1000.0
    ensures M2 == M3 == 1.0
    ensures WATT_PER_SQUARE_METER == WATT_PER_SQUARE_METER_PER_SR == 1.0
    ensures WATT_PER_SQUARE_METER_PER_NM == WATT_PER_SQUARE_METER_PER_SR_PER_NM == 1.0
    ensures WATT_PER_CUBIC_METER_PER_SR_PER_NM == 1.0
    ensures CD == CD_PER_SQUARE_METER == 1.0 && KCD == KCD_PER_SQUARE_METER == 1000.0
    ensures PI_RAD == PI && DEG == PI / 180.0 && 180.0 * DEG == PI
  {
  }

  /** One layer of a density profile: the density at altitude h is
      expTerm * exp(expScale * h) + linearTerm * h + constantTerm, clamped to [0, 1]. */
  datatype DensityProfileLayer = DensityProfileLayer(
    width: real,
    expTerm: real,
    expScale: real,
    linearTerm: real,
    constantTerm: real)

  /** `DensityProfileLayer()`, value-initialised: every field 0. */
  const ZERO_LAYER: DensityProfileLayer := DensityProfileLayer(0.0, 0.0, 0.0, 0.0, 0.0)

  /** `DensityProfileLayer layers[2]`: exactly two layers. */
  type LayerPair = s: seq<DensityProfileLayer> | |s| == 2 witness [ZERO_LAYER, ZERO_LAYER]

  /** A profile: layers[0] applies below layers[0].width, layers[1] everywhere above;
      the width of the last layer is never read. */
  datatype DensityProfile = DensityProfile(layers: LayerPair)

  datatype AtmosphereParameters = AtmosphereParameters(
    solarIrradiance: Vec3,
    sunAngularRadius: real,
    bottomRadius: real,
    topRadius: real,
    rayleighDensity: DensityProfile,
    rayleighScattering: Vec3,
    mieDensity: DensityProfile,
    mieScattering: Vec3,
    mieExtinction: Vec3,
    miePhaseFunctionG: real,
    absorptionDensity: DensityProfile,
    absorptionExtinction: Vec3,
    groundAlbedo: Vec3,
    muSMin: real)

  /** What the data model promises of an atmosphere: 0 < bottom < top, every scattering and
      extinction coefficient non-negative, and muSMin a cosine. */
  predicate WellFormed(atmosphere: AtmosphereParameters) {
    && 0.0 < atmosphere.bottomRadius < atmosphere.topRadius
    && atmosphere.rayleighScattering.AllAtLeast(0.0)
    && atmosphere.mieScattering.AllAtLeast(0.0)
    && atmosphere.mieExtinction.AllAtLeast(0.0)
    && atmosphere.absorptionExtinction.AllAtLeast(0.0)
    && -1.0 <= atmosphere.muSMin <= 1.0
  }
}
