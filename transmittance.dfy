/** The driver src/Transmittance.cpp: `InitModel` builds the spectral tables of the
    reference atmosphere and hands them to the `Model` constructor, whose header is the
    `ATMOSPHERE` literal of `main`; `main` then fills the row-major W x H x 3 buffer of the
    transmittance texture, one texel at a time. */
module Transmittance {
  import opened MathLib
  import opened Vec
  import opened Definitions
  import opened Functions
  import opened Model

  // ---------------------------------------------------------------------------------------
  // Constants

  const K_PI: real := 3.1415926
  const SUN_ANGULAR_RADIUS: real := 0.00935 / 2.0
  const LENGTH_UNIT_IN_METERS: real := 1000.0

  /** The wavelengths of the spectral tables, in nm: 360, 370, ..., 830. */
  const LAMBDA_MIN: int := 360
  const LAMBDA_MAX: int := 830

  /** The ozone absorption cross section, in m^2, one value per 10 nm bin from 360 nm. */
  const OZONE_CROSS_SECTION: seq<real> := [
    1.18e-27, 2.182e-28, 2.818e-28, 6.636e-28, 1.527e-27, 2.763e-27, 5.52e-27,
    8.451e-27, 1.582e-26, 2.316e-26, 3.669e-26, 4.924e-26, 7.752e-26, 9.016e-26,
    1.48e-25, 1.602e-25, 2.139e-25, 2.755e-25, 3.091e-25, 3.5e-25, 4.266e-25,
    4.672e-25, 4.398e-25, 4.701e-25, 5.019e-25, 4.305e-25, 3.74e-25, 3.215e-25,
    2.662e-25, 2.238e-25, 1.852e-25, 1.473e-25, 1.209e-25, 9.423e-26, 7.455e-26,
    6.566e-26, 5.105e-26, 4.15e-26, 4.228e-26, 3.237e-26, 2.451e-26, 2.801e-26,
    2.534e-26, 1.624e-26, 1.465e-26, 2.078e-26, 1.383e-26, 7.105e-27]

  const DOBSON_UNIT: real := 2.687e20
  /** 300 Dobson units spread over the 15 km integral of the ozone profile, in m^-3. */
  const MAX_OZONE_NUMBER_DENSITY: real := 300.0 * DOBSON_UNIT / 15000.0
  const CONSTANT_SOLAR_IRRADIANCE: real := 1.5
  const BOTTOM_RADIUS: real := 6360000.0
  const TOP_RADIUS: real := 6420000.0
  const RAYLEIGH: real := 1.24062e-6
  /** The scale heights of the Rayleigh and Mie densities, 8000 m and 1200 m, are written out
      as literals where they divide, below. */
  const MIE_ANGSTROM_ALPHA: real := 0.0
  const MIE_ANGSTROM_BETA: real := 5.328e-3
  const MIE_SINGLE_SCATTERING_ALBEDO: real := 0.9
  const MIE_PHASE_FUNCTION_G: real := 0.8
  const GROUND_ALBEDO: real := 0.1
  const MAX_SUN_ZENITH_ANGLE: real := 102.0 / 180.0 * K_PI

  /** Exponential profiles exp(-h / 8000) (Rayleigh) and exp(-h / 1200) (Mie), h in metres. */
  const RAYLEIGH_LAYER: DensityProfileLayer := DensityProfileLayer(0.0, 1.0, -1.0 / 8000.0, 0.0, 0.0)
  const MIE_LAYER: DensityProfileLayer := DensityProfileLayer(0.0, 1.0, -1.0 / 1200.0, 0.0, 0.0)

  /** The ozone profile, in metres: a ramp up to 25 km, then a ramp down. */
  const OZONE_DENSITY: seq<DensityProfileLayer> := [
    DensityProfileLayer(25000.0, 0.0, 0.0, 1.0 / 15000.0, -2.0 / 3.0),
    DensityProfileLayer(0.0, 0.0, 0.0, -1.0 / 15000.0, 8.0 / 3.0)]

  // ---------------------------------------------------------------------------------------
  // The ozone profile

  /** The two ozone layers meet at 25 km, where both give density 1, and they reach 0 at
      10 km and 40 km. */
  lemma OzoneLayersMeetAt25Km(lib: Libm)
    ensures GetLayerDensity(lib, OZONE_DENSITY[0], 25000.0) == 1.0
    ensures GetLayerDensity(lib, OZONE_DENSITY[1], 25000.0) == 1.0
    ensures GetLayerDensity(lib, OZONE_DENSITY[0], 10000.0) == 0.0
    ensures GetLayerDensity(lib, OZONE_DENSITY[1], 40000.0) == 0.0
  {
  }

  /** The tent the ozone profile describes: 0 below 10 km, rising linearly to 1 at 25 km,
      falling linearly to 0 at 40 km, and 0 above. */
  function OzoneTent(h: real): real {
    if h < 10000.0 then 0.0
    else if h < 25000.0 then (h - 10000.0) / 15000.0
    else if h < 40000.0 then (40000.0 - h) / 15000.0
    else 0.0
  }

  /** The two-layer profile in metres is the tent at every altitude, whatever exp is. */
  lemma OzoneProfileIsTent(lib: Libm, h: real)
    ensures GetProfileDensity(lib, DensityProfile(OZONE_DENSITY), h) == OzoneTent(h)
  {
    ProfileDensityLayerChoice(lib, DensityProfile(OZONE_DENSITY), h);
    if h < 25000.0 {
      assert LayerFormula(lib, OZONE_DENSITY[0], h) == (h - 10000.0) / 15000.0;
    } else {
      assert LayerFormula(lib, OZONE_DENSITY[1], h) == (40000.0 - h) / 15000.0;
    }
  }

  // ---------------------------------------------------------------------------------------
  // The spectral tables

  /** The seven vectors the loop of InitModel fills, one sample per wavelength each. */
  datatype SpectralTables = SpectralTables(
    wavelengths: seq<real>,
    solarIrradiance: seq<real>,
    rayleighScattering: seq<real>,
    mieScattering: seq<real>,
    mieExtinction: seq<real>,
    absorptionExtinction: seq<real>,
    groundAlbedo: seq<real>)

  /** The number of iterations of the loop: l = 360, 370, ..., 830. */
  const SAMPLE_TOTAL: nat := 48

  /** The wavelength, in nm, of iteration k. */
  function WavelengthOf(k: int): int {
    LAMBDA_MIN + 10 * k
  }

  /** `(l - kLambdaMin) / 10`; for l >= kLambdaMin the truncating division of the source and
      Dafny's agree. */
  function OzoneIndex(l: int): (index: int)
    ensures LAMBDA_MIN <= l <= LAMBDA_MAX ==> 0 <= index < SAMPLE_TOTAL
    ensures forall k :: l == WavelengthOf(k) ==> index == k
  {
    (l - LAMBDA_MIN) / 10
  }

  /** `lambda = l * 1e-3`: the wavelength l, in nm, in micrometres. */
  function Micrometres(l: int): real {
    (l as real) * 1e-3
  }

  /** `mie = kMieAngstromBeta / kMieScaleHeight * pow(lambda, -kMieAngstromAlpha)`, with the
      scale height 1200 m. */
  function MieCoefficient(lib: Libm, l: int): real {
    MIE_ANGSTROM_BETA / 1200.0 * lib.pow(Micrometres(l), -MIE_ANGSTROM_ALPHA)
  }

  /** `kRayleigh * pow(lambda, -4)`. */
  function RayleighCoefficient(lib: Libm, l: int): real {
    RAYLEIGH * lib.pow(Micrometres(l), -4.0)
  }

  /** `kMaxOzoneNumberDensity * kOzoneCrossSection[(l - kLambdaMin) / 10]`: the table index
      is in bounds for every wavelength of the loop. */
  function AbsorptionCoefficient(ozone: seq<real>, l: int): real
    requires |ozone| == SAMPLE_TOTAL && LAMBDA_MIN <= l <= LAMBDA_MAX
  {
    MAX_OZONE_NUMBER_DENSITY * ozone[OzoneIndex(l)]
  }

  /** The seven spectra the loop of InitModel tabulates. */
  datatype Spectrum =
    | Wavelength | SolarIrradiance | RayleighScattering | MieScattering | MieExtinction
    | AbsorptionExtinction | GroundAlbedo

  /** The value iteration k of the loop (wavelength 360 + 10 k) pushes to a spectrum. */
  function SampleOf(lib: Libm, ozone: seq<real>, spectrum: Spectrum, k: int): real
    requires |ozone| == SAMPLE_TOTAL && 0 <= k < SAMPLE_TOTAL
  {
    var l := WavelengthOf(k);
    match spectrum
    case Wavelength => l as real
    case SolarIrradiance => CONSTANT_SOLAR_IRRADIANCE
    case RayleighScattering => RayleighCoefficient(lib, l)
    case MieScattering => MieCoefficient(lib, l) * MIE_SINGLE_SCATTERING_ALBEDO
    case MieExtinction => MieCoefficient(lib, l)
    case AbsorptionExtinction => AbsorptionCoefficient(ozone, l)
    case GroundAlbedo => GROUND_ALBEDO
  }

  /** The vector of a spectrum after the first n iterations: one push per iteration. */
  function Samples(lib: Libm, ozone: seq<real>, spectrum: Spectrum, n: nat): (v: seq<real>)
    requires |ozone| == SAMPLE_TOTAL && n <= SAMPLE_TOTAL
    ensures |v| == n
  {
    if n == 0 then [] else Samples(lib, ozone, spectrum, n - 1) + [SampleOf(lib, ozone, spectrum, n - 1)]
  }

  /** Entry k of a vector is the value of iteration k: the pushes neither reorder nor
      overwrite earlier entries. */
  lemma {:induction false} SamplesHold(lib: Libm, ozone: seq<real>, spectrum: Spectrum, n: nat)
    requires |ozone| == SAMPLE_TOTAL && n <= SAMPLE_TOTAL
    ensures forall k :: 0 <= k < n ==> Samples(lib, ozone, spectrum, n)[k] == SampleOf(lib, ozone, spectrum, k)
  {
    if n > 0 {
      SamplesHold(lib, ozone, spectrum, n - 1);
      assert Samples(lib, ozone, spectrum, n) == Samples(lib, ozone, spectrum, n - 1) + [SampleOf(lib, ozone, spectrum, n - 1)];
    }
  }

  /** The seven vectors after n iterations. */
  function TablesAfter(lib: Libm, ozone: seq<real>, n: nat): SpectralTables
    requires |ozone| == SAMPLE_TOTAL && n <= SAMPLE_TOTAL
  {
    SpectralTables(Samples(lib, ozone, Wavelength, n), Samples(lib, ozone, SolarIrradiance, n),
                   Samples(lib, ozone, RayleighScattering, n), Samples(lib, ozone, MieScattering, n),
                   Samples(lib, ozone, MieExtinction, n), Samples(lib, ozone, AbsorptionExtinction, n),
                   Samples(lib, ozone, GroundAlbedo, n))
  }

  /** The loop of InitModel: 48 iterations, each pushing one sample to every vector. */
  method BuildSpectralTables(lib: Libm, ozone: seq<real>) returns (t: SpectralTables)
    requires |ozone| == SAMPLE_TOTAL
    ensures t == TablesAfter(lib, ozone, SAMPLE_TOTAL)
  {
    var wavelengths: seq<real> := [];
    var solarIrradiance: seq<real> := [];
    var rayleighScattering: seq<real> := [];
    var mieScattering: seq<real> := [];
    var mieExtinction: seq<real> := [];
    var absorptionExtinction: seq<real> := [];
    var groundAlbedo: seq<real> := [];
    var l := LAMBDA_MIN;
    ghost var n: nat := 0;
    while l <= LAMBDA_MAX
      invariant n <= SAMPLE_TOTAL && l == WavelengthOf(n)
      invariant wavelengths == Samples(lib, ozone, Wavelength, n)
      invariant solarIrradiance == Samples(lib, ozone, SolarIrradiance, n)
      invariant rayleighScattering == Samples(lib, ozone, RayleighScattering, n)
      invariant mieScattering == Samples(lib, ozone, MieScattering, n)
      invariant mieExtinction == Samples(lib, ozone, MieExtinction, n)
      invariant absorptionExtinction == Samples(lib, ozone, AbsorptionExtinction, n)
      invariant groundAlbedo == Samples(lib, ozone, GroundAlbedo, n)
      decreases LAMBDA_MAX - l
    {
      var mie := MieCoefficient(lib, l);
      wavelengths := wavelengths + [l as real];
      solarIrradiance := solarIrradiance + [CONSTANT_SOLAR_IRRADIANCE];
      rayleighScattering := rayleighScattering + [RayleighCoefficient(lib, l)];
      mieScattering := mieScattering + [mie * MIE_SINGLE_SCATTERING_ALBEDO];
      mieExtinction := mieExtinction + [mie];
      absorptionExtinction := absorptionExtinction + [AbsorptionCoefficient(ozone, l)];
      groundAlbedo := groundAlbedo + [GROUND_ALBEDO];
      l := l + 10;
      n := n + 1;
    }
    t := SpectralTables(wavelengths, solarIrradiance, rayleighScattering, mieScattering,
                        mieExtinction, absorptionExtinction, groundAlbedo);
  }

  /** The wavelengths of the full tables, 360, 370, ..., 830, are strictly ascending, as
      Interpolate requires. */
  lemma WavelengthsAscending(lib: Libm, ozone: seq<real>)
    requires |ozone| == SAMPLE_TOTAL
    ensures StrictlyAscending(Samples(lib, ozone, Wavelength, SAMPLE_TOTAL))
  {
    SamplesHold(lib, ozone, Wavelength, SAMPLE_TOTAL);
  }

  // ---------------------------------------------------------------------------------------
  // InitModel

  /** The arguments InitModel passes to the Model constructor. */
  function InitModelInputs(lib: Libm): (inputs: ModelInputs)
    ensures ModelInputsValid(inputs)
    ensures |inputs.wavelengths| == SAMPLE_TOTAL
  {
    var t := TablesAfter(lib, OZONE_CROSS_SECTION, SAMPLE_TOTAL);
    ModelInputs(t.wavelengths, t.solarIrradiance, SUN_ANGULAR_RADIUS, BOTTOM_RADIUS, TOP_RADIUS,
                [RAYLEIGH_LAYER], t.rayleighScattering, [MIE_LAYER], t.mieScattering,
                t.mieExtinction, MIE_PHASE_FUNCTION_G, OZONE_DENSITY, t.absorptionExtinction,
                t.groundAlbedo, MAX_SUN_ZENITH_ANGLE, LENGTH_UNIT_IN_METERS)
  }

  /** `InitModel`: build the tables, construct the model and print its header, which is
      returned here instead of printed. */
  method InitModel(lib: Libm) returns (header: AtmosphereParameters)
    ensures header == RgbAtmosphere(lib, InitModelInputs(lib))
  {
    var t := BuildSpectralTables(lib, OZONE_CROSS_SECTION);
    var inputs := ModelInputs(t.wavelengths, t.solarIrradiance, SUN_ANGULAR_RADIUS, BOTTOM_RADIUS,
                              TOP_RADIUS, [RAYLEIGH_LAYER], t.rayleighScattering, [MIE_LAYER],
                              t.mieScattering, t.mieExtinction, MIE_PHASE_FUNCTION_G, OZONE_DENSITY,
                              t.absorptionExtinction, t.groundAlbedo, MAX_SUN_ZENITH_ANGLE,
                              LENGTH_UNIT_IN_METERS);
    assert inputs == InitModelInputs(lib);
    header := RgbAtmosphere(lib, inputs);
  }

  // ---------------------------------------------------------------------------------------
  // The ATMOSPHERE literal of main

  const ATMOSPHERE: AtmosphereParameters := AtmosphereParameters(
    Vec3(1.5, 1.5, 1.5),
    0.004675,
    6360.0,
    6420.0,
    DensityProfile([DensityProfileLayer(0.0, 0.0, 0.0, 0.0, 0.0), DensityProfileLayer(0.0, 1.0, -0.125, 0.0, 0.0)]),
    Vec3(0.005802, 0.013558, 0.033100),
    DensityProfile([DensityProfileLayer(0.0, 0.0, 0.0, 0.0, 0.0), DensityProfileLayer(0.0, 1.0, -0.833333, 0.0, 0.0)]),
    Vec3(0.003996, 0.003996, 0.003996),
    Vec3(0.004440, 0.004440, 0.004440),
    0.8,
    DensityProfile([DensityProfileLayer(25.0, 0.0, 0.0, 0.066667, -0.666667),
                    DensityProfileLayer(0.0, 0.0, 0.0, -0.066667, 2.666667)]),
    Vec3(0.000650, 0.001881, 0.000085),
    Vec3(0.1, 0.1, 0.1),
    -0.207912)

  /** The literal is a well-formed atmosphere with non-negative coefficients, and its sun
      angular radius is kSunAngularRadius. */
  lemma AtmosphereLiteralWellFormed()
    ensures WellFormed(ATMOSPHERE) && NonNegativeCoefficients(ATMOSPHERE)
    ensures ATMOSPHERE.bottomRadius <= ATMOSPHERE.topRadius
    ensures ATMOSPHERE.sunAngularRadius == SUN_ANGULAR_RADIUS
  {
  }

  /** x printed with six decimals (`std::to_string`) reads as `printed`. */
  predicate PrintsAs(x: real, printed: real) {
    -0.0000005 <= x - printed <= 0.0000005
  }

  predicate LayerPrintsAs(layer: DensityProfileLayer, printed: DensityProfileLayer) {
    && PrintsAs(layer.width, printed.width)
    && PrintsAs(layer.expTerm, printed.expTerm)
    && PrintsAs(layer.expScale, printed.expScale)
    && PrintsAs(layer.linearTerm, printed.linearTerm)
    && PrintsAs(layer.constantTerm, printed.constantTerm)
  }

  predicate ProfilePrintsAs(profile: DensityProfile, printed: DensityProfile) {
    LayerPrintsAs(profile.layers[0], printed.layers[0]) && LayerPrintsAs(profile.layers[1], printed.layers[1])
  }

  predicate Vec3PrintsAs(v: Vec3, printed: Vec3) {
    PrintsAs(v.x, printed.x) && PrintsAs(v.y, printed.y) && PrintsAs(v.z, printed.z)
  }

  /** The header InitModel prints is the ATMOSPHERE literal: the solar irradiance, the sun's
      angular radius, the radii, the Rayleigh profile, the phase function g and the ground
      albedo exactly, and the Mie and ozone profiles and the ozone extinction to the six
      printed decimals. */
  lemma HeaderIsAtmosphereLiteral(lib: Libm)
    ensures var header := RgbAtmosphere(lib, InitModelInputs(lib));
      && header.solarIrradiance == ATMOSPHERE.solarIrradiance
      && header.sunAngularRadius == ATMOSPHERE.sunAngularRadius
      && header.bottomRadius == ATMOSPHERE.bottomRadius
      && header.topRadius == ATMOSPHERE.topRadius
      && header.rayleighDensity == ATMOSPHERE.rayleighDensity
      && ProfilePrintsAs(header.mieDensity, ATMOSPHERE.mieDensity)
      && header.miePhaseFunctionG == ATMOSPHERE.miePhaseFunctionG
      && ProfilePrintsAs(header.absorptionDensity, ATMOSPHERE.absorptionDensity)
      && Vec3PrintsAs(header.absorptionExtinction, ATMOSPHERE.absorptionExtinction)
      && header.groundAlbedo == ATMOSPHERE.groundAlbedo
  {
    HeaderConstantSpectra(lib);
    HeaderProfiles();
    HeaderOzoneExtinction(lib);
  }

  /** With kMieAngstromAlpha = 0 the Mie coefficient is pow(lambda, -0) times a constant, so
      under the law pow(x, 0) = 1 the header's Mie scattering and extinction are exactly the
      literal's. */
  lemma HeaderMieCoefficients(lib: Libm)
    requires PowLaws(lib.pow)
    ensures RgbAtmosphere(lib, InitModelInputs(lib)).mieScattering == ATMOSPHERE.mieScattering
    ensures RgbAtmosphere(lib, InitModelInputs(lib)).mieExtinction == ATMOSPHERE.mieExtinction
  {
    var inputs := InitModelInputs(lib);
    var lambdas := Vec3(LAMBDA_R, LAMBDA_G, LAMBDA_B);
    var mie := MIE_ANGSTROM_BETA / 1200.0;
    SamplesHold(lib, OZONE_CROSS_SECTION, MieScattering, SAMPLE_TOTAL);
    SamplesHold(lib, OZONE_CROSS_SECTION, MieExtinction, SAMPLE_TOTAL);
    forall k | 0 <= k < SAMPLE_TOTAL
      ensures MieCoefficient(lib, WavelengthOf(k)) == mie
    {
      assert lib.pow(Micrometres(WavelengthOf(k)), 0.0) == 1.0;
    }
    ToRgbOfConstant(inputs.wavelengths, inputs.mieScattering, lambdas, LENGTH_UNIT_IN_METERS,
                    mie * MIE_SINGLE_SCATTERING_ALBEDO);
    ToRgbOfConstant(inputs.wavelengths, inputs.mieExtinction, lambdas, LENGTH_UNIT_IN_METERS, mie);
  }

  /** The constant spectra give the literal's solar irradiance and ground albedo. */
  lemma HeaderConstantSpectra(lib: Libm)
    ensures RgbAtmosphere(lib, InitModelInputs(lib)).solarIrradiance == Vec3(1.5, 1.5, 1.5)
    ensures RgbAtmosphere(lib, InitModelInputs(lib)).groundAlbedo == Vec3(0.1, 0.1, 0.1)
  {
    var inputs := InitModelInputs(lib);
    var lambdas := Vec3(LAMBDA_R, LAMBDA_G, LAMBDA_B);
    SamplesHold(lib, OZONE_CROSS_SECTION, SolarIrradiance, SAMPLE_TOTAL);
    SamplesHold(lib, OZONE_CROSS_SECTION, GroundAlbedo, SAMPLE_TOTAL);
    ToRgbOfConstant(inputs.wavelengths, inputs.solarIrradiance, lambdas, 1.0, CONSTANT_SOLAR_IRRADIANCE);
    ToRgbOfConstant(inputs.wavelengths, inputs.groundAlbedo, lambdas, 1.0, GROUND_ALBEDO);
  }

  /** The three density profiles, converted to kilometres, are the literal's. */
  lemma HeaderProfiles()
    ensures DensityProfileOf([RAYLEIGH_LAYER], LENGTH_UNIT_IN_METERS) == ATMOSPHERE.rayleighDensity
    ensures ProfilePrintsAs(DensityProfileOf([MIE_LAYER], LENGTH_UNIT_IN_METERS), ATMOSPHERE.mieDensity)
    ensures ProfilePrintsAs(DensityProfileOf(OZONE_DENSITY, LENGTH_UNIT_IN_METERS), ATMOSPHERE.absorptionDensity)
  {
    RayleighProfileInKilometres();
    MieProfileInKilometres();
    OzoneProfileInKilometres();
  }

  lemma RayleighProfileInKilometres()
    ensures DensityProfileOf([RAYLEIGH_LAYER], LENGTH_UNIT_IN_METERS) == ATMOSPHERE.rayleighDensity
  {
    assert PaddedLayers([RAYLEIGH_LAYER]) == [ZERO_LAYER, RAYLEIGH_LAYER];
    assert DensityLayerInUnits(RAYLEIGH_LAYER, LENGTH_UNIT_IN_METERS) == DensityProfileLayer(0.0, 1.0, -0.125, 0.0, 0.0);
  }

  lemma MieProfileInKilometres()
    ensures ProfilePrintsAs(DensityProfileOf([MIE_LAYER], LENGTH_UNIT_IN_METERS), ATMOSPHERE.mieDensity)
  {
    assert PaddedLayers([MIE_LAYER]) == [ZERO_LAYER, MIE_LAYER];
  }

  lemma OzoneProfileInKilometres()
    ensures ProfilePrintsAs(DensityProfileOf(OZONE_DENSITY, LENGTH_UNIT_IN_METERS), ATMOSPHERE.absorptionDensity)
  {
    assert PaddedLayers(OZONE_DENSITY) == OZONE_DENSITY;
  }

  /** The ozone extinction channels sample the table at 680, 550 and 440 nm. */
  lemma HeaderOzoneExtinction(lib: Libm)
    ensures Vec3PrintsAs(RgbAtmosphere(lib, InitModelInputs(lib)).absorptionExtinction, ATMOSPHERE.absorptionExtinction)
  {
    var inputs := InitModelInputs(lib);
    var v := RgbAtmosphere(lib, inputs).absorptionExtinction;
    AbsorptionAtChannel(lib, 32);
    AbsorptionAtChannel(lib, 19);
    AbsorptionAtChannel(lib, 8);
    OzoneExtinctionPrinted(32, ATMOSPHERE.absorptionExtinction.x);
    OzoneExtinctionPrinted(19, ATMOSPHERE.absorptionExtinction.y);
    OzoneExtinctionPrinted(8, ATMOSPHERE.absorptionExtinction.z);
    assert v.x == Channel(inputs.wavelengths, inputs.absorptionExtinction, WavelengthOf(32) as real, LENGTH_UNIT_IN_METERS);
    assert v.y == Channel(inputs.wavelengths, inputs.absorptionExtinction, WavelengthOf(19) as real, LENGTH_UNIT_IN_METERS);
    assert v.z == Channel(inputs.wavelengths, inputs.absorptionExtinction, WavelengthOf(8) as real, LENGTH_UNIT_IN_METERS);
  }

  /** The ozone extinction of samples 32, 19 and 8 (680, 550 and 440 nm), in the unit,
      prints as the literal's channels. */
  lemma OzoneExtinctionPrinted(k: nat, printed: real)
    requires (k == 32 && printed == 0.000650) || (k == 19 && printed == 0.001881)
          || (k == 8 && printed == 0.000085)
    ensures PrintsAs(AbsorptionCoefficient(OZONE_CROSS_SECTION, WavelengthOf(k)) * LENGTH_UNIT_IN_METERS, printed)
  {
    assert OzoneIndex(WavelengthOf(k)) == k;
  }

  /** The ozone extinction channel at the wavelength of sample k is sample k, in the unit. */
  lemma AbsorptionAtChannel(lib: Libm, k: nat)
    requires k < SAMPLE_TOTAL
    ensures Channel(InitModelInputs(lib).wavelengths, InitModelInputs(lib).absorptionExtinction,
                    WavelengthOf(k) as real, LENGTH_UNIT_IN_METERS)
         == AbsorptionCoefficient(OZONE_CROSS_SECTION, WavelengthOf(k)) * LENGTH_UNIT_IN_METERS
  {
    var inputs := InitModelInputs(lib);
    SamplesHold(lib, OZONE_CROSS_SECTION, Wavelength, SAMPLE_TOTAL);
    SamplesHold(lib, OZONE_CROSS_SECTION, AbsorptionExtinction, SAMPLE_TOTAL);
    WavelengthsAscending(lib, OZONE_CROSS_SECTION);
    InterpolationAtSample(inputs.wavelengths, inputs.absorptionExtinction, k);
  }

  // ---------------------------------------------------------------------------------------
  // The texture buffer

  /** `pixelIndex = i * W + j`: texel (i, j) in row-major order.  For a column within the
      row, division by the width gives the row back and the remainder the column. */
  function PixelIndex(i: int, j: int, width: int): (p: int)
    ensures 0 <= j < width ==> p / width == i && p % width == j
  {
    DivModUnique(i * width + j, i, j, width);
    i * width + j
  }

  /** Euclidean division is unique: n = q w + r with 0 <= r < w has quotient q and
      remainder r. */
  lemma DivModUnique(n: int, q: int, r: int, w: int)
    requires n == q * w + r
    ensures 0 <= r < w ==> n / w == q && n % w == r
  {
    if 0 <= r < w {
      DivModOfSplit(n, q, r, w);
    }
  }

  lemma DivModOfSplit(n: int, q: int, r: int, w: int)
    requires 0 <= r < w && n == q * w + r
    ensures n / w == q && n % w == r
  {
    var q2, r2 := n / w, n % w;
    assert n == q2 * w + r2;
    var d := q - q2;
    assert d * w == r2 - r;
  }

  /** The slot of channel k of texel (i, j) in the buffer: always inside it. */
  function TexelIndex(i: int, j: int, k: int, width: int, height: int): (n: int)
    requires 0 <= i < height && 0 <= j < width && 0 <= k < 3
    ensures 0 <= n < BufferLength(width, height)
  {
    RowsApart(i, height, width);
    assert 0 <= i * width;
    PixelIndex(i, j, width) * 3 + k
  }

  /** `W * H * 3`: the length of `data`. */
  function BufferLength(width: int, height: int): int {
    width * height * 3
  }

  /** Texels come in row-major order: an earlier row, or an earlier column of the same row,
      has a smaller pixel index. */
  lemma PixelIndexOrdered(i0: int, j0: int, i: int, j: int, width: int)
    requires 0 <= j0 < width && 0 <= j
    requires i0 < i || (i0 == i && j0 < j)
    ensures PixelIndex(i0, j0, width) < PixelIndex(i, j, width)
  {
    if i0 < i {
      RowsApart(i0, i, width);
    }
  }

  /** A later row starts at least one row further on. */
  lemma RowsApart(i0: int, i: int, width: int)
    requires i0 < i && 0 <= width
    ensures i0 * width + width <= i * width
  {
    var d := i - i0 - 1;
    assert i * width == i0 * width + width + d * width;
  }

  /** No two slots of texels share an index. */
  lemma TexelIndexInjective(i: int, j: int, k: int, i2: int, j2: int, k2: int, width: int, height: int)
    requires 0 <= i < height && 0 <= j < width && 0 <= k < 3
    requires 0 <= i2 < height && 0 <= j2 < width && 0 <= k2 < 3
    requires TexelIndex(i, j, k, width, height) == TexelIndex(i2, j2, k2, width, height)
    ensures i == i2 && j == j2 && k == k2
  {
    if i < i2 || (i == i2 && j < j2) {
      PixelIndexOrdered(i, j, i2, j2, width);
    } else if i2 < i || (i2 == i && j2 < j) {
      PixelIndexOrdered(i2, j2, i, j, width);
    }
  }

  /** Every slot of the buffer belongs to a texel: with injectivity, the (i, j, k) loops
      write each slot exactly once. */
  lemma TexelOfSlot(n: int, width: int, height: int) returns (i: int, j: int, k: int)
    requires width > 0 && 0 <= n < BufferLength(width, height)
    ensures 0 <= i < height && 0 <= j < width && 0 <= k < 3
    ensures TexelIndex(i, j, k, width, height) == n
  {
    var p := n / 3;
    k := n % 3;
    i := p / width;
    j := p % width;
    assert p == i * width + j;
    assert n == p * 3 + k;
    assert 0 <= i;
    if height <= i {
      RowsApart(height, i + 1, width);
    }
  }

  /** The cosine and radius of texel (i, j) are in the texture's domain: uv = (j / W, i / H)
      lies in the unit square, and the radius it encodes is at most the top radius, because
      x_r = (i - 1/2) / (H - 1) lies in [-1, 1]. */
  lemma TexelInDomain(lib: Libm, atmosphere: AtmosphereParameters, width: int, height: int, i: int, j: int)
    requires ParameterisationDefined(lib, atmosphere, width, height)
    requires atmosphere.bottomRadius <= atmosphere.topRadius
    requires 0 <= i < height && 0 <= j < width
    ensures UvInUnitSquare(Vec2(j as real, i as real).Div(Vec2(width as real, height as real)))
    ensures DeriveRMu(lib, atmosphere, Vec2(j as real, i as real).Div(Vec2(width as real, height as real)),
                      width, height).r <= atmosphere.topRadius
  {
    var uv := Vec2(j as real, i as real).Div(Vec2(width as real, height as real));
    FractionInUnitRange(j, width);
    FractionInUnitRange(i, height);
    UnitRangeOfTexelCorner(i as real, height);
    RowUnitRangeBounds(i, height);
    RadiusAtMostTop(lib, atmosphere, uv, width, height);
  }

  /** k / n lies in [0, 1) for 0 <= k < n. */
  lemma FractionInUnitRange(k: int, n: int)
    requires 0 <= k < n
    ensures 0.0 <= (k as real) / (n as real) < 1.0
  {
    MulCompare((k as real) / (n as real), 1.0, n as real);
  }

  /** (i - 1/2) / (H - 1) lies in [-1, 1] for a row 0 <= i < H. */
  lemma RowUnitRangeBounds(i: int, height: int)
    requires 0 <= i < height && height > 1
    ensures -1.0 <= (i as real - 0.5) / (height as real - 1.0) <= 1.0
  {
    var q := (i as real - 0.5) / (height as real - 1.0);
    assert q * (height as real - 1.0) == i as real - 0.5;
    MulCompare(q, 1.0, height as real - 1.0);
    MulCompare(-1.0, q, height as real - 1.0);
  }

  /** The transmittance main computes for texel (i, j), at fragment coordinate (j, i). */
  function LutValue(lib: Libm, atmosphere: AtmosphereParameters, width: int, height: int, i: int, j: int): (trans: Vec3)
    requires ParameterisationDefined(lib, atmosphere, width, height)
    requires atmosphere.bottomRadius <= atmosphere.topRadius
    requires 0 <= i < height && 0 <= j < width
    ensures ExpLaws(lib.exp) && NonNegativeCoefficients(atmosphere) ==> trans.AllPositive() && trans.AllAtMost(1.0)
  {
    TexelInDomain(lib, atmosphere, width, height, i, j);
    ComputeTransmittanceToTopAtmosphereBoundaryTexture(lib, atmosphere, Vec2(j as real, i as real), width, height)
  }

  /** Channel k (x, y, z) of a vector. */
  function Component(v: Vec3, k: int): real {
    if k == 0 then v.x else if k == 1 then v.y else v.z
  }

  /** Channel k of the transmittance of texel (i, j). */
  function LutSlot(lib: Libm, atmosphere: AtmosphereParameters, width: int, height: int, i: int, j: int, k: int): real
    requires ParameterisationDefined(lib, atmosphere, width, height)
    requires atmosphere.bottomRadius <= atmosphere.topRadius
    requires 0 <= i < height && 0 <= j < width
  {
    Component(LutValue(lib, atmosphere, width, height, i, j), k)
  }

  /** Every slot of the rows before i, and of the columns before j in row i, holds its
      channel of the transmittance. */
  predicate FilledBefore(lib: Libm, atmosphere: AtmosphereParameters, width: int, height: int,
                         data: array<real>, i: int, j: int)
    requires ParameterisationDefined(lib, atmosphere, width, height)
    requires atmosphere.bottomRadius <= atmosphere.topRadius
    requires data.Length == BufferLength(width, height)
    reads data
  {
    forall i0, j0, k0 :: 0 <= i0 < height && 0 <= j0 < width && 0 <= k0 < 3 && (i0 < i || (i0 == i && j0 < j)) ==>
      data[TexelIndex(i0, j0, k0, width, height)] == LutSlot(lib, atmosphere, width, height, i0, j0, k0)
  }

  /** The nested loops of main: texel (i, j) goes to slots 3 (i W + j) .. 3 (i W + j) + 2 of
      the buffer, channel by channel. */
  method FillTransmittanceLut(lib: Libm, atmosphere: AtmosphereParameters, width: int, height: int,
                              data: array<real>)
    requires ParameterisationDefined(lib, atmosphere, width, height)
    requires atmosphere.bottomRadius <= atmosphere.topRadius
    requires data.Length == BufferLength(width, height)
    modifies data
    ensures FilledBefore(lib, atmosphere, width, height, data, height, 0)
  {
    var i := 0;
    while i < height
      invariant 0 <= i <= height
      invariant FilledBefore(lib, atmosphere, width, height, data, i, 0)
    {
      var j := 0;
      while j < width
        invariant 0 <= j <= width
        invariant FilledBefore(lib, atmosphere, width, height, data, i, j)
      {
        FillTexel(lib, atmosphere, width, height, data, i, j);
        j := j + 1;
      }
      i := i + 1;
    }
  }

  /** The body of the inner loop: texel (i, j) is computed and its three channels written. */
  method FillTexel(lib: Libm, atmosphere: AtmosphereParameters, width: int, height: int,
                   data: array<real>, i: int, j: int)
    requires ParameterisationDefined(lib, atmosphere, width, height)
    requires atmosphere.bottomRadius <= atmosphere.topRadius
    requires data.Length == BufferLength(width, height)
    requires 0 <= i < height && 0 <= j < width
    requires FilledBefore(lib, atmosphere, width, height, data, i, j)
    modifies data
    ensures FilledBefore(lib, atmosphere, width, height, data, i, j + 1)
  {
    TexelInDomain(lib, atmosphere, width, height, i, j);
    var uv := Vec2(j as real, i as real);
    var trans := ComputeTransmittanceToTopAtmosphereBoundaryTexture(lib, atmosphere, uv, width, height);
    assert trans == LutValue(lib, atmosphere, width, height, i, j);
    var pixelIndex := i * width + j;
    assert pixelIndex * 3 + 0 == TexelIndex(i, j, 0, width, height);
    assert pixelIndex * 3 + 1 == TexelIndex(i, j, 1, width, height);
    assert pixelIndex * 3 + 2 == TexelIndex(i, j, 2, width, height);
    forall i0, j0 | 0 <= i0 <= i && 0 <= j0 < width && (i0 < i || j0 < j)
      ensures PixelIndex(i0, j0, width) < pixelIndex
    {
      PixelIndexOrdered(i0, j0, i, j, width);
    }
    data[pixelIndex * 3 + 0] := trans.x;
    data[pixelIndex * 3 + 1] := trans.y;
    data[pixelIndex * 3 + 2] := trans.z;
  }

  /** `main`, without the file it writes: initialise the model, then bake the texture of the
      ATMOSPHERE literal into a fresh W x H x 3 buffer. */
  method BakeTransmittanceLut(lib: Libm, width: int, height: int) returns (header: AtmosphereParameters, data: array<real>)
    requires SqrtLaws(lib.sqrt) && width > 1 && height > 1
    ensures header == RgbAtmosphere(lib, InitModelInputs(lib))
    ensures data.Length == BufferLength(width, height)
    ensures FilledBefore(lib, ATMOSPHERE, width, height, data, height, 0)
    ensures fresh(data)
  {
    header := InitModel(lib);
    assert 0 <= width * height;
    data := new real[width * height * 3];
    FillTransmittanceLut(lib, ATMOSPHERE, width, height, data);
  }

  /** Every value of the baked buffer is a transmittance in (0, 1]. */
  lemma LutValuesAreTransmittances(lib: Libm, width: int, height: int, i: int, j: int, k: int)
    requires SqrtLaws(lib.sqrt) && ExpLaws(lib.exp) && width > 1 && height > 1
    requires 0 <= i < height && 0 <= j < width && 0 <= k < 3
    ensures 0.0 < Component(LutValue(lib, ATMOSPHERE, width, height, i, j), k) <= 1.0
  {
    AtmosphereLiteralWellFormed();
  }
}
