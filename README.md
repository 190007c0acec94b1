# Precomputed atmosphere: transmittance texture

This project models, in Dafny, the offline tool that bakes the transmittance look-up texture of
a physically based sky (the precomputed-atmosphere technique of Bruneton and Neyret).

The tool works in three stages:
1. `InitModel` builds seven spectral tables of 48 samples each for an Earth-like atmosphere
   (360 nm to 830 nm, one sample every 10 nm): wavelengths, solar irradiance, Rayleigh
   scattering, Mie scattering, Mie extinction, absorption extinction and ground albedo. It
   hands them to the `Model` constructor and then calls `PrintAtmParameter`, which prints the
   RGB `AtmosphereParameters` header (`Model.RgbAtmosphere`).
2. `main` holds that header as the literal `ATMOSPHERE`.
3. For every texel `(i, j)` of a `W x H` texture, `main` computes the transmittance from a
   point to the top of the atmosphere and stores its three channels in a row-major float
   buffer.

The transmittance of a texel is computed in four steps:
- the texel is mapped to a radius `r` and a view cosine `mu`;
- three optical lengths are integrated with a 501-sample trapezoid rule (Rayleigh, Mie and
  ozone), each against its density profile;
- the lengths are weighted by the extinction coefficients;
- the result is exponentiated.

The modules follow the source files:

| module | file | what it holds |
|---|---|---|
| `MathLib` | mathlib.dfy | the library functions `sqrt`, `exp`, `pow` and `cos`, as a record `Libm` of function values, with the laws the proofs use (`SqrtLaws`, `ExpLaws`) |
| `Util` | util.dfy | the clamp and guard helpers |
| `Vec` | vec.dfy | `Vec2`/`Vec3` as value datatypes, and the in-place `+=`/`-=` as methods of the classes `MutableVec2`/`MutableVec3` |
| `Definitions` | definitions.dfy | the unit constants, `DensityProfileLayer`, the two-layer `DensityProfile` and `AtmosphereParameters` |
| `Functions` | functions.dfy | the ray/sphere distances, the densities, the optical-length loop, the transmittance, the texture-coordinate map and the uv → (r, mu) parameterisation |
| `Model` | model.dfy | `Interpolate`, and the numbers of the constructor's GLSL header (`to_string`, `density_layer`, `density_profile`) |
| `Transmittance` | transmittance.dfy | `InitModel`, the ozone profile, the `ATMOSPHERE` literal and the texel loop that fills `data` |

How the source's forms are modelled:
- Loops become methods with invariants, proved equal to specification functions:
  - the optical-length loop and `Interpolate`;
  - the spectral-table loop;
  - the nested texel loop over an `array<real>`.
- `GetRMuFromTransmittanceTextureUv` writes its out-parameters `r` and `mu`. It is a method
  that returns both.
- All scalars are reals.
- `W` and `H` are parameters. The model requires `W, H >= 2`, so that `1 - 1/n` is not zero.

Where the code differs from its description, and what the model does:
- **`Vec2` subtraction.** `Vec2::operator-=` subtracts `b.x` from both components. The model
  keeps this behaviour. `Vec.Vec2SubAsWritten` states exactly when it agrees with
  component-wise subtraction.
- **`mu` depends on the final clamp.** The driver passes `(j, i) / (W, H)` without the half-texel
  offset. At `j = 0` this gives `x_mu < 0` (`Functions.FirstColumnBelowUnitRange`), which puts
  `d` below `d_min`. What happens next depends on the sign of `d`:
  - when `d > 0`, the cosine before the clamp exceeds 1 (`Functions.NegativeXMuNeedsClamp`), and
    only the final `ClampCosine` brings `mu` back to 1;
  - when `d < 0`, which happens only with `x_mu < 0`, the cosine before the clamp is below 1
    (`Functions.NegativeDistanceKeepsMuBelowOne`), so that texel gets a `mu` below 1, not 1;
  - when `d == 0`, `mu` is 1.
- **`r` can exceed the top radius.** The uv asserts of `GetRMuFromTransmittanceTextureUv`
  admit values of `uv.y` past the last texel centre. There `r` is above the top radius
  (`Functions.RadiusAboveTopPastLastTexel`). The transmittance asserts `r <= top_radius`
  (src/functions/functions.h:69), and so do the optical length and the distance to the top
  (lines 47 and 9). The model states all three asserts as preconditions. The texture wrapper
  takes the transmittance's assert as its own precondition. The texels of the driver always
  meet it (`Transmittance.TexelInDomain`).
- **Positive ground radius.** The derivation of `mu` divides by `2 r d`. The model requires a
  positive ground radius, which the source does not assert.

## Model

| member | source | states |
|---|---|---|
| Util.Clamp | src/functions/util.h:10-13 | under min <= max, the result is in [min, max]; it is num inside the range, min below it and max above it |
| Util.ClampIsNearest | src/functions/util.h:10-13 | the clamped value is the point of [min, max] nearest to num |
| Util.ClampIdempotent | src/functions/util.h:12 | clamping twice is clamping once |
| Util.ClampMonotone | src/functions/util.h:10-13 | clamp is monotone in num |
| Util.ClampCosine | src/functions/util.h:15-17 | the result is in [-1, 1], and it is mu when mu is already a cosine |
| Util.ClampDistance | src/functions/util.h:18-20 | the result is >= 0; it is d when d >= 0 and 0 otherwise |
| Util.ClampRadius | src/functions/util.h:21-23 | under bottom <= top, the result is in [bottom, top], and it is r when r is already in that range |
| Util.SafeSqrt | src/functions/util.h:24-26 | sqrt is applied to a for a >= 0 and to 0 otherwise; under the sqrt laws the result is >= 0 |
| Util.SafeSqrtSquared | src/functions/util.h:24-26 | under the sqrt laws, SafeSqrt(a)^2 == max(a, 0) |
| Vec.Exp | src/vec.h:159-162 | component-wise exp: under the exp laws every component is positive, a non-positive argument gives components <= 1, and exp(0) = (1, 1, 1) |
| Vec.Vec3Algebra | src/vec.h:68-90 | the Vec3 operators act component by component: + commutes, - undoes +, a + (-a) = 0, -a = a * -1, a * splat(s) = a * s, and / s undoes * s |
| Vec.Vec2Algebra | src/vec.h:37-55 | for Vec2: + commutes, -a = a * -1, a * splat(s) = a * s, / s undoes * s, and component-wise / undoes component-wise * |
| Vec.Vec2SubAsWritten | src/vec.h:25-35 | a - b == (a.x - b.x, a.y - b.x); (a - b) + b == a, and a - b equals the component-wise difference, each exactly when b.x == b.y |
| Vec.Vec2SubIntendedInverse | src/vec.h:25-29 | the component-wise difference undoes + in both orders and equals a + (-b) |
| Vec.Dot | src/vec.h:113-116 | dot(a, a) >= 0, and it is 0 exactly for the zero vector |
| Vec.Cross | src/vec.h:128-131 | cross(a, b) is orthogonal to both a and b, and cross(a, a) == 0 |
| Vec.Max | src/vec.h:145-150 | each component is the larger of the two: at least both, and equal to one of them |
| Vec.Min | src/vec.h:152-157 | each component is the smaller of the two: at most both, and equal to one of them |
| Vec.MinMaxBounds | src/vec.h:145-157 | min(a, b) + max(a, b) == a + b: the two pick complementary components |
| Vec.MutableVec2.constructor | src/vec.h:11 | the object holds the given vector; it also serves as the copy `Vec2 ret = *this` of vec.h:20 and :32 |
| Vec.MutableVec2.AddAssign | src/vec.h:13-17 | after a += b the object holds old value + b |
| Vec.MutableVec2.SubAssign | src/vec.h:25-29 | after a -= b the object holds old value - b as written: y loses b.x |
| Vec.Vec2Plus | src/vec.h:19-23 | copy, then +=, yields a + b |
| Vec.Vec2Minus | src/vec.h:31-35 | copy, then -=, yields (a.x - b.x, a.y - b.x) |
| Vec.MutableVec3.constructor | src/vec.h:66 | the object holds the given vector |
| Vec.MutableVec3.AddAssign | src/vec.h:92-97 | after a += b the object holds old value + b, and subtracting b gives the old value back |
| Definitions.UnitsAreScalars | src/atmosphereParameters/definitions.h:59-81 | base units are 1, km == 1000 m == 1000, m2, m3 and every derived radiometric unit are 1, and deg == pi / 180 with pi == PI rad |
| Functions.DistanceToTopAtmosphereBoundary | src/functions/functions.h:8-13 | under r <= top and mu in [-1, 1], the distance is >= 0 |
| Functions.DistanceToTopOnSphere | src/functions/functions.h:8-13 | under the sqrt laws, the distance is -r mu + sqrt(discriminant) and reaches a point on the top sphere |
| Functions.DistanceToBottomAtmosphereBoundary | src/functions/functions.h:16-21 | under r >= bottom and mu in [-1, 1], the distance is >= 0 |
| Functions.DistanceToBottomOnSphere | src/functions/functions.h:16-21 | when the ray hits the ground, under the sqrt laws, the distance is -r mu - sqrt(discriminant) and reaches a point on the ground sphere |
| Functions.RootsOnSphere | src/functions/functions.h:11-20 | both roots -r mu ± s of the discriminant are distances to points of the sphere |
| Functions.DiscriminantExpanded | src/functions/functions.h:11 | the discriminant is (r mu)^2 + rad^2 - r^2 |
| Functions.RayIntersectsGround | src/functions/functions.h:24-28 | a ray with mu >= 0 never intersects the ground |
| Functions.UpwardRayMissesGround | src/functions/functions.h:24-28 | from above the ground with mu >= 0, every point of the ray is above the ground sphere |
| Functions.GetLayerDensity | src/functions/functions.h:33-36 | the density is in [0, 1]; it is the layer formula where the formula is in [0, 1], 0 below that range and 1 above it |
| Functions.GetProfileDensity | src/functions/functions.h:39-43 | the density of a profile is in [0, 1] |
| Functions.ProfileDensityLayerChoice | src/functions/functions.h:39-43 | layer 0 is used exactly when altitude < layers[0].width, layer 1 otherwise |
| Functions.ProfileDensityIgnoresLastWidth | src/functions/functions.h:39-43 | changing the width of the last layer changes no density |
| Functions.IntegrandInUnitRange | src/functions/functions.h:55-59 | every sample density y_i lies in [0, 1] |
| Functions.WeightSumClosedForm | src/functions/functions.h:54-61 | the first n trapezoid weights sum to n - 1/2 (0 for n = 0), and all 501 sum to 500 |
| Functions.TrapezoidSumBounds | src/functions/functions.h:54-63 | with densities in [0, 1] and dx >= 0, each partial sum lies in [0, (sum of weights) dx] |
| Functions.StepsCoverDistance | src/functions/functions.h:52 | 500 steps of D / 500 cover D |
| Functions.TrapezoidSumZeroStep | src/functions/functions.h:52-63 | with dx == 0 the optical length is 0 |
| Functions.OpticalLengthToTop | src/functions/functions.h:46-65 | the optical length lies in [0, distance to the top boundary] |
| Functions.ComputeOpticalLengthToTopAtmosphereBoundary | src/functions/functions.h:46-65 | the loop over i = 0 .. 500 returns OpticalLengthToTop, hence a value in [0, distance to top] |
| Functions.FirstSampleAtOrigin | src/functions/functions.h:55-57 | under the sqrt laws, the radius of sample 0 is r |
| Functions.LastSampleAtTop | src/functions/functions.h:52-57 | under the sqrt laws, the radius of sample 500 is the top radius |
| Functions.OpticalDepthOfNonNegative | src/functions/functions.h:72-75 | non-negative coefficients and optical lengths give a depth >= 0, and so an exponent <= 0, in every channel |
| Functions.OpticalDepthOfZero | src/functions/functions.h:72-75 | zero optical lengths give a zero depth |
| Functions.OpticalDepth | src/functions/functions.h:71-75 | with non-negative coefficients, the exponent -(rayleigh + mie + ozone) is <= 0 in every channel |
| Functions.ComputeTransmittanceToTopAtmosphereBoundary | src/functions/functions.h:68-76 | under the exp laws and non-negative coefficients, every channel is in (0, 1] |
| Functions.OpticalLengthOfEmptyPath | src/functions/functions.h:52-64 | a path of length 0 has optical length 0 |
| Functions.TransmittanceOfEmptyPath | src/functions/functions.h:68-76 | a path of length 0 has transmittance (1, 1, 1) |
| Functions.TopLookingUpIsEmptyPath | src/functions/functions.h:8-13 | at r = top looking straight up, the distance to the top is 0 |
| Functions.TexelSpan | src/functions/functions.h:80 | 1 - 1/n lies in (0, 1) for n >= 2 |
| Functions.GetUnitRangeFromTextureCoord | src/functions/functions.h:79-81 | the result is the unit-range value that the texel-centre encoding maps back to u |
| Functions.UnitRangeLowerBound | src/functions/functions.h:79-81 | every u >= 0 maps to at least -1/(2 (n - 1)), hence to at least -1/2 |
| Functions.UnitRangeRoundTrip | src/functions/functions.h:79-81 | the texture-coordinate map and its encoding direction are inverse to each other |
| Functions.UnitRangeEndpoints | src/functions/functions.h:79-81 | 0.5/n maps to 0 and 1 - 0.5/n maps to 1 |
| Functions.UnitRangeStrictlyIncreasing | src/functions/functions.h:79-81 | the map is strictly increasing |
| Functions.UnitRangeOfTexelCorner | src/functions/functions.h:79-81 | the whole-number coordinate k / n maps to (k - 1/2) / (n - 1) |
| Functions.FirstColumnBelowUnitRange | src/functions/functions.h:79-81 | at u = 0, the first column of the driver, x_mu is negative |
| Functions.HorizonFacts | src/functions/functions.h:90 | under the sqrt laws and bottom <= top, 0 <= H <= top and H^2 = top^2 - bottom^2 |
| Functions.RadiusFacts | src/functions/functions.h:93 | r^2 = rho^2 + bottom^2, bottom <= r and abs(rho) <= r |
| Functions.RMuFromUnitRange | src/functions/functions.h:90-99 | r >= bottom; mu in [-1, 1]; mu == 1 when d == 0; mu is the unclamped cosine when that is in [-1, 1], -1 below and 1 above |
| Functions.DeriveRMu | src/functions/functions.h:84-100 | for every uv in the unit square, r >= bottom radius and mu in [-1, 1] |
| Functions.GetRMuFromTransmittanceTextureUv | src/functions/functions.h:84-100 | writes the r and mu of DeriveRMu, so r >= bottom radius and mu in [-1, 1] |
| Functions.GeometryOfUnitRange | src/functions/functions.h:90-93 | H, rho and r satisfy the square relations of the horizon triangle |
| Functions.DerivedFromUnitRange | src/functions/functions.h:90-99 | every intermediate quantity (H, rho, r, d_min, d_max, d, mu) is formed as the source forms it |
| Functions.DerivationGeometry | src/functions/functions.h:84-100 | the same, for the derivation of any uv, with x_mu and x_r mapped from uv.x over W and uv.y over H; in particular d_min == top - r and d_max == rho + H |
| Functions.RadiusAtMostTopOf | src/functions/functions.h:92-93 | abs(x_r) <= 1 keeps r <= top |
| Functions.RadiusAtMostTop | src/functions/functions.h:85-93 | for every uv of the unit square with x_r <= 1, the derived r is at most the top radius |
| Functions.RadiusAboveTopOf | src/functions/functions.h:92-93 | x_r > 1 puts r above the top radius |
| Functions.RadiusAboveTopPastLastTexel | src/functions/functions.h:85-93 | for uv.y > 1 - 0.5/H, which the uv asserts admit, r exceeds the top radius |
| Functions.StartBelowFarthestScalar | src/functions/functions.h:92-96 | for rho = -s with 0 <= s <= H: top + s <= H + r, that is d_min <= d_max |
| Functions.DistancesOrdered | src/functions/functions.h:92-96 | d_min <= d_max for every x_r >= -1 |
| Functions.DistanceBetweenExtremesOf | src/functions/functions.h:95-97 | d_min <= d_max for x_r >= -1, and x_mu in [0, 1] puts d in [d_min, d_max] |
| Functions.DistanceBetweenExtremes | src/functions/functions.h:85-97 | for every uv of the unit square with x_mu in [0, 1], d lies in [d_min, d_max] |
| Functions.CosineInRange | src/functions/functions.h:98 | for top - r <= d <= top + r and d > 0, the cosine (H^2 - rho^2 - d^2) / (2 r d) is in [-1, 1] |
| Functions.CosineUnclampedOf | src/functions/functions.h:95-98 | with abs(x_r) <= 1, x_mu in [0, 1] and d > 0, the unclamped cosine is in [-1, 1] |
| Functions.CosineUnclampedAtTexelCentres | src/functions/functions.h:85-99 | for uv in the unit square with x_r <= 1, x_mu in [0, 1] and d > 0, the unclamped cosine is in [-1, 1] and the final clamp does not change mu |
| Functions.CosineTimesDenominator | src/functions/functions.h:98 | for d != 0 the unclamped cosine solves the law of cosines mu (2 r d) = top^2 - r^2 - d^2 |
| Functions.RoundTripScalar | src/functions/functions.h:11 | such a cosine makes the top discriminant the square (d + r mu)^2, with d + r mu >= 0 |
| Functions.DistanceRoundTripOf | src/functions/functions.h:8-13 | the distance to the top along a ray whose cosine solves the law of cosines is d |
| Functions.DistanceRoundTrip | src/functions/functions.h:84-100 | round trip: where the clamp left mu unchanged, DistanceToTopAtmosphereBoundary(r, mu) gives back the d the parameterisation started from |
| Functions.CosineAboveOne | src/functions/functions.h:98 | for 0 < d < top - r the unclamped cosine exceeds 1 |
| Functions.SolutionAboveOne | src/functions/functions.h:98 | a solution of the law of cosines with r + d < top exceeds 1 |
| Functions.DistanceBelowStart | src/functions/functions.h:97 | x_mu < 0 puts d below d_min |
| Functions.NegativeXMuNeedsClampOf | src/functions/functions.h:95-99 | x_mu < 0 and d > 0 give d < d_min and an unclamped cosine above 1 |
| Functions.NegativeXMuNeedsClamp | src/functions/functions.h:87-99 | for any uv with x_mu < 0 and d > 0, the raw cosine exceeds 1 and only the clamp brings mu to 1 |
| Functions.SolutionBelowOne | src/functions/functions.h:98 | a solution of the law of cosines with d < 0 and 0 <= r + d < top is below 1 |
| Functions.NegativeDistanceOf | src/functions/functions.h:95-98 | with abs(x_r) <= 1, x_mu >= -1/2 and d < 0: x_mu < 0, 0 <= r + d < top, and the unclamped cosine is below 1 |
| Functions.NegativeDistanceKeepsMuBelowOne | src/functions/functions.h:85-99 | for any uv of the unit square with x_r <= 1 and d < 0: x_mu < 0, and both the raw cosine and mu are below 1 |
| Functions.ComputeTransmittanceToTopAtmosphereBoundaryTexture | src/functions/functions.h:103-109 | for a fragment whose uv is in the unit square and whose r is at most the top radius, under the exp laws and non-negative coefficients, every channel is in (0, 1] |
| Model.Interpolate | src/atmosphereParameters/model.cpp:5-21 | the linear search returns Interpolation(wavelengths, values, wavelength) |
| Model.LerpWithin | src/atmosphereParameters/model.cpp:17 | for u in [0, 1], the blend stays in any interval containing both ends |
| Model.LerpAscending | src/atmosphereParameters/model.cpp:17 | for f0 <= f1 and u in [0, 1], the blend lies in [f0, f1] |
| Model.LerpAsStep | src/atmosphereParameters/model.cpp:17 | f0 (1 - u) + f1 u == f0 + u (f1 - f0) |
| Model.LerpSymmetric | src/atmosphereParameters/model.cpp:17 | blending f0 to f1 at u is blending f1 to f0 at 1 - u |
| Model.ParameterInUnitRange | src/atmosphereParameters/model.cpp:16 | for w0 <= wavelength < w1, u is in [0, 1) |
| Model.InterpolationFromBounds | src/atmosphereParameters/model.cpp:13-20 | when every sample is in [lo, hi], so is the value found from index i on |
| Model.InterpolationBounds | src/atmosphereParameters/model.cpp:5-21 | when every sample is in [lo, hi], so is the interpolation |
| Model.InterpolationFromFirstInterval | src/atmosphereParameters/model.cpp:13-18 | the search from j returns the blend of the first interval i >= j with wavelength < wavelengths[i + 1] |
| Model.InterpolationPicksFirstInterval | src/atmosphereParameters/model.cpp:13-18 | the first i with wavelength < wavelengths[i + 1] is chosen, its u is in [0, 1), and the result is the blend of values[i] and values[i + 1] |
| Model.InterpolationWithinInterval | src/atmosphereParameters/model.cpp:13-18 | for ascending wavelengths inside [w_i, w_{i+1}), the result is the blend at u and it lies between values[i] and values[i + 1] |
| Model.InterpolationFromAboveLast | src/atmosphereParameters/model.cpp:13-20 | at or above the last wavelength, the search falls through to the last sample |
| Model.InterpolationOutsideRange | src/atmosphereParameters/model.cpp:10-20 | below the first wavelength the result is values[0]; at or above the last it is the last sample |
| Model.InterpolationAtSample | src/atmosphereParameters/model.cpp:13-17 | at wavelength == wavelengths[i] the result is values[i] exactly |
| Model.ToRgb | src/atmosphereParameters/model.cpp:46-51 | a non-negative spectrum with a non-negative scale gives non-negative channels |
| Model.ToRgbAtSamples | src/atmosphereParameters/model.cpp:46-49 | for ascending wavelengths, at sample wavelengths the three channels are those samples times the scale |
| Model.ChannelFacts | src/atmosphereParameters/model.cpp:47 | a non-negative spectrum and scale give a non-negative channel; a flat spectrum gives its value times the scale |
| Model.ToRgbBounds | src/atmosphereParameters/model.cpp:46-51 | samples in [lo, hi] and scale >= 0 give channels in [lo scale, hi scale] |
| Model.ChannelBounds | src/atmosphereParameters/model.cpp:47 | the same for one channel |
| Model.ToRgbOfConstant | src/atmosphereParameters/model.cpp:46-51 | a constant spectrum c gives the vector (c scale, c scale, c scale) |
| Model.DensityLayerInUnits | src/atmosphereParameters/model.cpp:52-60 | back in metres the converted layer is the original: width * unit, exp_scale / unit and linear_term / unit are the original fields, and exp_term and constant_term are unchanged |
| Model.DensityLayerInUnitsPreservesDensity | src/atmosphereParameters/model.cpp:52-60 | the converted layer at x gives the density of the original layer at x * unit |
| Model.LayerFormulaRescaled | src/atmosphereParameters/model.cpp:52-60 | the same for the unclamped formula |
| Model.LayerFormulaInUnits | src/atmosphereParameters/model.cpp:52-60 | the conversion multiplies exp_scale and linear_term by the unit and keeps exp_term and constant_term |
| Model.ExpLinearRescaled | src/atmosphereParameters/model.cpp:57-58 | scaling the two coefficients by u is scaling the altitude by u |
| Model.DensityLayerInUnitsInverse | src/atmosphereParameters/model.cpp:52-60 | converting with unit and then with 1 / unit gives back the layer |
| Model.WidthInUnits | src/atmosphereParameters/model.cpp:55 | x < width / unit exactly when x * unit < width, so the converted profile switches layers at the same altitude |
| Model.PaddedLayers | src/atmosphereParameters/model.cpp:64-66 | the padded list has max(2, length) layers |
| Model.PaddedLayersContents | src/atmosphereParameters/model.cpp:64-66 | the padding prepends 2 - length all-zero layers and keeps the given layers as the last ones |
| Model.DensityProfileOfLayers | src/atmosphereParameters/model.cpp:61-74 | no layers print two default layers; one layer prints a default layer and then that layer; of two or more, the first two are printed; every printed layer is converted to the unit |
| Model.DensityProfileFromLayers | src/atmosphereParameters/model.cpp:61-74 | the while loop of insertions and the two-layer emission yield DensityProfileOf(layers, unit) |
| Model.ZeroLayerHasNoDensity | src/atmosphereParameters/model.cpp:65 | a default layer converts to itself and has density 0 everywhere |
| Model.SingleLayerProfile | src/atmosphereParameters/model.cpp:61-74 | one layer becomes [zero layer, converted layer], and at altitudes >= 0 the profile is that layer |
| Model.ProfileInUnitsPreservesDensity | src/atmosphereParameters/model.cpp:61-74 | the converted profile at x gives the density of the padded profile in metres at x * unit |
| Model.GlslHeaderParameters | src/atmosphereParameters/model.cpp:77-93 | the radii times the unit give the radii in metres and keep their order, the sun angular radius and g pass unchanged, and under the cosine laws mu_s_min is in [-1, 1] |
| Model.GlslHeaderWellFormed | src/atmosphereParameters/model.cpp:77-94 | 0 < bottom < top, non-negative spectra and a true cosine give a well-formed header atmosphere, for any three wavelengths |
| Transmittance.OzoneLayersMeetAt25Km | src/Transmittance.cpp:84-86 | both ozone layers give density 1 at 25 km; layer 0 is 0 at 10 km and layer 1 is 0 at 40 km |
| Transmittance.OzoneProfileIsTent | src/Transmittance.cpp:80-86 | the two-layer ozone profile is, at every altitude, the tent 0 → 1 → 0 over 10, 25 and 40 km |
| Transmittance.OzoneIndex | src/Transmittance.cpp:104 | for l in [360, 830], (l - 360) / 10 is in [0, 48), and it is k at l = 360 + 10 k |
| Transmittance.Samples | src/Transmittance.cpp:95-106 | after n iterations each vector holds n samples |
| Transmittance.SamplesHold | src/Transmittance.cpp:95-106 | sample k of each vector is the value pushed at l = 360 + 10 k |
| Transmittance.BuildSpectralTables | src/Transmittance.cpp:88-106 | the push_back loop over l = 360, 370, ..., 830 yields the seven 48-sample tables |
| Transmittance.WavelengthsAscending | src/Transmittance.cpp:95-98 | the wavelength table is strictly ascending, as Interpolate needs |
| Transmittance.InitModelInputs | src/Transmittance.cpp:108-113 | the constructor arguments are valid: seven spectra of 48 samples each and a positive length unit |
| Transmittance.InitModel | src/Transmittance.cpp:28-115 | the printed header is the RGB atmosphere of those arguments |
| Transmittance.AtmosphereLiteralWellFormed | src/Transmittance.cpp:123-146 | the literal is well formed (0 < bottom < top, non-negative coefficients, mu_s_min a cosine), and its sun angular radius is kSunAngularRadius |
| Transmittance.HeaderIsAtmosphereLiteral | src/Transmittance.cpp:108-146 | the header InitModel prints is the literal: solar irradiance, sun radius, radii, Rayleigh profile, g and ground albedo exactly; the Mie and ozone profiles and the ozone extinction to the six printed decimals |
| Transmittance.HeaderMieCoefficients | src/Transmittance.cpp:95-103 | under pow(x, 0) = 1, the header's Mie scattering and extinction are exactly the literal's (0.003996 and 0.004440 in every channel), because kMieAngstromAlpha = 0 |
| Transmittance.HeaderConstantSpectra | src/Transmittance.cpp:99-105 | the constant spectra pushed by the loop print as (1.5, 1.5, 1.5) and (0.1, 0.1, 0.1) |
| Transmittance.HeaderProfiles | src/Transmittance.cpp:128-143 | the three layer lists, padded and converted to kilometres, are the literal's profiles |
| Transmittance.RayleighProfileInKilometres | src/Transmittance.cpp:128-131 | { rayleigh_layer } becomes [zero layer, (0, 1, -0.125, 0, 0)] exactly |
| Transmittance.MieProfileInKilometres | src/Transmittance.cpp:133-136 | { mie_layer } becomes [zero layer, (0, 1, -0.833333..., 0, 0)], printed as the literal |
| Transmittance.OzoneProfileInKilometres | src/Transmittance.cpp:140-143 | the ozone layers become (25, 0, 0, 0.0666..., -0.666...) and (0, 0, 0, -0.0666..., 2.666...), printed as the literal |
| Transmittance.HeaderOzoneExtinction | src/Transmittance.cpp:144 | the ozone extinction channels print as (0.000650, 0.001881, 0.000085) |
| Transmittance.OzoneExtinctionPrinted | src/Transmittance.cpp:144 | kMaxOzoneNumberDensity times the cross sections at 680, 550 and 440 nm, per km, print as the literal's channels |
| Transmittance.AbsorptionAtChannel | src/Transmittance.cpp:104 | at the wavelength of sample k the ozone channel is exactly that sample's absorption, per length unit |
| Transmittance.PixelIndex | src/Transmittance.cpp:154 | for 0 <= j < W, dividing the index by W gives back the row i and the remainder the column j |
| Transmittance.TexelIndex | src/Transmittance.cpp:154-157 | for i < H, j < W and k < 3, (i W + j) * 3 + k lies inside the W * H * 3 buffer |
| Transmittance.PixelIndexOrdered | src/Transmittance.cpp:149-154 | row-major order: an earlier row, or an earlier column of the same row, has a smaller pixel index |
| Transmittance.TexelIndexInjective | src/Transmittance.cpp:149-159 | no two (i, j, k) share a slot |
| Transmittance.TexelOfSlot | src/Transmittance.cpp:149-159 | every slot of the buffer belongs to some (i, j, k), so with injectivity each slot is written exactly once |
| Transmittance.TexelInDomain | src/Transmittance.cpp:151-152 | uv = (j / W, i / H) is in the unit square and its radius is at most the top radius, so the callee's asserts hold |
| Transmittance.LutValue | src/Transmittance.cpp:151-152 | under the exp laws and non-negative coefficients, the texel's transmittance is in (0, 1] in every channel |
| Transmittance.FillTexel | src/Transmittance.cpp:151-157 | the three writes of one texel extend the filled prefix by that texel |
| Transmittance.FillTransmittanceLut | src/Transmittance.cpp:149-159 | after the nested loops every slot of the buffer holds its channel of its texel's transmittance |
| Transmittance.BakeTransmittanceLut | src/Transmittance.cpp:117-159 | main prints the InitModel header and fills a fresh W * H * 3 buffer with the literal's texture |
| Transmittance.LutValuesAreTransmittances | src/Transmittance.cpp:149-157 | every value of the baked buffer is in (0, 1] |

## Left out

- Image output: `stbi_write_hdr`, the output path built from `argv[1]`, and the stdout of `PrintAtmParameter`. These are I/O. The model returns the header and the buffer instead.
- Text formatting: `std::to_string` and the GLSL string assembly. The model computes the numbers the header prints. "Printed as" means within 5e-7 of the six-decimal literal.
- Floating point: `float`/`double` rounding is not modelled, and all arithmetic is on reals. This covers the double → float narrowing of `clamp`'s float parameters and of `static_cast<float>` into `data`, which is why the buffer is an `array<real>`.
- Concrete values of `sqrt`, `exp`, `pow` and `cos`: these are function parameters (`MathLib.Libm`), and a member that needs a law of sqrt, exp or cos says so in its requires.
- Values that depend on `pow(lambda, -4)` or `cos`: those parts of the header are not compared with the literal. This covers the Rayleigh scattering and mu_s_min = cos(102°). The Mie values use only `pow(lambda, -0)` and are compared under the law pow(x, 0) = 1 (`Transmittance.HeaderMieCoefficients`).
- `length`, `normalize` and `SphericalToVector` of src/vec.h: these use sqrtf, sin and cos and the code modelled here does not call them.
- `Vec4`: a plain holder of four fields with no operations.
- `TRANSMITTANCE_TEXTURE_WIDTH`/`HEIGHT`: their header is not part of this model. Every member takes W and H as parameters with W, H >= 2.
- The file-level constants of src/Transmittance.cpp (`kEpsilon`, `kSolarIrradiance`, `kBottomRadius`, `kTopRadius`, the scale heights, scattering, extinction, albedo and `kSunSolidAngle`): the code never reads them.
- The solar irradiance table of `InitModel`: the code never reads it either. It passes `kConstantSolarIrradiance` in its place.
- Scale heights: the 8000 m and 1200 m scale heights of `InitModel` are written as literal divisors, with no named constants.
- Transmittance.BuildSpectralTables: the ozone cross-section table is a parameter, called with the source's 48 values. Its contract holds for any 48-entry table.
- The GPU handles of `Model`, the closure storage of `glsl_header_factory_`, and the unused constructor arguments (`3`, `false`, `false`). The header is a function of the constructor arguments.
- Functions.ComputeTransmittanceToTopAtmosphereBoundaryTexture: requires r <= topRadius. The callee asserts it (src/functions/functions.h:69), and the wrapper takes that assert as its precondition, so a failing assert is not modelled. The driver's texels meet it (Transmittance.TexelInDomain).
- Functions.DeriveRMu: requires a positive bottom radius, which the source does not assert. The division by 2 r d needs it.
- Monotonicity of the transmittance in mu: not stated, because it depends on properties of exp and sqrt beyond the laws used here.
