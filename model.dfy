/** The numeric content of src/atmosphereParameters/model.cpp: the spectral interpolation
    `Interpolate`, and the numbers the GLSL header of the `Model` constructor is built from
    (the `to_string`, `density_layer` and `density_profile` lambdas).  The text those numbers
    are printed into is not modelled; each lambda yields the values it would print. */
module Model {
  import opened MathLib
  import opened Vec
  import opened Definitions
  import opened Functions

  // ---------------------------------------------------------------------------------------
  // Interpolate

  /** `f0 * (1.0 - u) + f1 * u`. */
  function Lerp(f0: real, f1: real, u: real): real {
    f0 * (1.0 - u) + f1 * u
  }

  /** The value the search loop returns once it reaches index i, knowing that the wavelength
      is not below wavelengths[i]: either the first later interval containing it, or the last
      sample. */
  function InterpolationFrom(wavelengths: seq<real>, values: seq<real>, wavelength: real, i: nat): real
    requires |values| == |wavelengths| && i < |wavelengths|
    requires wavelengths[i] <= wavelength
    decreases |wavelengths| - i
  {
    if i == |wavelengths| - 1 then values[|values| - 1]
    else if wavelength < wavelengths[i + 1] then
      Lerp(values[i], values[i + 1], (wavelength - wavelengths[i]) / (wavelengths[i + 1] - wavelengths[i]))
    else InterpolationFrom(wavelengths, values, wavelength, i + 1)
  }

  /** The value of `Interpolate(wavelengths, values, wavelength)`. */
  function Interpolation(wavelengths: seq<real>, values: seq<real>, wavelength: real): real
    requires |values| == |wavelengths| && 0 < |wavelengths|
  {
    if wavelength < wavelengths[0] then values[0] else InterpolationFrom(wavelengths, values, wavelength, 0)
  }

  /** `Interpolate`: a linear search for the first sample above the wavelength, with early
      returns.  The source asserts equal sizes and reads index 0, so both sequences must be
      non-empty.  No ordering is needed for the division to be defined: the loop reaches i
      only when wavelengths[i] <= wavelength, and divides only when wavelength <
      wavelengths[i + 1]. */
  method Interpolate(wavelengths: seq<real>, values: seq<real>, wavelength: real) returns (v: real)
    requires |values| == |wavelengths| && 0 < |wavelengths|
    ensures v == Interpolation(wavelengths, values, wavelength)
  {
    if wavelength < wavelengths[0] {
      return values[0];
    }
    for i := 0 to |wavelengths| - 1
      invariant wavelengths[i] <= wavelength
      invariant InterpolationFrom(wavelengths, values, wavelength, i) == Interpolation(wavelengths, values, wavelength)
    {
      if wavelength < wavelengths[i + 1] {
        var u := (wavelength - wavelengths[i]) / (wavelengths[i + 1] - wavelengths[i]);
        return Lerp(values[i], values[i + 1], u);
      }
    }
    return values[|values| - 1];
  }

  predicate StrictlyAscending(s: seq<real>) {
    forall a, b :: 0 <= a < b < |s| ==> s[a] < s[b]
  }

  /** For u in [0, 1] the blend of two values within [lo, hi] is within [lo, hi]. */
  lemma LerpWithin(f0: real, f1: real, u: real, lo: real, hi: real)
    requires 0.0 <= u <= 1.0
    requires lo <= f0 <= hi && lo <= f1 <= hi
    ensures lo <= Lerp(f0, f1, u) <= hi
  {
    if f0 <= f1 {
      LerpAscending(f0, f1, u);
    } else {
      LerpSymmetric(f0, f1, u);
      LerpAscending(f1, f0, 1.0 - u);
    }
  }

  /** Between two ascending values the blend lies between them. */
  lemma LerpAscending(f0: real, f1: real, u: real)
    requires 0.0 <= u <= 1.0 && f0 <= f1
    ensures f0 <= Lerp(f0, f1, u) <= f1
  {
    LerpAsStep(f0, f1, u);
    FractionOf(f1 - f0, u);
  }

  /** The blend is the first value plus a fraction u of the step to the second. */
  lemma LerpAsStep(f0: real, f1: real, u: real)
    ensures Lerp(f0, f1, u) == f0 + Mul(u, f1 - f0)
  {
  }

  /** Blending from f1 back to f0 with 1 - u is the same blend. */
  lemma LerpSymmetric(f0: real, f1: real, u: real)
    ensures Lerp(f0, f1, u) == Lerp(f1, f0, 1.0 - u)
  {
  }

  /** The interpolation parameter of an interval that contains the wavelength is in [0, 1). */
  lemma ParameterInUnitRange(w0: real, w1: real, wavelength: real)
    requires w0 <= wavelength < w1
    ensures 0.0 <= (wavelength - w0) / (w1 - w0) < 1.0
  {
    var u := (wavelength - w0) / (w1 - w0);
    assert u * (w1 - w0) == wavelength - w0;
    assert u < 1.0 by {
      MulCompare(u, 1.0, w1 - w0);
      assert 1.0 * (w1 - w0) == w1 - w0;
    }
    assert 0.0 <= u by {
      MulCompare(0.0, u, w1 - w0);
      assert 0.0 * (w1 - w0) == 0.0;
    }
  }

  lemma {:induction false} InterpolationFromBounds(wavelengths: seq<real>, values: seq<real>, wavelength: real,
                                                   i: nat, lo: real, hi: real)
    requires |values| == |wavelengths| && i < |wavelengths|
    requires wavelengths[i] <= wavelength
    requires forall k :: 0 <= k < |values| ==> lo <= values[k] <= hi
    ensures lo <= InterpolationFrom(wavelengths, values, wavelength, i) <= hi
    decreases |wavelengths| - i
  {
    if i < |wavelengths| - 1 {
      if wavelength < wavelengths[i + 1] {
        ParameterInUnitRange(wavelengths[i], wavelengths[i + 1], wavelength);
        LerpWithin(values[i], values[i + 1], (wavelength - wavelengths[i]) / (wavelengths[i + 1] - wavelengths[i]), lo, hi);
      } else {
        InterpolationFromBounds(wavelengths, values, wavelength, i + 1, lo, hi);
      }
    }
  }

  /** Interpolation never leaves the range of the samples: values all in [lo, hi] give a
      result in [lo, hi], whatever the order of the wavelengths. */
  lemma InterpolationBounds(wavelengths: seq<real>, values: seq<real>, wavelength: real, lo: real, hi: real)
    requires |values| == |wavelengths| && 0 < |wavelengths|
    requires forall k :: 0 <= k < |values| ==> lo <= values[k] <= hi
    ensures lo <= Interpolation(wavelengths, values, wavelength) <= hi
  {
    if wavelengths[0] <= wavelength {
      InterpolationFromBounds(wavelengths, values, wavelength, 0, lo, hi);
    }
  }

  lemma {:induction false} InterpolationFromFirstInterval(wavelengths: seq<real>, values: seq<real>, wavelength: real,
                                                          j: nat, i: nat)
    requires |values| == |wavelengths| && j <= i && i + 1 < |wavelengths|
    requires wavelengths[j] <= wavelength < wavelengths[i + 1]
    requires forall k :: j < k <= i ==> wavelengths[k] <= wavelength
    ensures wavelengths[i] <= wavelength
    ensures InterpolationFrom(wavelengths, values, wavelength, j)
         == Lerp(values[i], values[i + 1], (wavelength - wavelengths[i]) / (wavelengths[i + 1] - wavelengths[i]))
    decreases i - j
  {
    if j < i {
      InterpolationFromFirstInterval(wavelengths, values, wavelength, j + 1, i);
    }
  }

  /** From the first wavelength on, the result blends the two samples of the FIRST interval
      whose upper end exceeds the wavelength, with a parameter u in [0, 1). */
  lemma InterpolationPicksFirstInterval(wavelengths: seq<real>, values: seq<real>, wavelength: real, i: nat)
    requires |values| == |wavelengths| && i + 1 < |wavelengths|
    requires wavelengths[0] <= wavelength < wavelengths[i + 1]
    requires forall k :: 0 < k <= i ==> wavelengths[k] <= wavelength
    ensures wavelengths[i] <= wavelength
    ensures var u := (wavelength - wavelengths[i]) / (wavelengths[i + 1] - wavelengths[i]);
      0.0 <= u < 1.0 && Interpolation(wavelengths, values, wavelength) == Lerp(values[i], values[i + 1], u)
  {
    InterpolationFromFirstInterval(wavelengths, values, wavelength, 0, i);
    ParameterInUnitRange(wavelengths[i], wavelengths[i + 1], wavelength);
  }

  /** For strictly ascending wavelengths with wavelengths[i] <= wavelength <
      wavelengths[i + 1], the result is the blend of samples i and i + 1, between the two. */
  lemma InterpolationWithinInterval(wavelengths: seq<real>, values: seq<real>, wavelength: real, i: nat)
    requires |values| == |wavelengths| && i + 1 < |wavelengths|
    requires StrictlyAscending(wavelengths)
    requires wavelengths[i] <= wavelength < wavelengths[i + 1]
    ensures var u := (wavelength - wavelengths[i]) / (wavelengths[i + 1] - wavelengths[i]);
      Interpolation(wavelengths, values, wavelength) == Lerp(values[i], values[i + 1], u)
    ensures MinReal(values[i], values[i + 1]) <= Interpolation(wavelengths, values, wavelength)
                                             <= MaxReal(values[i], values[i + 1])
  {
    assert wavelengths[0] <= wavelengths[i];
    forall k | 0 < k <= i
      ensures wavelengths[k] <= wavelength
    {
      assert wavelengths[k] <= wavelengths[i];
    }
    InterpolationPicksFirstInterval(wavelengths, values, wavelength, i);
    var u := (wavelength - wavelengths[i]) / (wavelengths[i + 1] - wavelengths[i]);
    LerpWithin(values[i], values[i + 1], u, MinReal(values[i], values[i + 1]), MaxReal(values[i], values[i + 1]));
  }

  lemma {:induction false} InterpolationFromAboveLast(wavelengths: seq<real>, values: seq<real>, wavelength: real, i: nat)
    requires |values| == |wavelengths| && i < |wavelengths|
    requires StrictlyAscending(wavelengths)
    requires wavelengths[|wavelengths| - 1] <= wavelength && wavelengths[i] <= wavelength
    ensures InterpolationFrom(wavelengths, values, wavelength, i) == values[|values| - 1]
    decreases |wavelengths| - i
  {
    if i < |wavelengths| - 1 {
      assert wavelengths[i + 1] <= wavelengths[|wavelengths| - 1];
      InterpolationFromAboveLast(wavelengths, values, wavelength, i + 1);
    }
  }

  /** Outside the sampled range the result is the nearest end sample: the first one below
      the first wavelength, the last one at or above the last wavelength. */
  lemma InterpolationOutsideRange(wavelengths: seq<real>, values: seq<real>, wavelength: real)
    requires |values| == |wavelengths| && 0 < |wavelengths|
    requires StrictlyAscending(wavelengths)
    ensures wavelength < wavelengths[0] ==> Interpolation(wavelengths, values, wavelength) == values[0]
    ensures wavelengths[|wavelengths| - 1] <= wavelength ==>
      Interpolation(wavelengths, values, wavelength) == values[|values| - 1]
  {
    if wavelengths[|wavelengths| - 1] <= wavelength {
      assert wavelengths[0] <= wavelengths[|wavelengths| - 1];
      InterpolationFromAboveLast(wavelengths, values, wavelength, 0);
    }
  }

  /** The interpolation passes through every sample: at wavelengths[i] it is values[i]. */
  lemma InterpolationAtSample(wavelengths: seq<real>, values: seq<real>, i: nat)
    requires |values| == |wavelengths| && i < |wavelengths|
    requires StrictlyAscending(wavelengths)
    ensures Interpolation(wavelengths, values, wavelengths[i]) == values[i]
  {
    if i == |wavelengths| - 1 {
      InterpolationOutsideRange(wavelengths, values, wavelengths[i]);
    } else {
      InterpolationWithinInterval(wavelengths, values, wavelengths[i], i);
      assert (wavelengths[i] - wavelengths[i]) / (wavelengths[i + 1] - wavelengths[i]) == 0.0;
    }
  }

  // ---------------------------------------------------------------------------------------
  // to_string: three interpolated samples, scaled

  /** `kLambdaR`, `kLambdaG`, `kLambdaB`: the wavelengths, in nm, of the three channels. */
  const LAMBDA_R: real := 680.0
  const LAMBDA_G: real := 550.0
  const LAMBDA_B: real := 440.0

  /** The three numbers `to_string(v, lambdas, scale)` prints: the spectrum v sampled at the
      three wavelengths of lambdas and multiplied by scale. */
  function ToRgb(wavelengths: seq<real>, v: seq<real>, lambdas: Vec3, scale: real): (rgb: Vec3)
    requires |v| == |wavelengths| && 0 < |wavelengths|
    ensures AllNonNegative(v) && 0.0 <= scale ==> rgb.AllAtLeast(0.0)
  {
    ChannelFacts(wavelengths, v, lambdas.x, scale);
    ChannelFacts(wavelengths, v, lambdas.y, scale);
    ChannelFacts(wavelengths, v, lambdas.z, scale);
    Vec3(Channel(wavelengths, v, lambdas.x, scale),
         Channel(wavelengths, v, lambdas.y, scale),
         Channel(wavelengths, v, lambdas.z, scale))
  }

  /** `Interpolate(wavelengths, v, lambda) * scale`. */
  function Channel(wavelengths: seq<real>, v: seq<real>, lambda: real, scale: real): real
    requires |v| == |wavelengths| && 0 < |wavelengths|
  {
    Interpolation(wavelengths, v, lambda) * scale
  }

  /** A spectrum within [lo, hi] gives channels within [lo * scale, hi * scale]; in
      particular a non-negative spectrum and scale give non-negative channels. */
  lemma ToRgbBounds(wavelengths: seq<real>, v: seq<real>, lambdas: Vec3, scale: real, lo: real, hi: real)
    requires |v| == |wavelengths| && 0 < |wavelengths|
    requires forall k :: 0 <= k < |v| ==> lo <= v[k] <= hi
    requires 0.0 <= scale
    ensures ToRgb(wavelengths, v, lambdas, scale).AllAtLeast(lo * scale)
    ensures ToRgb(wavelengths, v, lambdas, scale).AllAtMost(hi * scale)
  {
    ChannelBounds(wavelengths, v, lambdas.x, scale, lo, hi);
    ChannelBounds(wavelengths, v, lambdas.y, scale, lo, hi);
    ChannelBounds(wavelengths, v, lambdas.z, scale, lo, hi);
  }

  lemma ChannelBounds(wavelengths: seq<real>, v: seq<real>, lambda: real, scale: real, lo: real, hi: real)
    requires |v| == |wavelengths| && 0 < |wavelengths|
    requires forall k :: 0 <= k < |v| ==> lo <= v[k] <= hi
    requires 0.0 <= scale
    ensures lo * scale <= Channel(wavelengths, v, lambda, scale) <= hi * scale
  {
    InterpolationBounds(wavelengths, v, lambda, lo, hi);
    ScaleBetween(Interpolation(wavelengths, v, lambda), lo, hi, scale);
  }

  /** A non-negative spectrum and scale give a non-negative channel; a flat spectrum gives
      its value times the scale. */
  lemma ChannelFacts(wavelengths: seq<real>, v: seq<real>, lambda: real, scale: real)
    requires |v| == |wavelengths| && 0 < |wavelengths|
    ensures AllNonNegative(v) && 0.0 <= scale ==> 0.0 <= Channel(wavelengths, v, lambda, scale)
    ensures (forall k :: 0 <= k < |v| ==> v[k] == v[0]) ==> Channel(wavelengths, v, lambda, scale) == v[0] * scale
  {
    if AllNonNegative(v) && 0.0 <= scale {
      var hi := UpperBound(v);
      ChannelBounds(wavelengths, v, lambda, scale, 0.0, hi);
    }
    if forall k :: 0 <= k < |v| ==> v[k] == v[0] {
      InterpolationBounds(wavelengths, v, lambda, v[0], v[0]);
    }
  }

  /** At the wavelength of a sample, a channel is that sample times the scale. */
  lemma ToRgbAtSamples(wavelengths: seq<real>, v: seq<real>, lambdas: Vec3, scale: real, i: nat, j: nat, k: nat)
    requires |v| == |wavelengths| && 0 < |wavelengths| && StrictlyAscending(wavelengths)
    requires i < |wavelengths| && j < |wavelengths| && k < |wavelengths|
    requires lambdas == Vec3(wavelengths[i], wavelengths[j], wavelengths[k])
    ensures ToRgb(wavelengths, v, lambdas, scale) == Vec3(v[i] * scale, v[j] * scale, v[k] * scale)
  {
    InterpolationAtSample(wavelengths, v, i);
    InterpolationAtSample(wavelengths, v, j);
    InterpolationAtSample(wavelengths, v, k);
  }

  lemma ScaleBetween(x: real, lo: real, hi: real, scale: real)
    requires lo <= x <= hi && 0.0 <= scale
    ensures lo * scale <= x * scale <= hi * scale
  {
    assert x * scale - lo * scale == (x - lo) * scale;
    assert hi * scale - x * scale == (hi - x) * scale;
  }

  /** A constant spectrum c is c in every channel, times the scale. */
  lemma ToRgbOfConstant(wavelengths: seq<real>, v: seq<real>, lambdas: Vec3, scale: real, c: real)
    requires |v| == |wavelengths| && 0 < |wavelengths|
    requires forall k :: 0 <= k < |v| ==> v[k] == c
    ensures ToRgb(wavelengths, v, lambdas, scale) == Vec3.Splat(c * scale)
  {
    InterpolationBounds(wavelengths, v, lambdas.x, c, c);
    InterpolationBounds(wavelengths, v, lambdas.y, c, c);
    InterpolationBounds(wavelengths, v, lambdas.z, c, c);
  }

  // ---------------------------------------------------------------------------------------
  // density_layer and density_profile

  /** The numbers `density_layer(layer)` prints: the layer re-expressed in the length unit
      (width divided by it, the per-length exp_scale and linear_term multiplied by it). */
  function DensityLayerInUnits(layer: DensityProfileLayer, lengthUnit: real): (converted: DensityProfileLayer)
    requires lengthUnit != 0.0
    ensures converted.width * lengthUnit == layer.width
    ensures converted.expScale / lengthUnit == layer.expScale
    ensures converted.linearTerm / lengthUnit == layer.linearTerm
    ensures converted.expTerm == layer.expTerm && converted.constantTerm == layer.constantTerm
  {
    assert (layer.width / lengthUnit) * lengthUnit == layer.width;
    assert (layer.expScale * lengthUnit) / lengthUnit == layer.expScale;
    assert (layer.linearTerm * lengthUnit) / lengthUnit == layer.linearTerm;
    DensityProfileLayer(layer.width / lengthUnit, layer.expTerm, layer.expScale * lengthUnit,
                        layer.linearTerm * lengthUnit, layer.constantTerm)
  }

  /** The converted layer describes the same density: at an altitude x in the length unit
      it gives the density of the original layer at x * unit metres. */
  lemma DensityLayerInUnitsPreservesDensity(lib: Libm, layer: DensityProfileLayer, lengthUnit: real, x: real)
    requires lengthUnit != 0.0
    ensures GetLayerDensity(lib, DensityLayerInUnits(layer, lengthUnit), x)
         == GetLayerDensity(lib, layer, x * lengthUnit)
  {
    LayerFormulaRescaled(lib, layer, lengthUnit, x);
    DensityOfEqualFormula(lib, DensityLayerInUnits(layer, lengthUnit), x, layer, x * lengthUnit);
  }

  lemma LayerFormulaRescaled(lib: Libm, layer: DensityProfileLayer, lengthUnit: real, x: real)
    requires lengthUnit != 0.0
    ensures LayerFormula(lib, DensityLayerInUnits(layer, lengthUnit), x) == LayerFormula(lib, layer, x * lengthUnit)
  {
    LayerFormulaInUnits(lib, layer, lengthUnit, x);
    ExpLinearRescaled(lib, layer, lengthUnit, x);
    LayerFormulaOfFields(lib, layer, x * lengthUnit, layer.expTerm, layer.expScale, layer.linearTerm, layer.constantTerm);
  }

  /** The formula of a layer, given its coefficients. */
  lemma LayerFormulaOfFields(lib: Libm, layer: DensityProfileLayer, x: real,
                             expTerm: real, expScale: real, linearTerm: real, constantTerm: real)
    requires layer.expTerm == expTerm && layer.expScale == expScale
    requires layer.linearTerm == linearTerm && layer.constantTerm == constantTerm
    ensures LayerFormula(lib, layer, x) == ExpLinear(lib, expTerm, expScale, linearTerm, constantTerm, x)
  {
  }

  /** The clamped density depends on the layer and altitude only through the formula. */
  lemma DensityOfEqualFormula(lib: Libm, layer1: DensityProfileLayer, altitude1: real,
                              layer2: DensityProfileLayer, altitude2: real)
    requires LayerFormula(lib, layer1, altitude1) == LayerFormula(lib, layer2, altitude2)
    ensures GetLayerDensity(lib, layer1, altitude1) == GetLayerDensity(lib, layer2, altitude2)
  {
  }

  /** The formula of the converted layer in terms of the original coefficients. */
  lemma LayerFormulaInUnits(lib: Libm, layer: DensityProfileLayer, lengthUnit: real, x: real)
    requires lengthUnit != 0.0
    ensures LayerFormula(lib, DensityLayerInUnits(layer, lengthUnit), x)
         == ExpLinear(lib, layer.expTerm, layer.expScale * lengthUnit, layer.linearTerm * lengthUnit,
                      layer.constantTerm, x)
  {
    LayerFormulaOfFields(lib, DensityLayerInUnits(layer, lengthUnit), x, layer.expTerm, layer.expScale * lengthUnit,
                         layer.linearTerm * lengthUnit, layer.constantTerm);
  }

  /** The density formula of a layer with its per-length coefficients multiplied by u, read
      at x, is the formula of the layer read at x * u. */
  lemma ExpLinearRescaled(lib: Libm, layer: DensityProfileLayer, u: real, x: real)
    ensures ExpLinear(lib, layer.expTerm, layer.expScale * u, layer.linearTerm * u, layer.constantTerm, x)
         == ExpLinear(lib, layer.expTerm, layer.expScale, layer.linearTerm, layer.constantTerm, x * u)
  {
    ExpLinearCongruent(lib, layer.expTerm, layer.expScale * u, layer.linearTerm * u, x,
                       layer.expScale, layer.linearTerm, x * u, layer.constantTerm);
  }

  /** The formula depends on its coefficients only through the products with the altitude. */
  lemma ExpLinearCongruent(lib: Libm, expTerm: real, s1: real, l1: real, x1: real, s2: real, l2: real, x2: real,
                           constantTerm: real)
    requires s1 * x1 == s2 * x2 && l1 * x1 == l2 * x2
    ensures ExpLinear(lib, expTerm, s1, l1, constantTerm, x1) == ExpLinear(lib, expTerm, s2, l2, constantTerm, x2)
  {
    MulByEqual(expTerm, lib.exp(s1 * x1), lib.exp(s2 * x2));
  }

  lemma MulByEqual(k: real, a: real, b: real)
    requires a == b
    ensures k * a == k * b
  {
  }

  /** Converting to a unit and back to metres gives the layer back. */
  lemma DensityLayerInUnitsInverse(layer: DensityProfileLayer, lengthUnit: real)
    requires lengthUnit != 0.0
    ensures DensityLayerInUnits(DensityLayerInUnits(layer, lengthUnit), 1.0 / lengthUnit) == layer
  {
    assert (layer.width / lengthUnit) / (1.0 / lengthUnit) == layer.width;
    assert layer.expScale * lengthUnit * (1.0 / lengthUnit) == layer.expScale;
    assert layer.linearTerm * lengthUnit * (1.0 / lengthUnit) == layer.linearTerm;
  }

  /** The layers after the padding of `density_profile`: default layers are prepended until
      there are two; the given layers stay, as the last ones. */
  function PaddedLayers(layers: seq<DensityProfileLayer>): (padded: seq<DensityProfileLayer>)
    ensures |padded| == if |layers| < 2 then 2 else |layers|
    decreases 2 - |layers|
  {
    if |layers| >= 2 then layers else PaddedLayers([ZERO_LAYER] + layers)
  }

  /** The padding is `2 - |layers|` default layers (none when there are two or more)
      followed by the given layers, unchanged and in order. */
  lemma PaddedLayersContents(layers: seq<DensityProfileLayer>)
    ensures PaddedLayers(layers) == seq(if |layers| < 2 then 2 - |layers| else 0, _ => ZERO_LAYER) + layers
  {
    if |layers| == 0 {
      assert [ZERO_LAYER] + layers == [ZERO_LAYER];
      assert PaddedLayers(layers) == PaddedLayers([ZERO_LAYER]) == [ZERO_LAYER, ZERO_LAYER];
      assert seq(2, _ => ZERO_LAYER) == [ZERO_LAYER, ZERO_LAYER];
    } else if |layers| == 1 {
      assert PaddedLayers(layers) == [ZERO_LAYER] + layers;
      assert seq(1, _ => ZERO_LAYER) == [ZERO_LAYER];
    } else {
      assert seq(0, _ => ZERO_LAYER) == [];
    }
  }

  /** The profile `density_profile(layers)` prints: the first two padded layers, each in the
      length unit.  Layers beyond the second are not printed. */
  function DensityProfileOf(layers: seq<DensityProfileLayer>, lengthUnit: real): DensityProfile
    requires lengthUnit != 0.0
  {
    var padded := PaddedLayers(layers);
    DensityProfile([DensityLayerInUnits(padded[0], lengthUnit), DensityLayerInUnits(padded[1], lengthUnit)])
  }

  /** The printed profile by the number of given layers: none gives two default layers, one
      gives a default layer and that layer, and of two or more the first two are printed. */
  lemma DensityProfileOfLayers(layers: seq<DensityProfileLayer>, lengthUnit: real)
    requires lengthUnit != 0.0
    ensures |layers| == 0 ==> DensityProfileOf(layers, lengthUnit).layers == [ZERO_LAYER, ZERO_LAYER]
    ensures |layers| == 1 ==>
      DensityProfileOf(layers, lengthUnit).layers == [ZERO_LAYER, DensityLayerInUnits(layers[0], lengthUnit)]
    ensures |layers| >= 2 ==>
      DensityProfileOf(layers, lengthUnit).layers
        == [DensityLayerInUnits(layers[0], lengthUnit), DensityLayerInUnits(layers[1], lengthUnit)]
  {
    PaddedLayersContents(layers);
    assert DensityLayerInUnits(ZERO_LAYER, lengthUnit) == ZERO_LAYER;
  }

  /** `density_profile`: a while loop prepends default layers, then a counted loop emits
      the first two. */
  method DensityProfileFromLayers(layers: seq<DensityProfileLayer>, lengthUnit: real) returns (profile: DensityProfile)
    requires lengthUnit != 0.0
    ensures profile == DensityProfileOf(layers, lengthUnit)
  {
    var padded := layers;
    while |padded| < 2
      invariant PaddedLayers(padded) == PaddedLayers(layers)
      decreases 2 - |padded|
    {
      padded := [ZERO_LAYER] + padded;
    }
    var emitted: seq<DensityProfileLayer> := [];
    for i := 0 to 2
      invariant |emitted| == i
      invariant forall k :: 0 <= k < i ==> emitted[k] == DensityLayerInUnits(padded[k], lengthUnit)
    {
      emitted := emitted + [DensityLayerInUnits(padded[i], lengthUnit)];
    }
    assert padded == PaddedLayers(layers);
    assert emitted == [DensityLayerInUnits(padded[0], lengthUnit), DensityLayerInUnits(padded[1], lengthUnit)];
    profile := DensityProfile(emitted);
  }

  /** A padded default layer has zero density at every altitude. */
  lemma ZeroLayerHasNoDensity(lib: Libm, lengthUnit: real, altitude: real)
    requires lengthUnit != 0.0
    ensures DensityLayerInUnits(ZERO_LAYER, lengthUnit) == ZERO_LAYER
    ensures GetLayerDensity(lib, ZERO_LAYER, altitude) == 0.0
  {
  }

  /** A profile given as one layer becomes a default layer of width 0 followed by that layer;
      at every altitude >= 0 it has the density of the (converted) given layer. */
  lemma SingleLayerProfile(lib: Libm, layer: DensityProfileLayer, lengthUnit: real, altitude: real)
    requires lengthUnit != 0.0 && 0.0 <= altitude
    ensures DensityProfileOf([layer], lengthUnit).layers == [ZERO_LAYER, DensityLayerInUnits(layer, lengthUnit)]
    ensures GetProfileDensity(lib, DensityProfileOf([layer], lengthUnit), altitude)
         == GetLayerDensity(lib, DensityLayerInUnits(layer, lengthUnit), altitude)
  {
    assert PaddedLayers([layer]) == [ZERO_LAYER, layer];
  }

  /** The printed profile describes the same density as the padded layers in metres: for a
      positive unit, reading it at an altitude x in the unit gives the density at x * unit. */
  lemma ProfileInUnitsPreservesDensity(lib: Libm, layers: seq<DensityProfileLayer>, lengthUnit: real, x: real)
    requires 0.0 < lengthUnit
    ensures GetProfileDensity(lib, DensityProfileOf(layers, lengthUnit), x)
         == GetProfileDensity(lib, DensityProfile([PaddedLayers(layers)[0], PaddedLayers(layers)[1]]), x * lengthUnit)
  {
    var padded := PaddedLayers(layers);
    WidthInUnits(x, padded[0].width, lengthUnit);
    DensityLayerInUnitsPreservesDensity(lib, padded[0], lengthUnit, x);
    DensityLayerInUnitsPreservesDensity(lib, padded[1], lengthUnit, x);
  }

  /** An altitude is below a width in the length unit exactly when it is below it in metres. */
  lemma WidthInUnits(x: real, width: real, lengthUnit: real)
    requires 0.0 < lengthUnit
    ensures x < width / lengthUnit <==> x * lengthUnit < width
  {
    MulCompare(x, width / lengthUnit, lengthUnit);
    assert (width / lengthUnit) * lengthUnit == width;
  }

  // ---------------------------------------------------------------------------------------
  // The Model constructor and its GLSL header

  /** The constructor arguments the header is computed from, in metres and per metre. */
  datatype ModelInputs = ModelInputs(
    wavelengths: seq<real>,
    solarIrradiance: seq<real>,
    sunAngularRadius: real,
    bottomRadius: real,
    topRadius: real,
    rayleighDensity: seq<DensityProfileLayer>,
    rayleighScattering: seq<real>,
    mieDensity: seq<DensityProfileLayer>,
    mieScattering: seq<real>,
    mieExtinction: seq<real>,
    miePhaseFunctionG: real,
    absorptionDensity: seq<DensityProfileLayer>,
    absorptionExtinction: seq<real>,
    groundAlbedo: seq<real>,
    maxSunZenithAngle: real,
    lengthUnitInMeters: real)

  /** What the constructor demands of its arguments: every spectrum has one sample per
      wavelength (model.h), there is at least one wavelength (Interpolate reads index 0),
      and the length unit is positive. */
  predicate ModelInputsValid(inputs: ModelInputs) {
    && 0 < |inputs.wavelengths|
    && |inputs.solarIrradiance| == |inputs.wavelengths|
    && |inputs.rayleighScattering| == |inputs.wavelengths|
    && |inputs.mieScattering| == |inputs.wavelengths|
    && |inputs.mieExtinction| == |inputs.wavelengths|
    && |inputs.absorptionExtinction| == |inputs.wavelengths|
    && |inputs.groundAlbedo| == |inputs.wavelengths|
    && 0.0 < inputs.lengthUnitInMeters
  }

  /** The atmosphere `glsl_header_factory_(lambdas)` prints, field by field: spectra sampled at
      lambdas (scattering and extinction per length unit), radii and density profiles in the
      length unit, and the cosine of the maximum sun zenith angle. */
  function GlslHeaderParameters(lib: Libm, inputs: ModelInputs, lambdas: Vec3): (atmosphere: AtmosphereParameters)
    requires ModelInputsValid(inputs)
    ensures atmosphere.bottomRadius * inputs.lengthUnitInMeters == inputs.bottomRadius
    ensures atmosphere.topRadius * inputs.lengthUnitInMeters == inputs.topRadius
    ensures atmosphere.bottomRadius < atmosphere.topRadius <==> inputs.bottomRadius < inputs.topRadius
    ensures atmosphere.sunAngularRadius == inputs.sunAngularRadius
    ensures atmosphere.miePhaseFunctionG == inputs.miePhaseFunctionG
    ensures CosLaws(lib.cos) ==> -1.0 <= atmosphere.muSMin <= 1.0
  {
    var ws := inputs.wavelengths;
    var unit := inputs.lengthUnitInMeters;
    assert (inputs.bottomRadius / unit) * unit == inputs.bottomRadius;
    assert (inputs.topRadius / unit) * unit == inputs.topRadius;
    MulCompare(inputs.bottomRadius / unit, inputs.topRadius / unit, unit);
    AtmosphereParameters(
      ToRgb(ws, inputs.solarIrradiance, lambdas, 1.0),
      inputs.sunAngularRadius,
      inputs.bottomRadius / unit,
      inputs.topRadius / unit,
      DensityProfileOf(inputs.rayleighDensity, unit),
      ToRgb(ws, inputs.rayleighScattering, lambdas, unit),
      DensityProfileOf(inputs.mieDensity, unit),
      ToRgb(ws, inputs.mieScattering, lambdas, unit),
      ToRgb(ws, inputs.mieExtinction, lambdas, unit),
      inputs.miePhaseFunctionG,
      DensityProfileOf(inputs.absorptionDensity, unit),
      ToRgb(ws, inputs.absorptionExtinction, lambdas, unit),
      ToRgb(ws, inputs.groundAlbedo, lambdas, 1.0),
      lib.cos(inputs.maxSunZenithAngle))
  }

  /** `PrintAtmParameter`: the header for the three channel wavelengths. */
  function RgbAtmosphere(lib: Libm, inputs: ModelInputs): AtmosphereParameters
    requires ModelInputsValid(inputs)
  {
    GlslHeaderParameters(lib, inputs, Vec3(LAMBDA_R, LAMBDA_G, LAMBDA_B))
  }

  /** The cosine is a cosine. */
  ghost predicate CosLaws(cos: real -> real) {
    forall x :: -1.0 <= cos(x) <= 1.0
  }

  predicate AllNonNegative(s: seq<real>) {
    forall k :: 0 <= k < |s| ==> 0.0 <= s[k]
  }

  /** Physically sensible inputs (0 < bottom < top, non-negative spectra) give a well-formed
      atmosphere, whatever the three wavelengths. */
  lemma GlslHeaderWellFormed(lib: Libm, inputs: ModelInputs, lambdas: Vec3)
    requires ModelInputsValid(inputs) && CosLaws(lib.cos)
    requires 0.0 < inputs.bottomRadius < inputs.topRadius
    requires AllNonNegative(inputs.rayleighScattering) && AllNonNegative(inputs.mieScattering)
    requires AllNonNegative(inputs.mieExtinction) && AllNonNegative(inputs.absorptionExtinction)
    ensures WellFormed(GlslHeaderParameters(lib, inputs, lambdas))
  {
    var header := GlslHeaderParameters(lib, inputs, lambdas);
    MulCompare(0.0, header.bottomRadius, inputs.lengthUnitInMeters);
  }

  /** An upper bound of a non-empty spectrum: its largest sample. */
  function UpperBound(v: seq<real>): (hi: real)
    requires 0 < |v|
    ensures forall k :: 0 <= k < |v| ==> v[k] <= hi
    ensures exists k :: 0 <= k < |v| && v[k] == hi
  {
    if |v| == 1 then v[0] else MaxReal(v[0], UpperBound(v[1..]))
  }
}
