/** Geometry, density, optical length, transmittance and the texture parameterisation of
    src/functions/functions.h.  The source's `assert`s on r, mu and uv are preconditions.
    Every nonlinear formula of the source is a small function of plain numbers, so that the
    proofs can name it. */
module Functions {
  import opened MathLib
  import opened Vec
  import opened Definitions
  import opened Util

  // ---------------------------------------------------------------------------------------
  // Ray / sphere distances

  /** `r * r * (mu * mu - 1.0) + rad * rad`: the discriminant of the intersection of the ray
      (r, mu) with the sphere of radius rad. */
  function Discriminant(r: real, mu: real, rad: real): real {
    r * r * (mu * mu - 1.0) + rad * rad
  }

  /** Distance from the point at radius r, looking along cosine mu, to the top sphere. */
  function DistanceToTopAtmosphereBoundary(lib: Libm, atmosphere: AtmosphereParameters, r: real, mu: real): (d: real)
    requires r <= atmosphere.topRadius
    requires -1.0 <= mu <= 1.0
    ensures 0.0 <= d
  {
    ClampDistance(-r * mu + SafeSqrt(lib, Discriminant(r, mu, atmosphere.topRadius)))
  }

  /** Distance from the point at radius r, looking along cosine mu, to the ground sphere. */
  function DistanceToBottomAtmosphereBoundary(lib: Libm, atmosphere: AtmosphereParameters, r: real, mu: real): (d: real)
    requires r >= atmosphere.bottomRadius
    requires -1.0 <= mu <= 1.0
    ensures 0.0 <= d
  {
    ClampDistance(-r * mu - SafeSqrt(lib, Discriminant(r, mu, atmosphere.bottomRadius)))
  }

  /** True iff the ray points down and its line meets the ground sphere. */
  function RayIntersectsGround(atmosphere: AtmosphereParameters, r: real, mu: real): (hits: bool)
    requires r >= atmosphere.bottomRadius
    requires -1.0 <= mu <= 1.0
    ensures mu >= 0.0 ==> !hits
  {
    mu < 0.0 && Discriminant(r, mu, atmosphere.bottomRadius) >= 0.0 * M2
  }

  /** The point at distance d along the ray (r, mu) lies on the sphere of radius rad. */
  predicate OnSphere(r: real, mu: real, d: real, rad: real) {
    d * d + 2.0 * r * mu * d + r * r == rad * rad
  }

  /** Both roots -r mu +- s of the discriminant are distances to points on the sphere. */
  lemma RootsOnSphere(r: real, mu: real, rad: real, s: real)
    requires s * s == Discriminant(r, mu, rad)
    ensures OnSphere(r, mu, -r * mu + s, rad)
    ensures OnSphere(r, mu, -r * mu - s, rad)
  {
    var rm := r * mu;
    assert r * r * (mu * mu - 1.0) == rm * rm - r * r;
    var d1, d2 := -rm + s, -rm - s;
    assert 2.0 * r * mu * d1 == 2.0 * rm * d1;
    assert 2.0 * r * mu * d2 == 2.0 * rm * d2;
    assert d1 * d1 + 2.0 * rm * d1 == s * s - rm * rm;
    assert d2 * d2 + 2.0 * rm * d2 == s * s - rm * rm;
  }

  /** The discriminant is (r mu)^2 + rad^2 - r^2. */
  lemma DiscriminantExpanded(r: real, mu: real, rad: real)
    ensures Discriminant(r, mu, rad) == (r * mu) * (r * mu) + rad * rad - r * r
  {
    var rm := r * mu;
    assert r * r * (mu * mu) == rm * rm;
  }

  /** |x| <= s when s >= 0 and x^2 <= s^2. */
  lemma AbsAtMost(x: real, s: real)
    requires 0.0 <= s && x * x <= s * s
    ensures -s <= x <= s
  {
    SquareLeImpliesLe(x, s);
    var nx := -x;
    assert nx * nx == x * x;
    SquareLeImpliesLe(nx, s);
  }

  /** The distance to the top boundary really reaches the top sphere, and the clamp of
      ClampDistance never changes it, for every point of the atmosphere and every direction. */
  lemma DistanceToTopOnSphere(lib: Libm, atmosphere: AtmosphereParameters, r: real, mu: real)
    requires SqrtLaws(lib.sqrt)
    requires 0.0 <= r <= atmosphere.topRadius
    requires -1.0 <= mu <= 1.0
    ensures OnSphere(r, mu, DistanceToTopAtmosphereBoundary(lib, atmosphere, r, mu), atmosphere.topRadius)
    ensures DistanceToTopAtmosphereBoundary(lib, atmosphere, r, mu)
         == -r * mu + lib.sqrt(Discriminant(r, mu, atmosphere.topRadius))
  {
    var t := atmosphere.topRadius;
    var disc := Discriminant(r, mu, t);
    var rm := r * mu;
    DiscriminantExpanded(r, mu, t);
    SquareMonotone(r, t);
    SquareNonNegative(rm);
    assert rm * rm <= disc;
    var s := lib.sqrt(disc);
    SqrtFacts(lib.sqrt, disc);
    AbsAtMost(rm, s);
    RootsOnSphere(r, mu, t, s);
  }

  /** When the ray hits the ground, the distance to the bottom boundary reaches the ground
      sphere, and the clamp never changes it. */
  lemma DistanceToBottomOnSphere(lib: Libm, atmosphere: AtmosphereParameters, r: real, mu: real)
    requires SqrtLaws(lib.sqrt)
    requires 0.0 <= atmosphere.bottomRadius <= r
    requires -1.0 <= mu <= 1.0
    requires RayIntersectsGround(atmosphere, r, mu)
    ensures OnSphere(r, mu, DistanceToBottomAtmosphereBoundary(lib, atmosphere, r, mu), atmosphere.bottomRadius)
    ensures DistanceToBottomAtmosphereBoundary(lib, atmosphere, r, mu)
         == -r * mu - lib.sqrt(Discriminant(r, mu, atmosphere.bottomRadius))
  {
    var b := atmosphere.bottomRadius;
    var disc := Discriminant(r, mu, b);
    var rm := r * mu;
    DiscriminantExpanded(r, mu, b);
    SquareMonotone(b, r);
    assert disc <= rm * rm;
    var s := lib.sqrt(disc);
    SqrtFacts(lib.sqrt, disc);
    var nrm := -rm;
    assert 0.0 <= nrm by {
      var nmu := -mu;
      assert nrm == r * nmu;
    }
    assert nrm * nrm == rm * rm;
    SquareLeImpliesLe(s, nrm);
    RootsOnSphere(r, mu, b, s);
  }

  /** A ray that does not point down, from above the ground, never comes back to it: every
      point along it is farther from the centre than the ground. */
  lemma UpwardRayMissesGround(r: real, mu: real, d: real, bottom: real)
    requires 0.0 <= bottom < r
    requires 0.0 <= mu && 0.0 <= d
    ensures d * d + 2.0 * r * mu * d + r * r > bottom * bottom
  {
    SquareStrictMonotone(bottom, r);
    var rm := r * mu;
    assert 0.0 <= rm;
    var rmd := rm * d;
    assert 0.0 <= rmd;
    assert 2.0 * r * mu * d == 2.0 * rmd;
    SquareNonNegative(d);
  }

  // ---------------------------------------------------------------------------------------
  // Density

  /** `exp_term * exp(exp_scale * h) + linear_term * h + constant_term`. */
  function ExpLinear(lib: Libm, expTerm: real, expScale: real, linearTerm: real, constantTerm: real, altitude: real): real {
    expTerm * lib.exp(expScale * altitude) + linearTerm * altitude + constantTerm
  }

  /** The unclamped density formula of a layer at altitude h; the width takes no part. */
  function LayerFormula(lib: Libm, layer: DensityProfileLayer, altitude: real): real {
    ExpLinear(lib, layer.expTerm, layer.expScale, layer.linearTerm, layer.constantTerm, altitude)
  }

  function GetLayerDensity(lib: Libm, layer: DensityProfileLayer, altitude: real): (density: real)
    ensures 0.0 <= density <= 1.0
    ensures 0.0 <= LayerFormula(lib, layer, altitude) <= 1.0 ==> density == LayerFormula(lib, layer, altitude)
    ensures LayerFormula(lib, layer, altitude) < 0.0 ==> density == 0.0
    ensures LayerFormula(lib, layer, altitude) > 1.0 ==> density == 1.0
  {
    Clamp(LayerFormula(lib, layer, altitude), 0.0, 1.0)
  }

  function GetProfileDensity(lib: Libm, profile: DensityProfile, altitude: real): (density: real)
    ensures 0.0 <= density <= 1.0
  {
    if altitude < profile.layers[0].width then
      GetLayerDensity(lib, profile.layers[0], altitude)
    else
      GetLayerDensity(lib, profile.layers[1], altitude)
  }

  /** Layer 0 is used exactly below layers[0].width, layer 1 at and above it. */
  lemma ProfileDensityLayerChoice(lib: Libm, profile: DensityProfile, altitude: real)
    ensures altitude < profile.layers[0].width ==>
      GetProfileDensity(lib, profile, altitude) == GetLayerDensity(lib, profile.layers[0], altitude)
    ensures altitude >= profile.layers[0].width ==>
      GetProfileDensity(lib, profile, altitude) == GetLayerDensity(lib, profile.layers[1], altitude)
  {
  }

  /** The width of the last layer is never read: changing it changes no density. */
  lemma ProfileDensityIgnoresLastWidth(lib: Libm, profile: DensityProfile, w: real, altitude: real)
    ensures GetProfileDensity(lib, DensityProfile([profile.layers[0], profile.layers[1].(width := w)]), altitude)
         == GetProfileDensity(lib, profile, altitude)
  {
    var changed := DensityProfile([profile.layers[0], profile.layers[1].(width := w)]);
    assert changed.layers[0] == profile.layers[0];
    assert changed.layers[1] == profile.layers[1].(width := w);
  }

  // ---------------------------------------------------------------------------------------
  // Optical length: the 500-interval trapezoidal rule

  const SAMPLE_COUNT: int := 500

  function SampleWeight(i: int): real {
    if i == 0 || i == SAMPLE_COUNT then 0.5 else 1.0
  }

  /** `sqrt(d_i * d_i + 2.0 * r * mu * d_i + r * r)`: the radius of the sample at distance d. */
  function SampleRadius(lib: Libm, r: real, mu: real, d: real): real {
    lib.sqrt(d * d + 2.0 * r * mu * d + r * r)
  }

  /** The density y_i that iteration i reads, as a function of i: the profile density at the
      altitude of the sample at distance i * dx. */
  function Integrand(lib: Libm, atmosphere: AtmosphereParameters, profile: DensityProfile,
                     r: real, mu: real, dx: real): int -> real
  {
    i => GetProfileDensity(lib, profile, SampleRadius(lib, r, mu, SampleDistance(i, dx)) - atmosphere.bottomRadius)
  }

  /** `d_i = i * dx`. */
  function SampleDistance(i: int, dx: real): real {
    (i as real) * dx
  }

  /** Every sample of the integrand is a density, in [0, 1]. */
  lemma IntegrandInUnitRange(lib: Libm, atmosphere: AtmosphereParameters, profile: DensityProfile,
                             r: real, mu: real, dx: real)
    ensures forall i :: 0.0 <= Integrand(lib, atmosphere, profile, r, mu, dx)(i) <= 1.0
  {
    forall i ensures 0.0 <= Integrand(lib, atmosphere, profile, r, mu, dx)(i) <= 1.0 {
      var altitude := SampleRadius(lib, r, mu, SampleDistance(i, dx)) - atmosphere.bottomRadius;
      assert Integrand(lib, atmosphere, profile, r, mu, dx)(i) == GetProfileDensity(lib, profile, altitude);
    }
  }

  /** The sum of the terms y(i) * weight_i * dx that iterations 0 .. n-1 add to `result`. */
  function TrapezoidSum(y: int -> real, dx: real, n: nat): real {
    if n == 0 then 0.0 else TrapezoidSum(y, dx, n - 1) + TrapezoidTerm(y(n - 1), SampleWeight(n - 1), dx)
  }

  /** The term `y_i * weight_i * dx` that one iteration adds. */
  function TrapezoidTerm(yi: real, weight: real, dx: real): real {
    yi * weight * dx
  }

  /** The sum of the weights of iterations 0 .. n-1. */
  function WeightSum(n: nat): real {
    if n == 0 then 0.0 else WeightSum(n - 1) + SampleWeight(n - 1)
  }

  /** Closed form of the weight sums: the 501 weights 0.5, 1, ..., 1, 0.5 add up to 500. */
  lemma {:induction false} WeightSumClosedForm(n: nat)
    requires n <= SAMPLE_COUNT + 1
    ensures WeightSum(n) == if n == 0 then 0.0 else if n <= SAMPLE_COUNT then n as real - 0.5 else SAMPLE_COUNT as real
  {
    if n > 0 {
      WeightSumClosedForm(n - 1);
    }
  }

  /** With an integrand in [0, 1], each partial sum lies between 0 and
      (sum of its weights) * dx. */
  lemma {:induction false} TrapezoidSumBounds(y: int -> real, dx: real, n: nat)
    requires 0.0 <= dx
    requires forall i :: 0.0 <= y(i) <= 1.0
    ensures 0.0 <= TrapezoidSum(y, dx, n) <= Mul(WeightSum(n), dx)
  {
    if n > 0 {
      TrapezoidSumBounds(y, dx, n - 1);
      var prev, yn, w := TrapezoidSum(y, dx, n - 1), y(n - 1), SampleWeight(n - 1);
      TermBounds(yn, w, dx);
      StepBounds(prev, TrapezoidTerm(yn, w, dx), WeightSum(n - 1), w, dx);
    }
  }

  /** A term y * w * dx with y in [0, 1] and w, dx >= 0 lies in [0, w * dx]. */
  lemma TermBounds(y: real, w: real, dx: real)
    requires 0.0 <= y <= 1.0 && 0.0 <= w && 0.0 <= dx
    ensures 0.0 <= TrapezoidTerm(y, w, dx) <= Mul(w, dx)
  {
    var wdx := w * dx;
    assert 0.0 <= wdx;
    assert y * w * dx == y * wdx;
    assert y * wdx <= 1.0 * wdx;
  }

  /** One induction step of TrapezoidSumBounds, on plain numbers. */
  lemma StepBounds(prev: real, term: real, ws: real, w: real, dx: real)
    requires 0.0 <= prev <= Mul(ws, dx)
    requires 0.0 <= term <= Mul(w, dx)
    ensures 0.0 <= prev + term <= Mul(ws + w, dx)
  {
    assert (ws + w) * dx == ws * dx + w * dx;
  }

  /** 500 steps of length D / 500 cover D. */
  lemma StepsCoverDistance(total: real)
    ensures Mul(SAMPLE_COUNT as real, total / (SAMPLE_COUNT as real)) == total
  {
  }

  /** With step 0 every partial sum is 0. */
  lemma {:induction false} TrapezoidSumZeroStep(y: int -> real, dx: real, n: nat)
    requires dx == 0.0
    ensures TrapezoidSum(y, dx, n) == 0.0
  {
    if n > 0 {
      TrapezoidSumZeroStep(y, dx, n - 1);
    }
  }

  /** The optical length of one profile from (r, mu) to the top boundary: the 501-sample
      trapezoidal sum with step DistanceToTopAtmosphereBoundary / 500.  It lies between 0 and
      the distance to the top boundary. */
  function OpticalLengthToTop(lib: Libm, atmosphere: AtmosphereParameters, profile: DensityProfile,
                              r: real, mu: real): (len: real)
    requires r <= atmosphere.topRadius
    requires -1.0 <= mu <= 1.0
    ensures 0.0 <= len <= DistanceToTopAtmosphereBoundary(lib, atmosphere, r, mu)
  {
    var dx := DistanceToTopAtmosphereBoundary(lib, atmosphere, r, mu) / (SAMPLE_COUNT as real);
    var y := Integrand(lib, atmosphere, profile, r, mu, dx);
    IntegrandInUnitRange(lib, atmosphere, profile, r, mu, dx);
    TrapezoidSumBounds(y, dx, SAMPLE_COUNT + 1);
    WeightSumClosedForm(SAMPLE_COUNT + 1);
    StepsCoverDistance(DistanceToTopAtmosphereBoundary(lib, atmosphere, r, mu));
    TrapezoidSum(y, dx, SAMPLE_COUNT + 1)
  }

  /** `ComputeOpticalLengthToTopAtmosphereBoundary`: the counted loop i = 0 .. 500. */
  method ComputeOpticalLengthToTopAtmosphereBoundary(lib: Libm, atmosphere: AtmosphereParameters,
                                                     profile: DensityProfile, r: real, mu: real)
    returns (result: real)
    requires atmosphere.bottomRadius <= r <= atmosphere.topRadius
    requires -1.0 <= mu <= 1.0
    ensures result == OpticalLengthToTop(lib, atmosphere, profile, r, mu)
    ensures 0.0 <= result <= DistanceToTopAtmosphereBoundary(lib, atmosphere, r, mu)
  {
    var dx := DistanceToTopAtmosphereBoundary(lib, atmosphere, r, mu) / (SAMPLE_COUNT as real);
    ghost var y := Integrand(lib, atmosphere, profile, r, mu, dx);
    result := 0.0 * M;
    for i := 0 to SAMPLE_COUNT + 1
      invariant result == TrapezoidSum(y, dx, i)
    {
      var di := SampleDistance(i, dx);
      var ri := SampleRadius(lib, r, mu, di);
      var yi := GetProfileDensity(lib, profile, ri - atmosphere.bottomRadius);
      var weight := if i == 0 || i == SAMPLE_COUNT then 0.5 else 1.0;
      assert yi == y(i) && weight == SampleWeight(i);
      result := result + TrapezoidTerm(yi, weight, dx);
    }
  }

  /** The first sample is at the ray origin: its radius is r itself. */
  lemma FirstSampleAtOrigin(lib: Libm, r: real, mu: real, dx: real)
    requires SqrtLaws(lib.sqrt)
    requires 0.0 <= r
    ensures SampleRadius(lib, r, mu, SampleDistance(0, dx)) == r
  {
    var d := SampleDistance(0, dx);
    assert d * d + 2.0 * r * mu * d + r * r == r * r;
    SqrtOfSquare(lib.sqrt, r);
  }

  /** The last sample is on the top boundary: its radius is topRadius. */
  lemma LastSampleAtTop(lib: Libm, atmosphere: AtmosphereParameters, r: real, mu: real)
    requires SqrtLaws(lib.sqrt)
    requires 0.0 <= r <= atmosphere.topRadius
    requires -1.0 <= mu <= 1.0
    ensures var dx := DistanceToTopAtmosphereBoundary(lib, atmosphere, r, mu) / (SAMPLE_COUNT as real);
            SampleRadius(lib, r, mu, SampleDistance(SAMPLE_COUNT, dx)) == atmosphere.topRadius
  {
    var t := atmosphere.topRadius;
    var d := DistanceToTopAtmosphereBoundary(lib, atmosphere, r, mu);
    var last := SampleDistance(SAMPLE_COUNT, d / (SAMPLE_COUNT as real));
    assert last == d;
    DistanceToTopOnSphere(lib, atmosphere, r, mu);
    assert last * last + 2.0 * r * mu * last + r * r == t * t;
    SqrtOfSquare(lib.sqrt, t);
  }

  // ---------------------------------------------------------------------------------------
  // Transmittance

  predicate NonNegativeCoefficients(atmosphere: AtmosphereParameters) {
    && atmosphere.rayleighScattering.AllAtLeast(0.0)
    && atmosphere.mieExtinction.AllAtLeast(0.0)
    && atmosphere.absorptionExtinction.AllAtLeast(0.0)
  }

  /** `rayleighTerm + mieTerm + ozoneTerm` for the three optical lengths lr, lm and lo. */
  function OpticalDepthOf(atmosphere: AtmosphereParameters, lr: real, lm: real, lo: real): Vec3 {
    var rayleighTerm := atmosphere.rayleighScattering.Scale(lr);
    var mieTerm := atmosphere.mieExtinction.Scale(lm);
    var ozoneTerm := atmosphere.absorptionExtinction.Scale(lo);
    rayleighTerm.Add(mieTerm).Add(ozoneTerm)
  }

  /** Non-negative coefficients and lengths give a non-negative depth in every channel. */
  lemma OpticalDepthOfNonNegative(atmosphere: AtmosphereParameters, lr: real, lm: real, lo: real)
    ensures NonNegativeCoefficients(atmosphere) && 0.0 <= lr && 0.0 <= lm && 0.0 <= lo ==>
      OpticalDepthOf(atmosphere, lr, lm, lo).AllAtLeast(0.0) && OpticalDepthOf(atmosphere, lr, lm, lo).Neg().AllAtMost(0.0)
  {
    NonNegativeScale(atmosphere.rayleighScattering, lr);
    NonNegativeScale(atmosphere.mieExtinction, lm);
    NonNegativeScale(atmosphere.absorptionExtinction, lo);
  }

  /** Zero lengths give a zero depth. */
  lemma OpticalDepthOfZero(atmosphere: AtmosphereParameters)
    ensures OpticalDepthOf(atmosphere, 0.0, 0.0, 0.0) == Vec3(0.0, 0.0, 0.0)
  {
  }

  /** The optical depth of each channel along the ray (r, mu) to the top boundary. */
  function OpticalDepth(lib: Libm, atmosphere: AtmosphereParameters, r: real, mu: real): (depth: Vec3)
    requires r <= atmosphere.topRadius
    requires -1.0 <= mu <= 1.0
    ensures NonNegativeCoefficients(atmosphere) ==> depth.AllAtLeast(0.0) && depth.Neg().AllAtMost(0.0)
  {
    OpticalDepthOfNonNegative(atmosphere,
      OpticalLengthToTop(lib, atmosphere, atmosphere.rayleighDensity, r, mu),
      OpticalLengthToTop(lib, atmosphere, atmosphere.mieDensity, r, mu),
      OpticalLengthToTop(lib, atmosphere, atmosphere.absorptionDensity, r, mu));
    OpticalDepthOf(atmosphere,
      OpticalLengthToTop(lib, atmosphere, atmosphere.rayleighDensity, r, mu),
      OpticalLengthToTop(lib, atmosphere, atmosphere.mieDensity, r, mu),
      OpticalLengthToTop(lib, atmosphere, atmosphere.absorptionDensity, r, mu))
  }

  /** `exp(-(rayleighTerm + mieTerm + ozoneTerm))`, in (0, 1] in every channel. */
  function ComputeTransmittanceToTopAtmosphereBoundary(lib: Libm, atmosphere: AtmosphereParameters,
                                                       r: real, mu: real): (transmittance: Vec3)
    requires atmosphere.bottomRadius <= r <= atmosphere.topRadius
    requires -1.0 <= mu <= 1.0
    ensures ExpLaws(lib.exp) && NonNegativeCoefficients(atmosphere) ==>
      transmittance.AllPositive() && transmittance.AllAtMost(1.0)
  {
    Exp(lib, OpticalDepth(lib, atmosphere, r, mu).Neg())
  }

  /** Scaling a non-negative vector by a non-negative number keeps it non-negative. */
  lemma NonNegativeScale(v: Vec3, s: real)
    ensures v.AllAtLeast(0.0) && 0.0 <= s ==> v.Scale(s).AllAtLeast(0.0)
  {
    if v.AllAtLeast(0.0) && 0.0 <= s {
      var sx, sy, sz := v.x * s, v.y * s, v.z * s;
      assert 0.0 <= sx && 0.0 <= sy && 0.0 <= sz;
    }
  }

  /** Along a path of length 0 every optical length is 0. */
  lemma OpticalLengthOfEmptyPath(lib: Libm, atmosphere: AtmosphereParameters, profile: DensityProfile, r: real, mu: real)
    requires r <= atmosphere.topRadius
    requires -1.0 <= mu <= 1.0
    requires DistanceToTopAtmosphereBoundary(lib, atmosphere, r, mu) == 0.0
    ensures OpticalLengthToTop(lib, atmosphere, profile, r, mu) == 0.0
  {
    var dx := DistanceToTopAtmosphereBoundary(lib, atmosphere, r, mu) / (SAMPLE_COUNT as real);
    TrapezoidSumZeroStep(Integrand(lib, atmosphere, profile, r, mu, dx), dx, SAMPLE_COUNT + 1);
  }

  /** A ray of zero length to the top (for example r = topRadius, mu = 1, see
      TopLookingUpIsEmptyPath) has transmittance exactly 1 in every channel. */
  lemma TransmittanceOfEmptyPath(lib: Libm, atmosphere: AtmosphereParameters, r: real, mu: real)
    requires ExpLaws(lib.exp)
    requires atmosphere.bottomRadius <= r <= atmosphere.topRadius
    requires -1.0 <= mu <= 1.0
    requires DistanceToTopAtmosphereBoundary(lib, atmosphere, r, mu) == 0.0
    ensures ComputeTransmittanceToTopAtmosphereBoundary(lib, atmosphere, r, mu) == Vec3(1.0, 1.0, 1.0)
  {
    assert OpticalDepth(lib, atmosphere, r, mu) == Vec3(0.0, 0.0, 0.0) by {
      OpticalLengthOfEmptyPath(lib, atmosphere, atmosphere.rayleighDensity, r, mu);
      OpticalLengthOfEmptyPath(lib, atmosphere, atmosphere.mieDensity, r, mu);
      OpticalLengthOfEmptyPath(lib, atmosphere, atmosphere.absorptionDensity, r, mu);
      OpticalDepthOfZero(atmosphere);
    }
    assert OpticalDepth(lib, atmosphere, r, mu).Neg() == Vec3(0.0, 0.0, 0.0);
  }

  /** From the top of the atmosphere looking straight up the path is empty. */
  lemma TopLookingUpIsEmptyPath(lib: Libm, atmosphere: AtmosphereParameters)
    requires SqrtLaws(lib.sqrt)
    requires 0.0 <= atmosphere.topRadius
    ensures DistanceToTopAtmosphereBoundary(lib, atmosphere, atmosphere.topRadius, 1.0) == 0.0
  {
    var t := atmosphere.topRadius;
    assert Discriminant(t, 1.0, t) == t * t;
    SqrtOfSquare(lib.sqrt, t);
  }

  // ---------------------------------------------------------------------------------------
  // Texture parameterisation

  /** `1.0 - 1.0 / texture_size`, positive for every texture of at least two texels. */
  function TexelSpan(textureSize: int): (s: real)
    requires textureSize > 1
    ensures 0.0 < s < 1.0
  {
    var n := textureSize as real;
    assert 1.0 / n < 1.0;
    1.0 - 1.0 / n
  }

  /** Undoes the half-texel bias of a texel-centre coordinate: the result is the unit-range
      value that the encoding maps back to u. */
  function GetUnitRangeFromTextureCoord(u: real, textureSize: int): (x: real)
    requires textureSize > 1
    ensures GetTextureCoordFromUnitRange(x, textureSize) == u
  {
    var s := TexelSpan(textureSize);
    var q := (u - 0.5 / (textureSize as real)) / s;
    assert q * s == u - 0.5 / (textureSize as real);
    q
  }

  /** The encoding direction of the same map (the real-time consumer applies it when it
      samples the texture): a unit-range value to the coordinate of the texel centres. */
  function GetTextureCoordFromUnitRange(x: real, textureSize: int): real
    requires textureSize > 1
  {
    0.5 / (textureSize as real) + x * TexelSpan(textureSize)
  }

  /** The two maps are inverse to each other. */
  lemma UnitRangeRoundTrip(u: real, x: real, textureSize: int)
    requires textureSize > 1
    ensures GetUnitRangeFromTextureCoord(GetTextureCoordFromUnitRange(x, textureSize), textureSize) == x
    ensures GetTextureCoordFromUnitRange(GetUnitRangeFromTextureCoord(u, textureSize), textureSize) == u
  {
    var s := TexelSpan(textureSize);
    assert (x * s) / s == x;
    var q := (u - 0.5 / (textureSize as real)) / s;
    assert q * s == u - 0.5 / (textureSize as real);
  }

  /** The centre of the first texel maps to 0 and that of the last texel to 1. */
  lemma UnitRangeEndpoints(textureSize: int)
    requires textureSize > 1
    ensures GetUnitRangeFromTextureCoord(0.5 / (textureSize as real), textureSize) == 0.0
    ensures GetUnitRangeFromTextureCoord(1.0 - 0.5 / (textureSize as real), textureSize) == 1.0
  {
    var n := textureSize as real;
    assert 1.0 - 0.5 / n - 0.5 / n == TexelSpan(textureSize);
  }

  /** The map is strictly increasing. */
  lemma UnitRangeStrictlyIncreasing(u: real, v: real, textureSize: int)
    requires textureSize > 1
    requires u < v
    ensures GetUnitRangeFromTextureCoord(u, textureSize) < GetUnitRangeFromTextureCoord(v, textureSize)
  {
    var s := TexelSpan(textureSize);
    var c := 0.5 / (textureSize as real);
    assert (v - c) / s - (u - c) / s == (v - u) / s;
    assert 0.0 < (v - u) / s;
  }

  /** The uv of a whole-number texel coordinate k of an n-texel axis, k / n, maps to
      (k - 1/2) / (n - 1). */
  lemma UnitRangeOfTexelCorner(k: real, textureSize: int)
    requires textureSize > 1
    ensures GetUnitRangeFromTextureCoord(k / (textureSize as real), textureSize) == (k - 0.5) / (textureSize as real - 1.0)
  {
    var n := textureSize as real;
    var s := TexelSpan(textureSize);
    assert s == (n - 1.0) / n;
    assert k / n - 0.5 / n == (k - 0.5) / n;
    assert ((k - 0.5) / n) / ((n - 1.0) / n) == (k - 0.5) / (n - 1.0);
  }

  /** At uv.x = 0, the first column of the driver's texels, x_mu is negative. */
  lemma FirstColumnBelowUnitRange(width: int)
    requires width > 1
    ensures GetUnitRangeFromTextureCoord(0.0, width) < 0.0
  {
    UnitRangeOfTexelCorner(0.0, width);
  }

  /** Every coordinate u >= 0 maps to at least that of u = 0, -1/(2 (n - 1)), which is at
      least -1/2. */
  lemma UnitRangeLowerBound(u: real, textureSize: int)
    requires textureSize > 1 && 0.0 <= u
    ensures -0.5 / (textureSize as real - 1.0) <= GetUnitRangeFromTextureCoord(u, textureSize)
    ensures -0.5 <= GetUnitRangeFromTextureCoord(u, textureSize)
  {
    var m := textureSize as real - 1.0;
    UnitRangeOfTexelCorner(0.0, textureSize);
    assert 0.0 / (textureSize as real) == 0.0;
    if 0.0 < u {
      UnitRangeStrictlyIncreasing(0.0, u, textureSize);
    }
    assert 0.5 / m <= 0.5 by {
      assert (0.5 / m) * m == 0.5;
      MulCompare(0.5 / m, 0.5, m);
    }
  }

  /** `H = sqrt(top^2 - bottom^2)`: the distance to the top boundary along the horizontal
      ray from the ground. */
  function HorizonDistance(lib: Libm, top: real, bottom: real): real {
    lib.sqrt(top * top - bottom * bottom)
  }

  /** `r = sqrt(rho^2 + bottom^2)`: the radius of the point at horizon distance rho. */
  function RadiusFromRho(lib: Libm, rho: real, bottom: real): real {
    lib.sqrt(rho * rho + bottom * bottom)
  }

  /** The cosine of the ray from the point at radius r that reaches the top boundary at
      distance d; 1 when d is 0. */
  function CosineFromDistance(h: real, rho: real, r: real, d: real): real
    requires r != 0.0
  {
    if d == 0.0 * M then 1.0 else (h * h - rho * rho - d * d) / (2.0 * r * d)
  }

  /** 0 <= H <= top and H^2 = top^2 - bottom^2. */
  lemma HorizonFacts(lib: Libm, top: real, bottom: real)
    requires SqrtLaws(lib.sqrt)
    requires 0.0 <= bottom <= top
    ensures var h := HorizonDistance(lib, top, bottom);
      0.0 <= h <= top && h * h == top * top - bottom * bottom
  {
    SquareMonotone(bottom, top);
    SquareNonNegative(bottom);
    SqrtFacts(lib.sqrt, top * top - bottom * bottom);
    SqrtAtMost(lib.sqrt, top * top - bottom * bottom, top);
  }

  /** r^2 = rho^2 + bottom^2, bottom <= r and |rho| <= r. */
  lemma RadiusFacts(lib: Libm, rho: real, bottom: real)
    requires SqrtLaws(lib.sqrt)
    requires 0.0 <= bottom
    ensures var r := RadiusFromRho(lib, rho, bottom);
      r * r == rho * rho + bottom * bottom && bottom <= r && -r <= rho <= r
  {
    SquareNonNegative(rho);
    SquareNonNegative(bottom);
    var r := RadiusFromRho(lib, rho, bottom);
    SqrtFacts(lib.sqrt, rho * rho + bottom * bottom);
    SqrtAtLeast(lib.sqrt, rho * rho + bottom * bottom, bottom);
    AbsAtMost(rho, r);
  }

  /** Every intermediate quantity of GetRMuFromTransmittanceTextureUv, named as in the
      source: H is the distance from the ground to the top along the horizon ray, rho the
      distance from the point to the ground along it, dMin and dMax the extreme distances to
      the top over all mu, d the chosen one, muRaw the cosine before the final clamp. */
  datatype RMuDerivation = RMuDerivation(
    xMu: real, xR: real, h: real, rho: real, r: real,
    dMin: real, dMax: real, d: real, muRaw: real, mu: real)

  predicate UvInUnitSquare(uv: Vec2) {
    0.0 <= uv.x <= 1.0 && 0.0 <= uv.y <= 1.0
  }

  /** What the parameterisation needs besides the uv asserts: the sqrt laws, a positive ground
      radius (the source divides by 2 * r * d) and at least two texels per side. */
  ghost predicate ParameterisationDefined(lib: Libm, atmosphere: AtmosphereParameters, width: int, height: int) {
    SqrtLaws(lib.sqrt) && 0.0 < atmosphere.bottomRadius && width > 1 && height > 1
  }

  /** `rho = H * x_r`. */
  function RhoFromUnitRange(h: real, xR: real): real {
    h * xR
  }

  /** `d = d_min + x_mu * (d_max - d_min)`. */
  function DistanceFromUnitRange(dMin: real, dMax: real, xMu: real): real {
    dMin + Mul(xMu, dMax - dMin)
  }

  /** The geometric part of the parameterisation, once x_mu and x_r are known: r never lies
      below the ground, mu is always a cosine, and the final clamp only acts where the raw
      cosine is out of range. */
  function RMuFromUnitRange(lib: Libm, top: real, bottom: real, xMu: real, xR: real): (der: RMuDerivation)
    requires SqrtLaws(lib.sqrt) && 0.0 < bottom
    ensures bottom <= der.r
    ensures -1.0 <= der.mu <= 1.0
    ensures der.d == 0.0 ==> der.mu == 1.0
    ensures -1.0 <= der.muRaw <= 1.0 ==> der.mu == der.muRaw
    ensures der.muRaw < -1.0 ==> der.mu == -1.0
    ensures der.muRaw > 1.0 ==> der.mu == 1.0
  {
    var h := HorizonDistance(lib, top, bottom);
    var rho := RhoFromUnitRange(h, xR);
    var r := RadiusFromRho(lib, rho, bottom);
    RadiusFacts(lib, rho, bottom);
    var dMin := top - r;
    var dMax := rho + h;
    var d := DistanceFromUnitRange(dMin, dMax, xMu);
    var muRaw := CosineFromDistance(h, rho, r, d);
    RMuDerivation(xMu, xR, h, rho, r, dMin, dMax, d, muRaw, ClampCosine(muRaw))
  }

  /** The pure form of GetRMuFromTransmittanceTextureUv. */
  function DeriveRMu(lib: Libm, atmosphere: AtmosphereParameters, uv: Vec2, width: int, height: int): (der: RMuDerivation)
    requires ParameterisationDefined(lib, atmosphere, width, height)
    requires UvInUnitSquare(uv)
    ensures atmosphere.bottomRadius <= der.r
    ensures -1.0 <= der.mu <= 1.0
  {
    RMuFromUnitRange(lib, atmosphere.topRadius, atmosphere.bottomRadius,
      GetUnitRangeFromTextureCoord(uv.x, width), GetUnitRangeFromTextureCoord(uv.y, height))
  }

  /** `GetRMuFromTransmittanceTextureUv`: writes r, then mu, then clamps mu. */
  method GetRMuFromTransmittanceTextureUv(lib: Libm, atmosphere: AtmosphereParameters, uv: Vec2,
                                          width: int, height: int)
    returns (r: real, mu: real)
    requires ParameterisationDefined(lib, atmosphere, width, height)
    requires UvInUnitSquare(uv)
    ensures r == DeriveRMu(lib, atmosphere, uv, width, height).r
    ensures mu == DeriveRMu(lib, atmosphere, uv, width, height).mu
    ensures atmosphere.bottomRadius <= r && -1.0 <= mu <= 1.0
  {
    var xMu := GetUnitRangeFromTextureCoord(uv.x, width);
    var xR := GetUnitRangeFromTextureCoord(uv.y, height);
    var h := HorizonDistance(lib, atmosphere.topRadius, atmosphere.bottomRadius);
    var rho := RhoFromUnitRange(h, xR);
    r := RadiusFromRho(lib, rho, atmosphere.bottomRadius);
    RadiusFacts(lib, rho, atmosphere.bottomRadius);
    var dMin := atmosphere.topRadius - r;
    var dMax := rho + h;
    var d := DistanceFromUnitRange(dMin, dMax, xMu);
    mu := CosineFromDistance(h, rho, r, d);
    mu := ClampCosine(mu);
  }

  /** The relations between the quantities of the derivation that its geometry rests on:
      H^2 = t^2 - b^2, r^2 = rho^2 + b^2 and rho = H x_r. */
  predicate GeometryOf(top: real, bottom: real, h: real, xR: real, rho: real, r: real) {
    && 0.0 < bottom <= top
    && 0.0 <= h <= top && h * h == top * top - bottom * bottom
    && r * r == rho * rho + bottom * bottom
    && bottom <= r && -r <= rho <= r
    && rho == RhoFromUnitRange(h, xR)
  }

  predicate Geometry(top: real, bottom: real, der: RMuDerivation) {
    GeometryOf(top, bottom, der.h, der.xR, der.rho, der.r)
  }

  /** How dMin, dMax and d are formed. */
  predicate Distances(top: real, der: RMuDerivation) {
    && der.dMin == top - der.r && der.dMax == der.rho + der.h
    && der.d == DistanceFromUnitRange(der.dMin, der.dMax, der.xMu)
  }

  /** How the cosine is formed from d, and clamped. */
  predicate Cosine(der: RMuDerivation) {
    && der.r != 0.0
    && der.muRaw == CosineFromDistance(der.h, der.rho, der.r, der.d)
    && der.mu == ClampCosine(der.muRaw)
  }

  /** The square facts of H and r, on the terms the derivation computes. */
  lemma GeometryOfUnitRange(lib: Libm, top: real, bottom: real, xR: real)
    requires SqrtLaws(lib.sqrt) && 0.0 < bottom <= top
    ensures var h := HorizonDistance(lib, top, bottom);
      var rho := RhoFromUnitRange(h, xR);
      GeometryOf(top, bottom, h, xR, rho, RadiusFromRho(lib, rho, bottom))
  {
    HorizonFacts(lib, top, bottom);
    RadiusFacts(lib, RhoFromUnitRange(HorizonDistance(lib, top, bottom), xR), bottom);
  }

  lemma DerivedFromUnitRange(lib: Libm, top: real, bottom: real, xMu: real, xR: real)
    requires SqrtLaws(lib.sqrt) && 0.0 < bottom <= top
    ensures var der := RMuFromUnitRange(lib, top, bottom, xMu, xR);
      Geometry(top, bottom, der) && Distances(top, der) && Cosine(der)
  {
    GeometryOfUnitRange(lib, top, bottom, xR);
  }

  /** Geometry, Distances and Cosine hold for the derivation of every uv. */
  lemma DerivationGeometry(lib: Libm, atmosphere: AtmosphereParameters, uv: Vec2, width: int, height: int)
    requires ParameterisationDefined(lib, atmosphere, width, height)
    requires UvInUnitSquare(uv)
    requires atmosphere.bottomRadius <= atmosphere.topRadius
    ensures var der := DeriveRMu(lib, atmosphere, uv, width, height);
      && Geometry(atmosphere.topRadius, atmosphere.bottomRadius, der)
      && Distances(atmosphere.topRadius, der) && Cosine(der)
      && der.xMu == GetUnitRangeFromTextureCoord(uv.x, width)
      && der.xR == GetUnitRangeFromTextureCoord(uv.y, height)
  {
    DerivedFromUnitRange(lib, atmosphere.topRadius, atmosphere.bottomRadius,
      GetUnitRangeFromTextureCoord(uv.x, width), GetUnitRangeFromTextureCoord(uv.y, height));
  }

  /** x^2 <= 1 for |x| <= 1. */
  lemma SquareAtMostOne(x: real)
    requires -1.0 <= x <= 1.0
    ensures x * x <= 1.0
  {
    var ax := if x < 0.0 then -x else x;
    assert ax * ax == x * x;
    SquareMonotone(ax, 1.0);
  }

  /** rho = H x_r with |x_r| <= 1 keeps r within the top radius. */
  lemma RadiusAtMostTopOf(top: real, bottom: real, der: RMuDerivation)
    requires Geometry(top, bottom, der)
    requires -1.0 <= der.xR <= 1.0
    ensures der.r <= top
  {
    var hh, xx := der.h * der.h, der.xR * der.xR;
    assert der.rho * der.rho == hh * xx;
    SquareAtMostOne(der.xR);
    SquareNonNegative(der.h);
    assert hh * xx <= hh;
    SquareLeImpliesLe(der.r, top);
  }

  /** r <= topRadius whenever x_r <= 1 (x_r >= -1/2 holds on the whole unit square); in
      particular at every texel centre. */
  lemma RadiusAtMostTop(lib: Libm, atmosphere: AtmosphereParameters, uv: Vec2, width: int, height: int)
    requires ParameterisationDefined(lib, atmosphere, width, height)
    requires UvInUnitSquare(uv)
    requires atmosphere.bottomRadius <= atmosphere.topRadius
    requires DeriveRMu(lib, atmosphere, uv, width, height).xR <= 1.0
    ensures DeriveRMu(lib, atmosphere, uv, width, height).r <= atmosphere.topRadius
  {
    DerivationGeometry(lib, atmosphere, uv, width, height);
    UnitRangeLowerBound(uv.y, height);
    RadiusAtMostTopOf(atmosphere.topRadius, atmosphere.bottomRadius, DeriveRMu(lib, atmosphere, uv, width, height));
  }

  /** rho = H x_r with x_r > 1 puts r above the top radius. */
  lemma RadiusAboveTopOf(top: real, bottom: real, der: RMuDerivation)
    requires Geometry(top, bottom, der) && bottom < top
    requires 1.0 < der.xR
    ensures top < der.r
  {
    RadiusAboveTopScalar(top, bottom, der.h, der.xR, der.rho, der.r);
  }

  lemma RadiusAboveTopScalar(top: real, bottom: real, h: real, xR: real, rho: real, r: real)
    requires GeometryOf(top, bottom, h, xR, rho, r) && bottom < top
    requires 1.0 < xR
    ensures top < r
  {
    assert 0.0 < h by {
      SquareStrictMonotone(bottom, top);
    }
    assert h < rho by {
      MulCompare(1.0, xR, h);
      assert rho == h * xR;
    }
    assert top * top < r * r by {
      SquareStrictMonotone(h, rho);
    }
    SquareStrictMonotone(r, top);
  }

  /** Above the last texel centre (uv.y > 1 - 0.5 / height, which the uv asserts still admit)
      r exceeds topRadius, so the assertion r <= top_radius of the transmittance fails there. */
  lemma RadiusAboveTopPastLastTexel(lib: Libm, atmosphere: AtmosphereParameters, uv: Vec2, width: int, height: int)
    requires ParameterisationDefined(lib, atmosphere, width, height)
    requires UvInUnitSquare(uv)
    requires atmosphere.bottomRadius < atmosphere.topRadius
    requires uv.y > 1.0 - 0.5 / (height as real)
    ensures DeriveRMu(lib, atmosphere, uv, width, height).r > atmosphere.topRadius
  {
    DerivationGeometry(lib, atmosphere, uv, width, height);
    UnitRangeEndpoints(height);
    UnitRangeStrictlyIncreasing(1.0 - 0.5 / (height as real), uv.y, height);
    RadiusAboveTopOf(atmosphere.topRadius, atmosphere.bottomRadius, DeriveRMu(lib, atmosphere, uv, width, height));
  }

  /** dMin + x_mu (dMax - dMin) lies in [dMin, dMax] for x_mu in [0, 1]. */
  lemma InterpolationBetween(dMin: real, dMax: real, xMu: real)
    requires dMin <= dMax && 0.0 <= xMu <= 1.0
    ensures dMin <= DistanceFromUnitRange(dMin, dMax, xMu) <= dMax
  {
    FractionOf(dMax - dMin, xMu);
  }

  /** rho = H x_r is non-negative for x_r >= 0. */
  lemma RhoNonNegative(h: real, xR: real)
    requires 0.0 <= h && 0.0 <= xR
    ensures 0.0 <= RhoFromUnitRange(h, xR)
  {
    MulNonNegative(h, xR);
  }

  /** t <= H + b, because t^2 = H^2 + b^2 <= (H + b)^2. */
  lemma TopAtMostHorizonPlusBottom(top: real, bottom: real, h: real)
    requires 0.0 <= bottom && 0.0 <= h && h * h == top * top - bottom * bottom
    ensures top <= h + bottom
  {
    var hb := h * bottom;
    assert 0.0 <= hb;
    assert (h + bottom) * (h + bottom) == h * h + 2.0 * hb + bottom * bottom;
    SquareLeImpliesLe(top, h + bottom);
  }

  /** For rho = -s with 0 <= s <= H: t + s <= H + r.  Squaring, this is t s <= H r, and
      (H r)^2 - (t s)^2 = b^2 (H^2 - s^2) >= 0. */
  lemma StartBelowFarthestScalar(top: real, bottom: real, h: real, s: real, r: real)
    requires 0.0 <= bottom && 0.0 <= top && 0.0 <= r && 0.0 <= s <= h
    requires h * h == top * top - bottom * bottom
    requires r * r == s * s + bottom * bottom
    ensures top + s <= h + r
  {
    var tt, ss, hh, bb := top * top, s * s, h * h, bottom * bottom;
    var ts, hr := top * s, h * r;
    assert ts <= hr by {
      assert ts * ts == tt * ss;
      assert hr * hr == hh * (r * r);
      assert bb * ss <= bb * hh by {
        SquareMonotone(s, h);
        SquareNonNegative(bottom);
      }
      assert tt * ss == hh * ss + bb * ss;
      assert hh * (r * r) == hh * ss + hh * bb;
      assert 0.0 <= hr by {
        MulNonNegative(h, r);
      }
      SquareLeImpliesLe(ts, hr);
    }
    assert (top + s) * (top + s) == tt + 2.0 * ts + ss;
    assert (h + r) * (h + r) == hh + 2.0 * hr + r * r;
    SquareLeImpliesLe(top + s, h + r);
  }

  /** dMin <= dMax for every x_r >= -1: for x_r >= 0 because t <= H + b <= H + r + rho, for
      -1 <= x_r < 0 by StartBelowFarthestScalar with s = -rho <= H. */
  lemma DistancesOrdered(top: real, bottom: real, der: RMuDerivation)
    requires Geometry(top, bottom, der) && Distances(top, der)
    requires -1.0 <= der.xR
    ensures der.dMin <= der.dMax
  {
    if 0.0 <= der.xR {
      TopAtMostHorizonPlusBottom(top, bottom, der.h);
      RhoNonNegative(der.h, der.xR);
    } else {
      assert -der.h <= der.rho by {
        MulNonNegative(der.h, der.xR + 1.0);
        assert Mul(der.h, der.xR + 1.0) == der.h * der.xR + der.h;
      }
      assert der.rho <= 0.0 by {
        MulNonNegative(der.h, -der.xR);
        assert Mul(der.h, -der.xR) == -(der.h * der.xR);
      }
      StartBelowFarthestScalar(top, bottom, der.h, -der.rho, der.r);
    }
  }

  /** dMin <= dMax when x_r >= -1, and then x_mu in [0, 1] puts d in [dMin, dMax]. */
  lemma DistanceBetweenExtremesOf(top: real, bottom: real, der: RMuDerivation)
    requires Geometry(top, bottom, der) && Distances(top, der)
    requires -1.0 <= der.xR && 0.0 <= der.xMu <= 1.0
    ensures der.dMin <= der.d <= der.dMax
  {
    DistancesOrdered(top, bottom, der);
    InterpolationBetween(der.dMin, der.dMax, der.xMu);
  }

  /** For every uv of the unit square with x_mu in [0, 1], d lies between dMin and dMax
      (x_r >= -1/2 there, UnitRangeLowerBound). */
  lemma DistanceBetweenExtremes(lib: Libm, atmosphere: AtmosphereParameters, uv: Vec2, width: int, height: int)
    requires ParameterisationDefined(lib, atmosphere, width, height)
    requires UvInUnitSquare(uv)
    requires atmosphere.bottomRadius <= atmosphere.topRadius
    requires 0.0 <= DeriveRMu(lib, atmosphere, uv, width, height).xMu <= 1.0
    ensures var der := DeriveRMu(lib, atmosphere, uv, width, height);
      der.dMin <= der.d <= der.dMax
  {
    DerivationGeometry(lib, atmosphere, uv, width, height);
    UnitRangeLowerBound(uv.y, height);
    DistanceBetweenExtremesOf(atmosphere.topRadius, atmosphere.bottomRadius, DeriveRMu(lib, atmosphere, uv, width, height));
  }

  /** -1 <= num / q <= 1 when -q <= num <= q and q > 0. */
  lemma QuotientInUnitRange(num: real, q: real)
    requires 0.0 < q && -q <= num <= q
    ensures -1.0 <= num / q <= 1.0
  {
    var f := num / q;
    assert f * q == num;
    MulCompare(f, 1.0, q);
    MulCompare(-1.0, f, q);
  }

  /** With r <= t and t - r <= d <= t + r, d > 0, the cosine is in [-1, 1]: its numerator
      t^2 - r^2 - d^2 lies within +-2 r d because |r - d| <= t <= r + d. */
  lemma CosineInRange(top: real, bottom: real, h: real, xR: real, rho: real, r: real, d: real)
    requires GeometryOf(top, bottom, h, xR, rho, r)
    requires r <= top && 0.0 < d && top - r <= d <= top + r
    ensures -1.0 <= CosineFromDistance(h, rho, r, d) <= 1.0
  {
    assert 0.0 < r * d;
    assert 2.0 * r * d == 2.0 * (r * d);
    SquareMonotone(top, r + d);
    assert (r + d) * (r + d) == r * r + 2.0 * (r * d) + d * d;
    var adr := if d < r then r - d else d - r;
    assert adr * adr == r * r - 2.0 * (r * d) + d * d;
    SquareMonotone(adr, top);
    QuotientInUnitRange(h * h - rho * rho - d * d, 2.0 * r * d);
  }

  lemma CosineUnclampedOf(top: real, bottom: real, der: RMuDerivation)
    requires Geometry(top, bottom, der) && Distances(top, der)
    requires -1.0 <= der.xR <= 1.0 && 0.0 <= der.xMu <= 1.0 && der.d > 0.0
    ensures -1.0 <= CosineFromDistance(der.h, der.rho, der.r, der.d) <= 1.0
  {
    DistanceBetweenExtremesOf(top, bottom, der);
    RadiusAtMostTopOf(top, bottom, der);
    CosineInRange(top, bottom, der.h, der.xR, der.rho, der.r, der.d);
  }

  /** At texel centres with d > 0 the cosine before the clamp is already in [-1, 1], so the
      final clamp changes nothing there. */
  lemma CosineUnclampedAtTexelCentres(lib: Libm, atmosphere: AtmosphereParameters, uv: Vec2, width: int, height: int)
    requires ParameterisationDefined(lib, atmosphere, width, height)
    requires UvInUnitSquare(uv)
    requires atmosphere.bottomRadius <= atmosphere.topRadius
    requires DeriveRMu(lib, atmosphere, uv, width, height).xR <= 1.0
    requires 0.0 <= DeriveRMu(lib, atmosphere, uv, width, height).xMu <= 1.0
    requires DeriveRMu(lib, atmosphere, uv, width, height).d > 0.0
    ensures var der := DeriveRMu(lib, atmosphere, uv, width, height);
      -1.0 <= der.muRaw <= 1.0 && der.mu == der.muRaw
  {
    DerivationGeometry(lib, atmosphere, uv, width, height);
    UnitRangeLowerBound(uv.y, height);
    CosineUnclampedOf(atmosphere.topRadius, atmosphere.bottomRadius, DeriveRMu(lib, atmosphere, uv, width, height));
  }

  /** mu solves the law of cosines of the triangle (centre, point, exit point):
      t^2 = r^2 + d^2 + 2 r d mu. */
  predicate CosineSolves(top: real, r: real, d: real, mu: real) {
    mu * (2.0 * r * d) == top * top - r * r - d * d
  }

  /** The unclamped cosine solves the law of cosines. */
  lemma CosineTimesDenominator(top: real, bottom: real, h: real, xR: real, rho: real, r: real, d: real)
    requires GeometryOf(top, bottom, h, xR, rho, r) && d != 0.0
    ensures CosineSolves(top, r, d, CosineFromDistance(h, rho, r, d))
  {
    assert r * d != 0.0;
    assert 2.0 * r * d != 0.0;
  }

  /** A cosine that solves the law of cosines makes the discriminant of the top sphere
      (d + r mu)^2, with d + r mu >= 0. */
  lemma RoundTripScalar(top: real, r: real, d: real, mu: real)
    requires 0.0 < r <= top && 0.0 < d
    requires CosineSolves(top, r, d, mu)
    ensures Discriminant(r, mu, top) == (d + r * mu) * (d + r * mu)
    ensures 0.0 <= d + r * mu
  {
    assert 2.0 * d * (r * mu) == mu * (2.0 * r * d);
    DiscriminantExpanded(r, mu, top);
    assert (d + r * mu) * (d + r * mu) == d * d + 2.0 * d * (r * mu) + (r * mu) * (r * mu);
    SquareMonotone(r, top);
    SquareNonNegative(d);
    assert 2.0 * d * (d + r * mu) == d * d + top * top - r * r;
    MulCompare(0.0, d + r * mu, 2.0 * d);
  }

  /** The distance to the top boundary along a ray whose cosine solves the law of cosines
      for distance d is d. */
  lemma DistanceRoundTripOf(lib: Libm, atmosphere: AtmosphereParameters, r: real, d: real, mu: real)
    requires SqrtLaws(lib.sqrt)
    requires 0.0 < r <= atmosphere.topRadius && 0.0 < d && -1.0 <= mu <= 1.0
    requires CosineSolves(atmosphere.topRadius, r, d, mu)
    ensures DistanceToTopAtmosphereBoundary(lib, atmosphere, r, mu) == d
  {
    RoundTripScalar(atmosphere.topRadius, r, d, mu);
    assert SafeSqrt(lib, Discriminant(r, mu, atmosphere.topRadius)) == d + r * mu by {
      var e := d + r * mu;
      SquareNonNegative(e);
      SqrtOfSquare(lib.sqrt, e);
      assert lib.sqrt(e * e) == e;
      assert Discriminant(r, mu, atmosphere.topRadius) == e * e;
      assert 0.0 <= Discriminant(r, mu, atmosphere.topRadius);
      assert lib.sqrt(Discriminant(r, mu, atmosphere.topRadius)) == e;
    }
  }

  /** Round trip: where the cosine needed no clamp, the distance to the top boundary
      recomputed from the returned (r, mu) is the d the cosine was derived from. */
  lemma DistanceRoundTrip(lib: Libm, atmosphere: AtmosphereParameters, uv: Vec2, width: int, height: int)
    requires ParameterisationDefined(lib, atmosphere, width, height)
    requires UvInUnitSquare(uv)
    requires atmosphere.bottomRadius <= atmosphere.topRadius
    requires DeriveRMu(lib, atmosphere, uv, width, height).xR <= 1.0
    requires DeriveRMu(lib, atmosphere, uv, width, height).d > 0.0
    requires -1.0 <= DeriveRMu(lib, atmosphere, uv, width, height).muRaw <= 1.0
    ensures var der := DeriveRMu(lib, atmosphere, uv, width, height);
      der.r <= atmosphere.topRadius &&
      DistanceToTopAtmosphereBoundary(lib, atmosphere, der.r, der.mu) == der.d
  {
    var der := DeriveRMu(lib, atmosphere, uv, width, height);
    DerivationGeometry(lib, atmosphere, uv, width, height);
    UnitRangeLowerBound(uv.y, height);
    RadiusAtMostTopOf(atmosphere.topRadius, atmosphere.bottomRadius, der);
    CosineTimesDenominator(atmosphere.topRadius, atmosphere.bottomRadius, der.h, der.xR, der.rho, der.r, der.d);
    DistanceRoundTripOf(lib, atmosphere, der.r, der.d, der.mu);
  }

  /** For 0 < d < t - r the cosine (t^2 - r^2 - d^2) / (2 r d) exceeds 1. */
  lemma CosineAboveOne(top: real, bottom: real, h: real, xR: real, rho: real, r: real, d: real)
    requires GeometryOf(top, bottom, h, xR, rho, r)
    requires 0.0 < d && d < top - r
    ensures CosineFromDistance(h, rho, r, d) > 1.0
  {
    CosineTimesDenominator(top, bottom, h, xR, rho, r, d);
    SolutionAboveOne(top, r, d, CosineFromDistance(h, rho, r, d));
  }

  /** A solution of the law of cosines with r + d < t exceeds 1. */
  lemma SolutionAboveOne(top: real, r: real, d: real, mu: real)
    requires 0.0 < r && 0.0 < d && r + d < top
    requires CosineSolves(top, r, d, mu)
    ensures 1.0 < mu
  {
    assert 0.0 < 2.0 * r * d by {
      assert 0.0 < r * d;
    }
    assert 2.0 * r * d < top * top - r * r - d * d by {
      SquareStrictMonotone(r + d, top);
      assert (r + d) * (r + d) == r * r + 2.0 * (r * d) + d * d;
    }
    MulCompare(1.0, mu, 2.0 * r * d);
  }

  /** x_mu < 0 puts d below dMin. */
  lemma DistanceBelowStart(dMin: real, dMax: real, xMu: real)
    requires xMu < 0.0 && dMin < dMax
    ensures DistanceFromUnitRange(dMin, dMax, xMu) < dMin
  {
    MulCompare(xMu, 0.0, dMax - dMin);
  }

  lemma NegativeXMuNeedsClampOf(top: real, bottom: real, der: RMuDerivation)
    requires Geometry(top, bottom, der) && Distances(top, der)
    requires der.xMu < 0.0 && der.dMin < der.dMax && der.d > 0.0
    ensures der.d < der.dMin && CosineFromDistance(der.h, der.rho, der.r, der.d) > 1.0
  {
    DistanceBelowStart(der.dMin, der.dMax, der.xMu);
    CosineAboveOne(top, bottom, der.h, der.xR, der.rho, der.r, der.d);
  }

  /** A negative x_mu pulls d below dMin; then (for d > 0) the cosine before the clamp
      exceeds 1 and only the final ClampCosine brings mu back to 1. */
  lemma NegativeXMuNeedsClamp(lib: Libm, atmosphere: AtmosphereParameters, uv: Vec2, width: int, height: int)
    requires ParameterisationDefined(lib, atmosphere, width, height)
    requires UvInUnitSquare(uv)
    requires atmosphere.bottomRadius <= atmosphere.topRadius
    requires DeriveRMu(lib, atmosphere, uv, width, height).xMu < 0.0
    requires DeriveRMu(lib, atmosphere, uv, width, height).dMin < DeriveRMu(lib, atmosphere, uv, width, height).dMax
    requires DeriveRMu(lib, atmosphere, uv, width, height).d > 0.0
    ensures var der := DeriveRMu(lib, atmosphere, uv, width, height);
      der.d < der.dMin && der.muRaw > 1.0 && der.mu == 1.0
  {
    DerivationGeometry(lib, atmosphere, uv, width, height);
    NegativeXMuNeedsClampOf(atmosphere.topRadius, atmosphere.bottomRadius, DeriveRMu(lib, atmosphere, uv, width, height));
  }

  /** A solution of the law of cosines with d < 0 and 0 <= r + d < t is below 1. */
  lemma SolutionBelowOne(top: real, r: real, d: real, mu: real)
    requires 0.0 < r && d < 0.0 && 0.0 <= r + d < top
    requires CosineSolves(top, r, d, mu)
    ensures mu < 1.0
  {
    var q := -(2.0 * r * d);
    assert 0.0 < q by {
      assert r * d < 0.0;
    }
    assert top * top - r * r - d * d > 2.0 * r * d by {
      SquareStrictMonotone(r + d, top);
      assert (r + d) * (r + d) == r * r + 2.0 * (r * d) + d * d;
    }
    assert mu * q == -(top * top - r * r - d * d);
    MulCompare(mu, 1.0, q);
  }

  /** x_mu >= 0 keeps the step x_mu (dMax - dMin) non-negative. */
  lemma StepNonNegative(xMu: real, span: real)
    requires 0.0 <= span
    ensures 0.0 <= xMu ==> 0.0 <= Mul(xMu, span)
  {
    if 0.0 <= xMu {
      MulNonNegative(xMu, span);
    }
  }

  /** x_mu >= -1/2 takes at most half the span back. */
  lemma StepAtLeastHalfBack(xMu: real, span: real)
    requires 0.0 <= span && -0.5 <= xMu
    ensures -0.5 * span <= Mul(xMu, span)
  {
    MulNonNegative(xMu + 0.5, span);
    assert Mul(xMu + 0.5, span) == Mul(xMu, span) + 0.5 * span;
  }

  /** d < 0 happens only for x_mu < 0 and then r + d stays in [0, t), so the cosine before
      the clamp is below 1. */
  lemma NegativeDistanceOf(top: real, bottom: real, der: RMuDerivation)
    requires Geometry(top, bottom, der) && Distances(top, der)
    requires -1.0 <= der.xR <= 1.0 && -0.5 <= der.xMu && der.d < 0.0
    ensures der.xMu < 0.0 && 0.0 <= der.r + der.d < top
    ensures CosineFromDistance(der.h, der.rho, der.r, der.d) < 1.0
  {
    DistancesOrdered(top, bottom, der);
    RadiusAtMostTopOf(top, bottom, der);
    StepNonNegative(der.xMu, der.dMax - der.dMin);
    assert der.xMu < 0.0;
    assert der.dMin < der.dMax;
    DistanceBelowStart(der.dMin, der.dMax, der.xMu);
    StepAtLeastHalfBack(der.xMu, der.dMax - der.dMin);
    CosineTimesDenominator(top, bottom, der.h, der.xR, der.rho, der.r, der.d);
    SolutionBelowOne(top, der.r, der.d, CosineFromDistance(der.h, der.rho, der.r, der.d));
  }

  /** Where d < 0 (only in texels with x_mu < 0), the cosine before the clamp is below 1, so
      the clamp does not return mu = 1 there: the first column is not uniformly mu = 1. */
  lemma NegativeDistanceKeepsMuBelowOne(lib: Libm, atmosphere: AtmosphereParameters, uv: Vec2, width: int, height: int)
    requires ParameterisationDefined(lib, atmosphere, width, height)
    requires UvInUnitSquare(uv)
    requires atmosphere.bottomRadius <= atmosphere.topRadius
    requires DeriveRMu(lib, atmosphere, uv, width, height).xR <= 1.0
    requires DeriveRMu(lib, atmosphere, uv, width, height).d < 0.0
    ensures var der := DeriveRMu(lib, atmosphere, uv, width, height);
      der.xMu < 0.0 && der.muRaw < 1.0 && der.mu < 1.0
  {
    DerivationGeometry(lib, atmosphere, uv, width, height);
    UnitRangeLowerBound(uv.x, width);
    UnitRangeLowerBound(uv.y, height);
    NegativeDistanceOf(atmosphere.topRadius, atmosphere.bottomRadius, DeriveRMu(lib, atmosphere, uv, width, height));
  }

  /** `ComputeTransmittanceToTopAtmosphereBoundaryTexture`: the fragment coordinate divided by
      the texture size is the uv.  The precondition on r is the assertion r <= top_radius of
      the transmittance, which the uv asserts alone do not guarantee
      (RadiusAboveTopPastLastTexel). */
  function ComputeTransmittanceToTopAtmosphereBoundaryTexture(lib: Libm, atmosphere: AtmosphereParameters,
                                                              fragCoord: Vec2, width: int, height: int): (transmittance: Vec3)
    requires ParameterisationDefined(lib, atmosphere, width, height)
    requires UvInUnitSquare(fragCoord.Div(Vec2(width as real, height as real)))
    requires DeriveRMu(lib, atmosphere, fragCoord.Div(Vec2(width as real, height as real)), width, height).r <= atmosphere.topRadius
    ensures ExpLaws(lib.exp) && NonNegativeCoefficients(atmosphere) ==>
      transmittance.AllPositive() && transmittance.AllAtMost(1.0)
  {
    var textureSize := Vec2(width as real, height as real);
    var der := DeriveRMu(lib, atmosphere, fragCoord.Div(textureSize), width, height);
    ComputeTransmittanceToTopAtmosphereBoundary(lib, atmosphere, der.r, der.mu)
  }
}
