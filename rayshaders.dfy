// The shader providers the ray renderer is built with. The Simple and
// AmbientOcclusion providers compute a grey level from one number; the BSDF
// provider picks a sub-shader (or the samples loop of a primary ray) from the
// material, the side of the surface the ray hits and the depth counter it is
// handed, and is modelled as the colour expression it evaluates.
module RayShaders {
  import opened Base
  import opened Materials
  import opened Shading
  import opened RayCommon

  /** TRACE_MAX_DEPTH. */
  const TraceMaxDepth: int := 6

  /** The shader providers, in the order of the renderer's `shaderProvider` setting. */
  datatype ShaderKind = Simple | AmbientOcclusion | LambertKind | LambertWithAO | BSDF

  /**
   * The provider the renderer's constructor creates for a setting: 0 Simple,
   * 1 AmbientOcclusion, 2 Lambert, 3 LambertWithAO, 5 BSDF; any other value
   * creates none, and rendering then does nothing.
   */
  function ProviderFor(setting: int): (r: Option<ShaderKind>)
  {
    if setting == 0 then Some(Simple)
    else if setting == 1 then Some(AmbientOcclusion)
    else if setting == 2 then Some(LambertKind)
    else if setting == 3 then Some(LambertWithAO)
    else if setting == 5 then Some(BSDF)
    else None
  }

  /** The setting that selects each provider, the inverse of `ProviderFor`. */
  function SettingOf(k: ShaderKind): (setting: int)
  {
    match k
    case Simple => 0
    case AmbientOcclusion => 1
    case LambertKind => 2
    case LambertWithAO => 3
    case BSDF => 5
  }

  /** Every provider has exactly one setting, and only those five settings create one. */
  lemma ProviderSettingsRoundTrip(k: ShaderKind, setting: int)
    ensures ProviderFor(SettingOf(k)) == Some(k)
    ensures ProviderFor(setting).Some? ==> SettingOf(ProviderFor(setting).value) == setting
    ensures ProviderFor(setting).None? <==> setting < 0 || setting == 4 || setting > 5
  {
  }

  /** RaySimpleShaderProvider::shade: `0.1 + max(dot(lightSrc, normal), 0)` in every channel. */
  function SimpleShade(lightSrc: Vec3, normal: Vec3): (c: Color3)
    ensures c.r == c.g == c.b
    ensures c.r >= 0.1
    ensures c.r == 0.1 <==> Dot(lightSrc, normal) <= 0.0
    ensures c.r > 0.1 ==> c.r == 0.1 + Dot(lightSrc, normal)
  {
    var d := Dot(lightSrc, normal);
    var n := 0.1 + (if d > 0.0 then d else 0.0);
    Color3(n, n, n)
  }

  /**
   * With the light source along (1, 1, 1), as the provider's constructor
   * normalises it, a surface is lit beyond the 0.1 floor exactly when the
   * components of its normal have a positive sum.
   */
  lemma SimpleShadeLitFromDiagonal(k: real, normal: Vec3)
    requires k > 0.0
    ensures SimpleShade(Vec3(k, k, k), normal).r > 0.1 <==> normal.x + normal.y + normal.z > 0.0
  {
    assert Dot(Vec3(k, k, k), normal) == k * (normal.x + normal.y + normal.z);
    PositiveProduct(k, normal.x + normal.y + normal.z);
  }

  lemma PositiveProduct(k: real, s: real)
    requires k > 0.0
    ensures k * s > 0.0 <==> s > 0.0
  {
    if s > 0.0 {
      assert k * s > 0.0;
    } else {
      assert k * s <= 0.0;
    }
  }

  /** RayAmbientOcclusionShaderProvider::shade: the occlusion value clamped to [0, 1], in every channel. */
  function AmbientOcclusionShade(ao: real): (c: Color3)
    ensures c.r == c.g == c.b
    ensures 0.0 <= c.r <= 1.0
    ensures 0.0 <= ao <= 1.0 ==> c.r == ao
    ensures ao < 0.0 ==> c.r == 0.0
    ensures ao > 1.0 ==> c.r == 1.0
  {
    var c := if ao < 0.0 then 0.0 else if ao > 1.0 then 1.0 else ao;
    Color3(c, c, c)
  }

  /** The colour a path at its depth limit multiplies the direct light by: the material's, textured, or nothing. */
  function CappedColor(m: Material, colorSampling: bool): Shade
  {
    if !colorSampling then Zero
    else if m.texture.Some? then Product(MaterialColor, TextureSample)
    else MaterialColor
  }

  /** One pass of a primary ray's sample loop. */
  function SampleTerm(m: Material, colorSampling: bool): Shade
  {
    if m.transparency > 0.01 then Sum(Scaled(Mix(m, 0, colorSampling), 1.0 - m.transparency), Transparency(m, 0))
    else Mix(m, 0, colorSampling)
  }

  /** The sum the sample loop accumulates after `n` passes. */
  function SampleTotal(m: Material, colorSampling: bool, n: nat): Shade
  {
    if n == 0 then Zero else Sum(SampleTotal(m, colorSampling, n - 1), SampleTerm(m, colorSampling))
  }

  /** The number of passes `for (i = 0; i < samples; i++)` makes. */
  function Passes(samples: int): nat
  {
    if samples > 0 then samples else 0
  }

  /**
   * RayBSDFShaderProvider::shade. `inDir` is the ray's direction and `normal`
   * the interpolated normal; a positive dot product means the ray hits the
   * back of the surface. `shaderParam` is None for a primary ray and
   * Some(passes) for a ray traced by a sub-shader.
   */
  function BSDFShade(m: Material, colorSampling: bool, inDir: Vec3, normal: Vec3, shaderParam: ShaderParam, samples: int): Shade
  {
    if m.emission > 0.0 then EmissiveGlow
    else if Dot(inDir, normal) > 0.0 && m.transparency > 0.001 then
      if shaderParam.Some? && shaderParam.value + 1 <= TraceMaxDepth then Transparency(m, shaderParam.value + 1)
      else Zero
    else if Dot(inDir, normal) > 0.0 && m.refraction < 0.001 && m.glossy > 0.001 then Zero
    else if shaderParam.Some? then
      if shaderParam.value + 1 >= TraceMaxDepth then
        if DiffuseWeight(m) > WeightEpsilon then Product(DirectLight, CappedColor(m, colorSampling)) else Zero
      else if m.transparency > 0.001 then Transparency(m, 0)
      else Mix(m, shaderParam.value + 1, colorSampling)
    else Averaged(SampleTotal(m, colorSampling, Passes(samples)), samples)
  }

  /** The provider's shade method, with its sample loop. */
  method ShadeBSDF(m: Material, colorSampling: bool, inDir: Vec3, normal: Vec3, shaderParam: ShaderParam, samples: int)
    returns (r: Shade)
    ensures r == BSDFShade(m, colorSampling, inDir, normal, shaderParam, samples)
  {
    if m.emission > 0.0 {
      return EmissiveGlow;
    }
    if Dot(inDir, normal) > 0.0 {
      if m.transparency > 0.001 {
        if shaderParam.Some? && shaderParam.value + 1 <= TraceMaxDepth {
          return Transparency(m, shaderParam.value + 1);
        }
        return Zero;
      } else if m.refraction < 0.001 && m.glossy > 0.001 {
        return Zero;
      }
    }
    if shaderParam.Some? {
      var passes := shaderParam.value;
      if passes + 1 >= TraceMaxDepth {
        if 1.0 - m.glossy - m.refraction > 0.00001 {
          var color := Zero;
          if colorSampling {
            color := MaterialColor;
            if m.texture.Some? {
              color := Product(color, TextureSample);
            }
          }
          return Product(DirectLight, color);
        }
        return Zero;
      }
      if m.transparency > 0.001 {
        return Transparency(m, 0);
      }
      return Mix(m, passes + 1, colorSampling);
    }
    var color := Zero;
    var i := 0;
    while i < samples
      invariant 0 <= i <= Passes(samples)
      invariant color == SampleTotal(m, colorSampling, i)
    {
      if m.transparency > 0.01 {
        color := Sum(color, Sum(Scaled(Mix(m, 0, colorSampling), 1.0 - m.transparency), Transparency(m, 0)));
      } else {
        color := Sum(color, Mix(m, 0, colorSampling));
      }
      i := i + 1;
    }
    r := Averaged(color, samples);
  }

  /** Every path an expression traces carries one of the given depth counters. */
  predicate PathsCarry(s: Shade, allowed: set<ShaderParam>)
  {
    forall i :: 0 <= i < |Paths(s)| ==> Paths(s)[i].1 in allowed
  }

  lemma PathsCarrySum(a: Shade, b: Shade, allowed: set<ShaderParam>)
    requires PathsCarry(a, allowed) && PathsCarry(b, allowed)
    ensures PathsCarry(Sum(a, b), allowed)
  {
    assert Paths(Sum(a, b)) == Paths(a) + Paths(b);
  }

  lemma ForwardsOnlyCarries(s: Shade, p: ShaderParam, allowed: set<ShaderParam>)
    requires ForwardsOnly(s, p) && p in allowed
    ensures PathsCarry(s, allowed)
  {
  }

  /** Every pass of the sample loop traces with a fresh depth counter of 0. */
  lemma {:induction false} SampleTotalStartsAtZero(m: Material, colorSampling: bool, n: nat)
    ensures PathsCarry(SampleTotal(m, colorSampling, n), {Some(0)})
  {
    if n > 0 {
      SampleTotalStartsAtZero(m, colorSampling, n - 1);
      SubShadersKeepDepth(m, 0, colorSampling);
      var term := SampleTerm(m, colorSampling);
      if m.transparency > 0.01 {
        assert Paths(Scaled(Mix(m, 0, colorSampling), 1.0 - m.transparency)) == Paths(Mix(m, 0, colorSampling));
        PathsCarrySum(Scaled(Mix(m, 0, colorSampling), 1.0 - m.transparency), Transparency(m, 0), {Some(0)});
      }
      assert PathsCarry(term, {Some(0)});
      PathsCarrySum(SampleTotal(m, colorSampling, n - 1), term, {Some(0)});
    }
  }

  /** An emissive surface ends the path: it glows, and traces and lights nothing. */
  lemma BSDFEmissiveIsTerminal(m: Material, colorSampling: bool, inDir: Vec3, normal: Vec3, shaderParam: ShaderParam, samples: int)
    requires m.emission > 0.0
    ensures BSDFShade(m, colorSampling, inDir, normal, shaderParam, samples) == EmissiveGlow
    ensures Paths(EmissiveGlow) == [] && !Uses(EmissiveGlow, DirectLight)
  {
  }

  /**
   * A primary ray (no depth counter) that hits the front of a non-emissive
   * surface is the average of `samples` passes, each tracing with a depth
   * counter of 0.
   */
  lemma BSDFPrimaryRay(m: Material, colorSampling: bool, inDir: Vec3, normal: Vec3, samples: int)
    requires m.emission <= 0.0 && Dot(inDir, normal) <= 0.0
    ensures BSDFShade(m, colorSampling, inDir, normal, None, samples)
            == Averaged(SampleTotal(m, colorSampling, Passes(samples)), samples)
    ensures PathsCarry(BSDFShade(m, colorSampling, inDir, normal, None, samples), {Some(0)})
  {
    SampleTotalStartsAtZero(m, colorSampling, Passes(samples));
  }

  /**
   * The depth counter of a secondary ray: whatever it hits traces further
   * only with the counter one higher, never above TRACE_MAX_DEPTH, or, through
   * the front of a transparent surface, with a counter started again at 0.
   * Once the counter reaches TRACE_MAX_DEPTH - 1 nothing is traced except
   * through the back of a transparent surface. Counters start at 0, so a
   * counter of 0 handed on comes only from a transparent front face.
   */
  lemma BSDFDepthCounter(m: Material, colorSampling: bool, inDir: Vec3, normal: Vec3, passes: int, samples: int)
    ensures var s := BSDFShade(m, colorSampling, inDir, normal, Some(passes), samples);
            passes + 1 <= TraceMaxDepth ==> PathsCarry(s, {Some(passes + 1), Some(0)})
    ensures var s := BSDFShade(m, colorSampling, inDir, normal, Some(passes), samples);
            passes + 1 > TraceMaxDepth ==> Paths(s) == []
    ensures var s := BSDFShade(m, colorSampling, inDir, normal, Some(passes), samples);
            passes + 1 >= TraceMaxDepth && !(Dot(inDir, normal) > 0.0 && m.transparency > 0.001) ==> Paths(s) == []
    ensures var s := BSDFShade(m, colorSampling, inDir, normal, Some(passes), samples);
            passes >= 0 && (exists i :: 0 <= i < |Paths(s)| && Paths(s)[i].1 == Some(0)) ==>
              m.emission <= 0.0 && Dot(inDir, normal) <= 0.0 && m.transparency > 0.001 && passes + 1 < TraceMaxDepth
  {
    var s := BSDFShade(m, colorSampling, inDir, normal, Some(passes), samples);
    SubShadersKeepDepth(m, passes + 1, colorSampling);
    SubShadersKeepDepth(m, 0, colorSampling);
    assert Paths(CappedColor(m, colorSampling)) == [];
    assert Paths(Product(DirectLight, CappedColor(m, colorSampling))) == [];
    if m.emission > 0.0 {
      assert s == EmissiveGlow;
    } else if Dot(inDir, normal) > 0.0 && m.transparency > 0.001 {
      assert passes + 1 <= TraceMaxDepth ==> s == Transparency(m, passes + 1);
      assert passes + 1 > TraceMaxDepth ==> s == Zero;
    } else if Dot(inDir, normal) > 0.0 && m.refraction < 0.001 && m.glossy > 0.001 {
      assert s == Zero;
    } else if passes + 1 >= TraceMaxDepth {
      assert Paths(s) == [];
    } else if m.transparency > 0.001 {
      assert s == Transparency(m, 0);
    } else {
      assert s == Mix(m, passes + 1, colorSampling);
    }
  }

  /** A ray that hits the back of an opaque, non-refracting, glossy surface is black. */
  lemma BSDFBackFaceGlossyIsBlack(m: Material, colorSampling: bool, inDir: Vec3, normal: Vec3, shaderParam: ShaderParam, samples: int)
    requires m.emission <= 0.0 && Dot(inDir, normal) > 0.0
    requires m.transparency <= 0.001 && m.refraction < 0.001 && m.glossy > 0.001
    ensures BSDFShade(m, colorSampling, inDir, normal, shaderParam, samples) == Zero
  {
  }

  /**
   * At the depth limit, a surface that is not all glossy or refractive gives
   * the direct light times its colour, and the colour is applied exactly when
   * colour sampling is on.
   */
  lemma BSDFDepthLimitColor(m: Material, colorSampling: bool, inDir: Vec3, normal: Vec3, passes: int, samples: int)
    requires m.emission <= 0.0 && Dot(inDir, normal) <= 0.0 && passes + 1 >= TraceMaxDepth
    ensures var s := BSDFShade(m, colorSampling, inDir, normal, Some(passes), samples);
            Uses(s, DirectLight) <==> DiffuseWeight(m) > WeightEpsilon
    ensures var s := BSDFShade(m, colorSampling, inDir, normal, Some(passes), samples);
            DiffuseWeight(m) > WeightEpsilon ==> (Uses(s, MaterialColor) <==> colorSampling)
    ensures var s := BSDFShade(m, colorSampling, inDir, normal, Some(passes), samples);
            DiffuseWeight(m) > WeightEpsilon ==> (Uses(s, TextureSample) <==> colorSampling && m.texture.Some?)
  {
    var c := CappedColor(m, colorSampling);
    assert !Uses(c, DirectLight);
    assert Uses(c, MaterialColor) <==> colorSampling;
    assert Uses(c, TextureSample) <==> colorSampling && m.texture.Some?;
    assert Uses(Product(DirectLight, c), DirectLight);
  }
}
