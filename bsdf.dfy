// The BSDF sub-shaders of the path tracer. Traced colours are not computed:
// a shader's result is the colour expression it evaluates, built from the
// renderer calls it makes (path tracing, direct light, occlusion) and the
// material values it multiplies in. What is proved is which calls happen,
// with which depth counter, and how their results are weighted.
module Shading {
  import opened Base
  import opened Materials

  /** The direction of a traced secondary ray. */
  datatype Direction =
    | Hemisphere                    // randomRayInHemisphere around the normal
    | Reflected(perturbed: bool)    // reflect(inray.dir, normal), jittered by roughness when perturbed
    | Refracted(perturbed: bool)    // refract(inray.dir, normal, refractionRatio), jittered likewise
    | Onward                        // the incoming direction, continued through the surface

  /**
   * The `shaderParam` handed to `tracePath`: NULL, or a BSDFParam whose depth
   * counter `passes` is given.
   */
  type ShaderParam = Option<int>

  /** A colour expression. */
  datatype Shade =
    | Zero                                   // a default-constructed colour
    | MaterialColor                          // m.color
    | TextureSample                          // m.texture sampled at the tiled UV
    | EmissiveGlow                           // normalize(m.color) + 1
    | InverseSquareDistance                  // the falloff of EmissionShader
    | Facing                                 // max(dot(lightray, -normal), 0)
    | Path(dir: Direction, param: ShaderParam)  // renderer.tracePath
    | DirectLight                            // renderer.traceLight
    | AllLight                               // renderer.traceAllLight
    | Occlusion(distance: real)              // renderer.calcAO
    | Sum(left: Shade, right: Shade)
    | Product(left: Shade, right: Shade)
    | Scaled(base: Shade, k: real)
    | Offset(base: Shade, k: real)           // every channel plus k
    | Power(base: Shade, e: real)
    | Averaged(total: Shade, samples: int)   // a sum divided by the sample count

  /** The tracePath calls an expression makes, left to right. */
  function Paths(s: Shade): seq<(Direction, ShaderParam)>
  {
    match s
    case Path(d, p) => [(d, p)]
    case Sum(a, b) => Paths(a) + Paths(b)
    case Product(a, b) => Paths(a) + Paths(b)
    case Scaled(a, _) => Paths(a)
    case Offset(a, _) => Paths(a)
    case Power(a, _) => Paths(a)
    case Averaged(a, _) => Paths(a)
    case _ => []
  }

  /** Whether the leaf `leaf` occurs in the expression. */
  predicate Uses(s: Shade, leaf: Shade)
  {
    s == leaf ||
    match s
    case Sum(a, b) => Uses(a, leaf) || Uses(b, leaf)
    case Product(a, b) => Uses(a, leaf) || Uses(b, leaf)
    case Scaled(a, _) => Uses(a, leaf)
    case Offset(a, _) => Uses(a, leaf)
    case Power(a, _) => Uses(a, leaf)
    case Averaged(a, _) => Uses(a, leaf)
    case _ => false
  }

  /** Every tracePath call in the expression is handed `param`. */
  predicate ForwardsOnly(s: Shade, param: ShaderParam)
  {
    forall i :: 0 <= i < |Paths(s)| ==> Paths(s)[i].1 == param
  }

  /** The threshold MixShader compares each weight against. */
  const WeightEpsilon: real := 0.00001

  /**
   * Multiply by the material colour when colour sampling is on, and then by
   * the texture when the material has one.
   */
  function Tint(color: Shade, m: Material, colorSampling: bool): Shade
  {
    if !colorSampling then color
    else if m.texture.Some? then Product(Product(color, MaterialColor), TextureSample)
    else Product(color, MaterialColor)
  }

  /** DiffuseShader: a hemisphere sample plus direct light, tinted. */
  function Diffuse(m: Material, passes: int, colorSampling: bool): Shade
  {
    Tint(Sum(Path(Hemisphere, Some(passes)), DirectLight), m, colorSampling)
  }

  /** EmissionShader: the emitted colour with inverse-square falloff, facing the viewer. */
  function Emission(m: Material): Shade
  {
    Product(Product(Scaled(MaterialColor, m.emission), InverseSquareDistance), Facing)
  }

  /** GlossyShader: the reflected ray, jittered when rough, times the material colour. */
  function Glossy(m: Material, passes: int): Shade
  {
    Product(Path(Reflected(m.roughness > 0.0), Some(passes)), MaterialColor)
  }

  /** RefractionShader: the refracted ray, jittered when rough, times the material colour. */
  function Refraction(m: Material, passes: int): Shade
  {
    Product(Path(Refracted(m.roughness > 0.0), Some(passes)), MaterialColor)
  }

  /** GlassShader: computed exactly like RefractionShader. */
  function Glass(m: Material, passes: int): Shade
  {
    Product(Path(Refracted(m.roughness > 0.0), Some(passes)), MaterialColor)
  }

  /** TransparencyShader: the ray continued through the surface, scaled by transparency. */
  function Transparency(m: Material, passes: int): Shade
  {
    Scaled(Path(Onward, Some(passes)), m.transparency)
  }

  /** AnisotropicShader: computed exactly like DiffuseShader. */
  function Anisotropic(m: Material, passes: int, colorSampling: bool): Shade
  {
    Tint(Sum(Path(Hemisphere, Some(passes)), DirectLight), m, colorSampling)
  }

  /** The diffuse weight of MixShader. */
  function DiffuseWeight(m: Material): real
  {
    1.0 - m.glossy - m.refraction
  }

  /** MixShader: each of diffuse, glossy and refraction added in that order when its weight is above the threshold. */
  function Mix(m: Material, passes: int, colorSampling: bool): Shade
  {
    var diffuse := DiffuseWeight(m);
    var c0 := Zero;
    var c1 := if diffuse > WeightEpsilon then Sum(c0, Scaled(Diffuse(m, passes, colorSampling), diffuse)) else c0;
    var c2 := if m.glossy > WeightEpsilon then Sum(c1, Scaled(Glossy(m, passes), m.glossy)) else c1;
    if m.refraction > WeightEpsilon then Sum(c2, Scaled(Refraction(m, passes), m.refraction)) else c2
  }

  /** A shader term with its weight. */
  datatype Part = Part(weight: real, term: Shade)

  /** The weighted terms `color +=` accumulates, starting from a zero colour. */
  function Accumulate(parts: seq<Part>): Shade
    decreases |parts|
  {
    if parts == [] then Zero
    else Sum(Accumulate(parts[..|parts| - 1]), Scaled(parts[|parts| - 1].term, parts[|parts| - 1].weight))
  }

  /** The parts whose weight exceeds the threshold, in order. */
  function Significant(parts: seq<Part>): (r: seq<Part>)
    decreases |parts|
  {
    if parts == [] then []
    else
      var init := Significant(parts[..|parts| - 1]);
      var last := parts[|parts| - 1];
      if last.weight > WeightEpsilon then init + [last] else init
  }

  /** Significant keeps exactly the parts above the threshold. */
  lemma {:induction false} SignificantSelects(parts: seq<Part>)
    ensures forall i :: 0 <= i < |Significant(parts)| ==>
              Significant(parts)[i] in parts && Significant(parts)[i].weight > WeightEpsilon
    ensures forall p :: p in parts && p.weight > WeightEpsilon ==> p in Significant(parts)
    decreases |parts|
  {
    if parts != [] {
      var init := parts[..|parts| - 1];
      var last := parts[|parts| - 1];
      SignificantSelects(init);
      assert parts == init + [last];
    }
  }

  lemma SignificantSnoc(parts: seq<Part>, p: Part)
    ensures Significant(parts + [p]) == Significant(parts) + (if p.weight > WeightEpsilon then [p] else [])
  {
    assert (parts + [p])[..|parts|] == parts;
  }

  lemma AccumulateSnoc(parts: seq<Part>, p: Part)
    ensures Accumulate(parts + [p]) == Sum(Accumulate(parts), Scaled(p.term, p.weight))
  {
    assert (parts + [p])[..|parts|] == parts;
  }

  /** Accumulating a part only when it is significant. */
  function AddIfSignificant(acc: Shade, p: Part): Shade
  {
    if p.weight > WeightEpsilon then Sum(acc, Scaled(p.term, p.weight)) else acc
  }

  lemma AccumulateSignificantSnoc(parts: seq<Part>, p: Part, whole: seq<Part>)
    requires whole == parts + [p]
    ensures Accumulate(Significant(whole)) == AddIfSignificant(Accumulate(Significant(parts)), p)
  {
    SignificantSnoc(parts, p);
    if p.weight > WeightEpsilon {
      AccumulateSnoc(Significant(parts), p);
    } else {
      assert Significant(parts) + [] == Significant(parts);
    }
  }

  /**
   * MixShader is the sum of the diffuse, glossy and refraction shaders, each
   * scaled by its weight, keeping exactly the weights above the threshold.
   */
  lemma {:induction false} MixIsWeightedSum(m: Material, passes: int, colorSampling: bool)
    ensures Mix(m, passes, colorSampling) == Accumulate(Significant([
              Part(DiffuseWeight(m), Diffuse(m, passes, colorSampling)),
              Part(m.glossy, Glossy(m, passes)),
              Part(m.refraction, Refraction(m, passes))]))
  {
    var d := Part(DiffuseWeight(m), Diffuse(m, passes, colorSampling));
    var g := Part(m.glossy, Glossy(m, passes));
    var r := Part(m.refraction, Refraction(m, passes));
    AccumulateThree(d, g, r);
  }

  /** Three parts accumulate one after another, each only when significant. */
  lemma AccumulateThree(d: Part, g: Part, r: Part)
    ensures Accumulate(Significant([d, g, r]))
            == AddIfSignificant(AddIfSignificant(AddIfSignificant(Zero, d), g), r)
  {
    var none: seq<Part> := [];
    var a1 := AddIfSignificant(Zero, d);
    var a2 := AddIfSignificant(a1, g);
    assert Accumulate(Significant([d])) == a1 by {
      assert Accumulate(Significant(none)) == Zero;
      AccumulateSignificantSnoc(none, d, [d]);
    }
    assert Accumulate(Significant([d, g])) == a2 by {
      AccumulateSignificantSnoc([d], g, [d, g]);
    }
    AccumulateSignificantSnoc([d, g], r, [d, g, r]);
  }

  lemma UsesTint(color: Shade, m: Material, colorSampling: bool, leaf: Shade)
    requires leaf == MaterialColor || leaf == TextureSample || leaf == DirectLight
    ensures Uses(Tint(color, m, colorSampling), leaf) <==>
              Uses(color, leaf)
              || (colorSampling && leaf == MaterialColor)
              || (colorSampling && m.texture.Some? && leaf == TextureSample)
  {
    if colorSampling {
      var c1 := Product(color, MaterialColor);
      assert Uses(c1, leaf) <==> Uses(color, leaf) || leaf == MaterialColor;
      if m.texture.Some? {
        assert Uses(Product(c1, TextureSample), leaf) <==> Uses(c1, leaf) || leaf == TextureSample;
      }
    }
  }

  lemma PathsOfTint(color: Shade, m: Material, colorSampling: bool)
    ensures Paths(Tint(color, m, colorSampling)) == Paths(color)
  {
    if colorSampling {
      var c1 := Product(color, MaterialColor);
      assert Paths(MaterialColor) == [] && Paths(TextureSample) == [];
      assert Paths(c1) == Paths(color) + [];
      assert Paths(color) + [] == Paths(color);
      if m.texture.Some? {
        assert Paths(Product(c1, TextureSample)) == Paths(c1) + [];
      }
    }
  }

  /**
   * The tracePath calls of MixShader: a hemisphere ray when the diffuse
   * weight is significant, then a reflected and a refracted ray for the
   * significant glossy and refraction weights, each jittered exactly when the
   * material is rough; all of them carry the caller's depth unchanged.
   */
  lemma MixPaths(m: Material, passes: int, colorSampling: bool)
    ensures Paths(Mix(m, passes, colorSampling)) ==
              (if DiffuseWeight(m) > WeightEpsilon then [(Hemisphere, Some(passes))] else [])
              + (if m.glossy > WeightEpsilon then [(Reflected(m.roughness > 0.0), Some(passes))] else [])
              + (if m.refraction > WeightEpsilon then [(Refracted(m.roughness > 0.0), Some(passes))] else [])
  {
    var diffuse := Diffuse(m, passes, colorSampling);
    PathsOfTint(Sum(Path(Hemisphere, Some(passes)), DirectLight), m, colorSampling);
    assert Paths(diffuse) == [(Hemisphere, Some(passes))];
    var c1 := if DiffuseWeight(m) > WeightEpsilon then Sum(Zero, Scaled(diffuse, DiffuseWeight(m))) else Zero;
    assert Paths(c1) == (if DiffuseWeight(m) > WeightEpsilon then [(Hemisphere, Some(passes))] else []);
    ReflectiveShaders(m, passes);
    var c2 := if m.glossy > WeightEpsilon then Sum(c1, Scaled(Glossy(m, passes), m.glossy)) else c1;
    assert Paths(c2) == Paths(c1) + (if m.glossy > WeightEpsilon then [(Reflected(m.roughness > 0.0), Some(passes))] else []);
    var c3 := if m.refraction > WeightEpsilon then Sum(c2, Scaled(Refraction(m, passes), m.refraction)) else c2;
    assert Paths(c3) == Paths(c2) + (if m.refraction > WeightEpsilon then [(Refracted(m.roughness > 0.0), Some(passes))] else []);
  }

  /** Every sub-shader hands tracePath the same BSDFParam, so the depth counter is passed on unchanged. */
  lemma SubShadersKeepDepth(m: Material, passes: int, colorSampling: bool)
    ensures ForwardsOnly(Diffuse(m, passes, colorSampling), Some(passes))
    ensures ForwardsOnly(Glossy(m, passes), Some(passes))
    ensures ForwardsOnly(Refraction(m, passes), Some(passes))
    ensures ForwardsOnly(Glass(m, passes), Some(passes))
    ensures ForwardsOnly(Transparency(m, passes), Some(passes))
    ensures ForwardsOnly(Anisotropic(m, passes, colorSampling), Some(passes))
    ensures ForwardsOnly(Mix(m, passes, colorSampling), Some(passes))
  {
    PathsOfTint(Sum(Path(Hemisphere, Some(passes)), DirectLight), m, colorSampling);
    MixPaths(m, passes, colorSampling);
  }

  /**
   * Diffuse and Anisotropic use the material colour exactly when colour
   * sampling is on, and the texture exactly when, in addition, there is one.
   */
  lemma DiffuseTint(m: Material, passes: int, colorSampling: bool)
    ensures Uses(Diffuse(m, passes, colorSampling), MaterialColor) <==> colorSampling
    ensures Uses(Diffuse(m, passes, colorSampling), TextureSample) <==> colorSampling && m.texture.Some?
    ensures Uses(Anisotropic(m, passes, colorSampling), MaterialColor) <==> colorSampling
    ensures Uses(Anisotropic(m, passes, colorSampling), TextureSample) <==> colorSampling && m.texture.Some?
    ensures Uses(Diffuse(m, passes, colorSampling), DirectLight)
  {
    var base := Sum(Path(Hemisphere, Some(passes)), DirectLight);
    assert !Uses(base, MaterialColor) && !Uses(base, TextureSample) && Uses(base, DirectLight);
    UsesTint(base, m, colorSampling, MaterialColor);
    UsesTint(base, m, colorSampling, TextureSample);
    UsesTint(base, m, colorSampling, DirectLight);
  }

  /**
   * Glossy, Refraction and Glass jitter their ray exactly when the material
   * is rough, and always multiply by the material colour.
   */
  lemma ReflectiveShaders(m: Material, passes: int)
    ensures Paths(Glossy(m, passes)) == [(Reflected(m.roughness > 0.0), Some(passes))]
    ensures Paths(Refraction(m, passes)) == [(Refracted(m.roughness > 0.0), Some(passes))]
    ensures Paths(Glass(m, passes)) == Paths(Refraction(m, passes))
    ensures Uses(Glossy(m, passes), MaterialColor) && Uses(Refraction(m, passes), MaterialColor)
    ensures Uses(Glass(m, passes), MaterialColor)
  {
    assert Paths(Path(Reflected(m.roughness > 0.0), Some(passes))) == [(Reflected(m.roughness > 0.0), Some(passes))];
    assert Paths(Path(Refracted(m.roughness > 0.0), Some(passes))) == [(Refracted(m.roughness > 0.0), Some(passes))];
    assert Paths(MaterialColor) == [];
  }

  /** TransparencyShader traces only onward through the surface and scales by transparency. */
  lemma TransparencyContinues(m: Material, passes: int)
    ensures Paths(Transparency(m, passes)) == [(Onward, Some(passes))]
    ensures Transparency(m, passes).Scaled? && Transparency(m, passes).k == m.transparency
  {
  }

  /** EmissionShader traces nothing. */
  lemma EmissionTracesNothing(m: Material)
    ensures Paths(Emission(m)) == [] && !Uses(Emission(m), DirectLight)
  {
    var glow := Scaled(MaterialColor, m.emission);
    assert Paths(MaterialColor) == [] && !Uses(MaterialColor, DirectLight);
    assert Paths(glow) == Paths(MaterialColor);
    assert !Uses(glow, DirectLight);
    assert Paths(InverseSquareDistance) == [] && !Uses(InverseSquareDistance, DirectLight);
    var falloff := Product(glow, InverseSquareDistance);
    assert Paths(falloff) == Paths(glow) + Paths(InverseSquareDistance);
    assert !Uses(falloff, DirectLight);
    assert Paths(Facing) == [] && !Uses(Facing, DirectLight);
    assert Paths(Emission(m)) == Paths(falloff) + Paths(Facing);
  }
}
