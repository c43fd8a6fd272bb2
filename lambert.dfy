// The three Lambert shader providers. Like the BSDF sub-shaders, each is
// modelled as the colour expression it evaluates; the `shaderParam` pointer
// the provider receives is handed on to `tracePath` untouched.
module Lambert {
  import opened Base
  import opened Materials
  import opened Shading

  /** The light term shared by all three providers: all lights, brightened by roughness. */
  function LightTerm(m: Material): Shade
  {
    Scaled(AllLight, 0.75 + m.roughness * 0.5)
  }

  /** An emissive surface: its colour times its emission. */
  function Glow(m: Material): Shade
  {
    Scaled(MaterialColor, m.emission)
  }

  /** The path continued through a transparent surface, with the caller's parameter. */
  function Onwards(shaderParam: ShaderParam): Shade
  {
    Path(Onward, shaderParam)
  }

  /** LambertWithAO's light: a fifth of it plain, four fifths occluded within distance 2. */
  function AOTerm(m: Material): Shade
  {
    Sum(Scaled(LightTerm(m), 0.2), Product(Scaled(LightTerm(m), 0.8), Occlusion(2.0)))
  }

  /** LambertWithAOLight's light: the light plus half the square root of the occlusion within distance 1. */
  function AOLightTerm(m: Material): Shade
  {
    Sum(LightTerm(m), Scaled(Power(Occlusion(1.0), 0.5), 0.5))
  }

  /** LambertShaderProvider::shade. */
  function LambertShade(m: Material, colorSampling: bool, shaderParam: ShaderParam): Shade
  {
    if m.emission > 0.0 then Glow(m)
    else
      var light := LightTerm(m);
      var color := Tint(light, m, colorSampling);
      if m.transparency > 0.0 then
        Sum(Scaled(Product(MaterialColor, Offset(light, 0.5)), 1.0 - m.transparency),
            Scaled(Onwards(shaderParam), m.transparency))
      else color
  }

  /** LambertWithAOShaderProvider::shade. */
  function LambertWithAOShade(m: Material, colorSampling: bool, shaderParam: ShaderParam): Shade
  {
    if m.emission > 0.0 then Glow(m)
    else
      var color := Tint(AOTerm(m), m, colorSampling);
      if m.transparency > 0.0 then Sum(color, Scaled(Onwards(shaderParam), m.transparency))
      else color
  }

  /** LambertWithAOLightShaderProvider::shade. */
  function LambertWithAOLightShade(m: Material, colorSampling: bool, shaderParam: ShaderParam): Shade
  {
    if m.emission > 0.0 then Glow(m)
    else if !colorSampling && m.transparency > 0.0 then Onwards(shaderParam)
    else
      var color := Tint(AOLightTerm(m), m, colorSampling);
      if m.transparency > 0.0 then Sum(Scaled(color, 1.0 - m.transparency), Scaled(Onwards(shaderParam), m.transparency))
      else color
  }

  /** An emissive material gives its colour times its emission in all three providers, tracing nothing. */
  lemma EmissiveIsTerminal(m: Material, colorSampling: bool, shaderParam: ShaderParam)
    requires m.emission > 0.0
    ensures LambertShade(m, colorSampling, shaderParam) == Scaled(MaterialColor, m.emission)
    ensures LambertWithAOShade(m, colorSampling, shaderParam) == Scaled(MaterialColor, m.emission)
    ensures LambertWithAOLightShade(m, colorSampling, shaderParam) == Scaled(MaterialColor, m.emission)
    ensures Paths(Glow(m)) == [] && !Uses(Glow(m), AllLight)
  {
  }

  /** The opaque colour terms of the three providers trace nothing. */
  lemma OpaqueTermsTraceNothing(m: Material, colorSampling: bool)
    ensures Paths(LightTerm(m)) == []
    ensures Paths(Tint(AOTerm(m), m, colorSampling)) == []
    ensures Paths(Tint(AOLightTerm(m), m, colorSampling)) == []
    ensures Paths(Product(MaterialColor, Offset(LightTerm(m), 0.5))) == []
  {
    var light := LightTerm(m);
    assert Paths(light) == [];
    assert Paths(Scaled(light, 0.2)) == [] && Paths(Scaled(light, 0.8)) == [];
    assert Paths(Occlusion(2.0)) == [];
    assert Paths(Product(Scaled(light, 0.8), Occlusion(2.0))) == [];
    assert Paths(AOTerm(m)) == [];
    PathsOfTint(AOTerm(m), m, colorSampling);
    assert Paths(Power(Occlusion(1.0), 0.5)) == [];
    assert Paths(AOLightTerm(m)) == [];
    PathsOfTint(AOLightTerm(m), m, colorSampling);
    assert Paths(Offset(light, 0.5)) == [];
  }

  /**
   * The Lambert provider traces a path only for transparent, non-emissive
   * materials, exactly once, continuing onward with the caller's parameter.
   */
  lemma LambertTracesOnlyThroughTransparency(m: Material, colorSampling: bool, shaderParam: ShaderParam)
    ensures Paths(LambertShade(m, colorSampling, shaderParam)) ==
              (if m.emission <= 0.0 && m.transparency > 0.0 then [(Onward, shaderParam)] else [])
  {
    if m.emission > 0.0 {
      assert Paths(Glow(m)) == [];
    } else if m.transparency > 0.0 {
      assert Paths(Product(MaterialColor, Offset(LightTerm(m), 0.5))) == [] by {
        OpaqueTermsTraceNothing(m, colorSampling);
      }
      assert Paths(Scaled(Product(MaterialColor, Offset(LightTerm(m), 0.5)), 1.0 - m.transparency)) == [];
      assert Paths(Scaled(Onwards(shaderParam), m.transparency)) == [(Onward, shaderParam)];
    } else {
      assert Paths(LightTerm(m)) == [] by {
        OpaqueTermsTraceNothing(m, colorSampling);
      }
      PathsOfTint(LightTerm(m), m, colorSampling);
    }
  }

  /** The same for LambertWithAO. */
  lemma AOTracesOnlyThroughTransparency(m: Material, colorSampling: bool, shaderParam: ShaderParam)
    ensures Paths(LambertWithAOShade(m, colorSampling, shaderParam)) ==
              (if m.emission <= 0.0 && m.transparency > 0.0 then [(Onward, shaderParam)] else [])
  {
    OpaqueTermsTraceNothing(m, colorSampling);
    assert Paths(Glow(m)) == [];
    if m.emission <= 0.0 && m.transparency > 0.0 {
      assert Paths(Scaled(Onwards(shaderParam), m.transparency)) == [(Onward, shaderParam)];
    }
  }

  /** The same for LambertWithAOLight, whether it mixes or passes straight through. */
  lemma AOLightTracesOnlyThroughTransparency(m: Material, colorSampling: bool, shaderParam: ShaderParam)
    ensures Paths(LambertWithAOLightShade(m, colorSampling, shaderParam)) ==
              (if m.emission <= 0.0 && m.transparency > 0.0 then [(Onward, shaderParam)] else [])
  {
    OpaqueTermsTraceNothing(m, colorSampling);
    assert Paths(Glow(m)) == [];
    if m.emission <= 0.0 && m.transparency > 0.0 && colorSampling {
      assert Paths(Scaled(Tint(AOLightTerm(m), m, colorSampling), 1.0 - m.transparency)) == [];
      assert Paths(Scaled(Onwards(shaderParam), m.transparency)) == [(Onward, shaderParam)];
    }
  }

  /**
   * Without transparency the Lambert and LambertWithAO providers apply the
   * material colour exactly when colour sampling is on, and the texture
   * exactly when in addition the material has one.
   */
  lemma OpaqueTint(m: Material, colorSampling: bool, shaderParam: ShaderParam)
    requires m.emission <= 0.0 && m.transparency <= 0.0
    ensures Uses(LambertShade(m, colorSampling, shaderParam), MaterialColor) <==> colorSampling
    ensures Uses(LambertShade(m, colorSampling, shaderParam), TextureSample) <==> colorSampling && m.texture.Some?
    ensures Uses(LambertWithAOShade(m, colorSampling, shaderParam), MaterialColor) <==> colorSampling
    ensures Uses(LambertWithAOShade(m, colorSampling, shaderParam), TextureSample) <==> colorSampling && m.texture.Some?
  {
    var light := LightTerm(m);
    assert !Uses(AllLight, MaterialColor) && !Uses(AllLight, TextureSample);
    assert !Uses(light, MaterialColor) && !Uses(light, TextureSample);
    UsesTint(light, m, colorSampling, MaterialColor);
    UsesTint(light, m, colorSampling, TextureSample);
    var ao := AOTerm(m);
    assert !Uses(Scaled(light, 0.2), MaterialColor) && !Uses(Scaled(light, 0.2), TextureSample);
    assert !Uses(Scaled(light, 0.8), MaterialColor) && !Uses(Scaled(light, 0.8), TextureSample);
    assert !Uses(Occlusion(2.0), MaterialColor) && !Uses(Occlusion(2.0), TextureSample);
    assert !Uses(Product(Scaled(light, 0.8), Occlusion(2.0)), MaterialColor);
    assert !Uses(Product(Scaled(light, 0.8), Occlusion(2.0)), TextureSample);
    assert !Uses(ao, MaterialColor) && !Uses(ao, TextureSample);
    UsesTint(ao, m, colorSampling, MaterialColor);
    UsesTint(ao, m, colorSampling, TextureSample);
  }

  /**
   * A transparent Lambert surface replaces the tinted colour by
   * `color (light + 0.5) (1 - tr) + trace tr`, while LambertWithAO adds
   * `trace tr` to its tinted colour without attenuating it.
   */
  lemma TransparentMixing(m: Material, colorSampling: bool, shaderParam: ShaderParam)
    requires m.emission <= 0.0 && m.transparency > 0.0
    ensures LambertShade(m, colorSampling, shaderParam)
            == Sum(Scaled(Product(MaterialColor, Offset(LightTerm(m), 0.5)), 1.0 - m.transparency),
                   Scaled(Path(Onward, shaderParam), m.transparency))
    ensures var solid := LambertWithAOShade(m.(transparency := 0.0), colorSampling, shaderParam);
            LambertWithAOShade(m, colorSampling, shaderParam) == Sum(solid, Scaled(Path(Onward, shaderParam), m.transparency))
  {
  }

  /** Without colour sampling, LambertWithAOLight passes a transparent surface straight through. */
  lemma AOLightPassThrough(m: Material, shaderParam: ShaderParam)
    requires m.emission <= 0.0 && m.transparency > 0.0
    ensures LambertWithAOLightShade(m, false, shaderParam) == Path(Onward, shaderParam)
  {
  }

  /** All three providers start from the same light term, `traceAllLight (0.75 + 0.5 roughness)`. */
  lemma SharedLightTerm(m: Material, colorSampling: bool, shaderParam: ShaderParam)
    requires m.emission <= 0.0 && m.transparency <= 0.0
    ensures LambertShade(m, colorSampling, shaderParam) == Tint(Scaled(AllLight, 0.75 + 0.5 * m.roughness), m, colorSampling)
    ensures Uses(LambertWithAOShade(m, colorSampling, shaderParam), Scaled(AllLight, 0.75 + 0.5 * m.roughness))
    ensures Uses(LambertWithAOLightShade(m, colorSampling, shaderParam), Scaled(AllLight, 0.75 + 0.5 * m.roughness))
  {
    var light := LightTerm(m);
    assert light == Scaled(AllLight, 0.75 + 0.5 * m.roughness);
    var ao := AOTerm(m);
    assert Uses(ao, light);
    UsesTintKeeps(ao, m, colorSampling, light);
    var aoLight := AOLightTerm(m);
    assert Uses(aoLight, light);
    UsesTintKeeps(aoLight, m, colorSampling, light);
  }

  lemma UsesTintKeeps(color: Shade, m: Material, colorSampling: bool, leaf: Shade)
    requires Uses(color, leaf)
    ensures Uses(Tint(color, m, colorSampling), leaf)
  {
    if colorSampling {
      assert Uses(Product(color, MaterialColor), leaf);
    }
  }
}
