// Surface materials: a value copied with the object that owns it, compared
// field by field.
module Materials {
  import opened Base

  datatype Material = Material(
    name: string,
    color: Color3,
    glossy: real, roughness: real, transparency: real, refraction: real, refractionRatio: real,
    emission: real, spotRange: real,
    texturePath: string, texTiling: Vec2,
    normalmapPath: string, normalMipmap: real,
    texture: Option<TextureRef>, normalmap: Option<TextureRef>,
    isLoaded: bool)

  /** A default-constructed material: light grey, half rough, opaque, not emissive, no texture. */
  const DefaultMaterial: Material :=
    Material("", Color3(0.8, 0.8, 0.8), 0.0, 0.5, 0.0, 0.0, 1.45, 0.0, 0.0, "", Vec2(1.0, 1.0), "", 0.0, None, None, false)

  /**
   * `equals`: the colour and the seven shading parameters, then the name, then
   * the texture pointer when either material has one.
   */
  function Equals(a: Material, b: Material): bool
  {
    if a.color != b.color || a.emission != b.emission || a.glossy != b.glossy || a.spotRange != b.spotRange
       || a.roughness != b.roughness || a.transparency != b.transparency || a.refraction != b.refraction
       || a.refractionRatio != b.refractionRatio then false
    else if a.name != b.name then false
    else if a.texture.Some? || b.texture.Some? then a.texture == b.texture
    else true
  }

  /** What `equals` looks at: everything but the texture path and tiling, the normal map, and the loaded flag. */
  datatype Appearance = Appearance(
    name: string, color: Color3, glossy: real, roughness: real, transparency: real, refraction: real,
    refractionRatio: real, emission: real, spotRange: real, texture: Option<TextureRef>)

  function AppearanceOf(m: Material): Appearance
  {
    Appearance(m.name, m.color, m.glossy, m.roughness, m.transparency, m.refraction,
               m.refractionRatio, m.emission, m.spotRange, m.texture)
  }

  /** Two materials are equal exactly when they look the same: a missing texture on both sides compares equal. */
  lemma EqualsIsSameAppearance(a: Material, b: Material)
    ensures Equals(a, b) <==> AppearanceOf(a) == AppearanceOf(b)
  {
  }

  lemma EqualsSymmetric(a: Material, b: Material)
    ensures Equals(a, b) == Equals(b, a)
  {
  }

  /** Reflexive: floats are modelled as reals, so there is no NaN to compare unequal to itself. */
  lemma EqualsReflexive(a: Material)
    ensures Equals(a, a)
  {
  }

  /** The texture path, tiling, normal map and loaded flag never make two materials differ. */
  lemma EqualsIgnoresUnlookedFields(a: Material, texturePath: string, texTiling: Vec2, normalmapPath: string,
                                    normalMipmap: real, normalmap: Option<TextureRef>, isLoaded: bool)
    ensures Equals(a, a.(texturePath := texturePath, texTiling := texTiling, normalmapPath := normalmapPath,
                         normalMipmap := normalMipmap, normalmap := normalmap, isLoaded := isLoaded))
  {
  }

  /** Materials differing in name or in any shading parameter are not equal. */
  lemma DifferentNameOrShadingNotEqual(a: Material, b: Material)
    requires a.name != b.name || a.color != b.color || a.emission != b.emission || a.glossy != b.glossy
      || a.spotRange != b.spotRange || a.roughness != b.roughness || a.transparency != b.transparency
      || a.refraction != b.refraction || a.refractionRatio != b.refractionRatio
    ensures !Equals(a, b)
  {
  }

  /** A default material has neither texture nor normal map, and equals a fresh copy of itself. */
  lemma DefaultMaterialPlain()
    ensures DefaultMaterial.texture == None && DefaultMaterial.normalmap == None
    ensures Equals(DefaultMaterial, DefaultMaterial.(isLoaded := true))
  {
  }
}
