/**
 * lib/common/src/Model.cc: how `ImportModel` classifies an assimp material property into a
 * material component and a value type, and the per-component fix-ups made after a
 * property is stored. A property's semantic is taken as the assimp texture type it names
 * (assimp's `material.h` is not part of this model); the reads of the property's data are
 * left out.
 */
module ModelProperties {
  import opened VenomError
  import opened Strings
  import MaterialComponents

  /** `MaterialComponentType`, in the header's order; `MaxComponent` means "none". */
  datatype MaterialComponentType =
    | Ambient | Diffuse | Specular | Emissive | Shininess | Opacity | Normal | Height
    | Reflection | Reflectivity | Refraction | Transparent | Anisotropy
    | BaseColor | Metallic | Roughness | AmbientOcclusion | EmissionColor | Transmission
    | Sheen | Clearcoat | Ior | MaxComponent

  /** assimp's `aiTextureType`; `OtherSemantic` is a semantic value outside the enumeration. */
  datatype AiTextureType =
    | AiNone | AiDiffuse | AiSpecular | AiAmbient | AiEmissive | AiHeight | AiNormals
    | AiShininess | AiOpacity | AiDisplacement | AiLightmap | AiReflection | AiBaseColor
    | AiNormalCamera | AiEmissionColor | AiMetalness | AiDiffuseRoughness
    | AiAmbientOcclusion | AiSheen | AiClearcoat | AiTransmission | AiUnknown
    | OtherSemantic(code: int)

  /** `GetMaterialComponentTypeFromAiTextureType`: total, with `MaxComponent` for every unlisted type. */
  function ComponentFromTextureType(t: AiTextureType): MaterialComponentType {
    match t
    case AiDiffuse => Diffuse
    case AiSpecular => Specular
    case AiAmbient => Ambient
    case AiEmissive => Emissive
    case AiHeight => Height
    case AiNormals => Normal
    case AiShininess => Shininess
    case AiOpacity => Opacity
    case AiReflection => Reflection
    case AiBaseColor => BaseColor
    case AiMetalness => Metallic
    case AiDiffuseRoughness => Roughness
    case AiAmbientOcclusion => AmbientOcclusion
    case AiEmissionColor => EmissionColor
    case AiTransmission => Transmission
    case AiSheen => Sheen
    case AiClearcoat => Clearcoat
    case _ => MaxComponent
  }

  /** The texture type a component is loaded from, when a texture can supply it. */
  function TextureTypeOf(c: MaterialComponentType): Option<AiTextureType> {
    match c
    case Diffuse => Some(AiDiffuse)
    case Specular => Some(AiSpecular)
    case Ambient => Some(AiAmbient)
    case Emissive => Some(AiEmissive)
    case Height => Some(AiHeight)
    case Normal => Some(AiNormals)
    case Shininess => Some(AiShininess)
    case Opacity => Some(AiOpacity)
    case Reflection => Some(AiReflection)
    case BaseColor => Some(AiBaseColor)
    case Metallic => Some(AiMetalness)
    case Roughness => Some(AiDiffuseRoughness)
    case AmbientOcclusion => Some(AiAmbientOcclusion)
    case EmissionColor => Some(AiEmissionColor)
    case Transmission => Some(AiTransmission)
    case Sheen => Some(AiSheen)
    case Clearcoat => Some(AiClearcoat)
    case _ => None
  }

  /**
   * The texture map and `TextureTypeOf` are inverse: a texture type names a component
   * exactly when that component is loaded from it, so no two texture types share one.
   */
  lemma TextureMapInverse(t: AiTextureType, c: MaterialComponentType)
    requires c != MaxComponent
    ensures ComponentFromTextureType(t) == c <==> TextureTypeOf(c) == Some(t)
  {
  }

  /** Texture types the engine does not use give no component. */
  lemma UnusedTextureTypes(code: int)
    ensures ComponentFromTextureType(AiNone) == MaxComponent
    ensures ComponentFromTextureType(AiDisplacement) == MaxComponent
    ensures ComponentFromTextureType(AiLightmap) == MaxComponent
    ensures ComponentFromTextureType(AiNormalCamera) == MaxComponent
    ensures ComponentFromTextureType(AiUnknown) == MaxComponent
    ensures ComponentFromTextureType(OtherSemantic(code)) == MaxComponent
  {
  }

  /** The exact property keys that name a component whatever their prefix. */
  const PropertyKeys: map<string, MaterialComponentType> := map[
    "$clr.diffuse" := Diffuse,
    "$clr.ambient" := Ambient,
    "$clr.specular" := Specular,
    "$clr.emissive" := Emissive,
    "$mat.shininess" := Shininess,
    "$mat.opacity" := Opacity,
    "$mat.anisotropyFactor" := Anisotropy,
    "$clr.transparent" := Transparent,
    "$clr.reflective" := Reflection,
    "$mat.refracti" := Refraction,
    "$mat.reflectivity" := Reflectivity]

  /** The component named by a key that is not a texture file, by the table of exact keys. */
  function ComponentFromKey(name: string): (c: MaterialComponentType)
    ensures c != MaxComponent <==> name in PropertyKeys
    ensures name in PropertyKeys ==> c == PropertyKeys[name]
  {
    if name == "$clr.diffuse" then Diffuse
    else if name == "$clr.ambient" then Ambient
    else if name == "$clr.specular" then Specular
    else if name == "$clr.emissive" then Emissive
    else if name == "$mat.shininess" then Shininess
    else if name == "$mat.opacity" then Opacity
    else if name == "$mat.anisotropyFactor" then Anisotropy
    else if name == "$clr.transparent" then Transparent
    else if name == "$clr.reflective" then Reflection
    else if name == "$mat.refracti" then Refraction
    else if name == "$mat.reflectivity" then Reflectivity
    else MaxComponent
  }

  /** The size of four `float`s, the data of a colour with alpha. */
  const Float4Bytes := 16

  /** A property's classification: its component and its value type (`None` is `NONE`). */
  datatype Classification = Classification(component: MaterialComponentType, valueType: Option<MaterialComponents.ValueFlag>)

  /**
   * `GetMaterialComponentTypeFromProperty`. Only the first four characters of "$mat." and
   * "$clr." are compared, and all nine of "$tex.file". A texture file takes its component
   * from the semantic; any other key takes it from the exact-key table.
   */
  function ClassifyProperty(name: string, semantic: AiTextureType, dataLength: int): (r: Classification)
    ensures IsPrefix("$mat", name) ==> r.valueType == Some(MaterialComponents.Float1D)
    ensures IsPrefix("$clr", name) ==> r.valueType == Some(if dataLength == Float4Bytes then MaterialComponents.Float4D else MaterialComponents.Float3D)
    ensures IsPrefix("$tex.file", name) ==> r.valueType == Some(MaterialComponents.Texture) && r.component == ComponentFromTextureType(semantic)
    ensures !IsPrefix("$mat", name) && !IsPrefix("$clr", name) && !IsPrefix("$tex.file", name) ==> r.valueType.None?
    ensures !IsPrefix("$tex.file", name) ==> (r.component != MaxComponent <==> name in PropertyKeys)
  {
    if IsPrefix("$mat", name) then
      Classification(ComponentFromKey(name), Some(MaterialComponents.Float1D))
    else if IsPrefix("$clr", name) then
      var t := if dataLength == Float4Bytes then MaterialComponents.Float4D else MaterialComponents.Float3D;
      Classification(ComponentFromKey(name), Some(t))
    else if IsPrefix("$tex.file", name) then
      Classification(ComponentFromTextureType(semantic), Some(MaterialComponents.Texture))
    else
      Classification(ComponentFromKey(name), None)
  }

  /**
   * Every key of the table is classified as its component, with the value type its prefix
   * gives; a key that only starts like "$mat" is still a float ("$matte" is `FLOAT1D` with
   * no component), and a property without prefix is skipped.
   */
  lemma ClassifyKnownKeys(semantic: AiTextureType, dataLength: int)
    ensures ClassifyProperty("$clr.diffuse", semantic, 16) == Classification(Diffuse, Some(MaterialComponents.Float4D))
    ensures ClassifyProperty("$clr.diffuse", semantic, 12) == Classification(Diffuse, Some(MaterialComponents.Float3D))
    ensures ClassifyProperty("$mat.shininess", semantic, dataLength) == Classification(Shininess, Some(MaterialComponents.Float1D))
    ensures ClassifyProperty("$matte", semantic, dataLength) == Classification(MaxComponent, Some(MaterialComponents.Float1D))
    ensures ClassifyProperty("?mat.name", semantic, dataLength) == Classification(MaxComponent, None)
  {
    assert IsPrefix("$clr", "$clr.diffuse");
    assert IsPrefix("$mat", "$mat.shininess");
    assert IsPrefix("$mat", "$matte");
    assert !IsPrefix("$mat", "?mat.name") && !IsPrefix("$clr", "?mat.name");
    assert !IsPrefix("$tex.file", "?mat.name");
  }

  /** A texture file of any semantic is a texture of that semantic's component. */
  lemma ClassifyTextureFile(suffix: string, semantic: AiTextureType, dataLength: int)
    ensures ClassifyProperty("$tex.file" + suffix, semantic, dataLength)
      == Classification(ComponentFromTextureType(semantic), Some(MaterialComponents.Texture))
  {
    var name := "$tex.file" + suffix;
    assert IsPrefix("$tex.file", name);
    assert name[0..4] == "$tex";
  }

  /** A change `ImportModel` makes to the material after storing a property's value. */
  datatype ComponentEdit =
    | CopyComponent(from: MaterialComponentType, to: MaterialComponentType)
    | SetChannels(target: MaterialComponentType, channels: set<MaterialComponents.Channel>)
    | SetFactor(target: MaterialComponentType, factor: real)

  /**
   * What the glTF material offers to the fix-ups: whether it has the metallic-roughness
   * texture, and its roughness and metallic factors when present.
   */
  datatype PbrInfo = PbrInfo(hasMetallicRoughnessTexture: bool, roughnessFactor: Option<real>, metallicFactor: Option<real>)

  /** The fix-ups of one texture component: its channel in the shared texture, then its factor. */
  function TextureFixUps(target: MaterialComponentType, channels: set<MaterialComponents.Channel>, isTexture: bool, factor: Option<real>, info: PbrInfo): (r: seq<ComponentEdit>)
    ensures forall e | e in r :: !e.CopyComponent? && e.target == target
    ensures !isTexture ==> r == []
  {
    if !isTexture then []
    else
      (if info.hasMetallicRoughnessTexture then [SetChannels(target, channels)] else [])
      + (if factor.Some? then [SetFactor(target, factor.value)] else [])
  }

  /**
   * The switch after a property is stored, as written: the `ROUGHNESS` case has no
   * `break`, so a roughness texture also runs the `METALLIC` case.
   */
  function FixUpsAsWritten(c: MaterialComponentType, valueType: Option<MaterialComponents.ValueFlag>, info: PbrInfo): (r: seq<ComponentEdit>)
    ensures c == Roughness ==> r == FixUps(Roughness, valueType, info) + FixUps(Metallic, valueType, info)
    ensures c != Roughness ==> r == FixUps(c, valueType, info)
  {
    var isTexture := valueType == Some(MaterialComponents.Texture);
    var metallic := TextureFixUps(Metallic, MaterialComponents.B, isTexture, info.metallicFactor, info);
    match c
    case Diffuse => [CopyComponent(Diffuse, BaseColor)]
    case Roughness => TextureFixUps(Roughness, MaterialComponents.G, isTexture, info.roughnessFactor, info) + metallic
    case Metallic => metallic
    case _ => []
  }

  /**
   * A roughness texture in a material with the metallic-roughness texture also points
   * the metallic component at channel B and sets the metallic factor.
   */
  lemma RoughnessFallsIntoMetallicAsWritten()
    ensures SetChannels(Metallic, MaterialComponents.B)
      in FixUpsAsWritten(Roughness, Some(MaterialComponents.Texture), PbrInfo(true, Some(0.5), Some(1.0)))
    ensures SetFactor(Metallic, 1.0)
      in FixUpsAsWritten(Roughness, Some(MaterialComponents.Texture), PbrInfo(true, Some(0.5), Some(1.0)))
  {
    var r := FixUpsAsWritten(Roughness, Some(MaterialComponents.Texture), PbrInfo(true, Some(0.5), Some(1.0)));
    assert r == [SetChannels(Roughness, MaterialComponents.G), SetFactor(Roughness, 0.5),
      SetChannels(Metallic, MaterialComponents.B), SetFactor(Metallic, 1.0)];
  }

  /** The switch with each case ending in its `break`. */
  function FixUps(c: MaterialComponentType, valueType: Option<MaterialComponents.ValueFlag>, info: PbrInfo): (r: seq<ComponentEdit>)
    ensures forall e | e in r :: e.CopyComponent? || e.target == c
  {
    var isTexture := valueType == Some(MaterialComponents.Texture);
    match c
    case Diffuse => [CopyComponent(Diffuse, BaseColor)]
    case Roughness => TextureFixUps(Roughness, MaterialComponents.G, isTexture, info.roughnessFactor, info)
    case Metallic => TextureFixUps(Metallic, MaterialComponents.B, isTexture, info.metallicFactor, info)
    case _ => []
  }

  /**
   * The corrected fix-ups touch only the property's own component (a diffuse colour is
   * also copied to the base colour), and roughness and metallic read their own channel
   * of the shared texture: G for roughness, B for metallic.
   */
  lemma FixUpsTouchOwnComponent(c: MaterialComponentType, valueType: Option<MaterialComponents.ValueFlag>, info: PbrInfo)
    ensures forall e | e in FixUps(c, valueType, info) && !e.CopyComponent? :: e.target == c
    ensures forall e | e in FixUps(c, valueType, info) && e.CopyComponent? :: c == Diffuse && e == CopyComponent(Diffuse, BaseColor)
    ensures c == Roughness && valueType == Some(MaterialComponents.Texture) && info.hasMetallicRoughnessTexture
      ==> SetChannels(Roughness, MaterialComponents.G) in FixUps(c, valueType, info)
    ensures c == Metallic && valueType == Some(MaterialComponents.Texture) && info.hasMetallicRoughnessTexture
      ==> SetChannels(Metallic, MaterialComponents.B) in FixUps(c, valueType, info)
  {
    if c == Roughness && valueType == Some(MaterialComponents.Texture) && info.hasMetallicRoughnessTexture {
      assert FixUps(c, valueType, info)[0] == SetChannels(Roughness, MaterialComponents.G);
    }
    if c == Metallic && valueType == Some(MaterialComponents.Texture) && info.hasMetallicRoughnessTexture {
      assert FixUps(c, valueType, info)[0] == SetChannels(Metallic, MaterialComponents.B);
    }
  }

  /** The two versions differ only for a roughness texture: every other property gets the same fix-ups. */
  lemma FixUpsAgreeOffRoughness(c: MaterialComponentType, valueType: Option<MaterialComponents.ValueFlag>, info: PbrInfo)
    requires c != Roughness || valueType != Some(MaterialComponents.Texture)
    ensures FixUpsAsWritten(c, valueType, info) == FixUps(c, valueType, info)
  {
  }
}
