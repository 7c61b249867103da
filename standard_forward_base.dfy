/**
  The forward standard material shader (`StandardForwardBase`).

  It follows the engine's three-phase shading protocol: `LoadEffect` resolves
  one handle per shader parameter and the two technique passes,
  `PrePass` binds what is shared by a camera, `Pass` binds one renderable and
  applies the ambient pass, and `LightPass` binds one light and applies the
  additive light pass. A parameter write is a `SetParam` event on the device
  trace; the lemmas state which parameters each phase writes, which values
  they leave behind and which pass closes the phase.
*/
module StandardForward {
  import opened Graphics

  const ForwardAsset := "Shaders/Forward/Standard"

  const PrePassParameters: set<Uniform> := {View, Projection, EyePosition, AmbientColor}

  const PassParameters: set<Uniform> := {World, TextureTiling, DiffuseColor, MainTexture}

  /** The specular terms and the light's own parameters, written first by every light pass. */
  const LightBindParameters: set<Uniform> := {
    SpecularLightColor, SpecularPower, SpecularIntensity, LightColor,
    LightDirection, LightPosition, LightSpotAngle, LightIntensity,
    LightRange, LightFallOff, LightType
  }

  /** The shadow generator, light matrices and specular texture, written last by every light pass. */
  const ShadowBindParameters: set<Uniform> := {
    ShadowStrength, ShadowBias, ShadowMap, ShadowEnabled, LightView,
    LightProjection, SpecularTextureEnabled, SpecularTexture
  }

  /** Written by the light pass only in builds without the `DESKTOP` symbol. */
  const FogParameters: set<Uniform> := {FogColor, FogData}

  function LightPassParameters(desktop: bool): set<Uniform> {
    LightBindParameters + (if desktop then {} else FogParameters) + ShadowBindParameters
  }

  /** The material values the shader reads (tiling, diffuse colour, textures, specular terms). */
  datatype StandardMaterial = StandardMaterial(
    tiling: Vec2,
    diffuseColor: Color,
    mainTexture: Option<TextureAsset>,
    shininess: real,
    specularIntensity: real,
    specularTexture: Option<TextureAsset>)

  /** The scene's render settings the shader reads. */
  datatype RenderSettings = RenderSettings(ambientColor: Color, fogColor: Color, fogData: Vec4)

  // Each phase's trace takes the trace `t` submitted so far and returns `t`
  // followed by the phase's commands, in the order the shader issues them.

  function PrePassTrace(t: seq<Event>, fx: Effect, camera: Camera, settings: RenderSettings): seq<Event> {
    t + [SetParam(Param(fx, View), MatrixValue(camera.view))]
      + [SetParam(Param(fx, Projection), MatrixValue(camera.projection))]
      + [SetParam(Param(fx, EyePosition), Vector3Value(camera.localPosition))]
      + [SetParam(Param(fx, AmbientColor), ColorValue(settings.ambientColor))]
  }

  function PassTrace(t: seq<Event>, fx: Effect, ambient: PassRef, m: StandardMaterial, r: Renderable): seq<Event> {
    t + [SetParam(Param(fx, World), MatrixValue(r.world))]
      + [SetParam(Param(fx, TextureTiling), Vector2Value(m.tiling))]
      + [SetParam(Param(fx, DiffuseColor), ColorValue(m.diffuseColor))]
      + [SetParam(Param(fx, MainTexture), TextureValue(m.mainTexture))]
      + [ApplyPass(ambient)]
  }

  /** The specular and light binds that open every light pass. */
  function LightBinds(t: seq<Event>, fx: Effect, m: StandardMaterial, specularColor: Vec3, light: Light): seq<Event> {
    t + [SetParam(Param(fx, SpecularLightColor), Vector3Value(specularColor))]
      + [SetParam(Param(fx, SpecularPower), RealValue(m.shininess))]
      + [SetParam(Param(fx, SpecularIntensity), RealValue(m.specularIntensity))]
      + [SetParam(Param(fx, LightColor), ColorValue(light.color))]
      + [SetParam(Param(fx, LightDirection), Vector3Value(light.direction))]
      + [SetParam(Param(fx, LightPosition), Vector3Value(light.localPosition))]
      + [SetParam(Param(fx, LightSpotAngle), RealValue(light.angle))]
      + [SetParam(Param(fx, LightIntensity), RealValue(light.intensity))]
      + [SetParam(Param(fx, LightRange), RealValue(light.range))]
      + [SetParam(Param(fx, LightFallOff), RealValue(light.fallOff))]
      + [SetParam(Param(fx, LightType), IntValue(light.typeCode))]
  }

  function FogBinds(t: seq<Event>, fx: Effect, settings: RenderSettings, desktop: bool): seq<Event> {
    if desktop then t
    else
      t + [SetParam(Param(fx, FogColor), ColorValue(settings.fogColor))]
        + [SetParam(Param(fx, FogData), Vector4Value(settings.fogData))]
  }

  /** The shadow and specular-texture binds, then the light pass. */
  function ShadowBinds(t: seq<Event>, fx: Effect, lightPass: PassRef, m: StandardMaterial, r: Renderable, light: Light): seq<Event>
    requires light.shadow.Some?
  {
    var g := light.shadow.value;
    t + [SetParam(Param(fx, ShadowStrength), RealValue(g.strength))]
      + [SetParam(Param(fx, ShadowBias), RealValue(g.bias))]
      + [SetParam(Param(fx, ShadowMap), TextureValue(Some(g.shadowMap)))]
      + [SetParam(Param(fx, ShadowEnabled), BoolValue(r.receiveShadow))]
      + [SetParam(Param(fx, LightView), MatrixValue(light.view))]
      + [SetParam(Param(fx, LightProjection), MatrixValue(light.projection))]
      + [SetParam(Param(fx, SpecularTextureEnabled), BoolValue(m.specularTexture.Some?))]
      + [SetParam(Param(fx, SpecularTexture), TextureValue(m.specularTexture))]
      + [ApplyPass(lightPass)]
  }

  function LightPassTrace(t: seq<Event>, fx: Effect, lightPass: PassRef, m: StandardMaterial, specularColor: Vec3,
                          settings: RenderSettings, r: Renderable, light: Light, desktop: bool): seq<Event>
    requires light.shadow.Some?
  {
    ShadowBinds(FogBinds(LightBinds(t, fx, m, specularColor, light), fx, settings, desktop), fx, lightPass, m, r, light)
  }

  // -------------------------------------------------------------- the phases

  /**
    The camera phase writes exactly the view, projection, eye position and
    ambient colour, applies no pass, and leaves the camera's local position as
    the eye position.
  */
  lemma PrePassBinds(t: seq<Event>, fx: Effect, camera: Camera, settings: RenderSettings)
    ensures Written(PrePassTrace(t, fx, camera, settings)) == Written(t) + PrePassParameters
    ensures Applied(PrePassTrace(t, fx, camera, settings)) == Applied(t)
    ensures ValueOf(PrePassTrace(t, fx, camera, settings), Param(fx, EyePosition)) == Some(Vector3Value(camera.localPosition))
  {
    var e0 := SetParam(Param(fx, View), MatrixValue(camera.view));
    var e1 := SetParam(Param(fx, Projection), MatrixValue(camera.projection));
    var e2 := SetParam(Param(fx, EyePosition), Vector3Value(camera.localPosition));
    var e3 := SetParam(Param(fx, AmbientColor), ColorValue(settings.ambientColor));
    QueriesLast(t, e0);
    QueriesLast(t + [e0], e1);
    QueriesLast(t + [e0] + [e1], e2);
    QueriesLast(t + [e0] + [e1] + [e2], e3);
    ValueOfLast(t + [e0] + [e1], e2, Param(fx, EyePosition));
    ValueOfLast(t + [e0] + [e1] + [e2], e3, Param(fx, EyePosition));
  }

  /**
    The object phase writes exactly the world matrix, tiling, diffuse colour
    and main texture, and its last action is the one apply of the ambient pass.
  */
  lemma PassBinds(t: seq<Event>, fx: Effect, ambient: PassRef, m: StandardMaterial, r: Renderable)
    ensures Written(PassTrace(t, fx, ambient, m, r)) == Written(t) + PassParameters
    ensures Applied(PassTrace(t, fx, ambient, m, r)) == Applied(t) + [ambient]
    ensures var u := PassTrace(t, fx, ambient, m, r); u[|u| - 1] == ApplyPass(ambient)
  {
    var e0 := SetParam(Param(fx, World), MatrixValue(r.world));
    var e1 := SetParam(Param(fx, TextureTiling), Vector2Value(m.tiling));
    var e2 := SetParam(Param(fx, DiffuseColor), ColorValue(m.diffuseColor));
    var e3 := SetParam(Param(fx, MainTexture), TextureValue(m.mainTexture));
    QueriesLast(t, e0);
    QueriesLast(t + [e0], e1);
    QueriesLast(t + [e0] + [e1], e2);
    QueriesLast(t + [e0] + [e1] + [e2], e3);
    QueriesLast(t + [e0] + [e1] + [e2] + [e3], ApplyPass(ambient));
  }

  lemma LightBindsWrites(t: seq<Event>, fx: Effect, m: StandardMaterial, specularColor: Vec3, light: Light)
    ensures Written(LightBinds(t, fx, m, specularColor, light)) == Written(t) + LightBindParameters
    ensures Applied(LightBinds(t, fx, m, specularColor, light)) == Applied(t)
    ensures ValueOf(LightBinds(t, fx, m, specularColor, light), Param(fx, LightType)) == Some(IntValue(light.typeCode))
  {
    var e0 := SetParam(Param(fx, SpecularLightColor), Vector3Value(specularColor));
    var e1 := SetParam(Param(fx, SpecularPower), RealValue(m.shininess));
    var e2 := SetParam(Param(fx, SpecularIntensity), RealValue(m.specularIntensity));
    var e3 := SetParam(Param(fx, LightColor), ColorValue(light.color));
    var e4 := SetParam(Param(fx, LightDirection), Vector3Value(light.direction));
    var e5 := SetParam(Param(fx, LightPosition), Vector3Value(light.localPosition));
    var e6 := SetParam(Param(fx, LightSpotAngle), RealValue(light.angle));
    var e7 := SetParam(Param(fx, LightIntensity), RealValue(light.intensity));
    var e8 := SetParam(Param(fx, LightRange), RealValue(light.range));
    var e9 := SetParam(Param(fx, LightFallOff), RealValue(light.fallOff));
    var e10 := SetParam(Param(fx, LightType), IntValue(light.typeCode));
    var t1 := t + [e0];
    var t2 := t1 + [e1];
    var t3 := t2 + [e2];
    var t4 := t3 + [e3];
    var t5 := t4 + [e4];
    var t6 := t5 + [e5];
    var t7 := t6 + [e6];
    var t8 := t7 + [e7];
    var t9 := t8 + [e8];
    var t10 := t9 + [e9];
    QueriesLast(t, e0);
    QueriesLast(t1, e1);
    QueriesLast(t2, e2);
    QueriesLast(t3, e3);
    QueriesLast(t4, e4);
    QueriesLast(t5, e5);
    QueriesLast(t6, e6);
    QueriesLast(t7, e7);
    QueriesLast(t8, e8);
    QueriesLast(t9, e9);
    QueriesLast(t10, e10);
    ValueOfLast(t10, e10, Param(fx, LightType));
  }

  /** The light binds leave every other parameter as it was. */
  lemma LightBindsFrame(t: seq<Event>, fx: Effect, m: StandardMaterial, specularColor: Vec3, light: Light, p: Param)
    requires p.name !in LightBindParameters
    ensures ValueOf(LightBinds(t, fx, m, specularColor, light), p) == ValueOf(t, p)
  {
    var e0 := SetParam(Param(fx, SpecularLightColor), Vector3Value(specularColor));
    var e1 := SetParam(Param(fx, SpecularPower), RealValue(m.shininess));
    var e2 := SetParam(Param(fx, SpecularIntensity), RealValue(m.specularIntensity));
    var e3 := SetParam(Param(fx, LightColor), ColorValue(light.color));
    var e4 := SetParam(Param(fx, LightDirection), Vector3Value(light.direction));
    var e5 := SetParam(Param(fx, LightPosition), Vector3Value(light.localPosition));
    var e6 := SetParam(Param(fx, LightSpotAngle), RealValue(light.angle));
    var e7 := SetParam(Param(fx, LightIntensity), RealValue(light.intensity));
    var e8 := SetParam(Param(fx, LightRange), RealValue(light.range));
    var e9 := SetParam(Param(fx, LightFallOff), RealValue(light.fallOff));
    var e10 := SetParam(Param(fx, LightType), IntValue(light.typeCode));
    var t1 := t + [e0];
    var t2 := t1 + [e1];
    var t3 := t2 + [e2];
    var t4 := t3 + [e3];
    var t5 := t4 + [e4];
    var t6 := t5 + [e5];
    var t7 := t6 + [e6];
    var t8 := t7 + [e7];
    var t9 := t8 + [e8];
    var t10 := t9 + [e9];
    ValueOfLast(t, e0, p);
    ValueOfLast(t1, e1, p);
    ValueOfLast(t2, e2, p);
    ValueOfLast(t3, e3, p);
    ValueOfLast(t4, e4, p);
    ValueOfLast(t5, e5, p);
    ValueOfLast(t6, e6, p);
    ValueOfLast(t7, e7, p);
    ValueOfLast(t8, e8, p);
    ValueOfLast(t9, e9, p);
    ValueOfLast(t10, e10, p);
  }

  lemma FogBindsWrites(t: seq<Event>, fx: Effect, settings: RenderSettings, desktop: bool)
    ensures Written(FogBinds(t, fx, settings, desktop)) == Written(t) + if desktop then {} else FogParameters
    ensures Applied(FogBinds(t, fx, settings, desktop)) == Applied(t)
    ensures ValueOf(FogBinds(t, fx, settings, desktop), Param(fx, FogColor)) ==
      if desktop then ValueOf(t, Param(fx, FogColor)) else Some(ColorValue(settings.fogColor))
  {
    if !desktop {
      var e0 := SetParam(Param(fx, FogColor), ColorValue(settings.fogColor));
      var e1 := SetParam(Param(fx, FogData), Vector4Value(settings.fogData));
      QueriesLast(t, e0);
      QueriesLast(t + [e0], e1);
      ValueOfLast(t, e0, Param(fx, FogColor));
      ValueOfLast(t + [e0], e1, Param(fx, FogColor));
    }
  }

  /** The fog binds leave every other parameter as it was. */
  lemma FogBindsFrame(t: seq<Event>, fx: Effect, settings: RenderSettings, desktop: bool, p: Param)
    requires p.name !in FogParameters
    ensures ValueOf(FogBinds(t, fx, settings, desktop), p) == ValueOf(t, p)
  {
    if !desktop {
      var e0 := SetParam(Param(fx, FogColor), ColorValue(settings.fogColor));
      ValueOfLast(t, e0, p);
      ValueOfLast(t + [e0], SetParam(Param(fx, FogData), Vector4Value(settings.fogData)), p);
    }
  }

  lemma ShadowBindsWrites(t: seq<Event>, fx: Effect, lightPass: PassRef, m: StandardMaterial, r: Renderable, light: Light)
    requires light.shadow.Some?
    ensures Written(ShadowBinds(t, fx, lightPass, m, r, light)) == Written(t) + ShadowBindParameters
    ensures Applied(ShadowBinds(t, fx, lightPass, m, r, light)) == Applied(t) + [lightPass]
    ensures ValueOf(ShadowBinds(t, fx, lightPass, m, r, light), Param(fx, ShadowEnabled)) == Some(BoolValue(r.receiveShadow))
    ensures ValueOf(ShadowBinds(t, fx, lightPass, m, r, light), Param(fx, SpecularTextureEnabled))
      == Some(BoolValue(m.specularTexture.Some?))
  {
    var g := light.shadow.value;
    var e0 := SetParam(Param(fx, ShadowStrength), RealValue(g.strength));
    var e1 := SetParam(Param(fx, ShadowBias), RealValue(g.bias));
    var e2 := SetParam(Param(fx, ShadowMap), TextureValue(Some(g.shadowMap)));
    var e3 := SetParam(Param(fx, ShadowEnabled), BoolValue(r.receiveShadow));
    var e4 := SetParam(Param(fx, LightView), MatrixValue(light.view));
    var e5 := SetParam(Param(fx, LightProjection), MatrixValue(light.projection));
    var e6 := SetParam(Param(fx, SpecularTextureEnabled), BoolValue(m.specularTexture.Some?));
    var e7 := SetParam(Param(fx, SpecularTexture), TextureValue(m.specularTexture));
    var t1 := t + [e0];
    var t2 := t1 + [e1];
    var t3 := t2 + [e2];
    var t4 := t3 + [e3];
    var t5 := t4 + [e4];
    var t6 := t5 + [e5];
    var t7 := t6 + [e6];
    var t8 := t7 + [e7];
    QueriesLast(t, e0);
    QueriesLast(t1, e1);
    QueriesLast(t2, e2);
    QueriesLast(t3, e3);
    QueriesLast(t4, e4);
    QueriesLast(t5, e5);
    QueriesLast(t6, e6);
    QueriesLast(t7, e7);
    QueriesLast(t8, ApplyPass(lightPass));
    ValueOfLast(t3, e3, Param(fx, ShadowEnabled));
    ValueOfLast(t4, e4, Param(fx, ShadowEnabled));
    ValueOfLast(t5, e5, Param(fx, ShadowEnabled));
    ValueOfLast(t6, e6, Param(fx, ShadowEnabled));
    ValueOfLast(t7, e7, Param(fx, ShadowEnabled));
    ValueOfLast(t8, ApplyPass(lightPass), Param(fx, ShadowEnabled));
    ValueOfLast(t6, e6, Param(fx, SpecularTextureEnabled));
    ValueOfLast(t7, e7, Param(fx, SpecularTextureEnabled));
    ValueOfLast(t8, ApplyPass(lightPass), Param(fx, SpecularTextureEnabled));
  }

  /** The shadow binds and the light pass leave every other parameter as it was. */
  lemma ShadowBindsFrame(t: seq<Event>, fx: Effect, lightPass: PassRef, m: StandardMaterial, r: Renderable, light: Light, p: Param)
    requires light.shadow.Some? && p.name !in ShadowBindParameters
    ensures ValueOf(ShadowBinds(t, fx, lightPass, m, r, light), p) == ValueOf(t, p)
  {
    var g := light.shadow.value;
    var e0 := SetParam(Param(fx, ShadowStrength), RealValue(g.strength));
    var e1 := SetParam(Param(fx, ShadowBias), RealValue(g.bias));
    var e2 := SetParam(Param(fx, ShadowMap), TextureValue(Some(g.shadowMap)));
    var e3 := SetParam(Param(fx, ShadowEnabled), BoolValue(r.receiveShadow));
    var e4 := SetParam(Param(fx, LightView), MatrixValue(light.view));
    var e5 := SetParam(Param(fx, LightProjection), MatrixValue(light.projection));
    var e6 := SetParam(Param(fx, SpecularTextureEnabled), BoolValue(m.specularTexture.Some?));
    var e7 := SetParam(Param(fx, SpecularTexture), TextureValue(m.specularTexture));
    var t1 := t + [e0];
    var t2 := t1 + [e1];
    var t3 := t2 + [e2];
    var t4 := t3 + [e3];
    var t5 := t4 + [e4];
    var t6 := t5 + [e5];
    var t7 := t6 + [e6];
    var t8 := t7 + [e7];
    ValueOfLast(t, e0, p);
    ValueOfLast(t1, e1, p);
    ValueOfLast(t2, e2, p);
    ValueOfLast(t3, e3, p);
    ValueOfLast(t4, e4, p);
    ValueOfLast(t5, e5, p);
    ValueOfLast(t6, e6, p);
    ValueOfLast(t7, e7, p);
    ValueOfLast(t8, ApplyPass(lightPass), p);
  }

  /**
    The light phase writes every light, shadow and specular parameter, and
    the fog parameters exactly when the build is not `DESKTOP`; it applies the
    light pass once, as its last action. The shader then sees the renderer's
    shadow flag, the light's type code and whether a specular texture is set.
  */
  lemma LightPassBinds(t: seq<Event>, fx: Effect, lightPass: PassRef, m: StandardMaterial, specularColor: Vec3,
                       settings: RenderSettings, r: Renderable, light: Light, desktop: bool)
    requires light.shadow.Some?
    ensures Written(LightPassTrace(t, fx, lightPass, m, specularColor, settings, r, light, desktop))
      == Written(t) + LightPassParameters(desktop)
    ensures Applied(LightPassTrace(t, fx, lightPass, m, specularColor, settings, r, light, desktop)) == Applied(t) + [lightPass]
    ensures var u := LightPassTrace(t, fx, lightPass, m, specularColor, settings, r, light, desktop);
      && u[|u| - 1] == ApplyPass(lightPass)
      && ValueOf(u, Param(fx, SpecularTextureEnabled)) == Some(BoolValue(m.specularTexture.Some?))
      && ValueOf(u, Param(fx, ShadowEnabled)) == Some(BoolValue(r.receiveShadow))
      && ValueOf(u, Param(fx, LightType)) == Some(IntValue(light.typeCode))
      && ValueOf(u, Param(fx, FogColor)) ==
           if desktop then ValueOf(t, Param(fx, FogColor)) else Some(ColorValue(settings.fogColor))
  {
    var a := LightBinds(t, fx, m, specularColor, light);
    var b := FogBinds(a, fx, settings, desktop);
    LightBindsWrites(t, fx, m, specularColor, light);
    FogBindsWrites(a, fx, settings, desktop);
    ShadowBindsWrites(b, fx, lightPass, m, r, light);
    FogBindsFrame(a, fx, settings, desktop, Param(fx, LightType));
    ShadowBindsFrame(b, fx, lightPass, m, r, light, Param(fx, LightType));
    ShadowBindsFrame(b, fx, lightPass, m, r, light, Param(fx, FogColor));
    LightBindsFrame(t, fx, m, specularColor, light, Param(fx, FogColor));
  }

  // --------------------------------------------------------------- the shader

  // The shader's 29 parameter handles, grouped by the phase that writes through them.

  datatype CameraHandles = CameraHandles(
    view: Option<Param>, projection: Option<Param>, eyePosition: Option<Param>, ambientColor: Option<Param>)

  datatype ObjectHandles = ObjectHandles(
    world: Option<Param>, textureTiling: Option<Param>, diffuseColor: Option<Param>, mainTexture: Option<Param>)

  datatype LightHandles = LightHandles(
    specularLightColor: Option<Param>, specularPower: Option<Param>, specularIntensity: Option<Param>,
    lightColor: Option<Param>, lightDirection: Option<Param>, lightPosition: Option<Param>,
    lightSpotAngle: Option<Param>, lightIntensity: Option<Param>, lightRange: Option<Param>,
    lightFallOff: Option<Param>, lightType: Option<Param>)

  datatype ShadowHandles = ShadowHandles(
    shadowStrength: Option<Param>, shadowBias: Option<Param>, shadowMap: Option<Param>,
    shadowEnabled: Option<Param>, lightView: Option<Param>, lightProjection: Option<Param>,
    specularTextureEnabled: Option<Param>, specularTexture: Option<Param>)

  datatype FogHandles = FogHandles(fogColor: Option<Param>, fogData: Option<Param>)

  class StandardForwardBase {
    const material: StandardMaterial
    var specularColor: Vec3
    var effect: Effect?
    var passAmbient: Option<PassRef>
    var passLight: Option<PassRef>
    var cameraParams: CameraHandles
    var objectParams: ObjectHandles
    var lightParams: LightHandles
    var shadowParams: ShadowHandles
    var fogParams: FogHandles

    /** No program is loaded and no handle resolved. */
    ghost predicate Unloaded()
      reads this
    {
      && effect == null && passAmbient.None? && passLight.None?
      && cameraParams == CameraHandles(None, None, None, None)
      && objectParams == ObjectHandles(None, None, None, None)
      && lightParams == LightHandles(None, None, None, None, None, None, None, None, None, None, None)
      && shadowParams == ShadowHandles(None, None, None, None, None, None, None, None)
      && fogParams == FogHandles(None, None)
    }

    /**
      A program is loaded, both passes are the technique's passes of those
      names and every handle is the program's handle for the handle's
      parameter name.
    */
    ghost predicate Loaded()
      reads this
    {
      && effect != null
      && passAmbient == PassByName(effect, "AmbientPass")
      && passLight == PassByName(effect, "LightPass")
      && cameraParams == CameraHandles(
           Lookup(effect, View), Lookup(effect, Projection), Lookup(effect, EyePosition),
           Lookup(effect, AmbientColor))
      && objectParams == ObjectHandles(
           Lookup(effect, World), Lookup(effect, TextureTiling), Lookup(effect, DiffuseColor),
           Lookup(effect, MainTexture))
      && lightParams == LightHandles(
           Lookup(effect, SpecularLightColor), Lookup(effect, SpecularPower),
           Lookup(effect, SpecularIntensity), Lookup(effect, LightColor), Lookup(effect, LightDirection),
           Lookup(effect, LightPosition), Lookup(effect, LightSpotAngle), Lookup(effect, LightIntensity),
           Lookup(effect, LightRange), Lookup(effect, LightFallOff), Lookup(effect, LightType))
      && shadowParams == ShadowHandles(
           Lookup(effect, ShadowStrength), Lookup(effect, ShadowBias), Lookup(effect, ShadowMap),
           Lookup(effect, ShadowEnabled), Lookup(effect, LightView), Lookup(effect, LightProjection),
           Lookup(effect, SpecularTextureEnabled), Lookup(effect, SpecularTexture))
      && fogParams == FogHandles(Lookup(effect, FogColor), Lookup(effect, FogData))
    }

    constructor (material: StandardMaterial)
      ensures this.material == material && specularColor == Vec3(0.6, 0.6, 0.6)
      ensures Unloaded()
    {
      this.material := material;
      specularColor := Vec3(0.6, 0.6, 0.6);
      effect, passAmbient, passLight := null, None, None;
      cameraParams := CameraHandles(None, None, None, None);
      objectParams := ObjectHandles(None, None, None, None);
      lightParams := LightHandles(None, None, None, None, None, None, None, None, None, None, None);
      shadowParams := ShadowHandles(None, None, None, None, None, None, None, None);
      fogParams := FogHandles(None, None);
    }

    /** Loads the forward standard program and resolves both passes and every handle by name. */
    method LoadEffect(content: Content)
      requires ForwardAsset in content
      modifies this
      ensures effect == content[ForwardAsset] && Loaded()
      ensures specularColor == old(specularColor)
    {
      var fx := content[ForwardAsset];
      effect := fx;
      passAmbient := PassByName(fx, "AmbientPass");
      passLight := PassByName(fx, "LightPass");
      cameraParams := CameraHandles(
        Lookup(fx, View), Lookup(fx, Projection), Lookup(fx, EyePosition), Lookup(fx, AmbientColor));
      objectParams := ObjectHandles(
        Lookup(fx, World), Lookup(fx, TextureTiling), Lookup(fx, DiffuseColor), Lookup(fx, MainTexture));
      lightParams := LightHandles(
        Lookup(fx, SpecularLightColor), Lookup(fx, SpecularPower), Lookup(fx, SpecularIntensity),
        Lookup(fx, LightColor), Lookup(fx, LightDirection), Lookup(fx, LightPosition),
        Lookup(fx, LightSpotAngle), Lookup(fx, LightIntensity), Lookup(fx, LightRange),
        Lookup(fx, LightFallOff), Lookup(fx, LightType));
      shadowParams := ShadowHandles(
        Lookup(fx, ShadowStrength), Lookup(fx, ShadowBias), Lookup(fx, ShadowMap),
        Lookup(fx, ShadowEnabled), Lookup(fx, LightView), Lookup(fx, LightProjection),
        Lookup(fx, SpecularTextureEnabled), Lookup(fx, SpecularTexture));
      fogParams := FogHandles(Lookup(fx, FogColor), Lookup(fx, FogData));
    }

    /** Binds the camera's matrices and position and the scene's ambient colour. */
    method PrePass(device: Device, camera: Camera, settings: RenderSettings)
      requires Loaded() && PrePassParameters <= effect.parameters
      modifies device
      ensures device.trace == PrePassTrace(old(device.trace), effect, camera, settings)
      ensures device.State() == old(device.State())
      ensures device.viewportWidth == old(device.viewportWidth) && device.viewportHeight == old(device.viewportHeight)
    {
      device.Submit(SetParam(cameraParams.view.value, MatrixValue(camera.view)));
      device.Submit(SetParam(cameraParams.projection.value, MatrixValue(camera.projection)));
      device.Submit(SetParam(cameraParams.eyePosition.value, Vector3Value(camera.localPosition)));
      device.Submit(SetParam(cameraParams.ambientColor.value, ColorValue(settings.ambientColor)));
    }

    /** Binds one renderable's world matrix and the material's surface, then applies the ambient pass. */
    method Pass(device: Device, r: Renderable)
      requires Loaded() && PassParameters <= effect.parameters && "AmbientPass" in effect.passes
      modifies device
      ensures device.trace == PassTrace(old(device.trace), effect, passAmbient.value, material, r)
      ensures device.State() == old(device.State())
      ensures device.viewportWidth == old(device.viewportWidth) && device.viewportHeight == old(device.viewportHeight)
    {
      device.Submit(SetParam(objectParams.world.value, MatrixValue(r.world)));
      device.Submit(SetParam(objectParams.textureTiling.value, Vector2Value(material.tiling)));
      device.Submit(SetParam(objectParams.diffuseColor.value, ColorValue(material.diffuseColor)));
      device.Submit(SetParam(objectParams.mainTexture.value, TextureValue(material.mainTexture)));
      device.Submit(ApplyPass(passAmbient.value));
    }

    /**
      Binds the specular terms, one light, the fog (builds without `DESKTOP`)
      and the light's shadow generator, then applies the light pass. The light
      must have a shadow generator: its strength, bias and map are read
      without a check.
    */
    method LightPass(device: Device, r: Renderable, light: Light, settings: RenderSettings, desktop: bool)
      requires Loaded() && LightPassParameters(desktop) <= effect.parameters && "LightPass" in effect.passes
      requires light.shadow.Some?
      modifies device
      ensures device.trace == LightPassTrace(old(device.trace), effect, passLight.value, material, specularColor,
                                             settings, r, light, desktop)
      ensures device.State() == old(device.State())
      ensures device.viewportWidth == old(device.viewportWidth) && device.viewportHeight == old(device.viewportHeight)
    {
      BindLight(device, light);
      if !desktop {
        device.Submit(SetParam(fogParams.fogColor.value, ColorValue(settings.fogColor)));
        device.Submit(SetParam(fogParams.fogData.value, Vector4Value(settings.fogData)));
      }
      BindShadow(device, r, light);
    }

    /** The first part of `LightPass`: specular terms and the light's own parameters. */
    method BindLight(device: Device, light: Light)
      requires Loaded() && LightBindParameters <= effect.parameters
      modifies device
      ensures device.trace == LightBinds(old(device.trace), effect, material, specularColor, light)
      ensures device.State() == old(device.State())
      ensures device.viewportWidth == old(device.viewportWidth) && device.viewportHeight == old(device.viewportHeight)
    {
      device.Submit(SetParam(lightParams.specularLightColor.value, Vector3Value(specularColor)));
      device.Submit(SetParam(lightParams.specularPower.value, RealValue(material.shininess)));
      device.Submit(SetParam(lightParams.specularIntensity.value, RealValue(material.specularIntensity)));
      device.Submit(SetParam(lightParams.lightColor.value, ColorValue(light.color)));
      device.Submit(SetParam(lightParams.lightDirection.value, Vector3Value(light.direction)));
      device.Submit(SetParam(lightParams.lightPosition.value, Vector3Value(light.localPosition)));
      device.Submit(SetParam(lightParams.lightSpotAngle.value, RealValue(light.angle)));
      device.Submit(SetParam(lightParams.lightIntensity.value, RealValue(light.intensity)));
      device.Submit(SetParam(lightParams.lightRange.value, RealValue(light.range)));
      device.Submit(SetParam(lightParams.lightFallOff.value, RealValue(light.fallOff)));
      device.Submit(SetParam(lightParams.lightType.value, IntValue(light.typeCode)));
    }

    /** The last part of `LightPass`: shadow generator, light matrices, specular texture, then the light pass. */
    method BindShadow(device: Device, r: Renderable, light: Light)
      requires Loaded() && ShadowBindParameters <= effect.parameters && "LightPass" in effect.passes
      requires light.shadow.Some?
      modifies device
      ensures device.trace == ShadowBinds(old(device.trace), effect, passLight.value, material, r, light)
      ensures device.State() == old(device.State())
      ensures device.viewportWidth == old(device.viewportWidth) && device.viewportHeight == old(device.viewportHeight)
    {
      var g := light.shadow.value;
      device.Submit(SetParam(shadowParams.shadowStrength.value, RealValue(g.strength)));
      device.Submit(SetParam(shadowParams.shadowBias.value, RealValue(g.bias)));
      device.Submit(SetParam(shadowParams.shadowMap.value, TextureValue(Some(g.shadowMap))));
      device.Submit(SetParam(shadowParams.shadowEnabled.value, BoolValue(r.receiveShadow)));
      device.Submit(SetParam(shadowParams.lightView.value, MatrixValue(light.view)));
      device.Submit(SetParam(shadowParams.lightProjection.value, MatrixValue(light.projection)));
      device.Submit(SetParam(shadowParams.specularTextureEnabled.value, BoolValue(material.specularTexture.Some?)));
      device.Submit(SetParam(shadowParams.specularTexture.value, TextureValue(material.specularTexture)));
      device.Submit(ApplyPass(passLight.value));
    }
  }
}
