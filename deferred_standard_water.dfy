/**
  The deferred standard water shader (`DeferredStandardWater`).

  It loads its own program, lets the forward water shader it derives from
  resolve the parameter handles (`SetupParamaters`), and then replaces the
  ambient pass that setup chose with the technique's first pass. Its `Pass`
  binds the material's specular terms before handing over to the inherited
  `Pass`, which is an opaque step here.
*/
module DeferredWater {
  import opened Graphics

  const WaterAsset := "Shaders/Deferred/StandardWater"

  /** The parameters `Pass` writes before the inherited pass. */
  const SpecularParameters: set<Uniform> := {
    SpecularLightColor, SpecularPower, SpecularIntensity, SpecularTextureEnabled, SpecularTexture
  }

  /** The specular part of the water material. */
  datatype WaterMaterial = WaterMaterial(
    specularColor: Color, shininess: real, specularIntensity: real, specularTexture: Option<TextureAsset>)

  /** `t` followed by the commands of one `Pass`: five specular writes, then the inherited pass. */
  function WaterPassTrace(t: seq<Event>, fx: Effect, m: WaterMaterial, r: Renderable): seq<Event> {
    t + [SetParam(Param(fx, SpecularLightColor), ColorAsVector(m.specularColor))]
      + [SetParam(Param(fx, SpecularPower), RealValue(m.shininess))]
      + [SetParam(Param(fx, SpecularIntensity), RealValue(m.specularIntensity))]
      + [SetParam(Param(fx, SpecularTextureEnabled), BoolValue(m.specularTexture.Some?))]
      + [SetParam(Param(fx, SpecularTexture), TextureValue(m.specularTexture))]
      + [Inherited(BasePass(r))]
  }

  /** The number of times the inherited pass for `r` occurs in `t`. */
  function BasePassCount(t: seq<Event>, r: Renderable): nat
    decreases |t|
  {
    if t == [] then 0
    else BasePassCount(t[..|t| - 1], r) + if t[|t| - 1] == Inherited(BasePass(r)) then 1 else 0
  }

  lemma BasePassCountLast(t: seq<Event>, e: Event, r: Renderable)
    ensures BasePassCount(t + [e], r) == BasePassCount(t, r) + if e == Inherited(BasePass(r)) then 1 else 0
  {
    assert (t + [e])[..|t + [e]| - 1] == t;
  }

  /**
    `Pass` writes exactly the five specular parameters, leaving them holding
    the colour as a vector, the shininess, the intensity, the texture flag
    (set exactly when there is a specular texture) and the texture, applies no pass of its own, and hands over to the inherited pass once, as
    its last action.
  */
  lemma WaterPassBinds(t: seq<Event>, fx: Effect, m: WaterMaterial, r: Renderable)
    ensures Written(WaterPassTrace(t, fx, m, r)) == Written(t) + SpecularParameters
    ensures Applied(WaterPassTrace(t, fx, m, r)) == Applied(t)
    ensures var u := WaterPassTrace(t, fx, m, r);
      && u[|u| - 1] == Inherited(BasePass(r))
      && BasePassCount(u, r) == BasePassCount(t, r) + 1
      && ValueOf(u, Param(fx, SpecularLightColor)) == Some(ColorAsVector(m.specularColor))
      && ValueOf(u, Param(fx, SpecularPower)) == Some(RealValue(m.shininess))
      && ValueOf(u, Param(fx, SpecularIntensity)) == Some(RealValue(m.specularIntensity))
      && ValueOf(u, Param(fx, SpecularTextureEnabled)) == Some(BoolValue(m.specularTexture.Some?))
      && ValueOf(u, Param(fx, SpecularTexture)) == Some(TextureValue(m.specularTexture))
  {
    var e0 := SetParam(Param(fx, SpecularLightColor), ColorAsVector(m.specularColor));
    var e1 := SetParam(Param(fx, SpecularPower), RealValue(m.shininess));
    var e2 := SetParam(Param(fx, SpecularIntensity), RealValue(m.specularIntensity));
    var e3 := SetParam(Param(fx, SpecularTextureEnabled), BoolValue(m.specularTexture.Some?));
    var e4 := SetParam(Param(fx, SpecularTexture), TextureValue(m.specularTexture));
    var e5 := Inherited(BasePass(r));
    var t1 := t + [e0];
    var t2 := t1 + [e1];
    var t3 := t2 + [e2];
    var t4 := t3 + [e3];
    var t5 := t4 + [e4];
    QueriesLast(t, e0);
    QueriesLast(t1, e1);
    QueriesLast(t2, e2);
    QueriesLast(t3, e3);
    QueriesLast(t4, e4);
    QueriesLast(t5, e5);
    BasePassCountLast(t, e0, r);
    BasePassCountLast(t1, e1, r);
    BasePassCountLast(t2, e2, r);
    BasePassCountLast(t3, e3, r);
    BasePassCountLast(t4, e4, r);
    BasePassCountLast(t5, e5, r);
    ValueOfLast(t, e0, Param(fx, SpecularLightColor));
    ValueOfLast(t1, e1, Param(fx, SpecularLightColor));
    ValueOfLast(t2, e2, Param(fx, SpecularLightColor));
    ValueOfLast(t3, e3, Param(fx, SpecularLightColor));
    ValueOfLast(t4, e4, Param(fx, SpecularLightColor));
    ValueOfLast(t5, e5, Param(fx, SpecularLightColor));
    ValueOfLast(t1, e1, Param(fx, SpecularPower));
    ValueOfLast(t2, e2, Param(fx, SpecularPower));
    ValueOfLast(t3, e3, Param(fx, SpecularPower));
    ValueOfLast(t4, e4, Param(fx, SpecularPower));
    ValueOfLast(t5, e5, Param(fx, SpecularPower));
    ValueOfLast(t2, e2, Param(fx, SpecularIntensity));
    ValueOfLast(t3, e3, Param(fx, SpecularIntensity));
    ValueOfLast(t4, e4, Param(fx, SpecularIntensity));
    ValueOfLast(t5, e5, Param(fx, SpecularIntensity));
    ValueOfLast(t3, e3, Param(fx, SpecularTextureEnabled));
    ValueOfLast(t4, e4, Param(fx, SpecularTextureEnabled));
    ValueOfLast(t5, e5, Param(fx, SpecularTextureEnabled));
    ValueOfLast(t4, e4, Param(fx, SpecularTexture));
    ValueOfLast(t5, e5, Param(fx, SpecularTexture));
  }

  /** The specular handles the inherited setup resolves. */
  datatype SpecularHandles = SpecularHandles(
    specularLightColor: Option<Param>, specularPower: Option<Param>, specularIntensity: Option<Param>,
    specularTextureEnabled: Option<Param>, specularTexture: Option<Param>)

  class DeferredStandardWater {
    const material: WaterMaterial
    var effect: Effect?
    var passAmbient: Option<PassRef>
    var specular: SpecularHandles

    /**
      A water program is loaded, its ambient pass is the technique's first
      pass and every specular handle is the program's handle for its name.
    */
    ghost predicate Loaded()
      reads this
    {
      && effect != null
      && passAmbient == PassAt(effect, 0)
      && specular == SpecularHandles(
           Lookup(effect, SpecularLightColor), Lookup(effect, SpecularPower), Lookup(effect, SpecularIntensity),
           Lookup(effect, SpecularTextureEnabled), Lookup(effect, SpecularTexture))
    }

    constructor (material: WaterMaterial)
      ensures this.material == material && effect == null && passAmbient.None?
      ensures specular == SpecularHandles(None, None, None, None, None)
    {
      this.material := material;
      effect, passAmbient := null, None;
      specular := SpecularHandles(None, None, None, None, None);
    }

    /**
      The inherited `SetupParamaters`: it resolves the specular handles of the
      loaded program by name and picks an ambient pass, `chosen`, by rules
      this model does not see.
    */
    method SetupParameters(chosen: Option<PassRef>)
      requires effect != null
      modifies this
      ensures effect == old(effect) && passAmbient == chosen
      ensures specular == SpecularHandles(
        Lookup(effect, SpecularLightColor), Lookup(effect, SpecularPower), Lookup(effect, SpecularIntensity),
        Lookup(effect, SpecularTextureEnabled), Lookup(effect, SpecularTexture))
    {
      specular := SpecularHandles(
        Lookup(effect, SpecularLightColor), Lookup(effect, SpecularPower), Lookup(effect, SpecularIntensity),
        Lookup(effect, SpecularTextureEnabled), Lookup(effect, SpecularTexture));
      passAmbient := chosen;
    }

    /**
      Loads the water program, runs the inherited setup and then makes the
      technique's first pass the ambient pass, whatever setup chose. The
      technique must have a pass: the engine's `Passes[0]` throws otherwise.
    */
    method LoadEffect(content: Content, setupChoice: Option<PassRef>)
      requires WaterAsset in content && |content[WaterAsset].passes| > 0
      modifies this
      ensures effect == content[WaterAsset] && Loaded()
      ensures passAmbient == Some(PassRef(effect, 0))
    {
      effect := content[WaterAsset];
      SetupParameters(setupChoice);
      passAmbient := PassAt(effect, 0);
    }

    /** Binds the specular terms, then runs the inherited `Pass` for `r`. */
    method Pass(device: Device, r: Renderable)
      requires Loaded() && SpecularParameters <= effect.parameters
      modifies device
      ensures device.trace == WaterPassTrace(old(device.trace), effect, material, r)
      ensures device.State() == old(device.State())
      ensures device.viewportWidth == old(device.viewportWidth) && device.viewportHeight == old(device.viewportHeight)
    {
      device.Submit(SetParam(specular.specularLightColor.value, ColorAsVector(material.specularColor)));
      device.Submit(SetParam(specular.specularPower.value, RealValue(material.shininess)));
      device.Submit(SetParam(specular.specularIntensity.value, RealValue(material.specularIntensity)));
      device.Submit(SetParam(specular.specularTextureEnabled.value, BoolValue(material.specularTexture.Some?)));
      device.Submit(SetParam(specular.specularTexture.value, TextureValue(material.specularTexture)));
      device.Submit(Inherited(BasePass(r)));
    }
  }
}
