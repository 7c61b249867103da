/**
  The deferred skybox shader (`DeferredSkybox`).

  `LoadEffect` resolves five handles of the skybox program; the three fog
  handles the class declares are never resolved. `PrePass` binds the skybox
  and the camera and applies the technique's first pass; `Pass` does nothing,
  since the sky is drawn once per camera and not once per renderable.
*/
module DeferredSky {
  import opened Graphics

  const SkyboxAsset := "Shaders/Deferred/Skybox"

  /** The parameters `PrePass` writes. */
  const SkyboxParameters: set<Uniform> := {World, Projection, View, Texture, EyePosition}

  /** The skybox component the shader was built for; its world matrix and cube texture change over time. */
  class Skybox {
    var worldMatrix: Matrix
    var texture: Option<TextureAsset>

    constructor (worldMatrix: Matrix, texture: Option<TextureAsset>)
      ensures this.worldMatrix == worldMatrix && this.texture == texture
    {
      this.worldMatrix := worldMatrix;
      this.texture := texture;
    }
  }

  /** `t` followed by the commands of one `PrePass`, in order. */
  function SkyboxPrePassTrace(t: seq<Event>, fx: Effect, world: Matrix, texture: Option<TextureAsset>, camera: Camera): seq<Event> {
    t + [SetParam(Param(fx, World), MatrixValue(world))]
      + [SetParam(Param(fx, Projection), MatrixValue(camera.projection))]
      + [SetParam(Param(fx, View), MatrixValue(camera.view))]
      + [SetParam(Param(fx, Texture), TextureValue(texture))]
      + [SetParam(Param(fx, EyePosition), Vector3Value(camera.position))]
      + [ApplyPass(PassRef(fx, 0))]
  }

  /**
    `PrePass` writes exactly the world, projection, view, texture and eye
    position parameters, leaving them holding the sky's own world matrix and
    texture and the camera's projection, view and world position, and then
    applies pass 0 once, as its last action.
  */
  lemma SkyboxPrePassBinds(t: seq<Event>, fx: Effect, world: Matrix, texture: Option<TextureAsset>, camera: Camera)
    ensures Written(SkyboxPrePassTrace(t, fx, world, texture, camera)) == Written(t) + SkyboxParameters
    ensures Applied(SkyboxPrePassTrace(t, fx, world, texture, camera)) == Applied(t) + [PassRef(fx, 0)]
    ensures var u := SkyboxPrePassTrace(t, fx, world, texture, camera);
      && u[|u| - 1] == ApplyPass(PassRef(fx, 0))
      && ValueOf(u, Param(fx, World)) == Some(MatrixValue(world))
      && ValueOf(u, Param(fx, Projection)) == Some(MatrixValue(camera.projection))
      && ValueOf(u, Param(fx, View)) == Some(MatrixValue(camera.view))
      && ValueOf(u, Param(fx, Texture)) == Some(TextureValue(texture))
      && ValueOf(u, Param(fx, EyePosition)) == Some(Vector3Value(camera.position))
  {
    var e0 := SetParam(Param(fx, World), MatrixValue(world));
    var e1 := SetParam(Param(fx, Projection), MatrixValue(camera.projection));
    var e2 := SetParam(Param(fx, View), MatrixValue(camera.view));
    var e3 := SetParam(Param(fx, Texture), TextureValue(texture));
    var e4 := SetParam(Param(fx, EyePosition), Vector3Value(camera.position));
    var e5 := ApplyPass(PassRef(fx, 0));
    var t1 := t + [e0];
    var t2 := t1 + [e1];
    var t3 := t2 + [e2];
    var t4 := t3 + [e3];
    var t5 := t4 + [e4];
    QueriesLast(t, e0);
    QueriesLast(t1, e1);
    QueriesLast(t2, e2);
    QueriesLast(t3, e3);
    QueriesLast(t4, e4);
    QueriesLast(t5, e5);
    ValueOfLast(t, e0, Param(fx, World));
    ValueOfLast(t1, e1, Param(fx, World));
    ValueOfLast(t2, e2, Param(fx, World));
    ValueOfLast(t3, e3, Param(fx, World));
    ValueOfLast(t4, e4, Param(fx, World));
    ValueOfLast(t5, e5, Param(fx, World));
    ValueOfLast(t1, e1, Param(fx, Projection));
    ValueOfLast(t2, e2, Param(fx, Projection));
    ValueOfLast(t3, e3, Param(fx, Projection));
    ValueOfLast(t4, e4, Param(fx, Projection));
    ValueOfLast(t5, e5, Param(fx, Projection));
    ValueOfLast(t2, e2, Param(fx, View));
    ValueOfLast(t3, e3, Param(fx, View));
    ValueOfLast(t4, e4, Param(fx, View));
    ValueOfLast(t5, e5, Param(fx, View));
    ValueOfLast(t3, e3, Param(fx, Texture));
    ValueOfLast(t4, e4, Param(fx, Texture));
    ValueOfLast(t5, e5, Param(fx, Texture));
    ValueOfLast(t4, e4, Param(fx, EyePosition));
    ValueOfLast(t5, e5, Param(fx, EyePosition));
  }

  /** The handles `LoadEffect` resolves. */
  datatype SkyHandles = SkyHandles(
    view: Option<Param>, projection: Option<Param>, mainTexture: Option<Param>,
    eyePosition: Option<Param>, world: Option<Param>)

  /** Declared by the class and never resolved by it. */
  datatype FogHandles = FogHandles(fogEnabled: Option<Param>, fogColor: Option<Param>, fogData: Option<Param>)

  class DeferredSkybox {
    const skybox: Skybox
    var effect: Effect?
    var handles: SkyHandles
    var fog: FogHandles

    /** A skybox program is loaded and every resolved handle is that program's handle for its name. */
    ghost predicate Loaded()
      reads this
    {
      && effect != null
      && handles == SkyHandles(
           Lookup(effect, View), Lookup(effect, Projection), Lookup(effect, Texture),
           Lookup(effect, EyePosition), Lookup(effect, World))
    }

    constructor (skybox: Skybox)
      ensures this.skybox == skybox && effect == null
      ensures handles == SkyHandles(None, None, None, None, None)
      ensures fog == FogHandles(None, None, None)
    {
      this.skybox := skybox;
      effect := null;
      handles := SkyHandles(None, None, None, None, None);
      fog := FogHandles(None, None, None);
    }

    /**
      Loads the skybox program and resolves the view, projection, eye
      position and world handles by their own names and the main-texture
      handle by the name `Texture`. The fog handles keep whatever they held.
    */
    method LoadEffect(content: Content)
      requires SkyboxAsset in content
      modifies this
      ensures effect == content[SkyboxAsset] && Loaded()
      ensures handles.mainTexture == Some(Param(effect, Texture))
      ensures fog == old(fog)
    {
      var fx := content[SkyboxAsset];
      effect := fx;
      handles := SkyHandles(
        Lookup(fx, View), Lookup(fx, Projection), Lookup(fx, Texture), Lookup(fx, EyePosition), Lookup(fx, World));
    }

    /** Per-renderable binding: the skybox has none, so the device sees nothing. */
    method Pass(device: Device, r: Renderable)
      ensures device.trace == old(device.trace)
    {
    }

    /** Binds the skybox and the camera, then applies the technique's first pass. */
    method PrePass(device: Device, camera: Camera)
      requires Loaded() && SkyboxParameters <= effect.parameters && |effect.passes| > 0
      modifies device
      ensures device.trace == SkyboxPrePassTrace(old(device.trace), effect, skybox.worldMatrix, skybox.texture, camera)
      ensures device.State() == old(device.State())
      ensures device.viewportWidth == old(device.viewportWidth) && device.viewportHeight == old(device.viewportHeight)
    {
      device.Submit(SetParam(handles.world.value, MatrixValue(skybox.worldMatrix)));
      device.Submit(SetParam(handles.projection.value, MatrixValue(camera.projection)));
      device.Submit(SetParam(handles.view.value, MatrixValue(camera.view)));
      device.Submit(SetParam(handles.mainTexture.value, TextureValue(skybox.texture)));
      device.Submit(SetParam(handles.eyePosition.value, Vector3Value(camera.position)));
      device.Submit(ApplyPass(PassRef(effect, 0)));
    }
  }
}
