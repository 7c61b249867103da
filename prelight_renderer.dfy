/**
  The light-pre-pass renderer (`PreLightRenderer`).

  Per frame it draws every renderable into a depth buffer and a normal buffer,
  accumulates every non-real-time light into a light buffer by drawing a sphere
  proxy, binds the light buffer into each material whose shader samples it,
  and hands over to the forward renderer's scene pass. Each step is specified
  by the exact command trace it appends to the device; the lemmas below state
  what those traces guarantee.
*/
module PreLighting {
  import opened Graphics

  const DepthNormalAsset := "Shaders/PreLighting/PL_DepthNormal"
  const LightMapAsset := "Shaders/PreLighting/PL_LightMap"

  /** Parameters the renderer writes into its depth/normal program. */
  const DepthNormalParameters: set<Uniform> := {View, Projection, World}

  /** Parameters the renderer writes into its light-accumulation program. */
  const LightingParameters: set<Uniform> := {
    NormalTexture, DepthTexture, InvViewProjection, Viewport,
    WorldViewProjection, LightColor, LightAttenuation, LightPosition,
    LightRange, LightIntensity
  }

  /** The program declares `names` and its technique has a pass 0. */
  predicate Declares(fx: Effect, names: set<Uniform>) {
    names <= fx.parameters && |fx.passes| > 0
  }

  /** C#'s `(int)` cast of a float: truncation toward zero. */
  function Truncate(r: real): (n: int)
    ensures 0.0 <= r ==> n as real <= r < n as real + 1.0
    ensures r < 0.0 ==> n as real - 1.0 < r <= n as real
  {
    if 0.0 <= r then r.Floor else -((-r).Floor)
  }

  /** The renderer's loaded programs and its three offscreen buffers. */
  datatype Resources = Resources(
    depthNormalFX: Effect,
    lightingFX: Effect,
    depthRT: RenderTarget,
    normalRT: RenderTarget,
    lightRT: RenderTarget)

  datatype Resource = TargetResource(rt: RenderTarget?) | EffectResource(fx: Effect?)

  // Every trace function below takes the trace `t` submitted so far and
  // returns `t` followed by the step's commands, appended one at a time, in
  // the order the renderer submits them.

  // ------------------------------------------------------ depth/normal pass

  /** `t`, then the commands issued for one renderable of the render list. */
  function DepthNormalDraw(t: seq<Event>, fx: Effect, r: Renderable): seq<Event> {
    t + [SetParam(Param(fx, World), MatrixValue(r.world))] + [ApplyPass(PassRef(fx, 0))] + [Draw(Object(r.id))]
  }

  function DepthNormalLoop(t: seq<Event>, fx: Effect, rs: seq<Renderable>): seq<Event>
    decreases |rs|
  {
    if rs == [] then t else DepthNormalDraw(DepthNormalLoop(t, fx, rs[..|rs| - 1]), fx, rs[|rs| - 1])
  }

  function DepthNormalPrologue(t: seq<Event>, res: Resources, camera: Camera): seq<Event> {
    var fx := res.depthNormalFX;
    t + [SetParam(Param(fx, View), MatrixValue(camera.view))]
      + [SetParam(Param(fx, Projection), MatrixValue(camera.projection))]
      + [SetRenderTargets([res.normalRT, res.depthRT])]
      + [Clear(White)]
  }

  /** `t`, then the whole depth/normal pass over the render list. */
  function DepthNormalPass(t: seq<Event>, res: Resources, camera: Camera, rs: seq<Renderable>): seq<Event> {
    DepthNormalLoop(DepthNormalPrologue(t, res, camera), res.depthNormalFX, rs) + [SetRenderTargets([])]
  }

  /**
    The loop appends exactly one World bind, one apply and one draw per
    renderable, in render-list order, and leaves what came before untouched.
  */
  lemma {:induction false} DepthNormalLoopShape(t: seq<Event>, fx: Effect, rs: seq<Renderable>)
    ensures |DepthNormalLoop(t, fx, rs)| == |t| + 3 * |rs|
    ensures DepthNormalLoop(t, fx, rs)[..|t|] == t
    ensures forall i | 0 <= i < |rs| ::
      DepthNormalLoop(t, fx, rs)[|t| + 3 * i..|t| + 3 * i + 3] == DepthNormalDraw([], fx, rs[i])
    decreases |rs|
  {
    if rs != [] {
      var n := |rs|;
      var p := rs[..n - 1];
      DepthNormalLoopShape(t, fx, p);
      var u := DepthNormalLoop(t, fx, p);
      var v := DepthNormalLoop(t, fx, rs);
      assert v == u + DepthNormalDraw([], fx, rs[n - 1]);
      forall i | 0 <= i < n
        ensures v[|t| + 3 * i..|t| + 3 * i + 3] == DepthNormalDraw([], fx, rs[i])
      {
        if i < n - 1 {
          assert p[i] == rs[i];
          assert v[|t| + 3 * i..|t| + 3 * i + 3] == u[|t| + 3 * i..|t| + 3 * i + 3];
        } else {
          assert v[|t| + 3 * i..|t| + 3 * i + 3] == v[|u|..];
        }
      }
    }
  }

  lemma {:induction false} DepthNormalLoopState(s: DeviceState, t: seq<Event>, fx: Effect, rs: seq<Renderable>)
    ensures Replay(s, DepthNormalLoop(t, fx, rs)) == Replay(s, t)
    decreases |rs|
  {
    if rs != [] {
      var r := rs[|rs| - 1];
      var u := DepthNormalLoop(t, fx, rs[..|rs| - 1]);
      DepthNormalLoopState(s, t, fx, rs[..|rs| - 1]);
      var a := SetParam(Param(fx, World), MatrixValue(r.world));
      ReplayLast(s, u, a);
      ReplayLast(s, u + [a], ApplyPass(PassRef(fx, 0)));
      ReplayLast(s, u + [a] + [ApplyPass(PassRef(fx, 0))], Draw(Object(r.id)));
    }
  }

  lemma DepthNormalPrologueState(s: DeviceState, t: seq<Event>, res: Resources, camera: Camera)
    ensures Replay(s, DepthNormalPrologue(t, res, camera)) == Replay(s, t).(targets := [res.normalRT, res.depthRT])
  {
    var fx := res.depthNormalFX;
    var e0 := SetParam(Param(fx, View), MatrixValue(camera.view));
    var e1 := SetParam(Param(fx, Projection), MatrixValue(camera.projection));
    var e2 := SetRenderTargets([res.normalRT, res.depthRT]);
    ReplayLast(s, t, e0);
    ReplayLast(s, t + [e0], e1);
    ReplayLast(s, t + [e0] + [e1], e2);
    ReplayLast(s, t + [e0] + [e1] + [e2], Clear(White));
  }

  /** The depth/normal pass leaves no render target bound and every other piece of pipeline state as it was. */
  lemma DepthNormalRestores(s: DeviceState, t: seq<Event>, res: Resources, camera: Camera, rs: seq<Renderable>)
    ensures Replay(s, DepthNormalPass(t, res, camera, rs)) == Replay(s, t).(targets := [])
  {
    var fx := res.depthNormalFX;
    var pro := DepthNormalPrologue(t, res, camera);
    DepthNormalPrologueState(s, t, res, camera);
    DepthNormalLoopState(s, pro, fx, rs);
    ReplayLast(s, DepthNormalLoop(pro, fx, rs), SetRenderTargets([]));
  }

  // ------------------------------------------------------ light accumulation

  /** Lights that get a proxy-volume draw: every one not in real-time mode. */
  predicate Accumulated(l: Light) {
    l.backing != RealTime
  }

  function AccumulatedLights(ls: seq<Light>): (r: seq<Light>)
    ensures forall k | 0 <= k < |r| :: Accumulated(r[k]) && r[k] in ls
    ensures forall k | 0 <= k < |ls| && Accumulated(ls[k]) :: ls[k] in r
    decreases |ls|
  {
    if ls == [] then []
    else AccumulatedLights(ls[..|ls| - 1]) + (if Accumulated(ls[|ls| - 1]) then [ls[|ls| - 1]] else [])
  }

  /**
    The filter keeps each light as often as the list holds it, when it is
    accumulated, and never otherwise.
  */
  lemma {:induction false} AccumulatedLightsMultiplicity(ls: seq<Light>)
    ensures forall l :: multiset(AccumulatedLights(ls))[l] == if Accumulated(l) then multiset(ls)[l] else 0
    decreases |ls|
  {
    if ls != [] {
      var init := ls[..|ls| - 1];
      assert ls == init + [ls[|ls| - 1]];
      AccumulatedLightsMultiplicity(init);
    }
  }

  /** The camera is strictly inside the light's range. */
  predicate CameraInside(camera: Camera, l: Light) {
    WithinDistance(camera.position, l.position, l.range)
  }

  function LightBinds(t: seq<Event>, fx: Effect, l: Light, viewProjection: Matrix): seq<Event> {
    t + [SetParam(Param(fx, WorldViewProjection), MatrixValue(Product(Product(ScaleBy(l.range), l.world), viewProjection)))]
      + [SetParam(Param(fx, LightColor), ColorValue(l.color))]
      + [SetParam(Param(fx, LightAttenuation), RealValue(l.fallOff))]
      + [SetParam(Param(fx, LightPosition), Vector3Value(l.position))]
      + [SetParam(Param(fx, LightRange), RealValue(l.range))]
      + [SetParam(Param(fx, LightIntensity), RealValue(l.intensity))]
  }

  /** `t`, then the commands issued for one light of the light list. */
  function LightVolume(t: seq<Event>, fx: Effect, camera: Camera, l: Light): seq<Event> {
    if !Accumulated(l) then t
    else
      var b := LightBinds(t, fx, l, Product(camera.view, camera.projection));
      var c := if CameraInside(camera, l) then b + [SetRasterizer(CullClockwise)] else b;
      c + [ApplyPass(PassRef(fx, 0))] + [Draw(SphereProxy)] + [SetRasterizer(CullCounterClockwise)]
  }

  function LightLoop(t: seq<Event>, fx: Effect, camera: Camera, ls: seq<Light>): seq<Event>
    decreases |ls|
  {
    if ls == [] then t
    else LightVolume(LightLoop(t, fx, camera, ls[..|ls| - 1]), fx, camera, ls[|ls| - 1])
  }

  function LightMapPrologue(t: seq<Event>, res: Resources, camera: Camera, viewport: Vec2): seq<Event> {
    var fx := res.lightingFX;
    t + [SetParam(Param(fx, NormalTexture), TargetValue(res.normalRT))]
      + [SetParam(Param(fx, DepthTexture), TargetValue(res.depthRT))]
      + [SetParam(Param(fx, InvViewProjection), MatrixValue(Inverse(Product(camera.view, camera.projection))))]
      + [SetParam(Param(fx, Viewport), Vector2Value(viewport))]
      + [SetRenderTargets([res.lightRT])]
      + [Clear(Black)]
      + [SetBlend(AlphaBlend)]
      + [SetDepthStencil(DepthStencilNone)]
  }

  /** `t`, then the whole light-accumulation pass. */
  function LightMapPass(t: seq<Event>, res: Resources, camera: Camera, ls: seq<Light>, viewport: Vec2): seq<Event> {
    LightLoop(LightMapPrologue(t, res, camera, viewport), res.lightingFX, camera, ls)
      + [SetBlend(Opaque)] + [SetDepthStencil(DepthStencilDefault)] + [SetRenderTargets([])]
  }

  /**
    A real-time light adds nothing. A drawn light's proxy is rasterized with
    clockwise culling exactly when the camera is strictly inside its range
    (at distance == range the current culling stays), and the light leaves
    counter-clockwise culling behind and nothing else changed.
  */
  lemma LightVolumeCulling(s: DeviceState, t: seq<Event>, fx: Effect, camera: Camera, l: Light)
    ensures !Accumulated(l) ==> LightVolume(t, fx, camera, l) == t
    ensures Accumulated(l) ==>
      var v := LightVolume(t, fx, camera, l);
      && |v| >= |t| + 3
      && v[|v| - 2] == Draw(SphereProxy)
      && Replay(s, v[..|v| - 2]).rasterizer
         == (if CameraInside(camera, l) then CullClockwise else Replay(s, t).rasterizer)
      && Replay(s, v) == Replay(s, t).(rasterizer := CullCounterClockwise)
  {
    if Accumulated(l) {
      var vp := Product(camera.view, camera.projection);
      var b := LightBinds(t, fx, l, vp);
      LightBindsState(s, t, fx, l, vp);
      var c := if CameraInside(camera, l) then b + [SetRasterizer(CullClockwise)] else b;
      ReplayLast(s, b, SetRasterizer(CullClockwise));
      var a := ApplyPass(PassRef(fx, 0));
      ReplayLast(s, c, a);
      ReplayLast(s, c + [a], Draw(SphereProxy));
      ReplayLast(s, c + [a] + [Draw(SphereProxy)], SetRasterizer(CullCounterClockwise));
      var v := LightVolume(t, fx, camera, l);
      assert v[..|v| - 2] == c + [a];
    }
  }

  /** The six parameter writes of a light change no pipeline state. */
  lemma LightBindsState(s: DeviceState, t: seq<Event>, fx: Effect, l: Light, vp: Matrix)
    ensures Replay(s, LightBinds(t, fx, l, vp)) == Replay(s, t)
  {
    var e0 := SetParam(Param(fx, WorldViewProjection), MatrixValue(Product(Product(ScaleBy(l.range), l.world), vp)));
    var e1 := SetParam(Param(fx, LightColor), ColorValue(l.color));
    var e2 := SetParam(Param(fx, LightAttenuation), RealValue(l.fallOff));
    var e3 := SetParam(Param(fx, LightPosition), Vector3Value(l.position));
    var e4 := SetParam(Param(fx, LightRange), RealValue(l.range));
    var e5 := SetParam(Param(fx, LightIntensity), RealValue(l.intensity));
    ReplayLast(s, t, e0);
    ReplayLast(s, t + [e0], e1);
    ReplayLast(s, t + [e0] + [e1], e2);
    ReplayLast(s, t + [e0] + [e1] + [e2], e3);
    ReplayLast(s, t + [e0] + [e1] + [e2] + [e3], e4);
    ReplayLast(s, t + [e0] + [e1] + [e2] + [e3] + [e4], e5);
  }

  lemma LightBindsProxyDraws(t: seq<Event>, fx: Effect, l: Light, vp: Matrix)
    ensures CountProxyDraws(LightBinds(t, fx, l, vp)) == CountProxyDraws(t)
  {
    var e0 := SetParam(Param(fx, WorldViewProjection), MatrixValue(Product(Product(ScaleBy(l.range), l.world), vp)));
    var e1 := SetParam(Param(fx, LightColor), ColorValue(l.color));
    var e2 := SetParam(Param(fx, LightAttenuation), RealValue(l.fallOff));
    var e3 := SetParam(Param(fx, LightPosition), Vector3Value(l.position));
    var e4 := SetParam(Param(fx, LightRange), RealValue(l.range));
    var e5 := SetParam(Param(fx, LightIntensity), RealValue(l.intensity));
    CountProxyDrawsLast(t, e0);
    CountProxyDrawsLast(t + [e0], e1);
    CountProxyDrawsLast(t + [e0] + [e1], e2);
    CountProxyDrawsLast(t + [e0] + [e1] + [e2], e3);
    CountProxyDrawsLast(t + [e0] + [e1] + [e2] + [e3], e4);
    CountProxyDrawsLast(t + [e0] + [e1] + [e2] + [e3] + [e4], e5);
  }

  /** A light volume issues the clockwise-culling command exactly when the light is drawn with the camera inside it. */
  lemma LightVolumeInside(fx: Effect, camera: Camera, l: Light)
    ensures SetRasterizer(CullClockwise) in LightVolume([], fx, camera, l)
            <==> Accumulated(l) && CameraInside(camera, l)
  {
    if Accumulated(l) {
      var b := LightBinds([], fx, l, Product(camera.view, camera.projection));
      assert forall e | e in b :: e.SetParam?;
    }
  }

  /** Real-time lights contribute nothing: the loop is the loop over the accumulated lights. */
  lemma {:induction false} RealTimeLightsSkipped(t: seq<Event>, fx: Effect, camera: Camera, ls: seq<Light>)
    ensures LightLoop(t, fx, camera, ls) == LightLoop(t, fx, camera, AccumulatedLights(ls))
    decreases |ls|
  {
    if ls != [] {
      var p, l := ls[..|ls| - 1], ls[|ls| - 1];
      RealTimeLightsSkipped(t, fx, camera, p);
      var a := AccumulatedLights(p);
      if Accumulated(l) {
        assert AccumulatedLights(ls) == a + [l];
        assert (a + [l])[..|a + [l]| - 1] == a;
      } else {
        assert AccumulatedLights(ls) == a;
      }
    }
  }

  function CountProxyDraws(t: seq<Event>): nat
    decreases |t|
  {
    if t == [] then 0
    else CountProxyDraws(t[..|t| - 1]) + (if t[|t| - 1] == Draw(SphereProxy) then 1 else 0)
  }

  lemma CountProxyDrawsLast(t: seq<Event>, e: Event)
    ensures CountProxyDraws(t + [e]) == CountProxyDraws(t) + (if e == Draw(SphereProxy) then 1 else 0)
  {
    assert (t + [e])[..|t + [e]| - 1] == t;
  }

  /** One light adds one proxy draw when it is accumulated and none otherwise. */
  lemma LightVolumeProxyDraws(t: seq<Event>, fx: Effect, camera: Camera, l: Light)
    ensures CountProxyDraws(LightVolume(t, fx, camera, l))
            == CountProxyDraws(t) + (if Accumulated(l) then 1 else 0)
  {
    if Accumulated(l) {
      var vp := Product(camera.view, camera.projection);
      var b := LightBinds(t, fx, l, vp);
      LightBindsProxyDraws(t, fx, l, vp);
      var c := if CameraInside(camera, l) then b + [SetRasterizer(CullClockwise)] else b;
      CountProxyDrawsLast(b, SetRasterizer(CullClockwise));
      var a := ApplyPass(PassRef(fx, 0));
      CountProxyDrawsLast(c, a);
      CountProxyDrawsLast(c + [a], Draw(SphereProxy));
      CountProxyDrawsLast(c + [a] + [Draw(SphereProxy)], SetRasterizer(CullCounterClockwise));
    }
  }

  /** Exactly one proxy draw per accumulated light. */
  lemma {:induction false} ProxyDrawPerLight(t: seq<Event>, fx: Effect, camera: Camera, ls: seq<Light>)
    ensures CountProxyDraws(LightLoop(t, fx, camera, ls)) == CountProxyDraws(t) + |AccumulatedLights(ls)|
    decreases |ls|
  {
    if ls != [] {
      var p, l := ls[..|ls| - 1], ls[|ls| - 1];
      ProxyDrawPerLight(t, fx, camera, p);
      LightVolumeProxyDraws(LightLoop(t, fx, camera, p), fx, camera, l);
    }
  }

  /** Over the whole loop only the rasterizer changes, and it ends counter-clockwise once any light was drawn. */
  lemma {:induction false} LightLoopState(s: DeviceState, t: seq<Event>, fx: Effect, camera: Camera, ls: seq<Light>)
    ensures Replay(s, LightLoop(t, fx, camera, ls))
            == Replay(s, t).(rasterizer := if AccumulatedLights(ls) == [] then Replay(s, t).rasterizer else CullCounterClockwise)
    decreases |ls|
  {
    if ls != [] {
      var p, l := ls[..|ls| - 1], ls[|ls| - 1];
      LightLoopState(s, t, fx, camera, p);
      LightVolumeCulling(s, LightLoop(t, fx, camera, p), fx, camera, l);
    }
  }

  lemma LightMapPrologueState(s: DeviceState, t: seq<Event>, res: Resources, camera: Camera, viewport: Vec2)
    ensures Replay(s, LightMapPrologue(t, res, camera, viewport))
            == Replay(s, t).(targets := [res.lightRT], blend := AlphaBlend, depthStencil := DepthStencilNone)
  {
    var fx := res.lightingFX;
    var e0 := SetParam(Param(fx, NormalTexture), TargetValue(res.normalRT));
    var e1 := SetParam(Param(fx, DepthTexture), TargetValue(res.depthRT));
    var e2 := SetParam(Param(fx, InvViewProjection), MatrixValue(Inverse(Product(camera.view, camera.projection))));
    var e3 := SetParam(Param(fx, Viewport), Vector2Value(viewport));
    ReplayLast(s, t, e0);
    ReplayLast(s, t + [e0], e1);
    ReplayLast(s, t + [e0] + [e1], e2);
    ReplayLast(s, t + [e0] + [e1] + [e2], e3);
    var t4 := t + [e0] + [e1] + [e2] + [e3];
    ReplayLast(s, t4, SetRenderTargets([res.lightRT]));
    ReplayLast(s, t4 + [SetRenderTargets([res.lightRT])], Clear(Black));
    ReplayLast(s, t4 + [SetRenderTargets([res.lightRT])] + [Clear(Black)], SetBlend(AlphaBlend));
    ReplayLast(s, t4 + [SetRenderTargets([res.lightRT])] + [Clear(Black)] + [SetBlend(AlphaBlend)], SetDepthStencil(DepthStencilNone));
  }

  /** After the light-map pass blend, depth-stencil and render target are back to their defaults. */
  lemma LightMapRestores(s: DeviceState, t: seq<Event>, res: Resources, camera: Camera, ls: seq<Light>, viewport: Vec2)
    ensures Replay(s, LightMapPass(t, res, camera, ls, viewport))
            == DeviceState([], Opaque, DepthStencilDefault,
                           if AccumulatedLights(ls) == [] then Replay(s, t).rasterizer else CullCounterClockwise)
  {
    var fx := res.lightingFX;
    LightMapPrologueState(s, t, res, camera, viewport);
    var pro := LightMapPrologue(t, res, camera, viewport);
    LightLoopState(s, pro, fx, camera, ls);
    var u := LightLoop(pro, fx, camera, ls);
    ReplayLast(s, u, SetBlend(Opaque));
    ReplayLast(s, u + [SetBlend(Opaque)], SetDepthStencil(DepthStencilDefault));
    ReplayLast(s, u + [SetBlend(Opaque)] + [SetDepthStencil(DepthStencilDefault)], SetRenderTargets([]));
  }

  // ---------------------------------------------------------- light-map binds

  /** The material's shader declares a `LightMap` parameter. */
  predicate SamplesLightMap(m: Material) {
    m.effect != null && LightMap in m.effect.parameters
  }

  /** Every material that samples the light map also declares `Viewport`. */
  predicate ViewportDeclared(ms: seq<Material>) {
    forall k | 0 <= k < |ms| :: SamplesLightMap(ms[k]) ==> Viewport in ms[k].effect.parameters
  }

  function MaterialBinds(t: seq<Event>, m: Material, lightRT: RenderTarget, viewport: Vec2): seq<Event> {
    if SamplesLightMap(m) then
      t + [SetParam(Param(m.effect, LightMap), TargetValue(lightRT))] + [SetParam(Param(m.effect, Viewport), Vector2Value(viewport))]
    else t
  }

  /** `t`, then the light-map binds of every material, in list order. */
  function PrepareTrace(t: seq<Event>, ms: seq<Material>, lightRT: RenderTarget, viewport: Vec2): seq<Event>
    decreases |ms|
  {
    if ms == [] then t else MaterialBinds(PrepareTrace(t, ms[..|ms| - 1], lightRT, viewport), ms[|ms| - 1], lightRT, viewport)
  }

  /**
    The binds land in exactly the materials whose shader samples the light
    map: a command is added if and only if it is one of such a material's
    two writes.
  */
  lemma {:induction false} PrepareTraceBinds(t: seq<Event>, ms: seq<Material>, lightRT: RenderTarget, viewport: Vec2)
    ensures forall e :: e in PrepareTrace(t, ms, lightRT, viewport)
                        <==> e in t || exists m :: m in ms && SamplesLightMap(m) && e in MaterialBinds([], m, lightRT, viewport)
    decreases |ms|
  {
    if ms != [] {
      var p, m := ms[..|ms| - 1], ms[|ms| - 1];
      PrepareTraceBinds(t, p, lightRT, viewport);
      assert ms == p + [m];
      forall e | exists m' :: m' in ms && SamplesLightMap(m') && e in MaterialBinds([], m', lightRT, viewport)
        ensures e in PrepareTrace(t, ms, lightRT, viewport)
      {
        var m' :| m' in ms && SamplesLightMap(m') && e in MaterialBinds([], m', lightRT, viewport);
        if m' != m {
          assert m' in p;
        }
      }
    }
  }

  /** A material whose shader does not sample the light map gets no write at all. */
  lemma UntouchedMaterials(ms: seq<Material>, lightRT: RenderTarget, viewport: Vec2, m: Material)
    requires !SamplesLightMap(m)
    ensures forall e | e in PrepareTrace([], ms, lightRT, viewport) :: e.SetParam? && e.param.effect != m.effect
  {
    PrepareTraceBinds([], ms, lightRT, viewport);
  }

  /** Binding the light map changes no pipeline state. */
  lemma {:induction false} PrepareTraceState(s: DeviceState, t: seq<Event>, ms: seq<Material>, lightRT: RenderTarget, viewport: Vec2)
    ensures Replay(s, PrepareTrace(t, ms, lightRT, viewport)) == Replay(s, t)
    decreases |ms|
  {
    if ms != [] {
      var m := ms[|ms| - 1];
      var u := PrepareTrace(t, ms[..|ms| - 1], lightRT, viewport);
      PrepareTraceState(s, t, ms[..|ms| - 1], lightRT, viewport);
      if SamplesLightMap(m) {
        var a := SetParam(Param(m.effect, LightMap), TargetValue(lightRT));
        ReplayLast(s, u, a);
        ReplayLast(s, u + [a], SetParam(Param(m.effect, Viewport), Vector2Value(viewport)));
      }
    }
  }

  // ----------------------------------------------------------------- frame

  /** `t`, then the whole pre-lighting pass for one camera. */
  function PreLightingTrace(t: seq<Event>, res: Resources, scene: Scene, camera: Camera, viewport: Vec2): seq<Event> {
    var dn := DepthNormalPass(t, res, camera, scene.renderList);
    var lm := LightMapPass(dn, res, camera, scene.lights, viewport);
    PrepareTrace(lm, scene.materials, res.lightRT, viewport)
  }

  /** `t`, then one frame seen through the first camera. */
  function RenderTrace(t: seq<Event>, res: Resources, scene: Scene, viewport: Vec2): seq<Event>
    requires |scene.cameras| > 0
  {
    PreLightingTrace(t + [Inherited(RebuildRenderTargets)], res, scene, scene.cameras[0], viewport)
      + [Inherited(RenderSceneForCamera(scene.cameras[0]))]
  }

  /**
    The whole pre-lighting pass ends with no render target, opaque blending
    and default depth-stencil; the rasterizer is counter-clockwise once any
    light was drawn and untouched otherwise.
  */
  lemma PreLightingRestores(s: DeviceState, t: seq<Event>, res: Resources, scene: Scene, camera: Camera, viewport: Vec2)
    ensures Replay(s, PreLightingTrace(t, res, scene, camera, viewport))
            == DeviceState([], Opaque, DepthStencilDefault,
                           if AccumulatedLights(scene.lights) == [] then Replay(s, t).rasterizer else CullCounterClockwise)
  {
    var dn := DepthNormalPass(t, res, camera, scene.renderList);
    var lm := LightMapPass(dn, res, camera, scene.lights, viewport);
    DepthNormalRestores(s, t, res, camera, scene.renderList);
    LightMapRestores(s, dn, res, camera, scene.lights, viewport);
    PrepareTraceState(s, lm, scene.materials, res.lightRT, viewport);
  }

  // ------------------------------------------------------------ pass order

  /**
    Where an event sits in the frame's pass order: 1 rebuild, 2 depth/normal
    draws, 3 light-proxy draws, 4 light-map binds, 5 the forward scene pass;
    0 for events that belong to no particular pass.
  */
  function Rank(e: Event): nat {
    if e == Inherited(RebuildRenderTargets) then 1
    else if e.Draw? && e.drawable.Object? then 2
    else if e == Draw(SphereProxy) then 3
    else if e.SetParam? && e.param.name == LightMap then 4
    else if e.Inherited? && e.step.RenderSceneForCamera? then 5
    else 0
  }

  /**
    `t` starts with `t0`, its ranked events appear in non-decreasing rank,
    and none ranks above `k`.
  */
  ghost predicate Phase(t0: seq<Event>, t: seq<Event>, k: nat) {
    && |t0| <= |t| && t[..|t0|] == t0
    && (forall i, j | 0 <= i < j < |t| && Rank(t[i]) != 0 && Rank(t[j]) != 0 :: Rank(t[i]) <= Rank(t[j]))
    && (forall i | 0 <= i < |t| :: Rank(t[i]) <= k)
  }

  lemma PhaseExtend(t0: seq<Event>, t: seq<Event>, e: Event, k: nat)
    requires Phase(t0, t, k) && (Rank(e) == 0 || Rank(e) == k)
    ensures Phase(t0, t + [e], k)
  {
    var u := t + [e];
    assert u[..|t0|] == t[..|t0|];
    forall i, j | 0 <= i < j < |u| && Rank(u[i]) != 0 && Rank(u[j]) != 0
      ensures Rank(u[i]) <= Rank(u[j])
    {
      assert u[i] == t[i];
    }
  }

  lemma {:induction false} DepthNormalLoopPhase(t0: seq<Event>, t: seq<Event>, fx: Effect, rs: seq<Renderable>)
    requires Phase(t0, t, 2)
    ensures Phase(t0, DepthNormalLoop(t, fx, rs), 2)
    decreases |rs|
  {
    if rs != [] {
      var r := rs[|rs| - 1];
      var u := DepthNormalLoop(t, fx, rs[..|rs| - 1]);
      DepthNormalLoopPhase(t0, t, fx, rs[..|rs| - 1]);
      var a := SetParam(Param(fx, World), MatrixValue(r.world));
      PhaseExtend(t0, u, a, 2);
      PhaseExtend(t0, u + [a], ApplyPass(PassRef(fx, 0)), 2);
      PhaseExtend(t0, u + [a] + [ApplyPass(PassRef(fx, 0))], Draw(Object(r.id)), 2);
    }
  }

  lemma DepthNormalProloguePhase(t0: seq<Event>, t: seq<Event>, res: Resources, camera: Camera)
    requires Phase(t0, t, 2)
    ensures Phase(t0, DepthNormalPrologue(t, res, camera), 2)
  {
    var fx := res.depthNormalFX;
    var e0 := SetParam(Param(fx, View), MatrixValue(camera.view));
    var e1 := SetParam(Param(fx, Projection), MatrixValue(camera.projection));
    var e2 := SetRenderTargets([res.normalRT, res.depthRT]);
    PhaseExtend(t0, t, e0, 2);
    PhaseExtend(t0, t + [e0], e1, 2);
    PhaseExtend(t0, t + [e0] + [e1], e2, 2);
    PhaseExtend(t0, t + [e0] + [e1] + [e2], Clear(White), 2);
  }

  lemma DepthNormalPassPhase(t0: seq<Event>, t: seq<Event>, res: Resources, camera: Camera, rs: seq<Renderable>)
    requires Phase(t0, t, 2)
    ensures Phase(t0, DepthNormalPass(t, res, camera, rs), 2)
  {
    var fx := res.depthNormalFX;
    var pro := DepthNormalPrologue(t, res, camera);
    DepthNormalProloguePhase(t0, t, res, camera);
    DepthNormalLoopPhase(t0, pro, fx, rs);
    PhaseExtend(t0, DepthNormalLoop(pro, fx, rs), SetRenderTargets([]), 2);
  }

  lemma LightBindsPhase(t0: seq<Event>, t: seq<Event>, fx: Effect, l: Light, vp: Matrix, k: nat)
    requires Phase(t0, t, k)
    ensures Phase(t0, LightBinds(t, fx, l, vp), k)
  {
    var e0 := SetParam(Param(fx, WorldViewProjection), MatrixValue(Product(Product(ScaleBy(l.range), l.world), vp)));
    var e1 := SetParam(Param(fx, LightColor), ColorValue(l.color));
    var e2 := SetParam(Param(fx, LightAttenuation), RealValue(l.fallOff));
    var e3 := SetParam(Param(fx, LightPosition), Vector3Value(l.position));
    var e4 := SetParam(Param(fx, LightRange), RealValue(l.range));
    var e5 := SetParam(Param(fx, LightIntensity), RealValue(l.intensity));
    PhaseExtend(t0, t, e0, k);
    PhaseExtend(t0, t + [e0], e1, k);
    PhaseExtend(t0, t + [e0] + [e1], e2, k);
    PhaseExtend(t0, t + [e0] + [e1] + [e2], e3, k);
    PhaseExtend(t0, t + [e0] + [e1] + [e2] + [e3], e4, k);
    PhaseExtend(t0, t + [e0] + [e1] + [e2] + [e3] + [e4], e5, k);
  }

  lemma LightVolumePhase(t0: seq<Event>, t: seq<Event>, fx: Effect, camera: Camera, l: Light)
    requires Phase(t0, t, 3)
    ensures Phase(t0, LightVolume(t, fx, camera, l), 3)
  {
    if Accumulated(l) {
      var vp := Product(camera.view, camera.projection);
      var b := LightBinds(t, fx, l, vp);
      LightBindsPhase(t0, t, fx, l, vp, 3);
      var c := if CameraInside(camera, l) then b + [SetRasterizer(CullClockwise)] else b;
      PhaseExtend(t0, b, SetRasterizer(CullClockwise), 3);
      var a := ApplyPass(PassRef(fx, 0));
      PhaseExtend(t0, c, a, 3);
      PhaseExtend(t0, c + [a], Draw(SphereProxy), 3);
      PhaseExtend(t0, c + [a] + [Draw(SphereProxy)], SetRasterizer(CullCounterClockwise), 3);
    }
  }

  lemma {:induction false} LightLoopPhase(t0: seq<Event>, t: seq<Event>, fx: Effect, camera: Camera, ls: seq<Light>)
    requires Phase(t0, t, 3)
    ensures Phase(t0, LightLoop(t, fx, camera, ls), 3)
    decreases |ls|
  {
    if ls != [] {
      LightLoopPhase(t0, t, fx, camera, ls[..|ls| - 1]);
      LightVolumePhase(t0, LightLoop(t, fx, camera, ls[..|ls| - 1]), fx, camera, ls[|ls| - 1]);
    }
  }

  lemma LightMapProloguePhase(t0: seq<Event>, t: seq<Event>, res: Resources, camera: Camera, viewport: Vec2)
    requires Phase(t0, t, 3)
    ensures Phase(t0, LightMapPrologue(t, res, camera, viewport), 3)
  {
    var fx := res.lightingFX;
    var e0 := SetParam(Param(fx, NormalTexture), TargetValue(res.normalRT));
    var e1 := SetParam(Param(fx, DepthTexture), TargetValue(res.depthRT));
    var e2 := SetParam(Param(fx, InvViewProjection), MatrixValue(Inverse(Product(camera.view, camera.projection))));
    var e3 := SetParam(Param(fx, Viewport), Vector2Value(viewport));
    PhaseExtend(t0, t, e0, 3);
    PhaseExtend(t0, t + [e0], e1, 3);
    PhaseExtend(t0, t + [e0] + [e1], e2, 3);
    PhaseExtend(t0, t + [e0] + [e1] + [e2], e3, 3);
    var t4 := t + [e0] + [e1] + [e2] + [e3];
    PhaseExtend(t0, t4, SetRenderTargets([res.lightRT]), 3);
    PhaseExtend(t0, t4 + [SetRenderTargets([res.lightRT])], Clear(Black), 3);
    PhaseExtend(t0, t4 + [SetRenderTargets([res.lightRT])] + [Clear(Black)], SetBlend(AlphaBlend), 3);
    PhaseExtend(t0, t4 + [SetRenderTargets([res.lightRT])] + [Clear(Black)] + [SetBlend(AlphaBlend)], SetDepthStencil(DepthStencilNone), 3);
  }

  lemma LightMapPassPhase(t0: seq<Event>, t: seq<Event>, res: Resources, camera: Camera, ls: seq<Light>, viewport: Vec2)
    requires Phase(t0, t, 3)
    ensures Phase(t0, LightMapPass(t, res, camera, ls, viewport), 3)
  {
    var fx := res.lightingFX;
    LightMapProloguePhase(t0, t, res, camera, viewport);
    var pro := LightMapPrologue(t, res, camera, viewport);
    LightLoopPhase(t0, pro, fx, camera, ls);
    var u := LightLoop(pro, fx, camera, ls);
    PhaseExtend(t0, u, SetBlend(Opaque), 3);
    PhaseExtend(t0, u + [SetBlend(Opaque)], SetDepthStencil(DepthStencilDefault), 3);
    PhaseExtend(t0, u + [SetBlend(Opaque)] + [SetDepthStencil(DepthStencilDefault)], SetRenderTargets([]), 3);
  }

  lemma {:induction false} PrepareTracePhase(t0: seq<Event>, t: seq<Event>, ms: seq<Material>, lightRT: RenderTarget, viewport: Vec2)
    requires Phase(t0, t, 4)
    ensures Phase(t0, PrepareTrace(t, ms, lightRT, viewport), 4)
    decreases |ms|
  {
    if ms != [] {
      var m := ms[|ms| - 1];
      var u := PrepareTrace(t, ms[..|ms| - 1], lightRT, viewport);
      PrepareTracePhase(t0, t, ms[..|ms| - 1], lightRT, viewport);
      if SamplesLightMap(m) {
        var a := SetParam(Param(m.effect, LightMap), TargetValue(lightRT));
        PhaseExtend(t0, u, a, 4);
        PhaseExtend(t0, u + [a], SetParam(Param(m.effect, Viewport), Vector2Value(viewport)), 4);
      }
    }
  }

  /**
    Fixed pass order of a frame: the rebuild comes first, then every
    depth/normal draw, then every light-proxy draw, then every light-map
    bind, and the scene pass of the first camera is the last command.
  */
  lemma RenderPassOrder(res: Resources, scene: Scene, viewport: Vec2)
    requires |scene.cameras| > 0
    ensures var t := RenderTrace([], res, scene, viewport);
      && Phase([Inherited(RebuildRenderTargets)], t, 5)
      && t[|t| - 1] == Inherited(RenderSceneForCamera(scene.cameras[0]))
  {
    var camera := scene.cameras[0];
    var t0 := [Inherited(RebuildRenderTargets)];
    assert [] + t0 == t0;
    assert Phase(t0, t0, 2);
    DepthNormalPassPhase(t0, t0, res, camera, scene.renderList);
    var dn := DepthNormalPass(t0, res, camera, scene.renderList);
    LightMapPassPhase(t0, dn, res, camera, scene.lights, viewport);
    var lm := LightMapPass(dn, res, camera, scene.lights, viewport);
    PrepareTracePhase(t0, lm, scene.materials, res.lightRT, viewport);
    var pr := PrepareTrace(lm, scene.materials, res.lightRT, viewport);
    PhaseExtend(t0, pr, Inherited(RenderSceneForCamera(camera)), 5);
  }

  // ---------------------------------------------------------- the renderer

  class PreLightRenderer {
    const graphicsDevice: Device
    var viewport: Vec2
    var depthRT: RenderTarget?
    var normalRT: RenderTarget?
    var lightRT: RenderTarget?
    var depthNormalFX: Effect?
    var lightingFX: Effect?
    var isDisposed: bool
    /** Every object handed to `DisposeObject`, in order. */
    var released: seq<Resource>

    constructor (graphics: Device)
      ensures graphicsDevice == graphics && viewport == Vec2(0.0, 0.0)
      ensures depthRT == null && normalRT == null && lightRT == null
      ensures depthNormalFX == null && lightingFX == null
      ensures !isDisposed && released == []
    {
      graphicsDevice := graphics;
      viewport := Vec2(0.0, 0.0);
      depthRT, normalRT, lightRT := null, null, null;
      depthNormalFX, lightingFX := null, null;
      isDisposed := false;
      released := [];
    }

    /** Buffers exist and both programs declare what the passes write. */
    ghost predicate Ready()
      reads this
    {
      && depthRT != null && normalRT != null && lightRT != null
      && depthNormalFX != null && lightingFX != null
      && Declares(depthNormalFX, DepthNormalParameters)
      && Declares(lightingFX, LightingParameters)
    }

    function Res(): Resources
      reads this
      requires Ready()
    {
      Resources(depthNormalFX, lightingFX, depthRT, normalRT, lightRT)
    }

    method Initialize(content: Content)
      requires DepthNormalAsset in content && LightMapAsset in content
      modifies this, graphicsDevice
      ensures graphicsDevice.trace == old(graphicsDevice.trace) + [Inherited(BaseInitialize)]
      ensures viewport == Vec2(graphicsDevice.viewportWidth as real, graphicsDevice.viewportHeight as real)
      ensures fresh(depthRT) && fresh(normalRT) && fresh(lightRT)
      ensures depthRT.width == normalRT.width == lightRT.width == graphicsDevice.viewportWidth
      ensures depthRT.height == normalRT.height == lightRT.height == graphicsDevice.viewportHeight
      ensures depthRT.surface == SurfaceSingle && normalRT.surface == SurfaceColor && lightRT.surface == SurfaceColor
      ensures depthRT.depth == normalRT.depth == lightRT.depth == Depth24
      ensures depthNormalFX == content[DepthNormalAsset] && lightingFX == content[LightMapAsset]
      ensures isDisposed == old(isDisposed) && released == old(released)
      ensures graphicsDevice.State() == old(graphicsDevice.State())
      ensures graphicsDevice.viewportWidth == old(graphicsDevice.viewportWidth)
      ensures graphicsDevice.viewportHeight == old(graphicsDevice.viewportHeight)
    {
      graphicsDevice.Submit(Inherited(BaseInitialize));
      viewport := Vec2(graphicsDevice.viewportWidth as real, graphicsDevice.viewportHeight as real);
      CreateRenderTargets();
      depthNormalFX := content[DepthNormalAsset];
      lightingFX := content[LightMapAsset];
    }

    /** Releases the buffers and programs once; a second call does nothing. */
    method Dispose(disposing: bool)
      modifies this`isDisposed, this`released
      ensures isDisposed
      ensures old(isDisposed) || !disposing ==> released == old(released)
      ensures !old(isDisposed) && disposing ==>
        released == old(released) + [TargetResource(depthRT), TargetResource(normalRT), TargetResource(lightRT),
                                     EffectResource(depthNormalFX), EffectResource(lightingFX)]
    {
      if !isDisposed {
        if disposing {
          released := released + [TargetResource(depthRT)];
          released := released + [TargetResource(normalRT)];
          released := released + [TargetResource(lightRT)];
          released := released + [EffectResource(depthNormalFX)];
          released := released + [EffectResource(lightingFX)];
        }
        isDisposed := true;
      }
    }

    /** Depth (single float), normal and light buffers sized to the truncated viewport. */
    method CreateRenderTargets()
      modifies this`depthRT, this`normalRT, this`lightRT
      ensures fresh(depthRT) && fresh(normalRT) && fresh(lightRT)
      ensures depthRT.width == normalRT.width == lightRT.width == Truncate(viewport.x)
      ensures depthRT.height == normalRT.height == lightRT.height == Truncate(viewport.y)
      ensures depthRT.surface == SurfaceSingle && normalRT.surface == SurfaceColor && lightRT.surface == SurfaceColor
      ensures depthRT.depth == normalRT.depth == lightRT.depth == Depth24
    {
      depthRT := new RenderTarget(Truncate(viewport.x), Truncate(viewport.y), SurfaceSingle, Depth24);
      normalRT := new RenderTarget(Truncate(viewport.x), Truncate(viewport.y), SurfaceColor, Depth24);
      lightRT := new RenderTarget(Truncate(viewport.x), Truncate(viewport.y), SurfaceColor, Depth24);
    }

    method PreLightingPass(device: Device, scene: Scene, camera: Camera)
      requires Ready() && ViewportDeclared(scene.materials)
      modifies this`viewport, device
      ensures Ready()
      ensures viewport == Vec2(device.viewportWidth as real, device.viewportHeight as real)
      ensures device.trace == PreLightingTrace(old(device.trace), Res(), scene, camera, viewport)
      ensures device.State() == DeviceState([], Opaque, DepthStencilDefault,
        if AccumulatedLights(scene.lights) == [] then old(device.rasterizerState) else CullCounterClockwise)
    {
      viewport := Vec2(device.viewportWidth as real, device.viewportHeight as real);
      DrawDepthNormalMap(device, scene, camera);
      DrawLightMap(device, scene, camera);
      PrepareEffects(device, scene.materials);
    }

    method DrawDepthNormalMap(device: Device, scene: Scene, camera: Camera)
      requires Ready()
      modifies device
      ensures device.trace == DepthNormalPass(old(device.trace), Res(), camera, scene.renderList)
      ensures device.State() == old(device.State()).(targets := [])
      ensures device.viewportWidth == old(device.viewportWidth) && device.viewportHeight == old(device.viewportHeight)
    {
      var fx := depthNormalFX;
      device.Submit(SetParam(Param(fx, View), MatrixValue(camera.view)));
      device.Submit(SetParam(Param(fx, Projection), MatrixValue(camera.projection)));
      device.Submit(SetRenderTargets([normalRT, depthRT]));
      device.Submit(Clear(White));
      ghost var t1 := device.trace;
      ghost var s1 := device.State();
      var i := 0;
      while i < |scene.renderList|
        invariant 0 <= i <= |scene.renderList|
        invariant device.State() == s1
        invariant device.trace == DepthNormalLoop(t1, fx, scene.renderList[..i])
        invariant device.viewportWidth == old(device.viewportWidth) && device.viewportHeight == old(device.viewportHeight)
      {
        DrawDepthNormal(device, fx, scene.renderList[i]);
        assert scene.renderList[..i + 1][..i] == scene.renderList[..i];
        i := i + 1;
      }
      assert scene.renderList[..i] == scene.renderList;
      device.Submit(SetRenderTargets([]));
    }

    /** The body of the depth/normal loop: bind the world matrix, apply pass 0, draw the renderable. */
    method DrawDepthNormal(device: Device, fx: Effect, r: Renderable)
      requires Declares(fx, DepthNormalParameters)
      modifies device
      ensures device.trace == DepthNormalDraw(old(device.trace), fx, r)
      ensures device.State() == old(device.State())
      ensures device.viewportWidth == old(device.viewportWidth) && device.viewportHeight == old(device.viewportHeight)
    {
      device.Submit(SetParam(Param(fx, World), MatrixValue(r.world)));
      device.Submit(ApplyPass(PassRef(fx, 0)));
      device.Submit(Draw(Object(r.id)));
    }

    method DrawLightMap(device: Device, scene: Scene, camera: Camera)
      requires Ready()
      modifies device
      ensures device.trace == LightMapPass(old(device.trace), Res(), camera, scene.lights, viewport)
      ensures device.State() == DeviceState([], Opaque, DepthStencilDefault,
        if AccumulatedLights(scene.lights) == [] then old(device.rasterizerState) else CullCounterClockwise)
      ensures device.viewportWidth == old(device.viewportWidth) && device.viewportHeight == old(device.viewportHeight)
    {
      var fx := lightingFX;
      var viewProjection := Product(camera.view, camera.projection);
      var invViewProjection := Inverse(viewProjection);

      device.Submit(SetParam(Param(fx, NormalTexture), TargetValue(normalRT)));
      device.Submit(SetParam(Param(fx, DepthTexture), TargetValue(depthRT)));
      device.Submit(SetParam(Param(fx, InvViewProjection), MatrixValue(invViewProjection)));
      device.Submit(SetParam(Param(fx, Viewport), Vector2Value(viewport)));

      device.Submit(SetRenderTargets([lightRT]));
      device.Submit(Clear(Black));
      device.Submit(SetBlend(AlphaBlend));
      device.Submit(SetDepthStencil(DepthStencilNone));
      DrawLightVolumes(device, fx, camera, scene.lights, viewProjection);

      device.Submit(SetBlend(Opaque));
      device.Submit(SetDepthStencil(DepthStencilDefault));
      device.Submit(SetRenderTargets([]));
    }

    /** The light loop of the light-map pass: one light volume per light, in list order. */
    method DrawLightVolumes(device: Device, fx: Effect, camera: Camera, lights: seq<Light>, viewProjection: Matrix)
      requires Declares(fx, LightingParameters)
      requires viewProjection == Product(camera.view, camera.projection)
      modifies device
      ensures device.trace == LightLoop(old(device.trace), fx, camera, lights)
      ensures device.State() == old(device.State()).(rasterizer :=
        if AccumulatedLights(lights) == [] then old(device.rasterizerState) else CullCounterClockwise)
      ensures device.viewportWidth == old(device.viewportWidth) && device.viewportHeight == old(device.viewportHeight)
    {
      ghost var t0 := device.trace;
      ghost var s0 := device.State();
      var i := 0;
      while i < |lights|
        invariant 0 <= i <= |lights|
        invariant device.trace == LightLoop(t0, fx, camera, lights[..i])
        invariant device.State() == s0.(rasterizer :=
          if AccumulatedLights(lights[..i]) == [] then s0.rasterizer else CullCounterClockwise)
        invariant device.viewportWidth == old(device.viewportWidth) && device.viewportHeight == old(device.viewportHeight)
      {
        DrawLightVolume(device, fx, camera, lights[i], viewProjection);
        assert lights[..i + 1][..i] == lights[..i];
        i := i + 1;
      }
      assert lights[..i] == lights;
    }

    /** The body of the light loop: one light volume, or nothing for a real-time light. */
    method DrawLightVolume(device: Device, fx: Effect, camera: Camera, light: Light, viewProjection: Matrix)
      requires Declares(fx, LightingParameters)
      requires viewProjection == Product(camera.view, camera.projection)
      modifies device
      ensures device.trace == LightVolume(old(device.trace), fx, camera, light)
      ensures device.State() == old(device.State()).(rasterizer :=
        if Accumulated(light) then CullCounterClockwise else old(device.rasterizerState))
      ensures device.viewportWidth == old(device.viewportWidth) && device.viewportHeight == old(device.viewportHeight)
    {
      if light.backing != RealTime {
        var worldViewProjection := Product(Product(ScaleBy(light.range), light.world), viewProjection);
        device.Submit(SetParam(Param(fx, WorldViewProjection), MatrixValue(worldViewProjection)));
        device.Submit(SetParam(Param(fx, LightColor), ColorValue(light.color)));
        device.Submit(SetParam(Param(fx, LightAttenuation), RealValue(light.fallOff)));
        device.Submit(SetParam(Param(fx, LightPosition), Vector3Value(light.position)));
        device.Submit(SetParam(Param(fx, LightRange), RealValue(light.range)));
        device.Submit(SetParam(Param(fx, LightIntensity), RealValue(light.intensity)));

        if WithinDistance(camera.position, light.position, light.range) {
          device.Submit(SetRasterizer(CullClockwise));
        }

        device.Submit(ApplyPass(PassRef(fx, 0)));
        device.Submit(Draw(SphereProxy));

        device.Submit(SetRasterizer(CullCounterClockwise));
      }
    }

    method PrepareEffects(device: Device, materials: seq<Material>)
      requires Ready() && ViewportDeclared(materials)
      modifies device
      ensures device.trace == PrepareTrace(old(device.trace), materials, lightRT, viewport)
      ensures device.State() == old(device.State())
      ensures device.viewportWidth == old(device.viewportWidth) && device.viewportHeight == old(device.viewportHeight)
    {
      ghost var t0 := device.trace;
      var i := 0;
      while i < |materials|
        invariant 0 <= i <= |materials|
        invariant device.State() == old(device.State())
        invariant device.trace == PrepareTrace(t0, materials[..i], lightRT, viewport)
        invariant device.viewportWidth == old(device.viewportWidth) && device.viewportHeight == old(device.viewportHeight)
      {
        var effect := materials[i].effect;
        if effect != null && LightMap in effect.parameters {
          device.Submit(SetParam(Param(effect, LightMap), TargetValue(lightRT)));
          device.Submit(SetParam(Param(effect, Viewport), Vector2Value(viewport)));
        }
        assert materials[..i + 1][..i] == materials[..i];
        i := i + 1;
      }
      assert materials[..i] == materials;
    }

    /**
      One frame, seen through the first camera only. A scene without cameras
      gets as far as rebuilding the targets: reading `cameras[0]` then throws,
      which is `completed` being false.
    */
    method Render(scene: Scene) returns (completed: bool)
      requires Ready() && ViewportDeclared(scene.materials)
      modifies this`viewport, graphicsDevice
      ensures Ready()
      ensures completed <==> |scene.cameras| > 0
      ensures !completed ==>
        graphicsDevice.trace == old(graphicsDevice.trace) + [Inherited(RebuildRenderTargets)] && viewport == old(viewport)
      ensures completed ==> viewport == Vec2(graphicsDevice.viewportWidth as real, graphicsDevice.viewportHeight as real)
      ensures completed ==> graphicsDevice.trace == RenderTrace(old(graphicsDevice.trace), Res(), scene, viewport)
    {
      graphicsDevice.Submit(Inherited(RebuildRenderTargets));
      if |scene.cameras| == 0 {
        return false;
      }
      PreLightingPass(graphicsDevice, scene, scene.cameras[0]);
      graphicsDevice.Submit(Inherited(RenderSceneForCamera(scene.cameras[0])));
      completed := true;
    }
  }
}
