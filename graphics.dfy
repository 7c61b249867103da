/**
  Shared vocabulary of the rendering model.

  Everything the engine hands to the GPU is kept abstract: matrices are
  symbolic terms, colours and textures are opaque, and the graphics device is a
  command trace. The device also keeps the four pieces of pipeline state the
  renderer changes (render targets, blend, depth-stencil, rasterizer); each
  command changes them as `Step` says, so `Replay` of a trace gives the state
  it leaves behind.
*/
module Graphics {

  datatype Option<T> = None | Some(value: T)

  // ---------------------------------------------------------------- values

  datatype Vec2 = Vec2(x: real, y: real)
  datatype Vec3 = Vec3(x: real, y: real, z: real)
  datatype Vec4 = Vec4(x: real, y: real, z: real, w: real)

  /** A loaded texture asset; only its identity matters. */
  datatype TextureAsset = TextureAsset(id: nat)

  datatype Color = White | Black | Rgba(id: nat)

  /**
    Matrices are symbolic: the model records which products and inverses the
    renderer forms, never their entries.
  */
  datatype Matrix =
    | Mat(id: nat)
    | Identity
    | ScaleBy(factor: real)
    | Product(left: Matrix, right: Matrix)
    | Inverse(m: Matrix)

  datatype SurfaceFormat = SurfaceSingle | SurfaceColor
  datatype DepthFormat = NoDepth | Depth24

  /** An offscreen buffer; each `new` is a distinct GPU resource. */
  class RenderTarget {
    const width: int
    const height: int
    const surface: SurfaceFormat
    const depth: DepthFormat

    constructor (width: int, height: int, surface: SurfaceFormat, depth: DepthFormat)
      ensures this.width == width && this.height == height
      ensures this.surface == surface && this.depth == depth
    {
      this.width := width;
      this.height := height;
      this.surface := surface;
      this.depth := depth;
    }
  }

  /** A value written into a shader parameter. */
  datatype Value =
    | MatrixValue(m: Matrix)
    | Vector2Value(v2: Vec2)
    | Vector3Value(v3: Vec3)
    | Vector4Value(v4: Vec4)
    | ColorValue(c: Color)
    | ColorAsVector(cv: Color)          // Color.ToVector3()
    | RealValue(r: real)
    | IntValue(i: int)
    | BoolValue(b: bool)
    | TextureValue(t: Option<TextureAsset>)
    | TargetValue(rt: RenderTarget?)

  // ------------------------------------------------------ effects and handles

  /** The names of the shader parameters the engine's programs use. */
  datatype Uniform =
    | View | Projection | EyePosition | AmbientColor | World | TextureTiling | DiffuseColor
    | MainTexture | SpecularLightColor | SpecularPower | SpecularIntensity | LightColor
    | LightDirection | LightPosition | LightSpotAngle | LightIntensity | LightRange | LightFallOff
    | LightType | ShadowStrength | ShadowBias | ShadowMap | ShadowEnabled | FogColor | FogData
    | LightView | LightProjection | SpecularTextureEnabled | SpecularTexture | NormalTexture
    | DepthTexture | InvViewProjection | Viewport | WorldViewProjection | LightAttenuation
    | LightMap | Texture

  /**
    A loaded shader program: the names of the parameters it declares and the
    names of the passes of its current technique, in order.
  */
  class Effect {
    const asset: string
    const parameters: set<Uniform>
    const passes: seq<string>

    constructor (asset: string, parameters: set<Uniform>, passes: seq<string>)
      ensures this.asset == asset && this.parameters == parameters && this.passes == passes
    {
      this.asset := asset;
      this.parameters := parameters;
      this.passes := passes;
    }
  }

  /**
    The content manager: the effect stored under each asset path. Loading a
    path that is not there throws, so every load requires the path.
  */
  type Content = map<string, Effect>

  /** A resolved parameter handle (`EffectParameter`). */
  datatype Param = Param(effect: Effect, name: Uniform)

  /** A resolved technique pass (`EffectPass`), by position in the technique. */
  datatype PassRef = PassRef(effect: Effect, index: nat)

  /**
    `effect.Parameters[name]`. The handle records the program and the name it
    was asked for; MonoGame gives null for a name the program does not
    declare, which here is a handle that is not `Declared`. A write through
    such a handle is the engine's null dereference.
  */
  function Lookup(fx: Effect, name: Uniform): Option<Param> {
    Some(Param(fx, name))
  }

  /** The handle is not null: it was resolved and its program declares its name. */
  predicate Declared(h: Option<Param>) {
    h.Some? && h.value.name in h.value.effect.parameters
  }

  /** Position of the first pass called `name` among `names`. */
  function PassIndex(names: seq<string>, name: string): (r: Option<nat>)
    ensures r.None? <==> name !in names
    ensures r.Some? ==> r.value < |names| && names[r.value] == name
    ensures r.Some? ==> forall k | 0 <= k < r.value :: names[k] != name
  {
    if names == [] then None
    else if names[0] == name then Some(0)
    else
      match PassIndex(names[1..], name)
      case None => None
      case Some(k) => Some(k + 1)
  }

  /** `technique.Passes[name]`: null when the technique has no such pass. */
  function PassByName(fx: Effect?, name: string): (p: Option<PassRef>)
    ensures p.Some? <==> fx != null && name in fx.passes
    ensures p.Some? ==> p.value.effect == fx && p.value.index < |fx.passes|
                        && fx.passes[p.value.index] == name
    ensures p.Some? ==> forall k | 0 <= k < p.value.index :: fx.passes[k] != name
  {
    if fx == null then None
    else
      match PassIndex(fx.passes, name)
      case None => None
      case Some(k) => Some(PassRef(fx, k))
  }

  /** `technique.Passes[i]`. */
  function PassAt(fx: Effect?, i: nat): (p: Option<PassRef>)
    ensures p.Some? <==> fx != null && i < |fx.passes|
    ensures p.Some? ==> p.value == PassRef(fx, i)
  {
    if fx != null && i < |fx.passes| then Some(PassRef(fx, i)) else None
  }

  // -------------------------------------------------------- scene snapshot

  datatype LightRenderMode = RealTime | Baked

  datatype ShadowGenerator = ShadowGenerator(strength: real, bias: real, shadowMap: TextureAsset)

  datatype Light = Light(
    backing: LightRenderMode,
    color: Color,
    fallOff: real,
    position: Vec3,          // Transform.Position
    localPosition: Vec3,     // Transform.LocalPosition
    world: Matrix,
    direction: Vec3,
    angle: real,
    intensity: real,
    range: real,
    typeCode: int,           // (int)light.TypeLight
    shadow: Option<ShadowGenerator>,
    view: Matrix,
    projection: Matrix)

  datatype Camera = Camera(view: Matrix, projection: Matrix, position: Vec3, localPosition: Vec3)

  datatype Renderable = Renderable(id: nat, world: Matrix, receiveShadow: bool)

  datatype Material = Material(effect: Effect?)

  datatype Scene = Scene(
    renderList: seq<Renderable>,
    lights: seq<Light>,
    cameras: seq<Camera>,
    materials: seq<Material>)

  function SquaredDistance(a: Vec3, b: Vec3): real {
    (a.x - b.x) * (a.x - b.x) + (a.y - b.y) * (a.y - b.y) + (a.z - b.z) * (a.z - b.z)
  }

  /**
    `Vector3.Distance(a, b) < r`. Over the reals the distance is the square
    root of `SquaredDistance`, which is below `r` exactly when `r` is positive
    and the squared distance is below `r * r`.
  */
  predicate WithinDistance(a: Vec3, b: Vec3, r: real) {
    0.0 < r && SquaredDistance(a, b) < r * r
  }

  // ------------------------------------------------------------- the trace

  datatype BlendState = Opaque | AlphaBlend | Additive
  datatype DepthStencilState = DepthStencilDefault | DepthStencilRead | DepthStencilNone
  datatype RasterizerState = CullClockwise | CullCounterClockwise | CullNone

  datatype Drawable = Object(id: nat) | SphereProxy

  /** Steps of code this model does not see (base classes, MonoGame). */
  datatype InheritedStep =
    | BaseInitialize
    | RebuildRenderTargets
    | RenderSceneForCamera(camera: Camera)
    | BasePass(renderable: Renderable)

  datatype Event =
    | SetRenderTargets(targets: seq<RenderTarget>)   // [] is SetRenderTarget(null)
    | Clear(color: Color)
    | SetBlend(blend: BlendState)
    | SetDepthStencil(depthStencil: DepthStencilState)
    | SetRasterizer(rasterizer: RasterizerState)
    | SetParam(param: Param, value: Value)
    | ApplyPass(pass: PassRef)
    | Draw(drawable: Drawable)
    | Inherited(step: InheritedStep)

  /**
    An event the device can carry out: a parameter write goes through a handle
    the effect declares and an applied pass exists. Anything else is a null
    dereference or an index error in the engine.
  */
  predicate Executable(e: Event) {
    && (e.SetParam? ==> e.param.name in e.param.effect.parameters)
    && (e.ApplyPass? ==> e.pass.index < |e.pass.effect.passes|)
  }

  datatype DeviceState = DeviceState(
    targets: seq<RenderTarget>,
    blend: BlendState,
    depthStencil: DepthStencilState,
    rasterizer: RasterizerState)

  /** The state MonoGame gives a fresh device. */
  const DefaultState := DeviceState([], Opaque, DepthStencilDefault, CullCounterClockwise)

  function Step(s: DeviceState, e: Event): DeviceState {
    match e
    case SetRenderTargets(ts) => s.(targets := ts)
    case SetBlend(b) => s.(blend := b)
    case SetDepthStencil(d) => s.(depthStencil := d)
    case SetRasterizer(r) => s.(rasterizer := r)
    case _ => s
  }

  /** The device state after carrying out `t` from `s`. */
  function Replay(s: DeviceState, t: seq<Event>): DeviceState
    decreases |t|
  {
    if t == [] then s else Step(Replay(s, t[..|t| - 1]), t[|t| - 1])
  }

  /** Events that leave the pipeline state alone. */
  predicate Stateless(e: Event) {
    e.Clear? || e.SetParam? || e.ApplyPass? || e.Draw? || e.Inherited?
  }

  lemma {:induction false} ReplayConcat(s: DeviceState, a: seq<Event>, b: seq<Event>)
    ensures Replay(s, a + b) == Replay(Replay(s, a), b)
    decreases |b|
  {
    if b == [] {
      assert a + b == a;
    } else {
      var b' := b[..|b| - 1];
      assert (a + b)[..|a + b| - 1] == a + b';
      ReplayConcat(s, a, b');
    }
  }

  lemma {:induction false} ReplayStateless(s: DeviceState, t: seq<Event>)
    requires forall k | 0 <= k < |t| :: Stateless(t[k])
    ensures Replay(s, t) == s
    decreases |t|
  {
    if t != [] {
      ReplayStateless(s, t[..|t| - 1]);
    }
  }

  /** Carrying out `t` one more event extends the replay by one step. */
  lemma ReplayLast(s: DeviceState, t: seq<Event>, e: Event)
    ensures Replay(s, t + [e]) == Step(Replay(s, t), e)
  {
    assert (t + [e])[..|t + [e]| - 1] == t;
  }

  // ------------------------------------------------ what a trace writes

  /** Names of the shader parameters `t` writes. */
  function Written(t: seq<Event>): set<Uniform>
    decreases |t|
  {
    if t == [] then {}
    else
      var e := t[|t| - 1];
      Written(t[..|t| - 1]) + if e.SetParam? then {e.param.name} else {}
  }

  /** The technique passes `t` applies, in order. */
  function Applied(t: seq<Event>): seq<PassRef>
    decreases |t|
  {
    if t == [] then []
    else
      var e := t[|t| - 1];
      Applied(t[..|t| - 1]) + if e.ApplyPass? then [e.pass] else []
  }

  /** The value `t` leaves in parameter `p`: the last one written through it, if any. */
  function ValueOf(t: seq<Event>, p: Param): Option<Value>
    decreases |t|
  {
    if t == [] then None
    else
      var e := t[|t| - 1];
      if e.SetParam? && e.param == p then Some(e.value) else ValueOf(t[..|t| - 1], p)
  }

  /** `Written` collects exactly the names of the parameter writes in the trace. */
  lemma {:induction false} WrittenNames(t: seq<Event>, name: Uniform)
    ensures name in Written(t) <==> exists k | 0 <= k < |t| :: t[k].SetParam? && t[k].param.name == name
    decreases |t|
  {
    if t != [] {
      var u := t[..|t| - 1];
      WrittenNames(u, name);
      if name in Written(u) {
        var k :| 0 <= k < |u| && u[k].SetParam? && u[k].param.name == name;
        assert t[k] == u[k];
      }
      if exists k | 0 <= k < |t| :: t[k].SetParam? && t[k].param.name == name {
        var k :| 0 <= k < |t| && t[k].SetParam? && t[k].param.name == name;
        if k < |u| {
          assert u[k] == t[k];
        }
      }
    }
  }

  /** `Applied` lists the applied passes of the trace, in trace order. */
  lemma {:induction false} AppliedPasses(t: seq<Event>)
    ensures |Applied(t)| <= |t|
    ensures forall k | 0 <= k < |t| :: t[k].ApplyPass? ==> t[k].pass in Applied(t)
    ensures forall j | 0 <= j < |Applied(t)| :: ApplyPass(Applied(t)[j]) in t
    decreases |t|
  {
    if t != [] {
      var u := t[..|t| - 1];
      AppliedPasses(u);
      assert forall k | 0 <= k < |u| :: u[k] == t[k];
      assert forall e | e in u :: e in t;
    }
  }

  /** `ValueOf` is the value of the last write through `p`, and nothing when there is none. */
  lemma {:induction false} ValueOfLastWrite(t: seq<Event>, p: Param)
    ensures ValueOf(t, p).None? <==> forall k | 0 <= k < |t| :: !(t[k].SetParam? && t[k].param == p)
    ensures ValueOf(t, p).Some? ==> exists k | 0 <= k < |t| ::
      && t[k] == SetParam(p, ValueOf(t, p).value)
      && forall j | k < j < |t| :: !(t[j].SetParam? && t[j].param == p)
    decreases |t|
  {
    if t != [] {
      var u := t[..|t| - 1];
      ValueOfLastWrite(u, p);
      assert forall k | 0 <= k < |u| :: u[k] == t[k];
      var e := t[|t| - 1];
      if !(e.SetParam? && e.param == p) && ValueOf(u, p).Some? {
        var k :| 0 <= k < |u| && u[k] == SetParam(p, ValueOf(u, p).value)
                 && forall j | k < j < |u| :: !(u[j].SetParam? && u[j].param == p);
        assert t[k] == SetParam(p, ValueOf(t, p).value);
      }
    }
  }

  /** How one more event changes what the trace writes and applies. */
  lemma QueriesLast(t: seq<Event>, e: Event)
    ensures Written(t + [e]) == Written(t) + if e.SetParam? then {e.param.name} else {}
    ensures Applied(t + [e]) == Applied(t) + if e.ApplyPass? then [e.pass] else []
  {
    assert (t + [e])[..|t + [e]| - 1] == t;
  }

  /** How one more event changes the value left in parameter `p`. */
  lemma ValueOfLast(t: seq<Event>, e: Event, p: Param)
    ensures ValueOf(t + [e], p) == if e.SetParam? && e.param == p then Some(e.value) else ValueOf(t, p)
  {
    assert (t + [e])[..|t + [e]| - 1] == t;
  }

  /**
    `MonoGame.GraphicsDevice`, reduced to its viewport, its pipeline state and
    the command trace submitted to it.
  */
  class Device {
    var viewportWidth: int
    var viewportHeight: int
    var renderTargets: seq<RenderTarget>
    var blendState: BlendState
    var depthStencilState: DepthStencilState
    var rasterizerState: RasterizerState
    var trace: seq<Event>

    function State(): DeviceState
      reads this
    {
      DeviceState(renderTargets, blendState, depthStencilState, rasterizerState)
    }

    constructor (width: int, height: int)
      ensures trace == [] && State() == DefaultState
      ensures viewportWidth == width && viewportHeight == height
    {
      viewportWidth, viewportHeight := width, height;
      renderTargets, blendState := [], Opaque;
      depthStencilState, rasterizerState := DepthStencilDefault, CullCounterClockwise;
      trace := [];
    }

    /** Carries out one command: appends it to the trace and changes the state as `Step` does. */
    method Submit(e: Event)
      requires Executable(e)
      modifies this
      ensures trace == old(trace) + [e]
      ensures renderTargets == if e.SetRenderTargets? then e.targets else old(renderTargets)
      ensures blendState == if e.SetBlend? then e.blend else old(blendState)
      ensures depthStencilState == if e.SetDepthStencil? then e.depthStencil else old(depthStencilState)
      ensures rasterizerState == if e.SetRasterizer? then e.rasterizer else old(rasterizerState)
      ensures viewportWidth == old(viewportWidth) && viewportHeight == old(viewportHeight)
    {
      var s := Step(State(), e);
      renderTargets, blendState := s.targets, s.blend;
      depthStencilState, rasterizerState := s.depthStencil, s.rasterizer;
      trace := trace + [e];
    }
  }
}
