# C3DE rendering core, modelled in Dafny

C3DE is a MonoGame-based 3D engine. This project models six of its parts:

- the light-pre-pass renderer (`PreLightRenderer`). Per frame it renders depth and normals, accumulates the non-real-time lights into a light buffer with a sphere proxy, binds that buffer into every material that samples it, and hands over to the forward scene pass;
- the forward standard material shader (`StandardForwardBase`), with its `LoadEffect` / `PrePass` / `Pass` / `LightPass` protocol;
- the deferred skybox shader (`DeferredSkybox`);
- the deferred standard water shader (`DeferredStandardWater`);
- the editor's selection holder (`SceneObjectSelector`);
- the demo's post-processing switcher (`PostProcessSwitcher`).

The graphics device is a class whose `trace` records every command in order. The commands are:

- shader-parameter writes through handles;
- pass applies;
- draws;
- render-target, blend, depth-stencil and rasterizer changes;
- steps of base classes this model does not see.

Besides the trace, the device keeps the four pieces of pipeline state. `Replay` computes the state a trace leaves behind.

Each method that drives the device is proved to append exactly the trace given by a specification function. Lemmas then state what those traces guarantee:

- which parameters a phase writes;
- which value each parameter ends up holding;
- which passes are applied, and in what order;
- the pipeline state left behind;
- the order of the renderer's phases in a frame.

Shader parameter names form the enum `Uniform`. A handle from `effect.Parameters[name]` is `Lookup(fx, name)`. A handle for a name the program does not declare is MonoGame's null handle. Writing through it is a null dereference in the engine, so every write requires the name to be declared.

Three facts about the code that the model keeps:

- Writes through parameter handles are not guarded. A handle for a name the program does not declare is null, and writing through it throws, so the model requires every written parameter to be declared.
- `PreLightingPass` only refreshes the viewport vector; it does not recreate the offscreen buffers. Within `PreLightRenderer` only `Initialize` calls `CreateRenderTargets`, which is public, so code outside the class may call it too (the base `RebuildRenderTargets` is not part of this model).
- `Dispose` releases the buffers and programs only when `disposing` is true, and it sets the disposed flag either way.

Modules: `Graphics` (graphics.dfy), `PreLighting`, `StandardForward`, `DeferredSky`, `DeferredWater`, `Selection` and `PostProcessing`, one module per source file.

## Model

| member | source | states |
|---|---|---|
| PreLighting.PreLightRenderer.constructor | C3DE/Graphics/Rendering/PreLightRenderer.cs:14-27 | a new renderer holds the given device, no buffers, no programs, and is not disposed |
| PreLighting.PreLightRenderer.Initialize | C3DE/Graphics/Rendering/PreLightRenderer.cs:29-38 | runs the base initialisation, then takes the viewport from the device size. It creates three new buffers of that size: depth `Single`, normal and light `Color`, all with `Depth24`. It loads the two pre-lighting programs from their asset names. The device's size and pipeline state stay as they were |
| PreLighting.PreLightRenderer.Dispose | C3DE/Graphics/Rendering/PreLightRenderer.cs:46-60 | afterwards the renderer is disposed. The three buffers and two programs are released, in that order, only on the first call with `disposing`; any other call releases nothing |
| PreLighting.PreLightRenderer.CreateRenderTargets | C3DE/Graphics/Rendering/PreLightRenderer.cs:62-67 | three new buffers, sized by the viewport truncated toward zero, with the same formats as in `Initialize` |
| PreLighting.Truncate | C3DE/Graphics/Rendering/PreLightRenderer.cs:64-66 | the `(int)` cast of a float: the nearest integer toward zero, within 1 of the argument |
| PreLighting.PreLightRenderer.PreLightingPass | C3DE/Graphics/Rendering/PreLightRenderer.cs:69-77 | refreshes the viewport from the device, then appends the depth/normal pass, the light pass and the material binds. It leaves default targets, blend and depth-stencil. The rasterizer is counter-clockwise culling when some light was drawn, and unchanged otherwise |
| PreLighting.PreLightingRestores | C3DE/Graphics/Rendering/PreLightRenderer.cs:69-77 | the whole pre-lighting trace, replayed from any state, leaves no render target, opaque blending and the default depth-stencil. The rasterizer is counter-clockwise culling if any light was drawn, and as it was otherwise |
| PreLighting.PreLightRenderer.DrawDepthNormalMap | C3DE/Graphics/Rendering/PreLightRenderer.cs:79-95 | appends `DepthNormalPass` and leaves the device state as it was, except that the render target is the back buffer |
| PreLighting.PreLightRenderer.DrawDepthNormal | C3DE/Graphics/Rendering/PreLightRenderer.cs:89-91 | one renderable: a World write, pass 0 and a draw of that object; the pipeline state is unchanged |
| PreLighting.DepthNormalLoopShape | C3DE/Graphics/Rendering/PreLightRenderer.cs:87-92 | the loop keeps the prefix and appends exactly three commands per renderable, in render-list order |
| PreLighting.DepthNormalLoopState | C3DE/Graphics/Rendering/PreLightRenderer.cs:87-92 | the per-renderable commands leave the pipeline state unchanged |
| PreLighting.DepthNormalPrologueState | C3DE/Graphics/Rendering/PreLightRenderer.cs:81-85 | after the camera binds and the clear, the targets are the normal and depth buffers, in that order |
| PreLighting.DepthNormalRestores | C3DE/Graphics/Rendering/PreLightRenderer.cs:79-95 | the depth/normal pass ends with the back buffer as target and the rest of the state as it found it |
| PreLighting.PreLightRenderer.DrawLightMap | C3DE/Graphics/Rendering/PreLightRenderer.cs:97-146 | appends `LightMapPass`. It leaves the back buffer, opaque blending and the default depth-stencil. The rasterizer is counter-clockwise culling if any light was drawn |
| PreLighting.PreLightRenderer.DrawLightVolumes | C3DE/Graphics/Rendering/PreLightRenderer.cs:117-141 | the light loop appends `LightLoop` over the scene's lights, in order |
| PreLighting.PreLightRenderer.DrawLightVolume | C3DE/Graphics/Rendering/PreLightRenderer.cs:119-140 | one light: nothing for a real-time light. Otherwise: the six light binds, clockwise culling when the camera is inside, pass 0, a proxy draw, and counter-clockwise culling |
| PreLighting.AccumulatedLights | C3DE/Graphics/Rendering/PreLightRenderer.cs:121 | the lights kept by the loop's filter: every kept light is one of the input lights with a backing other than real-time, and every such input light is kept |
| PreLighting.AccumulatedLightsMultiplicity | C3DE/Graphics/Rendering/PreLightRenderer.cs:117-121 | the filter keeps each non-real-time light as many times as the list holds it, and no real-time light at all |
| PreLighting.LightVolumeCulling | C3DE/Graphics/Rendering/PreLightRenderer.cs:121-140 | a real-time light adds nothing. For a drawn light, the proxy is drawn with clockwise culling exactly when the camera is strictly within range, and otherwise with the culling already in force; afterwards the culling is counter-clockwise |
| PreLighting.LightVolumeInside | C3DE/Graphics/Rendering/PreLightRenderer.cs:131-134 | a light's commands switch to clockwise culling if and only if the light is drawn and the camera is strictly inside its range |
| PreLighting.LightBindsState | C3DE/Graphics/Rendering/PreLightRenderer.cs:123-129 | the six light-parameter writes change no pipeline state |
| PreLighting.LightBindsProxyDraws | C3DE/Graphics/Rendering/PreLightRenderer.cs:123-129 | the light-parameter writes draw no proxy |
| PreLighting.RealTimeLightsSkipped | C3DE/Graphics/Rendering/PreLightRenderer.cs:117-121 | the loop over all lights emits exactly what the loop over the non-real-time lights emits |
| PreLighting.LightVolumeProxyDraws | C3DE/Graphics/Rendering/PreLightRenderer.cs:121-140 | one light adds one proxy draw if it is drawn and none otherwise |
| PreLighting.ProxyDrawPerLight | C3DE/Graphics/Rendering/PreLightRenderer.cs:117-141 | the light loop draws the proxy exactly once per non-real-time light |
| PreLighting.LightLoopState | C3DE/Graphics/Rendering/PreLightRenderer.cs:117-141 | the light loop changes only the rasterizer, to counter-clockwise culling, and only if some light was drawn |
| PreLighting.LightMapPrologueState | C3DE/Graphics/Rendering/PreLightRenderer.cs:107-115 | after the binds and clear: the light buffer as target, alpha blending and no depth-stencil |
| PreLighting.LightMapRestores | C3DE/Graphics/Rendering/PreLightRenderer.cs:107-145 | the light pass ends on the back buffer with opaque blending and the default depth-stencil |
| PreLighting.PreLightRenderer.PrepareEffects | C3DE/Graphics/Rendering/PreLightRenderer.cs:148-162 | appends `PrepareTrace` over the materials and leaves the pipeline state unchanged |
| PreLighting.PrepareTraceBinds | C3DE/Graphics/Rendering/PreLightRenderer.cs:152-161 | a command is in the result if and only if it was already there or is a light-map or viewport bind of a material whose shader samples the light map |
| PreLighting.UntouchedMaterials | C3DE/Graphics/Rendering/PreLightRenderer.cs:156 | a material without a `LightMap` parameter (or with no effect) is never written |
| PreLighting.PrepareTraceState | C3DE/Graphics/Rendering/PreLightRenderer.cs:148-162 | the material binds change no pipeline state |
| PreLighting.PreLightRenderer.Render | C3DE/Graphics/Rendering/PreLightRenderer.cs:164-169 | a frame: rebuild targets, pre-lighting through the first camera, then the scene pass for that camera. Without cameras the frame stops after the rebuild and reports it did not complete |
| PreLighting.RenderPassOrder | C3DE/Graphics/Rendering/PreLightRenderer.cs:164-169 | in a frame's trace: the rebuild, then every object draw, then every proxy draw, then every light-map bind, and last the scene pass for the first camera |
| Graphics.PassByName | C3DE/Graphics/Materials/Shaders/StandardForwardBase.cs:57-58 | `Passes[name]` is the first pass of the program's technique with that name, and is absent if and only if the technique has none |
| StandardForward.StandardForwardBase.constructor | C3DE/Graphics/Materials/Shaders/StandardForwardBase.cs:14-52 | holds the material, specular colour (0.6, 0.6, 0.6), nothing loaded |
| StandardForward.StandardForwardBase.LoadEffect | C3DE/Graphics/Materials/Shaders/StandardForwardBase.cs:54-88 | loads `Shaders/Forward/Standard`. Every handle is the program's handle for its own name (tiling from `TextureTiling`). The two passes are those named `AmbientPass` and `LightPass` |
| StandardForward.StandardForwardBase.PrePass | C3DE/Graphics/Materials/Shaders/StandardForwardBase.cs:90-96 | appends `PrePassTrace` and changes no pipeline state |
| StandardForward.PrePassBinds | C3DE/Graphics/Materials/Shaders/StandardForwardBase.cs:90-96 | writes exactly View, Projection, EyePosition and AmbientColor, applies no pass, and leaves the camera's local position as the eye position |
| StandardForward.StandardForwardBase.Pass | C3DE/Graphics/Materials/Shaders/StandardForwardBase.cs:98-105 | appends `PassTrace` and changes no pipeline state |
| StandardForward.PassBinds | C3DE/Graphics/Materials/Shaders/StandardForwardBase.cs:98-105 | writes exactly World, TextureTiling, DiffuseColor and MainTexture. It applies the ambient pass exactly once, as the last command |
| StandardForward.StandardForwardBase.LightPass | C3DE/Graphics/Materials/Shaders/StandardForwardBase.cs:107-137 | appends `LightPassTrace`, with the fog binds only when `desktop` is false. It needs a light with a shadow generator |
| StandardForward.StandardForwardBase.BindLight | C3DE/Graphics/Materials/Shaders/StandardForwardBase.cs:109-119 | appends the specular and light binds, in source order |
| StandardForward.LightBindsWrites | C3DE/Graphics/Materials/Shaders/StandardForwardBase.cs:109-119 | writes exactly the eleven specular and light parameters and applies nothing. LightType ends up holding the light's type code |
| StandardForward.LightBindsFrame | C3DE/Graphics/Materials/Shaders/StandardForwardBase.cs:109-119 | every parameter outside those eleven keeps its value |
| StandardForward.FogBindsWrites | C3DE/Graphics/Materials/Shaders/StandardForwardBase.cs:121-126 | writes FogColor and FogData exactly when not `DESKTOP`. FogColor then holds the scene's fog colour; under `DESKTOP` it keeps its earlier value |
| StandardForward.FogBindsFrame | C3DE/Graphics/Materials/Shaders/StandardForwardBase.cs:121-126 | every non-fog parameter keeps its value |
| StandardForward.StandardForwardBase.BindShadow | C3DE/Graphics/Materials/Shaders/StandardForwardBase.cs:127-136 | appends the shadow and specular-texture binds, then the light pass. The generator is read without a null check, so a generator is required |
| StandardForward.ShadowBindsWrites | C3DE/Graphics/Materials/Shaders/StandardForwardBase.cs:127-136 | writes exactly the eight shadow and specular-texture parameters and applies the light pass once. ShadowEnabled is the renderer's receive-shadow flag; SpecularTextureEnabled is whether a specular texture is set |
| StandardForward.ShadowBindsFrame | C3DE/Graphics/Materials/Shaders/StandardForwardBase.cs:127-136 | every parameter outside those eight keeps its value |
| StandardForward.LightPassBinds | C3DE/Graphics/Materials/Shaders/StandardForwardBase.cs:107-137 | writes the light, shadow and specular parameters, plus the fog parameters exactly when not `DESKTOP`. It applies the light pass once, last. Afterwards: SpecularTextureEnabled = texture present, ShadowEnabled = receive shadow, LightType = type code, and FogColor as in the fog rule |
| DeferredSky.DeferredSkybox.constructor | C3DE/Graphics/Materials/Shaders/Deferred/DeferredSkybox.cs:20-23 | holds the skybox; no program loaded; no handle resolved |
| DeferredSky.DeferredSkybox.LoadEffect | C3DE/Graphics/Materials/Shaders/Deferred/DeferredSkybox.cs:25-34 | loads `Shaders/Deferred/Skybox` and resolves View, Projection, EyePosition and World by name, and the main texture from `Texture`. The fog handles are left untouched |
| DeferredSky.DeferredSkybox.Pass | C3DE/Graphics/Materials/Shaders/Deferred/DeferredSkybox.cs:36-38 | emits nothing |
| DeferredSky.DeferredSkybox.PrePass | C3DE/Graphics/Materials/Shaders/Deferred/DeferredSkybox.cs:40-48 | appends `SkyboxPrePassTrace` for the skybox's current world matrix and texture |
| DeferredSky.SkyboxPrePassBinds | C3DE/Graphics/Materials/Shaders/Deferred/DeferredSkybox.cs:40-48 | writes exactly World, Projection, View, Texture and EyePosition. They hold the sky's matrix, the camera's projection and view, the sky's texture and the camera's world position. It then applies pass 0 once, last |
| DeferredWater.DeferredStandardWater.constructor | C3DE/Graphics/Materials/Shaders/Deferred/DeferredStandardWater.cs:9-11 | holds the material; nothing loaded |
| DeferredWater.DeferredStandardWater.SetupParameters | C3DE/Graphics/Materials/Shaders/Deferred/DeferredStandardWater.cs:16 | the inherited setup: specular handles resolved by name, and an ambient pass of its own choosing |
| DeferredWater.DeferredStandardWater.LoadEffect | C3DE/Graphics/Materials/Shaders/Deferred/DeferredStandardWater.cs:13-18 | loads `Shaders/Deferred/StandardWater` and runs setup. The technique must have a pass; the ambient pass ends as its first pass, whatever setup chose |
| DeferredWater.DeferredStandardWater.Pass | C3DE/Graphics/Materials/Shaders/Deferred/DeferredStandardWater.cs:20-28 | appends `WaterPassTrace` and changes no pipeline state |
| DeferredWater.WaterPassBinds | C3DE/Graphics/Materials/Shaders/Deferred/DeferredStandardWater.cs:20-28 | writes exactly the five specular parameters and applies no pass of its own. They hold the colour as a vector, the shininess, the intensity, whether a texture is set, and the texture. The inherited pass runs once, last |
| Selection.SceneObject.BoxRenderer | C3DE.Editor/Core/SceneObjectSelector.cs:15 | the object's first bounding-box renderer (element 0 of its list), which is null if and only if it has none |
| Selection.SceneObject.Renderable | C3DE.Editor/Core/SceneObjectSelector.cs:19 | the object's first renderable component (element 0 of its list), which is null if and only if it has none |
| Selection.SceneObject.AddBoxRenderer | C3DE.Editor/Core/SceneObjectSelector.cs:17 | a new, enabled renderer appended to the object |
| Selection.SceneObjectSelector.constructor | C3DE.Editor/Core/SceneObjectSelector.cs:7-9 | nothing selected, nothing held |
| Selection.SceneObjectSelector.Set | C3DE.Editor/Core/SceneObjectSelector.cs:11-20 | `o` is selected and equal to the selection. The box renderer is the object's existing one, or exactly one newly added when it had none. The renderer is the object's first renderable component |
| Selection.SceneObjectSelector.Select | C3DE.Editor/Core/SceneObjectSelector.cs:22-35 | with a selection, the box renderer's `enabled` becomes `isSelected`. Deselecting also clears the object, the box renderer and the renderer. With no selection nothing changes |
| Selection.SceneObjectSelector.IsEqualTo | C3DE.Editor/Core/SceneObjectSelector.cs:37-43 | true only for the selected object, and never when nothing is selected, not even for null |
| Selection.SceneObjectSelector.IsNull | C3DE.Editor/Core/SceneObjectSelector.cs:45-48 | nothing is selected if and only if the selector is not equal to its own selection |
| Selection.NullEqualsNothing | C3DE.Editor/Core/SceneObjectSelector.cs:37-48 | nothing is selected if and only if no object at all is equal to the selection |
| PostProcessing.PostProcessSwitcher.constructor | C3DE.Demo/Scripts/PostProcessSwitcher.cs:26-30 | an empty pass list and no widgets |
| PostProcessing.PostProcessSwitcher.AddPostProcess | C3DE.Demo/Scripts/PostProcessSwitcher.cs:130-135 | the pass is disabled, added to the scene and appended to the list |
| PostProcessing.PostProcessSwitcher.SetPassActive | C3DE.Demo/Scripts/PostProcessSwitcher.cs:137-140 | pass `index` flips and every other pass keeps its flag |
| PostProcessing.PostProcessSwitcher.AddPasses | C3DE.Demo/Scripts/PostProcessSwitcher.cs:37-65 | one new, disabled, scene-registered pass per kind of `PassKinds(desktop)`, in order |
| PostProcessing.TitlesMatchPasses | C3DE.Demo/Scripts/PostProcessSwitcher.cs:37-83 | in both builds there are as many titles as passes (12 with `DESKTOP`, 13 without), and title `i` names pass `i` |
| PostProcessing.PostProcessSwitcher.LayoutWidgets | C3DE.Demo/Scripts/PostProcessSwitcher.cs:85-100 | the box is (width−220, 10, 210, 45·count). Widget `i` has the closed-form rectangle `WidgetRect(box, i)`, title `i` and the extended highlight rectangle |
| PostProcessing.PostProcessSwitcher.Start | C3DE.Demo/Scripts/PostProcessSwitcher.cs:32-100 | the passes of `AddPasses`, then the layout of `LayoutWidgets` for the titles of the same build |
| PostProcessing.WidgetSteps | C3DE.Demo/Scripts/PostProcessSwitcher.cs:94-97 | the closed form agrees with the source's recurrence: widget 0 at (box.X+10, box.Y+30, box.Width−20, 30), each later one 40 lower |
| PostProcessing.Ext | C3DE.Demo/Scripts/PostProcessSwitcher.cs:99 | the highlight extends one unit left and one unit up, with the same right and bottom edges |
| PostProcessing.WidgetsInsideBox | C3DE.Demo/Scripts/PostProcessSwitcher.cs:85-99 | with four or more buttons, every button and its highlight lie inside the box |
| PostProcessing.WidgetsApart | C3DE.Demo/Scripts/PostProcessSwitcher.cs:94-97 | a later button starts at least 10 below the bottom of an earlier one |
| PostProcessing.AfterClicks | C3DE.Demo/Scripts/PostProcessSwitcher.cs:120-127 | the flags after a frame, as the loop produces them: one toggle per clicked button, in button order. The result has one flag per pass |
| PostProcessing.AfterClicksFlips | C3DE.Demo/Scripts/PostProcessSwitcher.cs:120-127 | after a frame, pass `i` is flipped exactly when button `i` was clicked; a pass without a button keeps its flag |
| PostProcessing.ClickTwiceRestores | C3DE.Demo/Scripts/PostProcessSwitcher.cs:137-140 | toggling the same passes twice restores every flag |
| PostProcessing.PostProcessSwitcher.OnGui | C3DE.Demo/Scripts/PostProcessSwitcher.cs:116-128 | button `i` is highlighted exactly when pass `i` was on at the start of the frame. Afterwards the flags are `AfterClicks` of the old flags |

## Left out

- Floating point: colours, vectors and shader values are reals or opaque values. Matrices are symbolic terms (products, inverses, scalings); their entries are never computed. `Vector3.Distance(a, b) < r` is the exact real predicate `WithinDistance`.
- 32-bit integer overflow: the rectangle arithmetic of the switcher and the buffer sizes are unbounded integers.
- GPU programs: what the shaders compute from their parameters. An effect is its set of parameter names and its list of pass names.
- MonoGame's `ContentManager`: the content is a map from asset name to program. A load requires its asset to be present; a missing asset throws in the engine.
- Null handles: a write through a handle whose name the program does not declare is required never to happen, since it is a null dereference in the code.
- The base `ForwardRenderer` is not part of this model. `base.Initialize`, `RebuildRenderTargets` and `RenderSceneForCamera` are opaque `Inherited` trace steps. `DisposeObject` appends to a `released` list.
- PreLightRenderer: the light mesh built in `Initialize` (lines 40-43, a `GameObject`, `MeshRenderer` and `SphereGeometry`) is not modelled; drawing it is the `Draw(SphereProxy)` command.
- StandardForwardBase: the material members `Tiling`, `m_DiffuseColor`, `MainTexture`, `Shininess`, `SpecularIntensity` and `SpecularTexture`, and the render settings `scene.RenderSettings` / `Scene.current.RenderSettings`, come from base classes that are not part of this model. They are the `StandardMaterial` and `RenderSettings` values.
- StandardForwardBase: the handle fields are grouped into five records by the phase that writes through them.
- StandardForwardBase: the `DESKTOP` compilation symbol is the `desktop` parameter; the same holds in the switcher.
- StandardForward.LightBindsWrites: states the final value of LightType only. The other ten parameters' values are fixed by `LightBinds` but have no lemma of their own.
- StandardForward.ShadowBindsWrites: states the final values of ShadowEnabled and SpecularTextureEnabled only. Shadow strength, bias and map are fixed by `ShadowBinds` but have no lemma of their own.
- DeferredStandardWater: `ForwardStandardWater` is not part of this model. Its `SetupParamaters` is assumed to resolve the five specular handles by their own names; the ambient pass it picks is a parameter. `base.Pass` is the opaque `Inherited(BasePass(r))` step.
- SceneObjectSelector: `GetComponent` and `AddComponent` act on two typed component lists of the scene object. A newly added bounding-box renderer is assumed to start enabled. Component life-cycle calls are not modelled.
- PostProcessSwitcher: the GUI primitives `Box`, `DrawTexture` and `Button` are left out. The clicks a frame receives are the `clicked` input; the highlights drawn are the returned flags.
- PostProcessSwitcher: `Update` (toggling `GUI.Enabled`) is left out; it only reads input devices.
- PostProcessSwitcher: the background texture is left out.
- PostProcessSwitcher: the fog and skybox settings at the end of `Start` are left out.
- PostProcessSwitcher: the refraction texture and tiling set in `Start`, and the passes' own effects, are left out.
- PostProcessing.PostProcessSwitcher.AddPasses: the source's twelve or thirteen consecutive `AddPostProcess(new …)` calls are one loop over the list of pass kinds. The list is in the same order.
- PostProcessing.PostProcessSwitcher.OnGui: requires at least as many passes as widgets. A shorter list makes `_passes[i]` throw in the engine. It also requires no pass to be listed twice, which `Start` guarantees for the passes it creates.
- PreLighting.PreLightRenderer.PreLightingPass: requires `Ready()`, that is, `Initialize` has created the buffers and loaded the programs, each program declares every parameter the renderer writes into it, and each technique has a pass 0. Before `Initialize` the engine dereferences a null `_depthNormalFX` (PreLightRenderer.cs:81); a parameter the program does not declare is a null handle the engine writes through; a technique without passes throws at `Passes[0]` (lines 90 and 136). The same requirement is on `DrawDepthNormalMap`, `DrawLightMap`, `PrepareEffects` and `Render`.
- PreLighting.PreLightRenderer.Render: a scene without cameras throws at `scene.cameras[0]` after the targets are rebuilt. The model stops there and returns `completed` false; the exception itself is not modelled.
- Selection.SceneObjectSelector.Set: takes a non-null object. `Set(null)` stores null as the selection and then throws, keeping the old bounding-box renderer and renderable; that state is not modelled.
- DeferredWater.DeferredStandardWater.LoadEffect: requires the technique to have at least one pass. For a technique with none, `Passes[0]` throws in the engine.
- StandardForward.StandardForwardBase.PrePass: requires `Loaded()`. Called before `LoadEffect`, the engine writes through null handles at StandardForwardBase.cs:92. The same holds for `Pass`, `LightPass`, `BindLight` and `BindShadow`.
- StandardForward.StandardForwardBase.Pass: requires the technique to have a pass named `AmbientPass`. Without it `m_PassAmbient` is null, and `Apply()` throws at StandardForwardBase.cs:104 after the four writes.
- StandardForward.StandardForwardBase.LightPass: requires the technique to have a pass named `LightPass`. Without it `m_PassLight` is null, and `Apply()` throws at StandardForwardBase.cs:136 after the light, fog and shadow writes.
- StandardForward.StandardForwardBase.BindShadow: requires the `LightPass` pass, for the same reason as `LightPass`.
- DeferredSky.DeferredSkybox.PrePass: requires `Loaded()` and a technique with at least one pass. Before `LoadEffect` the engine writes through null handles at DeferredSkybox.cs:42. For a technique with none, `Passes[0]` throws at DeferredSkybox.cs:47 after the five writes.
- DeferredWater.DeferredStandardWater.Pass: requires `Loaded()`. Before `LoadEffect` the engine writes through null handles at DeferredStandardWater.cs:22.
