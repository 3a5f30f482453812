# CustomLensFlare, modelled in Dafny

This project models two parts of the CustomLensFlare Unreal Engine plugin. It proves properties of both.

1. **Frame pass-graph planning.** This is `FCustomLensFlareSceneViewExtension` and its `Render*` methods.
   - Each frame, the renderer declares render-graph passes and transient textures into the engine's `FRDGBuilder`.
   - The passes are: an optional rescale, the threshold downsample, the flare (chroma, ghosts, halo), the glare, a Kawase blur ladder, and the final mix.
   - The builder is modelled as a class (`RenderGraph.GraphBuilder`) that holds an append-only sequence of pass records and of texture descriptions. Shaders are opaque tags.
   - Each `Render*` method is a method of `LensFlareRenderer.Renderer`. Each is proved to append exactly what a pure stage function of `FramePlan` describes.
   - The lemmas are stated about those functions. They cover:
     - the blur rectangle ladder;
     - pass order and names;
     - the glare gate and its tile counts;
     - the rescale decision;
     - the mix bindings;
     - the fact that every pass reads only textures that exist before it.
2. **Post-process parameter blending.**
   - `Settings.LensFlareSettings` is the per-view parameter record, with its defaults.
   - `Settings.Blend` is the blend law of `OverrideBlendableSettings`.
   - `ViewExtensionData` holds the per-view table: a get-or-create map keyed by view state, seeded from the shared `BaseConfig`.
   - `PostProcessComponent` is the weight gate of `UCustomLensFlarePostProcessComponent`, which adds a config to its owner's blendables or removes it.

The two groups are not connected in the code: the renderer reads its single loaded config directly, not the blended per-view record. The model keeps them separate in the same way.

Modelling choices:
- Floats are `real`, and `FMath::Lerp(a, b, w)` is `a + (b - a) * w`.
- C++ integer division truncates toward zero. It is written out as `IntRects.CDiv`, and `FIntRect / int` divides each corner.
- Nullable texture and config references are `Option` values. A null texture binding becomes the engine's white texture.
- Pass and texture debug names keep their format arguments (`RenderGraph.PassName`). The text `KawaseBlur_%i_%s_%ix%i` is produced only where the names' properties are stated.
- Transient textures are known by their creation index in the builder.
- Console variables, the loaded config, and the screen textures handed to the hook are parameters.

Some descriptions of this effect mention a bloom mip chain, a half-resolution composite, and flare and glare fed from a bloom result. The code modelled here has none of these. In the code:
- the threshold pass reads the bloom input, or the rescaled half-scene colour when a rescale ran, over the half-scene-colour rectangle;
- the flare and the glare read the threshold's output;
- the mix runs at the full view size.

The model follows the code.

## Model

| member | source | states |
|---|---|---|
| IntRects.CDiv | Source/CustomLensFlare/Private/CustomLensFlareSceneViewExtension.cpp:943-945 | C++ `int / int` truncates toward zero, so the quotient has the sign of the dividend |
| IntRects.CDivBounds | Source/CustomLensFlare/Private/CustomLensFlareSceneViewExtension.cpp:1086-1090 | the truncated quotient is the largest multiple toward zero: `q*d <= a < q*d + d` for `a >= 0`, mirrored for `a < 0` |
| IntRects.CDivTwice | Source/CustomLensFlare/Private/CustomLensFlareSceneViewExtension.cpp:1081-1102 | truncating by `d` and then by 2 is truncating by `2d`, so halving a ladder rectangle again gives the next rectangle |
| Vectors.LerpRepeat | Source/CustomLensFlare/Private/CustomLensFlareConfig.cpp:18 | two lerps toward the same target compose into one lerp of weight `w1 + w2 - w1*w2` |
| Settings.GhostColors | Source/CustomLensFlare/Private/CustomLensFlareSceneViewExtension.cpp:849-856 | the ghost pass uploads eight colours, and position `k-1` holds ghost slot `k`'s colour |
| Settings.GhostScales | Source/CustomLensFlare/Private/CustomLensFlareSceneViewExtension.cpp:858-865 | the ghost pass uploads eight scales, and position `k-1` holds ghost slot `k`'s scale |
| Settings.DefaultPerViewData | Source/CustomLensFlare/Public/CustomLensFlareSceneViewExtensionData.h:23-80 | a fresh record has intensity 1 and tint (1, 0.85, 0.7, 1); no gradient and no line mask; threshold level and range 1; ghost scales -1.5, 2.5, -5, 10, 0.7, -0.4, -0.2, -0.1 with alpha 1; glare intensity 0.02 and divider 60; glare scale (1,1,1); angles pi/3, pi/2 and 5pi/6 to six decimals |
| Settings.Blend | Source/CustomLensFlare/Private/CustomLensFlareConfig.cpp:18-80 | gradient and line mask are taken from the config whatever the weight; weight 1 yields the config; weight 0 changes only the two textures; ghost slot `k` blends only with slot `k` |
| Settings.BlendTwice | Source/CustomLensFlare/Private/CustomLensFlareConfig.cpp:18-80 | blending the same config twice is one blend with the combined weight `w1 + w2 - w1*w2`, field by field |
| Settings.LerpGhostRepeat | Source/CustomLensFlare/Private/CustomLensFlareConfig.cpp:32-54 | the same composition law holds for a ghost slot's colour and scale |
| Settings.BlendOrderMatters | Source/CustomLensFlare/Private/CustomLensFlareConfig.cpp:18-80 | the order of blends matters: for any record and any two configs that differ in intensity, blending both at full weight gives a different record in each order |
| Settings.BlendOrderIntensity | Source/CustomLensFlare/Private/CustomLensFlareConfig.cpp:18 | at any weight `w`, the intensities the two blend orders leave differ by exactly `w*w*(b - a)`, so they agree only at weight 0 or for equal intensities |
| Decimal.NatToString | Source/CustomLensFlare/Private/CustomLensFlareSceneViewExtension.cpp:1120-1124 | `%i` writes at least one decimal digit, without leading zeros |
| Decimal.NatToStringValue | Source/CustomLensFlare/Private/CustomLensFlareSceneViewExtension.cpp:1120-1124 | the digits written denote the number |
| Decimal.IntToStringRoundTrip | Source/CustomLensFlare/Private/CustomLensFlareSceneViewExtension.cpp:1120-1124 | reading back what `%i` wrote, followed by any non-digit text, yields the number and that text |
| Decimal.IntToStringInjective | Source/CustomLensFlare/Private/CustomLensFlareSceneViewExtension.cpp:1120-1124 | `%i` never writes the same text for two numbers |
| Decimal.BlurPassNameRoundTrip | Source/CustomLensFlare/Private/CustomLensFlareSceneViewExtension.cpp:1120-1124 | a blur pass name `KawaseBlur_<i>_<Down or Up>_<W>x<H>` reads back to its index, direction, width and height |
| Decimal.BlurPassNamesDistinct | Source/CustomLensFlare/Private/CustomLensFlareSceneViewExtension.cpp:1120-1124 | blur passes with different indices never share a name |
| RenderGraph.ClosedAppend | Source/CustomLensFlare/Private/CustomLensFlareSceneViewExtension.cpp:589-620 | if one closed block of passes runs after another, the concatenation is closed, and what it writes is the union of what each block writes |
| FramePlan.Binding | Source/CustomLensFlare/Private/CustomLensFlareSceneViewExtension.cpp:650-662 | a config texture is bound as itself, and as the white texture exactly when it is null |
| FramePlan.GetInputViewportSize | Source/CustomLensFlare/Private/CustomLensFlareSceneViewExtension.cpp:154-169 | has a real value exactly when both extent components are non-zero |
| FramePlan.InputViewportSizeIsFraction | Source/CustomLensFlare/Private/CustomLensFlareSceneViewExtension.cpp:154-169 | scaling the corners and subtracting gives the rectangle's size divided by the extent |
| FramePlan.FullViewportIffSizeMatches | Source/CustomLensFlare/Private/CustomLensFlareSceneViewExtension.cpp:545-546 | the viewport size is (1, 1) exactly when the rectangle's size equals the extent, which is when no rescale runs |
| FramePlan.BlurStage | Source/CustomLensFlare/Private/CustomLensFlareSceneViewExtension.cpp:1076-1105 | the blur declares `2*BlurSteps` passes and textures, and none when `BlurSteps <= 0` |
| FramePlan.BlurNoSteps | Source/CustomLensFlare/Private/CustomLensFlareSceneViewExtension.cpp:1071-1105 | with no steps, nothing is declared and the input texture is returned |
| FramePlan.BlurFirstRect | Source/CustomLensFlare/Private/CustomLensFlareSceneViewExtension.cpp:1081-1092 | the first ladder rectangle is the viewport's size halved, at the origin |
| FramePlan.BlurDownHalves | Source/CustomLensFlare/Private/CustomLensFlareSceneViewExtension.cpp:1081-1102 | while going down, each rectangle is the previous one halved with truncation, per axis |
| FramePlan.BlurLadderMirror | Source/CustomLensFlare/Private/CustomLensFlareSceneViewExtension.cpp:1081-1102 | Up rectangle `i` equals Down rectangle `2*BlurSteps-2-i` |
| FramePlan.BlurLastRect | Source/CustomLensFlare/Private/CustomLensFlareSceneViewExtension.cpp:1081-1102 | for `BlurSteps >= 1` the last rectangle is `(0, 0, Viewport.Width(), Viewport.Height())` |
| FramePlan.BlurChain | Source/CustomLensFlare/Private/CustomLensFlareSceneViewExtension.cpp:1105-1174 | pass `i` is Down iff `i < BlurSteps`; pass 0 reads the input over the viewport; every later pass reads the previous pass's buffer and rectangle; each texture has its pass's rectangle size and name; the blur returns the last buffer |
| FramePlan.BlurNamesDistinct | Source/CustomLensFlare/Private/CustomLensFlareSceneViewExtension.cpp:1120-1124 | no two passes of one blur share a name |
| FramePlan.BlurClosed | Source/CustomLensFlare/Private/CustomLensFlareSceneViewExtension.cpp:1105-1174 | the blur reads only its input and its own buffers; it writes only the textures it created; it returns one of those, or its input |
| FramePlan.ThresholdShape | Source/CustomLensFlare/Private/CustomLensFlareSceneViewExtension.cpp:715-772 | the downsample reads the input over `InputRect` into `InputRect / 2`, divided per corner; a one-step blur of that follows, ending at a rectangle of the same size |
| FramePlan.FlareShape | Source/CustomLensFlare/Private/CustomLensFlareSceneViewExtension.cpp:774-920 | chroma, ghosts and halo are drawn at `(0, 0, ViewW/2, ViewH/2)`; ghosts read the chroma buffer; the halo reads the input and adds onto the ghosts' buffer with a load; the blur of that buffer ends at the same rectangle |
| FramePlan.FlareGhostSlots | Source/CustomLensFlare/Private/CustomLensFlareSceneViewExtension.cpp:849-865 | the ghost pass carries slot `k`'s colour and scale at position `k-1` |
| FramePlan.GlareShape | Source/CustomLensFlare/Private/CustomLensFlareSceneViewExtension.cpp:929-1011 | glare is skipped iff `GlareIntensity <= SMALL_NUMBER`. Otherwise it clears a `(ViewW/4, ViewH/4)` texture and adds `TileCount.X*TileCount.Y` points, with `TileCount` the view divided by 8. The divider is at least 0.01, and equals the config's divider when that is above 0.01. The line mask is white iff the config has none |
| FramePlan.DefaultsRunGlare | Source/CustomLensFlare/Public/CustomLensFlareSceneViewExtensionData.h:65-67 | the per-view record's defaults, read as glare parameters, pass the intensity gate, and their divider of 60 passes the floor unchanged. The renderer reads its loaded config, so this is a statement about the defaults against the two thresholds |
| FramePlan.FrameRescale | Source/CustomLensFlare/Private/CustomLensFlareSceneViewExtension.cpp:545-584 | a rescale pass is declared iff the half-scene-colour rectangle differs from its extent. It writes a texture of the rectangle's size, which the threshold then reads. Without it the threshold reads the bloom texture |
| FramePlan.FrameMix | Source/CustomLensFlare/Private/CustomLensFlareSceneViewExtension.cpp:622-712 | the mix is the last pass. It writes the output at `(0, 0, ViewW, ViewH)` and has `MixPass = (bloom cvar, flare exists, glare exists)`. It binds the bloom texture, the flare and glare outputs whenever those stages ran, and the input in place of a missing flare or glare. The gradient is white iff the config has none |
| FramePlan.FrameCounts | Source/CustomLensFlare/Private/CustomLensFlareSceneViewExtension.cpp:545-706 | the number of passes and textures is fixed by which stages run |
| FramePlan.ThresholdClosed | Source/CustomLensFlare/Private/CustomLensFlareSceneViewExtension.cpp:715-772 | the threshold reads only its input and its own buffers; it writes three new textures and returns one of them |
| FramePlan.FlareClosed | Source/CustomLensFlare/Private/CustomLensFlareSceneViewExtension.cpp:774-920 | the flare reads only its input and its own buffers (the halo's load included); it writes four new textures and returns one of them |
| FramePlan.GlareClosed | Source/CustomLensFlare/Private/CustomLensFlareSceneViewExtension.cpp:922-1059 | a glare that runs reads only its input and writes and returns one new texture |
| FramePlan.MixReads | Source/CustomLensFlare/Private/CustomLensFlareSceneViewExtension.cpp:667-691 | the mix reads only the bloom texture, the input, and whichever of flare and glare exist |
| FramePlan.FrameClosed | Source/CustomLensFlare/Private/CustomLensFlareSceneViewExtension.cpp:501-713 | every pass of a frame reads only the two textures the hook was given or a texture an earlier pass wrote. Every pass writes a texture the frame created. The output is the last texture created |
| LensFlareRenderer.Renderer.Initialize | Source/CustomLensFlare/Private/CustomLensFlareSceneViewExtension.cpp:475-486 | when the ini names a config, it becomes `Config` and the hook is bound; otherwise nothing changes |
| LensFlareRenderer.Renderer.BlurLadder | Source/CustomLensFlare/Private/CustomLensFlareSceneViewExtension.cpp:1076-1102 | the divider loop yields `2*BlurSteps` rectangles, and rectangle `i` is the viewport's size divided by `2^(i+1)` going down and by `2^(2*BlurSteps-1-i)` going up |
| LensFlareRenderer.Renderer.RenderBlur | Source/CustomLensFlare/Private/CustomLensFlareSceneViewExtension.cpp:1061-1175 | the divider loop and the pass loop append exactly `BlurStage`'s passes and textures and return its output |
| LensFlareRenderer.Renderer.RenderThreshold | Source/CustomLensFlare/Private/CustomLensFlareSceneViewExtension.cpp:715-772 | appends exactly `ThresholdStage`'s passes and textures and returns its output |
| LensFlareRenderer.Renderer.RenderFlare | Source/CustomLensFlare/Private/CustomLensFlareSceneViewExtension.cpp:774-920 | appends exactly `FlareStage`'s passes and textures and returns its output |
| LensFlareRenderer.Renderer.RenderGlare | Source/CustomLensFlare/Private/CustomLensFlareSceneViewExtension.cpp:922-1059 | appends `GlareStage`'s pass and texture, or nothing, and returns the glare texture or null |
| LensFlareRenderer.Renderer.RenderRescale | Source/CustomLensFlare/Private/CustomLensFlareSceneViewExtension.cpp:545-584 | appends the rescale pass and texture exactly when needed, and returns the texture later passes take as input |
| LensFlareRenderer.Renderer.RenderFlareIfEnabled | Source/CustomLensFlare/Private/CustomLensFlareSceneViewExtension.cpp:601-609 | the flare passes are appended iff the flare console variable is on; their output is the flare texture, and null otherwise |
| LensFlareRenderer.Renderer.RenderGlareIfEnabled | Source/CustomLensFlare/Private/CustomLensFlareSceneViewExtension.cpp:611-619 | the glare stage is appended iff the glare console variable is on (and then only if the glare is bright enough); otherwise the glare texture stays null |
| LensFlareRenderer.Renderer.RenderMix | Source/CustomLensFlare/Private/CustomLensFlareSceneViewExtension.cpp:622-706 | appends the mix pass and its view-sized texture, and returns that texture and `(0, 0, ViewW, ViewH)` |
| LensFlareRenderer.Renderer.RenderLensFlare | Source/CustomLensFlare/Private/CustomLensFlareSceneViewExtension.cpp:501-713 | without a valid config nothing is declared and the outputs stay empty. Otherwise the states are cached, and exactly the passes and textures of `Frame` are appended in order. The outputs are the mix texture and its rectangle |
| ViewExtensionData.ConfigAsset.OverrideBlendableSettings | Source/CustomLensFlare/Private/CustomLensFlareConfig.cpp:8-81 | the family's extension data exists afterwards, created on demand. The view's entry becomes `Blend(entry before, config, Weight)`, where a new entry starts seeded. Every other entry is unchanged |
| ViewExtensionData.ExtensionData.constructor | Source/CustomLensFlare/Private/CustomLensFlareSceneViewExtensionData.cpp:7-19 | `BaseConfig` is loaded from the ini only when it is not valid yet, so it is seeded at most once |
| ViewExtensionData.ExtensionData.GetOrCreateViewExtensionData | Source/CustomLensFlare/Private/CustomLensFlareSceneViewExtensionData.cpp:28-37 | an existing entry is returned unchanged. A new key gets exactly one entry, seeded from the base config at weight 1. Other entries are untouched and no entry is removed. The nested `OverrideBlendableSettings` call finds the new entry, so the recursion stops after one level |
| ViewExtensionData.ExtensionData.GetViewExtensionData | Source/CustomLensFlare/Private/CustomLensFlareSceneViewExtensionData.cpp:39-42 | returns the entry for the view state, or null when there is none; it never inserts |
| ViewExtensionData.SeededEntry | Source/CustomLensFlare/Private/CustomLensFlareSceneViewExtensionData.cpp:33-34 | right after creation, every field of a new entry equals the base config's value |
| ViewExtensionData.EntryBefore | Source/CustomLensFlare/Private/CustomLensFlareSceneViewExtensionData.cpp:30-35 | a blend starts from the existing entry, or for a new key from the seeded one |
| ViewExtensionData.GetOrCreateAsWritten | Source/CustomLensFlare/Private/CustomLensFlareSceneViewExtensionData.cpp:28-37 | as written, the lookup dereferences null iff the key is new and `BaseConfig` holds nothing |
| ViewExtensionData.GuardedAgreesWithAsWritten | Source/CustomLensFlare/Private/CustomLensFlareSceneViewExtensionData.cpp:28-37 | wherever the code as written does not dereference null, the guarded lookup yields the same table |
| ViewExtensionData.MissingConfigPath | Source/CustomLensFlare/Private/CustomLensFlareSceneViewExtensionData.cpp:9-18 | without a `ConfigPath` entry, the extension data is still built with no base config, and the as-written lookup of any view then dereferences null |
| PostProcessComponent.Removed | Source/CustomLensFlare/Private/CustomLensFlarePostProcessComponent.cpp:57-67 | removing a config drops exactly its entry; removing null changes nothing |
| PostProcessComponent.SetWeightGate | Source/CustomLensFlare/Private/CustomLensFlarePostProcessComponent.cpp:72-89 | with a config, it is in the blendables afterwards iff `NewWeight > 0`, and then with exactly `NewWeight`. Without a config nothing changes |
| PostProcessComponent.SetWeightKeepsOthers | Source/CustomLensFlare/Private/CustomLensFlarePostProcessComponent.cpp:72-89 | every other config keeps its entry and weight |
| PostProcessComponent.SetWeightLastWins | Source/CustomLensFlare/Private/CustomLensFlarePostProcessComponent.cpp:69-90 | two `SetWeight` calls equal the last one alone, so setting a weight is idempotent |
| PostProcessComponent.DeactivateUndoesSetWeight | Source/CustomLensFlare/Private/CustomLensFlarePostProcessComponent.cpp:24-28 | deactivating after any `SetWeight` leaves the blendables as a plain removal would |
| PostProcessComponent.LensFlarePostProcessComponent.constructor | Source/CustomLensFlare/Private/CustomLensFlarePostProcessComponent.cpp:10-14 | a new component auto-activates, never ticks, and starts with weight 1 and no config |
| PostProcessComponent.LensFlarePostProcessComponent.RemoveBlendable | Source/CustomLensFlare/Private/CustomLensFlarePostProcessComponent.cpp:57-67 | removes from a volume owner's settings first; otherwise from the owner's post-process component, if any; nothing else changes |
| PostProcessComponent.LensFlarePostProcessComponent.SetWeight | Source/CustomLensFlare/Private/CustomLensFlarePostProcessComponent.cpp:69-90 | always stores `NewWeight`. Without a config, or for `NewWeight <= 0`, it removes. Otherwise it records `LastUsedConfig` and adds or updates with exactly `NewWeight`. A volume owner takes precedence over a post-process component |
| PostProcessComponent.LensFlarePostProcessComponent.Activate | Source/CustomLensFlare/Private/CustomLensFlarePostProcessComponent.cpp:16-21 | re-applies the stored weight through `SetWeight` |
| PostProcessComponent.LensFlarePostProcessComponent.Deactivate | Source/CustomLensFlare/Private/CustomLensFlarePostProcessComponent.cpp:24-28 | removes the current config from the owner's blendables |

## Left out

- Shader classes, their parameter layouts and the pixel maths they run: shaders are opaque tags, and only the CPU-side parameters are recorded.
- RHI command recording inside the pass lambdas (`SetViewport`, `DrawRectangle`, pipeline state, `DrawPrimitive`): only the rectangles and the instance count they are given are recorded.
- Texture formats, clear values, mip counts, samplers and GPU stats/event scopes: they are not part of the pass graph's shape. The cached sampler and blend states are one flag (`statesCached`).
- The pass scheduler itself: the builder is an append-only pass sequence, and "closed" (every pass reads only what exists before it) stands in for the dependency graph.
- `FramePlan.GetInputViewportSize`, `GlareBufferRatio`, `GlarePixelSize` and `MixPixelSize` give no value for an empty side, where the float code yields infinities or NaN. IEEE rounding is not modelled.
- `LensFlareRenderer.Renderer.RenderBlur`: `Divider` and the truncating division are modelled over unbounded integers. `int32` overflow of `Divider` at 31 or more blur steps is not modelled; the code only calls it with one step.
- `FramePlan.GlareStage`: the point count `TileCount.X * TileCount.Y` is unbounded, and its `int32` overflow is not modelled.
- The rectangles computed but never used: `Viewport = View.ViewRect` in `RenderThreshold` (line 724) and in `RenderFlare` (line 781), and `RenderFlare`'s quarter-view `Viewport4` (lines 786-789).
- `Initialize` and the extension data constructor crash through `check()` when `ConfigPath` names an asset that fails to load. The loaded config is a parameter, null standing for a missing entry only.
- The console variables' registration and their change delegate: their values on the render thread are inputs.
- `HandleLensFlaresHook`'s `check(View.bIsViewInfo)`: the hook's inputs are given directly.
- `ConfigAsset.OverrideBlendableSettings`: its two early returns are not modelled. The engine's `GetOrCreateExtentionData` creates the data on demand, and `GetOrCreateViewExtensionData` returns an entry it has just added, so neither reference is null in the model.
- `ExtensionData.GetOrCreateViewExtensionData` requires that the view's family holds this extension data. That is how `OverrideBlendableSettings` calls it; the code does not check it.
- The engine's `FPostProcessSettings` blendable array is a map from config to weight, so a config appears at most once.
- `Super::Activate` and `Super::Deactivate`, the component's active flag and tick registration: engine behaviour.
- The editor-only `PostEditChangeProperty`. `LastUsedConfig` exists only in editor builds; the model keeps it in every build.
- Module startup and shutdown and the build rules: engine glue.

## Findings

| source | as written | input that shows it | evidently intended | confidence | as-written member | corrected member |
|---|---|---|---|---|---|---|
| Source/CustomLensFlare/Private/CustomLensFlareSceneViewExtensionData.cpp:34 | a new view's entry is seeded with `BaseConfig->OverrideBlendableSettings(SceneView, 1.0f)`, and `BaseConfig` is not checked | an engine ini without `ConfigPath` under `CustomLensFlareSceneViewExtension`, which the constructor (lines 9-18) accepts and which leaves `BaseConfig` null; then any config blended into a view not seen before | apply the base config only when it is valid, and otherwise keep the record's defaults | medium, not executed | ViewExtensionData.GetOrCreateAsWritten | ViewExtensionData.ExtensionData.GetOrCreateViewExtensionData |
