# Physarum slime-mould simulation: a Dafny model of its GPU pipeline

The modelled program simulates a slime mould (Physarum) in the browser
with three.js. About 65 000 agents, split into three species, live in a
256 × 256 float texture. Each agent has a position, a heading and a
species. Every frame runs three off-screen GPU passes:

- a ping-pong **diffuse/decay** pass blurs and fades the trail map;
- a ping-pong **update** pass moves every agent by sensing the trail map;
- a **points** pass draws every agent into a texture of its own.

A final full-screen material then blends the trail map and the points onto
the screen. The settings of each species are drawn at random.

The model covers:

- the two shader classes and their fluent builders;
- the random helpers;
- the orchestrator `Physarum` in its JavaScript version: construction,
  `init`, settings, seeding the agents, building the passes and one frame
  of `render`;
- the constructor, scene, mouse and settings set-up of its TypeScript
  rewrite.

| Dafny module | file | models |
|---|---|---|
| `Random` | random.dfy | `rndFloat`, `rndInt`, `Math.round`, `Math.min` and `Math.max` |
| `Gl` | gl.dfy | the parts of three.js the code touches: textures, render targets, meshes, scenes, cameras, and a renderer that records every draw |
| `Uniforms` | uniforms.dfy | uniform registries and the `for (key in …)` loops that write them |
| `PingPongShaders` | ping_pong_shader.dfy | `PingPongShader` |
| `Shaders` | shader.dfy | `Shader` |
| `PingPongShaderBuilders` | ping_pong_shader_builder.dfy | `PingPongShaderBuilder` |
| `ShaderBuilders` | shader_builder.dfy | `ShaderBuilder` |
| `Options` | options.dfy | the constructor options and the dimensions they give |
| `Species` | species.dfy | the settings record, `initSettings` and `randomizeSettings` |
| `Seeding` | seeding.dfy | the loops of `resetPositions` and `getDataArrays` |
| `PhysarumJs` | physarum_js.dfy | `Physarum` in `Physarum.js` |
| `PhysarumTsx` | physarum_tsx.dfy | `Physarum` in `Physarum.tsx` |

Modelling choices:

- Every three.js object is a Dafny object, so JavaScript's `===` on them is
  reference equality.
- The renderer keeps a ghost `trace` of passes. Each pass records the
  texture written (null for the screen) and the uniforms bound. The
  central properties are stated over this trace: the order of the passes,
  what each pass samples, and that no pass samples the texture it writes
  (`HazardFree`).
- `Math.random()` is not a function in Dafny. Every draw it makes is an
  explicit parameter (`TeamDraws`, `InitDraws`, `SeedDraws`), given in the
  order the code consumes them. `Math.cos` and `Math.sin` are
  function-valued parameters.
- Numbers are Dafny `real`s and sizes are `int`s.
- A thrown exception is an `Error` value: `UnknownUniform`,
  `UseAfterDispose`, `MissingParameters` or `InvalidArrayLength`.

Two behaviours of the code are easy to misread; the model keeps both:

- After `render`, `PingPongShader.getTexture()` returns the texture the pass
  READ, not the one it wrote. `render()` therefore feeds the update pass and
  the final material the trail map from before this frame's diffusion. It
  also feeds the points pass the agent positions from before this frame's
  update. `PhysarumJs.Physarum.Offscreen` states exactly this.
- In the clustered layout of `resetPositions`, the polar offset `rndDis` is
  added twice: once to `x`/`y`, and once more when they are stored.
  `Seeding.ClusteredAgent` keeps it.

## Model

| member | source | states |
|---|---|---|
| Random.RndFloat | src/Physarum/utils.ts:3-5 | equal bounds give the bound; for a draw in [0, 1) the result lies in [min, max) when min < max and in (max, min] when min > max |
| Random.Scaled | src/Physarum/utils.ts:4 | a span scaled by a draw stays inside the span, for either sign of the span |
| Random.Round | src/Physarum/utils.ts:7 | `Math.round`: the result is within half of x, and halves round up |
| Random.RndIntRange | src/Physarum/utils.ts:6-8 | with integer bounds min <= max, `rndInt` lies between them, both ends included; with equal bounds it is that bound |
| Random.RndIntZeroTwoBands | src/Physarum/utils.ts:6-8 | `rndInt(0, 2)` is 0, 1 or 2 exactly for draws in [0, 1/4), [1/4, 3/4) and [3/4, 1), so the ends are half as likely as the middle |
| Random.RndIntZeroOneBands | src/Physarum/utils.ts:6-8 | `rndInt(0, 1)` is 0 exactly for draws below 1/2 and 1 otherwise |
| Random.Min | src/Physarum/Physarum.js:684-687 | `Math.min`, used for the sensor distance and for the cluster margin of `resetPositions`: no larger than either argument and equal to one of them |
| Random.Max | src/Physarum/Physarum.js:689-692 | `Math.max`: no smaller than either argument and equal to one of them |
| Uniforms.Assign | src/Physarum/PingPongShader.ts:131-133 | writing an update list gives exactly the old keys plus the keys the list mentions |
| Uniforms.LastIndex | src/Physarum/PingPongShader.ts:131-133 | the last entry of an update list for a key: it has that key, and no later entry does |
| Uniforms.AssignLookup | src/Physarum/PingPongShader.ts:131-133 | after the writes, the last write to a key wins; unmentioned keys keep their value |
| Uniforms.AssignSnoc | src/Physarum/PingPongShader.ts:131-133 | one more entry is one more write, applied after the others |
| Uniforms.FirstUnregistered | src/Physarum/PingPongShader.ts:131-133 | the index where the loop throws: every earlier key is registered and the key at that index is not |
| Uniforms.FirstUnregisteredUnique | src/Physarum/Shader.ts:78-80 | any index with that property is the one `FirstUnregistered` returns |
| Uniforms.AssignSamplesNoneOf | src/Physarum/PingPongShader.ts:131-133 | writing values that sample none of a set of textures keeps a registry free of them |
| Uniforms.Merge | src/Physarum/PingPongShader.ts:80-82 | the loop that copies a given object key by key yields the old map overridden by the given entries |
| Uniforms.ApplyEntries | src/Physarum/Shader.ts:78-80 | the loop writes the entries in order and stops at the first unregistered key; it returns that index and the registry written so far, whose keys are unchanged |
| Uniforms.SamplesNoneOfUpdate | src/Physarum/PingPongShader.ts:98-104 | binding a value that samples none of a set of textures keeps a registry free of them |
| Uniforms.SamplesNoneHazardFree | src/Physarum/Shader.ts:82-84 | a draw into t whose uniforms sample no t is hazard-free |
| PingPongShaders.Zeros | src/Physarum/PingPongShader.ts:54-56 | `new Float32Array(n)` is n zeros |
| PingPongShaders.RenderDrawHazardFree | src/Physarum/PingPongShader.ts:125-141 | a render that binds its input to the current texture, with no foreign sampler of the written target, never samples what it writes |
| PingPongShaders.PingPongShader.constructor | src/Physarum/PingPongShader.ts:30-96 | both targets hold the given data or `width*height*4` zeros, in two distinct textures; `input_texture` is target 0's texture and is overridden by a given uniform of that name; current is target 0; the mesh is visible and is the scene's only child |
| PingPongShaders.PingPongShader.SetUniform | src/Physarum/PingPongShader.ts:98-104 | an unknown key is registered, then the value is written; every other uniform and the targets are unchanged |
| PingPongShaders.PingPongShader.GetUniforms | src/Physarum/PingPongShader.ts:106-108 | the registry always holds `input_texture` |
| PingPongShaders.PingPongShader.GetTexture | src/Physarum/PingPongShader.ts:110-112 | a live shader returns one of its two textures, never the one the next render writes; a disposed one fails |
| PingPongShaders.PingPongShader.GetTextureParity | src/Physarum/PingPongShader.ts:110-123 | `getTexture()` is target 0's texture after an even number of switches and target 1's after an odd number |
| PingPongShaders.PingPongShader.SwitchRenderTargets | src/Physarum/PingPongShader.ts:114-123 | current and next exchange; on a disposed shader both stay null |
| PingPongShaders.PingPongShader.GetScene | src/Physarum/PingPongShader.ts:143-148 | the scene is created once, empty, and is the same object afterwards |
| PingPongShaders.PingPongShader.GetCamera | src/Physarum/PingPongShader.ts:150-158 | the camera is created once, centred on the field, with near 0.1, far 100 and z 1, and is the same object afterwards |
| PingPongShaders.PingPongShader.Render | src/Physarum/PingPongShader.ts:125-141 | a disposed shader fails after switching and draws nothing. Otherwise: switch, bind `input_texture`, apply the updates in order, draw once into the next target and hide the mesh. An unknown key throws after the earlier writes, with the mesh left visible and nothing drawn |
| PingPongShaders.PingPongShader.RenderLive | src/Physarum/PingPongShader.ts:128-140 | the part of `render` after the switch, with the same success and failure cases |
| PingPongShaders.PingPongShader.BindUniforms | src/Physarum/PingPongShader.ts:129-133 | binds the input, then writes the updates up to the first unregistered key |
| PingPongShaders.PingPongShader.DrawMesh | src/Physarum/PingPongShader.ts:135-139 | the renderer is sized to the field, exactly one draw into the next target is recorded, and the screen is the target again |
| PingPongShaders.PingPongShader.Dispose | src/Physarum/PingPongShader.ts:160-173 | the mesh leaves the scene; geometry, material and both textures are released; mesh, camera, targets and scene become null. A second call re-creates a scene and fails |
| PingPongShaders.PingPongShader.Detach | src/Physarum/PingPongShader.ts:163-172 | the material is released and every reference is nulled; the uniforms are kept |
| Shaders.Shader.constructor | src/Physarum/Shader.ts:16-59 | the registry is exactly the given uniforms and the geometry exactly the given attributes; the target has the given size, or 1 for an undefined dimension; the points are visible and are the scene's only child |
| Shaders.Shader.SetUniform | src/Physarum/Shader.ts:61-66 | one uniform is registered or overwritten; the others are unchanged |
| Shaders.Shader.GetTexture | src/Physarum/Shader.ts:68-70 | the same texture however many renders have run; it fails after dispose |
| Shaders.Shader.GetScene | src/Physarum/Shader.ts:89-94 | the scene is created once, empty, and is the same object afterwards |
| Shaders.Shader.GetCamera | src/Physarum/Shader.ts:96-102 | the camera is created once, centred on the field (undefined when a dimension is), with near 0.1, far 1000 and z 1 |
| Shaders.Shader.Render | src/Physarum/Shader.ts:72-87 | a disposed shader fails at once. Otherwise: apply the updates in order, draw once into its own target and hide the points. An unknown key throws after the earlier writes, with nothing drawn |
| Shaders.Shader.DrawPoints | src/Physarum/Shader.ts:82-85 | the renderer is sized to the field, exactly one draw into the target is recorded, and the screen is the target again |
| Shaders.Shader.Dispose | src/Physarum/Shader.ts:104-113 | the points leave the scene; geometry, material and texture are released; the fields are nulled. A second call fails |
| Shaders.Shader.Detach | src/Physarum/Shader.ts:107-112 | the material is released and every reference is nulled |
| PingPongShaderBuilders.CompleteExactly | src/Physarum/PingPongShaderBuilder.ts:72-74 | `create` lets a configuration through exactly when width, height and both sources are set and truthy; unsetting or zeroing any one of them stops it |
| PingPongShaderBuilders.PingPongShaderBuilder.constructor | src/Physarum/PingPongShaderBuilder.ts:12 | a new builder has no field set |
| PingPongShaderBuilders.PingPongShaderBuilder.WithVertex | src/Physarum/PingPongShaderBuilder.ts:14-17 | sets only the vertex source and returns the same builder |
| PingPongShaderBuilders.PingPongShaderBuilder.WithFragment | src/Physarum/PingPongShaderBuilder.ts:19-22 | sets only the fragment source and returns the same builder |
| PingPongShaderBuilders.PingPongShaderBuilder.WithDimensions | src/Physarum/PingPongShaderBuilder.ts:24-28 | sets only width and height |
| PingPongShaderBuilders.PingPongShaderBuilder.WithTextureData | src/Physarum/PingPongShaderBuilder.ts:30-33 | sets only the start data |
| PingPongShaderBuilders.PingPongShaderBuilder.WithUniform | src/Physarum/PingPongShaderBuilder.ts:35-41 | adds or overwrites one uniform, starting from an empty map |
| PingPongShaderBuilders.PingPongShaderBuilder.WithUniforms | src/Physarum/PingPongShaderBuilder.ts:43-51 | adds or overwrites every given entry and keeps the other keys |
| PingPongShaderBuilders.PingPongShaderBuilder.WithAttribute | src/Physarum/PingPongShaderBuilder.ts:53-59 | adds or overwrites one attribute |
| PingPongShaderBuilders.PingPongShaderBuilder.WithAttributes | src/Physarum/PingPongShaderBuilder.ts:61-69 | adds or overwrites every given attribute and keeps the others |
| PingPongShaderBuilders.PingPongShaderBuilder.Create | src/Physarum/PingPongShaderBuilder.ts:71-85 | throws MissingParameters exactly when a required field is falsy, and InvalidArrayLength exactly when the zero data cannot be allocated. Otherwise it builds a live shader with the builder's size, sources, uniforms (or `{}`) and data (or zeros) in both targets, current target 0 and no switch yet |
| ShaderBuilders.ShaderBuilder.constructor | src/Physarum/ShaderBuilder.ts:11 | a new builder has no field set |
| ShaderBuilders.ShaderBuilder.WithVertex | src/Physarum/ShaderBuilder.ts:13-16 | sets only the vertex source and returns the same builder |
| ShaderBuilders.ShaderBuilder.WithFragment | src/Physarum/ShaderBuilder.ts:18-21 | sets only the fragment source |
| ShaderBuilders.ShaderBuilder.WithDimensions | src/Physarum/ShaderBuilder.ts:23-27 | sets only width and height |
| ShaderBuilders.ShaderBuilder.WithUniform | src/Physarum/ShaderBuilder.ts:29-35 | adds or overwrites one uniform |
| ShaderBuilders.ShaderBuilder.WithUniforms | src/Physarum/ShaderBuilder.ts:37-45 | adds or overwrites every given uniform and keeps the others |
| ShaderBuilders.ShaderBuilder.WithAttribute | src/Physarum/ShaderBuilder.ts:47-53 | adds or overwrites one attribute |
| ShaderBuilders.ShaderBuilder.WithAttributes | src/Physarum/ShaderBuilder.ts:55-63 | adds or overwrites every given attribute and keeps the others |
| ShaderBuilders.ShaderBuilder.Create | src/Physarum/ShaderBuilder.ts:65-74 | always builds a live shader; unset dimensions and sources pass through as undefined, unset uniforms and attributes as `{}` |
| Options.OrDefault | src/Physarum/Physarum.js:28-29 | `x \|\| fallback`: a nonzero given value is kept, and undefined or 0 gives the fallback |
| Options.InitialDimensionsCases | src/Physarum/Physarum.js:26-41 | no options give 800 × 600; a container overrides any width and height; without one, a zero or missing size falls back to its default, so neither side is 0 |
| Species.AttractRow | src/Physarum/Physarum.js:696-701 | the new attraction row has three entries |
| Species.RandomizedTeam | src/Physarum/Physarum.js:682-701 | randomising one species keeps every array of length three |
| Species.RandomizeAll | src/Physarum/Physarum.js:676-680 | randomising all three species keeps every array of length three |
| Species.SensorDistanceBounds | src/Physarum/Physarum.js:683-687 | a factor in [1.5, 6) times a speed in [1, 5) lies in [1.5, 30), so the clamp at 50 never bites |
| Species.SensorAngleBounds | src/Physarum/Physarum.js:688-692 | a factor in [1, 1.5) times a rotation in [0.3, 1) lies in [0.3, 1.5) and is at least the rotation |
| Species.RandomizedTeamInRange | src/Physarum/Physarum.js:682-701 | with draws in [0, 1), the species lands in range: chance [0.05, 0.085), speed [1, 5), sensor distance [1.5, 30), rotation [0.3, 1), sensor angle [1, 1.5) and no smaller than the rotation, not infectious, dot size 1, self-attraction [0, 1) and attraction to the others [-1, 1) |
| Species.RandomizedTeamFrame | src/Physarum/Physarum.js:682-701 | the other species and every shared setting are untouched |
| Species.RandomizeAllInRange | src/Physarum/Physarum.js:675-681 | after `randomizeSettings(-1)` all three species are in range and the shared settings are untouched |
| Species.RandomizedTeamForgets | src/Physarum/Physarum.js:682-701 | the randomised species does not depend on its previous values |
| Species.RandomizeTeam | src/Physarum/Physarum.js:682-701 | the statement-by-statement update equals `RandomizedTeam` |
| Species.DrawAttractRow | src/Physarum/Physarum.js:696-701 | the loop over the attraction row yields `AttractRow` |
| Species.InitialSettings | src/Physarum/Physarum.js:156-196 | the record `initSettings` builds has arrays of length three and a 3 × 3 attraction table, the given `mouseRad` and `isMonochrome`, 200 agents in a radius of 50 per click, colour 0, no Sobel filter, dot opacity 0, trail opacity 1, no particle texture ("None"), decay 0.97, displacement on, no restriction to the middle, the three species' colours and dot sizes of 1 |
| Species.RandomizeAllShared | src/Physarum/Physarum.js:675-709 | `randomizeSettings(-1)` keeps every shared field and leaves every dot size at 1 |
| Species.InitialSettingsKept | src/Physarum/Physarum.js:149-198 | after its closing `randomizeSettings(-1)`, `initSettings` still has all the fixed shared values of the record and dot sizes of 1, whatever the draws |
| Species.InitialDrawsOverwritten | src/Physarum/Physarum.js:149-198 | the closing `randomizeSettings(-1)` overwrites every per-species value, so the settings after `initSettings` do not depend on its first draws |
| Seeding.Cluster | src/Physarum/Physarum.js:318-332 | every agent falls in cluster 0, 1 or 2 |
| Seeding.ClusterTeamExact | src/Physarum/Physarum.js:318-332 | the clustered species `floor((i/n - k/3) * 9)` is the integer `9i/n - 3k` and is always 0, 1 or 2 |
| Seeding.SeededTeam | src/Physarum/Physarum.js:316-359 | in either layout every agent's species slot holds 0, 1 or 2 |
| Seeding.GridInside | src/Physarum/Physarum.js:349-353 | on a field of positive size, the grid layout puts every agent inside the field |
| Seeding.AgentSlots | src/Physarum/Physarum.js:341-348 | agent i's x, y, heading and species are at 4i to 4i+3: float j among them is the agent's slot j - 4i |
| Seeding.StoreAgent | src/Physarum/Physarum.js:341-348 | the four `id++` stores write agent i's x, y, heading and species at 4i to 4i+3, and nothing else |
| Seeding.SeedPositions | src/Physarum/Physarum.js:308-360 | the loop fills all `4 * side * side` floats with the agents' slots |
| Seeding.UvInside | src/Physarum/Physarum.js:282-283 | every agent's uv lies in [0, 1)² |
| Seeding.UvDistinct | src/Physarum/Physarum.js:282-283 | distinct agents have distinct uvs, so each reads its own texel |
| Seeding.UvSlots | src/Physarum/Physarum.js:282-283 | agent i's uv is at 2i and 2i+1 |
| Seeding.DataArrays | src/Physarum/Physarum.js:274-284 | the loop yields 3n zero positions and the uvs of n agents |
| PhysarumJs.UpdateDotsUniforms | src/Physarum/Physarum.js:386-404 | the update pass's uniforms hold no sampler and no `input_texture` |
| PhysarumJs.SamplerSlots | src/Physarum/Physarum.js:386-388 | the three texture slots are null, so no sampler is added |
| PhysarumJs.FieldUniforms | src/Physarum/Physarum.js:389-395 | the field values add no sampler |
| PhysarumJs.SensingUniforms | src/Physarum/Physarum.js:396-399 | the sensing values add no sampler |
| PhysarumJs.AttractUniforms | src/Physarum/Physarum.js:400-404 | the attraction and movement values add no sampler |
| PhysarumJs.DiffuseUniforms | src/Physarum/Physarum.js:210-212 | exactly `points` (null), `decay` and `resolution`, with no sampler |
| PhysarumJs.RenderDotsUniforms | src/Physarum/Physarum.js:416-420 | no sampler, and `positionTexture` starts null |
| PhysarumJs.FinalUniforms | src/Physarum/Physarum.js:235-257 | no sampler; both textures start null; species t's colour is under `col<t>` |
| PhysarumJs.NoSamplersReady | src/Physarum/PingPongShader.ts:76-82 | a registry built from sampler-free uniforms samples nothing but its input |
| PhysarumJs.CurrentTexture | src/Physarum/Physarum.js:459 | `getTexture()` on a live pass is its current texture, never the one it writes next |
| PhysarumJs.BindPingPong | src/Physarum/Physarum.js:444-460 | `setUniform` with a foreign value keeps a pass ready and changes that one uniform |
| PhysarumJs.RenderPingPong | src/Physarum/Physarum.js:446 | rendering a ready pass switches it, binds its input and records one hazard-free draw into the next target |
| PhysarumJs.PointsPass | src/Physarum/Physarum.js:464-468 | binds the positions and records one hazard-free draw into the points texture |
| PhysarumJs.ScreenPass | src/Physarum/Physarum.js:475-484 | sizes the renderer, then records a clear and one draw to the screen of the given scene and camera with the final uniforms |
| PhysarumJs.UpdateBoundKept | src/Physarum/Physarum.js:448-462 | binding the input keeps the update pass's own inputs bound |
| PhysarumJs.DiffusePhase | src/Physarum/Physarum.js:445-446 | the diffuse pass samples the points texture and its draw is hazard-free; the passes stay ready |
| PhysarumJs.BindUpdateInputs | src/Physarum/Physarum.js:444-460 | the four `setUniform` calls bind clock, mouse, points and trail map |
| PhysarumJs.UpdatePhase | src/Physarum/Physarum.js:444-462 | the update pass samples the clock, the mouse, the points and the trail map the diffuse pass read; its draw is hazard-free |
| PhysarumJs.PointsPhase | src/Physarum/Physarum.js:464-468 | the points pass samples the positions the update pass read; its draw is hazard-free |
| PhysarumJs.Frame | src/Physarum/Physarum.js:444-468 | the three off-screen draws in order, each sampling what `OffscreenSamples` says and none its own target; the passes stay ready and keep their meshes |
| PhysarumJs.Seeded | src/Physarum/Physarum.js:289-360 | the seeded data has four floats per agent |
| PhysarumJs.AgentUvs | src/Physarum/Physarum.js:279-284 | two uv floats per vertex |
| PhysarumJs.UpdateDotsHead | src/Physarum/Physarum.js:381-388 | the start of the chain sets size, sources, data and the three texture slots |
| PhysarumJs.WithFieldUniforms | src/Physarum/Physarum.js:389-395 | those `withUniform` calls add `FieldUniforms` |
| PhysarumJs.WithSensingUniforms | src/Physarum/Physarum.js:396-399 | those `withUniform` calls add `SensingUniforms` |
| PhysarumJs.WithAttractUniforms | src/Physarum/Physarum.js:400-404 | those `withUniform` calls add `AttractUniforms` |
| PhysarumJs.SeedData | src/Physarum/Physarum.js:289-360 | the seeding loop yields `Seeded` |
| PhysarumJs.BuildUpdateDots | src/Physarum/Physarum.js:381-405 | builds a ready 256 × 256 pass with the settings' uniforms and the given data (or zeros) in both targets, current target 0 and no switch yet; `create` cannot fail here |
| PhysarumJs.FirstFrameReadsData | src/Physarum/PingPongShader.ts:125-129 | the first `render` of a freshly built update pass reads target 1, which holds the data the pass was built around |
| PhysarumJs.BuildDiffuse | src/Physarum/Physarum.js:206-213 | throws MissingParameters exactly on a zero side and InvalidArrayLength exactly on a negative area; otherwise builds a ready field-sized pass with the diffuse uniforms |
| PhysarumJs.BuildRenderDots | src/Physarum/Physarum.js:412-423 | builds a ready field-sized points pass with its uniforms and exactly the two vertex attributes |
| PhysarumJs.CentredFrustum | src/Physarum/Physarum.js:95 | the frustum spans the field and is centred on the origin |
| PhysarumJs.Physarum.constructor | src/Physarum/Physarum.js:26-41 | clock 0, dimensions from the options, nothing built yet |
| PhysarumJs.Physarum.Init | src/Physarum/Physarum.js:44-78 | copies the dimensions and builds the stage. Without WebGL2 it stops there. With WebGL2 it also sets the mouse and the settings and seeds the update pass, a new object; the passes either fail with the diffuse builder's error or are all ready and new, with the final mesh the scene's only child, so `render()` may follow |
| PhysarumJs.Physarum.InitOnWebGL2 | src/Physarum/Physarum.js:60-64 | the pointer at (0, 0), the randomised settings, the seeded update pass, and the passes' error cases, readiness and freshness |
| PhysarumJs.Physarum.InitScene | src/Physarum/Physarum.js:92-104 | an empty scene, a centred camera (near 0.1, far 1000, z 1) and a renderer sized to the field |
| PhysarumJs.Physarum.InitMouse | src/Physarum/Physarum.js:106-107 | the pointer starts at (0, 0) and nothing else changes |
| PhysarumJs.Physarum.InitSettings | src/Physarum/Physarum.js:149-198 | the settings are `randomizeSettings(-1)` applied to the initial record, and keep its fixed values: `mouseRad` 0, monochrome off, decay 0.97, trail opacity 1, dot opacity 0, dot sizes 1 and the other shared fields of `Species.InitialSettings` |
| PhysarumJs.Physarum.RandomizeSettings | src/Physarum/Physarum.js:675-709 | -1 randomises species 0, 1 and 2 in turn, any other index that species; ready passes stay ready |
| PhysarumJs.Physarum.GetUpdateDotsShader | src/Physarum/Physarum.js:379-408 | builds the update pass only when there is none, then returns the stored pass |
| PhysarumJs.Physarum.GetRenderDotsShader | src/Physarum/Physarum.js:410-426 | builds the points pass only when there is none, then returns the stored pass |
| PhysarumJs.Physarum.DisposeUpdateDots | src/Physarum/Physarum.js:361-362 | the update pass is disposed and unset; the other passes stay ready |
| PhysarumJs.Physarum.RebuildUpdateDots | src/Physarum/Physarum.js:363 | a new update pass around the data makes the passes ready again |
| PhysarumJs.Physarum.ResetPositions | src/Physarum/Physarum.js:289-364 | the old update pass is disposed and a new one is built around the freshly seeded agents; ready passes stay ready |
| PhysarumJs.Physarum.GetDataArrays | src/Physarum/Physarum.js:274-287 | zero positions and the agents' uvs, after `resetPositions` |
| PhysarumJs.Physarum.InitShaders | src/Physarum/Physarum.js:200-231 | the update pass is always seeded. A diffuse-builder error leaves no diffuse or points pass. Otherwise all passes are ready, the points pass carries the zero positions and the uvs, and the final mesh is added |
| PhysarumJs.Physarum.InitDrawPasses | src/Physarum/Physarum.js:206-230 | the diffuse pass's errors stop everything after it; otherwise the points pass and the final material complete a ready set of passes |
| PhysarumJs.Physarum.InitPoints | src/Physarum/Physarum.js:215 | the new points pass completes a ready, separate set of passes |
| PhysarumJs.Physarum.InitFinalMat | src/Physarum/Physarum.js:234-272 | the final uniforms come from the settings, and one new mesh joins the scene |
| PhysarumJs.Physarum.Offscreen | src/Physarum/Physarum.js:429-468 | the clock advances by one; three draws in order; each samples what the source binds (with the read-not-written lag of `getTexture`); none samples the texture it writes; the passes keep their meshes |
| PhysarumJs.Physarum.BindFinal | src/Physarum/Physarum.js:470-473 | the final material samples the points just drawn and the trail map the diffuse pass read |
| PhysarumJs.Physarum.Composite | src/Physarum/Physarum.js:470-484 | binds the final textures, then clears and draws to the screen |
| PhysarumJs.Physarum.Screen | src/Physarum/Physarum.js:475-484 | sizes the renderer, clears it and draws its scene once to the screen through its camera |
| PhysarumJs.Physarum.Render | src/Physarum/Physarum.js:428-485 | the clock advances by one; the trace gains the three off-screen draws, a clear and the screen draw; the passes stay ready and keep their meshes, so another `render()` may follow |
| PhysarumTsx.Physarum.constructor | src/Physarum/Physarum.tsx:24-39 | clock 0 and dimensions from the options; nothing else is set |
| PhysarumTsx.Physarum.Init | src/Physarum/Physarum.tsx:41-50 | builds the scene, and sets the pointer only with WebGL2; the dimensions, the container and the settings are kept |
| PhysarumTsx.Physarum.InitScene | src/Physarum/Physarum.tsx:52-63 | an empty scene, a centred camera (near 0.1, far 100, z 1) and a renderer sized to the field |
| PhysarumTsx.Physarum.InitMouse | src/Physarum/Physarum.tsx:65-68 | the pointer starts at (0, 0) |
| PhysarumTsx.Physarum.InitSettings | src/Physarum/Physarum.tsx:70-119 | `randomizeSettings(-1)` applied to the initial record, keeping its fixed values: `mouseRad` 100, monochrome on, decay 0.97, trail opacity 1, dot opacity 0, dot sizes 1 and the other shared fields of `Species.InitialSettings` |
| PhysarumTsx.Physarum.RandomizeSettings | src/Physarum/Physarum.tsx:121-155 | -1 randomises species 0, 1 and 2 in turn, any other index that species |

## Left out

- The GUI (`initGUI`, the `guiGroups` refresh in `randomizeSettings`), the WebGL2 dialog and the DOM: they are I/O. Attaching the canvas to the container is not modelled either.
- PhysarumJs.Physarum.Init returns `None` without WebGL2 and after a successful build. Without WebGL2 the source throws a ReferenceError at `InfoDialog.create`, which is neither imported nor declared. After a successful build it throws a TypeError at `this.container.appendChild` only when no container was given.
- `initComposer` and the Sobel pass: the composer is modelled as one draw of the scene to the screen with the final material's uniforms.
- The particle-texture loader callback in `initShaders`: it is asynchronous I/O, and with the initial `particleTexture` of "None" it never runs.
- `changeParticleAmount`: the agent texture side is the constant 256.
- `Physarum.dispose` and the mouse event handlers: the handlers are commented out in the source.
- The mouse spawn texture: it is commented out in the source.
- GLSL shader code: the passes' shaders are opaque strings.
- `console.log`, float32 rounding, NaN and infinities: numbers are exact reals.
- Random draws whose value is never used: `teamAmount` in `getDataArrays` and `resetPositions`, and `radius` in the clustered layout.
- `Vector` is imported from `./utils`, which does not export it. The model treats it as building a vector uniform from its components, as the code evidently intends.
- PhysarumJs.Physarum.Init: `width` and `height` are 0 before `init` (undefined in JavaScript), and `mousePos` is (0, 0) before `initMouse`.
- PhysarumJs.Physarum.Init requires that no pass exists yet, which is the state the constructor leaves.
- PhysarumJs.Physarum.InitShaders likewise requires that no pass exists yet.
- PhysarumJs.Physarum.RandomizeSettings only accepts -1, 0, 1 and 2. Another index makes the source write outside the three-element arrays and read `attract<index>`, which is undefined.
- PhysarumTsx.Physarum.RandomizeSettings has the same restriction, for the same reason.
- PhysarumJs.Physarum.RandomizeSettings does not push the new settings into the passes, so here they keep the uniforms they were built with. The source pushes them through the GUI controllers' callbacks, which are left out with the GUI: after `initGUI`, each `randomizeSettings(t)` writes the new per-species values into the update pass and the dot sizes into the points pass. Only `randChance` stays stale, because its controller is commented out.
- PhysarumJs.Physarum.Render does not restate what each off-screen pass samples or that no pass samples its own target. `PhysarumJs.Physarum.Offscreen`, which `Render` runs first, states both.
- PhysarumJs.Physarum.Render does not model the uniform updates of a disposed or half-built `Physarum`: it requires ready passes and the scene and camera `init` creates.
- Species.AttractRow and Species.RandomizedTeam state only the shape of their results. What they compute is stated by `Species.RandomizedTeamInRange`, `Species.RandomizedTeamFrame` and `Species.RandomizedTeamForgets`.
