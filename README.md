# procedural-worlds: the six-face map pipeline

This project models the core of the procedural planet generator procedural-worlds in Dafny:

- how a planet and its shells draw their parameters from the shared random stream `window.rng`;
- how each map stage turns a `render` call into six deferred face actions on `window.renderQueue`;
- what one face action does to its render target, camera, geometry and plane;
- how every stage binds uniforms to its six shader materials;
- how the planet's six standard materials are rebound to the finished faces.

The model is organised as follows.

- **Rigs.** `EnvMap.AbstractEnvMap` and `MapTexture.AbstractMapTexture` are classes that hold six-element arrays: targets, cameras, scenes, geometries and planes.
  - Their texture handles are objects that are never replaced.
  - A face action is an `Action(rig, face, resolution)` record in the queue's FIFO.
  - `Execute` is what the closure does when the queue runs it. It changes face `face` only.
- **Shader uniforms.** `ShaderUniforms` has one layout per shader: noise, nebula, texture, normal and roughness. For each layout it gives:
  - the keys its setup declares and the material it builds for face `i`;
  - the props its update reads and the material face `i` holds afterwards;
  - the per-face facts: shared values agree across faces, per-face handles, `index` kept, `needsUpdate` set.
- **Stages.** These are classes that hold their rig as `base`: `CloudEnvMap`, `TextureEnvMap`, `NormalEnvMap`, `RoughnessEnvMap`, `TextureMap`, `NormalMap`, `RoughnessMap` and `NebulaMap`. Subclassing becomes composition.
  - The setup hook's result is passed to the rig's constructor.
  - A stage's `Render` runs its own uniform update, then the rig's six-action `Render`.
- **Scene objects.** These are the classes `Planet`, `Clouds`, `Atmosphere`, `Nebula`, `Stars` and `Glow`.
  - Each randomizing step is tied to a function of the stream and of the draw count at its start, so every drawn parameter has a stated range.
  - The locality lemmas (`...Local`) state determinism: two streams that agree on those draws yield the same parameters.
- **Pure helpers.** From `AbstractCanvasTexture` the model takes `randRange`, `mix` and `toCanvasColor`. The serialiser has a parser partner, and a round trip is proved.

A mutating method is specified by the values it leaves in the fields it changes, as functions of the old state and of the stream. Where the source changes only face `i`, the method also says that every other face is unchanged. The `Planet` methods that chain several steps restate only part of what their steps promise; "## Left out" says which parts.

## Model

| member | source | states |
|---|---|---|
| AbstractCanvasTexture.RandRange | src/js/tools/AbstractCanvasTexture.js:45-49 | `low + r*(high-low)` with a draw r in [0,1) lies in [low, high) (or in (high, low] when the bounds are swapped), and is `low` for equal bounds |
| AbstractCanvasTexture.DrawWithin | src/js/tools/AbstractCanvasTexture.js:45-49 | the range facts of a draw, for both orders of the bounds |
| AbstractCanvasTexture.Mix | src/js/tools/AbstractCanvasTexture.js:51-54 | `mix(v1, v2, 0) = v1`, `mix(v1, v2, 1) = v2`, and `mix(v, v, a) = v` |
| AbstractCanvasTexture.MixAffine | src/js/tools/AbstractCanvasTexture.js:51-54 | `mix` is affine in `amount`: shifting the amount by t shifts the result by t times the distance |
| AbstractCanvasTexture.RandRangeIsMix | src/js/tools/AbstractCanvasTexture.js:45-54 | `randRange` with draw r equals `mix(low, high, r)` |
| AbstractCanvasTexture.JsRound | src/js/tools/AbstractCanvasTexture.js:42 | `Math.round`: the integer within half of x, with halves rounded up |
| AbstractCanvasTexture.ChannelByte | src/js/tools/AbstractCanvasTexture.js:42 | a channel in [0,1] scaled by 255 rounds to 0..255 |
| AbstractCanvasTexture.ParseIntOf | src/js/tools/AbstractCanvasTexture.js:42 | the decimal text of any integer (sign included), followed by a non-digit, reads back as that integer and the rest |
| AbstractCanvasTexture.ParseCanvasColorOf | src/js/tools/AbstractCanvasTexture.js:41-43 | the string "rgba(R, G, B, 1.0)" of any three integers parses back to exactly those three |
| AbstractCanvasTexture.ToCanvasColorRoundTrip | src/js/tools/AbstractCanvasTexture.js:41-43 | the string `toCanvasColor(c)` emits parses back to `(round(r*255), round(g*255), round(b*255))` |
| AbstractCanvasTexture.ToCanvasColorBytes | src/js/tools/AbstractCanvasTexture.js:42 | for channels in [0,1] the emitted string parses, and every component is in 0..255 |
| Rng.Draw | src/js/scene/Planet.js:250-254 | a `randRange` draw from the stream lies in its range |
| Rng.Rng.Next | src/js/scene/Glow.js:56-58 | `window.rng()` returns the next number of the stream, in [0,1), and advances the cursor by one |
| Rng.Rng.RandRange | src/js/scene/Planet.js:250-254 | a scene object's `randRange` is `Draw` at the cursor, and consumes one draw |
| Rng.Rng.Skip | src/js/scene/Planet.js:146 | the biome painter's draws advance the cursor by their count |
| RenderQueue.FaceActions | src/js/tools/AbstractEnvMap.js:57-72 | the first n face actions of a render: exactly n of them |
| RenderQueue.SixActions | src/js/tools/AbstractEnvMap.js:57-72 | one render's actions: exactly six |
| RenderQueue.FaceActionsAt | src/js/tools/AbstractEnvMap.js:57-72 | action i is face i of the same rig, at the captured resolution |
| RenderQueue.SixActionsFaces | src/js/tools/AbstractMapTexture.js:50-64 | the six actions are faces 0..5 in ascending order, all at one resolution |
| RenderQueue.RenderQueue.AddAction | src/js/tools/AbstractEnvMap.js:58 | `addAction` appends to the FIFO tail and leaves the callbacks alone |
| RenderQueue.RenderQueue.AddCallback | src/js/scene/Planet.js:203-205 | `addCallback` appends one callback and leaves the actions alone |
| Rig.InitialCamera | src/js/tools/AbstractEnvMap.js:24-25 | the initial face camera spans ±512 (texResolution/2) on both axes, near -100, far 100, at z = 10 |
| Rig.Framed | src/js/tools/AbstractEnvMap.js:61-65 | a face action's camera spans exactly `resolution` on each axis, symmetric about 0, with near, far and position kept |
| Rig.InitialCameraIsFramed | src/js/tools/AbstractEnvMap.js:24-25 | the initial camera is the one a face action at 1024 produces |
| Rig.Resized | src/js/tools/AbstractEnvMap.js:59-60 | `setSize(res, res)` and `needsUpdate`; the texture handle the target renders into is kept |
| Rig.MaterialOf | src/js/tools/AbstractEnvMap.js:29 | a plane gets material i exactly when the rig holds more than i materials, and three.js's default otherwise |
| Rig.NewHandles | src/js/tools/AbstractEnvMap.js:18-34 | the constructor loop's six texture handles are new and pairwise distinct |
| EnvMap.Disposals | src/js/tools/AbstractEnvMap.js:66-67 | a face action disposes the slot's geometry when it holds one, and calls nothing for `false` |
| EnvMap.AbstractEnvMap.constructor | src/js/tools/AbstractEnvMap.js:7-35 | six targets at 1024 rendering into six new distinct handles, `maps[i]` the texture of `textures[i]`, six initial cameras, scene i holding plane i, and unit planes at z = -10 built with `materials[i]` |
| EnvMap.AbstractEnvMap.Visible | src/js/tools/AbstractEnvMap.js:37-41 | `visible(b)` overwrites all six geometry slots with `b` |
| EnvMap.AbstractEnvMap.Render | src/js/tools/AbstractEnvMap.js:51-73 | render appends exactly the six actions for faces 0..5, in order, at the props' resolution; no face is touched then |
| EnvMap.AbstractEnvMap.Execute | src/js/tools/AbstractEnvMap.js:58-71 | action i resizes target i and reframes camera i to the captured resolution. It fails exactly when slot i holds `true`; otherwise it disposes the old geometry if truthy, installs a new res×res plane and renders face i. No other face changes |
| EnvMap.AbstractEnvMap.Reframe | src/js/tools/AbstractEnvMap.js:59-65 | the resize half of a face action, on face f only |
| EnvMap.AbstractEnvMap.Regeometry | src/js/tools/AbstractEnvMap.js:66-70 | the dispose, new geometry and render half of a face action, on face f only |
| EnvMap.VisibleThenRenderFails | src/js/tools/AbstractEnvMap.js:37-41 | after `visible(true)` and a render, the first face action throws |
| EnvMap.HiddenThenRenderSucceeds | src/js/tools/AbstractEnvMap.js:66-70 | after `visible(false)` and a render, the first face action succeeds with a single render call and no dispose |
| MapTexture.AbstractMapTexture.constructor | src/js/tools/AbstractMapTexture.js:7-34 | the same six-way allocation, with plane i built with `mats[i]` |
| MapTexture.AbstractMapTexture.Render | src/js/tools/AbstractMapTexture.js:44-65 | six actions for faces 0..5 in order, each at the same resolution |
| MapTexture.AbstractMapTexture.Execute | src/js/tools/AbstractMapTexture.js:51-63 | action i resizes face i, attaches a new res×res geometry, renders, and only then disposes that same geometry; no other face changes |
| MapTexture.AbstractMapTexture.Reframe | src/js/tools/AbstractMapTexture.js:52-58 | the resize half of a face action, on face f only |
| MapTexture.AbstractMapTexture.Regeometry | src/js/tools/AbstractMapTexture.js:59-62 | new geometry, render, then dispose of that geometry, on face f only |
| Materials.At | src/js/tools/TextureEnvMap.js:39-40 | `props.heightMaps[i]` is the handle when i is in range, and `undefined` past the end |
| Materials.NewShaderMaterial | src/js/tools/CloudEnvMap.js:17-31 | every stage material is created transparent, without depth writes, with the given uniforms |
| Materials.Touch | src/js/tools/CloudEnvMap.js:51 | `needsUpdate = true` sets the flag and keeps the uniforms |
| ShaderUniforms.NoiseMaterialShape | src/js/tools/CloudEnvMap.js:17-31 | cloud material i declares the seven noise keys, `index` = i, every other uniform 0 |
| ShaderUniforms.SetupNoiseMaterials | src/js/tools/CloudEnvMap.js:14-33 | six materials sharing one key set; material i has `index` = i and the shared uniforms agree |
| ShaderUniforms.NoiseWritesSpec | src/js/tools/CloudEnvMap.js:45-50 | the six writes give each shared uniform its prop, keep every other uniform, and add no key |
| ShaderUniforms.NoiseUpdatedSpec | src/js/tools/CloudEnvMap.js:44-52 | one face after the update: props written, `index` kept, keys kept, `needsUpdate` set |
| ShaderUniforms.NoiseFaces | src/js/tools/CloudEnvMap.js:44-52 | after the loop every face holds the same six values, keeps its own `index`, and needs an update |
| ShaderUniforms.NebulaMaterialShape | src/js/tools/NebulaMap.js:19-34 | nebula material i has `index` = i, numbers 0 and a blank `nebulaeMap` |
| ShaderUniforms.NebulaUpdatedSpec | src/js/tools/NebulaMap.js:46-55 | one face after the nebula update: the seven props written, `index` kept, `needsUpdate` set |
| ShaderUniforms.NebulaUpdatedIdempotent | src/js/tools/NebulaMap.js:66-68 | the update applied twice leaves what applying it once leaves |
| ShaderUniforms.SetupNebulaMaterials | src/js/tools/NebulaMap.js:15-36 | six nebula materials, material i with `index` = i |
| ShaderUniforms.NebulaFaces | src/js/tools/NebulaMap.js:46-55 | after the loop all faces agree on the seven shared values and keep their `index` |
| ShaderUniforms.TextureMaterialShape | src/js/tools/TextureEnvMap.js:17-27 | the keys `biomeMap`, `heightMap` and `moistureMap`, all blank |
| ShaderUniforms.TextureUpdatedSpec | src/js/tools/TextureEnvMap.js:39-42 | face i gets `heightMaps[i]`, `moistureMaps[i]` and the shared `biomeMap`, with keys kept and `needsUpdate` set |
| ShaderUniforms.TextureIgnoresResolution | src/js/tools/TextureEnvMap.js:38-43 | no texture uniform depends on `props.resolution` |
| ShaderUniforms.TextureUpdatedIdempotent | src/js/tools/TextureMap.js:38-43 | the texture update applied twice is the update applied once |
| ShaderUniforms.SetupTextureMaterials | src/js/tools/TextureEnvMap.js:14-29 | six texture materials with three blank textures |
| ShaderUniforms.TextureFaces | src/js/tools/TextureEnvMap.js:38-43 | after the loop face i holds entry i of both arrays, all faces hold the same biome map, and all need an update |
| ShaderUniforms.NormalMaterialShape | src/js/tools/NormalMap.js:19-30 | the keys `resolution`, `waterLevel`, `heightMap` and `textureMap` |
| ShaderUniforms.NormalUpdatedSpec | src/js/tools/NormalMap.js:41-45 | face i gets the shared resolution and water level and entry i of both arrays |
| ShaderUniforms.NormalUpdatedIdempotent | src/js/tools/NormalMap.js:55-57 | the normal update applied twice is the update applied once |
| ShaderUniforms.SetupNormalMaterials | src/js/tools/NormalMap.js:15-32 | six normal materials that agree on `resolution` and `waterLevel` |
| ShaderUniforms.NormalFaces | src/js/tools/NormalMap.js:40-46 | after the loop, resolution and water level agree across faces, and face i holds its own handles |
| ShaderUniforms.RoughnessMaterialShape | src/js/tools/RoughnessMap.js:19-29 | the keys `resolution`, `waterLevel` and `heightMap` |
| ShaderUniforms.RoughnessUpdatedSpec | src/js/tools/RoughnessMap.js:39-42 | face i gets the shared resolution and water level and `heightMaps[i]` |
| ShaderUniforms.RoughnessUpdatedIdempotent | src/js/tools/RoughnessMap.js:51-53 | the roughness update applied twice is the update applied once |
| ShaderUniforms.SetupRoughnessMaterials | src/js/tools/RoughnessMap.js:15-31 | six roughness materials that agree on `resolution` and `waterLevel` |
| ShaderUniforms.RoughnessFaces | src/js/tools/RoughnessMap.js:38-43 | after the loop, resolution and water level agree across faces, and face i holds `heightMaps[i]` |
| CloudEnvMap.CloudEnvMap.constructor | src/js/tools/CloudEnvMap.js:14-33 | the rig is built on the six noise materials, material i with `index` = i |
| CloudEnvMap.CloudEnvMap.UpdateMaterials | src/js/tools/CloudEnvMap.js:44-52 | every face gets the noise update, the six shared values agree across faces, every face needs an update, and the `index` invariant is kept |
| CloudEnvMap.CloudEnvMap.Render | src/js/tools/AbstractEnvMap.js:54-72 | the uniform update, then exactly the six face actions at `props.resolution` |
| TextureEnvMap.TextureEnvMap.constructor | src/js/tools/TextureEnvMap.js:14-29 | the rig is built on six texture materials stored in `materials` |
| TextureEnvMap.TextureEnvMap.UpdateMaterials | src/js/tools/TextureEnvMap.js:38-43 | face i gets entry i of the height and moisture arrays, all faces get the same biome map, and all need an update |
| TextureEnvMap.TextureEnvMap.Render | src/js/tools/AbstractEnvMap.js:54-72 | the update, then six actions; the resolution goes only to the actions |
| NormalEnvMap.NormalEnvMap.constructor | src/js/tools/NormalEnvMap.js:14-30 | as written: `mats` holds six normal materials, while all six planes get the default material |
| NormalEnvMap.NormalEnvMap.UpdateMaterials | src/js/tools/NormalEnvMap.js:39-45 | the update writes `mats` only, and the rig's materials stay empty |
| NormalEnvMap.NormalEnvMap.Render | src/js/tools/AbstractEnvMap.js:54-72 | the update of `mats`, then six face actions |
| NormalEnvMap.CorrectedNormalEnvMap.constructor | src/js/tools/NormalEnvMap.js:15-29 | with `materials` filled, plane i is built with material i |
| NormalEnvMap.CorrectedNormalEnvMap.UpdateMaterials | src/js/tools/NormalEnvMap.js:39-45 | the normal update on the rig's own materials; resolution and water level agree across faces |
| NormalEnvMap.CorrectedNormalEnvMap.Render | src/js/tools/AbstractEnvMap.js:54-72 | the update, then six face actions |
| NormalEnvMap.AsWrittenFaceIgnoresUniforms | src/js/tools/NormalEnvMap.js:15-29 | as written, face 0 is drawn with the default material, and the rig holds no material at all |
| NormalEnvMap.CorrectedFaceUsesUniforms | src/js/tools/NormalEnvMap.js:39-45 | corrected, face 0 is drawn with material 0, which holds the props' resolution, water level and face-0 handles |
| RoughnessEnvMap.RoughnessEnvMap.constructor | src/js/tools/RoughnessEnvMap.js:14-29 | six roughness materials in `materials` |
| RoughnessEnvMap.RoughnessEnvMap.UpdateMaterials | src/js/tools/RoughnessEnvMap.js:37-42 | shared resolution and water level, face i gets `heightMaps[i]`, and all need an update |
| RoughnessEnvMap.RoughnessEnvMap.Render | src/js/tools/AbstractEnvMap.js:54-72 | the update, then six face actions |
| TextureMap.TextureMap.constructor | src/js/tools/TextureMap.js:14-29 | `mats` holds six texture materials, and plane i is built with `mats[i]` |
| TextureMap.TextureMap.UpdateMaterial | src/js/tools/TextureMap.js:38-43 | face i gets its height and moisture entries, all faces get the same biome map, and all need an update |
| TextureMap.TextureMap.Render | src/js/tools/AbstractMapTexture.js:47-64 | the update, then six face actions |
| NormalMap.NormalMap.constructor | src/js/tools/NormalMap.js:9-32 | `setup` fills `mats` before the rig is built, so plane i gets `mats[i]` |
| NormalMap.NormalMap.UpdateMaterial | src/js/tools/NormalMap.js:40-46 | the shared resolution and water level, and the face-i handles |
| NormalMap.NormalMap.Render | src/js/tools/NormalMap.js:49-58 | the uniforms are written before the six actions, and (by idempotence) end as after one update |
| RoughnessMap.RoughnessMap.constructor | src/js/tools/RoughnessMap.js:9-31 | plane i gets `mats[i]` |
| RoughnessMap.RoughnessMap.UpdateMaterial | src/js/tools/RoughnessMap.js:38-43 | the shared resolution and water level, and face i gets `heightMaps[i]` |
| RoughnessMap.RoughnessMap.Render | src/js/tools/RoughnessMap.js:46-54 | the update before the six actions, ending as after one update |
| NebulaMap.NebulaMap.constructor | src/js/tools/NebulaMap.js:9-36 | plane i gets `mats[i]`, which has `index` = i |
| NebulaMap.NebulaMap.UpdateMaterial | src/js/tools/NebulaMap.js:46-55 | all seven shared values agree across faces, `index` is never written, and all need an update |
| NebulaMap.NebulaMap.Render | src/js/tools/NebulaMap.js:58-69 | the update before the six actions, ending as after one update |
| StandIns.NoiseMap.Render | src/js/scene/Planet.js:155-163 | a noise stage records the props it is handed and enqueues its six face actions |
| StandIns.StarMap.Render | src/js/scene/Stars.js:69-77 | the star stage records its props and enqueues six actions |
| StandIns.Biome.GenerateTexture | src/js/scene/Planet.js:146 | the biome painting receives the water level, consumes its draws and leaves a new texture |
| Clouds.InitialParams | src/js/scene/Clouds.js:14-23 | the constructor's cloud settings |
| Clouds.InitialMaterial | src/js/scene/Clouds.js:29-38 | the cloud materials start transparent, with the settings' colour, opacity, roughness, metalness and bump scale |
| Clouds.BoundSpec | src/js/scene/Clouds.js:101-113 | `updateMaterial` sets the five shared settings and puts the face handle in the colour, alpha and bump slots; the other slots are kept |
| Clouds.BoundIdempotent | src/js/scene/Clouds.js:101-113 | binding twice is binding once |
| Clouds.CloudProps | src/js/scene/Clouds.js:80-93 | the cloud map props: seed in [0,1000), then res1, res2, resMix, mixScale in [0.1,1.0), at the clouds' resolution |
| Clouds.CloudPropsLocal | src/js/scene/Clouds.js:86-93 | the props depend only on their five draws |
| Clouds.Randomized | src/js/scene/Clouds.js:121-135 | opacity in [0.25,1.0), colour channels in [0.5,1.0), every other setting kept |
| Clouds.MapRange | src/js/scene/Clouds.js:97-99 | `map_range` sends low1 to low2 and high1 to high2; it is undefined when low1 = high1 |
| Clouds.MapRangeAffine | src/js/scene/Clouds.js:97-99 | `map_range` preserves the fraction of the way between the bounds |
| Clouds.Clouds.constructor | src/js/scene/Clouds.js:8-38 | the initial settings and six materials built from them; `cloudMaps` is the cloud map's stable `maps` |
| Clouds.Clouds.Update | src/js/scene/Clouds.js:73-78 | rotation y advances by `rotationSpeed` and z by 0.0001 exactly when `rotate` is set |
| Clouds.Clouds.UpdateMaterial | src/js/scene/Clouds.js:101-113 | face i is bound to `cloudMaps[i]` with the shared settings |
| Clouds.Clouds.RandomizeColor | src/js/scene/Clouds.js:121-129 | three colour draws, then the binding; three draws in all |
| Clouds.Clouds.Randomize | src/js/scene/Clouds.js:131-135 | opacity, then colour (four draws), ending with the binding |
| Clouds.Clouds.Render | src/js/scene/Clouds.js:80-95 | seed drawn, materials bound, then the cloud map updated with `CloudProps` and six actions at `this.resolution`; five draws |
| Clouds.DrawScales | src/js/scene/Clouds.js:89-92 | the four scale draws, in order |
| Atmosphere.InitialParams | src/js/scene/Atmosphere.js:16-26 | the constructor's atmosphere settings |
| Atmosphere.ShapeDrawn | src/js/scene/Atmosphere.js:108-112 | atmo1..atmo4 in [0,1) and atmo5 in [0.1,2.0); colour, speed and opacity kept |
| Atmosphere.ColorDrawn | src/js/scene/Atmosphere.js:98-102 | the colour channels in [0.5,1.0); nothing else changes |
| Atmosphere.Randomized | src/js/scene/Atmosphere.js:107-115 | the eight draws in order, with `speed` and `opacity` unchanged |
| Atmosphere.RandomizedLocal | src/js/scene/Atmosphere.js:107-115 | the randomized parameters depend only on their eight draws |
| Atmosphere.Atmosphere.constructor | src/js/scene/Atmosphere.js:10-38 | the initial settings, with uniforms equal to them |
| Atmosphere.Atmosphere.Update | src/js/scene/Atmosphere.js:76-78 | `time` advances by `speed`, and no uniform is written |
| Atmosphere.Atmosphere.UpdateMaterial | src/js/scene/Atmosphere.js:80-89 | the uniforms equal the time, atmo1..5, opacity as alpha, and the colour |
| Atmosphere.Atmosphere.RandomizeColor | src/js/scene/Atmosphere.js:97-105 | the colour draws, then the uniforms synced |
| Atmosphere.Atmosphere.Randomize | src/js/scene/Atmosphere.js:107-115 | the params become `Randomized` (eight draws), and the uniforms equal the params after it |
| Atmosphere.Atmosphere.RandomizeShape | src/js/scene/Atmosphere.js:108-112 | the five shape draws |
| Glow.InitialUniforms | src/js/scene/Glow.js:24-29 | the material declares exactly `c`, `p`, `glowColor` and `viewVector` |
| Glow.RawColor | src/js/scene/Glow.js:54-59 | three raw draws in [0,1) as the colour |
| Glow.Glow.constructor | src/js/scene/Glow.js:8-29 | c and p set, the first colour drawn, then the initial uniforms |
| Glow.Glow.Update | src/js/scene/Glow.js:43-47 | `c` and `p` are copied into the uniforms |
| Glow.Glow.RandomizeColor | src/js/scene/Glow.js:54-59 | a new colour from three draws |
| Glow.Glow.SetUniform | src/js/scene/Glow.js:51 | a uniform write succeeds exactly when the name is declared, and otherwise throws without changing anything |
| Glow.Glow.Randomize | src/js/scene/Glow.js:49-52 | as written: the colour is drawn, then the write to `color` throws, and no uniform changes |
| Glow.Glow.RandomizeCorrected | src/js/scene/Glow.js:49-52 | corrected: the colour is drawn and written to the declared `glowColor` |
| Nebula.DrawnSettings | src/js/scene/Nebula.js:15-22 | the four scales in [1.0,3.0), with speed 0.1 and opacity 1.0 |
| ShaderUniforms.SkyProps | src/js/scene/Nebula.js:73-81 | the props both sky shells hand their map (also src/js/scene/Stars.js:69-77): the seed, the resolution, the stored scales and the caller's `nebulaeMap`, unchanged |
| Nebula.InitialMaterial | src/js/scene/Nebula.js:49-54 | white, transparent, at the settings' opacity |
| Nebula.Nebula.constructor | src/js/scene/Nebula.js:6-56 | the settings draws first, then six materials and the sky map |
| Nebula.Nebula.UpdateMaterial | src/js/scene/Nebula.js:86-92 | face i shows `skyMaps[i]` at the shared opacity |
| Nebula.Nebula.Render | src/js/scene/Nebula.js:70-84 | one seed draw, the sky map updated and six actions enqueued, then the faces bound at once |
| Stars.DrawnSettings | src/js/scene/Stars.js:17-24 | the four scales in [0.5,2.0) |
| Stars.InitialMaterial | src/js/scene/Stars.js:47-50 | a white material with no map |
| Stars.Stars.constructor | src/js/scene/Stars.js:6-52 | the settings draws, then the star map and six materials |
| Stars.Stars.UpdateMaterial | src/js/scene/Stars.js:82-87 | face i shows `starMaps[i]`, and nothing else is written |
| Stars.Stars.Render | src/js/scene/Stars.js:66-80 | one seed draw, the props forwarded, six actions, then the faces bound at once |
| Planet.InitialSettings | src/js/scene/Planet.js:29-37 | the constructor's settings |
| Planet.ModeOf | src/js/scene/Planet.js:214-236 | the branch `displayMap` takes; the full view exactly for "textureMap" |
| Planet.ModeOfKnownNames | src/js/scene/Planet.js:113 | exactly the five names the controls offer select a branch |
| Planet.Shown | src/js/scene/Planet.js:214-236 | each known branch shows one stage's handle, and an unknown name shows none |
| Planet.RebindSpec | src/js/scene/Planet.js:208-240 | per branch: roughness, metalness and `needsUpdate` always set; the full view binds texture, normal and roughness maps and the normal scale; the four single-stage views bind their map and clear the other two; an unknown mode leaves all map slots alone |
| Planet.RebindIdempotent | src/js/scene/Planet.js:208-240 | rebinding twice is rebinding once |
| Planet.NormalScaleFor | src/js/scene/Planet.js:242-248 | 256, 512, 1024, 2048, 4096 map to 0.25, 0.5, 1.0, 1.5, 3.0; any other value keeps the scale |
| Planet.PlanetSeed | src/js/scene/Planet.js:140 | the planet seed lies in [0,1000) |
| Planet.HeightProps | src/js/scene/Planet.js:152-163 | res1, res2, resMix in [0.01,5.0), mixScale in [0.5,1.0), doesRidged in 0..3, with the planet's seed and resolution |
| Planet.ResMod | src/js/scene/Planet.js:165 | `resMod` lies in [3,10) |
| Planet.MoistureProps | src/js/scene/Planet.js:165-177 | seed + 392.253; the three scales in the range stretched by `resMod` (so within [0.03,50)); then the mix scale and ridge draws |
| Planet.DrawHeightProps | src/js/scene/Planet.js:155-163 | the five height draws, in order |
| Planet.DrawMoistureProps | src/js/scene/Planet.js:165-177 | `resMod`, then the five moisture draws |
| Planet.NoisePropsLocal | src/js/scene/Planet.js:152-177 | both noise stages' props depend only on their eleven draws |
| Planet.Invoke | src/js/scene/Planet.js:149 | calling a method succeeds exactly when the object's class defines or inherits it; `AtmosphereRing` and its base `THREE.Object3D` define no `randomize` |
| Planet.RebindMaterial | src/js/scene/Planet.js:210-238 | the loop body computes `Rebind` |
| Planet.RebindAll | src/js/scene/Planet.js:208-240 | face i is rebound to entry i of each of the five handle arrays |
| Planet.NewStages | src/js/scene/Planet.js:45-61 | five distinct stage rigs whose materials have the shapes the updates need |
| Planet.WhiteMaterials | src/js/scene/Planet.js:63-68 | six white standard materials |
| Planet.NewShells | src/js/scene/Planet.js:82-94 | the clouds with their initial params and no seed, the glow with its first colour from the three draws and its initial uniforms, and the atmosphere with its initial params |
| Planet.Planet.FaceOf | src/js/scene/Planet.js:49-61 | face i's handles are entry i of the stages' own `maps` |
| Planet.Planet.constructor | src/js/scene/Planet.js:16-43 | resolution 1024, the initial settings, no seed, six white materials, three draws; the glow's colour comes from those draws, its uniforms are the initial ones, the clouds have their initial params and no seed, the atmosphere its initial params |
| Planet.Planet.UpdateMaterial | src/js/scene/Planet.js:208-240 | every face is rebound to its own five handles under the current settings |
| Planet.Planet.UpdateNormalScaleForRes | src/js/scene/Planet.js:242-248 | the settings change only in `normalScale`, to `NormalScaleFor` |
| Planet.Planet.RandomizePlanet | src/js/scene/Planet.js:140-144 | seed and water level drawn in that order, the clouds take the planet's resolution, and the normal scale follows it |
| Planet.Planet.RandomizeShells | src/js/scene/Planet.js:146-148 | the biome gets the water level; then the clouds' four draws and the atmosphere's eight |
| Planet.Planet.RandomizePrefix | src/js/scene/Planet.js:140-148 | the state lines 140-147 leave (`PrefixState`): seed and water level drawn first, the normal scale for the resolution, the biome given the water level, the clouds at the planet's resolution randomized after the biome's draws and bound to their six maps, the atmosphere randomized after them with its uniforms in sync; a fresh biome texture; 14 draws besides the biome's |
| Planet.Planet.RenderScene | src/js/scene/Planet.js:139-150 | as written: `renderScene` throws at line 149 with nothing enqueued, after the prefix (`PrefixState`, the bound cloud materials, the fresh biome texture) and with the glow untouched |
| Planet.Planet.RandomizeCorrected | src/js/scene/Planet.js:140-150 | the prefix (`PrefixState`, the bound cloud materials, the fresh biome texture) without the ring call, then the glow's colour drawn from the next three numbers and written to `glowColor`; 17 draws besides the biome's |
| Planet.Planet.SubmitNoiseStages | src/js/scene/Planet.js:152-177 | the height props, then the moisture props, each as a function of the stream, with twelve actions |
| Planet.Planet.SubmitDerivedStages | src/js/scene/Planet.js:179-197 | texture gets height and moisture handles plus the biome texture; normal gets height and texture handles plus the water level; roughness gets height handles plus the water level; all at the planet's resolution |
| Planet.Planet.SubmitInnerStages | src/js/scene/Planet.js:152-197 | the height props at the cursor and the moisture props five draws later, the three derived stages' uniforms from those handles (`DerivedUpdated`), and the five inner stages' 30 actions in dependency order |
| Planet.Planet.SubmitCloudStage | src/js/scene/Planet.js:199-205 | the cloud map's props from the five draws at the cursor (its seed and scales) written to its six materials, the cloud materials rebound, the cloud map's six actions, then exactly one callback that rebinds this planet |
| Planet.Planet.SubmitStages | src/js/scene/Planet.js:152-205 | what lines 152-205 leave (`Submitted`): the two noise stages' props, the derived stages' uniforms, the cloud map's props drawn eleven draws in (its seed and scales) written to its six materials; the cloud materials rebound; height, moisture, texture, normal, roughness, clouds in that order (36 actions), then exactly one callback that rebinds this planet; the seed kept; sixteen draws |
| Planet.Planet.RenderSceneCorrected | src/js/scene/Planet.js:139-206 | the corrected `renderScene` reaches the submission: the seed drawn first, the height props drawn after the prefix and the glow, the moisture props five draws later, 36 actions and the one callback; 33 draws besides the biome's |

## Left out

- The render queue is not part of this model. It is two append-only lists. The queue is taken to run actions in FIFO order and callbacks after them; draining is not modelled.
- `Map.js` is not part of this model. `NormalMap`, `RoughnessMap` and `NebulaMap` are modelled as if it followed the `AbstractMapTexture` scheme, and so run their update twice per render.
- `NoiseMap.js`, `StarMap.js` and `Biome.js` are not part of this model. They are stand-ins that record their props. The biome painter's draw count is a parameter.
- The stand-ins for `NoiseMap` and `StarMap` are taken to draw nothing from `window.rng` in their constructors or in `render`, and the `Biome` stand-in draws nothing in its constructor; only the biome painter's counted draws are consumed. The draw offsets in `Planet` rest on that: the moisture props five draws after the height props, the cloud seed eleven draws after them, and the constructor's three draws.
- The definition of `window.rng` is not part of this model. It is a fixed stream of numbers in [0,1).
- GPU calls, shaders, scene-graph geometry, GUI controls and `createControls` are left out.
  - Render and dispose calls are logged as events.
  - `Planet.update` is left out as one operation. It rotates the ground and cloud meshes and calls the shells' `update` methods. Those are modelled on their own as `Atmosphere.Atmosphere.Update` and `Glow.Glow.Update`; the ring's `update` is not modelled.
  - `computeGeometry` is left out: it only recomputes geometry.
- Numbers are reals, not IEEE doubles, so rounding in `randRange` and in `toCanvasColor` is exact. `String(n)` is modelled for integers only, without exponent notation.
- `THREE.Color` objects are values. The aliasing between `params.color` and the cloud materials' colour is not followed.
- Glow's `viewVector` uniform is not followed.
- `AtmosphereRing` is modelled only by its set of method names. Its scattering uniforms are floating-point derivations.
- `Materials.Write` adds a key when it is missing. The stage invariants keep every written key declared, but an undeclared write in the source (a TypeError) is modelled only for `Glow`.
- `AbstractCanvasTexture`'s constructor, `clear`, `visibleCanvas` and `generateTexture` are left out: they are DOM and canvas calls.
- `Stars.Stars.Update` and `Nebula.Nebula.Update`: these are no-ops. Their whole contract is that they modify nothing, so they have no `ensures`.
- Planet.Planet.Valid: tracks the stages' material shapes (`Shaped`) and texture handles, not each stage rig's full `Valid` invariant.
- Planet.Planet.SubmitNoiseStages: requires a drawn seed. `renderScene` always draws one first (line 140), so the `undefined` seed of a planet that was never randomized is not modelled.
- Planet.Planet.RenderSceneCorrected: restates only part of its two steps' effects: the seed, both noise stages' props, the draw count, the action count and the callback. It is exactly `Planet.Planet.RandomizeCorrected` followed by `Planet.Planet.SubmitStages`. Its contract does not carry over the prefix state (`PrefixState`, the bound cloud materials, the fresh biome texture), the glow's colour and `glowColor`, the derived stages' uniforms, the cloud map's props and uniforms, or the order of the 36 actions; those two methods state each of them.

## Findings

| source | as written | input that shows it | evidently intended | confidence | as-written member | corrected member |
|---|---|---|---|---|---|---|
| src/js/scene/Planet.js:149 | `renderScene` calls `this.atmosphereRing.randomize()`, and `AtmosphereRing` defines no `randomize` | any call of `renderScene` | randomize the remaining shells and go on to submit the stages | not executed | Planet.Planet.RenderScene | Planet.Planet.RenderSceneCorrected |
| src/js/scene/Glow.js:51 | `randomize` writes `mat.uniforms.color`, which the material does not declare (it declares `glowColor`) | any call of `Glow.randomize` | write the new colour to `glowColor` | not executed | Glow.Glow.Randomize | Glow.Glow.RandomizeCorrected |
| src/js/tools/NormalEnvMap.js:15-29 | `setupMaterials` fills `this.mats`, but the base constructor builds the planes from `this.materials` (src/js/tools/AbstractEnvMap.js:29) | constructing a `NormalEnvMap` and running one face action | fill `this.materials`, as the other env-map stages do | not executed | NormalEnvMap.AsWrittenFaceIgnoresUniforms | NormalEnvMap.CorrectedFaceUsesUniforms |
