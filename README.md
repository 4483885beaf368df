# Crystal-Bird core in Dafny

Crystal-Bird renders an animated bird. A swarm of 65536 GPU particles flows
around it, seeded from the bird's own surface vertices. Crystal branches
stand beside it, and a hold-to-slow-motion interaction adds post-processing,
audio and camera effects. This project models the CPU-side logic of that
system and proves properties of it:

- **Model loader** (`model_loader.dfy`, module `ModelLoader`).
  - Seed sampling: every fifth vertex is read, through the index buffer when
    there is one. Each sample gets a Chebyshev-style shell score against the
    whole geometry's bounding box. It is moved to world space, the samples are
    sorted by score (highest first), and the leading 70% are kept.
  - Two per-vertex attribute builders: triangle centroids and vertex colours.
  - The choice of animation clip.
  - `processMesh`: the first mesh only, and only with non-empty seeds, builds
    the particle system.
- **Flow-field particle system** (`flowfield.dfy`, module `Flowfield`).
  - The 256 x 256 RGBA state texture, seeded from the sampled vertices with
    jitter and a phase.
  - The per-particle texture coordinate grid.
  - The per-frame uniform handoff to the simulation.
- **Crystalline branches** (`crystalline_branches.dfy`, module `Crystalline`).
  - Three tube branches, each through a sagging midpoint, with
    triangle-centroid attributes.
  - Three crystal clusters.
  - Rebuilding one branch in place.
  - The time uniform update.
- **Slow-motion effect** (`slowmo.dfy`, module `Slowmo`).
  - The hold / release / rest state machine driven by pointer and Space-key
    events.
  - The per-frame progress and time-scale rules.
  - The values that the progress drives in the passes, the audio and the
    camera.
- **Loading screen** (`loading_screen.dfy`, module `Loading`): the clamped
  progress bar, the one-shot ready latch, and the start action.

`geometry.dfy` (module `Geometry`) holds the shared vectors, `lerp`, the
abstract affine world map and flat xyz buffers. `wrappers.dfy` holds `Option`.

Modelling choices:

- Numbers are exact `real`s. `Math.floor(n * 0.7)` is taken as `7n div 10`.
- `Math.random()` results are a parameter: a sequence of reals in [0, 1).
  `performance.now()` readings and the elapsed and frame times are parameters.
  The smoothing factor `1 - exp(-easeK * dt)` is a parameter in [0, 1].
- A mesh's world matrix is an affine map with unconstrained coefficients.
- A tube geometry is its construction parameters. Its tessellation into a
  triangle list is a parameter function whose vertex count is a multiple of 3.
- JavaScript's stable `Array.prototype.sort` is modelled as a stable insertion
  sort on scores. Among equal scores, sample order is kept.
- The slow-motion effect's methods are proved against pure step functions
  (`Step`, `AfterEvent`, ...). The properties are proved about those
  functions. The same holds for the loading screen (`Updated`, `Started`).

Where comments and code differ, the model follows the code:

- The loader's comments speak of "animation at index 3", but the code plays
  clip 24 when the file has more than 24 clips, and clip 0 otherwise
  (src/loaders/ModelLoader.js:35-50). `ChosenClip` follows the code.
- The bounding box used for shell scores is computed over the whole position
  attribute (src/loaders/ModelLoader.js:174), not over the sampled vertices.
- Each crystal configuration carries a colour
  (src/environment/CrystallineBranches.js:166-178). `createCrystalMaterial`
  is called without arguments (line 183), so every crystal uses the default
  colours 0x4ade80 / 0x22c55e. The model records the colour in the crystal's
  parameters and does not apply it.
- From any state that satisfies the effect's invariant (`Slowmo.Inv`), the
  "fade out remaining progress" branch of `update`
  (src/effects/SlowmoEffect.js:389-398) never runs. A release always ends
  with progress 0, and a hold is always followed by a release
  (`Slowmo.IdleFrameIsRest`). The branch is modelled all the same.

## Model

| member | source | states |
|---|---|---|
| Geometry.Abs | src/loaders/ModelLoader.js:202-204 | Math.abs: the result is non-negative and equals x or -x |
| Geometry.Min | src/effects/SlowmoEffect.js:356 | Math.min: the smaller of the two, so min(p, 100) in the loading overlay is never above 100 and is p itself when p is at most 100 |
| Geometry.Max | src/effects/SlowmoEffect.js:391 | Math.max: the larger of the two |
| Geometry.LerpEnds | src/effects/SlowmoEffect.js:498-500 | lerp(a, b, 0) is a and lerp(a, b, 1) is b |
| Geometry.LerpBetween | src/effects/SlowmoEffect.js:498-500 | for t in [0, 1], lerp(a, b, t) lies between a and b |
| Geometry.CentroidProperties | src/environment/CrystallineBranches.js:54-59 | a triangle's centroid moves with the triangle, does not depend on corner order, and is the point itself for a degenerate triangle |
| Geometry.SetVec3At | src/loaders/ModelLoader.js:122-124 | writing item v of a flat xyz buffer sets exactly that item and leaves every other item as it was |
| ModelLoader.Samples | src/loaders/ModelLoader.js:190-212 | no position attribute gives no samples; otherwise there are ceil(vertexCount / 5) samples, with vertexCount the index count if indexed and the position count otherwise |
| ModelLoader.SampleInRange | src/loaders/ModelLoader.js:193 | the k-th sample reads walk position 5k, which is below vertexCount |
| ModelLoader.InsertByScore | src/loaders/ModelLoader.js:214 | inserting one scored sample adds exactly that element |
| ModelLoader.InsertKeepsSorted | src/loaders/ModelLoader.js:214 | inserting into a score-descending list keeps it score-descending |
| ModelLoader.SortByScore | src/loaders/ModelLoader.js:214 | the sort returns a permutation of its input that is descending by shell score |
| ModelLoader.InsertKeepsTies | src/loaders/ModelLoader.js:214 | an inserted sample goes ahead of every sample of equal score, and those keep their order |
| ModelLoader.SortIsStable | src/loaders/ModelLoader.js:214 | the sort is stable: for every score, the samples with that score leave the sort in their input order |
| ModelLoader.OuterCount | src/loaders/ModelLoader.js:216 | floor(0.7 n) keeps at most n samples |
| ModelLoader.ExtractOuterVertices | src/loaders/ModelLoader.js:163-224 | the sampling loop, sort and slice return exactly the world positions of the top 70% of the samples by shell score |
| ModelLoader.NoPositionNoSeeds | src/loaders/ModelLoader.js:166-169 | a geometry without a position attribute yields no seeds |
| ModelLoader.OuterVerticesCount | src/loaders/ModelLoader.js:190-193 | the number of seeds is floor(0.7 * ceil(vertexCount / 5)) |
| ModelLoader.OuterVerticesAreTopQuantile | src/loaders/ModelLoader.js:214-219 | the seeds are the first floor(0.7 n) entries of a permutation of the samples, and no kept sample scores below a dropped one |
| ModelLoader.SeedsComeFromSamples | src/loaders/ModelLoader.js:193-211 | every seed is the world-space image of a vertex the sampler visited, so a seed exists only when there is a position attribute |
| ModelLoader.MinMaxBound | src/loaders/ModelLoader.js:174-175 | each vertex lies within the bounding box's minimum and maximum along every axis |
| ModelLoader.AxisScoreInUnitRange | src/loaders/ModelLoader.js:202-204 | a coordinate inside the box has a normalised distance in [0, 1], including on a zero-extent axis where the divisor becomes 1 |
| ModelLoader.ShellScoreInUnitRange | src/loaders/ModelLoader.js:174-179 | the shell score of any vertex against the whole geometry's box lies in [0, 1] |
| ModelLoader.SampleScoresInUnitRange | src/loaders/ModelLoader.js:202-206 | every sample's shell score is defined and lies in [0, 1] |
| ModelLoader.TranslatedMinMax | src/loaders/ModelLoader.js:174-175 | translating every vertex by d moves the box's minimum and maximum by d |
| ModelLoader.TranslatedShellScore | src/loaders/ModelLoader.js:174-179 | translating the geometry and the vertex together leaves the shell score unchanged |
| ModelLoader.ScoresTranslationInvariant | src/loaders/ModelLoader.js:202-209 | translating all positions, or changing the world matrix, leaves every sample's score unchanged |
| ModelLoader.Relabel | src/loaders/ModelLoader.js:209-211 | replacing each sample's vertex by its image keeps the score and the order |
| ModelLoader.InsertRelabel | src/loaders/ModelLoader.js:214 | insertion by score commutes with changing the vertices, because it compares only scores |
| ModelLoader.SortRelabel | src/loaders/ModelLoader.js:214 | the sort commutes with changing the vertices |
| ModelLoader.VerticesRelabelPrefix | src/loaders/ModelLoader.js:217-219 | slicing and mapping to positions commute with changing the vertices |
| ModelLoader.SelectionRelabel | src/loaders/ModelLoader.js:214-219 | sorting and keeping the top 70% commute with changing the vertices |
| ModelLoader.OuterVerticesWorld | src/loaders/ModelLoader.js:209 | the world matrix only moves the selected seeds: the world seeds are the images of the seeds selected with the identity matrix |
| ModelLoader.SamplesWorld | src/loaders/ModelLoader.js:193-209 | the samples taken under a world matrix are the identity-matrix samples with each vertex mapped by that matrix, scores unchanged |
| ModelLoader.OuterVerticesTranslate | src/loaders/ModelLoader.js:174-219 | moving every vertex by d selects the same seeds, moved by d |
| ModelLoader.AddCenterAttribute | src/loaders/ModelLoader.js:108-135 | each of the three vertices of every triangle gets that triangle's centroid, in a buffer of 3 entries per vertex |
| ModelLoader.SetTriangle | src/loaders/ModelLoader.js:122-124 | the three items of one triangle get its centroid and every other item keeps its value |
| ModelLoader.AddVertexColorAttribute | src/loaders/ModelLoader.js:137-161 | each vertex gets the geometry's own colour when it has a colour attribute, and red otherwise |
| ModelLoader.ChosenClip | src/loaders/ModelLoader.js:36-50 | no clip exactly when the file has no animations; otherwise clip 24 or clip 0, always an existing clip |
| ModelLoader.NewParticleSystem | src/loaders/ModelLoader.js:96-101 | a fresh particle system seeded with the given vertices and anchored to the given mesh |
| ModelLoader.Loader.constructor | src/loaders/ModelLoader.js:7-19 | no horse mesh, particle system, animated scene or mixer at first |
| ModelLoader.Loader.ApplyShader | src/loaders/ModelLoader.js:69-82 | the mesh hands its texture map to the shared shader when it has one, takes the shader as its material, and has skinning switched on exactly when it is skinned |
| ModelLoader.Loader.AdoptHorse | src/loaders/ModelLoader.js:85-105 | the mesh becomes the horse mesh, and a particle system is built from its seeds exactly when they are non-empty |
| ModelLoader.Loader.ProcessMesh | src/loaders/ModelLoader.js:68-106 | the mesh gets the shared shader and hands over its texture map; skinning is switched on for a skinned mesh; only the first mesh becomes the horse mesh, and the particle system is built from its seeds only when they are non-empty |
| ModelLoader.Loader.Load | src/loaders/ModelLoader.js:24-59 | the scene is placed at (0, -2, 0); a file with animations starts the chosen clip, and a file without keeps the clip an earlier load started; every mesh gets the shader; the first mesh is the horse mesh; a particle system exists exactly when its seeds are non-empty, and it is what the callback receives |
| ModelLoader.Loader.TraverseNext | src/loaders/ModelLoader.js:51-55 | processing the next mesh of the traversal keeps the loaded state: the meshes processed so far carry the shader, and the horse mesh and particle system follow the first mesh |
| Flowfield.ParticleCount | src/particles/FlowfieldParticleSystem.js:14-15 | there are 256 * 256 = 65536 particles |
| Flowfield.ScaledUnitRange | src/particles/FlowfieldParticleSystem.js:67 | a random value in [0, 1) scaled by n lies in [0, n) |
| Flowfield.PickIndex | src/particles/FlowfieldParticleSystem.js:67 | floor(random * length) is a valid index into the seed list |
| Flowfield.InitialTexelNearSeed | src/particles/FlowfieldParticleSystem.js:66-71 | every initial texel lies within the jitter cube [-0.5, 0.5)^3 of some seed vertex, and its phase is in [0, 1) |
| Flowfield.GridUvDecodes | src/particles/FlowfieldParticleSystem.js:80-83 | particle i's texture coordinate names grid cell i again |
| Flowfield.CellOfScaled | src/particles/FlowfieldParticleSystem.js:81-82 | the coordinate (col / W, row / W) names cell col + W * row |
| Flowfield.ScaledBack | src/particles/FlowfieldParticleSystem.js:81-82 | n / W scaled back by W gives n |
| Flowfield.GridUvInjective | src/particles/FlowfieldParticleSystem.js:80-83 | no two particles share a texture coordinate |
| Flowfield.GridUvInUnitSquare | src/particles/FlowfieldParticleSystem.js:80-83 | for the W * W particles both coordinates lie in [0, 1) |
| Flowfield.RowBelowWidth | src/particles/FlowfieldParticleSystem.js:82 | for i below W * W the row floor(i / W) is below W |
| Flowfield.FractionBelowOne | src/particles/FlowfieldParticleSystem.js:81-82 | n / W lies in [0, 1) for n below W |
| Flowfield.SetTexelAt | src/particles/FlowfieldParticleSystem.js:68-71 | writing texel t sets its four channels and leaves every other texel as it was |
| Flowfield.FlowfieldParticleSystem.constructor | src/particles/FlowfieldParticleSystem.js:8-61 | the state texture is seeded texel by texel from the random stream; uniforms start at influence 0.95, strength 0.65, frequency 1.0 and anchor (0, -0.2, 0); the position attribute is all zeros; the uv grid is filled; point size 8; pixel ratio min(dpr, 2) |
| Flowfield.FlowfieldParticleSystem.FillInitialPositions | src/particles/FlowfieldParticleSystem.js:63-73 | all four channels of every texel are written from the seed list and five random draws per texel |
| Flowfield.FlowfieldParticleSystem.CreateParticleGeometry | src/particles/FlowfieldParticleSystem.js:75-90 | the position attribute is 3 * 65536 zeros and particle i gets the coordinate ((i mod W) / W, floor(i / W) / W) |
| Flowfield.FlowfieldParticleSystem.Update | src/particles/FlowfieldParticleSystem.js:111-123 | the simulation receives elapsed time, frame time and the anchor's position; the renderer samples the computed texture and gets the elapsed time; influence, strength and frequency are unchanged |
| Crystalline.BranchConfigs | src/environment/CrystallineBranches.js:96-115 | there are three branch configurations, each with a positive radius and a downward sag |
| Crystalline.MidpointProperties | src/environment/CrystallineBranches.js:128-129 | the midpoint is the mean of the ends with y shifted by the sag; it does not depend on which end is the start; its x and z lie between the ends |
| Crystalline.BranchTube | src/environment/CrystallineBranches.js:131-138 | the tube follows start, midpoint and end, with 8 tubular and 6 radial segments, the branch radius, and is open |
| Crystalline.CrystalConfigs | src/environment/CrystallineBranches.js:161-180 | there are three crystal configurations, each with a positive scale |
| Crystalline.SatellitePlacement | src/environment/CrystallineBranches.js:195-200 | a satellite sits on the ring of radius 0.7 at height -0.2, at a turn fraction in [0, 1) |
| Crystalline.Group.Add | src/environment/CrystallineBranches.js:141 | adding appends the child |
| Crystalline.Group.Remove | src/environment/CrystallineBranches.js:230 | removing drops the first occurrence of the child |
| Crystalline.RemoveFirst | src/environment/CrystallineBranches.js:230 | removing a present child shortens the list by one and removes exactly one copy of it; an absent child changes nothing |
| Crystalline.GroupsOf | src/environment/CrystallineBranches.js:208 | the crystal groups in crystal order |
| Crystalline.ReplaceKeepsContents | src/environment/CrystallineBranches.js:230-253 | when the main group holds exactly the branch meshes and crystal groups, removing mesh i and adding its replacement keeps that so, with the same child count |
| Crystalline.PrepareGeometryForShader | src/environment/CrystallineBranches.js:47-77 | every vertex of each triangle gets that triangle's centroid and the colour (0.1, 0.15, 0.25), both in buffers of 3 entries per vertex |
| Crystalline.NewCrystalGroup | src/environment/CrystallineBranches.js:183-207 | a cluster holds one main octahedron and three smaller ones on the ring, with rotations 0, 0.4 and 0.8, all sharing one material; the group takes the configured position, scale and rotation |
| Crystalline.NewBranchMesh | src/environment/CrystallineBranches.js:128-140 | a fresh mesh with the shared branch material over the tube built from the branch parameters |
| Crystalline.CrystallineBranches.constructor | src/environment/CrystallineBranches.js:8-25 | three branches and three crystals are built from their configurations and the main group is added to the scene; the main group holds exactly the branch meshes and the crystal groups |
| Crystalline.CrystallineBranches.CreateBranches | src/environment/CrystallineBranches.js:95-158 | branch i has index i and the i-th configuration's parameters; its mesh is built from that tube with the shared branch material and joins the main group |
| Crystalline.CrystallineBranches.CreateCrystals | src/environment/CrystallineBranches.js:160-224 | crystal i has index i and the i-th configuration; its group of four meshes is placed as configured and joins the main group after the branches |
| Crystalline.CrystallineBranches.AddCrystal | src/environment/CrystallineBranches.js:183-222 | one cluster, built from the configuration, is appended to the crystals and to the main group; branches and meshes are untouched |
| Crystalline.CrystallineBranches.RebuildBranch | src/environment/CrystallineBranches.js:226-254 | only the given branch's mesh is replaced, by a new one built from its current parameters; the old mesh leaves the main group and the new one joins it, so the child count is unchanged; other branches, parameters and crystals are untouched |
| Crystalline.CrystallineBranches.ReplaceMesh | src/environment/CrystallineBranches.js:230-253 | the old mesh leaves the main group, the new one joins it, and branch index now points at it; nothing else changes |
| Crystalline.CrystallineBranches.Update | src/environment/CrystallineBranches.js:272-277 | every crystal material and the branch material receive the elapsed time |
| Crystalline.SetTimes | src/environment/CrystallineBranches.js:273-275 | every crystal's material receives the elapsed time |
| Slowmo.DefaultConfigValid | src/effects/SlowmoEffect.js:29-47 | the built-in configuration has positive durations, a minimum time scale in [0, 1] and consistent damping bounds |
| Slowmo.InitialStateInv | src/effects/SlowmoEffect.js:51-62 | the initial state is at rest and satisfies the invariant |
| Slowmo.HoldProgressProperties | src/effects/SlowmoEffect.js:352-357 | hold progress lies in [0, 1], is 0 through the delay, is 1 after delay plus ramp, and never falls while the hold lasts |
| Slowmo.TargetTimeScaleProperties | src/effects/SlowmoEffect.js:360 | the target time scale is 1 at no progress and minTimeScale at full progress, lies in [minTimeScale, 1], and falls as progress rises |
| Slowmo.EaseOutProperties | src/effects/SlowmoEffect.js:370 | the quadratic ease-out runs from 0 to 1, stays in [0, 1] and never goes back |
| Slowmo.ReleaseFractionProperties | src/effects/SlowmoEffect.js:366-367 | the release fraction lies in [0, 1], reaches 1 after the release duration, and grows with time |
| Slowmo.ReleaseLevelProperties | src/effects/SlowmoEffect.js:366-373 | during a release the progress lies between 0 and where the release started, and never rises |
| Slowmo.DecayProperties | src/effects/SlowmoEffect.js:389-391 | leftover progress fades to max(0, p - 2 dt): never negative, never rising, 0 once 2 dt covers it |
| Slowmo.IdleFrameIsRest | src/effects/SlowmoEffect.js:345-398 | under the invariant, a frame with neither a hold nor a release changes nothing |
| Slowmo.SmoothingBetween | src/effects/SlowmoEffect.js:401-402 | with a factor in [0, 1] the new time scale lies between the old value and the target |
| Slowmo.StepPreservesInv | src/effects/SlowmoEffect.js:341-413 | one update keeps progress in [0, 1], time scales in [minTimeScale, 1], holding and releasing exclusive, and nothing left at rest |
| Slowmo.HoldReachesFullEffect | src/effects/SlowmoEffect.js:352-360 | a hold that has lasted delay plus ramp is at full progress and asks for the minimum time scale |
| Slowmo.ReleaseCompletes | src/effects/SlowmoEffect.js:378-381 | once the release duration has passed the effect is back at rest with no progress |
| Slowmo.ReleaseNonIncreasing | src/effects/SlowmoEffect.js:364-388 | across two frames of one release the progress does not rise, even when the second frame ends the release |
| Slowmo.HandleEventProperties | src/effects/SlowmoEffect.js:292-338 | a press (pointer down, or a non-repeat Space) starts a hold only when none is going on; a release ends one only when one is going on; every other event changes nothing; preventDefault is called exactly when a Space event changed the state |
| Slowmo.HandleEventPreservesInv | src/effects/SlowmoEffect.js:292-338 | every input handler keeps the invariant |
| Slowmo.DampProperties | src/effects/SlowmoEffect.js:424-430 | the afterimage damping lies in [0.5, defaultDamp], and late in a release it is never above the hold damping at the same progress |
| Slowmo.AudioRateProperties | src/effects/SlowmoEffect.js:456-463 | the playback rate lies in [minTimeScale, 1], snaps to 1 below progress 0.01, and otherwise equals the target time scale |
| Slowmo.RestShowsNothing | src/effects/SlowmoEffect.js:416-463 | at rest there is no afterimage, no RGB shift, no vignette and normal audio speed |
| Slowmo.SlowmoEffect.constructor | src/effects/SlowmoEffect.js:18-67 | the effect starts at rest with the given configuration, satisfying the invariant, with the camera's field of view left as it was (baseFOV under the built-in configuration) |
| Slowmo.SlowmoEffect.StartHold | src/effects/SlowmoEffect.js:318-327 | holding, not releasing, the hold start time is now and the elapsed hold is 0; the invariant is kept |
| Slowmo.SlowmoEffect.EndHold | src/effects/SlowmoEffect.js:329-338 | releasing from the current progress, starting now, with release progress 0 and target time scale 1; the invariant is kept |
| Slowmo.SlowmoEffect.HandleEvent | src/effects/SlowmoEffect.js:292-316 | the four listeners change the state as the event rules say and report whether preventDefault was called |
| Slowmo.SlowmoEffect.Update | src/effects/SlowmoEffect.js:341-414 | the state advances by one step, the smoothed time scale is returned, and passes, audio and camera follow the new progress; the invariant is kept |
| Slowmo.SlowmoEffect.AdvanceProgress | src/effects/SlowmoEffect.js:345-398 | the hold, release or fade branch advances the state, and the audio is reset to normal speed only when a release ends or the fade reaches 0 |
| Slowmo.SlowmoEffect.UpdateEffects | src/effects/SlowmoEffect.js:416-450 | the afterimage runs above progress 0.001 with the damping rule; RGB shift, custom aberration (when the pass exists) and vignette scale with progress |
| Slowmo.SlowmoEffect.UpdateAudio | src/effects/SlowmoEffect.js:452-473 | without audio nothing changes; otherwise the playback rate is 1 below progress 0.01 and the target time scale above it |
| Slowmo.SlowmoEffect.UpdateCamera | src/effects/SlowmoEffect.js:475-480 | the field of view moves a tenth of the way towards base plus maxFOVChange times progress |
| Loading.Round | src/loaders/LoadingScreen.js:25 | Math.round returns the integer within half a unit of x, rounding halves up |
| Loading.UpdateProgressProperties | src/loaders/LoadingScreen.js:22-32 | the stored and shown progress is the clamped value; the latch is set exactly when it was set or the progress reaches 100; the hint and buttons change only when the latch first fires |
| Loading.ReadyIffSomeUpdateReached100 | src/loaders/LoadingScreen.js:27-28 | after any sequence of updates the overlay is ready exactly when it already was or some update reached 100; the latch never resets |
| Loading.ReadyActionsRunOnce | src/loaders/LoadingScreen.js:27-31 | over any sequence of updates the ready actions run at most once, never when already ready, and exactly once when some update reaches 100 |
| Loading.StartExperienceProperties | src/loaders/LoadingScreen.js:40-51 | starting disables both buttons, hides the overlay and calls onStart once with the choice made, when there is an onStart |
| Loading.NoReenableWhileReady | src/loaders/LoadingScreen.js:27 | once ready, no later update touches the latch, the buttons or the overlay |
| Loading.NoReenableAfterStart | src/loaders/LoadingScreen.js:22-46 | once ready, after starting, later progress updates cannot re-enable the buttons or show the overlay again |
| Loading.LoadingScreen.constructor | src/loaders/LoadingScreen.js:2-8 | progress 0, not ready, buttons as the page has them, no onStart call yet |
| Loading.LoadingScreen.UpdateProgress | src/loaders/LoadingScreen.js:22-32 | the overlay moves to the view the update rule gives |
| Loading.LoadingScreen.ShowButtons | src/loaders/LoadingScreen.js:34-38 | both buttons are enabled and the button row is shown |
| Loading.LoadingScreen.StartExperience | src/loaders/LoadingScreen.js:40-57 | both buttons are disabled, the overlay is hidden and onStart is called with the choice |

## Left out

- The per-frame flow-field step is not modelled. It is a GLSL shader that is not part of this model, and three.js's GPUComputationRenderer does the ping-pong buffering. `Update` takes the render target it produces as a parameter.
- Shader sources, materials' other uniforms, blending flags and the particle colour gradient are not modelled. They are rendering configuration with no logic on the CPU.
- GLTF/DRACO parsing and the loader's error callback only log. The mixer's `update` and `getFlowfieldSystem` are library pass-throughs. `Load` starts from the parsed clip count and meshes.
- `scene.updateMatrixWorld` and `mesh.updateWorldMatrix` are not modelled. A mesh's `matrixWorld` is taken to be up to date when it is read.
- `CatmullRomCurve3`, `TubeGeometry` tessellation, `toNonIndexed`, the octahedron geometry and the cos/sin placement of satellites are not modelled. They are library geometry: tubes and octahedra are their parameters, and a satellite is its ring slot.
- Geometry `dispose()` in `rebuildBranch`, the matrix flags of the main group, and the getters `getCrystals`, `getBranchesData`, `getLeavesGroup` and `getBranches` are not modelled. None of them changes the modelled state.
- The HUD, keyboard hint, DOM lookups, CSS classes, `setTimeout` disposal, `dispose` methods and console output are not modelled.
- `Math.exp` in the smoothing factor, and floating-point rounding everywhere, are not modelled. Numbers are exact reals, and the factor is an input in [0, 1].
- ModelLoader.OuterCount: `Math.floor(n * 0.7)` is taken as `7n div 10`, with exact arithmetic. In doubles, `n * 0.7` falls just below the integer for some multiples of 10. The first is n = 90: the product is 62.99999999999999, so the source keeps 62 seeds and the model 63. About 1.9% of n below 2,000,000 are affected, and each time the source keeps exactly one fewer.
- ModelLoader.OuterVerticesCount: for the same n, the stated seed count is one higher than the source's.
- Audio `preservesPitch` and the try/catch around the playback rate are not modelled. Without an audio element, the rate is not set.
- A configuration passed to the slow-motion effect must satisfy `ValidConfig`: positive durations, a minimum time scale in [0, 1] and 0.5 <= trailDamp <= defaultDamp. The source accepts any override.
- Slowmo.SlowmoEffect.Update: it requires `now` not to precede the release start. `performance.now()` is monotonic, so this always holds in the source.
- Flowfield.FlowfieldParticleSystem.constructor: it requires a non-empty seed list. The only caller, `processMesh`, builds the system only then. With no seeds the source throws a TypeError: `birdVertices[0]` is undefined, and reading its `x` fails (src/particles/FlowfieldParticleSystem.js:66-68).
- ModelLoader.AddCenterAttribute: it requires a vertex count that is a multiple of 3. With any other count the source throws a RangeError: the last `centers.set` would end past the buffer's end (src/loaders/ModelLoader.js:122-124).
- Crystalline.PrepareGeometryForShader: it requires a vertex count that is a multiple of 3. A non-indexed tube is always a triangle list.
- ModelLoader.AddVertexColorAttribute: it requires a colour attribute, when there is one, as long as the position attribute. glTF guarantees this.
- ModelLoader.AddCenterAttribute and ModelLoader.AddVertexColorAttribute: they require a position attribute. Without one, the source throws a TypeError on reading its `count`.
- ModelLoader.WellFormed: every loader member that reads a geometry requires every index-buffer entry to name an existing vertex. glTF requires this of a valid file. The source does not check it, and an out-of-range index would make three.js read undefined coordinates.
- Slowmo.SlowmoEffect.constructor: the camera's own field of view is a parameter. The model makes no link between it and a `baseFOV` that the caller overrides.
- Crystalline.SatellitePlacement: no lemma states that the three satellites' cos/sin positions are distinct. Placements are kept as ring turn fractions, and trigonometry is outside the model.
- `this.scene.add(this.particleSystem)` in the particle-system constructor is not modelled. The render scene is not part of the model's state.
- The other files of the repository are not part of this model: Application, the managers, the GUI, the performance monitor, clouds, the reflective ground, sparkles and the usage example. They are library plumbing or DOM and render setup.
