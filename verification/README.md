# Fluid bake control and the generated smoke program

This project models two parts of Blender's fluid simulation integration:

- **The bake operators of the fluid editor** (`physics_fluid.c`). This part covers:
  - the legacy Elbeem bake's scene check, animation channels and resolution settings;
  - the Mantaflow bake, free and pause operators;
  - the per-cache `cache_flag` bits (baking and baked);
  - the pause frames a bake resumes from;
  - the `bake_sequence` frame loop, and the completion report a job gives when it ends.
- **The smoke program the Mantaflow integration generates** (`smoke_script.h`). The model tracks:
  - which solver stages a frame step invokes, in which order, under which feature switches (heat, colors, fire, noise, obstacle, open domain, guiding, initial velocity);
  - the wavelet-noise octave count;
  - the UV grid list and its texture copies;
  - the dictionaries of grids that are saved and loaded;
  - the noise step's `while` loop, which runs until the engine reports that the noise solver reached the next frame.

The domain's settings, the scene, the global flags and the job are classes whose fields the operations update in place. The channels the legacy bake fills are arrays. The generated program is a class that records each engine call in a trace. Each method's contract gives its new state in terms of its old state (all of it except the noise solver's time after `sn.step()`, see "## Left out"), mostly through a specification function (`Bake`, `FreeCache`, `WriteFrame`, `AdaptiveNoiseTrace`, `StepUvsTimes`). The properties of the program are then proved about those functions as lemmas.

Modules, one per file:

- **`CacheFlags`** (`cache_flags.dfy`): the cache flag transitions of starting, ending and freeing a bake, and the guard of the free operator.
- **`FluidChannels`** (`channels.dfy`): `get_fluid_rate`, `init_time`, `set_channel` and `set_vertex_channel`. It also holds the vertex cache's ownership.
- **`SceneValidation`** (`validate.dfy`): `fluid_validate_scene`.
- **`ElbeemResolution`** (`resolution.dfy`): the preview clamp and the number of grid levels.
- **`MantaBake`** (`bake_job.dfy`): the domain, scene, globals and job classes, the `bake_sequence` loop and the bake, free and pause operators.
- **`SmokeStages`** (`smoke_stages.dfy`): the feature switches, the stage events, the octave rule and the stage traces of `smoke_step` and `smoke_adaptive_step`.
- **`SmokeNoise`** (`smoke_noise.dfy`): the program's state, the dictionaries, the UV pre-step and post-step, `step_noise`, `smoke_adaptive_step_noise`, the standalone `step` and the standalone `load`.

Inputs that come from outside the code are parameters:

- `pauses: seq<bool>` says whether a pause request (`G.is_break`) has arrived by the k-th time the bake loop looks.
- `advances: seq<bool>` says whether the engine's `sn.step()` completed the frame after the k-th pass. Some pass completes it.

## Model

| member | source | states |
|---|---|---|
| CacheFlags.StartBake | source/blender/editors/physics/physics_fluid.c:1376-1416 | Starting a bake marks its kind baking and not baked. Every other kind's two bits and every other flag bit are unchanged. |
| CacheFlags.EndBake | source/blender/editors/physics/physics_fluid.c:1312-1337 | Ending a bake marks its kind baked and not baking. Nothing else changes. |
| CacheFlags.FreeCache | source/blender/editors/physics/physics_fluid.c:1521-1582 | Freeing clears both bits of every kind the free wipes. Freeing data wipes data, noise, mesh and particles; any other free wipes its own kind. Other kinds are unchanged and only bits of the free mask are removed. |
| CacheFlags.FreeAllowedIff | source/blender/editors/physics/physics_fluid.c:1615-1621 | The free guard passes exactly when no kind other than guiding is baking. |
| CacheFlags.StartBakeBlocksFree | source/blender/editors/physics/physics_fluid.c:1615-1621 | While any bake other than guiding runs, every free is refused. A guiding bake blocks nothing. |
| CacheFlags.FreeDataUnblocksFree | source/blender/editors/physics/physics_fluid.c:1523-1526 | After freeing data, the free guard passes. |
| CacheFlags.BakeCycle | source/blender/editors/physics/physics_fluid.c:1306-1416 | A completed start/end cycle leaves exactly the kind's baked bit among its two bits. All other bits are kept. |
| CacheFlags.BakeThenFree | source/blender/editors/physics/physics_fluid.c:1501-1582 | Freeing a kind after a bake cycle leaves none of that kind's bits set. |
| FluidChannels.FluidRate | source/blender/editors/physics/physics_fluid.c:93-103 | The rate is never negative. It equals the animation rate when that is not negative, and 0 otherwise. |
| FluidChannels.WriteFrame | source/blender/editors/physics/physics_fluid.c:245-257 | Writing frame i of a channel keeps its length. Frame i becomes the values followed by the time. Every entry outside frame i is unchanged. |
| FluidChannels.WriteFrameKeepsOthers | source/blender/editors/physics/physics_fluid.c:245-257 | Writing frame i leaves every other frame j as it was. |
| FluidChannels.WriteFramesCommute | source/blender/editors/physics/physics_fluid.c:420-478 | Writes to two different frames of a channel give the same channel in either order. |
| FluidChannels.SetChannel | source/blender/editors/physics/physics_fluid.c:245-257 | A float channel gets one value and the time in a 2-slot frame. A vector channel gets three values and the time in a 4-slot frame. Any other size leaves the channel unchanged. |
| FluidChannels.InitTime | source/blender/editors/physics/physics_fluid.c:231-243 | The table is fresh, with length+1 entries. Entries 0 and 1 are the animation start, and each later entry is the previous one plus the frame time, so the table satisfies `Timeline` and `TimelineSorted` applies to it. |
| FluidChannels.TimelineSorted | source/blender/editors/physics/physics_fluid.c:231-243 | With a non-negative frame time, the times are non-decreasing. |
| FluidChannels.FluidObject.SetVertexChannel | source/blender/editors/physics/physics_fluid.c:259-289 | A null channel is a no-op. If the vertex count differs, the channel is released but the object's cache reference is kept. Otherwise frame i is written with the vertices and the time. It reports exactly when the channel handed in was already released. |
| FluidChannels.FluidObject.SetVertexChannelFixed | source/blender/editors/physics/physics_fluid.c:274-279 | This is the corrected mismatch path. The released cache is also cleared from the object, so the object never refers to released memory and is never handed a released buffer. |
| FluidChannels.FluidObject.FreeVertexCache | source/blender/editors/physics/physics_fluid.c:334-337 | Freeing clears the reference. It is a double free exactly when the referenced cache was already released. |
| FluidChannels.MismatchThenFree | source/blender/editors/physics/physics_fluid.c:275-279 | A vertex-count mismatch followed by the channel cleanup frees the vertex cache twice. |
| FluidChannels.FixedThenFree | source/blender/editors/physics/physics_fluid.c:334-337 | With the corrected mismatch path, the cleanup never frees twice. Afterwards the object has no vertex cache and refers to no released buffer. A cache it held is released exactly once, holding frame i when the vertex count matched and its old contents otherwise. |
| FluidChannels.AnimatedMeshFrame | source/blender/editors/physics/physics_fluid.c:475-477 | Under the guard `fluid_is_animated_mesh` (lines 131-134: a control object, or domainNovecgen set), the step runs `set_vertex_channel` on the object's own vertex cache, with its effect and its reuse report. Any other object keeps its cache and released set, and nothing is reused. |
| FluidChannels.MismatchThenNextFrame | source/blender/editors/physics/physics_fluid.c:475-477 | After a mismatch at frame 0 of an animated (control) mesh, the frame loop's vertex step for frame 1 is handed the released vertex cache, whatever the mesh then holds. |
| FluidChannels.FixedTwoFrames | source/blender/editors/physics/physics_fluid.c:475-477 | With the corrected mismatch path, neither frame's call is handed a released buffer. The object ends referring to no released buffer. A matching pair of frames leaves the cache holding both frames. A mismatch releases the cache once and clears the object's reference, keeping what was written before it. |
| FluidChannels.WriteVertexFrame | source/blender/editors/physics/physics_fluid.c:281-285 | The vertex loop writes exactly frame i: the 3·numVerts coordinates, then the time. |
| SceneValidation.ValidateScene | source/blender/editors/physics/physics_fluid.c:585-640 | The single pass returns the declarative verdict. With a given domain, another domain is an error. Without one, some domain must exist. Then 255 or more channel objects is an error, then no fluid or inflow object is an error. |
| SceneValidation.InputsAreChannelObjects | source/blender/editors/physics/physics_fluid.c:611-617 | Every fluid input object is also counted as a channel object. |
| SceneValidation.ChannelCountAppend | source/blender/editors/physics/physics_fluid.c:611-613 | Adding an object adds one channel object exactly when it is neither a domain nor a particle object. |
| SceneValidation.AcceptedScene | source/blender/editors/physics/physics_fluid.c:620-638 | An accepted scene has a domain and a fluid input object, and fewer than 255 channel objects. |
| SceneValidation.FindInput | source/blender/editors/physics/physics_fluid.c:615-617 | A positive input count means some object adds fluid. |
| SceneValidation.ChannelLimitBoundary | source/blender/editors/physics/physics_fluid.c:628-631 | An accepted scene with 254 channel objects is refused once one more is added, with the too-many-objects message. |
| SceneValidation.TwoDomainsPassWhenNoneGiven | source/blender/editors/physics/physics_fluid.c:599-609 | Without a given domain, two domain objects pass the check. With one given, the other is an error. |
| ElbeemResolution.ClampPreview | source/blender/editors/physics/physics_fluid.c:921-925 | The preview resolution never exceeds the resolution or the requested preview. It is one of the two. |
| ElbeemResolution.ClampPreviewStable | source/blender/editors/physics/physics_fluid.c:921-925 | Clamping is idempotent and keeps a preview that already fits. |
| ElbeemResolution.GridLevels | source/blender/editors/physics/physics_fluid.c:930-943 | A non-negative maxRefine is used as is. A negative one yields 0 to 2 levels. |
| ElbeemResolution.GridLevelsMonotone | source/blender/editors/physics/physics_fluid.c:930-940 | The automatic level count never decreases as the resolution grows. |
| ElbeemResolution.GridLevelsThresholds | source/blender/editors/physics/physics_fluid.c:930-940 | Automatic levels: 0 up to 64 cells, 1 up to 128, 2 beyond, each in both directions. |
| MantaBake.Report | source/blender/editors/physics/physics_fluid.c:1343-1354 | The job reports complete exactly on success. It reports canceled exactly on failure with an empty error, and otherwise a failure carrying the error text. |
| MantaBake.Range | source/blender/editors/physics/physics_fluid.c:1264 | The frames from a up to b, in order, one by one. |
| MantaBake.Sweep | source/blender/editors/physics/physics_fluid.c:1264-1287 | The loop from a frame on keeps the frame range and the error, and only appends to the frames evaluated. It can only lose success, and only by a pause at a frame within the range. |
| MantaBake.SweepUnpaused | source/blender/editors/physics/physics_fluid.c:1264-1290 | Without a pause, the loop evaluates every remaining frame in order. It leaves the pause frame at the last frame and restores the scene frame. |
| MantaBake.SweepPausedAt | source/blender/editors/physics/physics_fluid.c:1264-1275 | A pause at the m-th look stops the loop. At that point the loop has evaluated m frames, the pause frame is the unevaluated frame, and the job has failed. |
| MantaBake.SweepSucceeds | source/blender/editors/physics/physics_fluid.c:1264-1275 | The loop keeps success exactly when no pause arrives during its remaining frames. |
| MantaBake.BakeReport | source/blender/editors/physics/physics_fluid.c:1232-1354 | A bake over a non-empty range reports complete exactly when no pause arrived. Otherwise it reports canceled or the error. |
| MantaBake.FullBake | source/blender/editors/physics/physics_fluid.c:1256-1290 | A fresh, unpaused bake evaluates every frame of the range once, in order, and ends with the pause frame on the last frame. |
| MantaBake.ResumeCoversEveryFrame | source/blender/editors/physics/physics_fluid.c:1256-1290 | A bake paused at frame start+m, then resumed, evaluates the frames start..start+m-1 and then the rest. Together the two runs cover every frame once, in order. |
| MantaBake.ZeroPauseFrameRestarts | source/blender/editors/physics/physics_fluid.c:1256-1268 | A pause at frame 0 stores 0, which also means "not started". Resuming restarts from the first frame and re-evaluates the frames already baked. |
| MantaBake.EmptyRangeReportsComplete | source/blender/editors/physics/physics_fluid.c:1241-1246 | As written, an empty frame range sets the error, evaluates no frame, and is still reported complete. |
| MantaBake.LastFramePauseLooksFinished | source/blender/editors/physics/physics_fluid.c:1264-1274 | As written, a bake paused at its last frame has the same pause frame as a finished one, although it never evaluated that frame. The panel's test then offers no Resume. |
| MantaBake.IntendedEmptyRangeFails | source/blender/editors/physics/physics_fluid.c:1241-1246 | With the corrected bake, an empty range is reported as a failure naming it. |
| MantaBake.IntendedBakeNeedsIntendedPanel | release/scripts/startup/bl_ui/properties_physics_smoke.py:166 | With the corrected bake, a pause at the last frame still fails the panel's test as written (pause < end), so Resume is hidden. The test pause <= end offers it. |
| MantaBake.IntendedPauseFrameTellsUnfinished | source/blender/editors/physics/physics_fluid.c:1264-1274 | With the corrected bake and the panel test pause <= end, Resume is offered exactly when the bake did not finish. |
| MantaBake.IntendedResumeAfterLastFramePause | source/blender/editors/physics/physics_fluid.c:1264-1274 | With the corrected bake, a pause at the last frame leaves work to resume. Resuming evaluates that frame and finishes. |
| MantaBake.FreeCursor | source/blender/editors/physics/physics_fluid.c:1521-1582 | As written, a free resets only the freed kind's own pause frame. |
| MantaBake.FreeDataKeepsNoisePause | source/blender/editors/physics/physics_fluid.c:1521-1541 | After freeing data, the noise bits are cleared but the noise pause frame is kept. The next noise bake skips every frame before it. |
| MantaBake.FreeCursorIntended | source/blender/editors/physics/physics_fluid.c:1521-1541 | With the corrected free, every kind the free wipes has its pause frame reset. The others are kept. |
| MantaBake.IntendedFreeRestartsWiped | source/blender/editors/physics/physics_fluid.c:1521-1541 | With the corrected free, the next bake of a wiped kind evaluates the whole frame range. |
| MantaBake.MantaJob.BakeSequence | source/blender/editors/physics/physics_fluid.c:1232-1291 | The loop's effect on the domain, scene and job is exactly `Bake` of the old state. The cache flags and the other kinds' pause frames are unchanged. |
| MantaBake.MantaJob.SweepFrame | source/blender/editors/physics/physics_fluid.c:1264-1287 | One loop pass records the frame as the pause frame. It stops with failure on a pause, and otherwise sets the scene frame and evaluates it. |
| MantaBake.MantaJob.BakeStartJob | source/blender/editors/physics/physics_fluid.c:1357-1425 | The kind is marked baking and the render lock is taken. Then success is reset, the break flag is cleared, and the whole bake runs. |
| MantaBake.MantaJob.BakeEndJob | source/blender/editors/physics/physics_fluid.c:1306-1355 | The kind is marked baked and the render lock is released. The report follows the success flag and the error. |
| MantaBake.MantaJob.FreeStartJob | source/blender/editors/physics/physics_fluid.c:1501-1592 | The free clears the flags as `FreeCache` does and resets pause frames as `FreeCursor` does. It rewinds the scene to the start frame and evaluates it once. |
| MantaBake.MantaJob.FreeEndJob | source/blender/editors/physics/physics_fluid.c:1477-1499 | The render lock is released and the report follows the success flag and the error. |
| MantaBake.BakeExec | source/blender/editors/physics/physics_fluid.c:1427-1445 | Without a modifier or a domain, the operator cancels with the messages of fluid_manta_initjob and modifies nothing. Otherwise it bakes synchronously: the domain's pause frame and error, the scene's frame and updates and `G.is_break` end as `Bake` gives them from the old state with success set and the break flag cleared. It finishes with the report of that result, the kind marked baked and the render lock released. Other kinds' pause frames are kept. |
| MantaBake.FreeExec | source/blender/editors/physics/physics_fluid.c:1594-1645 | Without a modifier or a domain, the operator cancels with a message and modifies nothing. With a domain it finishes exactly when the free guard passes. It then frees as `FreeCache` does, resets the pause frames as `FreeCursor` does, clears the break flag and moves the scene to the start frame with one update there. Otherwise it cancels with "pending bake jobs found" and leaves the domain, the scene and both global flags unchanged. |
| MantaBake.PauseExec | source/blender/editors/physics/physics_fluid.c:1647-1670 | Without a modifier or a domain, the operator cancels (with the free operator's messages). Otherwise it raises the break flag. Nothing else changes. |
| SmokeStages.RoundHalfLog2Sq | intern/mantaflow/intern/strings/smoke_script.h:74-77 | The rounded half logarithm is the r with 2^(2r-1) <= s < 2^(2r+1), or 0 below 2. |
| SmokeStages.Octaves | intern/mantaflow/intern/strings/smoke_script.h:70-77 | 0 octaves below upres 1 and 1 at upres 1. Above that, log2(upres) rounded half up, stated by its bounds. |
| SmokeStages.RoundHalfLog2SqUnique | intern/mantaflow/intern/strings/smoke_script.h:74-77 | The octave count is the only value whose bounds enclose upres². |
| SmokeStages.OctavesOfPowerOfTwo | intern/mantaflow/intern/strings/smoke_script.h:74-77 | For upres = 2^k, the octave count is k. |
| SmokeStages.OctavesMonotone | intern/mantaflow/intern/strings/smoke_script.h:74-77 | A finer noise grid never gets fewer octaves. |
| SmokeStages.AdvectionOrder | intern/mantaflow/intern/strings/smoke_script.h:299-318 | The advections come in strictly increasing grid rank, so none is repeated. Density is first and velocity last. |
| SmokeStages.AdvectionRanksIncrease | intern/mantaflow/intern/strings/smoke_script.h:299-318 | Any earlier advection is of a lower-ranked grid than any later one. |
| SmokeStages.AdvectionRankAt | intern/mantaflow/intern/strings/smoke_script.h:299-318 | The grid of the i-th advection is determined by which feature blocks come before it. |
| SmokeStages.AdvectionSelection | intern/mantaflow/intern/strings/smoke_script.h:299-318 | Heat, fuel/react and the colors are advected exactly when their feature is on. Only velocity gets boundary arguments, open exactly when the domain is. The block length counts the enabled grids. |
| SmokeStages.PressureOnce | intern/mantaflow/intern/strings/smoke_script.h:351-356 | The step makes exactly one pressure solve, as its last stage. It is guided exactly with guiding on, with pressure fixing exactly for a closed domain. |
| SmokeStages.BuoyancyCalls | intern/mantaflow/intern/strings/smoke_script.h:326-332 | The buoyancy calls are density then heat, with their coefficients, when heat is on. Otherwise one density call without a coefficient is made, and no other buoyancy call. |
| SmokeStages.OutflowSelection | intern/mantaflow/intern/strings/smoke_script.h:320-321 | The outflow is reset exactly for an open domain, and then first after advection. |
| SmokeStages.ObstacleSelection | intern/mantaflow/intern/strings/smoke_script.h:337-342 | Each obstacle-velocity stage is made exactly when there is an obstacle. |
| SmokeStages.ObstacleVelocityOrder | intern/mantaflow/intern/strings/smoke_script.h:337-342 | With an obstacle, the stages are: extrapolate inside over half the resolution, then one cell outside, then resample, consecutively. |
| SmokeStages.InvelSelection | intern/mantaflow/intern/strings/smoke_script.h:345-346 | The initial velocity is set exactly when it is enabled. |
| SmokeStages.WallSelection | intern/mantaflow/intern/strings/smoke_script.h:323-349 | The walls get obstacle velocities exactly with an obstacle. Vorticity and the force field are always applied. |
| SmokeStages.SmokeStepEvents | intern/mantaflow/intern/strings/smoke_script.h:296-356 | smoke_step makes no stage of the surrounding frame step. |
| SmokeStages.AdaptiveStepEnds | intern/mantaflow/intern/strings/smoke_script.h:239-266 | The frame step begins with the time parameters and the pre-step. It ends with the solver step and the post-step. |
| SmokeStages.FrameStageSelection | intern/mantaflow/intern/strings/smoke_script.h:239-266 | The stages of the frame step outside smoke_step are exactly its head and its tail. |
| SmokeStages.FrameStageFeatures | intern/mantaflow/intern/strings/smoke_script.h:249-262 | The obstacle levelset is joined exactly with an obstacle and the outflow levelset always. Burn and flame update happen exactly with fire. |
| SmokeStages.AdaptiveStepBlock | intern/mantaflow/intern/strings/smoke_script.h:254-264 | smoke_step runs as one block. It comes after the grid fill (after the burn with fire) and is followed by the flame update with fire, else by the solver step. |
| SmokeNoise.Update | intern/mantaflow/intern/strings/smoke_script.h:132-134 | A dictionary update keeps every key, and the new entries win. |
| SmokeNoise.UpdatesCommute | intern/mantaflow/intern/strings/smoke_script.h:140-204 | Updates with disjoint key sets commute. |
| SmokeNoise.DataTemplatesDisjoint | intern/mantaflow/intern/strings/smoke_script.h:96-194 | The data templates (base, colors, heat, fire) name pairwise disjoint keys. |
| SmokeNoise.NoiseTemplatesDisjoint | intern/mantaflow/intern/strings/smoke_script.h:112-204 | The noise templates name pairwise disjoint keys. |
| SmokeNoise.DataKeysFromTemplates | intern/mantaflow/intern/strings/smoke_script.h:96-194 | The data keys are the union of the templates of the enabled features. |
| SmokeNoise.NoiseKeysFromTemplates | intern/mantaflow/intern/strings/smoke_script.h:112-204 | The noise keys are the union of the noise templates of the enabled features. |
| SmokeNoise.AllocatedDataKeys | intern/mantaflow/intern/strings/smoke_script.h:96-194 | After allocation the data dictionary holds exactly the keys of the enabled features. |
| SmokeNoise.AllocatedNoiseKeys | intern/mantaflow/intern/strings/smoke_script.h:112-204 | After allocation the noise dictionary holds exactly the keys of the enabled features. |
| SmokeNoise.PreStepUv | intern/mantaflow/intern/strings/smoke_script.h:218-227 | From an empty list, two identity grids. From an initialised one, the textures are copied into the first two grids and the rest are kept. |
| SmokeNoise.PostStepTextures | intern/mantaflow/intern/strings/smoke_script.h:229-233 | The two texture triples receive the first two UV grids. |
| SmokeNoise.PostThenPreRestores | intern/mantaflow/intern/strings/smoke_script.h:210-233 | A post-step followed by a pre-step gives back the UV list unchanged. |
| SmokeNoise.PreThenPostKeepsTextures | intern/mantaflow/intern/strings/smoke_script.h:210-233 | A pre-step followed by a post-step gives back the textures. |
| SmokeNoise.PreStepLength | intern/mantaflow/intern/strings/smoke_script.h:218-227 | After the pre-step the list holds uvs grids. |
| SmokeNoise.StepUvs | intern/mantaflow/intern/strings/smoke_script.h:374-378 | Every UV grid is stepped once, in place. |
| SmokeNoise.StepUvPrefix | intern/mantaflow/intern/strings/smoke_script.h:374-378 | After i passes of the UV loop, exactly the first i grids are stepped. |
| SmokeNoise.StepUvsTimesAt | intern/mantaflow/intern/strings/smoke_script.h:278-292 | After n noise steps, each grid has been stepped n times and none changes place. |
| SmokeNoise.SteppedTimesInjective | intern/mantaflow/intern/strings/smoke_script.h:278-292 | Different numbers of steps give different step histories of a UV grid, so no step is lost or merged. |
| SmokeNoise.SteppedTimesGrows | intern/mantaflow/intern/strings/smoke_script.h:278-292 | Each noise step adds exactly one level to a UV grid's history. |
| SmokeNoise.UvAdvectTraceAt | intern/mantaflow/intern/strings/smoke_script.h:374-378 | Grid i is advected at position 2i, and its weight is updated (reset time 10) right after. |
| SmokeNoise.NoiseOctavesLength | intern/mantaflow/intern/strings/smoke_script.h:392-397 | The octave loop makes octaves·uvs noise applications. |
| SmokeNoise.NoiseOctavesAt | intern/mantaflow/intern/strings/smoke_script.h:389-397 | At octave q, UV grid i gets its noise application at position q·uvs+i, with spatial scale 2^(q+1). |
| SmokeNoise.SubstepTrace | intern/mantaflow/intern/strings/smoke_script.h:399-412 | Each high-resolution substep ends with the density advection, with open bounds exactly for an open domain. |
| SmokeNoise.HighResTraceLength | intern/mantaflow/intern/strings/smoke_script.h:399-412 | The substep loop makes k substeps of equal length. |
| SmokeNoise.HighResTraceBlock | intern/mantaflow/intern/strings/smoke_script.h:399-412 | Substep j occupies its own block of the loop's trace. |
| SmokeNoise.HighResDensityLast | intern/mantaflow/intern/strings/smoke_script.h:411-412 | Every substep ends with the density advection on the noise grid. |
| SmokeNoise.Substeps | intern/mantaflow/intern/strings/smoke_script.h:399 | There are upres substeps, and none for a negative upres. |
| SmokeNoise.NoiseApplications | intern/mantaflow/intern/strings/smoke_script.h:366-412 | The noise applications of step_noise are exactly those of the octave loop: octaves·uvs, none elsewhere. |
| SmokeNoise.StepNoiseNone | intern/mantaflow/intern/strings/smoke_script.h:366-412 | A predicate that holds of no call of step_noise selects nothing from it. |
| SmokeNoise.StepNoiseStart | intern/mantaflow/intern/strings/smoke_script.h:370-376 | step_noise interpolates density, then velocity, then advects the first UV grid. |
| SmokeNoise.StepNoiseEnd | intern/mantaflow/intern/strings/smoke_script.h:399-412 | With upres at least 1, step_noise ends with the density advection on the noise grid. |
| SmokeNoise.FirstAdvance | intern/mantaflow/intern/strings/smoke_script.h:278-292 | The first pass after which the engine completed the frame. No earlier pass completed it. |
| SmokeNoise.SelectRepeat | intern/mantaflow/intern/strings/smoke_script.h:278-292 | Selecting from the loop's repeated passes selects from each pass. |
| SmokeNoise.IterationSolverStep | intern/mantaflow/intern/strings/smoke_script.h:278-292 | Each pass of the loop makes exactly one step of the noise solver. |
| SmokeNoise.SolverStepsPerPass | intern/mantaflow/intern/strings/smoke_script.h:268-294 | The noise step makes one noise-solver step per pass, and no other. |
| SmokeNoise.UvTransfersOnce | intern/mantaflow/intern/strings/smoke_script.h:268-294 | The UV list is set up once before the loop and copied back once after it, however many passes run. |
| SmokeNoise.NoiseFrameFirst | intern/mantaflow/intern/strings/smoke_script.h:272-273 | The noise frame and its time (frame · dt0) are set before anything else. |
| SmokeNoise.SmokeProgram.AllocColors | intern/mantaflow/intern/strings/smoke_script.h:140-158 | The color grids join the data dictionary, and with noise also the noise dictionary. Nothing else changes. |
| SmokeNoise.SmokeProgram.AllocHeat | intern/mantaflow/intern/strings/smoke_script.h:178-184 | The heat grid joins the data dictionary only. |
| SmokeNoise.SmokeProgram.AllocFire | intern/mantaflow/intern/strings/smoke_script.h:186-204 | The fire grids join the data dictionary, and with noise also the noise dictionary. |
| SmokeNoise.SmokeProgram.PreStepNoise | intern/mantaflow/intern/strings/smoke_script.h:210-227 | The UV list becomes `PreStepUv` of the old list and textures. The trace gains the obstacle interpolation (with an obstacle) and the creation or restoration of the grids. |
| SmokeNoise.SmokeProgram.PostStepNoise | intern/mantaflow/intern/strings/smoke_script.h:229-233 | The textures become the first two UV grids and the two copies are traced. The list is kept. |
| SmokeNoise.SmokeProgram.StepNoise | intern/mantaflow/intern/strings/smoke_script.h:366-412 | Every UV grid is stepped once and the trace gains exactly `StepNoiseTrace`. The dictionaries, textures and frame are kept. |
| SmokeNoise.SmokeProgram.AdvectUvs | intern/mantaflow/intern/strings/smoke_script.h:374-378 | The UV loop steps each grid once and traces its advection and weight update, in order. |
| SmokeNoise.SmokeProgram.ApplyNoiseOctaves | intern/mantaflow/intern/strings/smoke_script.h:388-397 | The octave loop traces exactly the octave rows, the spatial scale doubling from 2. Nothing else changes. |
| SmokeNoise.SmokeProgram.AdvectHighRes | intern/mantaflow/intern/strings/smoke_script.h:399-412 | The substep loop traces exactly int(upres) substeps. |
| SmokeNoise.SmokeProgram.NoiseSolverStep | intern/mantaflow/intern/strings/smoke_script.h:292 | One `sn.step()` traces one high-resolution solver step and advances the noise frame by one exactly when the engine reports the frame complete. The UV grids, textures and dictionaries are kept. |
| SmokeNoise.SmokeProgram.StartNoiseFrame | intern/mantaflow/intern/strings/smoke_script.h:272-273 | The noise frame becomes framenr and the noise time framenr·dt0, and that setting is traced. The UV grids, textures and dictionaries are kept. |
| SmokeNoise.SmokeProgram.NoisePass | intern/mantaflow/intern/strings/smoke_script.h:279-292 | One pass steps every UV grid once and traces exactly one loop iteration. It advances the noise frame exactly when the engine says so. The textures and dictionaries are kept. |
| SmokeNoise.SmokeProgram.RunNoisePasses | intern/mantaflow/intern/strings/smoke_script.h:278-292 | The loop runs until the first pass that completes the frame, and no further. Every UV grid is stepped once per pass, and the frame advances by exactly one. |
| SmokeNoise.SmokeProgram.AdaptiveStepNoise | intern/mantaflow/intern/strings/smoke_script.h:268-294 | The noise frame starts at framenr with time framenr·dt0 (the traced `SetNoiseFrame`) and ends one past framenr. The UV list is the pre-stepped list stepped once per pass, and the textures are saved from it. The trace is `AdaptiveNoiseTrace`. |
| SmokeNoise.SmokeProgram.AdaptiveStep | intern/mantaflow/intern/strings/smoke_script.h:239-266 | The base frame step traces exactly `AdaptiveStepTrace` and changes nothing of the noise state. |
| SmokeNoise.SmokeProgram.Step | intern/mantaflow/intern/strings/smoke_script.h:465-468 | The standalone step runs the base step, then the noise step exactly when noise is on. With noise, the UV list, textures and noise frame end as in `AdaptiveStepNoise`. Without it, the noise state is kept. The dictionaries are kept either way. |
| SmokeNoise.AllocateAll | intern/mantaflow/intern/strings/smoke_script.h:96-204 | Allocating the enabled features gives exactly the dictionaries `AllocatedData` and `AllocatedNoise`, an empty trace and no UV grid. |
| SmokeNoise.Loaders | intern/mantaflow/intern/strings/smoke_script.h:456-462 | The loaders of a list of load calls, in order. |
| SmokeNoise.StandaloneLoadsNoiseFromParticles | intern/mantaflow/intern/strings/smoke_script.h:459-460 | As written, with noise on, the noise dictionary is loaded from the particle bake's directory, not the noise bake's. |
| SmokeNoise.IntendedLoadReadsOwnCaches | intern/mantaflow/intern/strings/smoke_script.h:456-462 | With the corrected load, the same loaders run in the same order, each reading the directory its bake writes. |

## Left out

- File and directory handling is not modelled: cache paths, creating and deleting cache directories, the file formats, and the save and load functions' file access. A load is modelled only by the directory it reads.
- The job system is not modelled: threads, the job timer, progress reporting, draw locks and the modal and invoke handlers. The free job and the bake job run synchronously, one call after the other.
- The solver numerics are not modelled. Advection, pressure, buoyancy, noise amplitudes (the 0.06 strength decay, `getUvWeight`) and the legacy Elbeem solver are engine calls, recorded only by which call is made with which structural arguments.
- Floating point is modelled as `real`, so rounding in `init_time` and in the noise frame time is not captured.
- The engine-side Mantaflow wrapper (MANTA.cpp) is not part of this model. Its cache loading and the code that fills the `$...$` placeholders of the script are excluded with it.
- The legacy bake's export of objects and meshes (`fluidsimBake`, `export_fluid_objects`, `fluid_init_all_channels`) is left out, except the parts modelled above: the scene check, the channel writes, the time table and the resolution settings.
- `FluidChannels.FluidObject.SetVertexChannel` does not model the mesh buffers (`verts`, `tris`) it receives from `initElbeemMesh`. It also leaves out that the mismatch path returns without freeing them, a leak that needs a model of the allocator.
- `FluidChannels.InitTime` requires a length of at least 1. The legacy bake rejects an end frame of 0 or less before calling it.
- `CacheFlags` places each kind's baking and baked flags on consecutive bits, because the header defining the bit values is not part of this model. All properties refer to the bits by name.
- `MantaBake.MantaJob.BakeSequence` models `G.is_break` as a sequence of pause answers that becomes true once a request arrives. The timing of a pause relative to frames is not modelled.
- `SmokeNoise.SmokeProgram.NoiseSolverStep`, `NoisePass`, `RunNoisePasses`, `AdaptiveStepNoise` and `Step` say nothing about the noise solver's time (`sn.timeTotal`) after `sn.step()`. The engine advances it, and the engine is not part of this model. Only the time set at the start of the noise step (framenr·dt0) is stated.
- `SceneValidation` models object identity by the `id` field and does not require ids to be distinct. Two objects with the same id count as the same object when the given domain is compared.
- `SmokeNoise.SmokeProgram.AdaptiveStepNoise` requires that the engine eventually completes the frame (`true in advances`). A noise solver that never advances, so that the loop would not terminate, is not modelled.

## Findings

| source | as written | input that shows it | evidently intended | confidence | as-written member | corrected member |
|---|---|---|---|---|---|---|
| source/blender/editors/physics/physics_fluid.c:1241-1246 | An empty frame range sets the error "No frames to bake" and returns, but leaves the job's success at 1. The end job then reports the bake complete. | cache_frame_start = 10, cache_frame_end = 5 | The job fails and the end job reports the error | not executed | MantaBake.EmptyRangeReportsComplete | MantaBake.IntendedEmptyRangeFails |
| source/blender/editors/physics/physics_fluid.c:1264-1274 | The pause frame is stored before the break check. A bake paused at its last frame and a finished bake both leave the pause frame on the last frame. The interface's "bake incomplete" test (pause < end, release/scripts/startup/bl_ui/properties_physics_smoke.py:166) then offers no Resume, although the last frame was never evaluated. | start 1, end 3, pause requested at the third check | A finished bake leaves its pause frame past the last frame. The panel's test becomes pause <= end as well, so a paused bake offers Resume, and resuming evaluates the missing frame | not executed | MantaBake.LastFramePauseLooksFinished | MantaBake.IntendedResumeAfterLastFramePause |
| source/blender/editors/physics/physics_fluid.c:1521-1541 | Freeing data clears the noise, mesh and particles flags and deletes their caches. It resets only the data pause frame. A later noise bake resumes at the stale noise pause frame and skips the frames before it. | noise paused at frame 5 of 1..10, then free data, then bake noise | Every wiped cache's pause frame is reset to 0 | not executed | MantaBake.FreeDataKeepsNoisePause | MantaBake.IntendedFreeRestartsWiped |
| source/blender/editors/physics/physics_fluid.c:275-279 | On a vertex-count mismatch the channel is freed and only the function's local copy of the reference is cleared. The object's VertexCache still refers to freed memory, and the channel cleanup at lines 334-337 frees it again. | an animated mesh whose vertex count changes between frames | The object's vertex cache reference is cleared too, so the cleanup frees it once | not executed | FluidChannels.MismatchThenFree | FluidChannels.FixedThenFree |
| source/blender/editors/physics/physics_fluid.c:475-477 | After a mismatch the object keeps referring to the freed vertex cache, and the frame loop passes it to set_vertex_channel again on every later frame. A later frame with the original vertex count writes into freed memory (lines 282-285). A later mismatch frees it again (line 276). | an animated mesh whose vertex count changes at frame 0 of a bake of two or more frames | No later frame is handed the freed cache | not executed | FluidChannels.MismatchThenNextFrame | FluidChannels.FixedTwoFrames |
| intern/mantaflow/intern/strings/smoke_script.h:459-460 | The standalone load reads the noise dictionary from the 'particles' cache directory, while the noise bake writes its cache to the noise directory. | using_noise on | The noise cache is read from the noise directory | not executed | SmokeNoise.StandaloneLoadsNoiseFromParticles | SmokeNoise.IntendedLoadReadsOwnCaches |

The job class and the operators follow the code as written. Each corrected definition (`BakeIntended`, `FreeCursorIntended`, `FluidObject.SetVertexChannelFixed`, `StandaloneLoadIntended`) sits beside its as-written counterpart, with the intended property proved about it.

Two observed behaviours are not treated as findings, because the code does not show which was intended:

- The channel-object check refuses 255 objects although its message says "more than 256" (`SceneValidation.ChannelLimitBoundary`).
- A pause frame of 0 doubles as "not started" (`MantaBake.ZeroPauseFrameRestarts`).
