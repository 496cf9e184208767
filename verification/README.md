# Progressive ray-tracing accumulation controller

A Dafny model of the accumulation controller in `RayTracingMaster`, the camera script of a
Unity GPU ray tracer. Once per frame the script makes sure a floating-point render target of
the screen's size exists, dispatches the ray-tracing compute kernel over the screen in
8-by-8 thread groups, and blends the new noisy sample onto the displayed image with a
material whose `_Sample` parameter is the number of samples accumulated so far. The counter
restarts at 0 when the target is reallocated or the camera moves, so the running average
starts over whenever the old samples no longer apply.

The model is functional. The script's fields become an immutable `Controller.State`: the
target's size as an option, the sample counter, the transform's `hasChanged` flag, whether
the blend material exists, and how many targets have been allocated and released. Each
engine callback is a pure function returning the next state and the events it caused.
Engine and GPU calls are reduced to events in `Types.Event`:

- `Release` and `Allocate` for the render target;
- `Bind` for `SetTexture` of the target as the kernel output;
- `Dispatch(x, y, 1)` for the kernel dispatch;
- `CreateMaterial` for the lazy blend material;
- `Blit(target, weight)` for the blend.

`Trace.Replay` is an independent reading of such a trace. It tracks which target is live
and rejects any trace that allocates over a live target, releases one that is not live, or
binds or blits anything but the live one.

Files:

- `types.dfy`: sizes, the option type and the events.
- `grid.dfy`: the thread-group arithmetic.
- `trace.dfy`: replay, counting and blend weights of event traces.
- `controller.dfy`: the state and the four operations of the script.
- `frames.dfy`: runs of many frames.
- `scenarios.dfy`: a worked resize scenario.

The sample counter is a C# `uint`, whose `++` wraps silently, so it is modelled as a
32-bit value that wraps at 2^32 (`Controller.Wrap`, `Controller.Inc`). A frame
(`Controller.FrameStep`) follows the engine's order. The camera movement sets the changed
flag, then `Update` runs, then the render callback calls `Render`.

Three consequences of following the code:

- A zero-width or zero-height screen is accepted and gets a zero-sized target; there is
  no invalid-dimension error.
- There is no error path for a failed dispatch or blit.
- After a resize the frame's blit uses weight 0 and the counter is then incremented, so it
  ends the frame at 1.

## Model

| member | source | states |
|---|---|---|
| Grid.GroupCount | Assets/RayTracingMaster.cs:44-45 | the group count along an axis is the least number of 8-pixel groups that covers the extent: they cover it, and they leave fewer than 8 pixels uncovered |
| Grid.GroupCountIsLeast | Assets/RayTracingMaster.cs:44-45 | no smaller number of 8-wide groups covers the extent |
| Grid.FloatGroupCountAgrees | Assets/RayTracingMaster.cs:44-45 | the source's form (convert to float, divide by 8.0, round up) equals exact integer ceiling division |
| Grid.GroupCountExamples | Assets/RayTracingMaster.cs:44-46 | width 1920 takes 240 groups, 1921 takes 241, height 1080 takes 135, and 0 takes 0 |
| Controller.NeedsRealloc | Assets/RayTracingMaster.cs:58 | the guard (no target, or width or height differs) holds exactly when the target is not one of the screen's size |
| Controller.InitRenderTexture | Assets/RayTracingMaster.cs:56-69 | afterwards the target has the screen's size; a fitting target leaves state and events untouched; otherwise the counter is 0, one more target is allocated, the old one (if any) is released first, and nothing else changes |
| Controller.InitRenderTextureSpec | Assets/RayTracingMaster.cs:58-68 | exactly one allocation when the target did not fit and none otherwise; exactly one release when an unfitting target existed; the counts in the state match the events; the trace never holds two live targets |
| Controller.InitRenderTextureIdempotent | Assets/RayTracingMaster.cs:58-68 | a second call at the same size changes nothing and emits nothing, so two calls allocate at most once |
| Controller.Update | Assets/RayTracingMaster.cs:71-78 | a pending change zeroes the counter and clears the flag; with no change the state is untouched; nothing but counter and flag ever changes |
| Controller.UpdateIsEdgeTriggered | Assets/RayTracingMaster.cs:73-77 | a second update with no new camera change does not reset again: one change causes one reset |
| Controller.Render | Assets/RayTracingMaster.cs:37-54 | the target ends at the screen's size and the material exists; the last event blits that target with the pre-increment counter (0 if the target was just reallocated); the counter ends one higher, with uint wrap-around |
| Controller.RenderSpec | Assets/RayTracingMaster.cs:37-54 | a rendered frame blits exactly once with that weight, allocates exactly when the target did not fit, releases exactly when an unfitting target existed, and creates the material exactly when it did not exist |
| Controller.RenderDispatchesBeforeBlit | Assets/RayTracingMaster.cs:42-46 | each frame dispatches the kernel exactly once, over ceil(width/8) by ceil(height/8) by 1 groups, right after its single bind of the target and before the blit |
| Controller.RenderKeepsOneLiveTarget | Assets/RayTracingMaster.cs:37-69 | a frame keeps at most one target live and binds and blits only the live one; a valid state stays valid |
| Controller.FrameStep | Assets/RayTracingMaster.cs:32-35 | one engine frame (camera change recorded, Update, render callback) blits with weight 0 after a camera change or a reallocation and with the counter otherwise, and leaves the flag consumed |
| Controller.FrameStepSpec | Assets/RayTracingMaster.cs:37-78 | a frame's allocations, releases, material creation, single bind and dispatch, and blit weight, stated in terms of the state before the frame |
| Frames.RunAccounting | Assets/RayTracingMaster.cs:49-53 | over any frames the material is created at most once: by the first frame if it was missing, and never by the frames after it; every frame blits once; the state's allocation and release counts match the trace |
| Frames.RunKeepsOneLiveTarget | Assets/RayTracingMaster.cs:58-65 | over any frames every old target is released before a new one is created, so at most one target is live at any time |
| Frames.AdvanceWraps | Assets/RayTracingMaster.cs:13 | n increments of the uint counter add n modulo 2^32, and exactly n while the sum stays below 2^32 |
| Frames.CountingAt | Assets/RayTracingMaster.cs:51-53 | the i-th of n consecutive blend weights from counter c is c incremented i times |
| Frames.QuietFrame | Assets/RayTracingMaster.cs:37-54 | at a fitting size with the camera at rest, a frame blits with the current counter, increments it and allocates nothing |
| Frames.StaticRun | Assets/RayTracingMaster.cs:37-68 | n frames at a fitting size with the camera at rest advance the counter n times and keep the target |
| Frames.StaticRunWeights | Assets/RayTracingMaster.cs:51-53 | those frames blit with the consecutive counter values c, c+1, ... as weights |
| Frames.StaticRunAllocatesNothing | Assets/RayTracingMaster.cs:58-68 | frames at the size of the existing target allocate and release nothing |
| Frames.SettledRunAllocatesFirst | Assets/RayTracingMaster.cs:58-68 | from any state, the first of n frames at one size with the camera at rest allocates exactly when the target did not fit, and the frames after it allocate nothing |
| Frames.SettledRunAllocatesOnce | Assets/RayTracingMaster.cs:58-68 | from any state, n frames at one size with the camera at rest allocate at most once in total, and only if the target did not fit |
| Frames.SettledRunCounter | Assets/RayTracingMaster.cs:37-68 | from any state, n frames at one size with the camera at rest leave a fitting target and the counter advanced n times from its value, or from 0 after a reallocation or a pending camera change |
| Frames.SettledRunWeights | Assets/RayTracingMaster.cs:37-68 | from any state, the weights of n frames at one size with the camera at rest count up by one per frame from the counter, or from 0 after a reallocation or a pending camera change |
| Frames.FreshRun | Assets/RayTracingMaster.cs:13-68 | from a fresh script, n frames (fewer than 2^32) leave the counter at n, blit with weights 0..n-1, allocate once and create the material once |
| Frames.ResizeFrame | Assets/RayTracingMaster.cs:58-67 | a frame at a new size releases the old target, allocates one, and blits with weight 0 whatever the counter was |
| Frames.CameraMoveFrame | Assets/RayTracingMaster.cs:73-77 | a frame after a camera move blits with weight 0 and keeps the fitting target |
| Scenarios.ResizeAfterThreeFrames | Assets/RayTracingMaster.cs:37-78 | at 800x600, three frames blit with weights 0, 1, 2 and allocate once; growing to 801x600 releases and reallocates, blits with weight 0 and leaves the counter at 1 |

## Left out

- `SetShaderParameters` (lines 22-29) is reduced to the `Bind` of the target. The random pixel jitter, the skybox binding and the camera matrices are floating-point or engine values that the controller only passes through.
- `Awake` and `GetComponent` (lines 17-20) fetch the camera. They are engine plumbing with no logic.
- `OnRenderImage` (lines 32-35) only forwards to `Render`. The engine's callback order is modelled by `Controller.FrameStep`.
- Camera movement is one boolean per frame, OR-ed into the changed flag before `Update`. Unity also sets the flag for changes of parent, rotation or scale. A script that moves the camera after this script's `Update` delays the reset by one frame; that is the same frame sequence with `moved` set on the next frame.
- The AddShader blending arithmetic (a running mean with weight 1/(N+1)) and the compute kernel are not part of this model. Only the weight passed to the blend is modelled.
- Grid.FloatGroupCountAgrees: reals stand for single-precision floats. The conversion of a screen extent to float is exact only below 2^24, so larger extents are not modelled.
- Controller.Render: the weight is the exact counter value. The source passes the `uint` counter to `SetFloat`, which rounds counters above 2^24.
- `Shader.Find` failure, a missing compute shader, and GPU resource failures have no handling in the source, so the model has no error path for them.
- The target is never released on shutdown in the source, and the model does not release it either.
