# A verified model of a minimal libretro core

The repository is a skeleton libretro core: a plugin that a libretro frontend
(the host) loads. The host registers callbacks, calls `retro_init`, calls
`retro_run` once per frame, and finally calls `retro_deinit`. SDL is the
rendering backend. `retro_init` creates a hidden window, a software renderer
and a 640 x 480 streaming texture. `retro_run` locks the texture, paints it
opaque black with an opaque red 200 x 200 square at (100, 100), unlocks it and
hands it to the host. It then polls input and reports zero audio frames.
Every other entry point stores a callback, returns a constant or does nothing.

The model has four modules:

- `Pixels` (pixels.dfy): the frame fill. The locked buffer is an
  `array<bv32>` with `pitch / 4` words per row. `FillRect` is the nested loop
  shape shared by both loop nests of `retro_run`. It is proved against the
  specification function `Painted`. `Rendered` is the whole frame, and lemmas
  give its value at every visible pixel, stride-padding word and trailing word.
- `Trace` (trace.dfy): backend handles, host callbacks, and the events the
  core causes. Events are acquisitions, releases, lock and unlock, and calls
  into the host. `Acquired`, `Released` and `HostCalls` read a trace as the
  resources acquired, the resources released and the host calls, each in order.
- `LibretroCore` (core.dfy): the C globals become the fields of class `Core`.
  These are the six callback slots, `window`, `renderer`, `screen_texture`,
  `running`, and a ghost `trace` of every event so far. `Init`, `Deinit`, `Run` and
  the setters update the fields in place. Their `ensures` tie the new state and
  the new trace events to pure functions (`AfterInit`, `InitCalls`,
  `AfterDeinit`, `DeinitCalls`, `RunCalls`). The lifecycle lemmas are proved
  about those functions.
- `Stubs` (stubs.dfy): the constant entry points and the integer geometry.

The SDL calls are not modelled, only their outcomes. `InitOutcome` says
whether `SDL_Init` succeeds and which handle each `SDL_Create*` call returns
(`Null` on failure). `LockResult` says whether `SDL_LockTexture` succeeds and
which pitch it reports. The buffer it hands out is the `pixels` argument of
`Core.Run`.

The source does not null the earlier handles when `retro_init` rolls back
after a failure (src/main.c:64, 78-79). A later `retro_deinit` then destroys
the window, and after a texture failure also the renderer, a second time.
One could read the lifecycle as promising that no handle is ever released
twice, but the code does not do that. The model follows the code. It proves
the second destroy (`RendererFailureThenDeinitDestroysWindowTwice`,
`TextureFailureThenDeinitDestroysTwice`). Rollback order and idempotent
deinit are proved as the code gives them.

`retro_init` does not check whether the core is already running. A second
`retro_init` after a successful one that fails at the window step leaves
`running` at 1. It nulls `window` but keeps the earlier renderer and texture
handles (`ReinitWindowFailureKeepsRunning`). One that fails at the texture
step also leaves `running` at 1, with `screen_texture` null
(`ReinitTextureFailureKeepsRunning`). A later `retro_run` then passes the null
texture to SDL_LockTexture. SDL rejects a null texture, but the lock outcome is
a free parameter of `Core.Run`, so the model also admits a successful lock of
`Null` there. The model allows all of this, as the code does.

## Model

| member | source | states |
|---|---|---|
| Pixels.Stride | src/main.c:148 | Words per row is the byte pitch divided by 4 and rounded toward zero, as C's `/` on `int` does, for negative pitches too. |
| Pixels.FillRect | src/main.c:146-157 | The nested row/column loops write the colour to word `y * stride + x` for every row in [top, bottom) and column in [left, right) and leave every other word of the buffer as it was. All writes are in bounds when rows fit the stride and the buffer holds `bottom` rows. |
| Pixels.Painted | src/main.c:146-157 | Either loop nest's result as a value: the buffer has the same length, and every word is either the nest's colour or its old value. |
| Pixels.Rendered | src/main.c:146-157 | The buffer after both loop nests, as a value: the same length, and every word is opaque black, opaque red, or its old value. |
| Pixels.IndexRowCol | src/main.c:148 | Word `y * stride + x` (x < stride) lies in row y, column x, so distinct (y, x) pairs address distinct words. |
| Pixels.RenderedAt | src/main.c:146-157 | After both loop nests, the word at (y, x) for y < 480 and x < 640 is in bounds and is 0xFFFF0000 inside rows and columns 100..299 and 0xFF000000 elsewhere. |
| Pixels.RenderedKeepsPadding | src/main.c:146-157 | Stride-padding words (columns 640 up to the stride, in the first 480 rows) keep their old value. |
| Pixels.RenderedKeepsTail | src/main.c:146-157 | Words past the first 480 rows keep their old value. |
| LibretroCore.Core.constructor | src/main.c:6-18 | At load time every callback slot is unset, every handle is null, `running` is 0 and nothing has been called. |
| LibretroCore.Core.Init | src/main.c:42-85 | `retro_init` runs SDL_Init, then creates the window, the renderer for that window, and the texture for that renderer. If SDL_Init fails it returns at once, with no other call. If a creation step fails, it destroys what the earlier steps created, last first, calls SDL_Quit and returns. Each failed step stores its null result; earlier handles keep their values. `running` becomes 1 only after the texture; the callbacks are unchanged. |
| LibretroCore.Core.Deinit | src/main.c:88-97 | `retro_deinit` destroys the texture, renderer and window (only the non-null ones, in that order) and calls SDL_Quit. It then nulls all three handles and sets `running` to 0. |
| LibretroCore.Core.SetEnvironment | src/main.c:100-107 | Stores the environment callback, then makes exactly two requests through it: support for running without content, and the XRGB8888 pixel format. |
| LibretroCore.Core.SetVideoRefresh | src/main.c:110 | Stores the video callback and changes nothing else. |
| LibretroCore.Core.SetAudioSample | src/main.c:113 | Stores the single-sample audio callback and changes nothing else. |
| LibretroCore.Core.SetAudioSampleBatch | src/main.c:116 | Stores the batch audio callback and changes nothing else. |
| LibretroCore.Core.SetInputPoll | src/main.c:119 | Stores the input poll callback and changes nothing else. |
| LibretroCore.Core.SetInputState | src/main.c:120 | Stores the input state callback and changes nothing else. |
| LibretroCore.Core.Run | src/main.c:131-177 | When `running` is 0, nothing changes and nothing is called. When the lock fails, only the failed lock is recorded and the pixels and `running` are unchanged. Otherwise the buffer becomes the rendered frame. The calls are lock (recording the buffer as handed out), unlock (recording it rendered, so both fills happen while the texture is locked), video refresh with that frame, 640, 480 and the pitch, input poll, and audio batch with 0 frames. Handles, `running` and the callbacks never change. |
| LibretroCore.RunCalls | src/main.c:132-142 | With `running` at 0, `retro_run` makes no call at all. After a failed lock it calls no host callback, and none of its events is an unlock. |
| LibretroCore.FrameCallOrder | src/main.c:136-176 | With a successful lock, the texture is locked with the buffer as it was and unlocked with the buffer rendered, before any host call. Every later event is a host call, so lock and unlock are the frame's only backend events. The host is called exactly three times, in order: video refresh (rendered frame, 640, 480, pitch) through the registered video callback, input poll, and audio batch with zero frames. |
| LibretroCore.FrameMatchesGeometry | src/main.c:162 | The frame handed to the video callback has the base width and height reported by `retro_get_system_av_info`, with every word of the buffer. |
| LibretroCore.EnvironmentCalls | src/main.c:100-107 | The environment requests are two host calls, both through the callback just stored. |
| LibretroCore.InitRunsOnlyOnFullSuccess | src/main.c:44-84 | Starting from `running` 0, `retro_init` ends with `running` 1 exactly when SDL_Init and all three creation steps succeed. Otherwise `running` stays 0. On success the globals hold the window, renderer and texture. |
| LibretroCore.ReinitWindowFailureKeepsRunning | src/main.c:44-59 | A `retro_init` made while `running` is 1 that fails at the window step leaves `running` at 1, nulls `window` and keeps the old renderer and texture handles. |
| LibretroCore.ReinitTextureFailureKeepsRunning | src/main.c:70-82 | A `retro_init` made while `running` is 1 that fails at the texture step leaves `running` at 1, nulls the texture handle and stores the new window and renderer handles. |
| LibretroCore.InitVideoFailure | src/main.c:44-47 | When SDL_Init fails, nothing is acquired or released. |
| LibretroCore.InitWindowFailure | src/main.c:49-59 | When the window cannot be created, only the video subsystem was acquired, and it is released. |
| LibretroCore.InitRendererFailure | src/main.c:61-67 | When the renderer cannot be created, the window and then the video subsystem are released. |
| LibretroCore.InitTextureFailure | src/main.c:70-82 | When the texture cannot be created, the renderer, the window and the video subsystem are released, in that order. |
| LibretroCore.InitSuccess | src/main.c:44-84 | A successful `retro_init` acquires video subsystem, window, renderer and texture, in that order, and releases nothing. |
| LibretroCore.InitRollsBack | src/main.c:44-84 | After a failure at any step, `retro_init` releases exactly the resources it acquired, in reverse order of acquisition. |
| LibretroCore.AfterInit | src/main.c:44-84 | The globals after `retro_init`. `running` becomes 1 on full success and is otherwise unchanged. A failed SDL_Init changes nothing; otherwise `window` holds what SDL_CreateWindow returned. On full success the globals hold the three new handles. |
| LibretroCore.InitCalls | src/main.c:44-82 | The backend calls of `retro_init`, in order, for every outcome of the four steps. The first call is SDL_Init. |
| LibretroCore.InitCallsEnd | src/main.c:44-84 | `retro_init` ends with SDL_Quit exactly when SDL_Init succeeded and a creation step failed, and it makes no host call on any path. |
| LibretroCore.WindowStepCalls | src/main.c:49-82 | The calls from SDL_CreateWindow on. The first creates the window, and at least one more call follows: SDL_Quit on failure, otherwise the renderer step. |
| LibretroCore.RendererStepCalls | src/main.c:61-82 | The calls from SDL_CreateRenderer on. The first creates the renderer for the window just created, and at least one more call follows: the rollback on failure, otherwise the texture step. |
| LibretroCore.TextureStepCalls | src/main.c:70-82 | The calls from SDL_CreateTexture on. The first creates the texture for the renderer just created; the rollback after it is stated by `InitTextureFailure`. |
| LibretroCore.DeinitCalls | src/main.c:89-95 | The backend calls of `retro_deinit`: exactly one destroy per handle still held, plus SDL_Quit. |
| LibretroCore.DeinitCallsEnd | src/main.c:89-95 | `retro_deinit` always ends with SDL_Quit and makes no host call. |
| LibretroCore.AfterDeinit | src/main.c:92-96 | After `retro_deinit` no handle is held and `running` is 0. |
| LibretroCore.DeinitReleases | src/main.c:89-95 | `retro_deinit` releases the texture, renderer and window that are non-null, in that order, then the video subsystem. |
| LibretroCore.DeinitAcquiresNothing | src/main.c:88-97 | `retro_deinit` acquires nothing. |
| LibretroCore.DeinitReleasesHeldInReverse | src/main.c:88-97 | `retro_deinit` releases exactly the resources the handles name, in reverse acquisition order, then the video subsystem. |
| LibretroCore.DeinitIdempotent | src/main.c:92-96 | A second `retro_deinit` destroys no handle (its only backend call is SDL_Quit) and leaves the state as the first left it. |
| LibretroCore.InitThenDeinitTrace | src/main.c:42-97 | A successful `retro_init` followed by `retro_deinit` acquires video subsystem, window, renderer and texture, then releases texture, renderer, window and video subsystem. |
| LibretroCore.InitThenDeinitBalanced | src/main.c:42-97 | Over a successful `retro_init` followed by `retro_deinit`, every acquired resource is released exactly once, in reverse acquisition order. |
| LibretroCore.InitThenDeinitNoHostCalls | src/main.c:42-97 | `retro_init` followed by `retro_deinit` makes no host call, whatever the outcome of `retro_init`. |
| LibretroCore.RendererFailureThenDeinitDestroysWindowTwice | src/main.c:61-94 | If renderer creation fails, the rollback destroys the window without nulling its handle, so a later `retro_deinit` destroys the same window again: two destroys in all. |
| LibretroCore.TextureFailureThenDeinitDestroysTwice | src/main.c:70-94 | If texture creation fails, a later `retro_deinit` destroys the renderer and the window a second time. |
| Stubs.SystemAvGeometry | src/main.c:31-35 | Base and maximum geometry are both 640 x 480. |
| Stubs.SerializeSize | src/main.c:123 | The save-state size is 0. |
| Stubs.Serialize | src/main.c:124 | Saving a state is refused for every buffer and size. |
| Stubs.Unserialize | src/main.c:125 | Restoring a state is refused for every buffer and size. |
| Stubs.GetMemoryData | src/main.c:195 | No memory bank is exposed (NULL) for any id. |
| Stubs.GetMemorySize | src/main.c:196 | Every memory bank has size 0, for any id. |
| Stubs.LoadGame | src/main.c:180-182 | Loading succeeds with or without content. |
| Stubs.LoadGameSpecial | src/main.c:197 | Loading special content always fails. |
| Stubs.GetRegion | src/main.c:194 | The region is NTSC. |
| Stubs.ApiVersion | src/main.c:188 | The API version is libretro.h's RETRO_API_VERSION (1). |

## Left out

- SDL itself (SDL_Init, the SDL_Create* and SDL_Destroy* calls, SDL_Quit, SDL_LockTexture, SDL_UnlockTexture): foreign library calls. The model records them as events, and their results are parameters (`InitOutcome`, `LockResult`, the `pixels` array).
- SDL_Quit is recorded every time it is called, but calling it twice (rollback, then `retro_deinit`) is not counted as a double release. SDL makes a repeated SDL_Quit harmless. The double-release lemmas are about window, renderer and texture handles only.
- The debug mirror to the SDL renderer (src/main.c:165-170): foreign rendering calls with no state the core reads back.
- The `printf`/`fprintf` diagnostics: output only.
- The floating-point fields of `retro_get_system_av_info` (aspect ratio, fps and sample rate, src/main.c:36-38): floating point.
- The strings of `retro_get_system_info` (src/main.c:21-28): constants with nothing to prove beyond their equality.
- What the host does with the two environment requests: host code. The model records that the two requests are made, through which callback, and with which arguments.
- The empty entry points `retro_reset`, `retro_unload_game`, `retro_set_controller_port_device`, `retro_cheat_reset` and `retro_cheat_set` (src/main.c:128, 185, 191, 198-199): their bodies are empty and they touch no state.
- Calling through a callback the host never registered: this is undefined behaviour in C. The model records the call with the `Unset` callback.
- The `pixels` pointer passed to the video callback: the event records the frame's contents at the moment of the call instead.
- Integer width: `y * (pitch / 4) + x` is computed with unbounded integers. For the buffer sizes SDL hands out, a C `int` does not overflow here.
- Core.Run: the outcome of SDL_LockTexture is a parameter even when `screen_texture` is null (after a failed re-init), so the model admits a successful lock that SDL itself would refuse.
- Core.Run: requires the reported pitch to give at least 640 words per row, and the buffer to hold 480 rows. The source does not check this; it relies on SDL handing out a buffer for the 640 x 480 texture it created.
- libretro.h is not part of this model. The environment commands, the pixel format and the region are named constructors rather than the header's numbers. RETRO_API_VERSION is taken as 1.
- Concurrency: the core is single-threaded and every call is synchronous.
