# Metal pixel-buffer resizer: a Dafny model

This project models the resize engine of PerformancePixelBufferResize, the
`Resizer` class. The engine takes a CoreVideo pixel buffer and bridges it to a
Metal texture through a texture cache. It scales that texture into a new
texture of the target size with a bilinear scaler driven by an
`MPSScaleTransform`. It then copies the result into a shared staging buffer
and wraps those bytes as a new pixel buffer.

The project has two modules.

- `ResizeTransform` (`transform.dfy`) holds the transform derivation as a pure
  function over exact reals, `ComputeTransform`. The `PixelResizeMode` raw
  values are 1 = scaleToFill, 2 = scaleAspectFit and 3 = scaleAspectFill. The
  mode is a plain integer, because the enumeration is exported to
  Objective-C and any raw value can reach the `if`/`else if` chain. The module
  also holds the intended geometry as independent predicates: `Uniform`,
  `InsideTarget`, `CoversTarget`, `Centred` and `TouchesOneAxis`. Lemmas tie
  each mode to them. Aspect-fit is proved to be the largest uniform scale that
  fits and the only centred, fitting transform that fills one axis.
  Aspect-fill is proved to be the smallest uniform scale that covers and the
  only centred, covering transform that matches one axis. Under every mode
  the destination rectangle depends only on the source's aspect ratio.
- `ResizeEngine` (`resizer.dfy`) holds the `Resizer` class. Its state is the
  device (present or not, fixed at construction), the optional texture cache
  (set only by `Prepare`) and the lazily created command queue. Every Metal
  and CoreVideo call that can fail is answered by a field of a `Platform`
  record passed in by the caller. The device lookup and the cache creation
  are answered by parameters of the constructor and of `Prepare`. Every
  outcome is therefore covered by the contracts. `ResizeFrame` states exactly
  when it succeeds and what shape its result has. It also returns, as a ghost
  output, the GPU work it commits: the scale by `ComputeTransform`, then the
  copy into the staging buffer. `ResizeStream` runs `ResizeFrame` over a
  stream of frames on one prepared engine. Its loop invariants relate the
  engine state to the call history: the lazy queue is fixed by the first
  call that gets past the bridge, and the flushes are counted per bridge
  failure.

Several behaviours of the code are easy to assume otherwise. The model
follows the code in each case.

- The code commits the command buffer (`Resizer.swift:133`) and wraps the
  staging bytes without waiting for completion. The model records what was
  committed and claims nothing about completion.
- With equal width and height ratios, aspect-fit and aspect-fill translate
  neither axis. The model proves that a translation is non-zero exactly when
  the ratios differ, not that exactly one translation is always non-zero.
- An unrecognised raw mode keeps the zero initialisers, so both scales are 0.
  Scales are strictly positive only for the three recognised modes.
- The bridge always asks for a BGRA texture, whatever the buffer's format.
  The result carries the source buffer's own format code.
- The command queue is a lazy property. If the first `makeCommandQueue`
  returns nil, that nil is kept and every later resize fails at the queue
  guard (`LazyQueue`).
- A second `Prepare` that creates a cache replaces the first one. A second
  `Prepare` whose cache creation fails keeps the earlier cache.

## Model

| member | source | states |
|---|---|---|
| `ResizeTransform.Ratio` | PerformancePixelBufferResize/Resizer.swift:71-72 | each axis ratio is positive and maps the source extent exactly onto the target extent |
| `ResizeTransform.ComputeTransform` | PerformancePixelBufferResize/Resizer.swift:68-108 | under every raw mode the scales are non-negative and at least one translation is 0 |
| `ResizeTransform.StretchFillsExactly` | PerformancePixelBufferResize/Resizer.swift:78-80 | scaleToFill scales X by tW/sW and Y by tH/sH with no translation, so the content is exactly the destination rectangle |
| `ResizeTransform.StretchUniformIffEqualRatios` | PerformancePixelBufferResize/Resizer.swift:78-80 | stretch keeps the aspect ratio if and only if the two ratios are equal |
| `ResizeTransform.AspectFitPlacement` | PerformancePixelBufferResize/Resizer.swift:82-93 | aspect-fit is uniform with scale min(widthRatio, heightRatio), lies inside the target with translations >= 0, is centred (2*translate + source*scale == target on both axes), fills one axis, translates only the branch-chosen axis by (target - source*scale)/2, and translates at all exactly when the ratios differ |
| `ResizeTransform.AspectFitIsLargestFit` | PerformancePixelBufferResize/Resizer.swift:82-93 | every uniform scale that keeps the source inside the target is at most aspect-fit's scale |
| `ResizeTransform.AspectFitIsUnique` | PerformancePixelBufferResize/Resizer.swift:82-93 | any uniform, centred transform that lies inside the target and fills one axis equals aspect-fit's transform |
| `ResizeTransform.AspectFillPlacement` | PerformancePixelBufferResize/Resizer.swift:95-107 | aspect-fill is uniform with scale max(widthRatio, heightRatio), covers the target with translations <= 0, is centred, matches one axis, translates only the branch-chosen axis by (target - source*scale)/2, and crops exactly when the ratios differ |
| `ResizeTransform.AspectFillIsSmallestCover` | PerformancePixelBufferResize/Resizer.swift:95-107 | every uniform scale that covers the target is at least aspect-fill's scale |
| `ResizeTransform.AspectFillIsUnique` | PerformancePixelBufferResize/Resizer.swift:95-107 | any uniform, centred transform that covers the target and matches one axis equals aspect-fill's transform |
| `ResizeTransform.EqualRatiosAgree` | PerformancePixelBufferResize/Resizer.swift:71-108 | when widthRatio == heightRatio the three modes give the same transform: that ratio on both axes, no translation |
| `ResizeTransform.SameSizeIsIdentity` | PerformancePixelBufferResize/Resizer.swift:71-108 | resizing to the source's own size gives scale (1, 1) and translation (0, 0) under each recognised mode |
| `ResizeTransform.ScalesPositiveIffRecognised` | PerformancePixelBufferResize/Resizer.swift:73-108 | both scales are strictly positive if and only if the raw mode is 1, 2 or 3; any other raw value, and only such a value, yields the all-zero transform |
| `ResizeTransform.PlacementDependsOnlyOnAspect` | PerformancePixelBufferResize/Resizer.swift:68-108 | two sources with the same aspect ratio land on the same destination rectangle (origin and scaled extent) under every raw mode, whatever their resolution |
| `ResizeTransform.FullHdToVgaAspectFit` | PerformancePixelBufferResize/ViewController.swift:39 | the demo's 1920x1080 to 640x480 aspect-fit gives scale 1/3 on both axes and translateY 60 |
| `ResizeTransform.FullHdToVgaAspectFill` | PerformancePixelBufferResize/Resizer.swift:95-107 | 1920x1080 to 640x480 aspect-fill gives scale 4/9 on both axes and translateX -320/3 (cropped) |
| `ResizeEngine.BridgedTexture` | PerformancePixelBufferResize/Resizer.swift:158-163 | the bridged texture has the pixel buffer's width and height |
| `ResizeEngine.DestinationTexture` | PerformancePixelBufferResize/Resizer.swift:60-61 | the destination texture has the requested target width and height, the source texture's pixel format (whatever `MTLPixelFormat` that is) and shader-write, shader-read and render-target usage |
| `ResizeEngine.TextureCache.Flush` | PerformancePixelBufferResize/Resizer.swift:169 | a flush is recorded on the cache object itself |
| `ResizeEngine.Resizer.constructor` | PerformancePixelBufferResize/Resizer.swift:20-30 | a new engine has the device lookup's outcome, no texture cache and a command queue not yet evaluated |
| `ResizeEngine.QueueOnFirstUse` | PerformancePixelBufferResize/Resizer.swift:25-30 | reading the lazy queue always leaves it evaluated; an already evaluated queue is returned unchanged, nil included; a present queue needs a device or an earlier present queue |
| `ResizeEngine.Resizer.Prepare` | PerformancePixelBufferResize/Resizer.swift:32-43 | with a device and a successful cache creation a fresh, unflushed cache is stored; otherwise the field is unchanged |
| `ResizeEngine.Resizer.MakeTextureFromCVPixelBuffer` | PerformancePixelBufferResize/Resizer.swift:151-175 | the result is a texture exactly when a cache exists and bridging succeeds; a bridge failure flushes the cache once and leaves the field set |
| `ResizeEngine.Resizer.ResizeFrame` | PerformancePixelBufferResize/Resizer.swift:45-149 | success exactly when a cache exists and every platform step succeeds; the result has the target width and height and the source's format and bytes-per-row, backed by a staging buffer of bytesPerRow * targetHeight bytes; the committed work is the scale by ComputeTransform followed by the copy; the cache field is never cleared |
| `ResizeEngine.QueueStaysEvaluated` | PerformancePixelBufferResize/Resizer.swift:25-30 | once a run of calls has evaluated the lazy command queue, no later call changes it |
| `ResizeEngine.FailedQueueFailsEveryLaterCall` | PerformancePixelBufferResize/Resizer.swift:25-30 | if the queue's first evaluation yields nil, every later resize fails, whatever the platform answers then |
| `ResizeEngine.BridgeFailuresLeaveQueueUnevaluated` | PerformancePixelBufferResize/Resizer.swift:47-50 | while every call fails at the bridge, the queue is never evaluated and every call flushes the cache once |
| `ResizeEngine.ResizeStream` | PerformancePixelBufferResize/Resizer.swift:32-56 | on a device-backed, prepared engine, call i of a run succeeds exactly when its own platform steps succeed and the queue fixed by the first call past the bridge exists; every success has the target shape; the cache is flushed once per bridge failure and never dropped |
| `ResizeEngine.PrepareThenRecoverFromBridgeFailure` | PerformancePixelBufferResize/Resizer.swift:32-56 | a resize before prepare returns nil; after prepare a bridge failure returns nil and the next call succeeds with the target shape |
| `ResizeEngine.NoDeviceNeverResizes` | PerformancePixelBufferResize/Resizer.swift:22-50 | without a device every resize returns nil, whatever prepare and the platform do |

## Left out

- `ViewController.swift` is not part of this model. It is UI scaffolding and video reading with a polling loop and timing logs. Its only use here is the 640x480 aspect-fit target of the demo scenario.
- Pixel content is not modelled: the bilinear interpolation, the texture-to-buffer blit and the content of the bars aspect-fit leaves. These are opaque GPU library calls.
- GPU submission order and completion are not modelled. The code does not wait after `commit`, so the model claims nothing about when the staging bytes are valid.
- Metal and CoreVideo object creation and internals are not modelled: the device, the command queue, descriptors, textures, buffers, the texture cache and pixel-buffer creation. Each appears only as a call that succeeds or fails. The cache's contents are not modelled; a flush shows only as its count.
- `Double` rounding is not modelled. The transform uses exact reals, so the properties describe the intended geometry, not IEEE-754 results.
- The `assert` and `assertionFailure` debug traps are treated as ordinary failure paths, not process termination.
- Logging (`print`) is left out.
- Sizes are positive integers (`Dim`). Zero or negative target sizes, and the `depth` of `MTLSize`, are not modelled.
- The lifetime and ownership of the staging buffer are not modelled. The result wraps the buffer's bytes with no release callback (`Resizer.swift:138-147`), so nothing in the code keeps the buffer alive for as long as the returned pixel buffer; the model records only the backing's length.
- The staging stride is the source's bytes-per-row, as in the code. The model does not check it against the destination's row width, which the Metal blit needs when upscaling.
