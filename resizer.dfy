/**
 The `Resizer` engine: an optional Metal device fixed at construction, a
 CoreVideo texture cache that only `prepare` sets, a lazily created command
 queue, and `resizeFrame`, which bridges a source pixel buffer to a texture,
 scales it into a fresh target-sized texture, copies that into a staging
 buffer and wraps the staging bytes as a new pixel buffer.

 Metal and CoreVideo are not modelled inside: each call that can fail is
 answered by a field of a `Platform` record the caller passes in, so every
 outcome the platform can produce is covered by the contracts.
 */
module ResizeEngine {
  import opened ResizeTransform

  datatype Option<T> = None | Some(value: T)

  /** Where the bytes of a pixel buffer live. */
  datatype Backing =
    | CallerMemory                  // a frame handed in by the decoder
    | StagingBuffer(length: nat)    // a shared Metal buffer allocated by resizeFrame

  /** A CoreVideo pixel buffer, by its shape: size, four-character format code, row stride and backing store. */
  datatype PixelBuffer = PixelBuffer(width: Dim, height: Dim, pixelFormatType: nat, bytesPerRow: Dim, backing: Backing)

  /** An `MTLPixelFormat`, by its raw value. */
  type MetalPixelFormat = nat

  /** `MTLPixelFormat.bgra8Unorm`, the only format the bridge asks for. */
  const BGRA8Unorm: MetalPixelFormat := 80

  datatype TextureUsage = ShaderRead | ShaderWrite | RenderTarget

  datatype Texture = Texture(width: Dim, height: Dim, pixelFormat: MetalPixelFormat, usage: set<TextureUsage>)

  /** The work `resizeFrame` encodes into its command buffer. */
  datatype GpuCommand =
    | BilinearScale(transform: ScaleTransform, source: Texture, destination: Texture)
    | CopyTextureToBuffer(source: Texture, destinationBytesPerRow: nat, destinationBytesPerImage: nat)

  /**
   The answers of the platform calls that can fail, one per call:
   the texture-cache bridge (texture and its Metal view), the first
   `makeCommandQueue`, `makeCommandBuffer`, `makeTexture`,
   `makeBlitCommandEncoder`, `makeBuffer` and `CVPixelBufferCreateWithBytes`.
   */
  datatype Platform = Platform(
    bridgeSucceeds: bool,
    commandQueueCreated: bool,
    commandBufferCreated: bool,
    textureAllocated: bool,
    blitEncoderCreated: bool,
    bufferAllocated: bool,
    pixelBufferCreated: bool)

  /** A lazy property: not yet evaluated, or evaluated once and for all (to a queue or to nil). */
  datatype LazyQueue = Unevaluated | Evaluated(present: bool)

  /**
   The command queue once a call reads the lazy property: evaluated from the
   device on first read, then kept for good, nil included.
   */
  function QueueOnFirstUse(queue: LazyQueue, hasDevice: bool, commandQueueCreated: bool): (q: LazyQueue)
    ensures q.Evaluated?
    ensures queue.Evaluated? ==> q == queue
    ensures q == Evaluated(true) ==> hasDevice || queue == Evaluated(true)
  {
    if queue.Unevaluated? then Evaluated(hasDevice && commandQueueCreated) else queue
  }

  /** Whether a call on an engine with a cache commits its GPU work, given its platform answers and the queue it sees. */
  predicate ReachesCommit(platform: Platform, queue: LazyQueue) {
    && platform.bridgeSucceeds && queue == Evaluated(true)
    && platform.commandBufferCreated && platform.textureAllocated
    && platform.blitEncoderCreated && platform.bufferAllocated
  }

  /** Whether such a call also wraps the staging bytes, and so returns a frame. */
  predicate CallSucceeds(platform: Platform, queue: LazyQueue) {
    ReachesCommit(platform, queue) && platform.pixelBufferCreated
  }

  /** The texture a source buffer bridges to: its own size, BGRA, readable by shaders. */
  function BridgedTexture(pixelBuffer: PixelBuffer): (t: Texture)
    ensures t.width == pixelBuffer.width && t.height == pixelBuffer.height
  {
    Texture(pixelBuffer.width, pixelBuffer.height, BGRA8Unorm, {ShaderRead})
  }

  /** The destination texture: the target size, the source texture's format, and read, write and render-target usage. */
  function DestinationTexture(sourceTexture: Texture, targetWidth: Dim, targetHeight: Dim): (t: Texture)
    ensures t.width == targetWidth && t.height == targetHeight
    ensures t.pixelFormat == sourceTexture.pixelFormat
    ensures t.usage == {ShaderWrite, ShaderRead, RenderTarget}
  {
    Texture(targetWidth, targetHeight, sourceTexture.pixelFormat, {ShaderWrite, ShaderRead, RenderTarget})
  }

  /**
   The frame a successful resize returns: the target size, the source's format
   code and row stride, over a staging buffer of one stride per target row.
   */
  function ResizedFrame(source: PixelBuffer, targetWidth: Dim, targetHeight: Dim): PixelBuffer {
    PixelBuffer(targetWidth, targetHeight, source.pixelFormatType, source.bytesPerRow,
                StagingBuffer(source.bytesPerRow * targetHeight))
  }

  /** A `CVMetalTextureCache`; flushing it is the only thing the engine does to it after creation. */
  class TextureCache {
    var flushCount: nat

    constructor ()
      ensures flushCount == 0
    {
      flushCount := 0;
    }

    method Flush()
      modifies this
      ensures flushCount == old(flushCount) + 1
    {
      flushCount := flushCount + 1;
    }
  }

  class Resizer {
    /** Whether `MTLCreateSystemDefaultDevice` returned a device when the engine was created. */
    const hasDevice: bool
    var textureCache: TextureCache?
    var commandQueue: LazyQueue

    /** A cache and a queue only ever come from a device. */
    ghost predicate Valid()
      reads this
    {
      && (textureCache != null ==> hasDevice)
      && (commandQueue == Evaluated(true) ==> hasDevice)
    }

    constructor (deviceAvailable: bool)
      ensures Valid()
      ensures hasDevice == deviceAvailable
      ensures textureCache == null && commandQueue == Unevaluated
    {
      hasDevice := deviceAvailable;
      textureCache := null;
      commandQueue := Unevaluated;
    }

    /**
     `prepare`: with a device, create a texture cache and keep it; without a
     device, or when creation fails, leave the field as it was.
     */
    method Prepare(cacheCreated: bool)
      requires Valid()
      modifies this
      ensures Valid()
      ensures hasDevice && cacheCreated ==> textureCache != null && fresh(textureCache) && textureCache.flushCount == 0
      ensures !(hasDevice && cacheCreated) ==> textureCache == old(textureCache)
      ensures commandQueue == old(commandQueue)
    {
      if !hasDevice {
        return;
      }
      if cacheCreated {
        textureCache := new TextureCache();
      }
    }

    /**
     `makeTextureFromCVPixelBuffer`: nil without a cache; with one, the bridged
     texture, or nil after flushing the cache when bridging fails. The cache
     field itself is never cleared.
     */
    method MakeTextureFromCVPixelBuffer(pixelBuffer: PixelBuffer, bridgeSucceeds: bool) returns (texture: Option<Texture>)
      requires Valid()
      modifies textureCache
      ensures texture.Some? <==> textureCache != null && bridgeSucceeds
      ensures texture.Some? ==> texture.value == BridgedTexture(pixelBuffer)
      ensures textureCache != null ==>
        textureCache.flushCount == old(textureCache.flushCount) + (if bridgeSucceeds then 0 else 1)
    {
      if textureCache == null {
        return None;
      }
      if !bridgeSucceeds {
        textureCache.Flush();
        return None;
      }
      return Some(BridgedTexture(pixelBuffer));
    }

    /**
     `resizeFrame`. On success the result has exactly the target size, the
     source's pixel format and row stride, and is backed by a staging buffer of
     one stride per target row. `committed` is the GPU work submitted: the
     scale by `ComputeTransform` followed by the copy into the staging buffer,
     or nothing when a step before the commit failed.
     */
    method ResizeFrame(sourcePixelFrame: PixelBuffer, targetWidth: Dim, targetHeight: Dim, resizeMode: int, platform: Platform)
      returns (result: Option<PixelBuffer>, ghost committed: seq<GpuCommand>)
      requires Valid()
      modifies this, textureCache
      ensures Valid()
      ensures textureCache == old(textureCache)
      ensures textureCache != null ==>
        textureCache.flushCount == old(textureCache.flushCount) + (if platform.bridgeSucceeds then 0 else 1)
      ensures commandQueue == if textureCache != null && platform.bridgeSucceeds
                              then QueueOnFirstUse(old(commandQueue), hasDevice, platform.commandQueueCreated)
                              else old(commandQueue)
      ensures committed != [] <==> textureCache != null && ReachesCommit(platform, commandQueue)
      ensures committed != [] ==>
        var sourceTexture := BridgedTexture(sourcePixelFrame);
        var destination := DestinationTexture(sourceTexture, targetWidth, targetHeight);
        committed == [
          BilinearScale(ComputeTransform(sourcePixelFrame.width, sourcePixelFrame.height, targetWidth, targetHeight, resizeMode),
                        sourceTexture, destination),
          CopyTextureToBuffer(destination, sourcePixelFrame.bytesPerRow, sourcePixelFrame.bytesPerRow * targetHeight)]
      ensures result.Some? <==> committed != [] && platform.pixelBufferCreated
      ensures result.Some? ==> result.value == ResizedFrame(sourcePixelFrame, targetWidth, targetHeight)
    {
      committed := [];
      var sourceTexture := MakeTextureFromCVPixelBuffer(sourcePixelFrame, platform.bridgeSucceeds);
      if sourceTexture.None? {
        return None, [];
      }

      commandQueue := QueueOnFirstUse(commandQueue, hasDevice, platform.commandQueueCreated);
      if !commandQueue.present || !platform.commandBufferCreated {
        return None, [];
      }

      if !platform.textureAllocated {
        return None, [];
      }
      var desTexture := DestinationTexture(sourceTexture.value, targetWidth, targetHeight);

      var transform := ComputeTransform(sourcePixelFrame.width, sourcePixelFrame.height, targetWidth, targetHeight, resizeMode);
      ghost var encoded := [BilinearScale(transform, sourceTexture.value, desTexture)];

      var bytesPerRow := sourcePixelFrame.bytesPerRow;
      if !platform.blitEncoderCreated || !platform.bufferAllocated {
        return None, [];
      }
      var length := bytesPerRow * desTexture.height;
      encoded := encoded + [CopyTextureToBuffer(desTexture, bytesPerRow, length)];
      committed := encoded;

      if !platform.pixelBufferCreated {
        return None, committed;
      }
      result := Some(PixelBuffer(desTexture.width, desTexture.height, sourcePixelFrame.pixelFormatType, bytesPerRow,
                                 StagingBuffer(length)));
    }
  }

  // ---------------------------------------------------------------------------
  // A run of calls on a prepared engine
  // ---------------------------------------------------------------------------

  /**
   The lazy command queue after a run of `resizeFrame` calls on an engine that
   holds a texture cache, given each call's platform answers: it is evaluated
   by the first call that gets past the bridge, and keeps that value for good.
   */
  function QueueAfter(hasDevice: bool, history: seq<Platform>): LazyQueue
    decreases |history|
  {
    if history == [] then Unevaluated
    else
      var before := QueueAfter(hasDevice, history[..|history| - 1]);
      var last := history[|history| - 1];
      if last.bridgeSucceeds then QueueOnFirstUse(before, hasDevice, last.commandQueueCreated) else before
  }

  /** How many calls of a run failed at the bridge. */
  function BridgeFailures(history: seq<Platform>): nat
    decreases |history|
  {
    if history == [] then 0
    else BridgeFailures(history[..|history| - 1]) + (if history[|history| - 1].bridgeSucceeds then 0 else 1)
  }

  /** Once a run has evaluated the lazy queue, no later call changes it. */
  lemma {:induction false} QueueStaysEvaluated(hasDevice: bool, history: seq<Platform>, later: seq<Platform>)
    requires QueueAfter(hasDevice, history).Evaluated?
    ensures QueueAfter(hasDevice, history + later) == QueueAfter(hasDevice, history)
    decreases |later|
  {
    if later == [] {
      assert history + later == history;
    } else {
      var earlier := later[..|later| - 1];
      assert (history + later)[..|history + later| - 1] == history + earlier;
      QueueStaysEvaluated(hasDevice, history, earlier);
    }
  }

  /**
   If the first call that got past the bridge could not create the command
   queue, every later call fails, whatever the platform answers then.
   */
  lemma FailedQueueFailsEveryLaterCall(hasDevice: bool, history: seq<Platform>, later: seq<Platform>, platform: Platform)
    requires QueueAfter(hasDevice, history) == Evaluated(false)
    ensures !CallSucceeds(platform, QueueAfter(hasDevice, history + later + [platform]))
  {
    QueueStaysEvaluated(hasDevice, history, later + [platform]);
    assert history + later + [platform] == history + (later + [platform]);
  }

  /** While every call fails at the bridge, the lazy queue is not evaluated and each call flushes the cache once. */
  lemma {:induction false} BridgeFailuresLeaveQueueUnevaluated(hasDevice: bool, history: seq<Platform>)
    requires forall i :: 0 <= i < |history| ==> !history[i].bridgeSucceeds
    ensures QueueAfter(hasDevice, history) == Unevaluated
    ensures BridgeFailures(history) == |history|
    decreases |history|
  {
    if history != [] {
      BridgeFailuresLeaveQueueUnevaluated(hasDevice, history[..|history| - 1]);
    }
  }

  /**
   A device-backed engine, prepared once, resizes a stream of frames one call
   at a time. The cache is never dropped: each bridge failure flushes it once
   and fails only its own call. Call i succeeds exactly when its own platform
   steps succeed and the lazy queue, fixed by the first call that got past the
   bridge, exists; each success is a frame of the target shape.
   */
  method ResizeStream(frames: seq<PixelBuffer>, platforms: seq<Platform>, targetWidth: Dim, targetHeight: Dim, resizeMode: int)
    returns (results: seq<Option<PixelBuffer>>, flushes: nat)
    requires |platforms| == |frames|
    ensures |results| == |frames|
    ensures forall i :: 0 <= i < |frames| ==>
      (results[i].Some? <==> CallSucceeds(platforms[i], QueueAfter(true, platforms[..i + 1])))
    ensures forall i :: 0 <= i < |frames| && results[i].Some? ==>
      results[i].value == ResizedFrame(frames[i], targetWidth, targetHeight)
    ensures flushes == BridgeFailures(platforms)
  {
    var resizer := new Resizer(true);
    resizer.Prepare(true);
    var cache := resizer.textureCache;
    results := [];
    var i := 0;
    while i < |frames|
      invariant 0 <= i <= |frames| && |results| == i
      invariant resizer.Valid() && resizer.hasDevice
      invariant cache != null && resizer.textureCache == cache
      invariant resizer.commandQueue == QueueAfter(true, platforms[..i])
      invariant cache.flushCount == BridgeFailures(platforms[..i])
      invariant forall j :: 0 <= j < i ==>
        (results[j].Some? <==> CallSucceeds(platforms[j], QueueAfter(true, platforms[..j + 1])))
      invariant forall j :: 0 <= j < i && results[j].Some? ==>
        results[j].value == ResizedFrame(frames[j], targetWidth, targetHeight)
    {
      assert platforms[..i + 1][..i] == platforms[..i];
      ghost var work;
      var result;
      result, work := resizer.ResizeFrame(frames[i], targetWidth, targetHeight, resizeMode, platforms[i]);
      results := results + [result];
      i := i + 1;
    }
    assert platforms[..|frames|] == platforms;
    flushes := cache.flushCount;
  }

  /** A platform on which every call succeeds. */
  const Healthy: Platform := Platform(true, true, true, true, true, true, true)

  /**
   The engine's lifecycle on a device: a resize before `prepare` fails; after
   `prepare`, a failed bridge fails that call only (the cache is flushed, not
   dropped) and the next call succeeds with a frame of the target shape.
   */
  method PrepareThenRecoverFromBridgeFailure(frame: PixelBuffer, targetWidth: Dim, targetHeight: Dim, resizeMode: int)
    returns (unprepared: Option<PixelBuffer>, afterBridgeFailure: Option<PixelBuffer>, recovered: Option<PixelBuffer>)
    ensures unprepared.None?
    ensures afterBridgeFailure.None?
    ensures recovered == Some(ResizedFrame(frame, targetWidth, targetHeight))
  {
    var resizer := new Resizer(true);
    ghost var work;
    unprepared, work := resizer.ResizeFrame(frame, targetWidth, targetHeight, resizeMode, Healthy);
    resizer.Prepare(true);
    afterBridgeFailure, work := resizer.ResizeFrame(frame, targetWidth, targetHeight, resizeMode, Healthy.(bridgeSucceeds := false));
    recovered, work := resizer.ResizeFrame(frame, targetWidth, targetHeight, resizeMode, Healthy);
  }

  /** Without a device nothing ever succeeds, whatever the platform answers and however often `prepare` runs. */
  method NoDeviceNeverResizes(frame: PixelBuffer, targetWidth: Dim, targetHeight: Dim, resizeMode: int,
                               cacheCreated: bool, platform: Platform)
    returns (result: Option<PixelBuffer>)
    ensures result.None?
  {
    var resizer := new Resizer(false);
    resizer.Prepare(cacheCreated);
    ghost var work;
    result, work := resizer.ResizeFrame(frame, targetWidth, targetHeight, resizeMode, platform);
  }
}
