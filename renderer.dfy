/**
 * The frame orchestrator (Renderer.cpp, Renderer.h): the buffers the
 * renderer allocates and their sizes, the two recorded command buffers, the
 * growth of the sort buffers, swapchain recreation, the draw state machine
 * around the in-flight fence, the run loop and the small accessors.
 *
 * Vulkan calls are not executed: what the host records is kept as values
 * (the scan and sort schedules, the dispatch sizes), what the device
 * answers (fence waits, acquire and present results, the instance count read
 * back, the extent after a swapchain recreation) is an input.
 */
module Frame {
  import opened Wrappers
  import opened Sizing
  import opened PrefixScan
  import opened RadixSort
  import opened Metrics

  /** The byte sizes of the twelve buffers the pipelines use (Renderer.h:172-183). */
  datatype BufferSet = BufferSet(
    uniform: nat, vertexAttributes: nat, tileOverlap: nat, prefixSumPing: nat, prefixSumPong: nat,
    sortKeysEven: nat, sortKeysOdd: nat, sortHistogram: nat, totalSumHost: nat, tileBoundary: nat,
    sortValuesEven: nat, sortValuesOdd: nat)

  /** sizeof(UniformBuffer): a vec4, two mat4 and four 4-byte fields, 16-aligned (Renderer.h:27-35). */
  const UniformBytes: nat := 160
  /** sizeof(VertexAttributeBuffer): three vec4-sized fields, a vec2, a float and a pad word (Renderer.h:37-44). */
  const VertexAttributeBytes: nat := 64
  /** Entries of initialCameraPoses (Renderer.h:59-81). */
  const InitialCameraPoseCount: nat := 3

  datatype ProfilingMode = NoProfiling | Fps | Psnr

  /**
   * The size of every buffer for numVertices Gaussians, sort multiplier m and
   * swapchain extent e, as initialize allocates them (Renderer.cpp:309-313,
   * 323-326, 345-360, 432-434).
   */
  function BufferSizes(numVertices: nat, m: nat, blocks: nat, e: Extent): (b: BufferSet)
    requires blocks > 0
    ensures b.prefixSumPing == b.prefixSumPong == b.tileOverlap == numVertices * WordBytes
    ensures b.sortKeysEven == b.sortKeysOdd == b.sortValuesEven == b.sortValuesOdd == SortBufferBytes(numVertices, m)
    ensures b.sortHistogram == HistogramBufferBytes(numVertices * m, blocks)
    ensures b.tileBoundary == TileBoundaryBytes(e) && b.totalSumHost == WordBytes
  {
    BufferSet(UniformBytes, numVertices * VertexAttributeBytes, numVertices * WordBytes,
              numVertices * WordBytes, numVertices * WordBytes,
              SortBufferBytes(numVertices, m), SortBufferBytes(numVertices, m),
              HistogramBufferBytes(numVertices * m, blocks), WordBytes, TileBoundaryBytes(e),
              SortBufferBytes(numVertices, m), SortBufferBytes(numVertices, m))
  }

  /** The preprocess command buffer: preprocess dispatch, the scan, and the instance-count copy. */
  datatype PreprocessRecording = PreprocessRecording(
    groups: nat, scan: seq<ScanDispatch>, readbackFrom: ScanBuffer, readback: CopyRegion)

  /** The render command buffer: nothing recorded yet, an empty one (zero instances on Metal), or the full frame. */
  datatype RenderRecording =
    | NotRecorded
    | EmptyFrame
    | FullFrame(preprocessSortSet: nat, preprocessSortGroups: nat, passes: seq<SortPass>,
                tileBoundaryGroups: nat, render: Dispatch)

  /** The in-flight fence: signaled, unsignaled with nothing to signal it, or owed a signal by a submission. */
  datatype Fence = Signaled | Unsignaled | Pending

  datatype AcquireResult = AcquireSuccess | AcquireSuboptimal | AcquireOutOfDate | AcquireError
  datatype PresentResult = PresentSuccess | PresentSuboptimal | PresentOutOfDate | PresentOutOfDateThrown | PresentError

  /**
   * What the device answers during one draw: the k-th fence wait of the
   * call succeeds iff waitOk(k) (0 is the wait at the top), the acquire and
   * present results, the instance count read back on attempt k, and the
   * extent the swapchain has after a recreation.
   */
  datatype DrawInputs = DrawInputs(
    waitOk: nat -> bool, acquire: AcquireResult, instances: nat -> nat,
    present: PresentResult, recreatedExtent: Extent)

  /**
   * How draw ends: it waits forever on a fence nobody will signal, throws,
   * returns after recreating on an out-of-date acquire, or submits the
   * frame (then recreating the swapchain if the present asked for it).
   */
  datatype DrawResult = Hung | Failed(message: string) | AcquireOutOfDateReturn | Rendered(recreated: bool)

  /** The device operations the host issues, in order. */
  datatype Action = SubmitPreprocess | SubmitRender | Present | RecreateSwapchainAction

  /** n copies of one action, as a stretch of the log. */
  function Repeat(a: Action, n: nat): (s: seq<Action>)
    ensures |s| == n
  {
    if n == 0 then [] else Repeat(a, n - 1) + [a]
  }

  /**
   * What happens during one iteration of run: the window tick, the
   * device's answers to the draw, and whether another thread called setGui
   * or stop while the frame was drawn.
   */
  datatype FrameInputs = FrameInputs(tick: bool, draw: DrawInputs, timestampsOk: bool, setGuiCalled: bool, stopCalled: bool)

  /** How run ends: stopped, window closed, scene switch requested, or an exception out of draw or retrieveTimestamps. */
  datatype RunResult = Stopped | WindowClosed | SceneSwitched | Threw(message: string)

  /** The exception retrieveTimestamps throws when the query results are not available (Renderer.cpp:172-174). */
  const TimestampsError := "Failed to retrieve timestamps"


  class Renderer {
    var numVertices: nat
    /** numRadixSortBlocksPerWorkgroup (Renderer.h:202-206). */
    const blocks: nat
    /** VKGS_ENABLE_METAL on an Apple build (Renderer.cpp:763-768). */
    const metal: bool
    const profilingMode: ProfilingMode
    /** rotations.size(): the number of profiling poses. */
    const poseCount: nat
    /** Index into initialCameraPoses the camera starts from. */
    const initialPose: nat
    const gui: GUIManager

    var multiplier: nat
    var buffers: Option<BufferSet>
    var extent: Option<Extent>
    var fence: Fence
    var preprocessCommands: Option<PreprocessRecording>
    var renderCommands: RenderRecording
    var running: bool
    var showMetrics: bool
    var switchScene: bool
    var cameraPosIndex: nat
    var realerFps: int
    var log: seq<Action>
    /** How many times the host has waited for the device to go idle. */
    var idleWaits: nat

    // touch state (Renderer.h:141-153); times are milliseconds
    var lastX: real
    var lastY: real
    var initialTouchX: real
    var initialTouchY: real
    var touchDeltaX: real
    var touchDeltaY: real
    var isTouching: bool
    var doubleTap: bool
    var holdTap: bool
    var lastDownTime: int
    var lastTapTime: int

    /**
     * The state every operation keeps: blocks as configured, a multiplier
     * of at least 1, buffers either released or sized for the current
     * multiplier and extent, the pose index in range, and the GUI maps valid.
     */
    ghost predicate Valid()
      reads this, gui, gui.store
    {
      blocks > 0 && blocks % 32 == 0 && multiplier >= 1
      && (buffers.Some? ==>
          numVertices >= 1 && extent.Some? && buffers.value == BufferSizes(numVertices, multiplier, blocks, extent.value))
      && (profilingMode == Psnr ==> cameraPosIndex < poseCount)
      && initialPose < InitialCameraPoseCount
      && gui.store.Valid()
    }

    /** Buffers allocated and a swapchain present: what draw needs. */
    ghost predicate Ready()
      reads this
    {
      buffers.Some? && numVertices >= 1 && extent.Some?
    }

    /**
     * Renderer(configuration, scene_path_index) with the field defaults of
     * Renderer.h: multiplier 1, switchScene false, pose index 0, metrics
     * shown, touch state zero; no buffers and no swapchain before initialize
     * (Renderer.cpp:296-307, Renderer.h:128-153, 202-216).
     */
    constructor (apple: bool, metal: bool, profilingMode: ProfilingMode, poseCount: nat, scenePathIndex: nat,
                 gui: GUIManager)
      requires scenePathIndex < InitialCameraPoseCount
      requires profilingMode == Psnr ==> poseCount > 0
      requires gui.store.Valid()
      ensures Valid() && !Ready()
      ensures blocks == RadixSortBlocksPerWorkgroup(apple) && this.metal == metal
      ensures this.profilingMode == profilingMode && this.poseCount == poseCount && this.gui == gui
      ensures initialPose == scenePathIndex && multiplier == 1 && cameraPosIndex == 0
      ensures running && showMetrics && !switchScene && buffers == None && extent == None
      ensures !isTouching && !doubleTap && !holdTap
      ensures lastX == lastY == initialTouchX == initialTouchY == touchDeltaX == touchDeltaY == 0.0
      ensures log == [] && idleWaits == 0
    {
      blocks := RadixSortBlocksPerWorkgroup(apple);
      this.metal := metal;
      this.profilingMode := profilingMode;
      this.poseCount := poseCount;
      initialPose := scenePathIndex;
      this.gui := gui;
      numVertices := 0;
      multiplier := 1;
      buffers := None;
      extent := None;
      fence := Signaled;
      preprocessCommands := None;
      renderCommands := NotRecorded;
      running := true;
      showMetrics := true;
      switchScene := false;
      cameraPosIndex := 0;
      realerFps := 0;
      log := [];
      idleWaits := 0;
      lastX, lastY, initialTouchX, initialTouchY, touchDeltaX, touchDeltaY := 0.0, 0.0, 0.0, 0.0, 0.0, 0.0;
      isTouching, doubleTap, holdTap := false, false, false;
      lastDownTime, lastTapTime := 0, 0;
    }

    /**
     * The buffer-allocating part of initialize: the swapchain and the fence
     * (created signaled, Renderer.cpp:245-248), every buffer at its initial
     * size, and the preprocess command buffer (Renderer.cpp:26-38).
     */
    method Initialize(sceneVertices: nat, swapchainExtent: Extent)
      requires Valid() && sceneVertices >= 1
      modifies this`numVertices, this`extent, this`fence, this`buffers, this`preprocessCommands
      ensures Valid() && Ready()
      ensures numVertices == sceneVertices && extent == Some(swapchainExtent) && fence == Signaled
      ensures buffers == Some(BufferSizes(sceneVertices, multiplier, blocks, swapchainExtent))
      ensures multiplier == old(multiplier) && renderCommands == old(renderCommands)
      ensures preprocessCommands == Some(PreprocessFor(sceneVertices))
    {
      numVertices := sceneVertices;
      extent := Some(swapchainExtent);
      fence := Signaled;
      buffers := Some(BufferSizes(numVertices, multiplier, blocks, swapchainExtent));
      RecordPreprocessCommandBuffer();
    }

    /** recordPreprocessCommandBuffer (Renderer.cpp:680-726). */
    method RecordPreprocessCommandBuffer()
      requires numVertices >= 1
      modifies this`preprocessCommands
      ensures numVertices == old(numVertices) && multiplier == old(multiplier) && buffers == old(buffers)
      ensures preprocessCommands == Some(PreprocessFor(numVertices))
      ensures extent == old(extent) && fence == old(fence) && renderCommands == old(renderCommands)
      ensures cameraPosIndex == old(cameraPosIndex) && switchScene == old(switchScene) && log == old(log)
      ensures running == old(running) && showMetrics == old(showMetrics) && realerFps == old(realerFps) && idleWaits == old(idleWaits)
    {
      var groups := (numVertices + 255) / 256;
      var scan := RecordScanDispatches(numVertices);
      var iters := Iterations(numVertices);
      var from := if iters % 2 == 0 then Ping else Pong;
      var region := CopyRegion((numVertices - 1) * WordBytes, 0, WordBytes);
      preprocessCommands := Some(PreprocessRecording(groups, scan, from, region));
    }

    /**
     * recordRenderCommandBuffer (Renderer.cpp:729-920) given the instance
     * count read back from the host buffer. It first pushes the "instances"
     * and "fps" text metrics. If the count exceeds the sort buffers it grows
     * the multiplier to the least that fits, reallocates the four sort
     * buffers and the histogram, re-records the preprocess command buffer
     * and returns false with the render commands untouched; otherwise it
     * records the frame and returns true.
     */
    method RecordRenderCommandBuffer(numInstances: nat) returns (recorded: bool)
      requires Valid() && Ready()
      modifies this`multiplier, this`buffers, this`preprocessCommands, this`renderCommands, gui.store
      ensures Valid() && Ready()
      ensures recorded <==> numInstances <= numVertices * old(multiplier)
      ensures multiplier == MinMultiplier(numInstances, numVertices, old(multiplier))
      ensures numInstances <= numVertices * multiplier
      ensures recorded ==> multiplier == old(multiplier) && buffers == old(buffers)
      ensures !recorded ==> multiplier > old(multiplier) && renderCommands == old(renderCommands)
      ensures !recorded ==> preprocessCommands == Some(PreprocessFor(numVertices))
      ensures !recorded ==> buffers == Some(old(buffers).value.(
        sortKeysEven := SortBufferBytes(numVertices, multiplier), sortKeysOdd := SortBufferBytes(numVertices, multiplier),
        sortValuesEven := SortBufferBytes(numVertices, multiplier), sortValuesOdd := SortBufferBytes(numVertices, multiplier),
        sortHistogram := HistogramBufferBytes(numVertices * multiplier, blocks)))
      ensures buffers.value.tileBoundary == old(buffers).value.tileBoundary
      ensures recorded ==> renderCommands == FrameFor(metal, numVertices, blocks, extent.value, gui.useHalfResolution, numInstances) && preprocessCommands == old(preprocessCommands)
      ensures numVertices == old(numVertices) && extent == old(extent) && fence == old(fence)
      ensures cameraPosIndex == old(cameraPosIndex) && switchScene == old(switchScene) && log == old(log)
      ensures running == old(running) && showMetrics == old(showMetrics) && idleWaits == old(idleWaits)
      ensures gui.store.textMetrics == old(gui.store.textMetrics)["instances" := numInstances as real]["fps" := realerFps as real]
      ensures gui.store.metrics == old(gui.store.metrics)
    {
      gui.PushTextMetric("instances", numInstances as real);
      gui.PushTextMetric("fps", realerFps as real);
      if numInstances > numVertices * multiplier {
        GrowSortBuffers(numInstances);
        return false;
      }
      MinMultiplierUnique(numInstances, numVertices, multiplier, multiplier);
      RecordFrame(numInstances);
      return true;
    }

    /**
     * The growth branch of recordRenderCommandBuffer (Renderer.cpp:739-761):
     * the least sufficient multiplier, the four sort buffers and the
     * histogram reallocated for it, the preprocess commands re-recorded.
     */
    method GrowSortBuffers(numInstances: nat)
      requires Valid() && Ready() && numInstances > numVertices * multiplier
      modifies this`multiplier, this`buffers, this`preprocessCommands
      ensures Valid() && Ready()
      ensures multiplier == MinMultiplier(numInstances, numVertices, old(multiplier)) && multiplier > old(multiplier)
      ensures buffers == Some(old(buffers).value.(
        sortKeysEven := SortBufferBytes(numVertices, multiplier), sortKeysOdd := SortBufferBytes(numVertices, multiplier),
        sortValuesEven := SortBufferBytes(numVertices, multiplier), sortValuesOdd := SortBufferBytes(numVertices, multiplier),
        sortHistogram := HistogramBufferBytes(numVertices * multiplier, blocks)))
      ensures preprocessCommands == Some(PreprocessFor(numVertices)) && renderCommands == old(renderCommands)
      ensures numVertices == old(numVertices) && extent == old(extent) && fence == old(fence)
      ensures cameraPosIndex == old(cameraPosIndex) && switchScene == old(switchScene) && log == old(log)
      ensures running == old(running) && showMetrics == old(showMetrics) && realerFps == old(realerFps) && idleWaits == old(idleWaits)
    {
      var grown := GrowMultiplier(numInstances, numVertices, multiplier);
      multiplier := grown;
      var bytes := numVertices * WordBytes * multiplier;
      var globalInvocationSize := numVertices * multiplier / blocks;
      var remainder := numVertices * multiplier % blocks;
      globalInvocationSize := globalInvocationSize + if remainder > 0 then 1 else 0;
      var numWorkgroups := (globalInvocationSize + 256 - 1) / 256;
      assert globalInvocationSize == BlocksByRemainder(numVertices * multiplier, blocks);
      buffers := Some(buffers.value.(sortKeysEven := bytes, sortKeysOdd := bytes, sortValuesEven := bytes,
                                     sortValuesOdd := bytes, sortHistogram := numWorkgroups * 256 * WordBytes));
      RecordPreprocessCommandBuffer();
    }

    /** The recording branch of recordRenderCommandBuffer (Renderer.cpp:763-919). */
    method RecordFrame(numInstances: nat)
      requires Valid() && Ready()
      modifies this`renderCommands
      ensures multiplier == old(multiplier) && buffers == old(buffers) && preprocessCommands == old(preprocessCommands)
      ensures numVertices == old(numVertices) && extent == old(extent) && fence == old(fence)
      ensures renderCommands == FrameFor(metal, numVertices, blocks, extent.value, gui.useHalfResolution, numInstances)
      ensures cameraPosIndex == old(cameraPosIndex) && switchScene == old(switchScene) && log == old(log)
      ensures running == old(running) && showMetrics == old(showMetrics) && realerFps == old(realerFps) && idleWaits == old(idleWaits)
    {
      if metal && numInstances == 0 {
        renderCommands := EmptyFrame;
        return;
      }
      var setIndex := if Iterations(numVertices) % 2 == 0 then 0 else 1;
      var passes := RecordSortPasses(numInstances, blocks);
      var e := extent.value;
      var render: Dispatch;
      if gui.useHalfResolution {
        var halfWidth := (e.width + 1) / 2;
        var halfHeight := (e.height + 1) / 2;
        render := Dispatch((halfWidth + 15) / 16, (halfHeight + 15) / 16);
      } else {
        render := Dispatch((e.width + 15) / 16, (e.height + 15) / 16);
      }
      assert setIndex == PreprocessSortSet(numVertices);
      assert (numVertices + 255) / 256 == ElementGroups(numVertices);
      assert (numInstances + 255) / 256 == ElementGroups(numInstances);
      assert render == RenderDispatch(e, gui.useHalfResolution);
      renderCommands := FullFrame(setIndex, (numVertices + 255) / 256, passes,
                                  (numInstances + 255) / 256, render);
    }

    /**
     * recreateSwapchain (Renderer.cpp:185-200): the swapchain is recreated
     * (its new extent is an input); if the extent changed, the tile-boundary
     * buffer is reallocated for the new tile grid, the preprocess command
     * buffer re-recorded and the render pipeline rebuilt.
     */
    method RecreateSwapchain(newExtent: Extent)
      requires Valid() && extent.Some?
      modifies this`extent, this`log, this`buffers, this`preprocessCommands
      ensures Valid() && extent == Some(newExtent)
      ensures newExtent == old(extent).value ==> buffers == old(buffers) && preprocessCommands == old(preprocessCommands)
      ensures newExtent != old(extent).value && old(buffers).Some? ==>
        buffers == Some(old(buffers).value.(tileBoundary := TileBoundaryBytes(newExtent)))
        && preprocessCommands == Some(PreprocessFor(numVertices))
      ensures old(buffers).None? ==> buffers == None
      ensures numVertices == old(numVertices) && multiplier == old(multiplier) && fence == old(fence)
      ensures renderCommands == old(renderCommands) && cameraPosIndex == old(cameraPosIndex)
      ensures switchScene == old(switchScene) && log == old(log) + [RecreateSwapchainAction]
      ensures running == old(running) && showMetrics == old(showMetrics) && realerFps == old(realerFps) && idleWaits == old(idleWaits)
    {
      var oldExtent := extent.value;
      extent := Some(newExtent);
      log := log + [RecreateSwapchainAction];
      if newExtent == oldExtent {
        return;
      }
      if buffers.Some? {
        var tileX := (newExtent.width + 16 - 1) / 16;
        var tileY := (newExtent.height + 16 - 1) / 16;
        assert Dispatch(tileX, tileY) == TileGrid(newExtent);
        var bytes := tileX * tileY * WordBytes * 2;
        assert bytes == TileBoundaryBytes(newExtent);
        buffers := Some(buffers.value.(tileBoundary := bytes));
        assert buffers.value == BufferSizes(numVertices, multiplier, blocks, newExtent);
        RecordPreprocessCommandBuffer();
      }
    }

    /** The pose step of moveCameraForProfiling (Renderer.cpp:137-165); the camera maths is not modelled. */
    method MoveCameraForProfiling()
      requires Valid()
      modifies this`cameraPosIndex
      ensures Valid()
      ensures profilingMode == Psnr ==> cameraPosIndex == (old(cameraPosIndex) + 1) % poseCount
      ensures profilingMode != Psnr ==> cameraPosIndex == old(cameraPosIndex)
      ensures numVertices == old(numVertices) && multiplier == old(multiplier) && buffers == old(buffers)
      ensures extent == old(extent) && fence == old(fence) && renderCommands == old(renderCommands)
      ensures preprocessCommands == old(preprocessCommands)
      ensures switchScene == old(switchScene) && log == old(log)
      ensures running == old(running) && showMetrics == old(showMetrics) && realerFps == old(realerFps) && idleWaits == old(idleWaits)
    {
      if profilingMode == Psnr {
        cameraPosIndex := (cameraPosIndex + 1) % poseCount;
      }
    }

    /**
     * The grow-and-retry loop of draw (Renderer.cpp:544-566): submit the
     * preprocess commands, wait for them, read back the instance count and
     * record the render commands, until they fit the sort buffers. Each
     * failed attempt strictly grows the multiplier and instance counts stay
     * below 2^32, so the loop ends. Called with the fence reset.
     */
    method PreprocessUntilRecorded(inp: DrawInputs) returns (ok: bool, ghost attempts: nat)
      requires Valid() && Ready() && fence == Unsignaled
      requires forall k :: inp.instances(k) < KeySpace
      modifies this`cameraPosIndex, this`fence, this`log, this`multiplier, this`buffers, this`preprocessCommands,
               this`renderCommands, gui.store
      ensures Valid() && Ready()
      ensures log == old(log) + Repeat(SubmitPreprocess, attempts + 1)
      ensures forall k :: 1 <= k <= attempts ==> inp.waitOk(k)
      ensures ok ==> inp.waitOk(attempts + 1) && inp.instances(attempts) <= numVertices * multiplier
      ensures ok ==> renderCommands == FrameFor(metal, numVertices, blocks, extent.value, gui.useHalfResolution,
                                                inp.instances(attempts))
      ensures !ok ==> !inp.waitOk(attempts + 1)
      ensures ok ==> fence == Unsignaled
      ensures !ok ==> fence == Pending
      ensures multiplier >= old(multiplier) && numVertices == old(numVertices) && extent == old(extent)
      ensures switchScene == old(switchScene) && running == old(running) && showMetrics == old(showMetrics) && idleWaits == old(idleWaits)
    {
      var attempt: nat := 0;
      while true
        invariant Valid() && Ready() && fence == Unsignaled
        invariant log == old(log) + Repeat(SubmitPreprocess, attempt)
        invariant forall k :: 1 <= k <= attempt ==> inp.waitOk(k)
        invariant multiplier >= old(multiplier)
        decreases KeySpace - numVertices * multiplier
      {
        ghost var before := multiplier;
        var waited, recorded := PreprocessAttempt(inp, attempt, old(log));
        attempts := attempt;
        if !waited || recorded {
          ok := waited;
          break;
        }
        assert numVertices * before < inp.instances(attempt) <= numVertices * multiplier;
        attempt := attempt + 1;
      }
    }

    /**
     * One turn of the grow-and-retry loop (Renderer.cpp:545-565): step the
     * profiling pose, submit the preprocess commands and wait for them;
     * after a successful wait, read back the count of this attempt and
     * record the render commands, or grow the sort buffers.
     */
    method PreprocessAttempt(inp: DrawInputs, attempt: nat, ghost before: seq<Action>) returns (waited: bool, recorded: bool)
      requires Valid() && Ready() && fence == Unsignaled
      requires log == before + Repeat(SubmitPreprocess, attempt)
      modifies this`cameraPosIndex, this`fence, this`log, this`multiplier, this`buffers, this`preprocessCommands,
               this`renderCommands, gui.store
      ensures Valid() && Ready()
      ensures log == old(log) + [SubmitPreprocess] && multiplier >= old(multiplier)
      ensures log == before + Repeat(SubmitPreprocess, attempt + 1)
      ensures waited <==> inp.waitOk(attempt + 1)
      ensures !waited ==> fence == Pending && !recorded
      ensures waited ==> fence == Unsignaled
      ensures waited ==> (recorded <==> inp.instances(attempt) <= numVertices * old(multiplier))
      ensures recorded ==> inp.instances(attempt) <= numVertices * multiplier
      ensures recorded ==> renderCommands == FrameFor(metal, numVertices, blocks, extent.value, gui.useHalfResolution,
                                                      inp.instances(attempt))
      ensures waited && !recorded ==> numVertices * old(multiplier) < inp.instances(attempt) <= numVertices * multiplier
    {
      MoveCameraForProfiling();
      fence := Pending;
      log := log + [SubmitPreprocess];
      if !inp.waitOk(attempt + 1) {
        return false, false;
      }
      fence := Unsignaled;
      waited := true;
      recorded := RecordRenderCommandBuffer(inp.instances(attempt));
    }

    /**
     * The body of draw from the preprocess submit on (Renderer.cpp:544-591):
     * the grow-and-retry loop, the render submit and the present, with a
     * swapchain recreation when the present reports it out of date or
     * suboptimal, or throws out of date. Called with the fence reset and an
     * image acquired.
     */
    method RenderAndPresent(inp: DrawInputs) returns (r: DrawResult, ghost attempts: nat)
      requires Valid() && Ready() && fence == Unsignaled
      requires forall k :: inp.instances(k) < KeySpace
      modifies this`cameraPosIndex, this`fence, this`log, this`multiplier, this`buffers, this`preprocessCommands,
               this`renderCommands, this`extent, gui.store
      ensures Valid() && Ready()
      ensures forall k :: 1 <= k <= attempts ==> inp.waitOk(k)
      ensures r == Failed("Failed to wait for fence") <==> !inp.waitOk(attempts + 1)
      ensures r == Failed("Failed to wait for fence") ==> log == old(log) + Repeat(SubmitPreprocess, attempts + 1)
      ensures r != Failed("Failed to wait for fence") ==>
        && renderCommands == FrameFor(metal, numVertices, blocks, old(extent).value, gui.useHalfResolution,
                                      inp.instances(attempts))
        && inp.instances(attempts) <= numVertices * multiplier
        && log == old(log) + Repeat(SubmitPreprocess, attempts + 1) + [SubmitRender, Present]
                  + (if r == Rendered(true) then [RecreateSwapchainAction] else [])
      ensures r.Rendered? || r.Failed?
      ensures fence == Pending
      ensures r.Failed? ==> r.message in {"Failed to wait for fence", "Failed to present swapchain image"}
      ensures multiplier >= old(multiplier) && numVertices == old(numVertices)
      ensures switchScene == old(switchScene) && running == old(running) && showMetrics == old(showMetrics) && idleWaits == old(idleWaits)
      ensures r.Rendered? ==> r.recreated == (inp.present in {PresentOutOfDate, PresentSuboptimal, PresentOutOfDateThrown})
      ensures r.Failed? && r.message == "Failed to present swapchain image" ==> inp.present == PresentError
      ensures r.Failed? && r.message != "Failed to present swapchain image" ==> exists k :: k >= 1 && !inp.waitOk(k)
    {
      var ok;
      ok, attempts := PreprocessUntilRecorded(inp);
      if !ok {
        assert attempts + 1 >= 1 && !inp.waitOk(attempts + 1);
        return Failed("Failed to wait for fence"), attempts;
      }
      r := SubmitAndPresent(inp);
    }

    /**
     * The render submit and the present of draw (Renderer.cpp:567-591): the
     * out-of-date exception and the out-of-date or suboptimal result
     * recreate the swapchain, any other result but success throws.
     */
    method SubmitAndPresent(inp: DrawInputs) returns (r: DrawResult)
      requires Valid() && Ready()
      modifies this`fence, this`log, this`extent, this`buffers, this`preprocessCommands
      ensures Valid() && Ready() && fence == Pending
      ensures r.Rendered? <==> inp.present != PresentError
      ensures r.Rendered? ==> r.recreated == (inp.present in {PresentOutOfDate, PresentSuboptimal, PresentOutOfDateThrown})
      ensures !r.Rendered? ==> r == Failed("Failed to present swapchain image")
      ensures log == old(log) + [SubmitRender, Present] + (if r == Rendered(true) then [RecreateSwapchainAction] else [])
    {
      fence := Pending;
      log := log + [SubmitRender, Present];
      if inp.present in {PresentOutOfDateThrown, PresentOutOfDate, PresentSuboptimal} {
        RecreateSwapchain(inp.recreatedExtent);
        r := Rendered(true);
      } else if inp.present != PresentSuccess {
        r := Failed("Failed to present swapchain image");
      } else {
        r := Rendered(false);
      }
    }

    /**
     * draw as written (Renderer.cpp:529-591, the frame counters aside): wait
     * for the in-flight fence, reset it, then acquire an image. When the
     * acquire reports the swapchain out of date it recreates the swapchain
     * and returns, leaving the fence reset with nothing submitted to signal
     * it; the next call then waits on it forever (see AcquireOutOfDateHangs).
     */
    method Draw(inp: DrawInputs) returns (r: DrawResult)
      requires Valid() && Ready()
      requires forall k :: inp.instances(k) < KeySpace
      modifies this`cameraPosIndex, this`fence, this`log, this`multiplier, this`buffers, this`preprocessCommands,
               this`renderCommands, this`extent, gui.store
      ensures Valid() && Ready()
      ensures old(fence) == Unsignaled <==> r.Hung?
      ensures r.Failed? ==> r.message in {"Failed to wait for fence", "Failed to acquire swapchain image",
                                          "Failed to present swapchain image"}
      ensures r.Hung? ==> fence == Unsignaled && log == old(log) && multiplier == old(multiplier)
      ensures r.Failed? && r.message == "Failed to wait for fence" && fence != Pending ==> !inp.waitOk(0)
      ensures r.AcquireOutOfDateReturn? <==> old(fence) != Unsignaled && inp.waitOk(0) && inp.acquire == AcquireOutOfDate
      ensures r.AcquireOutOfDateReturn? ==> fence == Unsignaled && log == old(log) + [RecreateSwapchainAction]
      ensures r.Failed? && r.message == "Failed to acquire swapchain image" <==>
        old(fence) != Unsignaled && inp.waitOk(0) && inp.acquire == AcquireError
      ensures r.Rendered? ==> inp.acquire in {AcquireSuccess, AcquireSuboptimal} && fence == Pending
      ensures numVertices == old(numVertices) && switchScene == old(switchScene)
      ensures running == old(running) && showMetrics == old(showMetrics) && idleWaits == old(idleWaits)
    {
      if fence == Unsignaled {
        return Hung;
      }
      if !inp.waitOk(0) {
        return Failed("Failed to wait for fence");
      }
      fence := Unsignaled;
      if inp.acquire == AcquireOutOfDate {
        RecreateSwapchain(inp.recreatedExtent);
        return AcquireOutOfDateReturn;
      } else if inp.acquire == AcquireError {
        return Failed("Failed to acquire swapchain image");
      }
      ghost var attempts;
      r, attempts := RenderAndPresent(inp);
    }

    /**
     * draw with the fence reset moved after a successful acquire, so that
     * every return leaves the fence signaled or owed a signal by a
     * submission, and a later draw never waits forever.
     */
    method DrawCorrected(inp: DrawInputs) returns (r: DrawResult)
      requires Valid() && Ready() && fence != Unsignaled
      requires forall k :: inp.instances(k) < KeySpace
      modifies this`cameraPosIndex, this`fence, this`log, this`multiplier, this`buffers, this`preprocessCommands,
               this`renderCommands, this`extent, gui.store
      ensures Valid() && Ready()
      ensures fence != Unsignaled && !r.Hung?
      ensures r.Failed? ==> r.message in {"Failed to wait for fence", "Failed to acquire swapchain image",
                                          "Failed to present swapchain image"}
      ensures r.AcquireOutOfDateReturn? <==> inp.waitOk(0) && inp.acquire == AcquireOutOfDate
      ensures r.AcquireOutOfDateReturn? ==> fence == Signaled && log == old(log) + [RecreateSwapchainAction]
      ensures r.Failed? && r.message == "Failed to acquire swapchain image" <==>
        inp.waitOk(0) && inp.acquire == AcquireError
      ensures r.Rendered? ==> inp.acquire in {AcquireSuccess, AcquireSuboptimal} && fence == Pending
      ensures (forall k :: inp.waitOk(k)) && inp.acquire == AcquireSuccess && inp.present == PresentSuccess ==>
        r == Rendered(false)
      ensures numVertices == old(numVertices) && switchScene == old(switchScene)
      ensures running == old(running) && showMetrics == old(showMetrics) && idleWaits == old(idleWaits)
    {
      if !inp.waitOk(0) {
        return Failed("Failed to wait for fence");
      }
      fence := Signaled;
      if inp.acquire == AcquireOutOfDate {
        RecreateSwapchain(inp.recreatedExtent);
        return AcquireOutOfDateReturn;
      } else if inp.acquire == AcquireError {
        return Failed("Failed to acquire swapchain image");
      }
      fence := Unsignaled;
      ghost var attempts;
      r, attempts := RenderAndPresent(inp);
    }

    /**
     * The defect of draw as written: after a draw whose acquire reports
     * the swapchain out of date, the next draw hangs, whatever the device
     * answers.
     */
    method AcquireOutOfDateHangs(first: DrawInputs, second: DrawInputs) returns (r1: DrawResult, r2: DrawResult)
      requires Valid() && Ready() && fence != Unsignaled
      requires forall k :: first.instances(k) < KeySpace
      requires forall k :: second.instances(k) < KeySpace
      requires first.waitOk(0) && first.acquire == AcquireOutOfDate
      modifies this`cameraPosIndex, this`fence, this`log, this`multiplier, this`buffers, this`preprocessCommands,
               this`renderCommands, this`extent, gui.store
      ensures r1 == AcquireOutOfDateReturn && r2 == Hung
    {
      r1 := Draw(first);
      r2 := Draw(second);
    }

    /** The same two frames with the corrected draw: the second one does not hang. */
    method AcquireOutOfDateRecovers(first: DrawInputs, second: DrawInputs) returns (r1: DrawResult, r2: DrawResult)
      requires Valid() && Ready() && fence != Unsignaled
      requires forall k :: first.instances(k) < KeySpace
      requires forall k :: second.instances(k) < KeySpace
      requires first.waitOk(0) && first.acquire == AcquireOutOfDate
      modifies this`cameraPosIndex, this`fence, this`log, this`multiplier, this`buffers, this`preprocessCommands,
               this`renderCommands, this`extent, gui.store
      ensures r1 == AcquireOutOfDateReturn && !r2.Hung?
      ensures (forall k :: second.waitOk(k)) && second.acquire == AcquireSuccess && second.present == PresentSuccess ==>
        r2 == Rendered(false)
    {
      r1 := DrawCorrected(first);
      r2 := DrawCorrected(second);
    }
 
    /**
     * run (Renderer.cpp:595-644), with the corrected draw: frames are drawn
     * while the renderer runs and the window ticks; a requested scene switch
     * releases every buffer, clears the request and leaves the loop; the
     * device is waited idle on every exit except an exception thrown by draw
     * or by retrieveTimestamps (called after each draw while metrics are
     * shown), which leaves run at once. The frame inputs end with a closed
     * window.
     */
    method Run(frames: seq<FrameInputs>) returns (r: RunResult, drawn: nat)
      requires Valid() && Ready() && fence != Unsignaled
      requires |frames| > 0 && !frames[|frames| - 1].tick
      requires forall i, k :: 0 <= i < |frames| ==> frames[i].draw.instances(k) < KeySpace
      modifies this`cameraPosIndex, this`fence, this`log, this`multiplier, this`buffers, this`preprocessCommands,
               this`renderCommands, this`extent, this`switchScene, this`running, this`idleWaits, gui.store
      ensures Valid() && fence != Unsignaled
      ensures drawn < |frames|
      ensures r.Stopped? ==> !running
      ensures r.WindowClosed? ==> !frames[drawn].tick
      ensures r.SceneSwitched? <==> buffers.None?
      ensures r.SceneSwitched? ==> !switchScene && (frames[drawn].setGuiCalled || (drawn == 0 && old(switchScene)))
      ensures !r.SceneSwitched? ==> Ready()
      ensures r.Threw? ==> idleWaits == old(idleWaits)
      ensures !r.Threw? ==> idleWaits == old(idleWaits) + 1
      ensures r.Threw? ==> r.message in {"Failed to wait for fence", "Failed to acquire swapchain image",
                                         "Failed to present swapchain image", TimestampsError}
      ensures r == Threw(TimestampsError) ==> showMetrics && !frames[drawn].timestampsOk && frames[drawn].tick
      ensures !r.Stopped? && frames[drawn].tick && showMetrics && !frames[drawn].timestampsOk ==> r.Threw?
    {
      drawn := 0;
      r := Stopped;
      while running
        invariant Valid() && Ready() && fence != Unsignaled
        invariant drawn < |frames|
        invariant drawn > 0 ==> !switchScene
        invariant idleWaits == old(idleWaits) && r == Stopped
        invariant drawn == 0 ==> switchScene == old(switchScene)
        decreases |frames| - drawn
      {
        var done: bool;
        ghost var d: DrawResult;
        r, done, d := RunFrame(frames[drawn]);
        if done {
          break;
        }
        assert drawn + 1 < |frames|;
        drawn := drawn + 1;
      }
      if !r.Threw? {
        WaitIdle();
      }
    }

    /**
     * One turn of run's loop (Renderer.cpp:601-640): a closed window ends
     * the loop, otherwise a frame is drawn (drawn is its result, Hung when
     * none is drawn), the timestamps are retrieved while metrics are shown,
     * then the calls other threads
     * made during the frame take effect, and a scene switch releases the
     * buffers and ends the loop. done says whether the loop ends here.
     */
    method RunFrame(f: FrameInputs) returns (r: RunResult, done: bool, ghost drawn: DrawResult)
      requires Valid() && Ready() && fence != Unsignaled
      requires forall k :: f.draw.instances(k) < KeySpace
      modifies this`cameraPosIndex, this`fence, this`log, this`multiplier, this`buffers, this`preprocessCommands,
               this`renderCommands, this`extent, this`switchScene, this`running, this`idleWaits, gui.store
      ensures Valid() && fence != Unsignaled && idleWaits == old(idleWaits)
      ensures done <==> !r.Stopped?
      ensures !done ==> f.tick && !switchScene
      ensures r.WindowClosed? ==> !f.tick
      ensures r.SceneSwitched? <==> buffers.None?
      ensures !r.SceneSwitched? ==> Ready()
      ensures r.SceneSwitched? ==> !switchScene && (f.setGuiCalled || old(switchScene))
      ensures r.Threw? ==> r.message in {"Failed to wait for fence", "Failed to acquire swapchain image",
                                         "Failed to present swapchain image", TimestampsError}
      ensures f.tick <==> !drawn.Hung?
      ensures drawn.Failed? ==> r == Threw(drawn.message)
      ensures r == Threw(TimestampsError) <==> f.tick && !drawn.Failed? && showMetrics && !f.timestampsOk
      ensures f.tick && showMetrics && !f.timestampsOk ==> r.Threw?
    {
      drawn := Hung;
      if !f.tick {
        return WindowClosed, true, drawn;
      }
      var dr := DrawCorrected(f.draw);
      drawn := dr;
      if dr.Failed? {
        return Threw(dr.message), true, drawn;
      }
      // retrieveTimestamps, whose metrics are timing and not modelled
      if showMetrics && !f.timestampsOk {
        return Threw(TimestampsError), true, drawn;
      }
      if f.setGuiCalled {
        // setGui from the touch thread
        switchScene := true;
      }
      if f.stopCalled {
        running := false;
      }
      if switchScene {
        ReleaseBuffers();
        return SceneSwitched, true, drawn;
      }
      return Stopped, false, drawn;
    }

    /** The scene switch in run (Renderer.cpp:627-639): every buffer reset, then the request cleared. */
    method ReleaseBuffers()
      requires Valid()
      modifies this`buffers, this`switchScene
      ensures Valid() && buffers.None? && !switchScene
    {
      buffers := None;
      switchScene := false;
    }

    /** device->waitIdle(): counted, as the host blocks until the device is idle. */
    method WaitIdle()
      requires Valid()
      modifies this`idleWaits
      ensures Valid() && idleWaits == old(idleWaits) + 1
    {
      idleWaits := idleWaits + 1;
    }

    /** stop (Renderer.cpp:646-651): clear the running flag and wait for the device. */
    method Stop()
      modifies this`running, this`idleWaits
      ensures !running && idleWaits == old(idleWaits) + 1
    {
      running := false;
      idleWaits := idleWaits + 1;
    }

    /** getWindowWidth (Renderer.h:111): the swapchain width, or 0 without a swapchain. */
    function GetWindowWidth(): (w: nat)
      reads this
      ensures extent.None? ==> w == 0
      ensures extent.Some? ==> w == extent.value.width
    {
      if extent.Some? then extent.value.width else 0
    }

    /** getWindowHeight (Renderer.h:112). */
    function GetWindowHeight(): (h: nat)
      reads this
      ensures extent.None? ==> h == 0
      ensures extent.Some? ==> h == extent.value.height
    {
      if extent.Some? then extent.value.height else 0
    }

    /** setHalfResolution (Renderer.h:115): the next recorded frame renders at half resolution. */
    method SetHalfResolution(useHalf: bool)
      modifies gui`useHalfResolution
      ensures gui.useHalfResolution == useHalf
    {
      gui.useHalfResolution := useHalf;
    }

    /** isUsingHalfResolution (Renderer.h:116). */
    function IsUsingHalfResolution(): (b: bool)
      reads this, gui
      ensures b <==> gui.useHalfResolution
    {
      gui.useHalfResolution
    }

    /**
     * setGui (Renderer.h:118-124): its argument is ignored and it only
     * requests a scene switch at the end of the current frame.
     */
    method SetGui(useGui: bool)
      modifies this`switchScene
      ensures switchScene
    {
      switchScene := true;
    }

    /** isUsingGui (Renderer.h:126): the GUI's metrics flag, which setGui leaves alone. */
    function IsUsingGui(): (b: bool)
      reads this, gui
      ensures b <==> gui.showMetrics
    {
      gui.showMetrics
    }
  }

  /**
   * What the render command buffer holds for numInstances instances: empty
   * on Metal when there are none; otherwise the preprocess-sort dispatch
   * reading the scan buffer the count came from, the eight sort passes, the
   * tile-boundary dispatch and the render dispatch at the chosen resolution.
   */
  function FrameFor(metal: bool, numVertices: nat, blocks: nat, e: Extent, half: bool, numInstances: nat): (r: RenderRecording)
    requires blocks > 0 && numVertices >= 1
    ensures r.EmptyFrame? <==> metal && numInstances == 0
    ensures r.FullFrame? <==> !(metal && numInstances == 0)
    ensures r.FullFrame? ==> r.preprocessSortSet < 2 && OffsetsBinding(r.preprocessSortSet) == TotalSumSource(numVertices)
    ensures r.FullFrame? ==> r.passes == SortSchedule(numInstances, blocks)
    ensures r.FullFrame? ==> r.preprocessSortGroups == ElementGroups(numVertices) && r.tileBoundaryGroups == ElementGroups(numInstances)
    ensures r.FullFrame? ==> r.render == RenderDispatch(e, half)
  {
    if metal && numInstances == 0 then EmptyFrame
    else FullFrame(PreprocessSortSet(numVertices), ElementGroups(numVertices), SortSchedule(numInstances, blocks),
                   ElementGroups(numInstances), RenderDispatch(e, half))
  }

  /** The preprocess recording for numVertices Gaussians. */
  function PreprocessFor(numVertices: nat): (p: PreprocessRecording)
    requires numVertices >= 1
    ensures p.groups == ElementGroups(numVertices)
    ensures p.readbackFrom == TotalSumSource(numVertices)
    ensures p.readback == TotalSumRegion(numVertices)
  {
    PreprocessRecording(ElementGroups(numVertices), ScanSchedule(numVertices), TotalSumSource(numVertices),
                        TotalSumRegion(numVertices))
  }
}
