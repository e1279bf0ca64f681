/**
 The per-frame driver. One call of `DrawFrame` is one display refresh: an
 idle gate, a buffer-ready gate, acquisition of one of `maxBuffersInFlight`
 uniform-buffer slots (a counting semaphore), the scene update and snapshot
 copy, then the ordered passes of the frame, and a commit whose completion
 handler releases the slot. GPU work is abstracted to a trace of pass events,
 the semaphore to an integer, and the completion handler to a method the
 environment calls once per committed frame.
 */
module FrameScheduling {
  import opened Wrappers
  import opened Scene

  datatype Pass =
    | FillColor
    | ShadowMap
    | Impostor(renderBonds: bool)
    | DebugPoints
    | Upscale
    | CopyToDrawable
    | Present

  /** Position of each pass in the fixed order of a frame. */
  function Rank(p: Pass): nat
  {
    match p
    case FillColor => 0
    case ShadowMap => 1
    case Impostor(_) => 2
    case DebugPoints => 3
    case Upscale => 4
    case CopyToDrawable => 5
    case Present => 6
  }

  /** What decides which passes a frame issues. */
  datatype PassConditions = PassConditions(
    colorPassRequested: bool,
    hasShadows: bool,
    visualization: Visualization,
    hasViewTextures: bool,
    debugBuild: bool,
    isBenchmark: bool,
    drawableAvailable: bool)

  /** Upscale, copy and present run only on screen, with view textures and a drawable. */
  predicate Presents(c: PassConditions)
  {
    c.hasViewTextures && !c.isBenchmark && c.drawableAvailable
  }

  /** Every pass of the trace ranks after the passes issued before it. */
  predicate InPassOrder(trace: seq<Pass>)
  {
    forall i, j :: 0 <= i < j < |trace| ==> Rank(trace[i]) < Rank(trace[j])
  }

  /** Every pass of the trace has a rank in `[lo, hi)`. */
  predicate RanksWithin(trace: seq<Pass>, lo: int, hi: int)
  {
    forall p :: p in trace ==> lo <= Rank(p) < hi
  }

  /** The passes of one frame: each present exactly when its condition holds, in the fixed order. */
  predicate PassTraceMeets(trace: seq<Pass>, c: PassConditions)
  {
    && InPassOrder(trace)
    && (FillColor in trace <==> c.colorPassRequested)
    && (ShadowMap in trace <==> c.hasShadows)
    && (Impostor(c.visualization == BallAndStick) in trace <==> c.hasViewTextures)
    && Impostor(c.visualization != BallAndStick) !in trace
    && (DebugPoints in trace <==> c.hasViewTextures && c.debugBuild)
    && (Upscale in trace <==> Presents(c))
    && (CopyToDrawable in trace <==> Presents(c))
    && (Present in trace <==> Presents(c))
  }

  /** The compute stage of a frame: the colour fill and the shadow map. */
  predicate ComputePassesMeet(trace: seq<Pass>, c: PassConditions)
  {
    && InPassOrder(trace)
    && RanksWithin(trace, 0, 2)
    && (FillColor in trace <==> c.colorPassRequested)
    && (ShadowMap in trace <==> c.hasShadows)
  }

  /** The geometry stage: the impostor pass and, in debug builds, the points pass. */
  predicate GeometryPassesMeet(trace: seq<Pass>, c: PassConditions)
  {
    && InPassOrder(trace)
    && RanksWithin(trace, 2, 4)
    && (Impostor(c.visualization == BallAndStick) in trace <==> c.hasViewTextures)
    && Impostor(c.visualization != BallAndStick) !in trace
    && (DebugPoints in trace <==> c.hasViewTextures && c.debugBuild)
  }

  /** The presentation stage: upscale, copy to the drawable and present. */
  predicate PresentationPassesMeet(trace: seq<Pass>, c: PassConditions)
  {
    && InPassOrder(trace)
    && RanksWithin(trace, 4, 7)
    && (Upscale in trace <==> Presents(c))
    && (CopyToDrawable in trace <==> Presents(c))
    && (Present in trace <==> Presents(c))
  }

  /** Appending a pass that ranks after every pass already issued keeps the trace in order. */
  lemma AppendInOrder(trace: seq<Pass>, lo: int, p: Pass)
    requires InPassOrder(trace) && RanksWithin(trace, lo, Rank(p)) && lo <= Rank(p)
    ensures InPassOrder(trace + [p]) && RanksWithin(trace + [p], lo, Rank(p) + 1)
  {
  }

  lemma WidenRanks(trace: seq<Pass>, lo: int, hi: int, hi': int)
    requires RanksWithin(trace, lo, hi) && hi <= hi'
    ensures RanksWithin(trace, lo, hi')
  {
  }

  /** Two ordered traces whose rank ranges do not overlap concatenate into an ordered trace. */
  lemma ConcatInOrder(a: seq<Pass>, b: seq<Pass>, lo: int, mid: int, hi: int)
    requires InPassOrder(a) && RanksWithin(a, lo, mid)
    requires InPassOrder(b) && RanksWithin(b, mid, hi)
    requires lo <= mid <= hi
    ensures InPassOrder(a + b) && RanksWithin(a + b, lo, hi)
  {
    forall i, j | 0 <= i < j < |a + b|
      ensures Rank((a + b)[i]) < Rank((a + b)[j])
    {
      if j >= |a| && i < |a| {
        assert a[i] in a && b[j - |a|] in b;
      }
    }
    forall p | p in a + b
      ensures lo <= Rank(p) < hi
    {
      assert p in a || p in b;
    }
  }

  /** The compute stage of `drawFrame` (ProteinDraw.swift, lines 62-83). */
  method EncodeComputePasses(c: PassConditions) returns (trace: seq<Pass>)
    ensures ComputePassesMeet(trace, c)
  {
    trace := [];
    if c.colorPassRequested {
      AppendInOrder(trace, 0, FillColor);
      trace := trace + [FillColor];
    }
    WidenRanks(trace, 0, |trace|, 1);
    if c.hasShadows {
      AppendInOrder(trace, 0, ShadowMap);
      trace := trace + [ShadowMap];
    }
    WidenRanks(trace, 0, if c.hasShadows then 2 else 1, 2);
  }

  /** The passes of `drawFrame` that need the view textures (ProteinDraw.swift, lines 95-121). */
  method EncodeGeometryPasses(c: PassConditions) returns (trace: seq<Pass>)
    ensures GeometryPassesMeet(trace, c)
  {
    trace := [];
    if c.hasViewTextures {
      var impostor := Impostor(c.visualization == BallAndStick);
      AppendInOrder(trace, 2, impostor);
      trace := trace + [impostor];
      if c.debugBuild {
        AppendInOrder(trace, 2, DebugPoints);
        trace := trace + [DebugPoints];
      }
      WidenRanks(trace, 2, if c.debugBuild then 4 else 3, 4);
    }
  }

  /** The passes of `drawFrame` that reach the screen (ProteinDraw.swift, lines 135-160). */
  method EncodePresentationPasses(c: PassConditions) returns (trace: seq<Pass>)
    ensures PresentationPassesMeet(trace, c)
  {
    trace := [];
    if c.hasViewTextures && !c.isBenchmark && c.drawableAvailable {
      AppendInOrder(trace, 4, Upscale);
      trace := trace + [Upscale];
      AppendInOrder(trace, 4, CopyToDrawable);
      trace := trace + [CopyToDrawable];
      AppendInOrder(trace, 4, Present);
      trace := trace + [Present];
    }
  }

  /** Encodes the passes of one frame, each behind its own condition. */
  method EncodePasses(c: PassConditions) returns (trace: seq<Pass>)
    ensures PassTraceMeets(trace, c)
  {
    var compute := EncodeComputePasses(c);
    var geometry := EncodeGeometryPasses(c);
    var presentation := EncodePresentationPasses(c);
    ConcatInOrder(compute, geometry, 0, 2, 4);
    ConcatInOrder(compute + geometry, presentation, 0, 4, 7);
    trace := compute + geometry + presentation;
  }

  /** Two traces in pass order with the same passes are the same trace. */
  lemma {:induction false} OrderedTracesWithSamePassesAgree(a: seq<Pass>, b: seq<Pass>)
    requires InPassOrder(a) && InPassOrder(b)
    requires forall p :: p in a <==> p in b
    ensures a == b
  {
    assert |a| > 0 ==> a[0] in b;
    assert |b| > 0 ==> b[0] in a;
    if |a| > 0 && |b| > 0 {
      var i :| 0 <= i < |a| && a[i] == b[0];
      assert Rank(a[0]) <= Rank(b[0]);
      var j :| 0 <= j < |b| && b[j] == a[0];
      assert Rank(b[0]) <= Rank(a[0]);
      assert j == 0;
      forall p
        ensures p in a[1..] <==> p in b[1..]
      {
        if p in a[1..] {
          var k :| 1 <= k < |a| && a[k] == p;
          assert Rank(a[0]) < Rank(p);
          assert p in b;
        }
        if p in b[1..] {
          var k :| 1 <= k < |b| && b[k] == p;
          assert Rank(b[0]) < Rank(p);
          assert p in a;
        }
      }
      OrderedTracesWithSamePassesAgree(a[1..], b[1..]);
      assert a == [a[0]] + a[1..];
      assert b == [b[0]] + b[1..];
    }
  }

  /** The conditions of a frame determine its pass trace completely. */
  lemma PassTraceDetermined(a: seq<Pass>, b: seq<Pass>, c: PassConditions)
    requires PassTraceMeets(a, c) && PassTraceMeets(b, c)
    ensures a == b
  {
    forall p
      ensures p in a <==> p in b
    {
      if p.Impostor? {
        assert p == Impostor(c.visualization == BallAndStick) || p == Impostor(c.visualization != BallAndStick);
      }
    }
    OrderedTracesWithSamePassesAgree(a, b);
  }

  /** What the platform provides or withholds during one frame. */
  datatype FrameEnvironment = FrameEnvironment(
    commandBufferAvailable: bool,
    viewTexturesAvailable: bool,
    drawableAvailable: bool,
    debugBuild: bool)

  datatype FrameOutcome =
    | Idle              // nothing to redraw
    | BuffersMissing    // atom or uniform buffers not loaded yet
    | WouldBlock        // every slot in flight: the render thread waits here for a completion
    | NoCommandQueue
    | NoCommandBuffer
    | Committed(slot: nat, passes: seq<Pass>)
  {
    /** Returned before the semaphore wait: nothing was acquired or changed. */
    predicate Skipped()
    {
      Idle? || BuffersMissing? || WouldBlock?
    }

    /** Returned after the semaphore wait without committing a command buffer. */
    predicate Abandoned()
    {
      NoCommandQueue? || NoCommandBuffer?
    }
  }

  class ProteinRenderer {
    const scene: MetalScene
    const maxBuffersInFlight: nat
    /** `BioBenchConfig.numberOfFrames`. */
    const benchmarkFrameCount: nat
    const isBenchmark: bool

    var hasCommandQueue: bool
    var atomElementBufferLoaded: bool
    var atomColorBufferLoaded: bool
    var uniformBuffers: Option<seq<FrameData>>

    /** Next uniform-buffer slot to write. */
    var currentFrameIndex: nat
    /** Value of the frame-boundary semaphore. */
    var availableSlots: nat
    /** Committed command buffers whose completion handler has not run yet. */
    var inFlight: nat
    /** Slots acquired by a frame that returned without committing, and so never released. */
    ghost var leakedSlots: nat

    var lastFrameGPUTime: real
    var benchmarkedFrames: nat
    var benchmarkTimes: Option<seq<real>>

    ghost predicate Valid()
      reads this
    {
      && maxBuffersInFlight > 0
      && currentFrameIndex < maxBuffersInFlight
      && availableSlots + inFlight + leakedSlots == maxBuffersInFlight
      && benchmarkedFrames <= benchmarkFrameCount
      && (uniformBuffers.Some? ==> |uniformBuffers.value| == maxBuffersInFlight)
      && (benchmarkTimes.Some? ==> |benchmarkTimes.value| == benchmarkFrameCount)
    }

    predicate WantsRedraw()
      reads this, scene
    {
      scene.needsRedraw || scene.isPlaying
    }

    predicate BuffersReady()
      reads this
    {
      atomElementBufferLoaded && atomColorBufferLoaded && uniformBuffers.Some?
    }

    function Conditions(env: FrameEnvironment): PassConditions
      reads this, scene
    {
      PassConditions(scene.lastColorPassRequest > scene.lastColorPass, scene.hasShadows,
                     scene.currentVisualization, env.viewTexturesAvailable, env.debugBuild,
                     isBenchmark, env.drawableAvailable)
    }

    constructor (scene: MetalScene, maxBuffersInFlight: nat, benchmarkFrameCount: nat, isBenchmark: bool,
                 hasCommandQueue: bool, atomBuffersLoaded: bool, uniformBuffersLoaded: bool)
      requires maxBuffersInFlight > 0
      ensures Valid()
      ensures this.scene == scene && this.maxBuffersInFlight == maxBuffersInFlight
      ensures this.benchmarkFrameCount == benchmarkFrameCount && this.isBenchmark == isBenchmark
      ensures this.hasCommandQueue == hasCommandQueue
      ensures atomElementBufferLoaded == atomBuffersLoaded && atomColorBufferLoaded == atomBuffersLoaded
      ensures uniformBuffers.Some? == uniformBuffersLoaded
      ensures currentFrameIndex == 0 && availableSlots == maxBuffersInFlight && inFlight == 0 && leakedSlots == 0
      ensures benchmarkedFrames == 0
    {
      this.scene := scene;
      this.maxBuffersInFlight := maxBuffersInFlight;
      this.benchmarkFrameCount := benchmarkFrameCount;
      this.isBenchmark := isBenchmark;
      this.hasCommandQueue := hasCommandQueue;
      atomElementBufferLoaded, atomColorBufferLoaded := atomBuffersLoaded, atomBuffersLoaded;
      var initial := scene.frameData;
      uniformBuffers := if uniformBuffersLoaded then Some(seq(maxBuffersInFlight, _ => initial)) else None;
      currentFrameIndex := 0;
      availableSlots := maxBuffersInFlight;
      inFlight := 0;
      leakedSlots := 0;
      lastFrameGPUTime := 0.0;
      benchmarkedFrames := 0;
      benchmarkTimes := if isBenchmark then Some(seq(benchmarkFrameCount, _ => 0.0)) else None;
    }

    /**
     Takes a slot (the semaphore wait), advances the ring index, updates the
     scene and copies its snapshot into the slot taken.
     */
    method AcquireSlotAndUpdateUniforms() returns (slot: nat)
      requires Valid() && BuffersReady() && availableSlots > 0
      modifies this`availableSlots, this`currentFrameIndex, this`uniformBuffers,
               scene`needsRedraw, scene`frame, scene`frameData, scene`camera
      ensures slot == old(currentFrameIndex) < maxBuffersInFlight
      ensures availableSlots == old(availableSlots) - 1
      ensures currentFrameIndex == (old(currentFrameIndex) + 1) % maxBuffersInFlight
      ensures scene.State() == UpdateStep(old(scene.State()))
      ensures uniformBuffers == Some(old(uniformBuffers).value[slot := scene.frameData])
    {
      availableSlots := availableSlots - 1;
      slot := currentFrameIndex;
      currentFrameIndex := (currentFrameIndex + 1) % maxBuffersInFlight;
      scene.UpdateScene();
      uniformBuffers := Some(uniformBuffers.value[slot := scene.frameData]);
    }

    /**
     `drawFrame` as written: the two early returns after the semaphore wait
     (no command queue, no command buffer) never signal it, so the slot is lost.
     */
    method DrawFrame(env: FrameEnvironment) returns (outcome: FrameOutcome)
      requires Valid()
      modifies this`availableSlots, this`currentFrameIndex, this`uniformBuffers, this`inFlight,
               this`leakedSlots, scene`needsRedraw, scene`frame, scene`frameData, scene`camera
      ensures Valid()
      ensures !old(WantsRedraw()) ==> outcome == Idle
      ensures old(WantsRedraw()) && !BuffersReady() ==> outcome == BuffersMissing
      ensures old(WantsRedraw()) && BuffersReady() && old(availableSlots) == 0 ==> outcome == WouldBlock
      ensures outcome.Skipped() ==>
        unchanged(this) && scene.State() == old(scene.State())
      ensures !(outcome.Skipped()) ==>
        && old(WantsRedraw()) && old(BuffersReady()) && old(availableSlots) > 0
        && availableSlots == old(availableSlots) - 1
        && currentFrameIndex == (old(currentFrameIndex) + 1) % maxBuffersInFlight
        && scene.State() == UpdateStep(old(scene.State()))
        && uniformBuffers == Some(old(uniformBuffers).value[old(currentFrameIndex) := scene.frameData])
      ensures outcome.NoCommandQueue? <==> old(WantsRedraw()) && BuffersReady() && old(availableSlots) > 0 && !hasCommandQueue
      ensures outcome.NoCommandBuffer? <==>
        old(WantsRedraw()) && BuffersReady() && old(availableSlots) > 0 && hasCommandQueue && !env.commandBufferAvailable
      ensures outcome.Abandoned() ==> inFlight == old(inFlight) && leakedSlots == old(leakedSlots) + 1
      ensures outcome.Committed? <==>
        old(WantsRedraw()) && old(BuffersReady()) && old(availableSlots) > 0 && hasCommandQueue && env.commandBufferAvailable
      ensures outcome.Committed? ==>
        && outcome.slot == old(currentFrameIndex)
        && PassTraceMeets(outcome.passes, Conditions(env))
        && inFlight == old(inFlight) + 1 && leakedSlots == old(leakedSlots)
    {
      if !WantsRedraw() {
        return Idle;
      }
      if !BuffersReady() {
        return BuffersMissing;
      }
      if availableSlots == 0 {
        return WouldBlock;
      }
      var slot := AcquireSlotAndUpdateUniforms();
      if !hasCommandQueue {
        leakedSlots := leakedSlots + 1;
        return NoCommandQueue;
      }
      if !env.commandBufferAvailable {
        leakedSlots := leakedSlots + 1;
        return NoCommandBuffer;
      }
      var passes := EncodePasses(Conditions(env));
      inFlight := inFlight + 1;
      outcome := Committed(slot, passes);
    }

    /**
     `drawFrame` releasing its slot on every exit after the wait: each exit
     that does not commit signals the semaphore itself, so no slot is ever
     lost.
     */
    method DrawFrameReleasing(env: FrameEnvironment) returns (outcome: FrameOutcome)
      requires Valid()
      modifies this`availableSlots, this`currentFrameIndex, this`uniformBuffers, this`inFlight,
               scene`needsRedraw, scene`frame, scene`frameData, scene`camera
      ensures Valid() && leakedSlots == old(leakedSlots)
      ensures !old(WantsRedraw()) ==> outcome == Idle
      ensures old(WantsRedraw()) && !BuffersReady() ==> outcome == BuffersMissing
      ensures old(WantsRedraw()) && BuffersReady() && old(availableSlots) == 0 ==> outcome == WouldBlock
      ensures outcome.Skipped() ==>
        unchanged(this) && scene.State() == old(scene.State())
      ensures !(outcome.Skipped()) ==>
        && old(WantsRedraw()) && old(BuffersReady()) && old(availableSlots) > 0
        && currentFrameIndex == (old(currentFrameIndex) + 1) % maxBuffersInFlight
        && scene.State() == UpdateStep(old(scene.State()))
        && uniformBuffers == Some(old(uniformBuffers).value[old(currentFrameIndex) := scene.frameData])
      ensures outcome.NoCommandQueue? <==> old(WantsRedraw()) && BuffersReady() && old(availableSlots) > 0 && !hasCommandQueue
      ensures outcome.NoCommandBuffer? <==>
        old(WantsRedraw()) && BuffersReady() && old(availableSlots) > 0 && hasCommandQueue && !env.commandBufferAvailable
      ensures outcome.Abandoned() ==>
        availableSlots == old(availableSlots) && inFlight == old(inFlight)
      ensures outcome.Committed? <==>
        old(WantsRedraw()) && old(BuffersReady()) && old(availableSlots) > 0 && hasCommandQueue && env.commandBufferAvailable
      ensures outcome.Committed? ==>
        && outcome.slot == old(currentFrameIndex)
        && PassTraceMeets(outcome.passes, Conditions(env))
        && availableSlots == old(availableSlots) - 1 && inFlight == old(inFlight) + 1
    {
      if !WantsRedraw() {
        return Idle;
      }
      if !BuffersReady() {
        return BuffersMissing;
      }
      if availableSlots == 0 {
        return WouldBlock;
      }
      var slot := AcquireSlotAndUpdateUniforms();
      if !hasCommandQueue {
        availableSlots := availableSlots + 1;
        return NoCommandQueue;
      }
      if !env.commandBufferAvailable {
        availableSlots := availableSlots + 1;
        return NoCommandBuffer;
      }
      var passes := EncodePasses(Conditions(env));
      inFlight := inFlight + 1;
      outcome := Committed(slot, passes);
    }

    /**
     The completion handler of a committed frame: records its GPU time, logs it
     while a benchmark still has frames to measure, and signals the semaphore.
     */
    method CompletedHandler(gpuStartTime: real, gpuEndTime: real)
      requires Valid() && inFlight > 0
      modifies this`lastFrameGPUTime, this`benchmarkedFrames, this`benchmarkTimes, this`availableSlots, this`inFlight
      ensures Valid()
      ensures lastFrameGPUTime == gpuEndTime - gpuStartTime
      ensures availableSlots == old(availableSlots) + 1 && inFlight == old(inFlight) - 1
      ensures isBenchmark && old(benchmarkedFrames) < benchmarkFrameCount ==>
        && benchmarkedFrames == old(benchmarkedFrames) + 1
        && benchmarkTimes == (if old(benchmarkTimes).Some?
                              then Some(old(benchmarkTimes).value[old(benchmarkedFrames) := gpuEndTime - gpuStartTime])
                              else None)
      ensures !(isBenchmark && old(benchmarkedFrames) < benchmarkFrameCount) ==>
        benchmarkedFrames == old(benchmarkedFrames) && benchmarkTimes == old(benchmarkTimes)
    {
      lastFrameGPUTime := gpuEndTime - gpuStartTime;
      if isBenchmark && benchmarkedFrames < benchmarkFrameCount {
        if benchmarkTimes.Some? {
          benchmarkTimes := Some(benchmarkTimes.value[benchmarkedFrames := gpuEndTime - gpuStartTime]);
        }
        benchmarkedFrames := benchmarkedFrames + 1;
      }
      availableSlots := availableSlots + 1;
      inFlight := inFlight - 1;
    }
  }

  /**
   Three frames (with three slots) whose command buffer cannot be created: the
   as-written scheduler has lost every slot, nothing is in flight to give one
   back, and the next frame that wants to draw waits forever.
   */
  method LeakedSlotsStallRendering() returns (outcome: FrameOutcome, inFlight: nat, availableSlots: nat)
    ensures outcome == WouldBlock && inFlight == 0 && availableSlots == 0
  {
    var scene := new MetalScene();
    var renderer := new ProteinRenderer(scene, 3, 0, false, true, true, true);
    var failing := FrameEnvironment(false, true, true, false);
    var healthy := FrameEnvironment(true, true, true, false);
    var k := 0;
    while k < 3
      invariant 0 <= k <= 3
      invariant renderer.Valid() && renderer.BuffersReady() && renderer.hasCommandQueue
      invariant renderer.availableSlots == 3 - k && renderer.inFlight == 0
      invariant renderer.scene == scene
    {
      scene.CameraDidChange();
      var o := renderer.DrawFrame(failing);
      k := k + 1;
    }
    scene.CameraDidChange();
    outcome := renderer.DrawFrame(healthy);
    inFlight, availableSlots := renderer.inFlight, renderer.availableSlots;
  }

  /** The same three failing frames with the releasing scheduler: the next frame commits. */
  method ReleasedSlotsKeepRendering() returns (outcome: FrameOutcome, inFlight: nat, availableSlots: nat)
    ensures outcome.Committed? && inFlight == 1 && availableSlots == 2
  {
    var scene := new MetalScene();
    var renderer := new ProteinRenderer(scene, 3, 0, false, true, true, true);
    var failing := FrameEnvironment(false, true, true, false);
    var healthy := FrameEnvironment(true, true, true, false);
    var k := 0;
    while k < 3
      invariant 0 <= k <= 3
      invariant renderer.Valid() && renderer.BuffersReady() && renderer.hasCommandQueue
      invariant renderer.availableSlots == 3 && renderer.inFlight == 0
      invariant renderer.scene == scene
    {
      scene.CameraDidChange();
      var o := renderer.DrawFrameReleasing(failing);
      k := k + 1;
    }
    scene.CameraDidChange();
    outcome := renderer.DrawFrameReleasing(healthy);
    inFlight, availableSlots := renderer.inFlight, renderer.availableSlots;
  }
}
