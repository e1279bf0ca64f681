/**
 Sizing and dispatch of the signed-distance-field grid computation: the grid
 has `gridResolution^3` cells, one 32-bit float each; the inputs are the atom
 positions and types of every configuration; and one GPU thread per cell is
 dispatched either as a non-uniform grid (capable devices) or as whole
 threadgroups (legacy devices). Buffers, the command queue and the pipeline
 are abstracted to what the device provides.
 */
module SdfGrid {
  import opened Wrappers

  /** `MemoryLayout<Float32>.stride`. */
  const Float32Stride: nat := 4
  /** `MemoryLayout<simd_float3>.stride`: three floats padded to sixteen bytes. */
  const Float3Stride: nat := 16
  /** `MemoryLayout<UInt8>.stride`. */
  const UInt8Stride: nat := 1
  const UInt32Max: nat := 0xFFFF_FFFF

  function GridPointCount(gridResolution: nat): nat
  {
    gridResolution * gridResolution * gridResolution
  }

  /**
   The legacy threadgroup count `floor(n / maxThreads)` over exact integers:
   the largest number of whole threadgroups that does not exceed the grid.
   */
  function LegacyThreadgroupCount(n: nat, maxThreads: nat): (groups: nat)
    requires maxThreads > 0
    ensures groups * maxThreads <= n < (groups + 1) * maxThreads
  {
    n / maxThreads
  }

  /** Cells the legacy dispatch leaves without a thread. */
  function UncoveredCells(n: nat, maxThreads: nat): (u: nat)
    requires maxThreads > 0
    ensures u == n - LegacyThreadgroupCount(n, maxThreads) * maxThreads
    ensures u < maxThreads
  {
    n % maxThreads
  }

  /** The legacy dispatch reaches every cell exactly when the threadgroup size divides the grid. */
  lemma LegacyCoversGridIff(n: nat, maxThreads: nat)
    requires maxThreads > 0
    ensures LegacyThreadgroupCount(n, maxThreads) * maxThreads == n <==> n % maxThreads == 0
  {
    assert n == (n / maxThreads) * maxThreads + n % maxThreads;
  }

  /** An 8-cube on 256-thread groups: two whole groups, nothing left over. */
  lemma LegacyDispatchOfEightCube()
    ensures GridPointCount(8) == 512
    ensures LegacyThreadgroupCount(GridPointCount(8), 256) == 2
    ensures UncoveredCells(GridPointCount(8), 256) == 0
  {
  }

  /** A 7-cube on 256-thread groups: one group, and 87 of the 343 cells get no thread. */
  lemma LegacyDispatchOfSevenCube()
    ensures GridPointCount(7) == 343
    ensures LegacyThreadgroupCount(GridPointCount(7), 256) == 1
    ensures UncoveredCells(GridPointCount(7), 256) == 87
  {
  }

  /** What the device and the pipeline cache provide during one computation. */
  datatype DeviceEnv = DeviceEnv(
    outputBufferAllocated: bool,
    atomPositionsAllocated: bool,
    atomTypesAllocated: bool,
    hasCommandBuffer: bool,
    hasComputeEncoder: bool,
    hasPipelineState: bool,
    supportsNonUniformThreadgroups: bool,    // `supportsFamily(.apple3)`
    maxThreadsPerThreadgroup: nat)

  datatype Dispatch =
    | NotDispatched
    | DispatchThreads(width: nat, threadsPerThreadgroup: nat)
    | DispatchThreadgroups(threadgroups: nat, threadsPerThreadgroup: nat)

  /** The number of threads a dispatch launches. */
  function ThreadsLaunched(d: Dispatch): nat
  {
    match d
    case NotDispatched => 0
    case DispatchThreads(width, _) => width
    case DispatchThreadgroups(groups, perGroup) => groups * perGroup
  }

  /** What one call of `computeSDFGrid` did. */
  datatype GridRun = GridRun(
    outputBufferLength: Option<nat>,
    atomPositionsLength: Option<nat>,
    atomTypesLength: Option<nat>,
    dispatch: Dispatch,
    encodingEnded: bool,
    committed: bool)

  /**
   Allocates the output and input buffers, then runs the guards and the
   dispatch. The output buffer is returned whether or not anything ran.
   */
  method ComputeSDFGrid(atomCount: nat, configurationCount: nat, gridResolution: nat, device: DeviceEnv)
    returns (run: GridRun)
    requires device.maxThreadsPerThreadgroup > 0
    ensures run.outputBufferLength ==
            if device.outputBufferAllocated then Some(GridPointCount(gridResolution) * Float32Stride) else None
    // the input buffers are never unwrapped: a failed allocation is bound as nil and the run goes on
    ensures run.atomPositionsLength ==
            if device.atomPositionsAllocated then Some(atomCount * configurationCount * Float3Stride) else None
    ensures run.atomTypesLength ==
            if device.atomTypesAllocated then Some(atomCount * configurationCount * UInt8Stride) else None
    ensures !(device.hasCommandBuffer && device.hasComputeEncoder && device.hasPipelineState) ==>
            run.dispatch == NotDispatched && !run.encodingEnded && !run.committed
    ensures device.hasCommandBuffer && device.hasComputeEncoder && device.hasPipelineState ==>
            && run.encodingEnded
            && (run.committed <==> !device.supportsNonUniformThreadgroups || GridPointCount(gridResolution) <= UInt32Max)
            && (!run.committed ==> run.dispatch == NotDispatched)
    // a committed run has dispatched exactly the one kind of work its device supports
    ensures run.committed ==>
            run.dispatch ==
              if device.supportsNonUniformThreadgroups
              then DispatchThreads(GridPointCount(gridResolution), device.maxThreadsPerThreadgroup)
              else DispatchThreadgroups(LegacyThreadgroupCount(GridPointCount(gridResolution), device.maxThreadsPerThreadgroup),
                                        device.maxThreadsPerThreadgroup)
    ensures run.dispatch.DispatchThreads? ==>
            && device.supportsNonUniformThreadgroups
            && ThreadsLaunched(run.dispatch) == GridPointCount(gridResolution) <= UInt32Max
    ensures run.dispatch.DispatchThreadgroups? ==>
            && !device.supportsNonUniformThreadgroups
            && run.dispatch.threadsPerThreadgroup == device.maxThreadsPerThreadgroup
            && ThreadsLaunched(run.dispatch) <= GridPointCount(gridResolution)
            && GridPointCount(gridResolution) - ThreadsLaunched(run.dispatch)
               == UncoveredCells(GridPointCount(gridResolution), device.maxThreadsPerThreadgroup)
  {
    var numberOfGridPoints := gridResolution * gridResolution * gridResolution;
    var outputLength := if device.outputBufferAllocated then Some(numberOfGridPoints * Float32Stride) else None;
    var positionsLength := if device.atomPositionsAllocated then Some(atomCount * configurationCount * Float3Stride) else None;
    var typesLength := if device.atomTypesAllocated then Some(atomCount * configurationCount * UInt8Stride) else None;
    run := GridRun(outputLength, positionsLength, typesLength, NotDispatched, false, false);
    if !device.hasCommandBuffer || !device.hasComputeEncoder || !device.hasPipelineState {
      return;
    }
    var groupSize := device.maxThreadsPerThreadgroup;
    if device.supportsNonUniformThreadgroups {
      if numberOfGridPoints > UInt32Max {
        run := run.(encodingEnded := true);
        return;
      }
      run := run.(dispatch := DispatchThreads(numberOfGridPoints, groupSize));
    } else {
      var threadGroupsPerGrid := numberOfGridPoints / groupSize;
      run := run.(dispatch := DispatchThreadgroups(threadGroupsPerGrid, groupSize));
    }
    run := run.(encodingEnded := true, committed := true);
  }
}
