# BioViewer rendering core, modelled in Dafny

BioViewer draws large molecular structures in real time. Each atom is an
impostor billboard, not a mesh. This project models the bookkeeping around
that renderer. The GPU, Metal and SwiftUI calls around it are abstracted away.

- **Configuration selector** (`ConfigurationSelection`). All configurations
  of a structure (trajectory frames, NMR models) sit one after another in
  one vertex, one index and one bond-index buffer. A cursor picks the
  configuration to draw, and the selector turns the cursor into (length,
  offset) windows into those buffers.
- **Scene** (`Scene`). The camera, the user's rotation and the appearance
  settings, the frame-data snapshot given to the shaders, and the
  `needsRedraw` flag. Every setter raises the flag. `updateScene` rebuilds
  the snapshot only when the flag is up.
- **Frame scheduler** (`FrameScheduling`). `drawFrame` has an idle gate and
  a buffer gate. It takes one of `maxBuffersInFlight` uniform slots from a
  counting semaphore, updates the scene and copies the snapshot into the
  slot, then issues the passes of the frame in a fixed order. A completion
  handler gives the slot back.
- **Visualization buffer loader** (`VisualizationLoading`). A change of
  geometry mode (solid spheres or ball-and-stick) cancels the task in
  flight and starts a new one. The new task builds and installs buffers and
  pipelines behind a chain of early-exit guards, then publishes the mode to
  the scene.
- **SDF grid dispatch** (`SdfGrid`). Sizes the buffers of the
  signed-distance-field computation and picks the dispatch strategy:
  non-uniform threadgroups, or whole threadgroups on legacy devices.
- **Geometry helpers** (`ProteinMath`). Mean position and centring, the
  axis-aligned bounding box, the bounding sphere with a safety margin, and
  the Halton radical inverse used to jitter frames.

`Wrappers` holds `Option`. `Vectors` holds three-component vectors over the
reals, and reals extended with the two infinities that the bounding box
starts from.

Objects whose fields the Swift code updates in place are Dafny classes:
`MetalScene`, `ConfigurationSelector`, `ProteinRenderer` and
`VisualizationBufferLoader`. Their methods state the whole new state. Pure
reference functions (`UpdateStep`, `NextIndex`, `LoadSteps`,
`PassTraceMeets`, `IsBoundingBoxOf`, `RadicalInverse`, …) carry the lemmas.
Each loop of the source is a loop in the model, with its invariants. The
digit loop of the Halton sequence and the accumulating loops are `while`
loops, and the in-place shift of `normalizeAtomPositions` is a `for` loop
over an `array`.

## Model

Source paths are abbreviated below. Each is the file's name under its
directory:

- `BioViewer/Metal/Renderer/` for ConfigurationSelector.swift,
  MetalScene.swift and VisualizationBufferLoader.swift;
- `BioViewer/Metal/Renderer/Draw/` for ProteinDraw.swift;
- `BioViewer/Metal/Functions/` for ComputeSDFGrid.swift;
- `BioViewerPackages/BioViewerFoundation/Sources/BioViewerFoundation/` for
  ProteinMath.swift.

The table itself gives the full paths.

| member | source | states |
|---|---|---|
| ConfigurationSelection.PreviousIndex | BioViewer/Metal/Renderer/ConfigurationSelector.swift:46-52 | stepping back from c ≥ 1 gives c − 1; from 0 (or below) it wraps to the last configuration; a cursor in range stays in range |
| ConfigurationSelection.NextIndexAsWritten | BioViewer/Metal/Renderer/ConfigurationSelector.swift:54-60 | the forward step as written: a non-zero result is always c + 1, it is c + 1 below last − 1, and the result never exceeds max(last − 1, 0), so the last configuration is unreachable |
| ConfigurationSelection.NextIndex | BioViewer/Metal/Renderer/ConfigurationSelector.swift:54-60 | the corrected forward step: c + 1 below the last configuration, 0 from the last one, and always in range |
| ConfigurationSelection.NextPreviousInverse | BioViewer/Metal/Renderer/ConfigurationSelector.swift:46-60 | for every cursor in range, the corrected next and previous undo each other, in both orders |
| ConfigurationSelection.StepsForwardVisitsAll | BioViewer/Metal/Renderer/ConfigurationSelector.swift:54-60 | starting at 0, k corrected forward steps reach configuration k for every k ≤ last, and step last + 1 wraps to 0 |
| ConfigurationSelection.StepsForwardAsWrittenMissesLast | BioViewer/Metal/Renderer/ConfigurationSelector.swift:54-60 | with two or more configurations, no number of forward steps as written from 0 ever reaches the last configuration |
| ConfigurationSelection.NextAsWrittenBreaksRoundTrip | BioViewer/Metal/Renderer/ConfigurationSelector.swift:46-60 | counterexample with three configurations: next as written takes 1 to 0, and previous then gives 2, not 1 |
| ConfigurationSelection.RegionWithinBuffer | BioViewer/Metal/Renderer/ConfigurationSelector.swift:64-67 | the window of every configuration in range lies inside the buffer of all configurations |
| ConfigurationSelection.RegionsTileBuffer | BioViewer/Metal/Renderer/ConfigurationSelector.swift:64-81 | the window of configuration c ends exactly where the window of c + 1 starts, and never after the start of any later window |
| ConfigurationSelection.SumLengthsOfSubunitRegions | BioViewer/Metal/Renderer/ConfigurationSelector.swift:69-76 | the first k split regions have total length equal to the first k subunit lengths times the stride |
| ConfigurationSelection.SubunitBeforeLater | BioViewer/Metal/Renderer/ConfigurationSelector.swift:69-76 | when the subunits tile a configuration, each split region ends no later than any later one starts |
| ConfigurationSelection.SubunitInsideConfiguration | BioViewer/Metal/Renderer/ConfigurationSelector.swift:69-76 | when the subunits tile a configuration, each split region lies inside the configuration's unsplit window |
| ConfigurationSelection.SubunitRegionsPartition | BioViewer/Metal/Renderer/ConfigurationSelector.swift:69-90 | when the subunits tile a configuration, its split regions are disjoint and in order, lie inside the unsplit window, and their lengths add up to it |
| ConfigurationSelection.BondRegionsDisjoint | BioViewer/Metal/Renderer/ConfigurationSelector.swift:92-97 | when each configuration's bonds start where the previous configuration's end, the bond windows of distinct configurations are disjoint, in order, and non-negative |
| ConfigurationSelection.ConfigurationSelector.constructor | BioViewer/Metal/Renderer/ConfigurationSelector.swift:26-37 | the cursor starts at 0, the last configuration is count − 1, no bond arrays are attached, and the other inputs are stored |
| ConfigurationSelection.ConfigurationSelector.AddBonds | BioViewer/Metal/Renderer/ConfigurationSelector.swift:39-42 | both bond arrays are attached, and nothing else changes |
| ConfigurationSelection.ConfigurationSelector.PreviousConfiguration | BioViewer/Metal/Renderer/ConfigurationSelector.swift:46-52 | the cursor moves by PreviousIndex and stays in range; an attached scene is marked dirty and nothing else of it changes |
| ConfigurationSelection.ConfigurationSelector.NextConfiguration | BioViewer/Metal/Renderer/ConfigurationSelector.swift:54-60 | as written: the cursor moves by NextIndexAsWritten and stays below max(last, 1); an attached scene is marked dirty and nothing else of it changes |
| ConfigurationSelection.ConfigurationSelector.NextConfigurationWrapping | BioViewer/Metal/Renderer/ConfigurationSelector.swift:54-60 | corrected: the cursor moves by NextIndex, stays in range, and PreviousConfiguration would return it to where it was; the scene is marked dirty |
| ConfigurationSelection.ConfigurationSelector.GetImpostorVertexBufferRegion | BioViewer/Metal/Renderer/ConfigurationSelector.swift:64-67 | the window is the current configuration's ConfigurationRegion with 4 vertices per atom, so RegionWithinBuffer and RegionsTileBuffer apply; for a cursor in range it lies inside the buffer of all configurations |
| ConfigurationSelection.ConfigurationSelector.GetImpostorIndexBufferRegion | BioViewer/Metal/Renderer/ConfigurationSelector.swift:78-81 | the window is the current configuration's ConfigurationRegion with 6 indices per atom, so RegionWithinBuffer and RegionsTileBuffer apply; for a cursor in range it lies inside the buffer of all configurations |
| ConfigurationSelection.ConfigurationSelector.SubunitSplitRegions | BioViewer/Metal/Renderer/ConfigurationSelector.swift:69-90 | one region per (index, length) pair of the shorter zip, in order: the subunit scaled by the stride and shifted by the configuration's unsplit offset |
| ConfigurationSelection.ConfigurationSelector.GetSubunitSplitImpostorVertexBufferRegions | BioViewer/Metal/Renderer/ConfigurationSelector.swift:69-76 | the split regions with stride 4, so SubunitRegionsPartition applies to them |
| ConfigurationSelection.ConfigurationSelector.GetSubunitSplitImpostorIndexBufferRegions | BioViewer/Metal/Renderer/ConfigurationSelector.swift:83-90 | the split regions with stride 6, so SubunitRegionsPartition applies to them |
| ConfigurationSelection.ConfigurationSelector.GetBondsIndexBufferRegion | BioViewer/Metal/Renderer/ConfigurationSelector.swift:92-97 | no region exactly when either bond array is missing; otherwise the current configuration's bond window (24 indices per bond) |
| Scene.RebuiltFrameData | BioViewer/Metal/Renderer/MetalScene.swift:114-121 | the rebuilt snapshot translates by the camera position, uses the user's rotation and its inverse, and projects with the current aspect ratio |
| Scene.UpdateStep | BioViewer/Metal/Renderer/MetalScene.swift:112-131 | every update advances the frame by one and leaves the scene clean; a clean scene keeps its snapshot and camera; a dirty one gets the rebuilt snapshot |
| Scene.UpdateStepSettles | BioViewer/Metal/Renderer/MetalScene.swift:112-131 | two updates with no mutation in between: the second only advances the frame counter |
| Scene.DirtyUpdateForgetsOldSnapshot | BioViewer/Metal/Renderer/MetalScene.swift:112-124 | after a mutation, the next update's snapshot depends only on the current inputs, never on an earlier snapshot |
| Scene.MetalScene.constructor | BioViewer/Metal/Renderer/MetalScene.swift:44-86 | a new scene is clean, at frame 0, with aspect ratio 1, colouring by element, the initial camera, position and rotation, the six default atom colours, and the initial snapshot |
| Scene.MetalScene.SetCameraPosition | BioViewer/Metal/Renderer/MetalScene.swift:29 | stores the position and marks the scene dirty, and changes nothing else |
| Scene.MetalScene.SetUserModelRotationMatrix | BioViewer/Metal/Renderer/MetalScene.swift:31 | stores the rotation and marks the scene dirty, and changes nothing else |
| Scene.MetalScene.SetAspectRatio | BioViewer/Metal/Renderer/MetalScene.swift:33 | stores the aspect ratio and marks the scene dirty, and changes nothing else |
| Scene.MetalScene.SetBackgroundColor | BioViewer/Metal/Renderer/MetalScene.swift:35 | stores the colour and marks the scene dirty, and changes nothing else |
| Scene.MetalScene.SetColorBy | BioViewer/Metal/Renderer/MetalScene.swift:37 | stores the colouring option and marks the scene dirty, and changes nothing else |
| Scene.MetalScene.SetAtomColor | BioViewer/Metal/Renderer/MetalScene.swift:44-66 | sets one element's colour, leaves the other five as they were, and marks the scene dirty |
| Scene.MetalScene.CameraDidChange | BioViewer/Metal/Renderer/MetalScene.swift:89-92 | a camera change notification marks the scene dirty |
| Scene.MetalScene.UpdateScene | BioViewer/Metal/Renderer/MetalScene.swift:112-125 | the new state is UpdateStep of the old one: the frame advances by one, the flag is cleared, and a dirty scene's snapshot holds the current rotation, its inverse and the camera translation |
| Scene.MetalScene.SkipFrame | BioViewer/Metal/Renderer/MetalScene.swift:129-131 | advances the frame counter by one, and changes nothing else |
| FrameScheduling.AppendInOrder | BioViewer/Metal/Renderer/Draw/ProteinDraw.swift:58-160 | appending a pass that ranks after every pass issued so far keeps the trace in pass order |
| FrameScheduling.ConcatInOrder | BioViewer/Metal/Renderer/Draw/ProteinDraw.swift:58-160 | joining two ordered traces with non-overlapping rank ranges gives an ordered trace |
| FrameScheduling.EncodeComputePasses | BioViewer/Metal/Renderer/Draw/ProteinDraw.swift:62-83 | the colour fill is issued exactly when a colour pass is requested, the shadow map exactly when shadows are on, fill before shadow |
| FrameScheduling.EncodeGeometryPasses | BioViewer/Metal/Renderer/Draw/ProteinDraw.swift:95-121 | with view textures, the impostor pass renders bonds exactly in ball-and-stick mode, and the debug points follow it in debug builds; without view textures, neither is issued |
| FrameScheduling.EncodePresentationPasses | BioViewer/Metal/Renderer/Draw/ProteinDraw.swift:135-160 | upscale, copy to the drawable and present are issued in that order, and only on screen (not benchmarking) with view textures and a drawable |
| FrameScheduling.EncodePasses | BioViewer/Metal/Renderer/Draw/ProteinDraw.swift:58-160 | the frame's trace holds each pass exactly when its condition holds, in the fixed order fill, shadow, impostor, debug, upscale, copy, present |
| FrameScheduling.OrderedTracesWithSamePassesAgree | BioViewer/Metal/Renderer/Draw/ProteinDraw.swift:58-160 | two traces in pass order with the same passes are equal |
| FrameScheduling.PassTraceDetermined | BioViewer/Metal/Renderer/Draw/ProteinDraw.swift:58-160 | the conditions of a frame determine its pass trace uniquely |
| FrameScheduling.ProteinRenderer.AcquireSlotAndUpdateUniforms | BioViewer/Metal/Renderer/Draw/ProteinDraw.swift:28-43 | takes one slot, writes slot currentFrameIndex, advances the ring index modulo maxBuffersInFlight, runs the scene update, and copies the new snapshot into that slot only |
| FrameScheduling.ProteinRenderer.DrawFrame | BioViewer/Metal/Renderer/Draw/ProteinDraw.swift:13-180 | as written: an idle scene, missing buffers or no free slot return before anything changes; otherwise a slot is taken and the scene updated; a missing queue or command buffer then returns with the slot lost; a committed frame is in flight with the trace EncodePasses promises |
| FrameScheduling.ProteinRenderer.DrawFrameReleasing | BioViewer/Metal/Renderer/Draw/ProteinDraw.swift:13-180 | corrected: the same gates and passes, but a frame that returns after taking its slot gives it back, so no slot is ever lost |
| FrameScheduling.ProteinRenderer.CompletedHandler | BioViewer/Metal/Renderer/Draw/ProteinDraw.swift:166-176 | records the GPU time; while benchmarking and below the frame budget, stores the time at the next benchmark index and counts the frame (the count never exceeds the budget); gives the slot back |
| FrameScheduling.LeakedSlotsStallRendering | BioViewer/Metal/Renderer/Draw/ProteinDraw.swift:28-56 | counterexample: with three slots, three frames without a command buffer leave no free slot and nothing in flight, so the next frame blocks forever |
| FrameScheduling.ReleasedSlotsKeepRendering | BioViewer/Metal/Renderer/Draw/ProteinDraw.swift:28-56 | the same frames under the corrected scheduler: the next frame commits, with one slot in flight and two free |
| VisualizationLoading.InstallationsAppend | BioViewer/Metal/Renderer/VisualizationBufferLoader.swift:40-106 | the installations of a joined log are the installations of each part, in order |
| VisualizationLoading.InstallationAllOrNothing | BioViewer/Metal/Renderer/VisualizationBufferLoader.swift:40-106 | a load installs all of its mode's buffers and pipelines, in the mode's order, exactly when it gets past every guard, and otherwise installs nothing |
| VisualizationLoading.ConnectivityOnlyWithoutBonds | BioViewer/Metal/Renderer/VisualizationBufferLoader.swift:66-78 | connectivity is computed exactly for a ball-and-stick load of a protein without bonds whose sphere buffers were produced |
| VisualizationLoading.CancelledLoadStopsBeforeBonds | BioViewer/Metal/Renderer/VisualizationBufferLoader.swift:79-86 | a cancelled ball-and-stick load neither hands bonds to the selector nor installs anything |
| VisualizationLoading.BondsAddedBeforeInstallation | BioViewer/Metal/Renderer/VisualizationBufferLoader.swift:82-104 | when a ball-and-stick load installs anything, the bonds reach the selector before the first installation |
| VisualizationLoading.InstalledVariantSkips | BioViewer/Metal/Renderer/VisualizationBufferLoader.swift:61-63 | calls that do not remake the impostor pipeline leave the installed variant as it was |
| VisualizationLoading.VisualizationBufferLoader.constructor | BioViewer/Metal/Renderer/VisualizationBufferLoader.swift:14 | a new loader has no current task, and its task list and logs are empty |
| VisualizationLoading.VisualizationBufferLoader.HandleVisualizationChange | BioViewer/Metal/Renderer/VisualizationBufferLoader.swift:16-36 | cancels the current task (if any), reports "generating geometry", then starts a new uncancelled task for the mode, which becomes the current task |
| VisualizationLoading.VisualizationBufferLoader.PopulateVisualizationBuffers | BioViewer/Metal/Renderer/VisualizationBufferLoader.swift:40-106 | the calls made are LoadSteps for the mode, inputs and cancellation flag; the selector gets the protein's bond arrays exactly when a ball-and-stick load reaches addBonds, and its cursor never changes |
| VisualizationLoading.VisualizationBufferLoader.PopulateSolidSpheres | BioViewer/Metal/Renderer/VisualizationBufferLoader.swift:47-63 | the solid-spheres branch makes the calls LoadSteps prescribes: sphere buffers, then the buffers, the solid-spheres variant and the unfixed-radius shadow pipeline |
| VisualizationLoading.VisualizationBufferLoader.PopulateBallAndStick | BioViewer/Metal/Renderer/VisualizationBufferLoader.swift:66-104 | the ball-and-stick branch makes the calls LoadSteps prescribes, and attaches the bonds to the selector exactly when it reaches addBonds |
| VisualizationLoading.VisualizationBufferLoader.RunTask | BioViewer/Metal/Renderer/VisualizationBufferLoader.swift:25-35 | as written: populates, then publishes the task's mode to the scene and reports completion, cancelled or not; the selector keeps its cursor and gets the bond arrays exactly when the load reached addBonds |
| VisualizationLoading.VisualizationBufferLoader.RunTaskDiscardingCancelled | BioViewer/Metal/Renderer/VisualizationBufferLoader.swift:25-35 | corrected: a cancelled task leaves the scene's mode and the status as they were; the selector's new state is the same as under RunTask |
| VisualizationLoading.CancelledTaskOverwritesMode | BioViewer/Metal/Renderer/VisualizationBufferLoader.swift:16-36 | counterexample: ball-and-stick then solid spheres, with the cancelled task finishing last, leaves the scene in ball-and-stick mode over solid-sphere pipelines |
| VisualizationLoading.CancelledTaskDiscarded | BioViewer/Metal/Renderer/VisualizationBufferLoader.swift:16-36 | the same requests under the corrected task body leave mode and pipelines in agreement (solid spheres) |
| SdfGrid.LegacyThreadgroupCount | BioViewer/Metal/Functions/ComputeSDFGrid.swift:80-85 | over exact integers, the legacy threadgroup count is the largest number of whole groups that fits into the grid (see "## Left out" for Float32 rounding) |
| SdfGrid.UncoveredCells | BioViewer/Metal/Functions/ComputeSDFGrid.swift:80-85 | the cells left without a thread number the grid minus the threads launched, fewer than one group |
| SdfGrid.LegacyCoversGridIff | BioViewer/Metal/Functions/ComputeSDFGrid.swift:80-85 | the legacy dispatch covers every cell exactly when the group size divides the cell count |
| SdfGrid.LegacyDispatchOfEightCube | BioViewer/Metal/Functions/ComputeSDFGrid.swift:80-85 | 512 cells on 256-thread groups: 2 groups, no cell left over |
| SdfGrid.LegacyDispatchOfSevenCube | BioViewer/Metal/Functions/ComputeSDFGrid.swift:80-85 | 343 cells on 256-thread groups: 1 group, 87 cells left over |
| SdfGrid.ComputeSDFGrid | BioViewer/Metal/Functions/ComputeSDFGrid.swift:13-98 | buffer lengths are resolution³·4, atoms·configurations·16 and atoms·configurations·1, each absent exactly when its allocation fails, and a failed input allocation does not stop the run; with no command buffer, encoder or pipeline nothing is dispatched; capable devices launch exactly resolution³ threads unless that exceeds UInt32.max, when encoding ends without a commit; legacy devices launch whole groups, with the remainder uncovered; a committed run has dispatched exactly the strategy its device supports, with those sizes; the output buffer is always returned |
| ProteinMath.Shifted | BioViewerPackages/BioViewerFoundation/Sources/BioViewerFoundation/ProteinMath.swift:21-25 | same length, and every position moved by −center |
| ProteinMath.ShiftedSum | BioViewerPackages/BioViewerFoundation/Sources/BioViewerFoundation/ProteinMath.swift:13-25 | summing shifted positions subtracts the shift once per position |
| ProteinMath.CenteredSumIsZero | BioViewerPackages/BioViewerFoundation/Sources/BioViewerFoundation/ProteinMath.swift:13-25 | shifting a non-empty set of atoms by its mean position makes their sum zero |
| ProteinMath.AveragePosition | BioViewerPackages/BioViewerFoundation/Sources/BioViewerFoundation/ProteinMath.swift:13-19 | the accumulating loop yields the componentwise sum divided by the count, or None (the NaN of 0/0) for no atoms |
| ProteinMath.NormalizeAtomPositions | BioViewerPackages/BioViewerFoundation/Sources/BioViewerFoundation/ProteinMath.swift:21-25 | in place, every element becomes its old value minus center, and the length is kept |
| ProteinMath.ExtendRange | BioViewerPackages/BioViewerFoundation/Sources/BioViewerFoundation/ProteinMath.swift:89-106 | one step of the min/max fold keeps the bounds exact for the longer prefix |
| ProteinMath.RangeDetermined | BioViewerPackages/BioViewerFoundation/Sources/BioViewerFoundation/ProteinMath.swift:78-109 | a sequence of coordinates has only one pair of exact bounds |
| ProteinMath.BoundingBoxDetermined | BioViewerPackages/BioViewerFoundation/Sources/BioViewerFoundation/ProteinMath.swift:78-109 | a set of atoms has only one bounding box |
| ProteinMath.ExtendBox | BioViewerPackages/BioViewerFoundation/Sources/BioViewerFoundation/ProteinMath.swift:85-107 | one iteration of the six comparisons keeps the box exact for the longer prefix |
| ProteinMath.ComputeBoundingBox | BioViewerPackages/BioViewerFoundation/Sources/BioViewerFoundation/ProteinMath.swift:78-109 | every atom lies within the bounds on every axis and, for non-empty input, each bound is some atom's coordinate; for no atoms every minimum is +∞ and every maximum −∞ |
| ProteinMath.RangeOfNonEmpty | BioViewerPackages/BioViewerFoundation/Sources/BioViewerFoundation/ProteinMath.swift:78-109 | the bounds of a non-empty sequence are finite and ordered |
| ProteinMath.CenterInsideBox | BioViewerPackages/BioViewerFoundation/Sources/BioViewerFoundation/ProteinMath.swift:50-55 | the midpoint of the box of a non-empty set of atoms exists and lies inside the box |
| ProteinMath.BoundingVolumeDetermined | BioViewerPackages/BioViewerFoundation/Sources/BioViewerFoundation/ProteinMath.swift:34-68 | the bounding-volume description fixes box, centre and radius uniquely |
| ProteinMath.ComputeBoundingVolume | BioViewerPackages/BioViewerFoundation/Sources/BioViewerFoundation/ProteinMath.swift:34-68 | one atom: the atom with the margin on every side, and a sphere of radius margin; otherwise the bounding box, a sphere at its midpoint, and a radius whose excess over the margin is at least every atom's distance and is either 0 or attained by an atom |
| ProteinMath.RadiusAtLeastMargin | BioViewerPackages/BioViewerFoundation/Sources/BioViewerFoundation/ProteinMath.swift:34-68 | whatever the atoms (none, one or many), the bounding sphere's radius is at least the margin |
| ProteinMath.ComputeBoundingVolumeDefaultMargin | BioViewerPackages/BioViewerFoundation/Sources/BioViewerFoundation/ProteinMath.swift:34 | called without a margin, the volume is the bounding volume with margin 5, and its radius is at least 5 |
| ProteinMath.ComputeBoundingVolumeOfProteins | BioViewerPackages/BioViewerFoundation/Sources/BioViewerFoundation/ProteinMath.swift:70-76 | the bounding volume of all atoms of all proteins concatenated in order |
| ProteinMath.DigitsStep | BioViewerPackages/BioViewerFoundation/Sources/BioViewerFoundation/ProteinMath.swift:118-122 | one loop iteration peels the lowest base-b digit: the index is quotient·b + digit, the quotient is smaller, and the digits split accordingly |
| ProteinMath.DigitsBelowBase | BioViewerPackages/BioViewerFoundation/Sources/BioViewerFoundation/ProteinMath.swift:118-122 | every digit peeled off is below the base |
| ProteinMath.FromDigitsCons | BioViewerPackages/BioViewerFoundation/Sources/BioViewerFoundation/ProteinMath.swift:118-122 | a lowest digit d in front of the digits of r stands for d + b·r |
| ProteinMath.DigitsRoundTrip | BioViewerPackages/BioViewerFoundation/Sources/BioViewerFoundation/ProteinMath.swift:118-122 | the peeled digits give the index back |
| ProteinMath.MirrorInUnitInterval | BioViewerPackages/BioViewerFoundation/Sources/BioViewerFoundation/ProteinMath.swift:114-124 | digits below the base, mirrored about the radix point, give a fraction in [0, 1) |
| ProteinMath.RadicalInverseInUnitInterval | BioViewerPackages/BioViewerFoundation/Sources/BioViewerFoundation/ProteinMath.swift:114-124 | every radical inverse lies in [0, 1) |
| ProteinMath.RadicalInverseOfSingleDigit | BioViewerPackages/BioViewerFoundation/Sources/BioViewerFoundation/ProteinMath.swift:114-124 | an index below the base has radical inverse index / base |
| ProteinMath.HaltonInvariantStep | BioViewerPackages/BioViewerFoundation/Sources/BioViewerFoundation/ProteinMath.swift:118-122 | one iteration (fractional /= base; result += fractional·digit) keeps "result plus the remaining digits at the current weight equals the radical inverse" |
| ProteinMath.DivMod | BioViewerPackages/BioViewerFoundation/Sources/BioViewerFoundation/ProteinMath.swift:120-121 | quotient and remainder of one iteration, with the digit split they make |
| ProteinMath.Halton | BioViewerPackages/BioViewerFoundation/Sources/BioViewerFoundation/ProteinMath.swift:114-124 | index 0 gives 0; for base ≥ 2 the loop returns the radical inverse of the index, a value in [0, 1) |

## Left out

- GPU work is not modelled. That covers Metal command buffers, encoders,
  pipelines and shader kernels, MetalFX and Core Animation. Each pass is a
  trace event, and each collaborator's success or failure is an input.
- Concurrency is not modelled. The render thread, the task pool, the
  blocking semaphore wait and `DispatchQueue.main.sync` all become
  sequential steps.
  - The semaphore is a counter. A frame that would block returns
    `WouldBlock` and changes nothing.
  - Cancellation is a flag read when the task runs.
  - A superseded task is run after its successor, in sequence.
- Floating point is modelled over the reals.
  - NaN (the mean of no atoms, the midpoint of an empty box) is `None`.
  - The infinities of an empty box are `ExtReal` bounds.
  - Rounding is not modelled.
  - The Euclidean `distance` is a parameter of the bounding-volume methods.
- Matrix contents are not modelled: camera projection, `Transform` and
  matrix inverse. Matrices are symbolic terms that record which inputs went
  into which slot.
- Int and UInt32 overflow is not modelled, except for the
  `UInt32.max` guard of the SDF dispatch. Counts and indices are unbounded
  integers.
- `updateColors` is not part of this model.
- The atom radius and colour tables written into the frame data by
  `MetalScene.init` are not part of this model.
- The Combine subscription behind the camera change notification is reduced
  to the method `CameraDidChange`.
- Logging and status texts are reduced to events in the loader's log.
- The collaborators of the loader are inputs. Their source is not part of
  this model: `createImpostorSpheres`, `computeConnectivity` and
  `createBondsGeometry`.
- The SDF kernel's distance values are not part of this model.
- `ProteinDraw.swift` and `VisualizationBufferLoader.swift` read seven
  scene fields that `MetalScene.swift` does not declare: `isPlaying`,
  `hasShadows`, `lastColorPassRequest`, `lastColorPass`,
  `currentVisualization`, `colorFill` and `configurationSelector`.
  - The first five are plain fields of `MetalScene`, with no dirty-flag
    observer, and `updateScene` ignores `isPlaying`.
  - The fill-colour pass's update of `lastColorPass` is not modelled, and
    the fill colour it is given (`colorFill`) is not part of this model.
  - `configurationSelector` is the `selector` parameter of the loader's
    methods (null when the scene has none).
  - The view layer reads further settings (`hasDepthCueing`,
    `depthCueingStrength`, `shadowStrength`). They are not part of this
    model.
- Scene.MetalScene.constructor: its initial `isPlaying = false`,
  `hasShadows = false`, `lastColorPassRequest == lastColorPass` (both 0) and
  `currentVisualization == SolidSpheres` are assumptions, since no source
  line declares these fields. The other initial values follow
  `MetalScene.swift`.
- ProteinRenderer's initializer is not part of this model.
  `FrameScheduling.ProteinRenderer.constructor` only sets up the state that
  `drawFrame` reads. Two parts of `ProteinRenderer.Valid` are assumptions
  about that initializer:
  - the uniform buffer ring has `maxBuffersInFlight` entries, which makes the
    subscript at ProteinDraw.swift line 33 safe;
  - the benchmark time array has `benchmarkFrameCount` entries, which makes
    the subscript at ProteinDraw.swift line 171 safe.
- The loader checks `Task.isCancelled` only once, after connectivity
  (VisualizationBufferLoader.swift line 80). It does not check again before
  the bonds are added or before the buffers are installed, and the model has
  the same single check.
- A default argument has no Dafny counterpart. The default `extraMargin`
  of 5 is the constant `DefaultExtraMargin`. `ComputeBoundingVolumeDefaultMargin`
  is the call that leaves the margin out. The protein-list variant always
  takes the margin as an explicit parameter.
- ProteinMath.Halton: requires base ≥ 2 unless the index is 0. In the
  source, base 0 traps on the division by zero, and base 1 never leaves the
  loop for a positive index. The index is bounded by `UInt32.max`, as its
  Swift type bounds it. The early return for a base below 2 reflects that
  only index 0 gets there, where the loop does not run.
- SdfGrid.ComputeSDFGrid: requires `maxTotalThreadsPerThreadgroup > 0`,
  which Metal guarantees for any pipeline it builds.
- SdfGrid.LegacyThreadgroupCount and SdfGrid.ComputeSDFGrid compute
  `floor(n / maxThreads)` over exact integers. The source computes it in
  Float32 (`floorf(Float(n) / Float(maxThreads))`), which rounds `n` once it
  exceeds 2^24 cells. For example, with resolution 511 and 256 threads per
  group, n = 133,432,831 rounds to 133,432,832, giving 521,222 groups. That
  is one thread more than the grid has, whereas the exact count is 521,221.
  So the proved bounds "never launches past the grid" and "the remainder is
  below one group" hold for the source only up to 2^24 cells.
- ConfigurationSelection.ConfigurationSelector.constructor: requires
  `configurationCount ≥ 1`, which every loaded structure has. With 0 the
  cursor would start outside `[0, lastConfiguration]`.
- ConfigurationSelection.ConfigurationSelector.GetBondsIndexBufferRegion:
  when both bond arrays are present, requires the cursor to be inside both.
  The source traps on an out-of-range subscript there.

## Findings

| source | as written | input that shows it | evidently intended | confidence | as-written member | corrected member |
|---|---|---|---|---|---|---|
| BioViewer/Metal/Renderer/ConfigurationSelector.swift:54-60 | `nextConfiguration` resets to 0 when the incremented cursor is `>= lastConfiguration` | three configurations (last = 2), cursor 1: next gives 0, so configuration 2 is never reached going forward, and previous after next gives 2 instead of 1 | wrap only past the last configuration (`> lastConfiguration`), so that next and previous are inverse and stepping forward visits every configuration | not executed; proved about the model | ConfigurationSelection.ConfigurationSelector.NextConfiguration, ConfigurationSelection.StepsForwardAsWrittenMissesLast, ConfigurationSelection.NextAsWrittenBreaksRoundTrip | ConfigurationSelection.ConfigurationSelector.NextConfigurationWrapping, ConfigurationSelection.StepsForwardVisitsAll, ConfigurationSelection.NextPreviousInverse |
| BioViewer/Metal/Renderer/Draw/ProteinDraw.swift:47-56 | after waiting on the frame semaphore, the returns for a missing command queue or command buffer never signal it | three slots, three dirty frames whose command buffer cannot be created: every slot is taken, nothing is in flight, and the fourth frame waits forever | every exit after the wait that does not commit gives the slot back | not executed; proved about the model | FrameScheduling.ProteinRenderer.DrawFrame, FrameScheduling.LeakedSlotsStallRendering | FrameScheduling.ProteinRenderer.DrawFrameReleasing, FrameScheduling.ReleasedSlotsKeepRendering |
| BioViewer/Metal/Renderer/VisualizationBufferLoader.swift:25-35 | the task publishes its mode to the scene and reports completion after populating, whether or not it was cancelled | request ball-and-stick, then solid spheres; the cancelled ball-and-stick task stops at its cancellation check but finishes last: the scene is in ball-and-stick mode over solid-sphere pipelines | a cancelled task changes neither the active mode nor the status | not executed; proved about the model | VisualizationLoading.VisualizationBufferLoader.RunTask, VisualizationLoading.CancelledTaskOverwritesMode | VisualizationLoading.VisualizationBufferLoader.RunTaskDiscardingCancelled, VisualizationLoading.CancelledTaskDiscarded |
