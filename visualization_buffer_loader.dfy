/**
 The loader that turns a requested geometry mode into buffers and pipelines.
 Each request cancels the task in flight and starts a new one; a task runs a
 sequence of guards, each of which can end it early, followed by calls on the
 scheduler, the renderer and the configuration selector, and then publishes
 the requested mode to the scene whatever happened before.

 The collaborators (`createImpostorSpheres`, `computeConnectivity`,
 `createBondsGeometry`) are not part of this model: what they produce is an
 input, and each call is recorded as a step in the loader's log. Cancellation
 is the task's flag as seen when the task runs.
 */
module VisualizationLoading {
  import opened Wrappers
  import opened Scene
  import opened ConfigurationSelection

  /** The impostor pipeline variants the loader can select. */
  datatype ImpostorVariant = SolidSpheresVariant | BallAndSticksVariant

  /** A call the loader makes, in the order it makes them. */
  datatype LoadStep =
    | CreateImpostorSpheres(fixedRadius: bool)
    | ComputeConnectivity
    | AddBonds(bondsPerConfiguration: seq<int>, bondArrayStarts: seq<int>)
    | CreateBondsGeometry
    | AddBillboardingBuffers
    | AddBillboardingBonds
    | RemakeImpostorPipeline(variant: ImpostorVariant)
    | RemakeShadowPipeline(useFixedRadius: bool)
  {
    /** The calls that install buffers or pipelines into the renderer. */
    predicate IsInstallation()
    {
      AddBillboardingBuffers? || AddBillboardingBonds? || RemakeImpostorPipeline? || RemakeShadowPipeline?
    }
  }

  /** Which of the four buffers `createImpostorSpheres` produced. */
  datatype SphereBuffers = SphereBuffers(vertexData: bool, subunitData: bool, atomTypeData: bool, indexData: bool)
  {
    predicate Complete()
    {
      vertexData && subunitData && atomTypeData && indexData
    }
  }

  /** The bond data of the first loaded protein. */
  datatype ProteinBonds = ProteinBonds(
    bondsPresent: bool,
    bondsPerConfiguration: Option<seq<int>>,
    bondsConfigurationArrayStart: Option<seq<int>>)

  /** What the collaborators of one load produce. */
  datatype LoadInputs = LoadInputs(
    protein: Option<ProteinBonds>,   // the first file's protein, if any
    sphereBuffers: SphereBuffers,
    connectivityFindsBonds: bool,    // whether `computeConnectivity` leaves bonds on the protein
    bondVertexBuffer: bool,
    bondIndexBuffer: bool)

  /** Whether a ball-and-stick load gets past every guard up to `addBonds`. */
  predicate BondsAvailable(p: ProteinBonds, input: LoadInputs, cancelled: bool)
  {
    && (p.bondsPresent || input.connectivityFindsBonds)
    && !cancelled
    && p.bondsPerConfiguration.Some?
    && p.bondsConfigurationArrayStart.Some?
  }

  /** Whether a load of mode `v` gets past every guard. */
  predicate LoadCompletes(v: Visualization, input: LoadInputs, cancelled: bool)
  {
    && input.protein.Some?
    && input.sphereBuffers.Complete()
    && (v == BallAndStick ==>
          && BondsAvailable(input.protein.value, input, cancelled)
          && input.bondVertexBuffer && input.bondIndexBuffer)
  }

  /** Everything a completed load of mode `v` installs, in order. */
  function FullInstallation(v: Visualization): seq<LoadStep>
  {
    match v
    case SolidSpheres =>
      [AddBillboardingBuffers, RemakeImpostorPipeline(SolidSpheresVariant), RemakeShadowPipeline(false)]
    case BallAndStick =>
      [AddBillboardingBuffers, AddBillboardingBonds, RemakeImpostorPipeline(BallAndSticksVariant),
       RemakeShadowPipeline(true)]
  }

  /** The calls of the ball-and-stick branch after the sphere buffers were produced. */
  function BallAndStickSteps(p: ProteinBonds, input: LoadInputs, cancelled: bool): seq<LoadStep>
  {
    (if p.bondsPresent then [] else [ComputeConnectivity])
    + if !BondsAvailable(p, input, cancelled) then []
      else [AddBonds(p.bondsPerConfiguration.value, p.bondsConfigurationArrayStart.value), CreateBondsGeometry]
           + if input.bondVertexBuffer && input.bondIndexBuffer then FullInstallation(BallAndStick) else []
  }

  /** The calls one load of mode `v` makes, in order. */
  function LoadSteps(v: Visualization, input: LoadInputs, cancelled: bool): seq<LoadStep>
  {
    match input.protein
    case None => []
    case Some(p) =>
      [CreateImpostorSpheres(v == BallAndStick)]
      + if !input.sphereBuffers.Complete() then []
        else match v
             case SolidSpheres => FullInstallation(SolidSpheres)
             case BallAndStick => BallAndStickSteps(p, input, cancelled)
  }

  /** The installation calls of a log, in order. */
  function Installations(steps: seq<LoadStep>): seq<LoadStep>
  {
    if steps == [] then []
    else (if steps[0].IsInstallation() then [steps[0]] else []) + Installations(steps[1..])
  }

  /** The impostor variant the renderer is left with after a log of calls, if any. */
  function InstalledVariant(steps: seq<LoadStep>): Option<ImpostorVariant>
  {
    if steps == [] then None
    else if steps[|steps| - 1].RemakeImpostorPipeline? then Some(steps[|steps| - 1].variant)
    else InstalledVariant(steps[..|steps| - 1])
  }

  lemma {:induction false} InstallationsAppend(a: seq<LoadStep>, b: seq<LoadStep>)
    ensures Installations(a + b) == Installations(a) + Installations(b)
  {
    if a == [] {
      assert a + b == b;
    } else {
      var head: seq<LoadStep> := if a[0].IsInstallation() then [a[0]] else [];
      assert (a + b)[0] == a[0];
      assert (a + b)[1..] == a[1..] + b;
      assert Installations(a + b) == head + Installations(a[1..] + b);
      InstallationsAppend(a[1..], b);
      assert head + (Installations(a[1..]) + Installations(b)) == (head + Installations(a[1..])) + Installations(b);
    }
  }

  lemma {:induction false} InstallationsOfInstallationsOnly(s: seq<LoadStep>)
    requires forall i :: 0 <= i < |s| ==> s[i].IsInstallation()
    ensures Installations(s) == s
  {
    if s != [] {
      InstallationsOfInstallationsOnly(s[1..]);
    }
  }

  lemma {:induction false} InstallationsOfNoInstallations(s: seq<LoadStep>)
    requires forall i :: 0 <= i < |s| ==> !s[i].IsInstallation()
    ensures Installations(s) == []
  {
    if s != [] {
      InstallationsOfNoInstallations(s[1..]);
    }
  }

  /**
   A load installs everything its mode needs, in the mode's order, or nothing
   at all; it installs everything exactly when it gets past every guard.
   */
  lemma InstallationAllOrNothing(v: Visualization, input: LoadInputs, cancelled: bool)
    ensures Installations(LoadSteps(v, input, cancelled)) ==
            if LoadCompletes(v, input, cancelled) then FullInstallation(v) else []
  {
    InstallationsOfInstallationsOnly(FullInstallation(v));
    if input.protein.Some? {
      var p := input.protein.value;
      InstallationsAppend([CreateImpostorSpheres(v == BallAndStick)],
                          LoadSteps(v, input, cancelled)[1..]);
      assert LoadSteps(v, input, cancelled)
          == [CreateImpostorSpheres(v == BallAndStick)] + LoadSteps(v, input, cancelled)[1..];
      InstallationsOfNoInstallations([CreateImpostorSpheres(v == BallAndStick)]);
      if input.sphereBuffers.Complete() && v == BallAndStick {
        var connect: seq<LoadStep> := if p.bondsPresent then [] else [ComputeConnectivity];
        InstallationsOfNoInstallations(connect);
        if BondsAvailable(p, input, cancelled) {
          var bonds := [AddBonds(p.bondsPerConfiguration.value, p.bondsConfigurationArrayStart.value),
                        CreateBondsGeometry];
          var rest := if input.bondVertexBuffer && input.bondIndexBuffer then FullInstallation(BallAndStick) else [];
          InstallationsOfNoInstallations(bonds);
          InstallationsAppend(bonds, rest);
          InstallationsAppend(connect, bonds + rest);
          assert BallAndStickSteps(p, input, cancelled) == connect + (bonds + rest);
        } else {
          InstallationsAppend(connect, []);
          assert BallAndStickSteps(p, input, cancelled) == connect + [];
        }
      }
    }
  }

  /** Connectivity is computed only for a ball-and-stick load of a protein without bonds. */
  lemma ConnectivityOnlyWithoutBonds(v: Visualization, input: LoadInputs, cancelled: bool)
    ensures ComputeConnectivity in LoadSteps(v, input, cancelled) <==>
            && v == BallAndStick && input.protein.Some? && input.sphereBuffers.Complete()
            && !input.protein.value.bondsPresent
  {
  }

  /** A ball-and-stick load cancelled at its check neither adds bonds nor installs anything. */
  lemma CancelledLoadStopsBeforeBonds(input: LoadInputs)
    ensures forall s :: s in LoadSteps(BallAndStick, input, true) ==> !s.AddBonds? && !s.IsInstallation()
  {
  }

  /** In ball-and-stick mode the bonds reach the selector before any buffer is installed. */
  lemma BondsAddedBeforeInstallation(input: LoadInputs, cancelled: bool)
    requires Installations(LoadSteps(BallAndStick, input, cancelled)) != []
    ensures exists k :: && 0 <= k < |LoadSteps(BallAndStick, input, cancelled)|
                        && LoadSteps(BallAndStick, input, cancelled)[k].AddBonds?
                        && Installations(LoadSteps(BallAndStick, input, cancelled)[..k]) == []
  {
    InstallationAllOrNothing(BallAndStick, input, cancelled);
    var steps := LoadSteps(BallAndStick, input, cancelled);
    var p := input.protein.value;
    var k := if p.bondsPresent then 1 else 2;
    assert steps[k].AddBonds?;
    InstallationsOfNoInstallations(steps[..k]);
  }

  /** A task started by a visualization change: its mode and whether it was cancelled. */
  datatype LoadTask = LoadTask(visualization: Visualization, cancelled: bool)

  /** What the loader reports to the view model, in order. */
  datatype LoaderEvent =
    | TaskCancelled(id: nat)
    | StatusGeneratingGeometry
    | TaskStarted(id: nat)
    | StatusGeometryFinished

  /** The task list after cancelling `current`, if there is one. */
  function CancelTask(tasks: seq<LoadTask>, current: Option<nat>): (r: seq<LoadTask>)
    requires current.Some? ==> current.value < |tasks|
    ensures |r| == |tasks|
    ensures forall i :: 0 <= i < |tasks| ==>
      r[i] == if current == Some(i) then tasks[i].(cancelled := true) else tasks[i]
  {
    if current.Some? then tasks[current.value := tasks[current.value].(cancelled := true)] else tasks
  }

  class VisualizationBufferLoader {
    /** The id of the most recent task, if any. */
    var currentTask: Option<nat>
    /** Every task created so far, by id. */
    var tasks: seq<LoadTask>
    var events: seq<LoaderEvent>
    /** Calls made on the scheduler, the renderer and the selector, in order. */
    var steps: seq<LoadStep>

    ghost predicate Valid()
      reads this
    {
      currentTask.Some? ==> currentTask.value < |tasks|
    }

    constructor ()
      ensures Valid()
      ensures currentTask == None && tasks == [] && events == [] && steps == []
    {
      currentTask, tasks, events, steps := None, [], [], [];
    }

    /**
     Cancels the running task, reports that geometry is being generated and
     starts a new task for `visualization`, which becomes the current task.
     */
    method HandleVisualizationChange(visualization: Visualization)
      requires Valid()
      modifies this`currentTask, this`tasks, this`events
      ensures Valid()
      ensures tasks == CancelTask(old(tasks), old(currentTask)) + [LoadTask(visualization, false)]
      ensures currentTask == Some(|old(tasks)|)
      ensures events == old(events)
                        + (if old(currentTask).Some? then [TaskCancelled(old(currentTask).value)] else [])
                        + [StatusGeneratingGeometry, TaskStarted(|old(tasks)|)]
    {
      if currentTask.Some? {
        tasks := CancelTask(tasks, currentTask);
        events := events + [TaskCancelled(currentTask.value)];
      }
      events := events + [StatusGeneratingGeometry];
      tasks := tasks + [LoadTask(visualization, false)];
      currentTask := Some(|tasks| - 1);
      events := events + [TaskStarted(|tasks| - 1)];
    }

    /**
     Produces the buffers for `visualization` and hands them to the renderer,
     stopping at the first guard that fails.
     */
    method PopulateVisualizationBuffers(visualization: Visualization, input: LoadInputs, cancelled: bool,
                                        selector: ConfigurationSelector?)
      modifies this`steps, selector
      ensures steps == old(steps) + LoadSteps(visualization, input, cancelled)
      ensures selector != null ==> SelectorAfterLoad(selector, visualization, input, cancelled)
    {
      if input.protein.None? {
        return;
      }
      var calls;
      match visualization {
        case SolidSpheres =>
          calls := PopulateSolidSpheres(input);
        case BallAndStick =>
          calls := PopulateBallAndStick(input, cancelled, selector);
      }
      steps := steps + calls;
    }

    /**
     The selector after a load: its cursor and layout are as they were, and it
     holds the protein's bond arrays exactly when a ball-and-stick load got as
     far as `addBonds`; otherwise its bond arrays are also unchanged.
     */
    twostate predicate SelectorAfterLoad(selector: ConfigurationSelector, visualization: Visualization,
                                         input: LoadInputs, cancelled: bool)
      reads selector
    {
      && SelectorKeepsCursor(selector)
      && if visualization == BallAndStick && input.protein.Some? && input.sphereBuffers.Complete()
            && BondsAvailable(input.protein.value, input, cancelled)
         then && selector.bondsPerConfiguration == input.protein.value.bondsPerConfiguration
              && selector.bondArrayStarts == input.protein.value.bondsConfigurationArrayStart
         else && selector.bondsPerConfiguration == old(selector.bondsPerConfiguration)
              && selector.bondArrayStarts == old(selector.bondArrayStarts)
    }

    /** Everything of the selector but its bond arrays is as it was. */
    twostate predicate SelectorKeepsCursor(selector: ConfigurationSelector)
      reads selector
    {
      && selector.currentConfiguration == old(selector.currentConfiguration)
      && selector.lastConfiguration == old(selector.lastConfiguration)
      && selector.atomsPerConfiguration == old(selector.atomsPerConfiguration)
      && selector.subunitIndices == old(selector.subunitIndices)
      && selector.subunitLengths == old(selector.subunitLengths)
      && selector.scene == old(selector.scene)
    }

    /** The solid-spheres case: sphere buffers, then the solid-spheres pipelines. */
    method PopulateSolidSpheres(input: LoadInputs) returns (calls: seq<LoadStep>)
      requires input.protein.Some?
      ensures calls == LoadSteps(SolidSpheres, input, false)
    {
      calls := [CreateImpostorSpheres(false)];
      if input.sphereBuffers.Complete() {
        calls := calls + [AddBillboardingBuffers, RemakeImpostorPipeline(SolidSpheresVariant),
                          RemakeShadowPipeline(false)];
      }
    }

    /**
     The ball-and-stick case: sphere buffers, connectivity when the protein has
     no bonds, the cancellation check, bonds to the selector, bond geometry,
     then atom and bond buffers and the ball-and-stick pipelines. The `AddBonds`
     step is logged whether or not a selector is attached; only an attached
     one changes.
     */
    method PopulateBallAndStick(input: LoadInputs, cancelled: bool, selector: ConfigurationSelector?)
        returns (calls: seq<LoadStep>)
      requires input.protein.Some?
      modifies selector
      ensures calls == LoadSteps(BallAndStick, input, cancelled)
      ensures selector != null ==> SelectorKeepsCursor(selector)
      ensures selector != null ==>
        if input.sphereBuffers.Complete() && BondsAvailable(input.protein.value, input, cancelled)
        then && selector.bondsPerConfiguration == input.protein.value.bondsPerConfiguration
             && selector.bondArrayStarts == input.protein.value.bondsConfigurationArrayStart
        else && selector.bondsPerConfiguration == old(selector.bondsPerConfiguration)
             && selector.bondArrayStarts == old(selector.bondArrayStarts)
    {
      var protein := input.protein.value;
      ghost var connect: seq<LoadStep> := if protein.bondsPresent then [] else [ComputeConnectivity];
      assert LoadSteps(BallAndStick, input, cancelled)
          == [CreateImpostorSpheres(true)]
             + if !input.sphereBuffers.Complete() then [] else BallAndStickSteps(protein, input, cancelled);
      calls := [CreateImpostorSpheres(true)];
      label populate: {
        if !input.sphereBuffers.Complete() {
          break populate;
        }
        var hasBonds := protein.bondsPresent;
        if !hasBonds {
          calls := calls + [ComputeConnectivity];
          hasBonds := input.connectivityFindsBonds;
        }
        if !hasBonds || cancelled {
          break populate;
        }
        if protein.bondsPerConfiguration.None? || protein.bondsConfigurationArrayStart.None? {
          break populate;
        }
        var bondsPerConfiguration := protein.bondsPerConfiguration.value;
        var bondArrayStarts := protein.bondsConfigurationArrayStart.value;
        assert calls == [CreateImpostorSpheres(true)] + connect;
        assert BondsAvailable(protein, input, cancelled);
        if selector != null {
          selector.AddBonds(bondsPerConfiguration, bondArrayStarts);
        }
        calls := calls + [AddBonds(bondsPerConfiguration, bondArrayStarts), CreateBondsGeometry];
        if !(input.bondVertexBuffer && input.bondIndexBuffer) {
          break populate;
        }
        calls := calls + [AddBillboardingBuffers, AddBillboardingBonds,
                          RemakeImpostorPipeline(BallAndSticksVariant), RemakeShadowPipeline(true)];
      }
    }

    /**
     The body of task `id` as written: populate, then publish the task's mode
     to the scene and report completion, whether or not the task was cancelled.
     */
    method RunTask(id: nat, input: LoadInputs, scene: MetalScene, selector: ConfigurationSelector?)
      requires Valid() && id < |tasks|
      modifies this`steps, this`events, scene`currentVisualization, selector
      ensures steps == old(steps) + LoadSteps(tasks[id].visualization, input, tasks[id].cancelled)
      ensures scene.currentVisualization == tasks[id].visualization
      ensures events == old(events) + [StatusGeometryFinished]
      ensures selector != null ==>
              SelectorAfterLoad(selector, tasks[id].visualization, input, tasks[id].cancelled)
    {
      var task := tasks[id];
      PopulateVisualizationBuffers(task.visualization, input, task.cancelled, selector);
      scene.currentVisualization := task.visualization;
      events := events + [StatusGeometryFinished];
    }

    /**
     The body of task `id` with a second cancellation check after populating: a
     task that was cancelled publishes nothing, so only the latest request
     reaches the scene.
     */
    method RunTaskDiscardingCancelled(id: nat, input: LoadInputs, scene: MetalScene, selector: ConfigurationSelector?)
      requires Valid() && id < |tasks|
      modifies this`steps, this`events, scene`currentVisualization, selector
      ensures steps == old(steps) + LoadSteps(tasks[id].visualization, input, tasks[id].cancelled)
      ensures scene.currentVisualization ==
              if tasks[id].cancelled then old(scene.currentVisualization) else tasks[id].visualization
      ensures events == old(events) + if tasks[id].cancelled then [] else [StatusGeometryFinished]
      ensures selector != null ==>
              SelectorAfterLoad(selector, tasks[id].visualization, input, tasks[id].cancelled)
    {
      var task := tasks[id];
      PopulateVisualizationBuffers(task.visualization, input, task.cancelled, selector);
      if !task.cancelled {
        scene.currentVisualization := task.visualization;
        events := events + [StatusGeometryFinished];
      }
    }
  }

  /** A protein without bonds whose every collaborator succeeds. */
  const HealthyLoad := LoadInputs(Some(ProteinBonds(false, Some([3]), Some([0]))),
                                  SphereBuffers(true, true, true, true), true, true, true)

  lemma {:induction false} InstalledVariantSkips(a: seq<LoadStep>, b: seq<LoadStep>)
    requires forall s :: s in b ==> !s.RemakeImpostorPipeline?
    ensures InstalledVariant(a + b) == InstalledVariant(a)
  {
    if b != [] {
      assert (a + b)[..|a + b| - 1] == a + b[..|b| - 1];
      assert b[|b| - 1] in b;
      InstalledVariantSkips(a, b[..|b| - 1]);
    } else {
      assert a + b == a;
    }
  }

  /**
   Ball-and-stick is requested and then solid spheres. The solid-spheres task
   runs to completion, then the cancelled ball-and-stick task runs: it stops at
   its cancellation check, but still publishes its mode. The scene ends up in
   ball-and-stick mode over solid-sphere pipelines.
   */
  method CancelledTaskOverwritesMode() returns (mode: Visualization, installed: Option<ImpostorVariant>)
    ensures mode == BallAndStick && installed == Some(SolidSpheresVariant)
  {
    var scene := new MetalScene();
    var loader := new VisualizationBufferLoader();
    loader.HandleVisualizationChange(BallAndStick);
    loader.HandleVisualizationChange(SolidSpheres);
    assert loader.tasks == [LoadTask(BallAndStick, true), LoadTask(SolidSpheres, false)];
    loader.RunTask(1, HealthyLoad, scene, null);
    ghost var afterSolid := loader.steps;
    ghost var installing := [CreateImpostorSpheres(false), AddBillboardingBuffers, RemakeImpostorPipeline(SolidSpheresVariant)];
    assert afterSolid == installing + [RemakeShadowPipeline(false)];
    assert InstalledVariant(installing) == Some(SolidSpheresVariant);
    InstalledVariantSkips(installing, [RemakeShadowPipeline(false)]);
    loader.RunTask(0, HealthyLoad, scene, null);
    assert LoadSteps(BallAndStick, HealthyLoad, true) == [CreateImpostorSpheres(true), ComputeConnectivity];
    InstalledVariantSkips(afterSolid, [CreateImpostorSpheres(true), ComputeConnectivity]);
    mode, installed := scene.currentVisualization, InstalledVariant(loader.steps);
  }

  /** The same two requests with the cancellation check: the scene stays in solid-spheres mode. */
  method CancelledTaskDiscarded() returns (mode: Visualization, installed: Option<ImpostorVariant>)
    ensures mode == SolidSpheres && installed == Some(SolidSpheresVariant)
  {
    var scene := new MetalScene();
    var loader := new VisualizationBufferLoader();
    loader.HandleVisualizationChange(BallAndStick);
    loader.HandleVisualizationChange(SolidSpheres);
    assert loader.tasks == [LoadTask(BallAndStick, true), LoadTask(SolidSpheres, false)];
    loader.RunTaskDiscardingCancelled(1, HealthyLoad, scene, null);
    ghost var afterSolid := loader.steps;
    ghost var installing := [CreateImpostorSpheres(false), AddBillboardingBuffers, RemakeImpostorPipeline(SolidSpheresVariant)];
    assert afterSolid == installing + [RemakeShadowPipeline(false)];
    assert InstalledVariant(installing) == Some(SolidSpheresVariant);
    InstalledVariantSkips(installing, [RemakeShadowPipeline(false)]);
    loader.RunTaskDiscardingCancelled(0, HealthyLoad, scene, null);
    assert LoadSteps(BallAndStick, HealthyLoad, true) == [CreateImpostorSpheres(true), ComputeConnectivity];
    InstalledVariantSkips(afterSolid, [CreateImpostorSpheres(true), ComputeConnectivity]);
    mode, installed := scene.currentVisualization, InstalledVariant(loader.steps);
  }
}
