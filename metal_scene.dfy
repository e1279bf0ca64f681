/**
 The scene state read by the renderer once per frame: camera, user rotation,
 appearance parameters, the frame-data snapshot copied into the uniform
 buffers, and the single `needsRedraw` dirty flag that coalesces redraw
 requests. Matrices and colours are opaque values: the model keeps them as
 symbolic terms and tracks only which term ends up in which slot.
 */
module Scene {
  import opened Vectors

  /** A 4x4 transform, kept as the term that built it. */
  datatype Matrix =
    | ZeroMatrix
    | Translation(offset: Vec3)
      /** Rotation by `halfTurns * pi` radians about `axis`. */
    | Rotation(halfTurns: real, axis: Vec3)
    | Perspective(nearPlane: real, farPlane: real, focalLength: real, aspectRatio: real)
    | Inverse(of: Matrix)

  datatype Color = Color(red: real, green: real, blue: real, alpha: real)

  datatype AtomElement = Carbon | Hydrogen | Nitrogen | Oxygen | Sulfur | Unknown

  /** The geometry mode the renderer draws (solid spheres or ball-and-stick). */
  datatype Visualization = SolidSpheres | BallAndStick

  /** The code of `ProteinColorByOption.element`. */
  const ColorByElement: int := 0

  /** The camera collaborator, reduced to what its projection matrix depends on. */
  datatype Camera = Camera(nearPlane: real, farPlane: real, focalLength: real, aspectRatio: real)

  function ProjectionMatrix(c: Camera): Matrix
  {
    Perspective(c.nearPlane, c.farPlane, c.focalLength, c.aspectRatio)
  }

  /** `Camera(nearPlane: 1, farPlane: 10000, focalLength: 200)`; its initial aspect ratio is taken to be 1. */
  const InitialCamera: Camera := Camera(1.0, 10000.0, 200.0, 1.0)

  const YAxis: Vec3 := Vec3(0.0, 1.0, 0.0)

  /** The per-frame snapshot handed to the shaders (its matrix part). */
  datatype FrameData = FrameData(
    modelViewMatrix: Matrix,
    projectionMatrix: Matrix,
    rotationMatrix: Matrix,
    inverseRotationMatrix: Matrix)

  /** Everything `updateScene` reads or writes. */
  datatype SceneState = SceneState(
    needsRedraw: bool,
    frame: int,
    frameData: FrameData,
    camera: Camera,
    cameraPosition: Vec3,
    userModelRotationMatrix: Matrix,
    aspectRatio: real)

  /** The snapshot `updateScene` builds from the current inputs when the scene is dirty. */
  function RebuiltFrameData(s: SceneState): (d: FrameData)
    ensures d.modelViewMatrix == Translation(s.cameraPosition)
    ensures d.rotationMatrix == s.userModelRotationMatrix
    ensures d.inverseRotationMatrix == Inverse(d.rotationMatrix)
    ensures d.projectionMatrix.Perspective? && d.projectionMatrix.aspectRatio == s.aspectRatio
  {
    FrameData(
      Translation(s.cameraPosition),
      ProjectionMatrix(s.camera.(aspectRatio := s.aspectRatio)),
      s.userModelRotationMatrix,
      Inverse(s.userModelRotationMatrix))
  }

  /** One call of `updateScene`, on values. */
  function UpdateStep(s: SceneState): (t: SceneState)
    ensures t.frame == s.frame + 1
    ensures !t.needsRedraw
    ensures t.cameraPosition == s.cameraPosition && t.userModelRotationMatrix == s.userModelRotationMatrix
    ensures t.aspectRatio == s.aspectRatio
    ensures !s.needsRedraw ==> t.frameData == s.frameData && t.camera == s.camera
    ensures s.needsRedraw ==> t.frameData == RebuiltFrameData(s) && t.camera.aspectRatio == s.aspectRatio
  {
    if !s.needsRedraw then
      s.(frame := s.frame + 1)
    else
      s.(camera := s.camera.(aspectRatio := s.aspectRatio),
         frameData := RebuiltFrameData(s),
         frame := s.frame + 1,
         needsRedraw := false)
  }

  /** Two updates with no mutation in between: the second only advances the frame counter. */
  lemma UpdateStepSettles(s: SceneState)
    ensures UpdateStep(UpdateStep(s)).frameData == UpdateStep(s).frameData
    ensures UpdateStep(UpdateStep(s)).frame == s.frame + 2
    ensures UpdateStep(UpdateStep(s)) == UpdateStep(s).(frame := s.frame + 2)
  {
  }

  /**
   Whatever state the scene was in, an update after a mutation marked it dirty
   shows exactly the current inputs: no earlier snapshot survives.
   */
  lemma DirtyUpdateForgetsOldSnapshot(s: SceneState, s': SceneState)
    requires s.needsRedraw && s'.needsRedraw
    requires s.cameraPosition == s'.cameraPosition
    requires s.userModelRotationMatrix == s'.userModelRotationMatrix
    requires s.aspectRatio == s'.aspectRatio
    requires s.camera.(aspectRatio := 0.0) == s'.camera.(aspectRatio := 0.0)
    ensures UpdateStep(s).frameData == UpdateStep(s').frameData
  {
  }

  /** Everything else the scene holds: appearance and the flags the renderer reads. */
  datatype SceneSettings = SceneSettings(
    backgroundColor: Color,
    colorBy: int,
    atomColors: seq<Color>,
    isPlaying: bool,
    hasShadows: bool,
    lastColorPassRequest: int,
    lastColorPass: int,
    currentVisualization: Visualization)

  class MetalScene {
    /** Whether the scene needs to be redrawn for the next frame. */
    var needsRedraw: bool
    var camera: Camera
    var frameData: FrameData
    /** Frames since the scene started. */
    var frame: int

    var cameraPosition: Vec3
    var userModelRotationMatrix: Matrix
    var aspectRatio: real
    var backgroundColor: Color
    var colorBy: int

    var cAtomColor: Color
    var hAtomColor: Color
    var nAtomColor: Color
    var oAtomColor: Color
    var sAtomColor: Color
    var unknownAtomColor: Color

    /** Trajectory autoplay: forces a redraw every frame. */
    var isPlaying: bool
    var hasShadows: bool
    /** Version stamps of the last colour change request and of the last colour fill pass. */
    var lastColorPassRequest: int
    var lastColorPass: int
    var currentVisualization: Visualization

    function State(): SceneState
      reads this
    {
      SceneState(needsRedraw, frame, frameData, camera, cameraPosition, userModelRotationMatrix, aspectRatio)
    }

    function Settings(): SceneSettings
      reads this
    {
      SceneSettings(backgroundColor, colorBy,
                    [cAtomColor, hAtomColor, nAtomColor, oAtomColor, sAtomColor, unknownAtomColor],
                    isPlaying, hasShadows, lastColorPassRequest, lastColorPass, currentVisualization)
    }

    function AtomColor(e: AtomElement): Color
      reads this
    {
      match e
      case Carbon => cAtomColor
      case Hydrogen => hAtomColor
      case Nitrogen => nAtomColor
      case Oxygen => oAtomColor
      case Sulfur => sAtomColor
      case Unknown => unknownAtomColor
    }

    constructor ()
      ensures !needsRedraw && frame == 0 && aspectRatio == 1.0 && colorBy == ColorByElement
      ensures camera == InitialCamera
      ensures cameraPosition == Vec3(0.0, 0.0, 1000.0)
      ensures userModelRotationMatrix == Rotation(0.0, YAxis)
      ensures backgroundColor == Color(0.0, 0.0, 0.0, 1.0)
      ensures frameData.modelViewMatrix == Translation(cameraPosition)
      ensures frameData.projectionMatrix == ProjectionMatrix(InitialCamera)
      ensures frameData.rotationMatrix == Inverse(Rotation(1.0, YAxis))
      ensures AtomColor(Carbon) == Color(0.423, 0.733, 0.235, 1.0)
      ensures AtomColor(Hydrogen) == Color(0.517, 0.517, 0.517, 1.0)
      ensures AtomColor(Nitrogen) == Color(0.091, 0.148, 0.556, 1.0)
      ensures AtomColor(Oxygen) == Color(1.000, 0.149, 0.000, 1.0)
      ensures AtomColor(Sulfur) == Color(1.000, 0.780, 0.349, 1.0)
      ensures AtomColor(Unknown) == Color(0.517, 0.517, 0.517, 1.0)
      ensures !isPlaying && !hasShadows && lastColorPassRequest == lastColorPass
      ensures currentVisualization == SolidSpheres
    {
      needsRedraw := false;
      cAtomColor := Color(0.423, 0.733, 0.235, 1.0);
      hAtomColor := Color(0.517, 0.517, 0.517, 1.0);
      nAtomColor := Color(0.091, 0.148, 0.556, 1.0);
      oAtomColor := Color(1.000, 0.149, 0.000, 1.0);
      sAtomColor := Color(1.000, 0.780, 0.349, 1.0);
      unknownAtomColor := Color(0.517, 0.517, 0.517, 1.0);
      camera := InitialCamera;
      cameraPosition := Vec3(0.0, 0.0, 1000.0);
      userModelRotationMatrix := Rotation(0.0, YAxis);
      backgroundColor := Color(0.0, 0.0, 0.0, 1.0);
      frame := 0;
      aspectRatio := 1.0;
      var d := FrameData(ZeroMatrix, ZeroMatrix, ZeroMatrix, ZeroMatrix);
      d := d.(modelViewMatrix := Translation(Vec3(0.0, 0.0, 1000.0)));
      d := d.(projectionMatrix := ProjectionMatrix(InitialCamera));
      d := d.(rotationMatrix := Rotation(1.0, YAxis));
      d := d.(rotationMatrix := Inverse(Rotation(1.0, YAxis)));
      frameData := d;
      colorBy := ColorByElement;
      isPlaying, hasShadows := false, false;
      lastColorPassRequest, lastColorPass := 0, 0;
      currentVisualization := SolidSpheres;
    }

    // Every settable property marks the scene dirty when assigned.

    method SetCameraPosition(p: Vec3)
      modifies this`cameraPosition, this`needsRedraw
      ensures cameraPosition == p && needsRedraw
    {
      cameraPosition := p;
      needsRedraw := true;
    }

    method SetUserModelRotationMatrix(m: Matrix)
      modifies this`userModelRotationMatrix, this`needsRedraw
      ensures userModelRotationMatrix == m && needsRedraw
    {
      userModelRotationMatrix := m;
      needsRedraw := true;
    }

    method SetAspectRatio(a: real)
      modifies this`aspectRatio, this`needsRedraw
      ensures aspectRatio == a && needsRedraw
    {
      aspectRatio := a;
      needsRedraw := true;
    }

    method SetBackgroundColor(c: Color)
      modifies this`backgroundColor, this`needsRedraw
      ensures backgroundColor == c && needsRedraw
    {
      backgroundColor := c;
      needsRedraw := true;
    }

    method SetColorBy(option: int)
      modifies this`colorBy, this`needsRedraw
      ensures colorBy == option && needsRedraw
    {
      colorBy := option;
      needsRedraw := true;
    }

    /** Assigns one of the six per-element atom colours. */
    method SetAtomColor(e: AtomElement, c: Color)
      modifies this`cAtomColor, this`hAtomColor, this`nAtomColor, this`oAtomColor,
               this`sAtomColor, this`unknownAtomColor, this`needsRedraw
      ensures AtomColor(e) == c && needsRedraw
      ensures forall e' :: e' != e ==> AtomColor(e') == old(AtomColor(e'))
    {
      match e {
        case Carbon => cAtomColor := c;
        case Hydrogen => hAtomColor := c;
        case Nitrogen => nAtomColor := c;
        case Oxygen => oAtomColor := c;
        case Sulfur => sAtomColor := c;
        case Unknown => unknownAtomColor := c;
      }
      needsRedraw := true;
    }

    /** The camera's change notification. */
    method CameraDidChange()
      modifies this`needsRedraw
      ensures needsRedraw
    {
      needsRedraw := true;
    }

    /**
     Called once per frame: a clean scene only advances the frame counter; a
     dirty one rebuilds the snapshot from the current inputs first and is clean
     afterwards.
     */
    method UpdateScene()
      modifies this`needsRedraw, this`frame, this`frameData, this`camera
      ensures State() == UpdateStep(old(State()))
      ensures frame == old(frame) + 1 && !needsRedraw
      ensures !old(needsRedraw) ==> frameData == old(frameData)
      ensures old(needsRedraw) ==>
        && frameData.rotationMatrix == userModelRotationMatrix
        && frameData.inverseRotationMatrix == Inverse(userModelRotationMatrix)
        && frameData.modelViewMatrix == Translation(cameraPosition)
    {
      if !needsRedraw {
        SkipFrame();
        return;
      }
      camera := camera.(aspectRatio := aspectRatio);
      frameData := frameData.(modelViewMatrix := Translation(cameraPosition));
      frameData := frameData.(projectionMatrix := ProjectionMatrix(camera));
      frameData := frameData.(rotationMatrix := userModelRotationMatrix);
      frameData := frameData.(inverseRotationMatrix := Inverse(frameData.rotationMatrix));
      frame := frame + 1;
      needsRedraw := false;
    }

    method SkipFrame()
      modifies this`frame
      ensures frame == old(frame) + 1
    {
      frame := frame + 1;
    }
  }
}
