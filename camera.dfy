/**
 * `dae::Camera`: the free-fly camera the renderer owns. Each method updates the
 * fields in place, as the C++ member functions do, and is proved to leave the
 * camera in exactly the state the matching function of `CameraModel` gives.
 *
 * Input that the C++ code polls (the keyboard array, the relative mouse state,
 * ImGui's "wants the mouse" flag, the frame timer) is passed in as arguments.
 */
module CameraController {
  import opened Vectors
  import opened Input
  import opened CameraModel

  class Camera {
    /** The floating-point routines the camera calls. */
    const math: Numerics

    var worldMatrix: Matrix
    var inverseViewMatrix: Matrix
    var viewMatrix: Matrix
    var projectionMatrix: Matrix

    var origin: Vec3
    var fovAngle: real
    var fov: real
    var aspectRatio: real
    var nearPlane: real
    var farPlane: real

    var right: Vec3
    var up: Vec3
    var forward: Vec3

    var totalPitch: real
    var totalYaw: real
    var keyboardSpeed: real
    var mouseSpeed: real
    var rotationSpeed: real
    var scrollSpeed: real

    /** All fields, as one value. */
    function State(): CameraState
      reads this
    {
      CameraState(
        worldMatrix, inverseViewMatrix, viewMatrix, projectionMatrix,
        origin, fovAngle, fov, aspectRatio, nearPlane, farPlane,
        right, up, forward,
        totalPitch, totalYaw, keyboardSpeed, mouseSpeed, rotationSpeed, scrollSpeed)
    }

    /** `Camera() = default`: every field takes its member initialiser. */
    constructor (math: Numerics)
      ensures this.math == math
      ensures State() == DefaultState()
      ensures right == UnitX && up == UnitY && forward == UnitZ
      ensures totalPitch == 0.0 && totalYaw == 0.0
      ensures keyboardSpeed == 50.0 && mouseSpeed == 500.0 && rotationSpeed == 500.0 && scrollSpeed == 5.0
    {
      this.math := math;
      worldMatrix, inverseViewMatrix, viewMatrix, projectionMatrix := Default, Default, Default, Default;
      origin := Zero;
      fovAngle, fov, aspectRatio, nearPlane, farPlane := 0.0, 0.0, 0.0, 0.0, 0.0;
      right, up, forward := UnitX, UnitY, UnitZ;
      totalPitch, totalYaw := 0.0, 0.0;
      keyboardSpeed, mouseSpeed, rotationSpeed, scrollSpeed := 50.0, 500.0, 500.0, 5.0;
    }

    /** `Camera(origin, fovAngle)`: sets the origin and the angle only; the cached `fov` stays 0. */
    constructor FromOrigin(math: Numerics, origin: Vec3, fovAngle: real)
      ensures this.math == math
      ensures State() == DefaultState().(origin := origin, fovAngle := fovAngle)
    {
      this.math := math;
      worldMatrix, inverseViewMatrix, viewMatrix, projectionMatrix := Default, Default, Default, Default;
      this.origin := origin;
      this.fovAngle := fovAngle;
      fov, aspectRatio, nearPlane, farPlane := 0.0, 0.0, 0.0, 0.0;
      right, up, forward := UnitX, UnitY, UnitZ;
      totalPitch, totalYaw := 0.0, 0.0;
      keyboardSpeed, mouseSpeed, rotationSpeed, scrollSpeed := 50.0, 500.0, 500.0, 5.0;
    }

    method Initialize(angle: real := DefaultFovAngle, origin: Vec3 := DefaultOrigin,
                      nearPlane: real := DefaultNearPlane, farPlane: real := DefaultFarPlane)
      modifies this
      ensures State() == Initialized(old(State()), math, angle, origin, nearPlane, farPlane)
      ensures FovConsistent(State(), math)
    {
      fovAngle := angle;
      fov := CalculateFOV(math, fovAngle);
      this.origin := origin;
      this.nearPlane := nearPlane;
      this.farPlane := farPlane;
    }

    /** One frame: keyboard, then mouse, then the view and projection matrices. */
    method Update(deltaTime: real, keys: Keyboard, mouse: MouseSnapshot, overlayCaptured: bool)
      modifies this
      ensures State() == Updated(old(State()), math, deltaTime, keys, mouse, overlayCaptured)
    {
      MoveCamera(keys, deltaTime);
      RotateCamera(deltaTime, mouse, overlayCaptured);
      CalculateViewMatrix();
      CalculateProjectionMatrix();
    }

    /** The tangent of half the field of view, recomputed from the angle on every call. */
    function GetFOV(): real
      reads this
    {
      CalculateFOV(math, fovAngle)
    }

    function GetFOVAngle(): real reads this { fovAngle }
    function GetPosition(): Vec3 reads this { origin }
    function GetAspectRatio(): real reads this { aspectRatio }
    function GetWorldMatrix(): Matrix reads this { worldMatrix }
    function GetViewMatrix(): Matrix reads this { viewMatrix }
    function GetInverseViewMatrix(): Matrix reads this { inverseViewMatrix }
    function GetProjectionMatrix(): Matrix reads this { projectionMatrix }

    method SetAspectRatio(ratio: real)
      modifies this
      ensures State() == old(State()).(aspectRatio := ratio)
      ensures GetAspectRatio() == ratio
      ensures GetWorldMatrix() == old(GetWorldMatrix()) && GetViewMatrix() == old(GetViewMatrix())
      ensures GetInverseViewMatrix() == old(GetInverseViewMatrix()) && GetProjectionMatrix() == old(GetProjectionMatrix())
    {
      aspectRatio := ratio;
    }

    method SetTotalPitch(pitch: real)
      modifies this
      ensures State() == old(State()).(totalPitch := pitch)
    {
      totalPitch := pitch;
    }

    method SetTotalYaw(yaw: real)
      modifies this
      ensures State() == old(State()).(totalYaw := yaw)
    {
      totalYaw := yaw;
    }

    /** The mouse wheel: one step along `forward` by the sign of the wheel. */
    method Scroll(wheelY: int, overlayCaptured: bool)
      modifies this
      ensures State() == Scrolled(old(State()), wheelY, overlayCaptured)
    {
      if overlayCaptured {
        return;
      }
      if wheelY > 0 {
        origin := Add(origin, Scale(forward, scrollSpeed));
      } else if wheelY < 0 {
        origin := Sub(origin, Scale(forward, scrollSpeed));
      }
    }

    method IncreaseFOV()
      modifies this
      ensures State() == FovIncreased(old(State()), math)
      ensures GetFOVAngle() == old(GetFOVAngle()) + 1.0 && GetFOV() == fov
      ensures GetProjectionMatrix() == old(GetProjectionMatrix())
    {
      fovAngle := fovAngle + 1.0;
      RefreshFOV();
    }

    method DecreaseFOV()
      modifies this
      ensures State() == FovDecreased(old(State()), math)
      ensures GetFOVAngle() == old(GetFOVAngle()) - 1.0 && GetFOV() == fov
      ensures GetProjectionMatrix() == old(GetProjectionMatrix())
    {
      fovAngle := fovAngle - 1.0;
      RefreshFOV();
    }

    /** The no-argument `CalculateFOV()`: recomputes the cached tangent from the angle. */
    method RefreshFOV()
      modifies this
      ensures State() == old(State()).(fov := CalculateFOV(math, fovAngle))
      ensures FovConsistent(State(), math)
    {
      fov := CalculateFOV(math, fovAngle);
    }

    method MoveCamera(keys: Keyboard, deltaTime: real)
      modifies this
      ensures State() == Moved(old(State()), keys, deltaTime)
    {
      var speedMultiplier := if Held(keys, ScancodeLShift) || Held(keys, ScancodeRShift) then 2.0 else 1.0;
      var step := KeyboardStep(deltaTime, keyboardSpeed, speedMultiplier);
      if Held(keys, ScancodeA) || Held(keys, ScancodeLeft) {
        origin := Sub(origin, Scale(right, step));
      } else if Held(keys, ScancodeD) || Held(keys, ScancodeRight) {
        origin := Add(origin, Scale(right, step));
      }
      if Held(keys, ScancodeW) || Held(keys, ScancodeUp) {
        origin := Add(origin, Scale(forward, step));
      } else if Held(keys, ScancodeS) || Held(keys, ScancodeDown) {
        origin := Sub(origin, Scale(forward, step));
      }
    }

    method RotateCamera(deltaTime: real, mouse: MouseSnapshot, overlayCaptured: bool)
      modifies this
      ensures State() == Rotated(old(State()), math, mouse, overlayCaptured, deltaTime)
    {
      if overlayCaptured {
        return;
      }
      var mouseX := Quantise(mouse.dx);
      var mouseY := Quantise(mouse.dy);
      var leftMouseButtonDown := LeftDown(mouse);
      var rightMouseButtonDown := RightDown(mouse);

      if leftMouseButtonDown && rightMouseButtonDown {
        origin := Add(origin, Scale(up, PanStep(mouseY, deltaTime, mouseSpeed)));
      } else if leftMouseButtonDown {
        origin := Add(origin, Scale(forward, PanStep(mouseY, deltaTime, mouseSpeed)));
        totalYaw := totalYaw + AngleStep(mouseX, rotationSpeed, deltaTime);
      } else if rightMouseButtonDown {
        totalYaw := totalYaw + AngleStep(mouseX, rotationSpeed, deltaTime);
        totalPitch := totalPitch + AngleStep(mouseY * -1, rotationSpeed, deltaTime);
      }
      if mouseX != 0 || mouseY != 0 {
        forward := ForwardFromAngles(math, totalPitch, totalYaw);
      }
    }

    method CalculateViewMatrix()
      modifies this
      ensures State() == ViewCalculated(old(State()))
    {
      viewMatrix := LookAtLH(origin, forward, up, right);
      inverseViewMatrix := InverseOf(viewMatrix);
    }

    method CalculateProjectionMatrix()
      modifies this
      ensures State() == ProjectionCalculated(old(State()))
    {
      projectionMatrix := PerspectiveFovLH(fov, aspectRatio, nearPlane, farPlane);
    }
  }

  /** The scalar getters read the angle, the position and the aspect ratio; `GetFOV` recomputes from the angle. */
  lemma ScalarGettersReadState(c: Camera)
    ensures c.GetFOV() == CalculateFOV(c.math, c.State().fovAngle)
    ensures c.GetFOVAngle() == c.State().fovAngle
    ensures c.GetPosition() == c.State().origin
    ensures c.GetAspectRatio() == c.State().aspectRatio
  {
  }

  lemma MatrixGettersReadState(c: Camera)
    ensures c.GetWorldMatrix() == c.State().world
    ensures c.GetViewMatrix() == c.State().view
    ensures c.GetInverseViewMatrix() == c.State().inverseView
    ensures c.GetProjectionMatrix() == c.State().projection
  {
  }

  /** Two cameras with the same angle report the same `GetFOV`, whatever their caches hold. */
  lemma GetFOVIgnoresCache(c: Camera, d: Camera)
    requires c.math == d.math && c.fovAngle == d.fovAngle
    ensures c.GetFOV() == d.GetFOV()
  {
  }

  /**
   * The two-argument constructor followed by a projection rebuild: `GetFOV` reports
   * the tangent of the angle, but the projection is built from the cache, still 0.
   */
  method FromOriginProjection(math: Numerics, origin: Vec3, angle: real) returns (c: Camera)
    requires CalculateFOV(math, angle) != 0.0
    ensures c.GetFOV() == CalculateFOV(math, angle) && c.fov == 0.0 && c.GetFOV() != c.fov
    ensures c.GetProjectionMatrix() == PerspectiveFovLH(0.0, 0.0, 0.0, 0.0)
  {
    c := new Camera.FromOrigin(math, origin, angle);
    c.CalculateProjectionMatrix();
  }

  /** What the renderer hands the camera each frame. */
  datatype FrameInput = FrameInput(deltaTime: real, keys: Keyboard, mouse: MouseSnapshot, overlayCaptured: bool)

  /**
   * The renderer's use of the camera: default construction, `Initialize(45, {0, 0, -10})`,
   * then one `Update` per frame. Nothing sets the aspect ratio, so it stays 0 and every
   * projection is built with aspect 0; the cached tangent stays that of 45 degrees.
   */
  method RendererSession(math: Numerics, frames: seq<FrameInput>) returns (camera: Camera)
    ensures camera.math == math && FovConsistent(camera.State(), math)
    ensures camera.fovAngle == 45.0 && camera.nearPlane == 0.1 && camera.farPlane == 1000.0
    ensures camera.aspectRatio == 0.0
    ensures camera.right == UnitX && camera.up == UnitY
    ensures |frames| > 0 ==> camera.projectionMatrix == PerspectiveFovLH(CalculateFOV(math, 45.0), 0.0, 0.1, 1000.0)
  {
    camera := new Camera(math);
    camera.Initialize(45.0, Vec3(0.0, 0.0, -10.0));
    var i := 0;
    while i < |frames|
      invariant 0 <= i <= |frames|
      invariant camera.math == math && FovConsistent(camera.State(), math)
      invariant camera.fovAngle == 45.0 && camera.nearPlane == 0.1 && camera.farPlane == 1000.0
      invariant camera.aspectRatio == 0.0
      invariant camera.right == UnitX && camera.up == UnitY
      invariant i > 0 ==> camera.projectionMatrix == PerspectiveFovLH(CalculateFOV(math, 45.0), 0.0, 0.1, 1000.0)
    {
      var frame := frames[i];
      camera.Update(frame.deltaTime, frame.keys, frame.mouse, frame.overlayCaptured);
      i := i + 1;
    }
  }
}
