/**
 * The camera as a value: every field of `dae::Camera`, and one function per
 * operation giving the state after it. The class in camera.dfy is proved to
 * update its fields exactly as these functions say; the lemmas here state what
 * the operations promise.
 */
module CameraModel {
  import opened Vectors
  import opened Input

  /**
   * A 4x4 matrix, kept as the term that built it. The numerics of the
   * framework's `Matrix` are not modelled; two matrices are equal here when
   * they were built by the same construction from equal arguments.
   */
  datatype Matrix =
    | Default                                                          // `Matrix {}`
    | LookAtLH(origin: Vec3, forward: Vec3, up: Vec3, right: Vec3)     // `Matrix::CreateLookAtLH`
    | InverseOf(m: Matrix)                                             // `Matrix::Inverse`
    | PerspectiveFovLH(fov: real, aspect: real, near: real, far: real) // `Matrix::CreatePerspectiveFovLH`

  /**
   * The floating-point library the camera calls: `tanf`, the rotation of the
   * unit +Z vector by `Matrix::CreateRotation(pitch, yaw, roll)`, and the
   * degrees-to-radians factor `TO_RADIANS`.
   */
  datatype Numerics = Numerics(tan: real -> real, rotateUnitZ: (real, real, real) -> Vec3, toRadians: real)

  /** `tanf(x)` */
  function Tan(math: Numerics, x: real): real {
    math.tan(x)
  }

  /**
   * The world +Z axis rotated by accumulated pitch and yaw given in degrees:
   * `Matrix::CreateRotation(pitch * TO_RADIANS, yaw * TO_RADIANS, 0).TransformVector(Vector3::UnitZ)`.
   */
  function ForwardFromAngles(math: Numerics, pitch: real, yaw: real): Vec3 {
    math.rotateUnitZ(pitch * math.toRadians, yaw * math.toRadians, 0.0)
  }

  datatype CameraState = CameraState(
    world: Matrix, inverseView: Matrix, view: Matrix, projection: Matrix,
    origin: Vec3,
    fovAngle: real, fov: real, aspectRatio: real, nearPlane: real, farPlane: real,
    right: Vec3, up: Vec3, forward: Vec3,
    totalPitch: real, totalYaw: real,
    keyboardSpeed: real, mouseSpeed: real, rotationSpeed: real, scrollSpeed: real)

  /** The member initialisers of the class. */
  function DefaultState(): CameraState {
    CameraState(
      Default, Default, Default, Default,
      Zero,
      0.0, 0.0, 0.0, 0.0, 0.0,
      UnitX, UnitY, UnitZ,
      0.0, 0.0,
      50.0, 500.0, 500.0, 5.0)
  }

  // ---------------------------------------------------------------- field of view

  /** The tangent of half the field-of-view angle, the angle given in degrees. */
  function CalculateFOV(math: Numerics, angle: real): real {
    Tan(math, Radians(math, angle * 0.5))
  }

  /** `degrees * TO_RADIANS` */
  function Radians(math: Numerics, degrees: real): real {
    degrees * math.toRadians
  }

  /** `CalculateFOV(angle)` is the tangent of half the angle, the angle converted to radians. */
  lemma CalculateFOVIsTanOfHalfAngle(math: Numerics, angle: real)
    ensures CalculateFOV(math, angle) == Tan(math, Radians(math, angle / 2.0))
  {
    assert angle * 0.5 == angle / 2.0;
  }

  /** The cached tangent agrees with the angle. */
  predicate FovConsistent(s: CameraState, math: Numerics) {
    s.fov == CalculateFOV(math, s.fovAngle)
  }

  /** The default arguments of `Initialize`, shared by the method and the function that specifies it. */
  const DefaultFovAngle: real := 90.0
  const DefaultOrigin: Vec3 := Zero
  const DefaultNearPlane: real := 0.1
  const DefaultFarPlane: real := 1000.0

  function Initialized(s: CameraState, math: Numerics, angle: real := DefaultFovAngle, origin: Vec3 := DefaultOrigin,
                       nearPlane: real := DefaultNearPlane, farPlane: real := DefaultFarPlane): CameraState {
    s.(fovAngle := angle, fov := CalculateFOV(math, angle),
       origin := origin, nearPlane := nearPlane, farPlane := farPlane)
  }

  function FovIncreased(s: CameraState, math: Numerics): CameraState {
    s.(fovAngle := s.fovAngle + 1.0, fov := CalculateFOV(math, s.fovAngle + 1.0))
  }

  function FovDecreased(s: CameraState, math: Numerics): CameraState {
    s.(fovAngle := s.fovAngle - 1.0, fov := CalculateFOV(math, s.fovAngle - 1.0))
  }

  // ---------------------------------------------------------------- keyboard

  function SpeedMultiplier(k: Keyboard): (m: real)
    ensures m == 2.0 <==> Held(k, ScancodeLShift) || Held(k, ScancodeRShift)
    ensures m == 1.0 <==> !Held(k, ScancodeLShift) && !Held(k, ScancodeRShift)
  {
    if Held(k, ScancodeLShift) || Held(k, ScancodeRShift) then 2.0 else 1.0
  }

  predicate LeftHeld(k: Keyboard)     { Held(k, ScancodeA) || Held(k, ScancodeLeft) }
  predicate RightHeld(k: Keyboard)    { Held(k, ScancodeD) || Held(k, ScancodeRight) }
  predicate ForwardHeld(k: Keyboard)  { Held(k, ScancodeW) || Held(k, ScancodeUp) }
  predicate BackwardHeld(k: Keyboard) { Held(k, ScancodeS) || Held(k, ScancodeDown) }

  /** The length of one keyboard step: elapsed time times keyboard speed times the multiplier. */
  function KeyboardStep(deltaTime: real, keyboardSpeed: real, multiplier: real): real {
    deltaTime * keyboardSpeed * multiplier
  }

  /** Keyboard translation: the left/right test, then the forward/back test, each an if/else-if. */
  function Moved(s: CameraState, k: Keyboard, deltaTime: real): CameraState {
    var step := KeyboardStep(deltaTime, s.keyboardSpeed, SpeedMultiplier(k));
    var o1 :=
      if LeftHeld(k) then Sub(s.origin, Scale(s.right, step))
      else if RightHeld(k) then Add(s.origin, Scale(s.right, step))
      else s.origin;
    var o2 :=
      if ForwardHeld(k) then Add(o1, Scale(s.forward, step))
      else if BackwardHeld(k) then Sub(o1, Scale(s.forward, step))
      else o1;
    s.(origin := o2)
  }

  /** The direction chosen on the right axis: -1, 0 or +1, left winning a tie. */
  function StrafeSign(k: Keyboard): (d: real)
    ensures d == -1.0 <==> LeftHeld(k)
    ensures d == 1.0 <==> !LeftHeld(k) && RightHeld(k)
    ensures d == 0.0 <==> !LeftHeld(k) && !RightHeld(k)
  {
    if LeftHeld(k) then -1.0 else if RightHeld(k) then 1.0 else 0.0
  }

  /** The direction chosen on the forward axis: -1, 0 or +1, forward winning a tie. */
  function AdvanceSign(k: Keyboard): (d: real)
    ensures d == 1.0 <==> ForwardHeld(k)
    ensures d == -1.0 <==> !ForwardHeld(k) && BackwardHeld(k)
    ensures d == 0.0 <==> !ForwardHeld(k) && !BackwardHeld(k)
  {
    if ForwardHeld(k) then 1.0 else if BackwardHeld(k) then -1.0 else 0.0
  }

  /** The displacement of one keyboard step: each axis decided on its own. */
  function MoveDisplacement(s: CameraState, k: Keyboard, deltaTime: real): Vec3 {
    var step := KeyboardStep(deltaTime, s.keyboardSpeed, SpeedMultiplier(k));
    Add(Scale(s.right, StrafeSign(k) * step), Scale(s.forward, AdvanceSign(k) * step))
  }

  // ---------------------------------------------------------------- mouse

  /** The change of an accumulated angle: quantised delta times rotation speed times elapsed time. */
  function AngleStep(q: int, rotationSpeed: real, deltaTime: real): real {
    q as real * rotationSpeed * deltaTime
  }

  /** The length of one mouse pan or dolly: the negated quantised `dy` times elapsed time times mouse speed. */
  function PanStep(qy: int, deltaTime: real, mouseSpeed: real): real {
    (qy * -1) as real * deltaTime * mouseSpeed
  }

  /** The button table, checked in priority order, on quantised deltas. */
  function MouseStep(s: CameraState, qx: int, qy: int, left: bool, right: bool, deltaTime: real): CameraState {
    if left && right then
      s.(origin := Add(s.origin, Scale(s.up, PanStep(qy, deltaTime, s.mouseSpeed))))
    else if left then
      s.(origin := Add(s.origin, Scale(s.forward, PanStep(qy, deltaTime, s.mouseSpeed))),
         totalYaw := s.totalYaw + AngleStep(qx, s.rotationSpeed, deltaTime))
    else if right then
      s.(totalYaw := s.totalYaw + AngleStep(qx, s.rotationSpeed, deltaTime),
         totalPitch := s.totalPitch + AngleStep(qy * -1, s.rotationSpeed, deltaTime))
    else
      s
  }

  /** `forward` is rebuilt from the accumulated angles only when the quantised motion is nonzero. */
  function ForwardRecomputed(s: CameraState, math: Numerics, qx: int, qy: int): CameraState {
    if qx != 0 || qy != 0 then
      s.(forward := ForwardFromAngles(math, s.totalPitch, s.totalYaw))
    else
      s
  }

  /** Mouse rotation and panning; nothing happens while the overlay has the mouse. */
  function Rotated(s: CameraState, math: Numerics, m: MouseSnapshot, overlayCaptured: bool, deltaTime: real): CameraState {
    if overlayCaptured then s
    else
      var qx, qy := Quantise(m.dx), Quantise(m.dy);
      ForwardRecomputed(MouseStep(s, qx, qy, LeftDown(m), RightDown(m), deltaTime), math, qx, qy)
  }

  // ---------------------------------------------------------------- scroll wheel

  function Scrolled(s: CameraState, wheelY: int, overlayCaptured: bool): CameraState {
    if overlayCaptured then s
    else if wheelY > 0 then s.(origin := Add(s.origin, Scale(s.forward, s.scrollSpeed)))
    else if wheelY < 0 then s.(origin := Sub(s.origin, Scale(s.forward, s.scrollSpeed)))
    else s
  }

  // ---------------------------------------------------------------- matrices and the frame update

  function ViewCalculated(s: CameraState): CameraState {
    var view := LookAtLH(s.origin, s.forward, s.up, s.right);
    s.(view := view, inverseView := InverseOf(view))
  }

  /** The projection is built from the cached `fov`, not from `GetFOV`. */
  function ProjectionCalculated(s: CameraState): CameraState {
    s.(projection := PerspectiveFovLH(s.fov, s.aspectRatio, s.nearPlane, s.farPlane))
  }

  function Updated(s: CameraState, math: Numerics, deltaTime: real, k: Keyboard,
                   m: MouseSnapshot, overlayCaptured: bool): CameraState {
    ProjectionCalculated(ViewCalculated(Rotated(Moved(s, k, deltaTime), math, m, overlayCaptured, deltaTime)))
  }

  // ================================================================ properties

  /** The parts of the state no operation ever writes. */
  predicate FixedParts(s: CameraState, t: CameraState) {
    t.right == s.right && t.up == s.up && t.world == s.world &&
    t.keyboardSpeed == s.keyboardSpeed && t.mouseSpeed == s.mouseSpeed &&
    t.rotationSpeed == s.rotationSpeed && t.scrollSpeed == s.scrollSpeed
  }

  lemma NoOperationTouchesFixedParts(s: CameraState, math: Numerics, deltaTime: real, k: Keyboard,
                                     m: MouseSnapshot, overlayCaptured: bool, wheelY: int,
                                     angle: real, origin: Vec3, nearPlane: real, farPlane: real)
    ensures FixedParts(s, Initialized(s, math, angle, origin, nearPlane, farPlane))
    ensures FixedParts(s, FovIncreased(s, math)) && FixedParts(s, FovDecreased(s, math))
    ensures FixedParts(s, Scrolled(s, wheelY, overlayCaptured))
    ensures FixedParts(s, Moved(s, k, deltaTime))
    ensures FixedParts(s, Rotated(s, math, m, overlayCaptured, deltaTime))
    ensures FixedParts(s, Updated(s, math, deltaTime, k, m, overlayCaptured))
  {
  }

  lemma DefaultAxesAndSpeeds()
    ensures DefaultState().right == UnitX && DefaultState().up == UnitY && DefaultState().forward == UnitZ
    ensures DefaultState().totalPitch == 0.0 && DefaultState().totalYaw == 0.0
    ensures DefaultState().keyboardSpeed == 50.0 && DefaultState().mouseSpeed == 500.0
    ensures DefaultState().rotationSpeed == 500.0 && DefaultState().scrollSpeed == 5.0
  {
  }

  // ---- field of view

  /** Initialize leaves the cache consistent with the angle, and writes only its five fields. */
  lemma InitializeWritesFiveFields(s: CameraState, math: Numerics, angle: real, origin: Vec3,
                                   nearPlane: real, farPlane: real)
    ensures var t := Initialized(s, math, angle, origin, nearPlane, farPlane);
      FovConsistent(t, math) && t.fovAngle == angle && t.origin == origin &&
      t.nearPlane == nearPlane && t.farPlane == farPlane &&
      t.(fovAngle := s.fovAngle, fov := s.fov, origin := s.origin,
         nearPlane := s.nearPlane, farPlane := s.farPlane) == s
  {
  }

  /** The default arguments of Initialize: 90 degrees, at the world origin, clip planes 0.1 and 1000. */
  lemma InitializeDefaults(s: CameraState, math: Numerics)
    ensures DefaultFovAngle == 90.0 && DefaultOrigin == Vec3(0.0, 0.0, 0.0)
    ensures DefaultNearPlane == 0.1 && DefaultFarPlane == 1000.0
    ensures Initialized(s, math) == Initialized(s, math, 90.0, Vec3(0.0, 0.0, 0.0), 0.1, 1000.0)
  {
  }

  lemma FovStepsByOne(s: CameraState, math: Numerics)
    ensures FovIncreased(s, math).fovAngle == s.fovAngle + 1.0 && FovConsistent(FovIncreased(s, math), math)
    ensures FovDecreased(s, math).fovAngle == s.fovAngle - 1.0 && FovConsistent(FovDecreased(s, math), math)
    ensures FovIncreased(s, math).(fovAngle := s.fovAngle, fov := s.fov) == s
    ensures FovDecreased(s, math).(fovAngle := s.fovAngle, fov := s.fov) == s
  {
  }

  /** Increase then decrease gives back the angle, and the whole state when the cache was consistent. */
  lemma IncreaseThenDecrease(s: CameraState, math: Numerics)
    ensures FovDecreased(FovIncreased(s, math), math).fovAngle == s.fovAngle
    ensures FovConsistent(s, math) ==> FovDecreased(FovIncreased(s, math), math) == s
    ensures FovConsistent(s, math) ==> FovIncreased(FovDecreased(s, math), math) == s
  {
  }

  /** The camera built from an origin and an angle keeps the default cache 0. */
  lemma FromOriginCacheStale(math: Numerics, origin: Vec3, angle: real)
    requires CalculateFOV(math, angle) != 0.0
    ensures !FovConsistent(DefaultState().(origin := origin, fovAngle := angle), math)
  {
  }

  /** Every operation other than the FOV ones leaves the angle and its cache alone. */
  lemma OtherOperationsKeepFov(s: CameraState, math: Numerics, deltaTime: real, k: Keyboard,
                               m: MouseSnapshot, overlayCaptured: bool, wheelY: int)
    ensures var t := Updated(s, math, deltaTime, k, m, overlayCaptured);
      t.fovAngle == s.fovAngle && t.fov == s.fov
    ensures var t := Scrolled(s, wheelY, overlayCaptured);
      t.fovAngle == s.fovAngle && t.fov == s.fov
  {
  }

  // ---- keyboard

  /** Left (A or the left arrow) beats right: with it held, D and the right arrow are ignored. */
  lemma LeftBeatsRight(s: CameraState, k: Keyboard, deltaTime: real)
    requires LeftHeld(k)
    ensures Moved(s, k, deltaTime) == Moved(s, Release(Release(k, ScancodeD), ScancodeRight), deltaTime)
  {
  }

  /** Forward (W or the up arrow) beats back: with it held, S and the down arrow are ignored. */
  lemma ForwardBeatsBack(s: CameraState, k: Keyboard, deltaTime: real)
    requires ForwardHeld(k)
    ensures Moved(s, k, deltaTime) == Moved(s, Release(Release(k, ScancodeS), ScancodeDown), deltaTime)
  {
  }

  /** The two cascades are independent: the origin moves by one step on each axis, by sign. */
  lemma MoveIsDisplacement(s: CameraState, k: Keyboard, deltaTime: real)
    ensures Moved(s, k, deltaTime) == s.(origin := Add(s.origin, MoveDisplacement(s, k, deltaTime)))
  {
    var step := KeyboardStep(deltaTime, s.keyboardSpeed, SpeedMultiplier(k));
    var h := Scale(s.right, StrafeSign(k) * step);
    var f := Scale(s.forward, AdvanceSign(k) * step);
    var o1 :=
      if LeftHeld(k) then Sub(s.origin, Scale(s.right, step))
      else if RightHeld(k) then Add(s.origin, Scale(s.right, step))
      else s.origin;
    var o2 :=
      if ForwardHeld(k) then Add(o1, Scale(s.forward, step))
      else if BackwardHeld(k) then Sub(o1, Scale(s.forward, step))
      else o1;
    assert Moved(s, k, deltaTime) == s.(origin := o2);
    assert o1 == Add(s.origin, h) by {
      if LeftHeld(k) {
        SubIsAddNegated(s.origin, s.right, step);
      } else if RightHeld(k) {
        ScaleByOne(s.right, step);
      } else {
        AddZeroScale(s.origin, s.right, step);
      }
    }
    assert o2 == Add(o1, f) by {
      if ForwardHeld(k) {
        ScaleByOne(s.forward, step);
      } else if BackwardHeld(k) {
        SubIsAddNegated(o1, s.forward, step);
      } else {
        AddZeroScale(o1, s.forward, step);
      }
    }
    assert MoveDisplacement(s, k, deltaTime) == Add(h, f);
    AddAssoc(s.origin, h, f);
  }

  lemma StepDoubles(deltaTime: real, keyboardSpeed: real)
    ensures KeyboardStep(deltaTime, keyboardSpeed, 2.0) == KeyboardStep(deltaTime, keyboardSpeed, 1.0) * 2.0
  {
  }

  /** Holding either shift key exactly doubles the displacement. */
  lemma ShiftDoubles(s: CameraState, k: Keyboard, deltaTime: real)
    requires Held(k, ScancodeLShift) || Held(k, ScancodeRShift)
    ensures var plain := Release(Release(k, ScancodeLShift), ScancodeRShift);
      MoveDisplacement(s, k, deltaTime) == Scale(MoveDisplacement(s, plain, deltaTime), 2.0)
  {
    var plain := Release(Release(k, ScancodeLShift), ScancodeRShift);
    assert SpeedMultiplier(plain) == 1.0 && SpeedMultiplier(k) == 2.0;
    var d1, d2 := StrafeSign(k), AdvanceSign(k);
    assert StrafeSign(plain) == d1 && AdvanceSign(plain) == d2;
    var step, step2 := KeyboardStep(deltaTime, s.keyboardSpeed, 1.0), KeyboardStep(deltaTime, s.keyboardSpeed, 2.0);
    StepDoubles(deltaTime, s.keyboardSpeed);
    assert MoveDisplacement(s, k, deltaTime) == Add(Scale(s.right, d1 * step2), Scale(s.forward, d2 * step2));
    assert MoveDisplacement(s, plain, deltaTime) == Add(Scale(s.right, d1 * step), Scale(s.forward, d2 * step));
    PairDoubles(s.right, s.forward, d1, d2, step, step2);
  }

  /** No time or no movement key: the keyboard step leaves the camera as it was. */
  lemma MoveIdle(s: CameraState, k: Keyboard, deltaTime: real)
    requires deltaTime == 0.0 || (!LeftHeld(k) && !RightHeld(k) && !ForwardHeld(k) && !BackwardHeld(k))
    ensures Moved(s, k, deltaTime) == s
  {
  }

  // ---- mouse

  /** While the overlay has the mouse, the mouse step changes nothing. */
  lemma RotateIgnoredWhenCaptured(s: CameraState, math: Numerics, m: MouseSnapshot, deltaTime: real)
    ensures Rotated(s, math, m, true, deltaTime) == s
  {
  }

  /** The button table on the quantised deltas `qx`, `qy`, before `forward` is rebuilt. */
  lemma ButtonTable(s: CameraState, qx: int, qy: int, left: bool, right: bool, deltaTime: real)
    ensures var t := MouseStep(s, qx, qy, left, right, deltaTime);
      t.forward == s.forward && t.fovAngle == s.fovAngle &&
      (left && right ==>
        t == s.(origin := Add(s.origin, Scale(s.up, -(qy as real) * deltaTime * s.mouseSpeed)))) &&
      (left && !right ==>
        t == s.(origin := Add(s.origin, Scale(s.forward, -(qy as real) * deltaTime * s.mouseSpeed)),
                totalYaw := s.totalYaw + qx as real * s.rotationSpeed * deltaTime)) &&
      (!left && right ==>
        t == s.(totalYaw := s.totalYaw + qx as real * s.rotationSpeed * deltaTime,
                totalPitch := s.totalPitch - qy as real * s.rotationSpeed * deltaTime)) &&
      (!left && !right ==> t == s)
  {
  }

  /** `forward` changes only when some quantised delta is nonzero; `right` and `up` never do. */
  lemma ForwardOnlyOnMotion(s: CameraState, math: Numerics, m: MouseSnapshot, overlayCaptured: bool, deltaTime: real)
    ensures var t := Rotated(s, math, m, overlayCaptured, deltaTime);
      t.right == s.right && t.up == s.up &&
      (Quantise(m.dx) == 0 && Quantise(m.dy) == 0 ==> t.forward == s.forward) &&
      (!overlayCaptured && (Quantise(m.dx) != 0 || Quantise(m.dy) != 0) ==>
        t.forward == ForwardFromAngles(math, t.totalPitch, t.totalYaw))
  {
  }

  /** Motion within the threshold does nothing, whatever the buttons. */
  lemma SmallMotionIsIgnored(s: CameraState, math: Numerics, m: MouseSnapshot, overlayCaptured: bool, deltaTime: real)
    requires -Threshold <= m.dx <= Threshold && -Threshold <= m.dy <= Threshold
    ensures Rotated(s, math, m, overlayCaptured, deltaTime) == s
  {
  }

  /** A raw motion of (5, -3) is treated exactly as (2, -2): only the direction beyond the threshold counts. */
  lemma LargeMotionIsUnitStep(s: CameraState, math: Numerics, buttons: bv32, overlayCaptured: bool, deltaTime: real)
    ensures Rotated(s, math, MouseSnapshot(5, -3, buttons), overlayCaptured, deltaTime)
         == Rotated(s, math, MouseSnapshot(2, -2, buttons), overlayCaptured, deltaTime)
  {
  }

  /** Only the left and right bits of the button mask are read. */
  lemma OtherButtonsIgnored(s: CameraState, math: Numerics, m: MouseSnapshot, overlayCaptured: bool, deltaTime: real)
    ensures Rotated(s, math, m, overlayCaptured, deltaTime)
         == Rotated(s, math, m.(buttons := m.buttons & (ButtonLeftMask | ButtonRightMask)), overlayCaptured, deltaTime)
  {
  }

  /** `n` frames of the same right-button drag. */
  function RotatedRepeatedly(s: CameraState, math: Numerics, m: MouseSnapshot, deltaTime: real, n: nat): CameraState
    decreases n
  {
    if n == 0 then s else Rotated(RotatedRepeatedly(s, math, m, deltaTime, n - 1), math, m, false, deltaTime)
  }

  /** One frame of a right-button drag adds one step to yaw and pitch and leaves the origin. */
  lemma RightDragFrame(p: CameraState, math: Numerics, m: MouseSnapshot, deltaTime: real)
    requires !LeftDown(m) && RightDown(m)
    ensures var t := Rotated(p, math, m, false, deltaTime);
      t.rotationSpeed == p.rotationSpeed && t.origin == p.origin &&
      t.totalYaw == p.totalYaw + AngleStep(Quantise(m.dx), p.rotationSpeed, deltaTime) &&
      t.totalPitch == p.totalPitch + AngleStep(Quantise(m.dy) * -1, p.rotationSpeed, deltaTime)
  {
  }

  lemma CountUp(n: nat, x: real)
    requires 0 < n
    ensures (n as real) * x == ((n - 1) as real) * x + x
  {
  }

  /**
   * Yaw and pitch are plain accumulators: each frame of a right-button drag adds
   * the same amount, with no clamping or wrapping, so after `n` frames they have
   * moved by `n` steps.
   */
  lemma {:induction false} YawAndPitchAccumulate(s: CameraState, math: Numerics, m: MouseSnapshot, deltaTime: real, n: nat)
    requires !LeftDown(m) && RightDown(m)
    ensures var t := RotatedRepeatedly(s, math, m, deltaTime, n);
      t.rotationSpeed == s.rotationSpeed && t.origin == s.origin &&
      t.totalYaw == s.totalYaw + (n as real) * AngleStep(Quantise(m.dx), s.rotationSpeed, deltaTime) &&
      t.totalPitch == s.totalPitch + (n as real) * AngleStep(Quantise(m.dy) * -1, s.rotationSpeed, deltaTime)
    decreases n
  {
    if n > 0 {
      YawAndPitchAccumulate(s, math, m, deltaTime, n - 1);
      var p := RotatedRepeatedly(s, math, m, deltaTime, n - 1);
      assert RotatedRepeatedly(s, math, m, deltaTime, n) == Rotated(p, math, m, false, deltaTime);
      RightDragFrame(p, math, m, deltaTime);
      var yawStep := AngleStep(Quantise(m.dx), s.rotationSpeed, deltaTime);
      var pitchStep := AngleStep(Quantise(m.dy) * -1, s.rotationSpeed, deltaTime);
      CountUp(n, yawStep);
      CountUp(n, pitchStep);
    }
  }

  // ---- scroll wheel

  /** Scrolling moves one fixed step along `forward` by the sign of the wheel, never by its size. */
  lemma ScrollBySign(s: CameraState, wheelY: int)
    ensures Scrolled(s, wheelY, true) == s
    ensures wheelY > 0 ==> Scrolled(s, wheelY, false) == s.(origin := Add(s.origin, Scale(s.forward, s.scrollSpeed)))
    ensures wheelY < 0 ==> Scrolled(s, wheelY, false) == s.(origin := Sub(s.origin, Scale(s.forward, s.scrollSpeed)))
    ensures wheelY == 0 ==> Scrolled(s, wheelY, false) == s
  {
  }

  lemma ScrollIgnoresMagnitude(s: CameraState, a: int, b: int, overlayCaptured: bool)
    requires (a > 0 && b > 0) || (a < 0 && b < 0)
    ensures Scrolled(s, a, overlayCaptured) == Scrolled(s, b, overlayCaptured)
  {
  }

  // ---- the frame update

  /** The matrices are rebuilt from the pose after both input steps, the projection from the cache. */
  lemma UpdateRebuildsMatrices(s: CameraState, math: Numerics, deltaTime: real, k: Keyboard,
                               m: MouseSnapshot, overlayCaptured: bool)
    ensures var t := Updated(s, math, deltaTime, k, m, overlayCaptured);
      t.view == LookAtLH(t.origin, t.forward, t.up, t.right) &&
      t.inverseView == InverseOf(t.view) &&
      t.projection == PerspectiveFovLH(s.fov, s.aspectRatio, s.nearPlane, s.farPlane)
  {
  }

  /** Without elapsed time the position and the accumulated angles stay put. */
  lemma UpdateWithoutTime(s: CameraState, math: Numerics, k: Keyboard, m: MouseSnapshot, overlayCaptured: bool)
    ensures var t := Updated(s, math, 0.0, k, m, overlayCaptured);
      t.origin == s.origin && t.totalYaw == s.totalYaw && t.totalPitch == s.totalPitch
  {
    MoveIdle(s, k, 0.0);
  }

  /** Two matrix reads with no update between them see the same matrices. */
  lemma MatricesStableWithoutUpdate(s: CameraState, math: Numerics, a: real)
    ensures var t := s.(aspectRatio := a);
      t.view == s.view && t.inverseView == s.inverseView && t.projection == s.projection && t.world == s.world
    ensures FovIncreased(s, math).projection == s.projection && FovDecreased(s, math).projection == s.projection
  {
  }

  /**
   * One frame after the renderer's set-up with the default arguments and aspect
   * ratio 1: one second with only W held and no mouse motion moves the eye 50
   * units along +Z, and the view is rebuilt at the new position.
   */
  lemma FirstFrameForward(math: Numerics, k: Keyboard)
    requires Held(k, ScancodeW)
    requires forall c :: 0 <= c < ScancodeCount && c != ScancodeW ==> k[c] == 0
    ensures var t := Updated(Initialized(DefaultState(), math).(aspectRatio := 1.0), math, 1.0, k,
                             MouseSnapshot(0, 0, 0), false);
      t.origin == Vec3(0.0, 0.0, 50.0) &&
      t.view == LookAtLH(Vec3(0.0, 0.0, 50.0), UnitZ, UnitY, UnitX) &&
      t.projection == PerspectiveFovLH(CalculateFOV(math, 90.0), 1.0, 0.1, 1000.0)
  {
    assert !LeftHeld(k) && !RightHeld(k) && !Held(k, ScancodeLShift) && !Held(k, ScancodeRShift);
  }
}
