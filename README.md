# Free-fly camera and texel lookup of a DirectX 11 rasterizer, in Dafny

This project models two parts of a small DirectX 11 coursework rasterizer:

- **`dae::Camera`**, the free-fly camera. Each frame it takes the elapsed time, the SDL
  keyboard array, the relative mouse motion with its button mask, and ImGui's "the overlay
  wants the mouse" flag. It moves the eye, accumulates yaw and pitch, rebuilds the forward
  vector, and recomputes the view, inverse-view and projection matrices. The scroll wheel and
  two FOV hotkeys drive three more entry points.
- **`Texture::Sample`**, which clamps a UV pair to [0, 1], picks a texel by row-major index
  and scales its 8-bit channels to [0, 1].

Layout:

- `basics.dfy`: `Byte` and `Option`.
- `vectors.dfy`: `Vec3` over `real`, with `Add`, `Sub` and `Scale`.
- `input.dfy`: the input snapshot. The keyboard is SDL's 512-entry state array. The scancode
  constants are SDL's. The mouse buttons are the `SDL_BUTTON` bits 1 (left) and 4 (right).
  `Quantise` is the mouse-delta threshold.
- `camera_model.dfy`: the camera as a value (`CameraState`, one field per C++ member). It has
  one function per operation: `Initialized`, `FovIncreased`, `FovDecreased`, `Moved`,
  `Rotated`, `Scrolled`, `ViewCalculated`, `ProjectionCalculated` and `Updated`. The lemmas
  about them state the decision table.
- `camera.dfy`: `class Camera`, whose fields are the C++ fields. Every method updates them in
  place, has `modifies this`, and ensures `State()` equals the matching model function applied
  to `old(State())`. So no method changes anything beyond what that function says.
  `RendererSession` is the renderer's use of the camera.
- `texture.dfy`: `Texture::Sample`, both as written and with the edge clamped.

The floating-point library the camera calls is not visible here. That is `tanf`,
`Matrix::CreateRotation(...).TransformVector(UnitZ)` and `TO_RADIANS`. They come in as a
`Numerics` record of function values, which the camera holds as `const math`. Matrices are
kept as the term that built them (`LookAtLH`, `InverseOf`, `PerspectiveFovLH`, or `Default`
for `Matrix {}`). The properties are about which branch runs and which fields change, not
about matrix values.

The getters (`GetFOVAngle`, `GetPosition`, `GetAspectRatio` and the four matrix getters) are
Dafny functions that read one field each. Being functions, they cannot change the camera, and
two calls on an unchanged camera return the same value. `GetFOV` is a function of `fovAngle`
alone and never reads the cached `fov`.

Four behaviours of the code that are easy to misread, each modelled as the code has it:

- The projection matrix is built from the cached `m_FOV` (`source/Camera.cpp:169`), not from
  `GetFOV()`. The two can disagree after the two-argument constructor, which sets the angle
  but leaves `m_FOV` at 0 (`CameraModel.FromOriginCacheStale`).
- The raw mouse motion (5, -3) is treated like the raw motion (2, -2). Both quantise to
  (1, -1). The raw motion (1, -1) itself quantises to (0, 0) and does nothing
  (`CameraModel.SmallMotionIsIgnored`).
- In the build where the renderer drives the camera (`W2` and `TODO_0` set, in
  `source/Renderer.cpp:193-201` and `source/Renderer.cpp:267-275`), nothing calls
  `SetAspectRatio`, so the aspect ratio stays 0 in every projection
  (`CameraController.RendererSession`). `source/SceneSelector.h:9` selects `W3`, where the
  `Renderer.cpp` shown here calls neither `Initialize` nor `Update`. `source/Renderer.h` and
  `source/main.cpp` declare a different renderer whose source is not part of this model.
- `SetTotalPitch` and `SetTotalYaw` are defined both inline in `source/Camera.h:35-36` and again
  in `source/Camera.cpp:76-84`. Both definitions do the same thing, and the model has one of each.

## Model

| member | source | states |
|---|---|---|
| `Input.Quantise` | source/Camera.cpp:127-133 | a raw delta maps to 1 exactly when it exceeds the threshold 1, to -1 exactly when below -1, and to 0 exactly when within [-1, 1] |
| `Input.QuantiseIgnoresMagnitude` | source/Camera.cpp:132-133 | two deltas beyond the threshold on the same side quantise alike |
| `CameraModel.SpeedMultiplier` | source/Camera.cpp:99 | the multiplier is 2 exactly when either shift key is held, and 1 exactly when neither is |
| `CameraModel.StrafeSign` | source/Camera.cpp:101-108 | the right-axis direction is -1 exactly when A or Left is held, +1 exactly when D or Right is held and neither A nor Left is, and 0 otherwise |
| `CameraModel.AdvanceSign` | source/Camera.cpp:109-116 | the forward-axis direction is +1 exactly when W or Up is held, -1 exactly when S or Down is held and neither W nor Up is, and 0 otherwise |
| `CameraModel.DefaultAxesAndSpeeds` | source/Camera.h:66-75 | a fresh camera has right +X, up +Y, forward +Z, pitch and yaw 0, and speeds 50, 500, 500 and 5 |
| `CameraModel.NoOperationTouchesFixedParts` | source/Camera.cpp:14-158 | no operation writes right, up, the world matrix or any speed constant |
| `CameraModel.InitializeWritesFiveFields` | source/Camera.cpp:14-22 | Initialize sets angle, origin, near and far plane, sets the cache to the tangent of the new angle, and leaves every other field as it was |
| `CameraModel.InitializeDefaults` | source/Camera.h:21 | the default arguments, shared by the method and the function, are angle 90, origin (0,0,0), near 0.1 and far 1000, and calling Initialize without arguments means exactly those |
| `CameraModel.CalculateFOVIsTanOfHalfAngle` | source/Camera.cpp:86-90 | `CalculateFOV(angle)` is the tangent of half the angle, converted to radians |
| `CameraModel.FovStepsByOne` | source/Camera.cpp:64-74 | each FOV step changes the angle by exactly +1 or -1, leaves the cache consistent with it, and changes nothing else |
| `CameraModel.IncreaseThenDecrease` | source/Camera.cpp:64-95 | increase then decrease restores the angle; from a consistent cache it restores the whole camera, in either order |
| `CameraModel.FromOriginCacheStale` | source/Camera.cpp:8-12 | the two-argument constructor leaves the cache at 0, inconsistent with any angle whose tangent is nonzero |
| `CameraModel.OtherOperationsKeepFov` | source/Camera.cpp:24-62 | Update and Scroll change neither the angle nor the cache |
| `CameraModel.LeftBeatsRight` | source/Camera.cpp:101-108 | while A or Left is held, releasing D and Right changes nothing about the keyboard step |
| `CameraModel.ForwardBeatsBack` | source/Camera.cpp:109-116 | while W or Up is held, releasing S and Down changes nothing about the keyboard step |
| `CameraModel.MoveIsDisplacement` | source/Camera.cpp:97-117 | the keyboard step adds `dt * keyboardSpeed * mult` times the right-axis sign along right plus the same times the forward-axis sign along forward, the two axes decided independently; only the origin changes |
| `CameraModel.ShiftDoubles` | source/Camera.cpp:99-116 | with either shift key held the displacement is exactly twice that with both shift keys released |
| `CameraModel.MoveIdle` | source/Camera.cpp:97-117 | with zero elapsed time, or with no movement key held, the keyboard step changes nothing |
| `CameraModel.RotateIgnoredWhenCaptured` | source/Camera.cpp:119-125 | while the overlay has the mouse the mouse step changes nothing |
| `CameraModel.ButtonTable` | source/Camera.cpp:138-151 | both buttons move only the origin, by `-qy*dt*mouseSpeed` along up; left alone moves the origin along forward and adds `qx*rotationSpeed*dt` to yaw; right alone adds to yaw and pitch and leaves the origin; no button changes nothing |
| `CameraModel.ForwardOnlyOnMotion` | source/Camera.cpp:152-158 | forward is left alone when both quantised deltas are 0, and otherwise becomes +Z rotated by the new pitch and yaw; right and up never change |
| `CameraModel.SmallMotionIsIgnored` | source/Camera.cpp:127-158 | raw motion within [-1, 1] on both axes leaves the camera unchanged whatever the buttons |
| `CameraModel.LargeMotionIsUnitStep` | source/Camera.cpp:127-133 | the raw motion (5, -3) has exactly the effect of (2, -2) |
| `CameraModel.OtherButtonsIgnored` | source/Camera.cpp:135-136 | only the left and right bits of the button mask matter |
| `CameraModel.RightDragFrame` | source/Camera.cpp:147-151 | one frame with only the right button held adds `qx*rotationSpeed*dt` to yaw and `-qy*rotationSpeed*dt` to pitch, and leaves the origin |
| `CameraModel.YawAndPitchAccumulate` | source/Camera.cpp:147-150 | after n frames of the same right-button drag, yaw and pitch have moved by exactly n steps, with no clamping or wrapping, and the origin is unchanged |
| `CameraModel.ScrollBySign` | source/Camera.cpp:46-62 | a captured wheel does nothing; otherwise wheel > 0 adds `forward*scrollSpeed`, wheel < 0 subtracts it, and wheel 0 does nothing |
| `CameraModel.ScrollIgnoresMagnitude` | source/Camera.cpp:54-61 | two wheel deltas of the same sign scroll alike |
| `CameraModel.UpdateRebuildsMatrices` | source/Camera.cpp:24-39 | after Update the view is the look-at of the new origin, forward, up and right, the inverse view is its inverse, and the projection uses the cached fov, aspect, near and far |
| `CameraModel.UpdateWithoutTime` | source/Camera.cpp:24-39 | with zero elapsed time Update leaves origin, yaw and pitch unchanged |
| `CameraModel.MatricesStableWithoutUpdate` | source/Camera.h:39-42 | setting the aspect ratio or stepping the FOV leaves every stored matrix as it was, so matrix reads between updates agree |
| `CameraModel.FirstFrameForward` | source/Camera.cpp:97-117 | after default Initialize and aspect 1, one second with only W held and no mouse motion puts the eye at (0, 0, 50), rebuilds the view there, and builds the projection from tan of 45 degrees |
| `CameraController.Camera.constructor` | source/Camera.h:54-75 | a default camera has every member initialiser: axes +X, +Y, +Z, zero angles and the four speed constants |
| `CameraController.Camera.FromOrigin` | source/Camera.cpp:8-12 | the two-argument constructor sets origin and angle and nothing else |
| `CameraController.Camera.Initialize` | source/Camera.cpp:14-22 | the new state is the initialized one, with the cache consistent with the angle |
| `CameraController.Camera.Update` | source/Camera.cpp:24-39 | the new state is the keyboard step, then the mouse step, then the view and the projection matrices |
| `CameraController.Camera.SetAspectRatio` | source/Camera.h:34 | writes the aspect ratio and nothing else; `GetAspectRatio` then returns it, and the four matrix getters return what they returned before |
| `CameraController.Camera.SetTotalPitch` | source/Camera.h:35 | writes the pitch, unclamped, and nothing else |
| `CameraController.Camera.SetTotalYaw` | source/Camera.h:36 | writes the yaw, unclamped, and nothing else |
| `CameraController.Camera.Scroll` | source/Camera.cpp:46-62 | the new state is the scrolled one |
| `CameraController.Camera.IncreaseFOV` | source/Camera.cpp:64-68 | the new state has the angle one higher and its cache recomputed; `GetFOVAngle` is one higher, `GetFOV` agrees with the cache, and `GetProjectionMatrix` is unchanged until the next update |
| `CameraController.Camera.DecreaseFOV` | source/Camera.cpp:70-74 | the new state has the angle one lower and its cache recomputed; `GetFOVAngle` is one lower, `GetFOV` agrees with the cache, and `GetProjectionMatrix` is unchanged until the next update |
| `CameraController.Camera.RefreshFOV` | source/Camera.cpp:92-95 | the cache becomes the tangent of the current angle, nothing else changes |
| `CameraController.Camera.MoveCamera` | source/Camera.cpp:97-117 | the new state is the keyboard step of the old one |
| `CameraController.Camera.RotateCamera` | source/Camera.cpp:119-159 | the new state is the mouse step of the old one |
| `CameraController.Camera.CalculateViewMatrix` | source/Camera.cpp:161-165 | writes the look-at matrix and its inverse from the current pose, nothing else |
| `CameraController.Camera.CalculateProjectionMatrix` | source/Camera.cpp:167-170 | writes the perspective matrix from the cached fov, aspect and planes, nothing else |
| `CameraController.ScalarGettersReadState` | source/Camera.h:30-33 | `GetFOV` is the tangent of the current angle, computed afresh; `GetFOVAngle`, `GetPosition` and `GetAspectRatio` return the angle, the origin and the aspect ratio |
| `CameraController.MatrixGettersReadState` | source/Camera.h:39-42 | the four matrix getters return the stored world, view, inverse-view and projection matrices |
| `CameraController.GetFOVIgnoresCache` | source/Camera.cpp:41-44 | two cameras with the same angle report the same `GetFOV`, whatever their cached `m_FOV` holds |
| `CameraController.FromOriginProjection` | source/Camera.cpp:167-170 | after the two-argument constructor and a projection rebuild, `GetFOV` is the nonzero tangent of the angle, but the cache is 0 and the projection is built from that 0 |
| `CameraController.RendererSession` | source/Renderer.cpp:193-274 | after construction, `Initialize(45, {0, 0, -10})` and any frames, the cache matches 45 degrees, the planes are 0.1 and 1000, the aspect ratio is still 0, right and up are fixed, and after a frame the projection uses aspect 0 |
| `TextureSampling.Clamp01` | source/Texture.cpp:112-114 | the clamped value lies in [0, 1] and equals the input on [0, 1] |
| `TextureSampling.Truncate` | source/Texture.cpp:119 | the integer cast of a non-negative value is its floor; of a negative value, at most 0 and at least the value |
| `TextureSampling.CellBounds` | source/Texture.cpp:117-119 | the cell of a clamped coordinate on n texels lies in [0, n], is below n for coordinates below 1, and is n at 1 |
| `TextureSampling.TexelIndex` | source/Texture.cpp:116-119 | for non-negative width and height the index is at least 0 and at most `w*h + w` |
| `TextureSampling.ColumnRowBounds` | source/Texture.cpp:113-119 | column in [0, w] and row in [0, h], strictly below for a clamped coordinate below 1, equal to w or h at 1 |
| `TextureSampling.IndexIsRowMajor` | source/Texture.cpp:117-119 | the index is `floor(clamp(v)*h) * w + floor(clamp(u)*w)` |
| `TextureSampling.OutOfRangeSamplesEdge` | source/Texture.cpp:112-114 | clamping first changes nothing; a coordinate below 0 picks the texel of 0, above 1 the texel of 1 |
| `TextureSampling.InteriorIndexInBounds` | source/Texture.cpp:117-119 | for u, v below 1 and a non-empty surface, column < w, row < h and index < `w*h` |
| `TextureSampling.EdgeIndexOverruns` | source/Texture.cpp:117-122 | at u >= 1 the column is w; at v >= 1 the index is at least `w*h`; at u, v >= 1 it is exactly `w*h + w` |
| `TextureSampling.Channel` | source/Texture.cpp:124-127 | a byte divided by 255 lies in [0, 1], and times 255 gives the byte back |
| `TextureSampling.ToColor` | source/Texture.cpp:124-127 | every channel of the colour lies in [0, 1] |
| `TextureSampling.SampleAsWritten` | source/Texture.cpp:110-128 | the sample is an out-of-bounds read exactly when the index is at least `w*h`; otherwise it is the colour of the pixel at the index, in [0, 1] |
| `TextureSampling.SampleAtCornerOverruns` | source/Texture.cpp:117-122 | at UV (1, 1) the sample of any non-empty surface reads past the pixel array |
| `TextureSampling.EdgeClampedIndex` | source/Texture.cpp:117-119 | the corrected index lies in [0, `w*h`) for every UV and agrees with the source's index for u, v below 1; at clamped u = 1 it is the last column of the row, at clamped v = 1 the last row at the column, and at both the last pixel `w*h - 1` |
| `TextureSampling.Sample` | source/Texture.cpp:110-128 | the corrected sample exists exactly for a non-empty surface, lies in [0, 1], is the colour of the pixel at the edge-clamped index, agrees with the source's sample for u, v below 1, and at clamped UV (1, 1) is the colour of the last pixel |

## Findings

| source | as written | input that shows it | evidently intended | confidence | as-written member | corrected member |
|---|---|---|---|---|---|---|
| source/Texture.cpp:117-122 | the index `int(clamp(v)*h) * w + int(clamp(u)*w)` has no upper guard, but clamping lets u and v reach 1 | a 2x2 surface with UV (1, 1) gives index 6 into 4 pixels; UV (1, 0) gives index 2, the first texel of the next row | column and row held to w - 1 and h - 1 (clamp to edge) | high; not executed | `TextureSampling.SampleAtCornerOverruns` | `TextureSampling.Sample` |

## Left out

- Floating point: all arithmetic is on `real`. Float rounding, NaN and infinities are not
  modelled. `++m_FOVAngle` is exact here. In `float` it is exact only when angle + 1 is
  representable, which holds for every integer angle below 2^24 and for values such as 45.5,
  but not for 0.1. Otherwise the angle need not come back after an increase and a decrease,
  so `IncreaseThenDecrease` does not carry over to `float`.
- `tanf`, `Matrix::CreateRotation`, `TransformVector`, `CreateLookAtLH`,
  `CreatePerspectiveFovLH`, `Matrix::Inverse` and `TO_RADIANS` live in `Math.h`, which is not
  part of this model. They are parameters (`Numerics`) or symbolic matrix terms. So the model
  does not prove that yaw 90 gives forward +X, nor that `GetFOV` grows with the angle.
- Input polling: `SDL_GetKeyboardState`, `SDL_GetRelativeMouseState`,
  `ImGui::GetIO().WantCaptureMouse` and the timer become arguments of `Update` and `Scroll`.
  `SDL_GetRGB` and the surface's pixel format become a function argument of `Sample`.
- `Texture` loading, the D3D11 texture and view creation, and `FreeSurface`
  (`source/Texture.cpp:11-103`) are resource plumbing. They are left out.
- `Texture::Sample` assumes a live surface. The constructor `Texture(pSurface, devicePtr)` calls
  `FreeSurface()` once the GPU texture is created (`source/Texture.cpp:63`), and that sets
  `m_SurfacePtr` to null, so `Sample` on such a texture dereferences null at
  `source/Texture.cpp:117`. The `Surface` argument of `Sample` always stands for a surface
  that is still allocated, and the null dereference is not modelled.
- `Texture::Sample` assumes a 32-bit surface with no row padding, so the pitch is `4*w`. The
  cast of `pixels` to `uint32_t*` makes the same assumption.
- The renderer, meshes, effects, the main loop and the scene-selection macros are left out,
  except for the camera calls in `RendererSession`. That method assumes the `W2`/`TODO_0`
  blocks that call the camera are compiled in, and it leaves out scroll events from the event
  loop.
- `GetWorldMatrix` returns the `Default` matrix. Nothing ever writes `m_WorldMatrix`, and
  `NoOperationTouchesFixedParts` records that.
