# Transform, perspective, camera and pipeline library of MyOpenGLLearning

The later OpenGL tutorials of this repository share a small library:

- a transformation (`Trans`) that places an object;
- a perspective (`Persp`) that projects it;
- a camera (`Cam`) that views it, plus a key-driven control (`Ctrl`) that moves the camera;
- a rendering pipeline (`Pipeline`) that multiplies these into one matrix.

This project models that library in Dafny as immutable records and pure functions, and proves what each piece promises.

Vectors and 4x4 matrices are real-valued. Matrices are stored column by column, as glm stores them, and their product is defined exactly (`LinAlg`). The glm calls whose formulas are not part of this model are the fields of a `Glm.Lib` record, and every result holds for every choice of them:

- `perspective`
- `lookAt`
- the axis-angle rotation matrix
- `radians`
- the reciprocal length inside `normalize`

`rotate`, `scale` and `translate` of an existing matrix are concrete: the matrix times the elementary one, as glm defines them.

Every C++ setter updates a field and returns the old value. It becomes a function returning the pair (old value, updated record).

A borrowed pointer is modelled in one of two ways:

- A control's subject is a `CamRef`, the identity of the camera it points to. The key handler takes the subject's current state and returns its new state.
- A pipeline holds, for each borrowed object, `Option` of its state at the time `mapping()` reads it. `None` stands for `nullptr`.

| module | file | models |
|---|---|---|
| `LinAlg` | linalg.dfy | glm `vec3`/`vec4`/`mat4` arithmetic, cross product, translation and scaling matrices |
| `Glm` | glm.dfy | `glm::rotate/scale/translate/normalize` and the abstract glm functions |
| `Keys` | keys.dfy | the GLUT arrow-key codes (`GLUT_KEY_LEFT` 100, `UP` 101, `RIGHT` 102, `DOWN` 103) |
| `Maybe` | maybe.dfy | optional values (null pointers) |
| `Transform` | trans.dfy | p14-camera-control/trans.cpp |
| `Perspective` | persp.dfy | p12-perspective-projection/persp.cpp and p13-camera-space/persp.cpp |
| `BasicCamera` | basic_cam.dfy | p13-camera-space/cam.cpp |
| `ControlledCamera` | controlled_cam.dfy | p14-camera-control/cam.cpp (camera with built-in key control) |
| `CamLib` | camlib.dfy | p14-camera-control/src/cam.cpp and src/cam/ctrl.cpp (camera with a separate control) |
| `CameraPipeline` | pipeline.dfy | p14-camera-control/src/pipeline.cpp |
| `PerspectivePipeline` | perspective_pipeline.dfy | p12-perspective-projection/pipeline.cpp |

## Model

| member | source | states |
|---|---|---|
| LinAlg.MulIdentity | p14-camera-control/trans.cpp:53-54 | `glm::mat4(1.0f)` is neutral on both sides of a product |
| LinAlg.ApplyMul | p14-camera-control/trans.cpp:65-67 | a product applied to a point applies its factors right to left, so the rightmost factor acts first |
| LinAlg.MulAssoc | p14-camera-control/trans.cpp:67 | `posMat * rotMat * scaleMat` means the same however it is bracketed |
| LinAlg.TranslationMovesPoint | p14-camera-control/trans.cpp:64 | the translation matrix moves every point by exactly its offset |
| Glm.Rotate | p14-camera-control/trans.cpp:60-62 | `glm::rotate(m, angle, axis)`: `m` times the elementary rotation; characterized by `Glm.RotateIdentity` and `Glm.RotateByIdentity` |
| Glm.ScaleBy | p14-camera-control/trans.cpp:53 | `glm::scale(m, s)`: `m` times the scaling matrix; `Transform.UnitScalingIsIdentity` and `Transform.WorldScalesThenRotatesThenTranslates` use it |
| Glm.TranslateBy | p14-camera-control/trans.cpp:64 | `glm::translate(m, d)`: `m` times the translation matrix; with `LinAlg.TranslationMovesPoint` it moves each point by `d` |
| Glm.Normalize | p14-camera-control/src/cam/ctrl.cpp:83-103 | `glm::normalize(v)`: `v` scaled by a factor depending only on its length; characterized by `Glm.NormalizeNeg` |
| Glm.RotateIdentity | p14-camera-control/trans.cpp:54-60 | rotating the identity gives the elementary rotation |
| Glm.RotateByIdentity | p14-camera-control/trans.cpp:60-62 | a rotation that is the identity leaves the matrix unchanged |
| Glm.NormalizeNeg | p14-camera-control/src/cam/ctrl.cpp:94-106 | normalizing commutes with negation |
| Glm.StrafeDirectionsOpposite | p14-camera-control/src/cam/ctrl.cpp:94-106 | `normalize(aim x up)` is exactly the negation of `normalize(up x aim)` |
| Transform.Default | p14-camera-control/trans.cpp:9-13 | a new transformation has scale (1,1,1), no rotation and position 0 |
| Transform.SetScale | p14-camera-control/trans.cpp:19-25 | returns the previous scale, stores the new one, leaves rotation and position alone |
| Transform.SetRot | p14-camera-control/trans.cpp:31-37 | returns the previous rotation, stores the new one, leaves scale and position alone |
| Transform.SetPos | p14-camera-control/trans.cpp:43-49 | returns the previous position, stores the new one, leaves scale and rotation alone |
| Transform.SettersRestore | p14-camera-control/trans.cpp:19-49 | handing back the returned old value restores the transformation exactly |
| Transform.Rotation | p14-camera-control/trans.cpp:54-63 | the rotation matrix of `world()`; characterized by `Transform.RotationIsProduct` |
| Transform.World | p14-camera-control/trans.cpp:51-69 | `world()`; characterized by `Transform.WorldIsTranslateRotateScale` and `Transform.WorldScalesThenRotatesThenTranslates` |
| Transform.RotationIsProduct | p14-camera-control/trans.cpp:54-63 | the rotation matrix is Rx * Ry * Rz, built X first, with each angle converted to radians |
| Transform.WorldIsTranslateRotateScale | p14-camera-control/trans.cpp:51-69 | `world()` = translate(pos) * (Rx Ry Rz) * scale(scale) from the current fields |
| Transform.WorldScalesThenRotatesThenTranslates | p14-camera-control/trans.cpp:65-67 | a point is scaled first, then rotated, then moved to the position |
| Transform.UnitScalingIsIdentity | p14-camera-control/trans.cpp:53 | scaling by (1,1,1) is the identity |
| Transform.ZeroRotationIsIdentity | p14-camera-control/trans.cpp:54-63 | zero angles give the identity rotation, when glm's zero rotations are the identity |
| Transform.WorldWithoutRotationIsTranslation | p14-camera-control/trans.cpp:51-69 | with zero rotation and unit scale, `world()` is the pure translation to the position |
| Transform.WorldWithoutRotationMapsOriginToPos | p14-camera-control/trans.cpp:51-69 | ... and so maps the object's origin onto its position |
| Transform.DefaultWorldIsIdentity | p14-camera-control/trans.cpp:9-13 | a new transformation's world matrix is the identity |
| Transform.QuarterTurnTakesXToMinusZ | p14-camera-control/trans.cpp:56-61 | the 90 degree turn about +Y sends +X to -Z |
| Transform.QuarterTurnedRotation | p14-camera-control/trans.cpp:54-63 | an object turned 90 degrees about Y alone has exactly that turn as its rotation matrix |
| Transform.QuarterTurnScenario | p14-camera-control/trans.cpp:51-69 | such an object five units along +Z sends its local (1,0,0) to (0,0,4) |
| Perspective.AspectOf | p12-perspective-projection/persp.cpp:13 | the aspect ratio times the height is the width |
| Perspective.Make | p12-perspective-projection/persp.cpp:12-17 | the constructor sets aspect to width / height and stores near, far and fov unchanged |
| Perspective.SetAspect | p12-perspective-projection/persp.cpp:23-27 | returns the old aspect, recomputes it from the new size, leaves the rest alone |
| Perspective.SetNear | p12-perspective-projection/persp.cpp:33-37 | returns the old near plane, stores the new one, leaves the rest alone |
| Perspective.SetFar | p12-perspective-projection/persp.cpp:43-47 | returns the old far plane, stores the new one, leaves the rest alone |
| Perspective.SetFov | p12-perspective-projection/persp.cpp:53-57 | returns the old field of view, stores the new one, leaves the rest alone |
| Perspective.SettersRestore | p13-camera-space/persp.cpp:18-63 | handing back the returned old value restores the perspective exactly |
| Perspective.SetAspectIsIdempotent | p12-perspective-projection/persp.cpp:12-27 | resizing twice to one size is resizing once; resizing to the construction size changes nothing |
| Perspective.ProjMat | p13-camera-space/persp.cpp:9-16 | `projMat()`; characterized by `Perspective.SettersReachProjection` |
| Perspective.FixedView | p12-perspective-projection/persp.cpp:65-71 | the view from the origin towards +Z with +Y up; `CameraPipeline.NewCameraViewIsFixedView` shows a new camera has this view |
| Perspective.ProjView | p12-perspective-projection/persp.cpp:59-76 | `projView()` (p13's `proj()`, p13-camera-space/persp.cpp:65-80); characterized by `Perspective.ProjViewViewsThenProjects` |
| Perspective.ProjViewViewsThenProjects | p12-perspective-projection/persp.cpp:59-76 | `projView()` first views from the origin along +Z with +Y up, then applies `perspective(radians(fov), aspect, near, far)` |
| Perspective.SettersReachProjection | p12-perspective-projection/persp.cpp:33-76 | nothing is cached: after `near(v)`, `far(v)` or `fov(v)` the raw and fixed-view projections are built from `v` and the other three fields as they were |
| Perspective.ResizeReachesProjection | p12-perspective-projection/persp.cpp:23-27 | after `aspect(width, height)` both projections use width / height |
| Perspective.Of | p13-camera-space/persp.cpp:82-85 | `of(trans)`; characterized by `Perspective.OfUsesFixedView` |
| Perspective.OfCam | p13-camera-space/persp.cpp:87-90 | `of(cam, trans)`; characterized by `Perspective.OfCamUsesRawProjection` |
| Perspective.OfUsesFixedView | p13-camera-space/persp.cpp:65-85 | `of(trans)` is `projMat() * fixed view * world()`: the fixed-view projection |
| Perspective.OfCamUsesRawProjection | p13-camera-space/persp.cpp:87-90 | when `viewOf(trans)` is a view times a world matrix, `of(cam, trans)` is `perspective(radians(fov), aspect, near, far)` times that view times that world matrix: the raw `projMat()`, not `proj()` |
| BasicCamera.Default | p13-camera-space/cam.cpp:9-13 | a new camera is at the origin, aims along +Z, +Y up |
| BasicCamera.SetPos | p13-camera-space/cam.cpp:19-25 | returns the old position, stores the new one, leaves aim and up alone |
| BasicCamera.SetAim | p13-camera-space/cam.cpp:31-37 | returns the old aim, stores the new one, leaves position and up alone |
| BasicCamera.SetUp | p13-camera-space/cam.cpp:43-49 | returns the old up direction, stores the new one, leaves position and aim alone |
| BasicCamera.SettersRestore | p13-camera-space/cam.cpp:19-49 | handing back the returned old value restores the camera exactly |
| BasicCamera.View | p13-camera-space/cam.cpp:51-58 | `view()`; characterized by `BasicCamera.ViewFollowsPosition` |
| BasicCamera.ViewFollowsPosition | p13-camera-space/cam.cpp:51-58 | the view looks at position + aim, so moving the camera by d moves its target by d |
| ControlledCamera.Default | p14-camera-control/cam.cpp:13-20 | a new camera is at the origin, aims along +Z, +Y up, step 1, not controlled |
| ControlledCamera.SetPos | p14-camera-control/cam.cpp:26-32 | returns the old position and changes only the position |
| ControlledCamera.SetAim | p14-camera-control/cam.cpp:38-44 | returns the old aim and changes only the aim |
| ControlledCamera.SetUp | p14-camera-control/cam.cpp:50-56 | returns the old up direction and changes only the up direction |
| ControlledCamera.SettersRestore | p14-camera-control/cam.cpp:26-56 | handing back the returned old value restores the camera exactly |
| ControlledCamera.View | p14-camera-control/cam.cpp:58-65 | `view()`; characterized by `ControlledCamera.ViewFollowsPosition` |
| ControlledCamera.ViewFollowsPosition | p14-camera-control/cam.cpp:58-65 | moving the camera by d moves the point it looks at by d |
| ControlledCamera.OnKeyUp | p14-camera-control/cam.cpp:101-104 | the position moves by step * normalize(aim); nothing else changes |
| ControlledCamera.OnKeyDown | p14-camera-control/cam.cpp:106-109 | the position moves back by step * normalize(aim); nothing else changes |
| ControlledCamera.OnKeyLeft | p14-camera-control/cam.cpp:111-115 | the position moves by step * normalize(up x aim); nothing else changes |
| ControlledCamera.OnKeyRight | p14-camera-control/cam.cpp:117-121 | the position moves by step * normalize(aim x up); nothing else changes |
| ControlledCamera.OnKey | p14-camera-control/cam.cpp:67-98 | handled exactly when controlled and the key is an arrow; an unhandled key changes nothing; each arrow runs its own move |
| ControlledCamera.UpDownAreInverse | p14-camera-control/cam.cpp:101-109 | up then down, and down then up, restore the camera exactly |
| ControlledCamera.LeftRightAreInverse | p14-camera-control/cam.cpp:111-121 | left then right, and right then left, restore the camera exactly |
| ControlledCamera.ArrowKeysRoundTrip | p14-camera-control/cam.cpp:67-121 | through `onKey`, UP then DOWN and LEFT then RIGHT are both handled and restore the camera |
| CamLib.NewCtrl | p14-camera-control/src/cam/ctrl.cpp:11-15 | a new control is disabled, has no subject and step 1 |
| CamLib.SetEnabled | p14-camera-control/src/cam/ctrl.cpp:21-25 | returns the old switch, stores the new one, leaves subject and step alone |
| CamLib.SetSubject | p14-camera-control/src/cam/ctrl.cpp:31-35 | returns the old subject, stores the new one, leaves switch and step alone |
| CamLib.SetMoveStep | p14-camera-control/src/cam/ctrl.cpp:41-45 | returns the old step, stores the new one, leaves switch and subject alone |
| CamLib.CtrlSettersRestore | p14-camera-control/src/cam/ctrl.cpp:21-45 | handing back the returned old value restores the control exactly |
| CamLib.MoveOn | p14-camera-control/src/cam/ctrl.cpp:82-86 | the subject moves by moveStep * normalize(aim); its aim, up and control are unchanged |
| CamLib.MoveBack | p14-camera-control/src/cam/ctrl.cpp:88-92 | the subject moves back by moveStep * normalize(aim); nothing else changes |
| CamLib.MoveLeft | p14-camera-control/src/cam/ctrl.cpp:94-99 | the subject moves by moveStep * normalize(up x aim); nothing else changes |
| CamLib.MoveRight | p14-camera-control/src/cam/ctrl.cpp:101-106 | the subject moves by moveStep * normalize(aim x up); nothing else changes |
| CamLib.OnKey | p14-camera-control/src/cam/ctrl.cpp:47-78 | handled exactly when enabled, bound and the key is an arrow; otherwise the subject is untouched; each arrow runs its own move |
| CamLib.MoveOnBackAreInverse | p14-camera-control/src/cam/ctrl.cpp:82-92 | forwards then backwards, in either order, restores the subject exactly |
| CamLib.MoveLeftRightAreInverse | p14-camera-control/src/cam/ctrl.cpp:94-106 | left then right, in either order, restores the subject exactly |
| CamLib.ArrowKeysRoundTrip | p14-camera-control/src/cam/ctrl.cpp:47-106 | through `onKey` of an enabled, bound control, UP then DOWN and LEFT then RIGHT restore the subject |
| CamLib.NewCam | p14-camera-control/src/cam.cpp:12-17 | a new camera is at the origin, aims along +Z, +Y up and has no control |
| CamLib.SetPosXYZ | p14-camera-control/src/cam.cpp:30-36 | returns the old position, stores (x, y, z), leaves aim, up and control alone |
| CamLib.SetPos | p14-camera-control/src/cam.cpp:38-42 | returns the old position, stores the new one, leaves aim, up and control alone |
| CamLib.SetAimXYZ | p14-camera-control/src/cam.cpp:48-54 | returns the old aim, stores (x, y, z), leaves position, up and control alone |
| CamLib.SetAim | p14-camera-control/src/cam.cpp:56-60 | returns the old aim, stores the new one, leaves position, up and control alone |
| CamLib.SetUpXYZ | p14-camera-control/src/cam.cpp:66-72 | returns the old up direction, stores (x, y, z), leaves the rest alone |
| CamLib.SetUp | p14-camera-control/src/cam.cpp:74-78 | returns the old up direction, stores the new one, leaves the rest alone |
| CamLib.CamSettersAgreeAndRestore | p14-camera-control/src/cam.cpp:30-78 | the component and vector forms of each setter agree, and handing back the old value restores the camera |
| CamLib.GetCtrl | p14-camera-control/src/cam.cpp:80-86 | an existing control is returned as it is; otherwise a new disabled, step-1 control bound to this camera is created and kept; nothing else changes |
| CamLib.GetCtrlIsIdempotent | p14-camera-control/src/cam.cpp:80-86 | asking for the control again returns the same control and changes nothing |
| CamLib.EnableThroughCtrl | p14-camera-control/src/cam.cpp:80-86 | `cam.ctrl().enabled(on)`: returns the owned control's old switch and stores the new one in the control the camera owns (creating it first if needed); subject, step and the camera's vectors are unchanged |
| CamLib.SubjectThroughCtrl | p14-camera-control/src/cam.cpp:80-86 | `cam.ctrl().subject(s)`: returns the owned control's old subject and rebinds the owned control; nothing else changes |
| CamLib.MoveStepThroughCtrl | p14-camera-control/src/cam.cpp:80-86 | `cam.ctrl().moveStep(step)`: returns the owned control's old step and stores the new one in the owned control; nothing else changes |
| CamLib.WritesThroughCtrlAreKept | p14-camera-control/src/cam.cpp:80-86 | a write through the reference is what the next `ctrl()` returns, and writing back the returned old value restores the control |
| CamLib.View | p14-camera-control/src/cam.cpp:88-95 | `view()`; characterized by `CamLib.ViewFollowsPosition` |
| CamLib.ViewFollowsPosition | p14-camera-control/src/cam.cpp:88-95 | moving the camera by d moves the point it looks at by d; the control plays no part in the view |
| CamLib.OwnControlRoundTrip | p14-camera-control/src/cam.cpp:80-86 | the camera's own enabled control moves the camera, keeps itself in place, and UP then DOWN restores the camera |
| CamLib.EnableFreshControlThenRoundTrip | p14-camera-control/src/cam.cpp:80-86 | `cam.ctrl().enabled(true)` on a new camera gives an enabled control bound to that camera, whose UP then DOWN keys move the camera and bring it back |
| CameraPipeline.FromTrans | p14-camera-control/src/pipeline.cpp:12-14 | stores the transformation; perspective and camera stay null |
| CameraPipeline.FromTransPersp | p14-camera-control/src/pipeline.cpp:16-19 | stores transformation and perspective; the camera stays null |
| CameraPipeline.FromAll | p14-camera-control/src/pipeline.cpp:21-25 | stores exactly the three pointers given |
| CameraPipeline.Mapping | p14-camera-control/src/pipeline.cpp:27-45 | `mapping()`; characterized by `CameraPipeline.MappingIsStageProduct` and the per-case lemmas below |
| CameraPipeline.StepIsProduct | p14-camera-control/src/pipeline.cpp:30-42 | skipping an absent component is multiplying by the identity |
| CameraPipeline.MappingIsStageProduct | p14-camera-control/src/pipeline.cpp:27-45 | the mapping is always projection * view * world, absent parts counting as identity |
| CameraPipeline.EmptyMappingIsIdentity | p14-camera-control/src/pipeline.cpp:28-44 | with nothing borrowed the mapping is the identity |
| CameraPipeline.TransOnlyMapping | p14-camera-control/src/pipeline.cpp:27-32 | with only a transformation the mapping is its `world()` |
| CameraPipeline.NoCameraMapping | p14-camera-control/src/pipeline.cpp:30-38 | without a camera the mapping is `projView() * world()` |
| CameraPipeline.FullMapping | p14-camera-control/src/pipeline.cpp:30-41 | with all three it is `proj() * view() * world()`; the fixed view is not used |
| CameraPipeline.FullMappingPlacesViewsProjects | p14-camera-control/src/pipeline.cpp:30-41 | a point is placed in the world, then viewed by the camera, then projected |
| CameraPipeline.CameraNoPerspectiveMapping | p14-camera-control/src/pipeline.cpp:33-35 | a camera without a perspective gives `view() * world()` |
| CameraPipeline.QuarterTurnedObjectThroughPipeline | p14-camera-control/src/pipeline.cpp:27-45 | the quarter-turned object's local (1,0,0), through a new camera and a perspective, is placed at (0,0,4), viewed from the origin along +Z, then projected |
| CameraPipeline.NewCameraViewIsFixedView | p14-camera-control/src/cam.cpp:12-17 | a new camera's `view()` is the fixed view from the origin along +Z with +Y up |
| CameraPipeline.NewCameraMatchesNoCamera | p14-camera-control/src/pipeline.cpp:33-41 | a new camera's view is the fixed view, so a pipeline with a new camera maps exactly like one without a camera |
| PerspectivePipeline.Mapping | p12-perspective-projection/pipeline.cpp:18-29 | `mapping()`; characterized by `PerspectivePipeline.MappingIsProjectionTimesWorld` and the per-case lemmas below |
| PerspectivePipeline.FromTrans | p12-perspective-projection/pipeline.cpp:9-11 | stores the transformation; the perspective stays null |
| PerspectivePipeline.FromTransPersp | p12-perspective-projection/pipeline.cpp:13-16 | stores both pointers given |
| PerspectivePipeline.MappingIsProjectionTimesWorld | p12-perspective-projection/pipeline.cpp:18-29 | the mapping is always projection * world, never the reverse |
| PerspectivePipeline.EmptyMappingIsIdentity | p12-perspective-projection/pipeline.cpp:19-28 | with nothing borrowed the mapping is the identity |
| PerspectivePipeline.TransOnlyMapping | p12-perspective-projection/pipeline.cpp:18-23 | with only a transformation the mapping is its `world()` |
| PerspectivePipeline.FullMapping | p12-perspective-projection/pipeline.cpp:21-26 | with both it is `proj() * world()` |
| PerspectivePipeline.FullMappingPlacesThenProjects | p12-perspective-projection/pipeline.cpp:21-26 | a point is placed in the world first and projected afterwards |
| PerspectivePipeline.AgreesWithCameraPipeline | p12-perspective-projection/pipeline.cpp:18-29 | when `proj()` is the fixed-view projection, this pipeline maps like the camera-control pipeline without a camera |

## Left out

- glm internals: the formulas of `perspective`, `lookAt`, the axis-angle rotation, `radians` and the length inside `normalize` are not modelled. They are fields of `Glm.Lib`, and every result holds for all of them. Results about zero or quarter-turn rotations state what they assume of glm as a `requires`.
- Floating point: all arithmetic is over the reals. The C++ code computes in `float`, so the exact round trips (up then down, left then right, setter restore of computed values) hold there only up to rounding.
- Degenerate inputs are not special-cased, as in the source: a zero aim, a zero cross product, or near >= far.
- Perspective.AspectOf, Perspective.Make, Perspective.SetAspect: require height != 0. The C++ `(float)width / (float)height` then yields an infinity or NaN, and IEEE infinities are not modelled.
- `Cam::viewOf(trans)` (p13-camera-space/cam.hpp:48) has no body in these sources. `Perspective.OfCam` takes it as a parameter, and `Perspective.OfCamUsesRawProjection` holds for any `viewOf` whose result is a view times a world matrix.
- p12-perspective-projection/pipeline.cpp:25 calls `proj()`, but p12-perspective-projection/persp.cpp defines only `projView()`. `PerspectivePipeline.Mapping` therefore takes the projection as a parameter. `PerspectivePipeline.AgreesWithCameraPipeline` relates the two when that projection is `projView()`, which is what the header comment at p12-perspective-projection/persp.hpp:51-57 describes.
- p14-camera-control/persp.cpp is not part of this model. `proj()` is taken to be the raw projection (`projMat()` of p13-camera-space/persp.cpp:9-16) and `projView()` to be p12's fixed-view projection, following the comments at p14-camera-control/persp.hpp:47-56.
- CamLib.GetCtrl: `ctrl()` returns a reference to the owned control. The model returns its value, and each write through the reference is its own function (`CamLib.EnableThroughCtrl`, `CamLib.SubjectThroughCtrl`, `CamLib.MoveStepThroughCtrl`) that stores the changed control back in the camera. `onKey` through the reference is covered when the control's subject is the camera itself (`CamLib.OwnControlRoundTrip`). A control whose subject is some other camera moves that other camera, which `CamLib.OnKey` models separately.
- The sources contain no trans.cpp for the perspective-projection or camera-space tutorials. Their `Trans::world()`, used by `Perspective.Of` and `PerspectivePipeline.Mapping`, is taken to be the one in p14-camera-control/trans.cpp. p12-perspective-projection/trans.hpp also declares a `persp(Persp)` member with no body in these sources, and it is not modelled.
- The camera destructor (p14-camera-control/src/cam.cpp:19-24) only frees the owned control. The control is an owned `Option` value here, so it has nothing to model.
- Getters (`pos()`, `aim()`, `fov()`, ...) are field reads of the records. `view()`, `world()`, `mapping()`, `projView()` and `proj()` are pure functions, so they cannot change any borrowed object or pointer.
- p13-camera-space/persp.cpp:18-63 repeats the constructor and accessors of p12-perspective-projection/persp.cpp:12-57 line for line. Both are the one `Perspective` record.
- The control's subject is a camera identity (`CamLib.CamRef`), not a pointer. Aliasing between a control and some other camera is not modelled beyond that identity: `CamLib.OnKey` is handed the subject's current state.
- GLUT, GLEW, shaders, window and render-loop code are I/O and are not modelled. Only the GLUT arrow-key codes are kept, in `Keys`.
