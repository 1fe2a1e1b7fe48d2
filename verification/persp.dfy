/**
 The perspective of the perspective-projection and camera-space tutorials:
 aspect ratio, near and far planes and field of view in degrees. It yields
 the raw projection matrix, and the projection already composed with the
 fixed view that looks from the origin along +Z with +Y up, for scenes that
 have no camera of their own.
 */
module Perspective {
  import opened LinAlg
  import opened Glm
  import Transform
  import BasicCamera

  datatype Persp = Persp(aspect: real, near: real, far: real, fov: real)

  /** `(float)width / (float)height`. */
  function AspectOf(width: int, height: int): (a: real)
    requires height != 0
    ensures a * (height as real) == width as real
  {
    (width as real) / (height as real)
  }

  /** `Persp(width, height, near, far, fov)`. */
  function Make(width: int, height: int, near: real, far: real, fov: real): (p: Persp)
    requires height != 0
    ensures p.aspect * (height as real) == width as real
    ensures p.near == near && p.far == far && p.fov == fov
  {
    Persp(AspectOf(width, height), near, far, fov)
  }

  /** `aspect(width, height)`: the old aspect ratio and the perspective with the one of the new size. */
  function SetAspect(p: Persp, width: int, height: int): (r: (real, Persp))
    requires height != 0
    ensures r.0 == p.aspect
    ensures r.1.aspect * (height as real) == width as real
    ensures r.1.near == p.near && r.1.far == p.far && r.1.fov == p.fov
  {
    (p.aspect, p.(aspect := AspectOf(width, height)))
  }

  /** `near(near)`: the old near plane and the perspective with the new one. */
  function SetNear(p: Persp, near: real): (r: (real, Persp))
    ensures r.0 == p.near
    ensures r.1.near == near
    ensures r.1.aspect == p.aspect && r.1.far == p.far && r.1.fov == p.fov
  {
    (p.near, p.(near := near))
  }

  /** `far(far)`: the old far plane and the perspective with the new one. */
  function SetFar(p: Persp, far: real): (r: (real, Persp))
    ensures r.0 == p.far
    ensures r.1.far == far
    ensures r.1.aspect == p.aspect && r.1.near == p.near && r.1.fov == p.fov
  {
    (p.far, p.(far := far))
  }

  /** `fov(fov)`: the old field of view and the perspective with the new one. */
  function SetFov(p: Persp, fov: real): (r: (real, Persp))
    ensures r.0 == p.fov
    ensures r.1.fov == fov
    ensures r.1.aspect == p.aspect && r.1.near == p.near && r.1.far == p.far
  {
    (p.fov, p.(fov := fov))
  }

  /** Handing the value a setter returned back to the same setter undoes the change. */
  lemma SettersRestore(p: Persp, v: real)
    ensures var (prev, p') := SetNear(p, v); SetNear(p', prev).1 == p
    ensures var (prev, p') := SetFar(p, v); SetFar(p', prev).1 == p
    ensures var (prev, p') := SetFov(p, v); SetFov(p', prev).1 == p
  {
  }

  /** Resizing twice to the same size is resizing once, and resizing to the size a
      perspective was made for changes nothing. */
  lemma SetAspectIsIdempotent(p: Persp, width: int, height: int)
    requires height != 0
    ensures SetAspect(SetAspect(p, width, height).1, width, height).1 == SetAspect(p, width, height).1
    ensures SetAspect(Make(width, height, p.near, p.far, p.fov), width, height).1
         == Make(width, height, p.near, p.far, p.fov)
  {
  }

  /** The raw projection, `glm::perspective(glm::radians(fov), aspect, near, far)`:
      `projMat()` of the camera-space tutorial, `proj()` of the camera-control one. */
  function ProjMat(p: Persp, g: Lib): Mat4 {
    g.perspective(g.radians(p.fov), p.aspect, p.near, p.far)
  }

  /** The view every camera-less scene uses: from the origin towards +Z, with +Y up. */
  function FixedView(g: Lib): Mat4 {
    g.lookAt(Origin, ZAxis, YAxis)
  }

  /** The projection with the fixed view built in: `projView()` of the
      perspective-projection and camera-control tutorials, `proj()` of the
      camera-space one. */
  function ProjView(p: Persp, g: Lib): Mat4 {
    Mul(ProjMat(p, g), FixedView(g))
  }

  /** Every point is first seen through the fixed view and then projected. */
  lemma ProjViewViewsThenProjects(p: Persp, g: Lib, v: Vec4)
    ensures Apply(ProjView(p, g), v) == Apply(ProjMat(p, g), Apply(g.lookAt(Origin, ZAxis, YAxis), v))
  {
    ApplyMul(ProjMat(p, g), FixedView(g), v);
  }

  /** Nothing is cached: the next projection is built from the value each setter
      stored, with the other three fields as they were. */
  lemma SettersReachProjection(p: Persp, g: Lib, v: real)
    ensures ProjMat(SetNear(p, v).1, g) == g.perspective(g.radians(p.fov), p.aspect, v, p.far)
    ensures ProjMat(SetFar(p, v).1, g) == g.perspective(g.radians(p.fov), p.aspect, p.near, v)
    ensures ProjMat(SetFov(p, v).1, g) == g.perspective(g.radians(v), p.aspect, p.near, p.far)
    ensures ProjView(SetNear(p, v).1, g) == Mul(g.perspective(g.radians(p.fov), p.aspect, v, p.far), FixedView(g))
    ensures ProjView(SetFar(p, v).1, g) == Mul(g.perspective(g.radians(p.fov), p.aspect, p.near, v), FixedView(g))
    ensures ProjView(SetFov(p, v).1, g) == Mul(g.perspective(g.radians(v), p.aspect, p.near, p.far), FixedView(g))
  {
  }

  /** ... and after a resize the projection uses the new width / height. */
  lemma ResizeReachesProjection(p: Persp, g: Lib, width: int, height: int)
    requires height != 0
    ensures ProjMat(SetAspect(p, width, height).1, g)
         == g.perspective(g.radians(p.fov), (width as real) / (height as real), p.near, p.far)
    ensures ProjView(SetAspect(p, width, height).1, g)
         == Mul(g.perspective(g.radians(p.fov), (width as real) / (height as real), p.near, p.far), FixedView(g))
  {
  }

  /** `of(trans)`: the object seen by the camera-less scene. */
  function Of(p: Persp, t: Transform.Trans, g: Lib): Mat4 {
    Mul(ProjView(p, g), Transform.World(t, g))
  }

  /** `of(trans)` places the object, views it from the fixed view, then projects:
      `proj() * world()` regrouped as projection, view, world. */
  lemma OfUsesFixedView(p: Persp, t: Transform.Trans, g: Lib)
    ensures Of(p, t, g) == Mul(ProjMat(p, g), Mul(FixedView(g), Transform.World(t, g)))
  {
    MulAssoc(ProjMat(p, g), FixedView(g), Transform.World(t, g));
  }

  /** `of(cam, trans)`: the raw projection times `cam.viewOf(trans)`, whose body
      is not part of this model and is therefore a parameter. */
  function OfCam(p: Persp, c: BasicCamera.Cam, t: Transform.Trans, g: Lib,
                 viewOf: (BasicCamera.Cam, Transform.Trans) -> Mat4): Mat4 {
    Mul(ProjMat(p, g), viewOf(c, t))
  }

  /** When `viewOf` is a camera view `v` times a world matrix `w` (the camera's view
      times the object's world matrix, say), `of(cam, trans)` is projection, `v` and `w`
      in that order, with the raw projection and not the fixed view. */
  lemma OfCamUsesRawProjection(p: Persp, c: BasicCamera.Cam, t: Transform.Trans, g: Lib,
                               viewOf: (BasicCamera.Cam, Transform.Trans) -> Mat4, v: Mat4, w: Mat4)
    requires viewOf(c, t) == Mul(v, w)
    ensures OfCam(p, c, t, g, viewOf) == Mul(Mul(g.perspective(g.radians(p.fov), p.aspect, p.near, p.far), v), w)
  {
    MulAssoc(ProjMat(p, g), v, w);
  }
}
