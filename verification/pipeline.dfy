/**
 The rendering pipeline of the camera-control tutorial. It borrows an
 optional transformation, perspective and camera, and composes them into
 one matrix: world first, then the camera's view, then the projection, each
 multiplied on the left. Without a camera the projection brings its own
 fixed view; with a camera it is the raw projection.

 A borrowed object is modelled by its state at the moment `mapping()` reads
 it, `None` standing for a null pointer.
 */
module CameraPipeline {
  import opened LinAlg
  import opened Glm
  import opened Maybe
  import Transform
  import Perspective
  import CamLib

  datatype Pipeline = Pipeline(trans: Option<Transform.Trans>,
                               persp: Option<Perspective.Persp>,
                               cam: Option<CamLib.Cam>)

  /** `Pipeline(trans)`. */
  function FromTrans(trans: Option<Transform.Trans>): (p: Pipeline)
    ensures p.trans == trans && p.persp == None && p.cam == None
  {
    Pipeline(trans, None, None)
  }

  /** `Pipeline(trans, persp)`. */
  function FromTransPersp(trans: Option<Transform.Trans>, persp: Option<Perspective.Persp>): (p: Pipeline)
    ensures p.trans == trans && p.persp == persp && p.cam == None
  {
    Pipeline(trans, persp, None)
  }

  /** `Pipeline(trans, persp, cam)`. */
  function FromAll(trans: Option<Transform.Trans>, persp: Option<Perspective.Persp>,
                   cam: Option<CamLib.Cam>): (p: Pipeline)
    ensures p.trans == trans && p.persp == persp && p.cam == cam
  {
    Pipeline(trans, persp, cam)
  }

  /** One step of `mapping()`: `result = m * result` when the component is there. */
  function Step(result: Mat4, m: Option<Mat4>): Mat4 {
    if m.Some? then Mul(m.value, result) else result
  }

  /** `trans->world()`, if there is a transformation. */
  function WorldPart(p: Pipeline, g: Lib): Option<Mat4> {
    if p.trans.Some? then Some(Transform.World(p.trans.value, g)) else None
  }

  /** `cam->view()`, if there is a camera. */
  function ViewPart(p: Pipeline, g: Lib): Option<Mat4> {
    if p.cam.Some? then Some(CamLib.View(p.cam.value, g)) else None
  }

  /** `persp->projView()` without a camera, `persp->proj()` with one, if there is a perspective. */
  function ProjPart(p: Pipeline, g: Lib): Option<Mat4> {
    if p.persp.None? then None
    else if p.cam.None? then Some(Perspective.ProjView(p.persp.value, g))
    else Some(Perspective.ProjMat(p.persp.value, g))
  }

  /** `mapping()`: start from the identity, then world, view and projection, each on the left. */
  function Mapping(p: Pipeline, g: Lib): Mat4 {
    Step(Step(Step(Identity(), WorldPart(p, g)), ViewPart(p, g)), ProjPart(p, g))
  }

  /** An absent component counts as the identity. */
  function OrIdentity(m: Option<Mat4>): Mat4 {
    if m.Some? then m.value else Identity()
  }

  /** Skipping an absent component is the same as multiplying by the identity. */
  lemma StepIsProduct(result: Mat4, m: Option<Mat4>)
    ensures Step(result, m) == Mul(OrIdentity(m), result)
  {
    MulIdentity(result);
  }

  /** Whatever is borrowed, the mapping is projection times view times world, in that order. */
  lemma MappingIsStageProduct(p: Pipeline, g: Lib)
    ensures Mapping(p, g)
         == Mul(OrIdentity(ProjPart(p, g)), Mul(OrIdentity(ViewPart(p, g)), OrIdentity(WorldPart(p, g))))
  {
    var w, v, pr := WorldPart(p, g), ViewPart(p, g), ProjPart(p, g);
    StepIsProduct(Identity(), w);
    MulIdentity(OrIdentity(w));
    StepIsProduct(OrIdentity(w), v);
    StepIsProduct(Mul(OrIdentity(v), OrIdentity(w)), pr);
  }

  /** Nothing borrowed: the identity. */
  lemma EmptyMappingIsIdentity(g: Lib)
    ensures Mapping(Pipeline(None, None, None), g) == Identity()
  {
  }

  /** Only a transformation: its world matrix. */
  lemma TransOnlyMapping(t: Transform.Trans, g: Lib)
    ensures Mapping(FromTrans(Some(t)), g) == Transform.World(t, g)
  {
    var p := FromTrans(Some(t));
    assert p.trans.Some? && !p.persp.Some? && !p.cam.Some?;
    MulIdentity(Transform.World(t, g));
  }

  /** Transformation and perspective, no camera: the fixed-view projection times the world matrix. */
  lemma NoCameraMapping(t: Transform.Trans, q: Perspective.Persp, g: Lib)
    ensures Mapping(FromTransPersp(Some(t), Some(q)), g)
         == Mul(Perspective.ProjView(q, g), Transform.World(t, g))
  {
    var p := FromTransPersp(Some(t), Some(q));
    assert p.trans.Some? && p.persp.Some? && !p.cam.Some?;
    MulIdentity(Transform.World(t, g));
  }

  /** All three: raw projection times view times world; the fixed view is never
      used when a camera is present. */
  lemma FullMapping(t: Transform.Trans, q: Perspective.Persp, c: CamLib.Cam, g: Lib)
    ensures Mapping(FromAll(Some(t), Some(q), Some(c)), g)
         == Mul(Mul(Perspective.ProjMat(q, g), CamLib.View(c, g)), Transform.World(t, g))
  {
    var p := FromAll(Some(t), Some(q), Some(c));
    assert p.trans.Some? && p.persp.Some? && !p.cam.None?;
    var w, v, pr := Transform.World(t, g), CamLib.View(c, g), Perspective.ProjMat(q, g);
    MulIdentity(w);
    MulAssoc(pr, v, w);
  }

  /** With all three, a point is placed in the world, then seen by the camera, then projected. */
  lemma FullMappingPlacesViewsProjects(t: Transform.Trans, q: Perspective.Persp, c: CamLib.Cam, g: Lib, v: Vec4)
    ensures Apply(Mapping(FromAll(Some(t), Some(q), Some(c)), g), v)
         == Apply(Perspective.ProjMat(q, g), Apply(CamLib.View(c, g), Apply(Transform.World(t, g), v)))
  {
    var w, vw, pr := Transform.World(t, g), CamLib.View(c, g), Perspective.ProjMat(q, g);
    FullMapping(t, q, c, g);
    ApplyMul(Mul(pr, vw), w, v);
    ApplyMul(pr, vw, Apply(w, v));
  }

  /** A camera without a perspective: view times world. */
  lemma CameraNoPerspectiveMapping(t: Transform.Trans, c: CamLib.Cam, g: Lib)
    ensures Mapping(FromAll(Some(t), None, Some(c)), g) == Mul(CamLib.View(c, g), Transform.World(t, g))
  {
    var p := FromAll(Some(t), None, Some(c));
    assert p.trans.Some? && !p.persp.Some? && p.cam.Some?;
    MulIdentity(Transform.World(t, g));
  }

  /** The turned object seen through a new camera: its local point (1, 0, 0) is placed
      at (0, 0, 4), viewed from the origin along +Z, and then projected. */
  lemma QuarterTurnedObjectThroughPipeline(q: Perspective.Persp, g: Lib)
    requires Transform.ZeroAnglesAreIdentity(g)
    requires g.rotation(g.radians(90.0), YAxis) == Transform.QuarterTurnY()
    ensures Apply(Mapping(FromAll(Some(Transform.QuarterTurnedObject()), Some(q), Some(CamLib.NewCam())), g),
                  Point(XAxis))
         == Apply(Perspective.ProjMat(q, g),
                  Apply(g.lookAt(Origin, ZAxis, YAxis), Point(Vec3(0.0, 0.0, 4.0))))
  {
    var c := CamLib.NewCam();
    assert Add(c.pos, c.aim) == ZAxis;
    FullMappingPlacesViewsProjects(Transform.QuarterTurnedObject(), q, c, g, Point(XAxis));
    Transform.QuarterTurnScenario(g);
  }

  /** A new camera looks from the origin along +Z with +Y up: its view is the fixed view. */
  lemma NewCameraViewIsFixedView(g: Lib)
    ensures CamLib.View(CamLib.NewCam(), g) == Perspective.FixedView(g)
  {
    var c := CamLib.NewCam();
    assert Add(c.pos, c.aim) == ZAxis;
  }

  /** So adding a new camera to a pipeline changes nothing: the camera-less branch
      and the camera branch agree. */
  lemma NewCameraMatchesNoCamera(t: Transform.Trans, q: Perspective.Persp, g: Lib)
    ensures Mapping(FromAll(Some(t), Some(q), Some(CamLib.NewCam())), g)
         == Mapping(FromTransPersp(Some(t), Some(q)), g)
  {
    NewCameraViewIsFixedView(g);
    FullMapping(t, q, CamLib.NewCam(), g);
    NoCameraMapping(t, q, g);
  }
}
