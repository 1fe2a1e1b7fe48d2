/**
 The two-component pipeline of the perspective-projection tutorial: an
 optional transformation and an optional perspective, world matrix first,
 then the projection multiplied on the left.

 That tutorial's pipeline calls `proj()`, but its perspective source defines
 only `projView()`, so the projection it uses is a parameter here.
 */
module PerspectivePipeline {
  import opened LinAlg
  import opened Glm
  import opened Maybe
  import Transform
  import Perspective
  import CameraPipeline

  datatype Pipeline = Pipeline(trans: Option<Transform.Trans>, persp: Option<Perspective.Persp>)

  /** `Pipeline(trans)`. */
  function FromTrans(trans: Option<Transform.Trans>): (p: Pipeline)
    ensures p.trans == trans && p.persp == None
  {
    Pipeline(trans, None)
  }

  /** `Pipeline(trans, persp)`. */
  function FromTransPersp(trans: Option<Transform.Trans>, persp: Option<Perspective.Persp>): (p: Pipeline)
    ensures p.trans == trans && p.persp == persp
  {
    Pipeline(trans, persp)
  }

  /** `trans->world()`, if there is a transformation. */
  function WorldPart(p: Pipeline, g: Lib): Option<Mat4> {
    if p.trans.Some? then Some(Transform.World(p.trans.value, g)) else None
  }

  /** `persp->proj()`, if there is a perspective. */
  function ProjPart(p: Pipeline, proj: Perspective.Persp -> Mat4): Option<Mat4> {
    if p.persp.Some? then Some(proj(p.persp.value)) else None
  }

  /** `mapping()`: start from the identity, then the world matrix, then the projection, each on the left. */
  function Mapping(p: Pipeline, g: Lib, proj: Perspective.Persp -> Mat4): Mat4 {
    CameraPipeline.Step(CameraPipeline.Step(Identity(), WorldPart(p, g)), ProjPart(p, proj))
  }

  /** Whatever is borrowed, the mapping is projection times world, never the other way round. */
  lemma MappingIsProjectionTimesWorld(p: Pipeline, g: Lib, proj: Perspective.Persp -> Mat4)
    ensures Mapping(p, g, proj)
         == Mul(CameraPipeline.OrIdentity(ProjPart(p, proj)), CameraPipeline.OrIdentity(WorldPart(p, g)))
  {
    var w, pr := WorldPart(p, g), ProjPart(p, proj);
    CameraPipeline.StepIsProduct(Identity(), w);
    MulIdentity(CameraPipeline.OrIdentity(w));
    CameraPipeline.StepIsProduct(CameraPipeline.OrIdentity(w), pr);
  }

  /** Nothing borrowed: the identity. */
  lemma EmptyMappingIsIdentity(g: Lib, proj: Perspective.Persp -> Mat4)
    ensures Mapping(FromTransPersp(None, None), g, proj) == Identity()
  {
  }

  /** Only a transformation: its world matrix. */
  lemma TransOnlyMapping(t: Transform.Trans, g: Lib, proj: Perspective.Persp -> Mat4)
    ensures Mapping(FromTrans(Some(t)), g, proj) == Transform.World(t, g)
  {
    var p := FromTrans(Some(t));
    assert p.trans.Some? && !p.persp.Some?;
    MulIdentity(Transform.World(t, g));
  }

  /** Both: the projection times the world matrix. */
  lemma FullMapping(t: Transform.Trans, q: Perspective.Persp, g: Lib, proj: Perspective.Persp -> Mat4)
    ensures Mapping(FromTransPersp(Some(t), Some(q)), g, proj) == Mul(proj(q), Transform.World(t, g))
  {
    var p := FromTransPersp(Some(t), Some(q));
    assert p.trans.Some? && p.persp.Some?;
    MulIdentity(Transform.World(t, g));
  }

  /** A point is placed in the world first and projected afterwards. */
  lemma FullMappingPlacesThenProjects(t: Transform.Trans, q: Perspective.Persp, g: Lib,
                                      proj: Perspective.Persp -> Mat4, v: Vec4)
    ensures Apply(Mapping(FromTransPersp(Some(t), Some(q)), g, proj), v)
         == Apply(proj(q), Apply(Transform.World(t, g), v))
  {
    FullMapping(t, q, g, proj);
    ApplyMul(proj(q), Transform.World(t, g), v);
  }

  /** When `proj()` is the projection with the fixed view built in, this pipeline maps
      exactly like the camera-control pipeline without a camera. */
  lemma AgreesWithCameraPipeline(p: Pipeline, g: Lib, proj: Perspective.Persp -> Mat4)
    requires p.persp.Some? ==> proj(p.persp.value) == Perspective.ProjView(p.persp.value, g)
    ensures Mapping(p, g, proj) == CameraPipeline.Mapping(CameraPipeline.Pipeline(p.trans, p.persp, None), g)
  {
    var cp := CameraPipeline.Pipeline(p.trans, p.persp, None);
    var w, pr := WorldPart(p, g), ProjPart(p, proj);
    assert !cp.cam.Some?;
    assert CameraPipeline.WorldPart(cp, g) == w;
    assert CameraPipeline.ViewPart(cp, g) == None;
    var afterWorld := CameraPipeline.Step(Identity(), w);
    assert CameraPipeline.Step(afterWorld, None) == afterWorld;
    if p.persp.Some? {
      assert CameraPipeline.ProjPart(cp, g) == pr;
    } else {
      assert !p.persp.Some? && CameraPipeline.ProjPart(cp, g) == None && pr == None;
    }
  }
}
