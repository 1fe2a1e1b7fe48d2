/**
 The glm library functions the transform, perspective and camera code calls.
 Their formulas need trigonometry and square roots, so the ones that do are
 fields of a `Lib` record, and every result of this model holds for every
 choice of them. `rotate`, `scale` and `translate` on an existing matrix are
 defined the way glm defines them: the given matrix times the elementary one.
 */
module Glm {
  import opened LinAlg

  /** The library calls whose formulas are not part of this model. */
  datatype Lib = Lib(
    /** `glm::perspective(fovyRadians, aspect, near, far)`. */
    perspective: (real, real, real, real) -> Mat4,
    /** `glm::lookAt(eye, center, up)`. */
    lookAt: (Vec3, Vec3, Vec3) -> Mat4,
    /** The elementary rotation of `glm::rotate`: angle in radians about an axis. */
    rotation: (real, Vec3) -> Mat4,
    /** `glm::radians(degrees)`. */
    radians: real -> real,
    /** The reciprocal length that `glm::normalize` scales by, as a function of the squared length. */
    invLength: real -> real
  )

  /** `glm::rotate(m, angle, axis)`. */
  function Rotate(g: Lib, m: Mat4, angle: real, axis: Vec3): Mat4 {
    Mul(m, g.rotation(angle, axis))
  }

  /** Rotating the identity gives the elementary rotation itself. */
  lemma RotateIdentity(g: Lib, angle: real, axis: Vec3)
    ensures Rotate(g, Identity(), angle, axis) == g.rotation(angle, axis)
  {
    MulIdentity(g.rotation(angle, axis));
  }

  /** A rotation that glm makes the identity leaves the matrix as it is. */
  lemma RotateByIdentity(g: Lib, m: Mat4, angle: real, axis: Vec3)
    requires g.rotation(angle, axis) == Identity()
    ensures Rotate(g, m, angle, axis) == m
  {
    MulIdentity(m);
  }

  /** `glm::scale(m, s)`. */
  function ScaleBy(m: Mat4, s: Vec3): Mat4 {
    Mul(m, Scaling(s))
  }

  /** `glm::translate(m, d)`. */
  function TranslateBy(m: Mat4, d: Vec3): Mat4 {
    Mul(m, Translation(d))
  }

  /** `glm::normalize(v)`: `v` scaled by a factor that depends only on its length. */
  function Normalize(g: Lib, v: Vec3): Vec3 {
    Scale(v, g.invLength(Dot(v, v)))
  }

  /** A vector and its negation have the same length, so normalizing commutes with negation. */
  lemma NormalizeNeg(g: Lib, v: Vec3)
    ensures Normalize(g, Neg(v)) == Neg(Normalize(g, v))
  {
    assert Dot(Neg(v), Neg(v)) == Dot(v, v);
  }

  /** The left and right strafe directions are opposite:
      `normalize(aim x up) == -normalize(up x aim)`. */
  lemma StrafeDirectionsOpposite(g: Lib, aim: Vec3, up: Vec3)
    ensures Normalize(g, Cross(aim, up)) == Neg(Normalize(g, Cross(up, aim)))
  {
    CrossAntisymmetric(up, aim);
    NormalizeNeg(g, Cross(up, aim));
  }
}
