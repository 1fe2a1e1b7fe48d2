/**
 Real-valued 3- and 4-vectors and 4x4 matrices, the part of glm's `vec3` /
 `mat4` arithmetic that the transform, camera and pipeline code relies on.
 Like glm, a matrix is stored as four columns, and a matrix times a column
 vector is the linear combination of the columns.
 */
module LinAlg {

  datatype Vec3 = Vec3(x: real, y: real, z: real)

  datatype Vec4 = Vec4(x: real, y: real, z: real, w: real)

  /** A 4x4 matrix given by its columns `c0`..`c3`. */
  datatype Mat4 = Mat4(c0: Vec4, c1: Vec4, c2: Vec4, c3: Vec4)

  const Origin: Vec3 := Vec3(0.0, 0.0, 0.0)
  const XAxis: Vec3 := Vec3(1.0, 0.0, 0.0)
  const YAxis: Vec3 := Vec3(0.0, 1.0, 0.0)
  const ZAxis: Vec3 := Vec3(0.0, 0.0, 1.0)

  function Add(a: Vec3, b: Vec3): Vec3 {
    Vec3(a.x + b.x, a.y + b.y, a.z + b.z)
  }

  function Sub(a: Vec3, b: Vec3): Vec3 {
    Vec3(a.x - b.x, a.y - b.y, a.z - b.z)
  }

  function Neg(a: Vec3): Vec3 {
    Vec3(-a.x, -a.y, -a.z)
  }

  /** `v * k`, a vector times a scalar. */
  function Scale(v: Vec3, k: real): Vec3 {
    Vec3(v.x * k, v.y * k, v.z * k)
  }

  function Dot(a: Vec3, b: Vec3): real {
    a.x * b.x + a.y * b.y + a.z * b.z
  }

  function Cross(a: Vec3, b: Vec3): Vec3 {
    Vec3(a.y * b.z - a.z * b.y, a.z * b.x - a.x * b.z, a.x * b.y - a.y * b.x)
  }

  /** The homogeneous coordinates of a point (w = 1). */
  function Point(v: Vec3): Vec4 {
    Vec4(v.x, v.y, v.z, 1.0)
  }

  function Dot4(a: Vec4, b: Vec4): real {
    a.x * b.x + a.y * b.y + a.z * b.z + a.w * b.w
  }

  /** The matrix whose columns are the rows of `m`. */
  function Transpose(m: Mat4): Mat4 {
    Mat4(Vec4(m.c0.x, m.c1.x, m.c2.x, m.c3.x), Vec4(m.c0.y, m.c1.y, m.c2.y, m.c3.y),
         Vec4(m.c0.z, m.c1.z, m.c2.z, m.c3.z), Vec4(m.c0.w, m.c1.w, m.c2.w, m.c3.w))
  }

  /** `m * v` for a column vector `v`: coordinate i is row i of `m` dotted with `v`. */
  function Apply(m: Mat4, v: Vec4): Vec4 {
    var t := Transpose(m);
    Vec4(Dot4(t.c0, v), Dot4(t.c1, v), Dot4(t.c2, v), Dot4(t.c3, v))
  }

  /** The matrix product `a * b`: column j of the product is `a` applied to column j of `b`. */
  function Mul(a: Mat4, b: Mat4): Mat4 {
    Mat4(Apply(a, b.c0), Apply(a, b.c1), Apply(a, b.c2), Apply(a, b.c3))
  }

  /** `glm::mat4(1.0f)`. */
  function Identity(): Mat4 {
    Mat4(Vec4(1.0, 0.0, 0.0, 0.0), Vec4(0.0, 1.0, 0.0, 0.0),
         Vec4(0.0, 0.0, 1.0, 0.0), Vec4(0.0, 0.0, 0.0, 1.0))
  }

  /** The matrix that moves every point by `d`. */
  function Translation(d: Vec3): Mat4 {
    Mat4(Vec4(1.0, 0.0, 0.0, 0.0), Vec4(0.0, 1.0, 0.0, 0.0),
         Vec4(0.0, 0.0, 1.0, 0.0), Vec4(d.x, d.y, d.z, 1.0))
  }

  /** The diagonal matrix that stretches each axis by the matching component of `s`. */
  function Scaling(s: Vec3): Mat4 {
    Mat4(Vec4(s.x, 0.0, 0.0, 0.0), Vec4(0.0, s.y, 0.0, 0.0),
         Vec4(0.0, 0.0, s.z, 0.0), Vec4(0.0, 0.0, 0.0, 1.0))
  }

  /** The identity matrix leaves every vector where it is. */
  lemma ApplyIdentity(v: Vec4)
    ensures Apply(Identity(), v) == v
  {
  }

  /** The identity is neutral on both sides of a product. */
  lemma MulIdentity(m: Mat4)
    ensures Mul(Identity(), m) == m
    ensures Mul(m, Identity()) == m
  {
  }

  function Add4(a: Vec4, b: Vec4): Vec4 {
    Vec4(a.x + b.x, a.y + b.y, a.z + b.z, a.w + b.w)
  }

  function Scale4(v: Vec4, k: real): Vec4 {
    Vec4(v.x * k, v.y * k, v.z * k, v.w * k)
  }

  /** `p0 * k0 + p1 * k1 + p2 * k2 + p3 * k3`, the combination of four vectors with the coordinates of `k`. */
  function Combine(p0: Vec4, p1: Vec4, p2: Vec4, p3: Vec4, k: Vec4): Vec4 {
    Add4(Add4(Add4(Scale4(p0, k.x), Scale4(p1, k.y)), Scale4(p2, k.z)), Scale4(p3, k.w))
  }

  /** A matrix maps a vector to the combination of its columns. */
  lemma ApplyIsCombination(m: Mat4, v: Vec4)
    ensures Apply(m, v) == Combine(m.c0, m.c1, m.c2, m.c3, v)
  {
  }

  /** A row times a sum of vectors, multiplied out. */
  lemma DotAdd(r: Vec4, p: Vec4, q: Vec4)
    ensures Dot4(r, Add4(p, q)) == Dot4(r, p) + Dot4(r, q)
  {
  }

  /** A row times a scaled vector, with the factor pulled out. */
  lemma DotScale(r: Vec4, p: Vec4, k: real)
    ensures Dot4(r, Scale4(p, k)) == Dot4(r, p) * k
  {
  }

  /** Applying a matrix distributes over a sum. */
  lemma ApplyAdd(m: Mat4, p: Vec4, q: Vec4)
    ensures Apply(m, Add4(p, q)) == Add4(Apply(m, p), Apply(m, q))
  {
    var t := Transpose(m);
    DotAdd(t.c0, p, q);
    DotAdd(t.c1, p, q);
    DotAdd(t.c2, p, q);
    DotAdd(t.c3, p, q);
  }

  /** Applying a matrix commutes with scaling. */
  lemma ApplyScale(m: Mat4, p: Vec4, k: real)
    ensures Apply(m, Scale4(p, k)) == Scale4(Apply(m, p), k)
  {
    var t := Transpose(m);
    DotScale(t.c0, p, k);
    DotScale(t.c1, p, k);
    DotScale(t.c2, p, k);
    DotScale(t.c3, p, k);
  }

  /** Applying a matrix to a combination combines the images. */
  lemma ApplyCombine(m: Mat4, p0: Vec4, p1: Vec4, p2: Vec4, p3: Vec4, k: Vec4)
    ensures Apply(m, Combine(p0, p1, p2, p3, k))
         == Combine(Apply(m, p0), Apply(m, p1), Apply(m, p2), Apply(m, p3), k)
  {
    var s0, s1, s2, s3 := Scale4(p0, k.x), Scale4(p1, k.y), Scale4(p2, k.z), Scale4(p3, k.w);
    ApplyAdd(m, Add4(Add4(s0, s1), s2), s3);
    ApplyAdd(m, Add4(s0, s1), s2);
    ApplyAdd(m, s0, s1);
    ApplyScale(m, p0, k.x);
    ApplyScale(m, p1, k.y);
    ApplyScale(m, p2, k.z);
    ApplyScale(m, p3, k.w);
  }

  /** Applying a product is applying its factors right to left. */
  lemma ApplyMul(a: Mat4, b: Mat4, v: Vec4)
    ensures Apply(Mul(a, b), v) == Apply(a, Apply(b, v))
  {
    ApplyIsCombination(b, v);
    ApplyCombine(a, b.c0, b.c1, b.c2, b.c3, v);
    ApplyIsCombination(Mul(a, b), v);
  }

  /** Matrix multiplication is associative, so `p * v * w` needs no brackets. */
  lemma MulAssoc(a: Mat4, b: Mat4, c: Mat4)
    ensures Mul(Mul(a, b), c) == Mul(a, Mul(b, c))
  {
    ApplyMul(a, b, c.c0);
    ApplyMul(a, b, c.c1);
    ApplyMul(a, b, c.c2);
    ApplyMul(a, b, c.c3);
  }

  /** A translation matrix moves a point by exactly its offset. */
  lemma TranslationMovesPoint(d: Vec3, v: Vec3)
    ensures Apply(Translation(d), Point(v)) == Point(Add(v, d))
  {
  }

  /** Swapping the operands of a cross product negates it. */
  lemma CrossAntisymmetric(a: Vec3, b: Vec3)
    ensures Cross(b, a) == Neg(Cross(a, b))
  {
  }

  /** Adding `v * k` and then subtracting it again gives back the start. */
  lemma AddThenSub(p: Vec3, v: Vec3, k: real)
    ensures Sub(Add(p, Scale(v, k)), Scale(v, k)) == p
  {
  }

  /** Moving by `v * k` and then by `(-v) * k` gives back the start. */
  lemma AddThenAddNeg(p: Vec3, v: Vec3, k: real)
    ensures Add(Add(p, Scale(v, k)), Scale(Neg(v), k)) == p
  {
  }
}
