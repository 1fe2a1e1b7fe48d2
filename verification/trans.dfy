/**
 The transformation of one object: its scale, its rotation about the X, Y and
 Z axes in degrees, and its position, combined into a world matrix that
 scales first, then rotates, then translates.
 */
module Transform {
  import opened LinAlg
  import opened Glm

  datatype Trans = Trans(scale: Vec3, rot: Vec3, pos: Vec3)

  const UnitScale: Vec3 := Vec3(1.0, 1.0, 1.0)

  /** `Trans()`: scale 1, no rotation, at the origin. */
  function Default(): (t: Trans)
    ensures t.scale == UnitScale && t.rot == Origin && t.pos == Origin
  {
    Trans(UnitScale, Origin, Origin)
  }

  /** `scale(x, y, z)`: the old scale and the transformation with the new one. */
  function SetScale(t: Trans, x: real, y: real, z: real): (r: (Vec3, Trans))
    ensures r.0 == t.scale
    ensures r.1.scale == Vec3(x, y, z)
    ensures r.1.rot == t.rot && r.1.pos == t.pos
  {
    (t.scale, t.(scale := Vec3(x, y, z)))
  }

  /** `rot(x, y, z)`: the old rotation and the transformation with the new one. */
  function SetRot(t: Trans, x: real, y: real, z: real): (r: (Vec3, Trans))
    ensures r.0 == t.rot
    ensures r.1.rot == Vec3(x, y, z)
    ensures r.1.scale == t.scale && r.1.pos == t.pos
  {
    (t.rot, t.(rot := Vec3(x, y, z)))
  }

  /** `pos(x, y, z)`: the old position and the transformation with the new one. */
  function SetPos(t: Trans, x: real, y: real, z: real): (r: (Vec3, Trans))
    ensures r.0 == t.pos
    ensures r.1.pos == Vec3(x, y, z)
    ensures r.1.scale == t.scale && r.1.rot == t.rot
  {
    (t.pos, t.(pos := Vec3(x, y, z)))
  }

  /** Handing the value a setter returned back to the same setter undoes the change. */
  lemma SettersRestore(t: Trans, x: real, y: real, z: real)
    ensures var (prev, t') := SetScale(t, x, y, z); SetScale(t', prev.x, prev.y, prev.z).1 == t
    ensures var (prev, t') := SetRot(t, x, y, z); SetRot(t', prev.x, prev.y, prev.z).1 == t
    ensures var (prev, t') := SetPos(t, x, y, z); SetPos(t', prev.x, prev.y, prev.z).1 == t
  {
  }

  /** The rotation part of the world matrix: X, then Y, then Z, each angle converted to radians. */
  function Rotation(t: Trans, g: Lib): Mat4 {
    var rx := Rotate(g, Identity(), g.radians(t.rot.x), XAxis);
    var rxy := Rotate(g, rx, g.radians(t.rot.y), YAxis);
    Rotate(g, rxy, g.radians(t.rot.z), ZAxis)
  }

  /** `world()`: position matrix times rotation matrix times scale matrix. */
  function World(t: Trans, g: Lib): Mat4 {
    var scaleMat := ScaleBy(Identity(), t.scale);
    var rotMat := Rotation(t, g);
    var posMat := TranslateBy(Identity(), t.pos);
    Mul(Mul(posMat, rotMat), scaleMat)
  }

  /** The three elementary rotations, X leftmost. */
  lemma RotationIsProduct(t: Trans, g: Lib)
    ensures Rotation(t, g)
         == Mul(Mul(g.rotation(g.radians(t.rot.x), XAxis), g.rotation(g.radians(t.rot.y), YAxis)),
                g.rotation(g.radians(t.rot.z), ZAxis))
  {
    MulIdentity(g.rotation(g.radians(t.rot.x), XAxis));
  }

  /** The world matrix is `T * (Rx * Ry * Rz) * S`, built from the current fields. */
  lemma WorldIsTranslateRotateScale(t: Trans, g: Lib)
    ensures World(t, g)
         == Mul(Translation(t.pos),
                Mul(Mul(Mul(g.rotation(g.radians(t.rot.x), XAxis), g.rotation(g.radians(t.rot.y), YAxis)),
                        g.rotation(g.radians(t.rot.z), ZAxis)),
                    Scaling(t.scale)))
  {
    RotationIsProduct(t, g);
    MulIdentity(Scaling(t.scale));
    MulIdentity(Translation(t.pos));
    MulAssoc(Translation(t.pos), Rotation(t, g), Scaling(t.scale));
  }

  /** A point is scaled first, then rotated, then moved to the position. */
  lemma WorldScalesThenRotatesThenTranslates(t: Trans, g: Lib, v: Vec4)
    ensures Apply(World(t, g), v)
         == Apply(Translation(t.pos), Apply(Rotation(t, g), Apply(Scaling(t.scale), v)))
  {
    MulIdentity(Scaling(t.scale));
    MulIdentity(Translation(t.pos));
    var tr := Mul(Translation(t.pos), Rotation(t, g));
    ApplyMul(tr, Scaling(t.scale), v);
    ApplyMul(Translation(t.pos), Rotation(t, g), Apply(Scaling(t.scale), v));
  }

  /** glm turns a zero angle about each axis into no rotation at all. */
  predicate ZeroAnglesAreIdentity(g: Lib) {
    && g.rotation(g.radians(0.0), XAxis) == Identity()
    && g.rotation(g.radians(0.0), YAxis) == Identity()
    && g.rotation(g.radians(0.0), ZAxis) == Identity()
  }

  /** Unit scale is no scaling. */
  lemma UnitScalingIsIdentity()
    ensures Scaling(UnitScale) == Identity()
  {
  }

  /** Zero angles give no rotation. */
  lemma ZeroRotationIsIdentity(t: Trans, g: Lib)
    requires ZeroAnglesAreIdentity(g)
    requires t.rot == Origin
    ensures Rotation(t, g) == Identity()
  {
    var i := Identity();
    assert t.rot.x == 0.0 && t.rot.y == 0.0 && t.rot.z == 0.0;
    RotateByIdentity(g, i, g.radians(t.rot.x), XAxis);
    RotateByIdentity(g, i, g.radians(t.rot.y), YAxis);
    RotateByIdentity(g, i, g.radians(t.rot.z), ZAxis);
  }

  /** The world matrix assembled from already known factors. */
  lemma WorldFromFactors(t: Trans, g: Lib, posMat: Mat4, rotMat: Mat4, scaleMat: Mat4)
    requires TranslateBy(Identity(), t.pos) == posMat
    requires Rotation(t, g) == rotMat
    requires ScaleBy(Identity(), t.scale) == scaleMat
    ensures World(t, g) == Mul(Mul(posMat, rotMat), scaleMat)
  {
  }

  /** Without rotation and at unit scale the world matrix is the pure translation to the position. */
  lemma WorldWithoutRotationIsTranslation(t: Trans, g: Lib)
    requires ZeroAnglesAreIdentity(g)
    requires t.rot == Origin && t.scale == UnitScale
    ensures World(t, g) == Translation(t.pos)
  {
    var i, tr := Identity(), Translation(t.pos);
    ZeroRotationIsIdentity(t, g);
    UnitScalingIsIdentity();
    MulIdentity(i);
    MulIdentity(tr);
    WorldFromFactors(t, g, tr, i, i);
  }

  /** ... and so it maps the object's origin onto its position. */
  lemma WorldWithoutRotationMapsOriginToPos(t: Trans, g: Lib)
    requires ZeroAnglesAreIdentity(g)
    requires t.rot == Origin && t.scale == UnitScale
    ensures Apply(World(t, g), Point(Origin)) == Point(t.pos)
  {
    WorldWithoutRotationIsTranslation(t, g);
    TranslationMovesPoint(t.pos, Origin);
  }

  /** A freshly constructed transformation does nothing. */
  lemma DefaultWorldIsIdentity(g: Lib)
    requires ZeroAnglesAreIdentity(g)
    ensures World(Default(), g) == Identity()
  {
    WorldWithoutRotationIsTranslation(Default(), g);
  }

  /** The quarter turn about +Y that takes +X to -Z. */
  function QuarterTurnY(): Mat4 {
    Mat4(Vec4(0.0, 0.0, -1.0, 0.0), Vec4(0.0, 1.0, 0.0, 0.0),
         Vec4(1.0, 0.0, 0.0, 0.0), Vec4(0.0, 0.0, 0.0, 1.0))
  }

  /** The tutorial's object: unit scale, turned 90 degrees about Y, five units along +Z. */
  function QuarterTurnedObject(): Trans {
    Trans(UnitScale, Vec3(0.0, 90.0, 0.0), Vec3(0.0, 0.0, 5.0))
  }

  /** The quarter turn sends +X to -Z. */
  lemma QuarterTurnTakesXToMinusZ()
    ensures Apply(QuarterTurnY(), Point(XAxis)) == Point(Vec3(0.0, 0.0, -1.0))
  {
  }

  /** With glm's 90 degree turn about Y, the object's rotation matrix is that turn. */
  lemma QuarterTurnedRotation(g: Lib)
    requires ZeroAnglesAreIdentity(g)
    requires g.rotation(g.radians(90.0), YAxis) == QuarterTurnY()
    ensures Rotation(QuarterTurnedObject(), g) == QuarterTurnY()
  {
    var t := QuarterTurnedObject();
    assert t.rot.x == 0.0 && t.rot.y == 90.0 && t.rot.z == 0.0;
    RotateByIdentity(g, Identity(), g.radians(t.rot.x), XAxis);
    RotateIdentity(g, g.radians(t.rot.y), YAxis);
    RotateByIdentity(g, QuarterTurnY(), g.radians(t.rot.z), ZAxis);
  }

  /** The object's local point (1, 0, 0) lands on (0, 0, 4): first turned onto -Z, then moved by 5. */
  lemma QuarterTurnScenario(g: Lib)
    requires ZeroAnglesAreIdentity(g)
    requires g.rotation(g.radians(90.0), YAxis) == QuarterTurnY()
    ensures Apply(World(QuarterTurnedObject(), g), Point(XAxis)) == Point(Vec3(0.0, 0.0, 4.0))
  {
    var t := QuarterTurnedObject();
    QuarterTurnedRotation(g);
    UnitScalingIsIdentity();
    WorldScalesThenRotatesThenTranslates(t, g, Point(XAxis));
    ApplyIdentity(Point(XAxis));
    QuarterTurnTakesXToMinusZ();
    TranslationMovesPoint(t.pos, Vec3(0.0, 0.0, -1.0));
  }
}
