/**
 The camera of the camera-space tutorial: a position, an aim relative to
 that position, and an up direction, turned into a look-at view matrix.
 */
module BasicCamera {
  import opened LinAlg
  import opened Glm

  datatype Cam = Cam(pos: Vec3, aim: Vec3, up: Vec3)

  /** `Cam()`: at the origin, aiming along +Z, with +Y up. */
  function Default(): (c: Cam)
    ensures c.pos == Origin && c.aim == ZAxis && c.up == YAxis
  {
    Cam(Origin, ZAxis, YAxis)
  }

  /** `pos(x, y, z)`: the old position and the camera with the new one. */
  function SetPos(c: Cam, x: real, y: real, z: real): (r: (Vec3, Cam))
    ensures r.0 == c.pos
    ensures r.1.pos == Vec3(x, y, z)
    ensures r.1.aim == c.aim && r.1.up == c.up
  {
    (c.pos, c.(pos := Vec3(x, y, z)))
  }

  /** `aim(x, y, z)`: the old aim and the camera with the new one. */
  function SetAim(c: Cam, x: real, y: real, z: real): (r: (Vec3, Cam))
    ensures r.0 == c.aim
    ensures r.1.aim == Vec3(x, y, z)
    ensures r.1.pos == c.pos && r.1.up == c.up
  {
    (c.aim, c.(aim := Vec3(x, y, z)))
  }

  /** `up(x, y, z)`: the old up direction and the camera with the new one. */
  function SetUp(c: Cam, x: real, y: real, z: real): (r: (Vec3, Cam))
    ensures r.0 == c.up
    ensures r.1.up == Vec3(x, y, z)
    ensures r.1.pos == c.pos && r.1.aim == c.aim
  {
    (c.up, c.(up := Vec3(x, y, z)))
  }

  /** Handing the value a setter returned back to the same setter undoes the change. */
  lemma SettersRestore(c: Cam, x: real, y: real, z: real)
    ensures var (prev, c') := SetPos(c, x, y, z); SetPos(c', prev.x, prev.y, prev.z).1 == c
    ensures var (prev, c') := SetAim(c, x, y, z); SetAim(c', prev.x, prev.y, prev.z).1 == c
    ensures var (prev, c') := SetUp(c, x, y, z); SetUp(c', prev.x, prev.y, prev.z).1 == c
  {
  }

  /** `view()`: look from the position towards the position plus the aim. */
  function View(c: Cam, g: Lib): Mat4 {
    g.lookAt(c.pos, Add(c.pos, c.aim), c.up)
  }

  /** Because the aim is relative, moving the camera by `d` moves the point it
      looks at by the same `d`. */
  lemma ViewFollowsPosition(c: Cam, d: Vec3, g: Lib)
    ensures View(c.(pos := Add(c.pos, d)), g) == g.lookAt(Add(c.pos, d), Add(Add(c.pos, c.aim), d), c.up)
  {
    assert Add(Add(c.pos, d), c.aim) == Add(Add(c.pos, c.aim), d);
  }
}
