/**
 The first camera of the camera-control tutorial, with its keyboard control
 built in: while `controlled` is set, the arrow keys move the position by
 `step` forwards and backwards along the aim or sideways across it. Moving
 never turns the camera.
 */
module ControlledCamera {
  import opened LinAlg
  import opened Glm
  import opened Keys

  datatype Cam = Cam(pos: Vec3, aim: Vec3, up: Vec3, step: real, controlled: bool)

  /** `Cam()`: at the origin, aiming along +Z, +Y up, step 1, not controlled. */
  function Default(): (c: Cam)
    ensures c.pos == Origin && c.aim == ZAxis && c.up == YAxis
    ensures c.step == 1.0 && !c.controlled
  {
    Cam(Origin, ZAxis, YAxis, 1.0, false)
  }

  /** `pos(x, y, z)`: the old position and the camera with the new one. */
  function SetPos(c: Cam, x: real, y: real, z: real): (r: (Vec3, Cam))
    ensures r.0 == c.pos
    ensures r.1.pos == Vec3(x, y, z)
    ensures r.1.aim == c.aim && r.1.up == c.up && r.1.step == c.step && r.1.controlled == c.controlled
  {
    (c.pos, c.(pos := Vec3(x, y, z)))
  }

  /** `aim(x, y, z)`: the old aim and the camera with the new one. */
  function SetAim(c: Cam, x: real, y: real, z: real): (r: (Vec3, Cam))
    ensures r.0 == c.aim
    ensures r.1.aim == Vec3(x, y, z)
    ensures r.1.pos == c.pos && r.1.up == c.up && r.1.step == c.step && r.1.controlled == c.controlled
  {
    (c.aim, c.(aim := Vec3(x, y, z)))
  }

  /** `up(x, y, z)`: the old up direction and the camera with the new one. */
  function SetUp(c: Cam, x: real, y: real, z: real): (r: (Vec3, Cam))
    ensures r.0 == c.up
    ensures r.1.up == Vec3(x, y, z)
    ensures r.1.pos == c.pos && r.1.aim == c.aim && r.1.step == c.step && r.1.controlled == c.controlled
  {
    (c.up, c.(up := Vec3(x, y, z)))
  }

  /** Handing the value a setter returned back to the same setter undoes the change. */
  lemma SettersRestore(c: Cam, x: real, y: real, z: real)
    ensures var (prev, c') := SetPos(c, x, y, z); SetPos(c', prev.x, prev.y, prev.z).1 == c
    ensures var (prev, c') := SetAim(c, x, y, z); SetAim(c', prev.x, prev.y, prev.z).1 == c
    ensures var (prev, c') := SetUp(c, x, y, z); SetUp(c', prev.x, prev.y, prev.z).1 == c
  {
  }

  /** `view()`: look from the position towards the position plus the aim. */
  function View(c: Cam, g: Lib): Mat4 {
    g.lookAt(c.pos, Add(c.pos, c.aim), c.up)
  }

  /** Moving the camera by `d` moves the point it looks at by the same `d`. */
  lemma ViewFollowsPosition(c: Cam, d: Vec3, g: Lib)
    ensures View(c.(pos := Add(c.pos, d)), g) == g.lookAt(Add(c.pos, d), Add(Add(c.pos, c.aim), d), c.up)
  {
    assert Add(Add(c.pos, d), c.aim) == Add(Add(c.pos, c.aim), d);
  }

  /** The unit aim, the direction of the up and down keys. */
  function Forward(c: Cam, g: Lib): Vec3 {
    Normalize(g, c.aim)
  }

  /** The unit vector `up x aim`, the direction of the left key. */
  function Leftward(c: Cam, g: Lib): Vec3 {
    Normalize(g, Cross(c.up, c.aim))
  }

  /** The unit vector `aim x up`, the direction of the right key. */
  function Rightward(c: Cam, g: Lib): Vec3 {
    Normalize(g, Cross(c.aim, c.up))
  }

  /** `onKeyUp()`: one step forwards along the aim. */
  function OnKeyUp(c: Cam, g: Lib): (r: Cam)
    ensures Sub(r.pos, c.pos) == Scale(Forward(c, g), c.step)
    ensures r.(pos := c.pos) == c
  {
    c.(pos := Add(c.pos, Scale(Normalize(g, c.aim), c.step)))
  }

  /** `onKeyDown()`: one step backwards along the aim. */
  function OnKeyDown(c: Cam, g: Lib): (r: Cam)
    ensures Sub(c.pos, r.pos) == Scale(Forward(c, g), c.step)
    ensures r.(pos := c.pos) == c
  {
    c.(pos := Sub(c.pos, Scale(Normalize(g, c.aim), c.step)))
  }

  /** `onKeyLeft()`: one step along `up x aim`. */
  function OnKeyLeft(c: Cam, g: Lib): (r: Cam)
    ensures Sub(r.pos, c.pos) == Scale(Leftward(c, g), c.step)
    ensures r.(pos := c.pos) == c
  {
    c.(pos := Add(c.pos, Scale(Normalize(g, Cross(c.up, c.aim)), c.step)))
  }

  /** `onKeyRight()`: one step along `aim x up`. */
  function OnKeyRight(c: Cam, g: Lib): (r: Cam)
    ensures Sub(r.pos, c.pos) == Scale(Rightward(c, g), c.step)
    ensures r.(pos := c.pos) == c
  {
    c.(pos := Add(c.pos, Scale(Normalize(g, Cross(c.aim, c.up)), c.step)))
  }

  /** `onKey(key)`: whether the key was handled, and the camera afterwards. */
  function OnKey(c: Cam, key: int, g: Lib): (r: (bool, Cam))
    ensures r.0 <==> c.controlled && IsArrow(key)
    ensures !r.0 ==> r.1 == c
    ensures r.1.(pos := c.pos) == c
    ensures r.0 && key == KeyUp ==> r.1 == OnKeyUp(c, g)
    ensures r.0 && key == KeyDown ==> r.1 == OnKeyDown(c, g)
    ensures r.0 && key == KeyLeft ==> r.1 == OnKeyLeft(c, g)
    ensures r.0 && key == KeyRight ==> r.1 == OnKeyRight(c, g)
  {
    if !c.controlled then (false, c)
    else if key == KeyUp then (true, OnKeyUp(c, g))
    else if key == KeyDown then (true, OnKeyDown(c, g))
    else if key == KeyLeft then (true, OnKeyLeft(c, g))
    else if key == KeyRight then (true, OnKeyRight(c, g))
    else (false, c)
  }

  /** Up then down, or down then up, puts the camera back where it was. */
  lemma UpDownAreInverse(c: Cam, g: Lib)
    ensures OnKeyDown(OnKeyUp(c, g), g) == c
    ensures OnKeyUp(OnKeyDown(c, g), g) == c
  {
    var u := Scale(Normalize(g, c.aim), c.step);
    AddThenSub(c.pos, Normalize(g, c.aim), c.step);
    assert Add(Sub(c.pos, u), u) == c.pos;
  }

  /** Left then right, or right then left, puts the camera back where it was:
      the two sideways directions are opposite. */
  lemma LeftRightAreInverse(c: Cam, g: Lib)
    ensures OnKeyRight(OnKeyLeft(c, g), g) == c
    ensures OnKeyLeft(OnKeyRight(c, g), g) == c
  {
    StrafeDirectionsOpposite(g, c.aim, c.up);
    AddThenAddNeg(c.pos, Normalize(g, Cross(c.up, c.aim)), c.step);
    var r := Normalize(g, Cross(c.aim, c.up));
    assert Normalize(g, Cross(c.up, c.aim)) == Neg(r);
    AddThenAddNeg(c.pos, r, c.step);
  }

  /** The same round trips through the key handler of a controlled camera. */
  lemma ArrowKeysRoundTrip(c: Cam, g: Lib)
    requires c.controlled
    ensures OnKey(OnKey(c, KeyUp, g).1, KeyDown, g) == (true, c)
    ensures OnKey(OnKey(c, KeyLeft, g).1, KeyRight, g) == (true, c)
  {
    UpDownAreInverse(c, g);
    LeftRightAreInverse(c, g);
  }
}
