/**
 The camera library of the camera-control tutorial: a camera that owns, once
 asked for it, a separate control object, and the control, which holds a
 non-owning reference to the camera it moves (its subject).

 References are modelled by identity: a `CamRef` names a camera object, a
 control stores the `CamRef` of its subject, and the key handler is handed
 the current state of that subject and returns its new state.
 */
module CamLib {
  import opened LinAlg
  import opened Glm
  import opened Keys
  import opened Maybe

  /** The identity of a camera object, what a `Cam *` points at. */
  datatype CamRef = CamRef(id: nat)

  /** `camLib::Ctrl`. */
  datatype Ctrl = Ctrl(enabled: bool, subject: Option<CamRef>, moveStep: real)

  /** `Cam`; `ctrl` is `None` until the control is first asked for. */
  datatype Cam = Cam(pos: Vec3, aim: Vec3, up: Vec3, ctrl: Option<Ctrl>)

  // Control

  /** `Ctrl()`: disabled, bound to no camera, step 1. */
  function NewCtrl(): (c: Ctrl)
    ensures !c.enabled && c.subject == None && c.moveStep == 1.0
  {
    Ctrl(false, None, 1.0)
  }

  /** `enabled(newVal)`: the old switch and the control with the new one. */
  function SetEnabled(c: Ctrl, newVal: bool): (r: (bool, Ctrl))
    ensures r.0 == c.enabled
    ensures r.1.enabled == newVal
    ensures r.1.subject == c.subject && r.1.moveStep == c.moveStep
  {
    (c.enabled, c.(enabled := newVal))
  }

  /** `subject(newVal)`: the old subject and the control bound to the new one (`None` unbinds). */
  function SetSubject(c: Ctrl, newVal: Option<CamRef>): (r: (Option<CamRef>, Ctrl))
    ensures r.0 == c.subject
    ensures r.1.subject == newVal
    ensures r.1.enabled == c.enabled && r.1.moveStep == c.moveStep
  {
    (c.subject, c.(subject := newVal))
  }

  /** `moveStep(newVal)`: the old step and the control with the new one. */
  function SetMoveStep(c: Ctrl, newVal: real): (r: (real, Ctrl))
    ensures r.0 == c.moveStep
    ensures r.1.moveStep == newVal
    ensures r.1.enabled == c.enabled && r.1.subject == c.subject
  {
    (c.moveStep, c.(moveStep := newVal))
  }

  /** Handing the value a setter returned back to the same setter undoes the change. */
  lemma CtrlSettersRestore(c: Ctrl, on: bool, s: Option<CamRef>, step: real)
    ensures var (prev, c') := SetEnabled(c, on); SetEnabled(c', prev).1 == c
    ensures var (prev, c') := SetSubject(c, s); SetSubject(c', prev).1 == c
    ensures var (prev, c') := SetMoveStep(c, step); SetMoveStep(c', prev).1 == c
  {
  }

  /** `_moveOn()`: the subject one step forwards along its unit aim. */
  function MoveOn(c: Ctrl, s: Cam, g: Lib): (r: Cam)
    ensures Sub(r.pos, s.pos) == Scale(Normalize(g, s.aim), c.moveStep)
    ensures r.(pos := s.pos) == s
  {
    s.(pos := Add(s.pos, Scale(Normalize(g, s.aim), c.moveStep)))
  }

  /** `_moveBack()`: the subject one step backwards along its unit aim. */
  function MoveBack(c: Ctrl, s: Cam, g: Lib): (r: Cam)
    ensures Sub(s.pos, r.pos) == Scale(Normalize(g, s.aim), c.moveStep)
    ensures r.(pos := s.pos) == s
  {
    s.(pos := Sub(s.pos, Scale(Normalize(g, s.aim), c.moveStep)))
  }

  /** `_moveLeft()`: the subject one step along the unit `up x aim`. */
  function MoveLeft(c: Ctrl, s: Cam, g: Lib): (r: Cam)
    ensures Sub(r.pos, s.pos) == Scale(Normalize(g, Cross(s.up, s.aim)), c.moveStep)
    ensures r.(pos := s.pos) == s
  {
    s.(pos := Add(s.pos, Scale(Normalize(g, Cross(s.up, s.aim)), c.moveStep)))
  }

  /** `_moveRight()`: the subject one step along the unit `aim x up`. */
  function MoveRight(c: Ctrl, s: Cam, g: Lib): (r: Cam)
    ensures Sub(r.pos, s.pos) == Scale(Normalize(g, Cross(s.aim, s.up)), c.moveStep)
    ensures r.(pos := s.pos) == s
  {
    s.(pos := Add(s.pos, Scale(Normalize(g, Cross(s.aim, s.up)), c.moveStep)))
  }

  /** `onKey(key)`, given the current state `s` of the subject: whether the key
      was handled, and the subject afterwards. A disabled or unbound control
      handles nothing and moves nothing. */
  function OnKey(c: Ctrl, s: Cam, key: int, g: Lib): (r: (bool, Cam))
    ensures r.0 <==> c.enabled && c.subject.Some? && IsArrow(key)
    ensures !r.0 ==> r.1 == s
    ensures r.1.(pos := s.pos) == s
    ensures r.0 && key == KeyUp ==> r.1 == MoveOn(c, s, g)
    ensures r.0 && key == KeyDown ==> r.1 == MoveBack(c, s, g)
    ensures r.0 && key == KeyLeft ==> r.1 == MoveLeft(c, s, g)
    ensures r.0 && key == KeyRight ==> r.1 == MoveRight(c, s, g)
  {
    if !c.enabled || c.subject == None then (false, s)
    else if key == KeyUp then (true, MoveOn(c, s, g))
    else if key == KeyDown then (true, MoveBack(c, s, g))
    else if key == KeyLeft then (true, MoveLeft(c, s, g))
    else if key == KeyRight then (true, MoveRight(c, s, g))
    else (false, s)
  }

  /** Forwards then backwards, in either order, puts the subject back where it was. */
  lemma MoveOnBackAreInverse(c: Ctrl, s: Cam, g: Lib)
    ensures MoveBack(c, MoveOn(c, s, g), g) == s
    ensures MoveOn(c, MoveBack(c, s, g), g) == s
  {
    var u := Scale(Normalize(g, s.aim), c.moveStep);
    AddThenSub(s.pos, Normalize(g, s.aim), c.moveStep);
    assert Add(Sub(s.pos, u), u) == s.pos;
  }

  /** Left then right, in either order, puts the subject back where it was:
      the two sideways directions are opposite. */
  lemma MoveLeftRightAreInverse(c: Ctrl, s: Cam, g: Lib)
    ensures MoveRight(c, MoveLeft(c, s, g), g) == s
    ensures MoveLeft(c, MoveRight(c, s, g), g) == s
  {
    StrafeDirectionsOpposite(g, s.aim, s.up);
    AddThenAddNeg(s.pos, Normalize(g, Cross(s.up, s.aim)), c.moveStep);
    var r := Normalize(g, Cross(s.aim, s.up));
    assert Normalize(g, Cross(s.up, s.aim)) == Neg(r);
    AddThenAddNeg(s.pos, r, c.moveStep);
  }

  /** The same round trips through the key handler of an enabled, bound control. */
  lemma ArrowKeysRoundTrip(c: Ctrl, s: Cam, g: Lib)
    requires c.enabled && c.subject.Some?
    ensures OnKey(c, OnKey(c, s, KeyUp, g).1, KeyDown, g) == (true, s)
    ensures OnKey(c, OnKey(c, s, KeyLeft, g).1, KeyRight, g) == (true, s)
  {
    MoveOnBackAreInverse(c, s, g);
    MoveLeftRightAreInverse(c, s, g);
  }

  // Camera

  /** `Cam()`: at the origin, aiming along +Z, +Y up, no control yet. */
  function NewCam(): (c: Cam)
    ensures c.pos == Origin && c.aim == ZAxis && c.up == YAxis && c.ctrl == None
  {
    Cam(Origin, ZAxis, YAxis, None)
  }

  /** `pos(x, y, z)`: the old position and the camera with the new one. */
  function SetPosXYZ(c: Cam, x: real, y: real, z: real): (r: (Vec3, Cam))
    ensures r.0 == c.pos
    ensures r.1.pos == Vec3(x, y, z)
    ensures r.1.aim == c.aim && r.1.up == c.up && r.1.ctrl == c.ctrl
  {
    (c.pos, c.(pos := c.pos.(x := x, y := y, z := z)))
  }

  /** `pos(newVal)`: the old position and the camera with the new one. */
  function SetPos(c: Cam, newVal: Vec3): (r: (Vec3, Cam))
    ensures r.0 == c.pos
    ensures r.1.pos == newVal
    ensures r.1.aim == c.aim && r.1.up == c.up && r.1.ctrl == c.ctrl
  {
    (c.pos, c.(pos := newVal))
  }

  /** `aim(x, y, z)`: the old aim and the camera with the new one. */
  function SetAimXYZ(c: Cam, x: real, y: real, z: real): (r: (Vec3, Cam))
    ensures r.0 == c.aim
    ensures r.1.aim == Vec3(x, y, z)
    ensures r.1.pos == c.pos && r.1.up == c.up && r.1.ctrl == c.ctrl
  {
    (c.aim, c.(aim := c.aim.(x := x, y := y, z := z)))
  }

  /** `aim(newVal)`: the old aim and the camera with the new one. */
  function SetAim(c: Cam, newVal: Vec3): (r: (Vec3, Cam))
    ensures r.0 == c.aim
    ensures r.1.aim == newVal
    ensures r.1.pos == c.pos && r.1.up == c.up && r.1.ctrl == c.ctrl
  {
    (c.aim, c.(aim := newVal))
  }

  /** `up(x, y, z)`: the old up direction and the camera with the new one. */
  function SetUpXYZ(c: Cam, x: real, y: real, z: real): (r: (Vec3, Cam))
    ensures r.0 == c.up
    ensures r.1.up == Vec3(x, y, z)
    ensures r.1.pos == c.pos && r.1.aim == c.aim && r.1.ctrl == c.ctrl
  {
    (c.up, c.(up := c.up.(x := x, y := y, z := z)))
  }

  /** `up(newVal)`: the old up direction and the camera with the new one. */
  function SetUp(c: Cam, newVal: Vec3): (r: (Vec3, Cam))
    ensures r.0 == c.up
    ensures r.1.up == newVal
    ensures r.1.pos == c.pos && r.1.aim == c.aim && r.1.ctrl == c.ctrl
  {
    (c.up, c.(up := newVal))
  }

  /** The component-wise and the vector forms of each setter agree, and handing
      the returned value back undoes the change. */
  lemma CamSettersAgreeAndRestore(c: Cam, x: real, y: real, z: real)
    ensures SetPosXYZ(c, x, y, z) == SetPos(c, Vec3(x, y, z))
    ensures SetAimXYZ(c, x, y, z) == SetAim(c, Vec3(x, y, z))
    ensures SetUpXYZ(c, x, y, z) == SetUp(c, Vec3(x, y, z))
    ensures var (prev, c') := SetPos(c, Vec3(x, y, z)); SetPos(c', prev).1 == c
    ensures var (prev, c') := SetAim(c, Vec3(x, y, z)); SetAim(c', prev).1 == c
    ensures var (prev, c') := SetUp(c, Vec3(x, y, z)); SetUp(c', prev).1 == c
  {
  }

  /** `ctrl()` on the camera `self`: its control, created on the first call and
      bound to `self`, and the camera that now owns it. */
  function GetCtrl(c: Cam, self: CamRef): (r: (Ctrl, Cam))
    ensures c.ctrl.Some? ==> r == (c.ctrl.value, c)
    ensures c.ctrl.None? ==> !r.0.enabled && r.0.subject == Some(self) && r.0.moveStep == 1.0
    ensures r.1.ctrl == Some(r.0)
    ensures r.1.(ctrl := c.ctrl) == c
  {
    match c.ctrl
    case Some(k) => (k, c)
    case None =>
      var k := SetSubject(NewCtrl(), Some(self)).1;
      (k, c.(ctrl := Some(k)))
  }

  /** Asking again returns the same control and changes nothing. */
  lemma GetCtrlIsIdempotent(c: Cam, self: CamRef)
    ensures var (k, c') := GetCtrl(c, self); GetCtrl(c', self) == (k, c')
  {
  }

  // `ctrl()` returns a reference: a setter called through it changes the control the
  // camera owns. Each of these is `cam.ctrl().setter(newVal)` on the camera `self`.

  /** `ctrl().enabled(on)`: the control's old switch, and the camera whose control now has the new one. */
  function EnableThroughCtrl(c: Cam, self: CamRef, on: bool): (r: (bool, Cam))
    ensures r.0 == GetCtrl(c, self).0.enabled
    ensures r.1.ctrl.Some? && r.1.ctrl.value.enabled == on
    ensures r.1.ctrl.value.subject == GetCtrl(c, self).0.subject
    ensures r.1.ctrl.value.moveStep == GetCtrl(c, self).0.moveStep
    ensures r.1.(ctrl := c.ctrl) == c
  {
    var (k, owner) := GetCtrl(c, self);
    var (prev, k') := SetEnabled(k, on);
    (prev, owner.(ctrl := Some(k')))
  }

  /** `ctrl().subject(s)`: the control's old subject, and the camera whose control is now bound to `s`. */
  function SubjectThroughCtrl(c: Cam, self: CamRef, s: Option<CamRef>): (r: (Option<CamRef>, Cam))
    ensures r.0 == GetCtrl(c, self).0.subject
    ensures r.1.ctrl.Some? && r.1.ctrl.value.subject == s
    ensures r.1.ctrl.value.enabled == GetCtrl(c, self).0.enabled
    ensures r.1.ctrl.value.moveStep == GetCtrl(c, self).0.moveStep
    ensures r.1.(ctrl := c.ctrl) == c
  {
    var (k, owner) := GetCtrl(c, self);
    var (prev, k') := SetSubject(k, s);
    (prev, owner.(ctrl := Some(k')))
  }

  /** `ctrl().moveStep(step)`: the control's old step, and the camera whose control now has the new one. */
  function MoveStepThroughCtrl(c: Cam, self: CamRef, step: real): (r: (real, Cam))
    ensures r.0 == GetCtrl(c, self).0.moveStep
    ensures r.1.ctrl.Some? && r.1.ctrl.value.moveStep == step
    ensures r.1.ctrl.value.enabled == GetCtrl(c, self).0.enabled
    ensures r.1.ctrl.value.subject == GetCtrl(c, self).0.subject
    ensures r.1.(ctrl := c.ctrl) == c
  {
    var (k, owner) := GetCtrl(c, self);
    var (prev, k') := SetMoveStep(k, step);
    (prev, owner.(ctrl := Some(k')))
  }

  /** A write through the reference is seen by the next `ctrl()`, and writing back
      the value it returned restores the control. */
  lemma WritesThroughCtrlAreKept(c: Cam, self: CamRef, on: bool, step: real)
    ensures var (_, c') := EnableThroughCtrl(c, self, on);
            GetCtrl(c', self).0 == GetCtrl(c, self).0.(enabled := on)
    ensures var (_, c') := MoveStepThroughCtrl(c, self, step);
            GetCtrl(c', self).0 == GetCtrl(c, self).0.(moveStep := step)
    ensures var (prev, c') := EnableThroughCtrl(c, self, on);
            EnableThroughCtrl(c', self, prev).1 == GetCtrl(c, self).1
    ensures var (prev, c') := MoveStepThroughCtrl(c, self, step);
            MoveStepThroughCtrl(c', self, prev).1 == GetCtrl(c, self).1
  {
  }

  /** `view()`: look from the position towards the position plus the aim. */
  function View(c: Cam, g: Lib): Mat4 {
    g.lookAt(c.pos, Add(c.pos, c.aim), c.up)
  }

  /** Moving the camera by `d` moves the point it looks at by the same `d`; the
      control it owns plays no part in the view. */
  lemma ViewFollowsPosition(c: Cam, d: Vec3, g: Lib)
    ensures View(c.(pos := Add(c.pos, d)), g) == g.lookAt(Add(c.pos, d), Add(Add(c.pos, c.aim), d), c.up)
    ensures forall k: Option<Ctrl> :: View(c.(ctrl := k), g) == View(c, g)
  {
    assert Add(Add(c.pos, d), c.aim) == Add(Add(c.pos, c.aim), d);
  }

  /** The camera's own control, once enabled, moves the camera and leaves the
      control where it is: up then down through it restores the camera. */
  lemma OwnControlRoundTrip(c: Cam, self: CamRef, g: Lib)
    requires c.ctrl.Some? && c.ctrl.value.enabled && c.ctrl.value.subject == Some(self)
    ensures var k := c.ctrl.value;
            var (handled, c1) := OnKey(k, c, KeyUp, g);
            handled && c1.ctrl == c.ctrl && OnKey(k, c1, KeyDown, g) == (true, c)
  {
    ArrowKeysRoundTrip(c.ctrl.value, c, g);
  }

  /** The usual set-up of a fresh camera, `cam.ctrl().enabled(true)`, gives a control
      bound to the camera itself, so its arrow keys move that camera and UP then DOWN
      brings it back. */
  lemma EnableFreshControlThenRoundTrip(self: CamRef, g: Lib)
    ensures var (_, c) := EnableThroughCtrl(NewCam(), self, true);
            && c.ctrl.Some? && c.ctrl.value.enabled && c.ctrl.value.subject == Some(self)
            && var (handled, c1) := OnKey(c.ctrl.value, c, KeyUp, g);
               handled && c1.ctrl == c.ctrl && OnKey(c.ctrl.value, c1, KeyDown, g) == (true, c)
  {
    var (_, c) := EnableThroughCtrl(NewCam(), self, true);
    OwnControlRoundTrip(c, self, g);
  }
}
