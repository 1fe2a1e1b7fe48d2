/**
 The GLUT special-key codes the keyboard handlers switch on. The values are
 the ones freeglut's public header assigns to `GLUT_KEY_LEFT`, `GLUT_KEY_UP`,
 `GLUT_KEY_RIGHT` and `GLUT_KEY_DOWN`.
 */
module Keys {
  const KeyLeft: int := 100
  const KeyUp: int := 101
  const KeyRight: int := 102
  const KeyDown: int := 103

  /** The four arrow keys, the only keys the camera controls react to. */
  predicate IsArrow(key: int) {
    key == KeyUp || key == KeyDown || key == KeyLeft || key == KeyRight
  }
}
