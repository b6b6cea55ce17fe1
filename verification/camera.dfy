/**
 The orbit camera and its keyboard handler (`keyboard`, almeidao.cpp:134-148).

 The camera is three rotation angles in degrees and the eye's distance from
 the centre. A/D turn about Z, W/S about Y, X/Z about X, in either letter
 case; J moves the eye away and K towards the centre, clamped to [0.5, 20];
 ESC ends the program; every other key leaves the camera alone.
 */
module Camera {

  datatype Camera = Camera(rotZ: real, rotY: real, rotX: real, distance: real)

  /** The state the program starts in. */
  const Initial: Camera := Camera(0.0, 90.0, 0.0, 5.0)

  const RotationStep: real := 5.0
  const ZoomStep: real := 0.2
  const ZoomMin: real := 0.5
  const ZoomMax: real := 20.0

  const Escape: char := 27 as char

  /** What a key press leads to: the scene redrawn from a camera, or the end
      of the program. */
  datatype Reaction = Redisplay(camera: Camera) | Exit

  /** The keys the handler reacts to. */
  predicate Bound(key: char)
  {
    key in "aAdDwWsSxXzZjJkK" || key == Escape
  }

  predicate ZoomInRange(c: Camera)
  {
    ZoomMin <= c.distance <= ZoomMax
  }

  function Keyboard(c: Camera, key: char): (r: Reaction)
    ensures r.Exit? <==> key == Escape
    ensures !Bound(key) ==> r == Redisplay(c)
    ensures r.Redisplay? && ZoomInRange(c) ==> ZoomInRange(r.camera)
    ensures r.Redisplay? && key !in "jJkK" ==> r.camera.distance == c.distance
    ensures key in "jJ" ==> r.Redisplay? && r.camera.(distance := c.distance) == c
    ensures key in "jJ" && c.distance <= ZoomMax - ZoomStep ==> r.camera.distance == c.distance + ZoomStep
    ensures key in "jJ" && c.distance > ZoomMax - ZoomStep ==> r.camera.distance == ZoomMax
    ensures key in "kK" ==> r.Redisplay? && r.camera.(distance := c.distance) == c
    ensures key in "kK" && c.distance >= ZoomMin + ZoomStep ==> r.camera.distance == c.distance - ZoomStep
    ensures key in "kK" && c.distance < ZoomMin + ZoomStep ==> r.camera.distance == ZoomMin
  {
    match key
    case 'a' | 'A' => Redisplay(c.(rotZ := c.rotZ + RotationStep))
    case 'd' | 'D' => Redisplay(c.(rotZ := c.rotZ - RotationStep))
    case 'w' | 'W' => Redisplay(c.(rotY := c.rotY + RotationStep))
    case 's' | 'S' => Redisplay(c.(rotY := c.rotY - RotationStep))
    case 'x' | 'X' => Redisplay(c.(rotX := c.rotX + RotationStep))
    case 'z' | 'Z' => Redisplay(c.(rotX := c.rotX - RotationStep))
    case 'j' | 'J' =>
      var d := c.distance + ZoomStep;
      Redisplay(c.(distance := if d > ZoomMax then ZoomMax else d))
    case 'k' | 'K' =>
      var d := c.distance - ZoomStep;
      Redisplay(c.(distance := if d < ZoomMin then ZoomMin else d))
    case _ => if key == Escape then Exit else Redisplay(c)
  }

  /** The letter's upper-case form, for the handler's letter keys. */
  function Upper(key: char): char
  {
    if 'a' <= key <= 'z' then (key as int - 'a' as int + 'A' as int) as char else key
  }

  /** The handler ignores letter case. */
  lemma CaseInsensitive(c: Camera, key: char)
    requires key in "adwsxzjk"
    ensures Keyboard(c, key) == Keyboard(c, Upper(key))
  {
  }

  /** The three axes the camera turns about. */
  datatype Axis = ZAxis | YAxis | XAxis

  /** The camera's rotation about `a`, in degrees. */
  function Angle(c: Camera, a: Axis): real
  {
    match a
    case ZAxis => c.rotZ
    case YAxis => c.rotY
    case XAxis => c.rotX
  }

  /** `c1` is `c0` turned by `delta` degrees about `a`: that angle moves by
      `delta`, the other two angles and the distance stay. */
  predicate TurnedAbout(c0: Camera, c1: Camera, a: Axis, delta: real)
  {
    && c1.distance == c0.distance
    && Angle(c1, a) == Angle(c0, a) + delta
    && (a != ZAxis ==> c1.rotZ == c0.rotZ)
    && (a != YAxis ==> c1.rotY == c0.rotY)
    && (a != XAxis ==> c1.rotX == c0.rotX)
  }

  /** A/D turn about Z, W/S about Y and X/Z about X; A, W and X add one
      rotation step, D, S and Z take one away. Nothing else moves. */
  lemma RotationKeysTurnOneAngle(c: Camera, key: char)
    requires key in "aAdDwWsSxXzZ"
    ensures Keyboard(c, key).Redisplay?
    ensures key in "aA" ==> TurnedAbout(c, Keyboard(c, key).camera, ZAxis, RotationStep)
    ensures key in "dD" ==> TurnedAbout(c, Keyboard(c, key).camera, ZAxis, -RotationStep)
    ensures key in "wW" ==> TurnedAbout(c, Keyboard(c, key).camera, YAxis, RotationStep)
    ensures key in "sS" ==> TurnedAbout(c, Keyboard(c, key).camera, YAxis, -RotationStep)
    ensures key in "xX" ==> TurnedAbout(c, Keyboard(c, key).camera, XAxis, RotationStep)
    ensures key in "zZ" ==> TurnedAbout(c, Keyboard(c, key).camera, XAxis, -RotationStep)
  {
    var c1 := Keyboard(c, key).camera;
    if key == 'a' || key == 'A' {
      assert c1 == c.(rotZ := c.rotZ + RotationStep);
    } else if key == 'd' || key == 'D' {
      assert c1 == c.(rotZ := c.rotZ - RotationStep);
    } else if key == 'w' || key == 'W' {
      assert c1 == c.(rotY := c.rotY + RotationStep);
    } else if key == 's' || key == 'S' {
      assert c1 == c.(rotY := c.rotY - RotationStep);
    } else if key == 'x' || key == 'X' {
      assert c1 == c.(rotX := c.rotX + RotationStep);
    } else {
      assert c1 == c.(rotX := c.rotX - RotationStep);
    }
  }

  /** The key that turns the other way about the same axis. */
  function Opposite(key: char): char
  {
    match key
    case 'a' => 'd'
    case 'd' => 'a'
    case 'w' => 's'
    case 's' => 'w'
    case 'x' => 'z'
    case 'z' => 'x'
    case _ => key
  }

  /** Opposite rotation keys undo each other. */
  lemma OppositeKeysUndo(c: Camera, key: char)
    requires key in "adwsxz"
    ensures Keyboard(c, key).Redisplay?
    ensures Keyboard(Keyboard(c, key).camera, Opposite(key)) == Redisplay(c)
  {
    var c1 := Keyboard(c, key).camera;
    if key == 'a' {
      assert c1 == c.(rotZ := c.rotZ + RotationStep);
    } else if key == 'd' {
      assert c1 == c.(rotZ := c.rotZ - RotationStep);
    } else if key == 'w' {
      assert c1 == c.(rotY := c.rotY + RotationStep);
    } else if key == 's' {
      assert c1 == c.(rotY := c.rotY - RotationStep);
    } else if key == 'x' {
      assert c1 == c.(rotX := c.rotX + RotationStep);
    } else {
      assert c1 == c.(rotX := c.rotX - RotationStep);
    }
  }

  /** Zooming out then in returns to the same camera whenever neither press
      reaches a limit. */
  lemma ZoomUndo(c: Camera)
    requires ZoomMin <= c.distance <= ZoomMax - ZoomStep
    ensures Keyboard(Keyboard(c, 'j').camera, 'k') == Redisplay(c)
  {
  }

  /** J never brings the eye closer and K never moves it away, within the
      zoom range; both only touch the distance. */
  lemma ZoomMonotone(c: Camera)
    requires ZoomInRange(c)
    ensures Keyboard(c, 'j').camera.distance >= c.distance
    ensures Keyboard(c, 'k').camera.distance <= c.distance
    ensures Keyboard(c, 'j').camera.(distance := c.distance) == c
    ensures Keyboard(c, 'k').camera.(distance := c.distance) == c
  {
  }

  /** Any sequence of key presses, from any camera whose zoom is in range,
      keeps the zoom in range, and the program exits exactly when the
      sequence contains ESC. */
  function Replay(c: Camera, keys: seq<char>): (r: Reaction)
    requires ZoomInRange(c)
    ensures r.Redisplay? ==> ZoomInRange(r.camera)
    ensures r.Exit? <==> Escape in keys
    decreases |keys|
  {
    if keys == [] then Redisplay(c)
    else
      match Keyboard(c, keys[0])
      case Exit => Exit
      case Redisplay(c') => Replay(c', keys[1..])
  }

  lemma InitialInRange()
    ensures ZoomInRange(Initial)
  {
  }
}
