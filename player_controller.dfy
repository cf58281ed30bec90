/** The walking player: the movement keys turn the camera's heading by a
    fixed offset per key combination, and a grounded player holding any of
    them turns a tenth of the way toward that heading and steps forward; the
    camera's capsule then follows the player's mesh. */
module PlayerController {
  import opened MathModel
  import Keys

  /** The yaw offset the eight independent tests add up to, for the keys w,
      a, s and d and `Math.PI` as `pi`: w alone adds nothing, s alone pi,
      a alone pi / 2 and d alone -pi / 2; each diagonal adds its own
      multiple of pi / 4. */
  function HeadingOffset(pi: real, w: bool, a: bool, s: bool, d: bool): real {
    var angle45 := pi / 4.0;
    var angle90 := pi / 2.0;
    var angle135 := angle45 + angle90;
    (if s && !d && !a then pi else 0.0)
    + (if a && !w && !s then angle90 else 0.0)
    - (if d && !w && !s then angle90 else 0.0)
    - (if w && d then angle45 else 0.0)
    + (if w && a then angle45 else 0.0)
    - (if s && d then angle135 else 0.0)
    + (if s && a then angle135 else 0.0)
  }

  /** The heading each combination of keys walks toward, relative to the
      camera. Opposite keys held alone do not cancel the same way: w + s
      turns around, a + d walks straight on. */
  lemma HeadingTable(pi: real)
    ensures HeadingOffset(pi, false, false, false, false) == 0.0
    ensures HeadingOffset(pi, true, false, false, false) == 0.0
    ensures HeadingOffset(pi, false, false, true, false) == pi
    ensures HeadingOffset(pi, false, true, false, false) == pi / 2.0
    ensures HeadingOffset(pi, false, false, false, true) == -pi / 2.0
    ensures HeadingOffset(pi, true, false, false, true) == -pi / 4.0
    ensures HeadingOffset(pi, true, true, false, false) == pi / 4.0
    ensures HeadingOffset(pi, false, false, true, true) == -3.0 * pi / 4.0
    ensures HeadingOffset(pi, false, true, true, false) == 3.0 * pi / 4.0
    ensures HeadingOffset(pi, true, false, true, false) == pi
    ensures HeadingOffset(pi, false, true, false, true) == 0.0
  {
  }

  /** Whatever keys are held, the offset stays within half a turn either
      way. */
  lemma HeadingWithinHalfTurn(pi: real, w: bool, a: bool, s: bool, d: bool)
    requires pi > 0.0
    ensures -pi <= HeadingOffset(pi, w, a, s, d) <= pi
  {
  }

  /** The sequential tests on `euler.y`, starting from the camera's yaw. */
  method AdjustHeading(yaw: real, pi: real, w: bool, a: bool, s: bool, d: bool) returns (y: real)
    ensures y == yaw + HeadingOffset(pi, w, a, s, d)
  {
    var angle180 := pi;
    var angle45 := angle180 / 4.0;
    var angle90 := angle180 / 2.0;
    var angle135 := angle45 + angle90;
    y := yaw;
    if w && !d && !a {
      y := y;
    }
    if s && !d && !a {
      y := y + angle180;
    }
    if a && !w && !s {
      y := y + angle90;
    }
    if d && !w && !s {
      y := y - angle90;
    }
    if w && d {
      y := y - angle45;
    }
    if w && a {
      y := y + angle45;
    }
    if s && d {
      y := y - angle135;
    }
    if s && a {
      y := y + angle135;
    }
  }

  /** The player's mesh: where it stands and which way it faces. */
  class PlayerMesh {
    var position: Vec3
    var rotation: Quat

    constructor (position: Vec3, rotation: Quat)
      ensures this.position == position && this.rotation == rotation
    {
      this.position := position;
      this.rotation := rotation;
    }
  }

  /** The player-capsule component; its mesh is null until created. */
  class PlayerCapsuleComponent {
    var mesh: PlayerMesh?

    constructor ()
      ensures mesh == null
    {
      mesh := null;
    }
  }

  /** The camera's parent mesh, which follows the player. */
  class CameraCapsule {
    var position: Vec3

    constructor (position: Vec3)
      ensures this.position == position
    {
      this.position := position;
    }
  }

  datatype PlayerStep = NoMesh | Stood | Walked

  /** Whether any movement key is held. */
  predicate AnyMovementKey(w: bool, a: bool, s: bool, d: bool) {
    w || s || a || d
  }

  /** The Euler angles facing along `cameraEuler` and turned by the keys'
      offset. */
  function TargetRotation(cameraEuler: Vec3, pi: real, w: bool, a: bool, s: bool, d: bool): Quat {
    FromEulerAngles(cameraEuler.x, cameraEuler.y + HeadingOffset(pi, w, a, s, d), cameraEuler.z)
  }

  /** `updateEntity`. The camera's flattened look direction, as Euler
      angles, the downward ray's hit and the step `translate` makes along
      the mesh's local -z for a rotation are given. */
  method UpdateEntity(capsule: PlayerCapsuleComponent, keys: Keys.KeysComponent, cameraCapsule: CameraCapsule,
                      pi: real, cameraEuler: Vec3, grounded: bool, localStep: Quat -> Vec3)
    returns (step: PlayerStep)
    modifies capsule.mesh, cameraCapsule
    ensures capsule.mesh == null ==> step == NoMesh && unchanged(cameraCapsule)
    ensures capsule.mesh != null ==>
      var w, a, s, d := keys.GetKeyState("w"), keys.GetKeyState("a"), keys.GetKeyState("s"), keys.GetKeyState("d");
      && (step == Walked <==> grounded && AnyMovementKey(w, a, s, d))
      && step != NoMesh
      && (step == Walked ==>
            && capsule.mesh.rotation == Slerp(old(capsule.mesh.rotation), TargetRotation(cameraEuler, pi, w, a, s, d), 0.1)
            && capsule.mesh.position == Add(old(capsule.mesh.position), localStep(capsule.mesh.rotation)))
      && (step == Stood ==> unchanged(capsule.mesh))
      && cameraCapsule.position == capsule.mesh.position
  {
    if capsule.mesh == null {
      return NoMesh;
    }
    var mesh := capsule.mesh;
    var w, a, s, d := keys.GetKeyState("w"), keys.GetKeyState("a"), keys.GetKeyState("s"), keys.GetKeyState("d");
    var yaw := AdjustHeading(cameraEuler.y, pi, w, a, s, d);
    step := Stood;
    if grounded {
      if w || s || a || d {
        var target := FromEulerAngles(cameraEuler.x, yaw, cameraEuler.z);
        mesh.rotation := Slerp(mesh.rotation, target, 0.1);
        mesh.position := Add(mesh.position, localStep(mesh.rotation));
        step := Walked;
      }
    }
    cameraCapsule.position := mesh.position;
  }
}
