/** PlayerController: turns look input into a camera yaw and pitch, clamping
    the pitch between two limits and wrapping both angles by one turn, and
    forwards button input to the character motor. */
module Player {

  import opened Common
  import opened Motor

  /** `float.MaxValue`; `float.MinValue` is its negation. */
  const FloatMax: real := 340282346638528859811704183484516925440.0

  /** Look input below this squared magnitude is ignored. */
  const LookThreshold: real := 0.01

  /** Mathf.Clamp: below `min` gives `min`, otherwise above `max` gives `max`. */
  function Clamp(value: real, min: real, max: real): (r: real)
    ensures min <= max ==> min <= r <= max
    ensures min <= value <= max ==> r == value
    ensures value < min ==> r == min
    ensures min <= value && max < value ==> r == max
  {
    if value < min then min else if value > max then max else value
  }

  /** The two wrapping steps of ClampAngle: one turn added below -360, then
      one turn taken off above 360. */
  function WrapOnce(angle: real): (r: real)
    ensures angle < -360.0 ==> r == angle + 360.0
    ensures angle > 360.0 ==> r == angle - 360.0
    ensures -360.0 <= angle <= 360.0 ==> r == angle
  {
    var a := if angle < -360.0 then angle + 360.0 else angle;
    if a > 360.0 then a - 360.0 else a
  }

  function ClampAngle(angle: real, min: real, max: real): (r: real)
    ensures min <= max ==> min <= r <= max
    ensures min <= WrapOnce(angle) <= max ==> r == WrapOnce(angle)
  {
    Clamp(WrapOnce(angle), min, max)
  }

  /** One wrap only: an angle more than a turn beyond -360 or 360 is still
      beyond it afterwards, and clamping the yaw between the float limits
      does not bring it back. */
  lemma WrapIsSingle(angle: real)
    ensures angle < -720.0 ==> WrapOnce(angle) == angle + 360.0 < -360.0
    ensures angle > 720.0 ==> WrapOnce(angle) == angle - 360.0 > 360.0
    ensures -FloatMax <= angle < -720.0 ==> ClampAngle(angle, -FloatMax, FloatMax) < -360.0
    ensures 720.0 < angle <= FloatMax ==> ClampAngle(angle, -FloatMax, FloatMax) > 360.0
  {
  }

  /** Clamping yaw between the float limits never bounds it: for every float
      value it is the wrap alone. */
  lemma YawIsOnlyWrapped(yaw: real)
    requires -FloatMax <= yaw <= FloatMax
    ensures ClampAngle(yaw, -FloatMax, FloatMax) == WrapOnce(yaw)
  {
  }

  /** An angle within one turn of zero stays so after adding a change of at
      most one turn and wrapping once. */
  lemma WrapKeepsWithinOneTurn(angle: real, delta: real)
    requires -360.0 <= angle <= 360.0 && -360.0 <= delta <= 360.0
    ensures -360.0 <= WrapOnce(angle + delta) <= 360.0
  {
  }

  /** `IsCurrentDeviceMouse` is constantly true. */
  function IsCurrentDeviceMouse(): bool {
    true
  }

  /** The look multiplier: 1 for a mouse, the frame time otherwise. */
  function DeltaTimeMultiplier(deltaTime: real): (m: real)
    ensures IsCurrentDeviceMouse() ==> m == 1.0
  {
    if IsCurrentDeviceMouse() then 1.0 else deltaTime
  }

  /** The multiplier is 1 whatever the frame time, so look input is never
      scaled. */
  lemma MultiplierIsAlwaysOne(deltaTime: real)
    ensures DeltaTimeMultiplier(deltaTime) == 1.0
  {
  }

  /** The camera target's yaw and pitch. */
  datatype Aim = Aim(yaw: real, pitch: real)

  /** Look input counts only when it is large enough and the camera is not locked. */
  predicate TakesLook(look: Vec2, locked: bool) {
    SqrMagnitude2(look) >= LookThreshold && !locked
  }

  /** ControlRotation on the yaw and pitch. */
  function RotationStep(aim: Aim, look: Vec2, locked: bool, bottomClamp: real, topClamp: real, deltaTime: real): (r: Aim)
    ensures bottomClamp <= topClamp ==> bottomClamp <= r.pitch <= topClamp
    ensures -FloatMax <= aim.yaw + look.x <= FloatMax && TakesLook(look, locked) ==>
              r.yaw == WrapOnce(aim.yaw + look.x)
    ensures -FloatMax <= aim.yaw <= FloatMax && !TakesLook(look, locked) ==> r.yaw == WrapOnce(aim.yaw)
    // the pitch moves by the look input, wraps once and is held between the two limits
    ensures TakesLook(look, locked) && bottomClamp <= WrapOnce(aim.pitch + look.y) <= topClamp ==>
              r.pitch == WrapOnce(aim.pitch + look.y)
    ensures TakesLook(look, locked) && WrapOnce(aim.pitch + look.y) < bottomClamp ==> r.pitch == bottomClamp
    ensures TakesLook(look, locked) && bottomClamp <= WrapOnce(aim.pitch + look.y) && topClamp < WrapOnce(aim.pitch + look.y) ==>
              r.pitch == topClamp
    ensures !TakesLook(look, locked) && bottomClamp <= WrapOnce(aim.pitch) <= topClamp ==> r.pitch == WrapOnce(aim.pitch)
    ensures !TakesLook(look, locked) && WrapOnce(aim.pitch) < bottomClamp ==> r.pitch == bottomClamp
    ensures !TakesLook(look, locked) && bottomClamp <= WrapOnce(aim.pitch) && topClamp < WrapOnce(aim.pitch) ==>
              r.pitch == topClamp
  {
    var m := DeltaTimeMultiplier(deltaTime);
    var moved := if TakesLook(look, locked) then Aim(aim.yaw + look.x * m, aim.pitch + look.y * m) else aim;
    Aim(ClampAngle(moved.yaw, -FloatMax, FloatMax), ClampAngle(moved.pitch, bottomClamp, topClamp))
  }

  /** Look input below the threshold, or any look input while the camera is
      locked, leaves an aim already within its limits where it is. */
  lemma IgnoredLookKeepsAim(aim: Aim, look: Vec2, locked: bool, bottomClamp: real, topClamp: real, deltaTime: real)
    requires SqrMagnitude2(look) < LookThreshold || locked
    requires -360.0 <= aim.yaw <= 360.0 && bottomClamp <= aim.pitch <= topClamp
    requires -360.0 <= bottomClamp && topClamp <= 360.0
    ensures RotationStep(aim, look, locked, bottomClamp, topClamp, deltaTime) == aim
  {
    assert WrapOnce(aim.yaw) == aim.yaw;
    assert WrapOnce(aim.pitch) == aim.pitch;
  }

  /** Look input of exactly the threshold squared magnitude is taken: the
      threshold test is `>=`, not `>`, and the yaw moves by it. */
  lemma ThresholdLookIsTaken(aim: Aim, look: Vec2, bottomClamp: real, topClamp: real, deltaTime: real)
    requires SqrMagnitude2(look) == LookThreshold
    ensures TakesLook(look, false)
    ensures -FloatMax <= aim.yaw + look.x <= FloatMax ==>
              RotationStep(aim, look, false, bottomClamp, topClamp, deltaTime).yaw == WrapOnce(aim.yaw + look.x)
  {
  }

  class PlayerController {
    const motor: CharacterMotor
    const cursorInputForLook: bool
    const topClamp: real
    const bottomClamp: real
    const cameraAngleOverride: real
    const lockCameraPosition: bool
    var moveWish: Vec2
    var lookWish: Vec2
    var targetYaw: real
    var targetPitch: real
    /** The Euler angles written to the camera target's rotation. */
    var cameraTargetEuler: Vec3

    function AimState(): Aim
      reads this
    {
      Aim(targetYaw, targetPitch)
    }

    /** Awake: the yaw starts at the yaw of the camera target's current
        Euler angles `cameraEuler`, which Awake reads and does not write. The
        inspector defaults are 70 and -30 for the pitch limits, 0 for the
        override, and an unlocked camera that takes cursor look input. */
    constructor (motor: CharacterMotor, cameraEuler: Vec3, cursorInputForLook: bool,
                 topClamp: real, bottomClamp: real, cameraAngleOverride: real, lockCameraPosition: bool)
      ensures this.motor == motor && this.cursorInputForLook == cursorInputForLook
      ensures this.topClamp == topClamp && this.bottomClamp == bottomClamp
      ensures this.cameraAngleOverride == cameraAngleOverride && this.lockCameraPosition == lockCameraPosition
      ensures targetYaw == cameraEuler.y && targetPitch == 0.0
      ensures cameraTargetEuler == cameraEuler
      ensures moveWish == Vec2(0.0, 0.0) && lookWish == Vec2(0.0, 0.0)
    {
      this.motor := motor;
      this.cursorInputForLook := cursorInputForLook;
      this.topClamp := topClamp;
      this.bottomClamp := bottomClamp;
      this.cameraAngleOverride := cameraAngleOverride;
      this.lockCameraPosition := lockCameraPosition;
      moveWish := Vec2(0.0, 0.0);
      lookWish := Vec2(0.0, 0.0);
      targetYaw := cameraEuler.y;
      targetPitch := 0.0;
      cameraTargetEuler := cameraEuler;
    }

    method MoveInput(newMoveDirection: Vec2)
      modifies this`moveWish
      ensures moveWish == newMoveDirection
    {
      moveWish := newMoveDirection;
    }

    method LookInput(newLookDirection: Vec2)
      modifies this`lookWish
      ensures lookWish == newLookDirection
    {
      lookWish := newLookDirection;
    }

    /** OnLook: look input is taken only while the cursor drives the look. */
    method OnLook(value: Vec2)
      modifies this`lookWish
      ensures lookWish == if cursorInputForLook then value else old(lookWish)
    {
      if cursorInputForLook {
        LookInput(value);
      }
    }

    method JumpInput(newJumpState: bool)
      modifies motor`jumpWish
      ensures motor.jumpWish == newJumpState
    {
      motor.jumpWish := newJumpState;
    }

    method CrouchInput(newCrouchState: bool)
      modifies motor`crouchWish
      ensures motor.crouchWish == newCrouchState
    {
      motor.crouchWish := newCrouchState;
    }

    method SprintInput(newSprintState: bool)
      modifies motor`sprintWish
      ensures motor.sprintWish == newSprintState
    {
      motor.sprintWish := newSprintState;
    }

    /** Update, built with the input system (the legacy input polling block
        is compiled out): the move input goes to the motor twice, as is
        (widened with z = 0) and turned by the camera yaw onto the ground
        plane. */
    method Update()
      modifies motor`rawMoveWish, motor`moveWish
      ensures motor.rawMoveWish == Vec3(moveWish.x, moveWish.y, 0.0)
      ensures motor.moveWish == YawRotated(targetYaw, Vec3(moveWish.x, 0.0, moveWish.y))
    {
      motor.rawMoveWish := Vec3(moveWish.x, moveWish.y, 0.0);
      var rotatedMoveWish := YawRotated(targetYaw, Vec3(moveWish.x, 0.0, moveWish.y));
      motor.moveWish := rotatedMoveWish;
    }

    /** LateUpdate's ControlRotation. */
    method ControlRotation(deltaTime: real)
      modifies this`targetYaw, this`targetPitch, this`cameraTargetEuler
      ensures AimState() == RotationStep(old(AimState()), lookWish, lockCameraPosition, bottomClamp, topClamp, deltaTime)
      ensures cameraTargetEuler == Vec3(targetPitch + cameraAngleOverride, targetYaw, 0.0)
    {
      if SqrMagnitude2(lookWish) >= LookThreshold && !lockCameraPosition {
        var deltaTimeMultiplier := DeltaTimeMultiplier(deltaTime);
        targetYaw := targetYaw + lookWish.x * deltaTimeMultiplier;
        targetPitch := targetPitch + lookWish.y * deltaTimeMultiplier;
      }
      targetYaw := ClampAngle(targetYaw, -FloatMax, FloatMax);
      targetPitch := ClampAngle(targetPitch, bottomClamp, topClamp);
      cameraTargetEuler := Vec3(targetPitch + cameraAngleOverride, targetYaw, 0.0);
    }
  }
}
