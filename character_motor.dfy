/** The character motor's movement-mode machine: Grounded, Falling, Hanging
    and Floating, the vertical-velocity and timeout rules of a tick, and the
    ledge snap. The physics probes a tick makes (ground sphere, ledge
    overlap, ClosestPoint on the ledge collider) arrive as inputs; the
    horizontal movement (GroundMove, HangMove) is not part of this model. */
module Motor {

  import opened Common

  datatype MoveState = Grounded | Falling | Floating | Hanging

  /** Names a ledge collider. */
  type LedgeId = nat

  /** `_terminalVelocity`; it is positive, so it never limits a descent. */
  const TerminalVelocity: real := 53.0
  /** What a grounded negative vertical velocity is reset to. */
  const RestingVelocity: real := -2.0
  /** Speed at which Hang pulls the character onto its hanging pose. */
  const SnapSpeed: real := 10.0
  /** Hang stops pulling once the pose is nearer than this. */
  const SnapTolerance: real := 0.1

  /** The inspector settings a tick reads. `jumpVelocity` stands for
      sqrt(JumpHeight * -2 * Gravity). */
  datatype Tuning = Tuning(
    moveSpeed: real,
    sprintSpeed: real,
    jumpVelocity: real,
    gravity: real,
    jumpTimeout: real,
    fallTimeout: real,
    ledgeHangOffset: real)

  /** The fields a tick reads and writes. */
  datatype MotorState = MotorState(
    mode: MoveState,
    verticalVelocity: real,
    jumpTimeoutDelta: real,
    fallTimeoutDelta: real,
    jumpWish: bool,
    crouchWish: bool,
    sprintWish: bool,
    rawMoveWish: Vec3,
    moveWish: Wish,
    ledgeVolume: Option<LedgeId>,
    ledgeHangPosition: Vec3)

  /** What the engine answers during one tick, all taken at the position
      the character has when the tick starts. */
  datatype Senses = Senses(
    deltaTime: real,
    floatKeyDown: bool,                  // Input.GetKeyDown(KeyCode.F)
    groundHit: bool,                     // Physics.CheckSphere below the feet
    ledgeOverlaps: seq<LedgeId>,         // Physics.OverlapSphere above the head
    position: Vec3,
    height: real,                        // CharacterController.height
    closestPoint: (LedgeId, Vec3) -> Vec3,
    ledgeForward: LedgeId -> Vec3,       // the ledge transform's forward axis
    directionY: Vec3 -> real)            // the y component of v.normalized

  /** Collider.ClosestPoint on a ledge, as the tick's probe answers it. */
  function ClosestPoint(sense: Senses, ledge: LedgeId, p: Vec3): Vec3 {
    sense.closestPoint(ledge, p)
  }

  /** The forward axis of a ledge's transform. */
  function LedgeForward(sense: Senses, ledge: LedgeId): Vec3 {
    sense.ledgeForward(ledge)
  }

  /** The y component of `v.normalized`. */
  function DirectionY(sense: Senses, v: Vec3): real {
    sense.directionY(v)
  }

  /** What makes `directionY` the y component of a normalised vector
      without taking a square root: it has the sign of `v.y`, and its
      square is `v.y` squared over the squared length. */
  ghost predicate NormalizesY(sense: Senses) {
    forall v: Vec3 {:trigger DirectionY(sense, v)} ::
      && (v.y > 0.0 ==> DirectionY(sense, v) > 0.0)
      && (v.y < 0.0 ==> DirectionY(sense, v) < 0.0)
      && (v.y == 0.0 ==> DirectionY(sense, v) == 0.0)
      && DirectionY(sense, v) * DirectionY(sense, v) * SqrMagnitude(v) == v.y * v.y
  }

  /** A hanging character always knows which ledge it hangs from. */
  predicate MotorInvariant(s: MotorState) {
    s.mode == Hanging ==> s.ledgeVolume.Some?
  }

  function Cross(a: Vec3, b: Vec3): Vec3 {
    Vec3(a.y * b.z - a.z * b.y, a.z * b.x - a.x * b.z, a.x * b.y - a.y * b.x)
  }

  /** A timeout counts down only while it is not negative. */
  function CountDown(delta: real, dt: real): real {
    if delta >= 0.0 then delta - dt else delta
  }

  /** The F key: Floating and Falling swap, every other mode starts floating. */
  function ToggleFloat(mode: MoveState): (r: MoveState)
    ensures r == Floating <==> mode != Floating
    ensures r == Falling <==> mode == Floating
  {
    if mode == Floating then Falling else Floating
  }

  /** JumpAndGravity. */
  function JumpAndGravityStep(s: MotorState, t: Tuning, dt: real): (r: MotorState)
    ensures !r.jumpWish
    // only the vertical velocity, the two timeouts and the jump wish change
    ensures r == s.(jumpWish := false, verticalVelocity := r.verticalVelocity,
                    jumpTimeoutDelta := r.jumpTimeoutDelta, fallTimeoutDelta := r.fallTimeoutDelta)
    ensures r.mode == s.mode && r.ledgeVolume == s.ledgeVolume
    ensures s.mode == Grounded ==>
              && r.fallTimeoutDelta == t.fallTimeout
              && r.jumpTimeoutDelta == CountDown(s.jumpTimeoutDelta, dt)
    ensures s.mode != Grounded ==>
              && r.jumpTimeoutDelta == t.jumpTimeout
              && r.fallTimeoutDelta == CountDown(s.fallTimeoutDelta, dt)
    // grounded: a jump launches at the jump velocity once the jump timeout has run out
    ensures s.mode == Grounded && s.jumpWish && s.jumpTimeoutDelta <= 0.0 ==>
              r.verticalVelocity == (if t.jumpVelocity < TerminalVelocity then t.jumpVelocity + t.gravity * dt
                                     else t.jumpVelocity)
    // grounded without a jump: a downward velocity rests at -2, any other is kept, before gravity
    ensures s.mode == Grounded && !(s.jumpWish && s.jumpTimeoutDelta <= 0.0) && s.verticalVelocity < 0.0 ==>
              r.verticalVelocity == RestingVelocity + t.gravity * dt
    ensures s.mode == Grounded && !(s.jumpWish && s.jumpTimeoutDelta <= 0.0) && s.verticalVelocity >= 0.0 ==>
              r.verticalVelocity == (if s.verticalVelocity < TerminalVelocity then s.verticalVelocity + t.gravity * dt
                                     else s.verticalVelocity)
    // airborne: gravity is added below the (positive) terminal velocity, and nothing else changes it
    ensures s.mode != Grounded ==>
              r.verticalVelocity == (if s.verticalVelocity < TerminalVelocity then s.verticalVelocity + t.gravity * dt
                                     else s.verticalVelocity)
  {
    var s1 :=
      if s.mode == Grounded then
        var v0 := if s.verticalVelocity < 0.0 then RestingVelocity else s.verticalVelocity;
        var v1 := if s.jumpWish && s.jumpTimeoutDelta <= 0.0 then t.jumpVelocity else v0;
        s.(fallTimeoutDelta := t.fallTimeout, verticalVelocity := v1,
           jumpTimeoutDelta := CountDown(s.jumpTimeoutDelta, dt))
      else
        s.(jumpTimeoutDelta := t.jumpTimeout, fallTimeoutDelta := CountDown(s.fallTimeoutDelta, dt));
    var v := if s1.verticalVelocity < TerminalVelocity then s1.verticalVelocity + t.gravity * dt
             else s1.verticalVelocity;
    s1.(jumpWish := false, verticalVelocity := v)
  }

  /** GroundedCheck: the probe alone decides between Grounded and Falling. */
  function GroundedCheckStep(s: MotorState, isGrounded: bool): (r: MotorState)
    ensures r.mode == Grounded <==> isGrounded
    ensures r.mode == Falling <==> !isGrounded
    ensures r.(mode := s.mode) == s
  {
    s.(mode := if isGrounded then Grounded else Falling)
  }

  /** LedgeCheck: while not descending, any ledge overlap makes the
      character hang from the first one found, anchored at the ledge's
      closest point to a spot 10 above the character; nothing else changes. */
  function LedgeCheckStep(s: MotorState, sense: Senses): (r: MotorState)
    ensures s.verticalVelocity < 0.0 || |sense.ledgeOverlaps| == 0 ==> r == s
    ensures s.verticalVelocity >= 0.0 && |sense.ledgeOverlaps| > 0 ==>
              r == s.(mode := Hanging, ledgeVolume := Some(sense.ledgeOverlaps[0]),
                      ledgeHangPosition := ClosestPoint(sense, sense.ledgeOverlaps[0], Add(sense.position, Scale(Up, 10.0))))
  {
    if s.verticalVelocity < 0.0 then s
    else if |sense.ledgeOverlaps| > 0 then
      var ledge := sense.ledgeOverlaps[0];
      s.(mode := Hanging, ledgeVolume := Some(ledge),
         ledgeHangPosition := ClosestPoint(sense, ledge, Add(sense.position, Scale(Up, 10.0))))
    else s
  }

  /** The speed a move aims for: sprinting or walking. */
  function TargetSpeed(sprint: bool, t: Tuning): real {
    if sprint then t.sprintSpeed else t.moveSpeed
  }

  function Dot(a: Vec3, b: Vec3): real {
    a.x * b.x + a.y * b.y + a.z * b.z
  }

  /** How far the hanging point moves this tick: sideways along the ledge,
      by the horizontal move input at walking or sprinting speed. */
  function LedgeSlide(s: MotorState, t: Tuning, sense: Senses, ledge: LedgeId): (d: Vec3)
    // the slide is horizontal and across the ledge's forward axis
    ensures d.y == 0.0
    ensures Dot(d, LedgeForward(sense, ledge)) == 0.0
    // no sideways input, no slide
    ensures s.rawMoveWish.x == 0.0 ==> d == Zero3
  {
    var targetSpeed := TargetSpeed(s.sprintWish, t);
    var along := Cross(Up, Scale(LedgeForward(sense, ledge), -1.0));
    Scale(along, s.rawMoveWish.x * targetSpeed * sense.deltaTime)
  }

  /** Where Hang moves the hanging point this tick: the slid point,
      projected back onto the ledge collider from ten units above. */
  function SlidHangPosition(s: MotorState, t: Tuning, sense: Senses, ledge: LedgeId): (p: Vec3)
    ensures p == ClosestPoint(sense, ledge, Add(Add(s.ledgeHangPosition, LedgeSlide(s, t, sense, ledge)), Scale(Up, 10.0)))
  {
    var wishPosition := Add(s.ledgeHangPosition, LedgeSlide(s, t, sense, ledge));
    ClosestPoint(sense, ledge, Add(wishPosition, Scale(Up, 10.0)))
  }

  /** The offset from the character to the pose it hangs in below a hanging point. */
  function OffsetToPose(hangPosition: Vec3, t: Tuning, sense: Senses): Vec3 {
    var ledgePose := Sub(Sub(hangPosition, Scale(Up, sense.height)), Scale(Up, t.ledgeHangOffset));
    Sub(ledgePose, sense.position)
  }

  /** The y component of a normalised non-zero vector lies in [-1, 1]. */
  lemma NormalizedYIsUnit(sense: Senses, v: Vec3)
    ensures NormalizesY(sense) && SqrMagnitude(v) > 0.0 ==> DirectionY(sense, v) * DirectionY(sense, v) <= 1.0
  {
    if NormalizesY(sense) && SqrMagnitude(v) > 0.0 {
      var d := DirectionY(sense, v);
      var m := SqrMagnitude(v);
      var e := d * d;
      var q := v.y * v.y;
      assert m == v.x * v.x + q + v.z * v.z;
      assert v.x * v.x >= 0.0 && v.z * v.z >= 0.0;
      assert e * m == q;
      CancelPositive(e, m, q);
    }
  }

  /** A factor that scales a positive number down to at most itself is at most 1. */
  lemma CancelPositive(e: real, m: real, q: real)
    requires m > 0.0 && e * m == q && q <= m
    ensures e <= 1.0
  {
  }

  /** The vertical velocity Hang snaps with toward the pose at `offset`:
      the snap speed along the normalised offset, or 0 once within 0.1
      (|v| > 0.1 is written as |v|^2 > 0.01). */
  function SnapVelocity(sense: Senses, offset: Vec3): (v: real)
    ensures SqrMagnitude(offset) <= SnapTolerance * SnapTolerance ==> v == 0.0
    // it moves vertically toward the pose, never faster than the snap speed
    ensures NormalizesY(sense) ==>
              && (offset.y > 0.0 ==> v >= 0.0)
              && (offset.y < 0.0 ==> v <= 0.0)
              && (offset.y == 0.0 ==> v == 0.0)
              && v * v <= SnapSpeed * SnapSpeed
  {
    if SqrMagnitude(offset) > SnapTolerance * SnapTolerance then
      NormalizedYIsUnit(sense, offset);
      DirectionY(sense, offset) * SnapSpeed
    else 0.0
  }

  /** Hang: a jump lets go of the ledge (and nothing else happens this tick);
      otherwise the hanging point slides along the ledge and the vertical
      velocity pulls toward the hanging pose, or is 0 once within 0.1.
      The magnitude test is written on squares: |v| > 0.1 iff |v|^2 > 0.01. */
  function HangStep(s: MotorState, t: Tuning, sense: Senses): (r: MotorState)
    requires s.ledgeVolume.Some?
    ensures s.jumpWish ==> r == s.(mode := Falling)
    ensures !s.jumpWish ==>
              && r.mode == s.mode
              && r.ledgeVolume == s.ledgeVolume
              && r.jumpWish == s.jumpWish
              && r.ledgeHangPosition == SlidHangPosition(s, t, sense, s.ledgeVolume.value)
              && r.verticalVelocity == SnapVelocity(sense, OffsetToPose(r.ledgeHangPosition, t, sense))
    ensures !s.jumpWish ==> r == s.(ledgeHangPosition := r.ledgeHangPosition, verticalVelocity := r.verticalVelocity)
  {
    if s.jumpWish then s.(mode := Falling)
    else
      var hangPosition := SlidHangPosition(s, t, sense, s.ledgeVolume.value);
      var offset := OffsetToPose(hangPosition, t, sense);
      s.(ledgeHangPosition := hangPosition, verticalVelocity := SnapVelocity(sense, offset))
  }

  /** Fly: up with jump, down with crouch, at walking speed; no gravity, and
      the jump wish is left set. */
  function FlyStep(s: MotorState, t: Tuning): (r: MotorState)
    ensures r.(verticalVelocity := s.verticalVelocity) == s
    ensures s.jumpWish == s.crouchWish ==> r.verticalVelocity == 0.0
    ensures s.jumpWish && !s.crouchWish ==> r.verticalVelocity == t.moveSpeed
    ensures !s.jumpWish && s.crouchWish ==> r.verticalVelocity == -t.moveSpeed
  {
    var flyAxis := (if s.jumpWish then 1.0 else 0.0) - (if s.crouchWish then 1.0 else 0.0);
    s.(verticalVelocity := flyAxis * t.moveSpeed)
  }

  /** Update: the F key, then the mode's own steps. */
  function Tick(s: MotorState, t: Tuning, sense: Senses): (r: MotorState)
    requires MotorInvariant(s)
    ensures MotorInvariant(r)
    // GroundedCheck is the only way out of Grounded
    ensures !sense.floatKeyDown && s.mode == Grounded ==>
              r.mode == (if sense.groundHit then Grounded else Falling)
    // a falling character catches a ledge exactly when it is not descending
    // after gravity and the ledge probe finds one
    ensures !sense.floatKeyDown && s.mode == Falling ==>
              (r.mode == Hanging <==>
                 JumpAndGravityStep(s, t, sense.deltaTime).verticalVelocity >= 0.0 && |sense.ledgeOverlaps| > 0)
    ensures !sense.floatKeyDown && s.mode == Hanging ==>
              r.mode == (if s.jumpWish then Falling else Hanging)
    ensures !sense.floatKeyDown && s.mode == Floating ==> r.mode == Floating
    ensures r.mode == Floating <==> (s.mode == Floating) != sense.floatKeyDown
    ensures r.mode == Grounded ==>
              && sense.groundHit
              && (if sense.floatKeyDown then s.mode == Floating else s.mode == Grounded || s.mode == Falling)
    ensures r.mode == Hanging && s.mode != Hanging ==>
              (s.mode == Falling && !sense.floatKeyDown) || (s.mode == Floating && sense.floatKeyDown)
  {
    var s0 := if sense.floatKeyDown then s.(mode := ToggleFloat(s.mode)) else s;
    match s0.mode
    case Grounded =>
      GroundedCheckStep(JumpAndGravityStep(s0, t, sense.deltaTime), sense.groundHit)
    case Falling =>
      var s1 := LedgeCheckStep(JumpAndGravityStep(s0, t, sense.deltaTime), sense);
      if s1.mode != Falling then s1 else GroundedCheckStep(s1, sense.groundHit)
    case Hanging =>
      HangStep(s0, t, sense)
    case Floating =>
      FlyStep(s0, t)
  }

  /** The movement-mode machine of one character. */
  class CharacterMotor {
    const tuning: Tuning
    var mode: MoveState
    var verticalVelocity: real
    var jumpTimeoutDelta: real
    var fallTimeoutDelta: real
    var jumpWish: bool
    var crouchWish: bool
    var sprintWish: bool
    var rawMoveWish: Vec3
    var moveWish: Wish
    var ledgeVolume: Option<LedgeId>
    var ledgeHangPosition: Vec3

    function State(): MotorState
      reads this
    {
      MotorState(mode, verticalVelocity, jumpTimeoutDelta, fallTimeoutDelta, jumpWish,
                 crouchWish, sprintWish, rawMoveWish, moveWish, ledgeVolume, ledgeHangPosition)
    }

    predicate Valid()
      reads this
    {
      MotorInvariant(State())
    }

    /** The `Grounded` property. */
    function IsGrounded(): (b: bool)
      reads this
      ensures b <==> mode == MoveState.Grounded
    {
      mode == MoveState.Grounded
    }

    /** The field initialisers, Awake and Start: a new character is falling,
        with both timeouts at their full length. */
    constructor (tuning: Tuning)
      ensures this.tuning == tuning
      ensures mode == Falling && verticalVelocity == 0.0
      ensures jumpTimeoutDelta == tuning.jumpTimeout && fallTimeoutDelta == tuning.fallTimeout
      ensures !jumpWish && !crouchWish && !sprintWish
      ensures rawMoveWish == Zero3 && moveWish == Raw(Zero3)
      ensures ledgeVolume == None
      ensures Valid()
    {
      this.tuning := tuning;
      mode := Falling;
      verticalVelocity := 0.0;
      jumpTimeoutDelta := tuning.jumpTimeout;
      fallTimeoutDelta := tuning.fallTimeout;
      jumpWish, crouchWish, sprintWish := false, false, false;
      rawMoveWish := Zero3;
      moveWish := Raw(Zero3);
      ledgeVolume := None;
      ledgeHangPosition := Zero3;
    }

    method Update(sense: Senses)
      requires Valid()
      modifies this
      ensures State() == Tick(old(State()), tuning, sense)
      ensures Valid()
    {
      if sense.floatKeyDown {
        mode := if mode == Floating then Falling else Floating;
      }
      match mode
      case Grounded =>
        JumpAndGravity(sense.deltaTime);
        GroundedCheck(sense.groundHit);
      case Falling =>
        JumpAndGravity(sense.deltaTime);
        LedgeCheck(sense);
        if mode == Falling {
          GroundedCheck(sense.groundHit);
        }
      case Hanging =>
        Hang(sense);
      case Floating =>
        Fly();
    }

    method LedgeCheck(sense: Senses)
      modifies this
      ensures State() == LedgeCheckStep(old(State()), sense)
    {
      if verticalVelocity < 0.0 {
        return;
      }
      if |sense.ledgeOverlaps| > 0 {
        mode := Hanging;
        ledgeVolume := Some(sense.ledgeOverlaps[0]);
        ledgeHangPosition := sense.closestPoint(ledgeVolume.value, Add(sense.position, Scale(Up, 10.0)));
      }
    }

    method Hang(sense: Senses)
      requires ledgeVolume.Some?
      modifies this
      ensures State() == HangStep(old(State()), tuning, sense)
    {
      if jumpWish {
        mode := Falling;
        return;
      }
      ledgeHangPosition := SlidHangPosition(State(), tuning, sense, ledgeVolume.value);
      var offsetToPose := OffsetToPose(ledgeHangPosition, tuning, sense);
      if SqrMagnitude(offsetToPose) > SnapTolerance * SnapTolerance {
        verticalVelocity := DirectionY(sense, offsetToPose) * SnapSpeed;
      } else {
        verticalVelocity := 0.0;
      }
    }

    method GroundedCheck(isGrounded: bool)
      modifies this
      ensures State() == GroundedCheckStep(old(State()), isGrounded)
    {
      mode := if isGrounded then Grounded else Falling;
    }

    method JumpAndGravity(dt: real)
      modifies this
      ensures State() == JumpAndGravityStep(old(State()), tuning, dt)
    {
      if IsGrounded() {
        fallTimeoutDelta := tuning.fallTimeout;
        if verticalVelocity < 0.0 {
          verticalVelocity := RestingVelocity;
        }
        if jumpWish && jumpTimeoutDelta <= 0.0 {
          verticalVelocity := tuning.jumpVelocity;
        }
        if jumpTimeoutDelta >= 0.0 {
          jumpTimeoutDelta := jumpTimeoutDelta - dt;
        }
      } else {
        jumpTimeoutDelta := tuning.jumpTimeout;
        if fallTimeoutDelta >= 0.0 {
          fallTimeoutDelta := fallTimeoutDelta - dt;
        }
      }
      jumpWish := false;
      if verticalVelocity < TerminalVelocity {
        verticalVelocity := verticalVelocity + tuning.gravity * dt;
      }
    }

    method Fly()
      modifies this
      ensures State() == FlyStep(old(State()), tuning)
    {
      var flyAxis := 0.0;
      if jumpWish {
        flyAxis := flyAxis + 1.0;
      }
      if crouchWish {
        flyAxis := flyAxis - 1.0;
      }
      verticalVelocity := flyAxis * tuning.moveSpeed;
    }
  }

  // ---------------------------------------------------------------------
  // Properties over several ticks

  /** `n` ticks of JumpAndGravity. */
  function Repeat(s: MotorState, t: Tuning, dt: real, n: nat): (r: MotorState)
    ensures r.mode == s.mode && r.ledgeVolume == s.ledgeVolume
  {
    if n == 0 then s else JumpAndGravityStep(Repeat(s, t, dt, n - 1), t, dt)
  }

  /** `n` ticks of gravity `g` added one by one to `v0`. */
  function FreeFall(v0: real, g: real, n: nat): real {
    if n == 0 then v0 else FreeFall(v0, g, n - 1) + g
  }

  /** Adding `g` one tick at a time is adding `n * g` at once. */
  lemma {:induction false} FreeFallClosedForm(v0: real, g: real, n: nat)
    ensures FreeFall(v0, g, n) == v0 + (n as real) * g
  {
    if n > 0 {
      FreeFallClosedForm(v0, g, n - 1);
      OneMoreTick(v0, n - 1, n, g);
    }
  }

  /** Adding one more tick of gravity to `k` ticks makes `n = k + 1` ticks. */
  lemma OneMoreTick(v0: real, k: nat, n: nat, g: real)
    requires n == k + 1
    ensures v0 + (k as real) * g + g == v0 + (n as real) * g
  {
  }

  /** Under a downward (or zero) pull the velocity never rises. */
  lemma {:induction false} FreeFallDescends(v0: real, g: real, n: nat)
    requires g <= 0.0
    ensures FreeFall(v0, g, n) <= v0
  {
    if n > 0 {
      FreeFallDescends(v0, g, n - 1);
    }
  }

  /** One airborne step below the terminal velocity adds exactly one tick of gravity. */
  lemma AirborneStep(s: MotorState, t: Tuning, dt: real)
    requires s.mode != Grounded && s.verticalVelocity < TerminalVelocity
    ensures JumpAndGravityStep(s, t, dt).mode == s.mode
    ensures JumpAndGravityStep(s, t, dt).verticalVelocity == s.verticalVelocity + t.gravity * dt
  {
  }

  /** Airborne, every run of JumpAndGravity adds one tick of gravity. */
  lemma {:induction false} FallingSteps(s: MotorState, t: Tuning, dt: real, n: nat)
    requires s.mode != Grounded && s.verticalVelocity < TerminalVelocity
    requires t.gravity * dt <= 0.0
    ensures Repeat(s, t, dt, n).mode == s.mode
    ensures Repeat(s, t, dt, n).verticalVelocity == FreeFall(s.verticalVelocity, t.gravity * dt, n)
  {
    if n > 0 {
      FallingSteps(s, t, dt, n - 1);
      FreeFallDescends(s.verticalVelocity, t.gravity * dt, n - 1);
      AirborneStep(Repeat(s, t, dt, n - 1), t, dt);
    }
  }

  /** Away from the ground the vertical velocity only ever gains gravity:
      the positive terminal velocity never caps a fall. */
  lemma FallingNeverCapped(s: MotorState, t: Tuning, dt: real, n: nat)
    requires s.mode != Grounded && s.verticalVelocity < TerminalVelocity
    requires t.gravity * dt <= 0.0
    ensures Repeat(s, t, dt, n).mode == s.mode
    ensures Repeat(s, t, dt, n).verticalVelocity == s.verticalVelocity + (n as real) * (t.gravity * dt)
  {
    FallingSteps(s, t, dt, n);
    FreeFallClosedForm(s.verticalVelocity, t.gravity * dt, n);
  }

  /** `n` Updates, each answered by the same probes. */
  function Ticks(s: MotorState, t: Tuning, sense: Senses, n: nat): (r: MotorState)
    requires MotorInvariant(s)
    ensures MotorInvariant(r)
  {
    if n == 0 then s else Tick(Ticks(s, t, sense, n - 1), t, sense)
  }

  /** A falling Update that finds no ground and no ledge, with F not
      pressed, is JumpAndGravity alone. */
  lemma FallingTickIsGravity(s: MotorState, t: Tuning, sense: Senses)
    requires s.mode == Falling && !sense.floatKeyDown && !sense.groundHit && |sense.ledgeOverlaps| == 0
    ensures Tick(s, t, sense) == JumpAndGravityStep(s, t, sense.deltaTime)
  {
  }

  /** Whole Updates of a fall that meets no ground and no ledge are runs
      of JumpAndGravity, so FallingNeverCapped and DescentUnbounded speak
      of Updates as well. */
  lemma {:induction false} FallingTicksAreGravity(s: MotorState, t: Tuning, sense: Senses, n: nat)
    requires s.mode == Falling && s.verticalVelocity < TerminalVelocity
    requires !sense.floatKeyDown && !sense.groundHit && |sense.ledgeOverlaps| == 0
    requires t.gravity * sense.deltaTime <= 0.0
    ensures Ticks(s, t, sense, n) == Repeat(s, t, sense.deltaTime, n)
  {
    if n > 0 {
      FallingTicksAreGravity(s, t, sense, n - 1);
      TickExtendsFall(s, t, sense, n - 1);
    }
  }

  /** One more such Update extends the run of JumpAndGravity by one. */
  lemma TickExtendsFall(s: MotorState, t: Tuning, sense: Senses, k: nat)
    requires s.mode == Falling && s.verticalVelocity < TerminalVelocity
    requires !sense.floatKeyDown && !sense.groundHit && |sense.ledgeOverlaps| == 0
    requires t.gravity * sense.deltaTime <= 0.0
    ensures Tick(Repeat(s, t, sense.deltaTime, k), t, sense) == Repeat(s, t, sense.deltaTime, k + 1)
  {
    FallingSteps(s, t, sense.deltaTime, k);
    FreeFallDescends(s.verticalVelocity, t.gravity * sense.deltaTime, k);
    FallingTickIsGravity(Repeat(s, t, sense.deltaTime, k), t, sense);
  }

  /** With gravity pulling down, a fall reaches every speed: for any bound
      some number of ticks takes the vertical velocity below it. */
  lemma DescentUnbounded(s: MotorState, t: Tuning, dt: real, bound: real) returns (n: nat)
    requires s.mode != Grounded && s.verticalVelocity < TerminalVelocity
    requires t.gravity * dt < 0.0
    ensures Repeat(s, t, dt, n).verticalVelocity < bound
  {
    var step := -(t.gravity * dt);
    n := TicksToExceed(s.verticalVelocity - bound, step);
    FallingNeverCapped(s, t, dt, n);
    assert (n as real) * (t.gravity * dt) == -((n as real) * step);
  }

  /** Enough steps of a positive length cover any distance. */
  lemma TicksToExceed(distance: real, step: real) returns (n: nat)
    requires step > 0.0
    ensures (n as real) * step > distance
  {
    var k := distance / step;
    n := if k < 0.0 then 0 else k.Floor + 1;
    assert k * step == distance;
    assert ((n as real) - k) * step > 0.0;
  }

  /** A grounded character that does not jump settles at the resting
      velocity plus one tick of gravity, tick after tick: the velocity does
      not keep growing while it stands. */
  lemma {:induction false} GroundedVelocityRests(s: MotorState, t: Tuning, dt: real, n: nat)
    requires s.mode == Grounded && !s.jumpWish
    requires s.verticalVelocity < 0.0
    requires t.gravity * dt <= 0.0
    ensures n > 0 ==> Repeat(s, t, dt, n).verticalVelocity == RestingVelocity + t.gravity * dt
    ensures Repeat(s, t, dt, n).mode == Grounded && !Repeat(s, t, dt, n).jumpWish
  {
    if n > 0 {
      GroundedVelocityRests(s, t, dt, n - 1);
    }
  }

  /** The jump timeout only counts down while it is not negative, so with a
      fixed tick length it never falls below minus one tick. */
  lemma TimeoutFloor(s: MotorState, t: Tuning, dt: real)
    requires dt >= 0.0 && s.jumpTimeoutDelta >= -dt && s.fallTimeoutDelta >= -dt
    requires t.jumpTimeout >= -dt && t.fallTimeout >= -dt
    ensures JumpAndGravityStep(s, t, dt).jumpTimeoutDelta >= -dt
    ensures JumpAndGravityStep(s, t, dt).fallTimeoutDelta >= -dt
  {
  }

  /** Pressing F twice lands where it started, except that a grounded or
      hanging character comes back falling. */
  lemma ToggleTwice(mode: MoveState)
    ensures ToggleFloat(ToggleFloat(mode)) == if mode == Floating then Floating else Falling
  {
  }

  /** A jump from the ground needs the jump timeout to have run out: until
      then a jump wish has no effect beyond being cleared, whatever the
      velocity, and a downward velocity just rests. */
  lemma JumpNeedsTimeout(s: MotorState, t: Tuning, dt: real)
    requires s.mode == Grounded && s.jumpTimeoutDelta > 0.0
    ensures JumpAndGravityStep(s, t, dt) == JumpAndGravityStep(s.(jumpWish := false), t, dt)
    ensures s.verticalVelocity < 0.0 ==> JumpAndGravityStep(s, t, dt).verticalVelocity == RestingVelocity + t.gravity * dt
  {
  }

  /** Catching a ledge and letting go of it with a jump leaves the character
      falling with the ledge remembered and its velocity unchanged. */
  lemma LedgeCatchThenRelease(s: MotorState, t: Tuning, sense: Senses)
    requires s.mode == Falling && s.verticalVelocity >= 0.0 && |sense.ledgeOverlaps| > 0
    requires s.jumpWish
    ensures var caught := LedgeCheckStep(s, sense);
            && caught.mode == Hanging
            && HangStep(caught, t, sense).mode == Falling
            && HangStep(caught, t, sense).verticalVelocity == s.verticalVelocity
            && HangStep(caught, t, sense).ledgeVolume == Some(sense.ledgeOverlaps[0])
  {
  }
}
