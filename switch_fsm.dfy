/** SwitchFSMController: a Patrol/Chase/Attack agent written as an enum
    state machine. Each frame runs the current state's body, which may set
    `nextState`; a differing `nextState` then causes exactly one change,
    with the old state's exit hook before the new state's enter hook. */
module SwitchFsm {

  import opened Common
  import opened Motor

  datatype States = Patrol | Chase | Attack

  /** Names a Transform. */
  type TransformId = nat

  /** The collider a trigger event reports: its tag and its transform. */
  datatype Collider = Collider(tag: string, transform: TransformId)

  const PlayerTag: string := "Player"

  /** An enter or exit hook call made by ChangeState (their bodies only log). */
  datatype SwitchHook = OnEnter(state: States) | OnExit(state: States)

  /** The engine's answers during one Update. */
  datatype Scene = Scene(
    position: Vec3,                       // motor.transform.position
    positionOf: TransformId -> Vec3)      // the followed transform's position

  function TargetPosition(scene: Scene, t: TransformId): Vec3 {
    scene.positionOf(t)
  }

  datatype SwitchConfig = SwitchConfig(
    patrolPoints: seq<Vec3>,
    waypointThreshold: real,
    attackThreshold: real)

  /** What the state bodies read and write: the two state fields, the patrol
      index and the motor's wishes. */
  datatype Brain = Brain(
    currentState: States,
    nextState: States,
    patrolIndex: int,
    sprintWish: bool,
    moveWish: Wish)

  predicate IndexInBounds(b: Brain, cfg: SwitchConfig) {
    0 <= b.patrolIndex < |cfg.patrolPoints|
  }

  /** `(motor.position - p).sqrMagnitude` compared with `attackThreshold²`. */
  function AttackDistance2(scene: Scene, t: TransformId): real {
    SqrMagnitude(Sub(scene.position, TargetPosition(scene, t)))
  }

  /** Patrol: walk toward the current point, move on to the next once within
      the threshold, and start chasing once a target is held. */
  function PatrolBody(b: Brain, cfg: SwitchConfig, scene: Scene, target: Option<TransformId>): (r: Brain)
    requires IndexInBounds(b, cfg)
    ensures IndexInBounds(r, cfg)
    ensures !r.sprintWish
    ensures r.moveWish == Normalized(Sub(cfg.patrolPoints[b.patrolIndex], scene.position))
    ensures r.patrolIndex != b.patrolIndex ==> Within(scene.position, cfg.patrolPoints[b.patrolIndex], cfg.waypointThreshold)
    ensures Within(scene.position, cfg.patrolPoints[b.patrolIndex], cfg.waypointThreshold) ==>
              r.patrolIndex == (if b.patrolIndex == |cfg.patrolPoints| - 1 then 0 else b.patrolIndex + 1)
    ensures r.nextState == (if target.Some? then Chase else b.nextState)
    ensures r.currentState == b.currentState
  {
    var point := cfg.patrolPoints[b.patrolIndex];
    var index := if Within(scene.position, point, cfg.waypointThreshold) then (b.patrolIndex + 1) % |cfg.patrolPoints|
                 else b.patrolIndex;
    b.(sprintWish := false, moveWish := Normalized(Sub(point, scene.position)), patrolIndex := index,
       nextState := if target.Some? then Chase else b.nextState)
  }

  /** Chase: without a target go back to patrolling from the first point;
      otherwise sprint at the target and attack once strictly inside the
      attack range. */
  function ChaseBody(b: Brain, cfg: SwitchConfig, scene: Scene, target: Option<TransformId>): (r: Brain)
    ensures target.None? ==> r == b.(patrolIndex := 0, nextState := Patrol)
    ensures target.Some? ==>
              && r.sprintWish
              && r.patrolIndex == b.patrolIndex
              && r.moveWish == Normalized(Sub(TargetPosition(scene, target.value), scene.position))
              && (r.nextState == Attack <==>
                    AttackDistance2(scene, target.value) < cfg.attackThreshold * cfg.attackThreshold
                    || b.nextState == Attack)
              && (r.nextState != Attack ==> r.nextState == b.nextState)
  {
    match target
    case None => b.(patrolIndex := 0, nextState := Patrol)
    case Some(t) =>
      var b1 := b.(sprintWish := true, moveWish := Normalized(Sub(TargetPosition(scene, t), scene.position)));
      if AttackDistance2(scene, t) < cfg.attackThreshold * cfg.attackThreshold then b1.(nextState := Attack)
      else b1
  }

  /** Attack: without a target go back to patrolling from the first point;
      otherwise stand still and chase again once strictly outside the
      attack range. */
  function AttackBody(b: Brain, cfg: SwitchConfig, scene: Scene, target: Option<TransformId>): (r: Brain)
    ensures target.None? ==> r == b.(patrolIndex := 0, nextState := Patrol)
    ensures target.Some? ==>
              && r.moveWish == Raw(Zero3)
              && r.sprintWish == b.sprintWish
              && r.patrolIndex == b.patrolIndex
              && (r.nextState == Chase <==>
                    AttackDistance2(scene, target.value) > cfg.attackThreshold * cfg.attackThreshold
                    || b.nextState == Chase)
              && (r.nextState != Chase ==> r.nextState == b.nextState)
  {
    match target
    case None => b.(patrolIndex := 0, nextState := Patrol)
    case Some(t) =>
      var b1 := b.(moveWish := Raw(Zero3));
      if AttackDistance2(scene, t) > cfg.attackThreshold * cfg.attackThreshold then b1.(nextState := Chase)
      else b1
  }

  /** The body of the current state. */
  function RunBody(b: Brain, cfg: SwitchConfig, scene: Scene, target: Option<TransformId>): (r: Brain)
    requires IndexInBounds(b, cfg)
    ensures IndexInBounds(r, cfg)
    ensures r.currentState == b.currentState
  {
    match b.currentState
    case Patrol => PatrolBody(b, cfg, scene, target)
    case Chase => ChaseBody(b, cfg, scene, target)
    case Attack => AttackBody(b, cfg, scene, target)
  }

  /** The hook calls of ChangeState: the old state's exit, then the new state's enter. */
  function ChangeHooks(from: States, to: States): seq<SwitchHook> {
    [OnExit(from), OnEnter(to)]
  }

  /** Update: one body, then at most one change of state. */
  function SwitchTick(b: Brain, cfg: SwitchConfig, scene: Scene, target: Option<TransformId>): (r: Brain)
    requires IndexInBounds(b, cfg)
    ensures IndexInBounds(r, cfg)
    ensures r.currentState == r.nextState
    ensures r.nextState == RunBody(b, cfg, scene, target).nextState
  {
    var b1 := RunBody(b, cfg, scene, target);
    if b1.currentState != b1.nextState then b1.(currentState := b1.nextState) else b1
  }

  /** The hooks one Update calls. */
  function TickHooks(b: Brain, cfg: SwitchConfig, scene: Scene, target: Option<TransformId>): (hs: seq<SwitchHook>)
    requires IndexInBounds(b, cfg)
    ensures |hs| == 0 || |hs| == 2
    ensures |hs| == 2 <==> SwitchTick(b, cfg, scene, target).currentState != b.currentState
  {
    var b1 := RunBody(b, cfg, scene, target);
    if b1.currentState != b1.nextState then ChangeHooks(b1.currentState, b1.nextState) else []
  }

  // ---------------------------------------------------------------------
  // Properties of a frame (starting, as every frame does, with
  // currentState == nextState)

  /** The moves one frame can make: Patrol only to Chase, and never straight
      to Attack; Chase and Attack fall back to Patrol exactly when the
      target is lost (which of the two they otherwise end in is
      AttackBoundaryIsStrict). */
  lemma ReachableMoves(b: Brain, cfg: SwitchConfig, scene: Scene, target: Option<TransformId>)
    requires IndexInBounds(b, cfg) && b.currentState == b.nextState
    ensures var s := SwitchTick(b, cfg, scene, target).currentState;
            match b.currentState
            case Patrol => s == Patrol || s == Chase
            case Chase => s == Patrol <==> target.None?
            case Attack => s == Patrol <==> target.None?
    ensures b.currentState == Patrol ==> SwitchTick(b, cfg, scene, target).currentState != Attack
    ensures b.currentState == Patrol ==>
              (SwitchTick(b, cfg, scene, target).currentState == Chase <==> target.Some?)
  {
  }

  /** Losing the target in Chase or Attack resets the patrol index to the
      first point and returns to Patrol, announced by exit then enter. */
  lemma LostTargetResets(b: Brain, cfg: SwitchConfig, scene: Scene)
    requires IndexInBounds(b, cfg) && b.currentState == b.nextState && b.currentState != Patrol
    ensures SwitchTick(b, cfg, scene, None).patrolIndex == 0
    ensures SwitchTick(b, cfg, scene, None).currentState == Patrol
    ensures TickHooks(b, cfg, scene, None) == [OnExit(b.currentState), OnEnter(Patrol)]
  {
  }

  /** The attack range is strict on both sides: Chase attacks only strictly
      inside it, Attack chases only strictly outside it, and exactly on the
      boundary neither moves. */
  lemma AttackBoundaryIsStrict(b: Brain, cfg: SwitchConfig, scene: Scene, t: TransformId)
    requires IndexInBounds(b, cfg) && b.currentState == b.nextState
    ensures var d2 := AttackDistance2(scene, t);
            var s := SwitchTick(b, cfg, scene, Some(t)).currentState;
            && (b.currentState == Chase ==> (s == Attack <==> d2 < cfg.attackThreshold * cfg.attackThreshold))
            && (b.currentState == Chase ==> (s == Chase <==> d2 >= cfg.attackThreshold * cfg.attackThreshold))
            && (b.currentState == Attack ==> (s == Chase <==> d2 > cfg.attackThreshold * cfg.attackThreshold))
            && (b.currentState == Attack ==> (s == Attack <==> d2 <= cfg.attackThreshold * cfg.attackThreshold))
  {
  }

  /** On the boundary itself the agent keeps whatever it was doing. */
  lemma OnTheBoundaryNothingMoves(b: Brain, cfg: SwitchConfig, scene: Scene, t: TransformId)
    requires IndexInBounds(b, cfg) && b.currentState == b.nextState && b.currentState != Patrol
    requires AttackDistance2(scene, t) == cfg.attackThreshold * cfg.attackThreshold
    ensures SwitchTick(b, cfg, scene, Some(t)).currentState == b.currentState
    ensures TickHooks(b, cfg, scene, Some(t)) == []
  {
  }

  /** What each state asks of the motor: Patrol walks, Chase sprints,
      Attack stands still. */
  lemma MotorWishes(b: Brain, cfg: SwitchConfig, scene: Scene, t: TransformId)
    requires IndexInBounds(b, cfg) && b.currentState == b.nextState
    ensures b.currentState == Patrol ==> !SwitchTick(b, cfg, scene, Some(t)).sprintWish
    ensures b.currentState == Chase ==> SwitchTick(b, cfg, scene, Some(t)).sprintWish
    ensures b.currentState == Attack ==> SwitchTick(b, cfg, scene, Some(t)).moveWish == Raw(Zero3)
  {
  }

  /** OnTriggerEnter: any Player-tagged collider becomes the target. */
  function TriggerEnter(target: Option<TransformId>, other: Collider): (r: Option<TransformId>)
    ensures other.tag == PlayerTag ==> r == Some(other.transform)
    ensures other.tag != PlayerTag ==> r == target
  {
    if other.tag == PlayerTag then Some(other.transform) else target
  }

  /** OnTriggerExit: any Player-tagged collider clears the target, whichever
      transform the target is. */
  function TriggerExit(target: Option<TransformId>, other: Collider): (r: Option<TransformId>)
    ensures other.tag == PlayerTag ==> r == None
    ensures other.tag != PlayerTag ==> r == target
  {
    if other.tag == PlayerTag then None else target
  }

  /** A second player leaving the trigger drops the first player as target. */
  lemma AnyPlayerExitDropsTarget(first: Collider, second: Collider)
    requires first.tag == PlayerTag && second.tag == PlayerTag && first.transform != second.transform
    ensures TriggerEnter(None, first) == Some(first.transform)
    ensures TriggerExit(TriggerEnter(None, first), second) == None
  {
  }

  class SwitchFsmController {
    const motor: CharacterMotor
    const config: SwitchConfig
    var currentPatrolIndex: int
    var followTarget: Option<TransformId>
    var currentState: States
    var nextState: States
    /** The enter and exit hooks called so far, oldest first. */
    var hooks: seq<SwitchHook>

    function BrainState(): Brain
      reads this, motor
    {
      Brain(currentState, nextState, currentPatrolIndex, motor.sprintWish, motor.moveWish)
    }

    /** Between frames the two state fields agree and the index is a patrol point. */
    predicate Valid()
      reads this, motor
    {
      currentState == nextState && IndexInBounds(BrainState(), config)
    }

    /** The field initialisers: Patrol, first point, no target. */
    constructor (motor: CharacterMotor, config: SwitchConfig)
      requires |config.patrolPoints| > 0
      ensures this.motor == motor && this.config == config
      ensures currentState == Patrol && nextState == Patrol && currentPatrolIndex == 0
      ensures followTarget == None && hooks == []
      ensures Valid()
    {
      this.motor := motor;
      this.config := config;
      currentPatrolIndex := 0;
      followTarget := None;
      currentState := Patrol;
      nextState := Patrol;
      hooks := [];
    }

    method PatrolRun(scene: Scene)
      requires IndexInBounds(BrainState(), config)
      modifies this`currentPatrolIndex, this`nextState, motor`sprintWish, motor`moveWish
      ensures BrainState() == PatrolBody(old(BrainState()), config, scene, followTarget)
    {
      motor.sprintWish := false;
      motor.moveWish := Normalized(Sub(config.patrolPoints[currentPatrolIndex], scene.position));
      if SqrMagnitude(Sub(scene.position, config.patrolPoints[currentPatrolIndex]))
           < config.waypointThreshold * config.waypointThreshold {
        currentPatrolIndex := (currentPatrolIndex + 1) % |config.patrolPoints|;
      }
      if followTarget.Some? {
        nextState := Chase;
      }
    }

    method ChaseRun(scene: Scene)
      modifies this`currentPatrolIndex, this`nextState, motor`sprintWish, motor`moveWish
      ensures BrainState() == ChaseBody(old(BrainState()), config, scene, followTarget)
    {
      if followTarget.None? {
        currentPatrolIndex := 0;
        nextState := Patrol;
        return;
      }
      motor.sprintWish := true;
      motor.moveWish := Normalized(Sub(TargetPosition(scene, followTarget.value), scene.position));
      if AttackDistance2(scene, followTarget.value) < config.attackThreshold * config.attackThreshold {
        nextState := Attack;
      }
    }

    method AttackRun(scene: Scene)
      modifies this`currentPatrolIndex, this`nextState, motor`moveWish
      ensures BrainState() == AttackBody(old(BrainState()), config, scene, followTarget)
    {
      if followTarget.None? {
        currentPatrolIndex := 0;
        nextState := Patrol;
        return;
      }
      motor.moveWish := Raw(Zero3);
      if AttackDistance2(scene, followTarget.value) > config.attackThreshold * config.attackThreshold {
        nextState := Chase;
      }
    }

    method ChangeState(newState: States)
      modifies this`currentState, this`hooks
      ensures currentState == newState
      ensures hooks == old(hooks) + ChangeHooks(old(currentState), newState)
    {
      hooks := hooks + [OnExit(currentState)];
      currentState := newState;
      hooks := hooks + [OnEnter(newState)];
    }

    method Update(scene: Scene)
      requires Valid()
      modifies this`currentPatrolIndex, this`nextState, this`currentState, this`hooks
      modifies motor`sprintWish, motor`moveWish
      ensures Valid()
      ensures BrainState() == SwitchTick(old(BrainState()), config, scene, followTarget)
      ensures hooks == old(hooks) + TickHooks(old(BrainState()), config, scene, followTarget)
    {
      match currentState {
        case Patrol => PatrolRun(scene);
        case Chase => ChaseRun(scene);
        case Attack => AttackRun(scene);
      }
      if currentState != nextState {
        ChangeState(nextState);
      }
    }

    method OnTriggerEnter(other: Collider)
      modifies this`followTarget
      ensures followTarget == TriggerEnter(old(followTarget), other)
    {
      if other.tag == PlayerTag {
        followTarget := Some(other.transform);
      }
    }

    method OnTriggerExit(other: Collider)
      modifies this`followTarget
      ensures followTarget == TriggerExit(old(followTarget), other)
    {
      if other.tag == PlayerTag {
        followTarget := None;
      }
    }
  }
}
