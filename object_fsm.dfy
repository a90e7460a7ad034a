/** ObjectFSMController: a patrol/chase agent driven by the generic state
    machine. Two BaseState objects (patrol and chase) are wired with one
    boolean transition each; the agent acquires and drops a target by line
    of sight, walks a navigation path with a cursor over its corners, and
    cycles through patrol points. The runner logs the hooks it calls and the
    agent executes the hook bodies in that order. */
module ObjectFsm {

  import opened Common
  import opened StateMachine
  import opened Motor

  /** A GameCharacter: `id` names its game object, so that a ray hit can be
      compared with it. */
  datatype Character = Character(id: nat, factionId: int)

  /** What Physics.Linecast from the agent's head to a candidate's head met. */
  datatype LineHit = Clear | Blocked(hitObject: nat)

  /** A path NavMesh.CalculatePath found always has at least one corner. */
  type Corners = c: seq<Vec3> | |c| > 0 witness [Zero3]

  datatype PathQuery = Unreachable | Found(corners: Corners)

  /** The NavMeshPath object: its status (valid or not) and its corners. */
  datatype NavPath = NavPath(valid: bool, corners: seq<Vec3>)

  /** The engine's answers during one Update, taken at the agent's position. */
  datatype World = World(
    position: Vec3,                        // motor.transform.position
    deltaTime: real,
    positionOf: Character -> Vec3,         // a character's transform.position
    lineOfSight: Character -> LineHit,     // Physics.Linecast head to head
    calculatePath: Vec3 -> PathQuery,      // NavMesh.CalculatePath from `position`
    samplePosition: Vec3 -> Option<Vec3>,  // NavMesh.SamplePosition within 1.0
    navRaycast: (Vec3, Vec3) -> bool)      // NavMesh.Raycast: true when blocked

  function PositionOf(w: World, c: Character): Vec3 {
    w.positionOf(c)
  }

  function SightLine(w: World, c: Character): LineHit {
    w.lineOfSight(c)
  }

  function PathTo(w: World, destination: Vec3): PathQuery {
    w.calculatePath(destination)
  }

  function Sample(w: World, p: Vec3): Option<Vec3> {
    w.samplePosition(p)
  }

  function NavBlocked(w: World, from: Vec3, to: Vec3): bool {
    w.navRaycast(from, to)
  }

  /** The inspector settings of the agent. */
  datatype AgentConfig = AgentConfig(
    patrolPoints: seq<Vec3>,
    waypointThreshold: real,
    patrolStrength: real,
    chaseStrength: real)

  // ---------------------------------------------------------------------
  // Target acquisition and the candidate set

  /** A candidate is visible when nothing is in the way, or when the only
      thing in the way is the candidate itself. */
  predicate CanSee(w: World, c: Character) {
    match SightLine(w, c)
    case Clear => true
    case Blocked(hit) => hit == c.id
  }

  /** The foreach over the candidate set, stopping at the first visible one.
      A HashSet has no order the code can rely on, so any candidate may be
      looked at first. */
  method FirstVisible(candidates: set<Character>, w: World) returns (found: Option<Character>)
    ensures found.Some? ==> found.value in candidates && CanSee(w, found.value)
    ensures found.None? <==> forall c :: c in candidates ==> !CanSee(w, c)
  {
    var remaining := candidates;
    while remaining != {}
      invariant remaining <= candidates
      invariant forall c :: c in candidates && c !in remaining ==> !CanSee(w, c)
      decreases remaining
    {
      var candidate :| candidate in remaining;
      if CanSee(w, candidate) {
        return Some(candidate);
      }
      remaining := remaining - {candidate};
    }
    return None;
  }

  /** OnTriggerEnter: only a character of another faction becomes a candidate. */
  function Entered(candidates: set<Character>, self: Character, other: Option<Character>): (r: set<Character>)
    ensures candidates <= r && r - candidates <= (if other.Some? then {other.value} else {})
    ensures other.Some? && other.value.factionId != self.factionId ==> other.value in r
    ensures other.None? || other.value.factionId == self.factionId ==> r == candidates
  {
    if other.Some? && other.value.factionId != self.factionId then candidates + {other.value}
    else candidates
  }

  /** OnTriggerExit: only a character of another faction is forgotten. */
  function Exited(candidates: set<Character>, self: Character, other: Option<Character>): (r: set<Character>)
    ensures r <= candidates && candidates - r <= (if other.Some? then {other.value} else {})
    ensures other.Some? && other.value.factionId != self.factionId ==> other.value !in r
    ensures other.None? || other.value.factionId == self.factionId ==> r == candidates
  {
    if other.Some? && other.value.factionId != self.factionId then candidates - {other.value}
    else candidates
  }

  /** Every candidate belongs to another faction. */
  predicate OnlyEnemies(candidates: set<Character>, self: Character) {
    forall c :: c in candidates ==> c.factionId != self.factionId
  }

  /** The trigger events keep the candidate set free of allies. */
  lemma TriggersKeepOnlyEnemies(candidates: set<Character>, self: Character, other: Option<Character>)
    requires OnlyEnemies(candidates, self)
    ensures OnlyEnemies(Entered(candidates, self, other), self)
    ensures OnlyEnemies(Exited(candidates, self, other), self)
  {
  }

  /** A character of another faction that walks in and out again leaves the
      candidate set as it found it. */
  lemma EnterThenExit(candidates: set<Character>, self: Character, other: Character)
    requires other !in candidates
    ensures Exited(Entered(candidates, self, Some(other)), self, Some(other)) == candidates
  {
  }

  // ---------------------------------------------------------------------
  // The path cursor

  /** The navigation path, the cursor curNavMeshPathIndex, and
      HasReachedDestination. */
  datatype PathState = PathState(nav: NavPath, cursor: int, reached: bool)

  /** The cursor is -1 (no path to follow) or lies in 0..corners, and while
      it is not -1 the reached flag says exactly whether it has passed the
      last corner. */
  predicate CursorInvariant(ps: PathState) {
    && -1 <= ps.cursor <= |ps.nav.corners|
    && (ps.nav.valid ==> |ps.nav.corners| > 0)
    && (ps.cursor != -1 ==> ps.nav.valid && (ps.reached <==> ps.cursor == |ps.nav.corners|))
  }

  /** SetDestination: a fresh path, whose first corner is skipped when the
      agent already stands on it. */
  function PlanPath(query: PathQuery, position: Vec3, threshold: real): (r: PathState)
    ensures CursorInvariant(r)
    ensures query.Unreachable? ==> r.cursor == -1 && !r.reached && !r.nav.valid
    ensures query.Found? ==>
              && r.nav == NavPath(true, query.corners)
              && r.cursor == (if Within(query.corners[0], position, threshold) then 1 else 0)
              && (r.reached <==> r.cursor >= |query.corners|)
  {
    match query
    case Unreachable => PathState(NavPath(false, []), -1, false)
    case Found(corners) =>
      if Within(corners[0], position, threshold) then PathState(NavPath(true, corners), 1, 1 >= |corners|)
      else PathState(NavPath(true, corners), 0, false)
  }

  /** The Destination property: the last corner of a valid path. */
  function Destination(nav: NavPath): (d: Vec3)
    requires nav.valid ==> |nav.corners| > 0
  {
    if nav.valid then nav.corners[|nav.corners| - 1] else Zero3
  }

  /** After SetDestination the destination is the final corner of the path
      just planned, or the origin when no path was found. */
  lemma PlannedDestination(query: PathQuery, position: Vec3, threshold: real)
    ensures query.Found? ==>
              Destination(PlanPath(query, position, threshold).nav) == query.corners[|query.corners| - 1]
    ensures query.Unreachable? ==> Destination(PlanPath(query, position, threshold).nav) == Zero3
  {
  }

  /** Update follows the path only while it is valid and the cursor is
      neither -1 nor past the end. */
  predicate Following(ps: PathState) {
    ps.nav.valid && ps.cursor != -1 && ps.cursor != |ps.nav.corners|
  }

  /** The cursor part of Update's path following: advance past the current
      corner once the agent is within the waypoint threshold of it. */
  function Advance(ps: PathState, position: Vec3, threshold: real): (r: PathState)
    requires CursorInvariant(ps)
    ensures CursorInvariant(r)
    ensures r.nav == ps.nav
    ensures !Following(ps) ==> r == ps
    ensures r.cursor == ps.cursor || r.cursor == ps.cursor + 1
    ensures r.cursor == ps.cursor + 1 <==>
              Following(ps) && Within(ps.nav.corners[ps.cursor], position, threshold)
  {
    if Following(ps) && Within(ps.nav.corners[ps.cursor], position, threshold) then
      var next := ps.cursor + 1;
      ps.(cursor := next, reached := next >= |ps.nav.corners|)
    else ps
  }

  /** The cursor after one Update per position in `positions`. */
  function Walk(ps: PathState, positions: seq<Vec3>, threshold: real): (r: PathState)
    requires CursorInvariant(ps)
    ensures CursorInvariant(r) && r.nav == ps.nav
    decreases |positions|
  {
    if |positions| == 0 then ps
    else Walk(Advance(ps, positions[0], threshold), positions[1..], threshold)
  }

  /** The cursor never moves back, and moves at most one corner per tick. */
  lemma {:induction false} WalkNeverRetreats(ps: PathState, positions: seq<Vec3>, threshold: real)
    requires CursorInvariant(ps)
    ensures ps.cursor <= Walk(ps, positions, threshold).cursor <= ps.cursor + |positions|
    decreases |positions|
  {
    if |positions| > 0 {
      WalkNeverRetreats(Advance(ps, positions[0], threshold), positions[1..], threshold);
    }
  }

  /** Standing near each remaining corner in turn, one tick each, reaches
      the destination. */
  lemma {:induction false} WalkingTheCornersArrives(ps: PathState, positions: seq<Vec3>, threshold: real)
    requires CursorInvariant(ps) && ps.nav.valid && ps.cursor >= 0
    requires |positions| == |ps.nav.corners| - ps.cursor
    requires forall i :: 0 <= i < |positions| ==> Within(ps.nav.corners[ps.cursor + i], positions[i], threshold)
    ensures Walk(ps, positions, threshold).cursor == |ps.nav.corners|
    ensures Walk(ps, positions, threshold).reached
    decreases |positions|
  {
    if |positions| > 0 {
      var next := Advance(ps, positions[0], threshold);
      assert Within(ps.nav.corners[ps.cursor + 0], positions[0], threshold);
      var rest := positions[1..];
      assert forall i :: 0 <= i < |rest| ==> rest[i] == positions[i + 1] && next.cursor + i == ps.cursor + (i + 1);
      WalkingTheCornersArrives(next, rest, threshold);
    }
  }

  // ---------------------------------------------------------------------
  // The agent's state and the hook bodies

  /** The part of the agent the hooks change: the patrol index, the path,
      and the motor's sprint and move wishes. */
  datatype Agent = Agent(patrolIndex: int, path: PathState, sprintWish: bool, moveWish: Wish)

  predicate AgentInvariant(a: Agent, cfg: AgentConfig) {
    && 0 <= a.patrolIndex < |cfg.patrolPoints|
    && CursorInvariant(a.path)
  }

  /** PatrolState.OnStateEnter: head for the current patrol point, walking. */
  function PatrolEnterStep(a: Agent, cfg: AgentConfig, w: World): (r: Agent)
    requires AgentInvariant(a, cfg)
    ensures AgentInvariant(r, cfg) && r.patrolIndex == a.patrolIndex && !r.sprintWish
    // the path is planned to the patrol point the index names; the steering is untouched
    ensures r.path == PlanPath(PathTo(w, cfg.patrolPoints[a.patrolIndex]), w.position, cfg.waypointThreshold)
    ensures r.moveWish == a.moveWish
  {
    var destination := cfg.patrolPoints[a.patrolIndex];
    a.(path := PlanPath(PathTo(w, destination), w.position, cfg.waypointThreshold), sprintWish := false)
  }

  /** The patrol index after PatrolState.OnStateRun: the next point, wrapping
      around, once the agent is within the threshold of the current one. */
  function NextPatrolIndex(index: int, cfg: AgentConfig, position: Vec3): (i: int)
    requires 0 <= index < |cfg.patrolPoints|
    ensures 0 <= i < |cfg.patrolPoints|
    ensures i != index ==> Within(position, cfg.patrolPoints[index], cfg.waypointThreshold)
    ensures Within(position, cfg.patrolPoints[index], cfg.waypointThreshold) ==>
              i == (if index == |cfg.patrolPoints| - 1 then 0 else index + 1)
  {
    if Within(position, cfg.patrolPoints[index], cfg.waypointThreshold) then (index + 1) % |cfg.patrolPoints|
    else index
  }

  /** PatrolState.OnStateRun: on reaching the current patrol point, move on
      to the next one and plan a path to it. */
  function PatrolRunStep(a: Agent, cfg: AgentConfig, w: World): (r: Agent)
    requires AgentInvariant(a, cfg)
    ensures AgentInvariant(r, cfg)
    ensures r.patrolIndex == NextPatrolIndex(a.patrolIndex, cfg, w.position)
    ensures r.sprintWish == a.sprintWish && r.moveWish == a.moveWish
    ensures !Within(w.position, cfg.patrolPoints[a.patrolIndex], cfg.waypointThreshold) ==> r == a
    // on arrival the path is re-planned to the point the new index names
    ensures Within(w.position, cfg.patrolPoints[a.patrolIndex], cfg.waypointThreshold) ==>
              r.path == PlanPath(PathTo(w, cfg.patrolPoints[r.patrolIndex]), w.position, cfg.waypointThreshold)
  {
    if Within(w.position, cfg.patrolPoints[a.patrolIndex], cfg.waypointThreshold) then
      var i := (a.patrolIndex + 1) % |cfg.patrolPoints|;
      a.(patrolIndex := i, path := PlanPath(PathTo(w, cfg.patrolPoints[i]), w.position, cfg.waypointThreshold))
    else a
  }

  /** ChaseState.OnStateEnter: drop the path cursor and sprint. */
  function ChaseEnterStep(a: Agent): (r: Agent)
    ensures r.path.cursor == -1 && r.sprintWish
    ensures r.patrolIndex == a.patrolIndex && r.path.nav == a.path.nav && r.moveWish == a.moveWish
    ensures r.path.reached == a.path.reached
  {
    a.(path := a.path.(cursor := -1), sprintWish := true)
  }

  /** The MoveWish after steering toward `toward` with the chase strength. */
  function SeekTarget(a: Agent, cfg: AgentConfig, w: World, toward: Vec3): Wish {
    Steered(a.moveWish, w.position, toward, cfg.chaseStrength * w.deltaTime)
  }

  /** ChaseState.OnStateRun: steer straight at the target when the navmesh
      between the two is clear or the target is off the navmesh; otherwise
      re-plan a path to the target once the current one is stale. */
  function ChaseRunStep(a: Agent, cfg: AgentConfig, w: World, target: Option<Character>): (r: Agent)
    requires AgentInvariant(a, cfg)
    ensures AgentInvariant(r, cfg)
    ensures r.patrolIndex == a.patrolIndex && r.sprintWish == a.sprintWish
    ensures target.None? ==> r == a
    ensures r.path != a.path ==> target.Some? && Sample(w, PositionOf(w, target.value)).Some?
    ensures target.Some? ==>
              var goal := PositionOf(w, target.value);
              var me := Sample(w, w.position);
              var them := Sample(w, goal);
              // a clear navmesh line, or a target off the navmesh: steer straight at it
              && (me.Some? && them.Some? && !NavBlocked(w, me.value, them.value) ==>
                    r == a.(moveWish := SeekTarget(a, cfg, w, goal)))
              && (them.None? ==> r == a.(moveWish := SeekTarget(a, cfg, w, goal)))
              // a blocked line to a target on the navmesh: re-plan to it once the path is stale
              && (them.Some? && (me.None? || NavBlocked(w, me.value, them.value)) ==>
                    if NavBlocked(w, Destination(a.path.nav), them.value) || a.path.reached then
                      r == a.(path := PlanPath(PathTo(w, them.value), w.position, cfg.waypointThreshold))
                    else r == a)
  {
    match target
    case None => a
    case Some(t) =>
      var me := Sample(w, w.position);
      var them := Sample(w, PositionOf(w, t));
      var hasClearPath := me.Some? && them.Some? && !NavBlocked(w, me.value, them.value);
      if hasClearPath then a.(moveWish := SeekTarget(a, cfg, w, PositionOf(w, t)))
      else if them.Some? then
        var isPathStale := NavBlocked(w, Destination(a.path.nav), them.value) || a.path.reached;
        if isPathStale then a.(path := PlanPath(PathTo(w, them.value), w.position, cfg.waypointThreshold))
        else a
      else a.(moveWish := SeekTarget(a, cfg, w, PositionOf(w, t)))
  }

  /** One hook call, dispatched to the body of the state it names. BaseState's
      exit hook is empty and neither state overrides it; the null-state
      assertion only logs. */
  function HookStep(h: Hook, a: Agent, patrol: BaseState, chase: BaseState, cfg: AgentConfig, w: World,
                    target: Option<Character>): (r: Agent)
    requires AgentInvariant(a, cfg)
    ensures AgentInvariant(r, cfg)
  {
    match h
    case OnStateEnter(s) =>
      if s == patrol then PatrolEnterStep(a, cfg, w)
      else if s == chase then ChaseEnterStep(a)
      else a
    case OnStateRun(s) =>
      if s == patrol then PatrolRunStep(a, cfg, w)
      else if s == chase then ChaseRunStep(a, cfg, w, target)
      else a
    case OnStateExit(_) => a
    case NullStateAssertion => a
  }

  /** The hook calls in `hooks`, executed in order. */
  function Replay(hooks: seq<Hook>, a: Agent, patrol: BaseState, chase: BaseState, cfg: AgentConfig, w: World,
                  target: Option<Character>): (r: Agent)
    requires AgentInvariant(a, cfg)
    ensures AgentInvariant(r, cfg)
    decreases |hooks|
  {
    if |hooks| == 0 then a
    else
      var last := |hooks| - 1;
      HookStep(hooks[last], Replay(hooks[..last], a, patrol, chase, cfg, w, target), patrol, chase, cfg, w, target)
  }

  /** How hard path following steers this frame: patrol strength without a
      target, chase strength with one. */
  function SteeringGain(cfg: AgentConfig, w: World, target: Option<Character>): real {
    (if target.None? then cfg.patrolStrength else cfg.chaseStrength) * w.deltaTime
  }

  /** The move wish and cursor after Update's path following. */
  function FollowPathStep(a: Agent, cfg: AgentConfig, w: World, target: Option<Character>): (r: Agent)
    requires AgentInvariant(a, cfg)
    ensures AgentInvariant(r, cfg)
    ensures r.path == Advance(a.path, w.position, cfg.waypointThreshold)
    ensures r.patrolIndex == a.patrolIndex && r.sprintWish == a.sprintWish
    ensures !Following(a.path) ==> r == a
    ensures Following(a.path) ==>
              var corner := a.path.nav.corners[a.path.cursor];
              r.moveWish == Steered(Normalized(Sub(corner, w.position)), w.position, corner, SteeringGain(cfg, w, target))
  {
    if Following(a.path) then
      var pathTarget := a.path.nav.corners[a.path.cursor];
      var offset := Sub(pathTarget, w.position);
      var wish := Steered(Normalized(offset), w.position, pathTarget, SteeringGain(cfg, w, target));
      a.(moveWish := wish, path := Advance(a.path, w.position, cfg.waypointThreshold))
    else a
  }

  /** The probe ids the two transitions read. */
  const TargetHeld: ProbeId := 0
  const TargetLost: ProbeId := 1

  /** The two lambdas of Awake: `followTarget != null` and `followTarget == null`. */
  function TransitionProbes(held: bool): Probes {
    Probes(id => if id == TargetLost then !held else held, id => 0.0, (x: real, y: real) => x == y)
  }

  /** The state the wired machine settles in for a given target. */
  function Settled(target: Option<Character>, patrol: BaseState, chase: BaseState): BaseState {
    if target.Some? then chase else patrol
  }

  /** Everything Update does after acquisition: the runner's hooks, then the
      path following. */
  function AgentTick(a: Agent, current: BaseState, target: Option<Character>, patrol: BaseState, chase: BaseState,
                     cfg: AgentConfig, w: World): (r: Agent)
    requires AgentInvariant(a, cfg)
    ensures AgentInvariant(r, cfg)
  {
    var hooks := RunHooks(current, Settled(target, patrol, chase));
    FollowPathStep(Replay(hooks, a, patrol, chase, cfg, w, target), cfg, w, target)
  }

  // ---------------------------------------------------------------------
  // Properties of a tick

  /** Replaying the hooks of a tick that starts in Chase: chase's run hook,
      and on a change chase's exit and patrol's enter. */
  lemma ReplayFromChase(a: Agent, target: Option<Character>, patrol: BaseState, chase: BaseState,
                        cfg: AgentConfig, w: World)
    requires AgentInvariant(a, cfg) && patrol != chase
    ensures var next := Settled(target, patrol, chase);
            var ran := ChaseRunStep(a, cfg, w, target);
            Replay(RunHooks(chase, next), a, patrol, chase, cfg, w, target)
              == if next == chase then ran else PatrolEnterStep(ran, cfg, w)
  {
    var next := Settled(target, patrol, chase);
    var hooks := RunHooks(chase, next);
    var ran := ChaseRunStep(a, cfg, w, target);
    assert hooks[..1] == [OnStateRun(chase)];
    assert [OnStateRun(chase)][..0] == [];
    assert Replay(hooks[..1], a, patrol, chase, cfg, w, target) == ran;
    if next != chase {
      assert hooks == [OnStateRun(chase), OnStateExit(chase), OnStateEnter(patrol)];
      assert hooks[..2][..1] == hooks[..1];
      assert Replay(hooks[..2], a, patrol, chase, cfg, w, target) == ran;
    } else {
      assert hooks == hooks[..1];
    }
  }

  /** Replaying the hooks of a tick that starts in Patrol. */
  lemma ReplayFromPatrol(a: Agent, target: Option<Character>, patrol: BaseState, chase: BaseState,
                         cfg: AgentConfig, w: World)
    requires AgentInvariant(a, cfg) && patrol != chase
    ensures var next := Settled(target, patrol, chase);
            var ran := PatrolRunStep(a, cfg, w);
            Replay(RunHooks(patrol, next), a, patrol, chase, cfg, w, target)
              == if next == patrol then ran else ChaseEnterStep(ran)
  {
    var next := Settled(target, patrol, chase);
    var hooks := RunHooks(patrol, next);
    var ran := PatrolRunStep(a, cfg, w);
    assert hooks[..1] == [OnStateRun(patrol)];
    assert [OnStateRun(patrol)][..0] == [];
    assert Replay(hooks[..1], a, patrol, chase, cfg, w, target) == ran;
    if next != patrol {
      assert hooks == [OnStateRun(patrol), OnStateExit(patrol), OnStateEnter(chase)];
      assert hooks[..2][..1] == hooks[..1];
      assert Replay(hooks[..2], a, patrol, chase, cfg, w, target) == ran;
    } else {
      assert hooks == hooks[..1];
    }
  }

  /** A tick that starts in Chase never moves the patrol index, whether it
      stays in Chase or falls back to Patrol. */
  lemma ChaseKeepsPatrolIndex(a: Agent, target: Option<Character>, patrol: BaseState, chase: BaseState,
                              cfg: AgentConfig, w: World)
    requires AgentInvariant(a, cfg) && patrol != chase
    ensures AgentTick(a, chase, target, patrol, chase, cfg, w).patrolIndex == a.patrolIndex
  {
    ReplayFromChase(a, target, patrol, chase, cfg, w);
  }

  /** A tick that starts in Patrol advances the patrol index exactly when the
      agent stands within the threshold of the current point, wrapping after
      the last one. */
  lemma PatrolAdvancesIndex(a: Agent, target: Option<Character>, patrol: BaseState, chase: BaseState,
                            cfg: AgentConfig, w: World)
    requires AgentInvariant(a, cfg) && patrol != chase
    ensures AgentTick(a, patrol, target, patrol, chase, cfg, w).patrolIndex
              == NextPatrolIndex(a.patrolIndex, cfg, w.position)
  {
    ReplayFromPatrol(a, target, patrol, chase, cfg, w);
  }

  /** The sprint wish tracks the state: entering Chase sets it, entering
      Patrol clears it, and running a state leaves it alone. */
  lemma ReplaySetsSprint(a: Agent, current: BaseState, target: Option<Character>, patrol: BaseState,
                         chase: BaseState, cfg: AgentConfig, w: World)
    requires AgentInvariant(a, cfg) && patrol != chase
    requires current == patrol || current == chase
    requires a.sprintWish == (current == chase)
    ensures Replay(RunHooks(current, Settled(target, patrol, chase)), a, patrol, chase, cfg, w, target).sprintWish
              == target.Some?
  {
    if current == patrol {
      ReplayFromPatrol(a, target, patrol, chase, cfg, w);
    } else {
      ReplayFromChase(a, target, patrol, chase, cfg, w);
    }
  }

  /** Over a whole tick the sprint wish ends up saying whether a target is held. */
  lemma SprintTracksState(a: Agent, current: BaseState, target: Option<Character>, patrol: BaseState,
                          chase: BaseState, cfg: AgentConfig, w: World)
    requires AgentInvariant(a, cfg) && patrol != chase
    requires current == patrol || current == chase
    requires a.sprintWish == (current == chase)
    ensures AgentTick(a, current, target, patrol, chase, cfg, w).sprintWish == target.Some?
  {
    ReplaySetsSprint(a, current, target, patrol, chase, cfg, w);
  }

  /** The tick in which the agent starts chasing ends with no path cursor:
      chase's enter hook drops it after patrol's run hook, so no corner is
      followed that tick. */
  lemma ChaseStartsWithoutCursor(a: Agent, target: Character, patrol: BaseState, chase: BaseState,
                                 cfg: AgentConfig, w: World)
    requires AgentInvariant(a, cfg) && patrol != chase
    ensures AgentTick(a, patrol, Some(target), patrol, chase, cfg, w).path.cursor == -1
  {
    ReplayFromPatrol(a, Some(target), patrol, chase, cfg, w);
  }

  /** The machine as Awake wires it moves from Patrol exactly when a target
      is held and from Chase exactly when none is. */
  lemma WiringResolves(patrol: BaseState, chase: BaseState, current: BaseState, target: Option<Character>)
    requires patrol != chase && (current == patrol || current == chase)
    ensures var ts := if current == patrol then [BooleanTransition(chase, true, TargetHeld)]
                      else [BooleanTransition(patrol, true, TargetLost)];
            Resolve(current, ts, TransitionProbes(target.Some?)) == Settled(target, patrol, chase)
  {
    var p := TransitionProbes(target.Some?);
    if current == patrol {
      ResolveSingle(current, BooleanTransition(chase, true, TargetHeld), p);
    } else {
      ResolveSingle(current, BooleanTransition(patrol, true, TargetLost), p);
    }
  }

  // ---------------------------------------------------------------------
  // The controller

  class ObjectFsmController {
    const character: Character
    const config: AgentConfig
    const motor: CharacterMotor
    const fsmRunner: FiniteStateMachineRunner
    const patrol: BaseState
    const chase: BaseState

    var currentPatrolIndex: int
    var navMeshPath: NavPath
    var curNavMeshPathIndex: int
    var hasReachedDestination: bool
    var enemyCandidates: set<Character>
    var followTarget: Option<Character>

    function Path(): PathState
      reads this
    {
      PathState(navMeshPath, curNavMeshPathIndex, hasReachedDestination)
    }

    function AgentState(): Agent
      reads this, motor
    {
      Agent(currentPatrolIndex, Path(), motor.sprintWish, motor.moveWish)
    }

    /** The wiring Awake sets up, and what every hook relies on. */
    predicate Wired()
      reads this, fsmRunner, patrol, chase, motor
    {
      && patrol != chase
      && patrol.transitions == [BooleanTransition(chase, true, TargetHeld)]
      && chase.transitions == [BooleanTransition(patrol, true, TargetLost)]
      && (fsmRunner.currentState == patrol || fsmRunner.currentState == chase)
      && motor.sprintWish == (fsmRunner.currentState == chase)
      && AgentInvariant(AgentState(), config)
    }

    /** Between frames the machine is in Chase exactly when a target is held,
        and every candidate is an enemy. */
    predicate Valid()
      reads this, fsmRunner, patrol, chase, motor
    {
      && Wired()
      && fsmRunner.currentState == Settled(followTarget, patrol, chase)
      && OnlyEnemies(enemyCandidates, character)
    }

    /** Awake: wire patrol => chase on "a target is held" and chase => patrol
        on "no target", then enter Patrol. */
    constructor (character: Character, config: AgentConfig, motor: CharacterMotor, w: World)
      requires |config.patrolPoints| > 0
      modifies motor
      ensures this.character == character && this.config == config && this.motor == motor
      ensures fresh(fsmRunner) && fresh(patrol) && fresh(chase)
      ensures Valid()
      ensures fsmRunner.currentState == patrol && fsmRunner.previousState == null
      ensures fsmRunner.calls == [OnStateEnter(patrol)]
      ensures followTarget == None && enemyCandidates == {} && currentPatrolIndex == 0
      ensures Path() == PlanPath(PathTo(w, config.patrolPoints[0]), w.position, config.waypointThreshold)
      ensures !motor.sprintWish && motor.moveWish == old(motor.moveWish)
    {
      this.character := character;
      this.config := config;
      this.motor := motor;
      var runner := new FiniteStateMachineRunner();
      var patrolState := new BaseState();
      var chaseState := new BaseState();
      fsmRunner := runner;
      patrol := patrolState;
      chase := chaseState;
      currentPatrolIndex := 0;
      navMeshPath := NavPath(false, []);
      curNavMeshPathIndex := -1;
      hasReachedDestination := false;
      enemyCandidates := {};
      followTarget := None;
      new;
      patrol.AddCondition(BooleanTransition(chase, true, TargetHeld));
      chase.AddCondition(BooleanTransition(patrol, true, TargetLost));
      fsmRunner.SetCurrentState(patrol);
      assert fsmRunner.calls == [OnStateEnter(patrol)];
      ReplayCalls(0, w);
      assert [OnStateEnter(patrol)][..0] == [];
    }

    /** SetDestination. */
    method SetDestination(w: World, destination: Vec3) returns (canReach: bool)
      modifies this`navMeshPath, this`curNavMeshPathIndex, this`hasReachedDestination
      ensures Path() == PlanPath(PathTo(w, destination), w.position, config.waypointThreshold)
      ensures canReach <==> PathTo(w, destination).Found?
    {
      curNavMeshPathIndex := -1;
      hasReachedDestination := false;
      var query := PathTo(w, destination);
      if query.Unreachable? {
        navMeshPath := NavPath(false, []);
        return false;
      }
      navMeshPath := NavPath(true, query.corners);
      curNavMeshPathIndex := 0;
      var pathTarget := navMeshPath.corners[curNavMeshPathIndex];
      var offset := Sub(pathTarget, w.position);
      if SqrMagnitude(offset) < config.waypointThreshold * config.waypointThreshold {
        curNavMeshPathIndex := curNavMeshPathIndex + 1;
        hasReachedDestination := curNavMeshPathIndex >= |navMeshPath.corners|;
      }
      return true;
    }

    method PatrolEnter(w: World)
      requires AgentInvariant(AgentState(), config)
      modifies this`navMeshPath, this`curNavMeshPathIndex, this`hasReachedDestination, motor`sprintWish
      ensures AgentState() == PatrolEnterStep(old(AgentState()), config, w)
    {
      var _ := SetDestination(w, config.patrolPoints[currentPatrolIndex]);
      motor.sprintWish := false;
    }

    method PatrolRun(w: World)
      requires AgentInvariant(AgentState(), config)
      modifies this`currentPatrolIndex, this`navMeshPath, this`curNavMeshPathIndex, this`hasReachedDestination
      ensures AgentState() == PatrolRunStep(old(AgentState()), config, w)
    {
      var offset := Sub(w.position, config.patrolPoints[currentPatrolIndex]);
      if SqrMagnitude(offset) < config.waypointThreshold * config.waypointThreshold {
        currentPatrolIndex := (currentPatrolIndex + 1) % |config.patrolPoints|;
        var _ := SetDestination(w, config.patrolPoints[currentPatrolIndex]);
      }
    }

    method ChaseEnter()
      modifies this`curNavMeshPathIndex, motor`sprintWish
      ensures AgentState() == ChaseEnterStep(old(AgentState()))
    {
      curNavMeshPathIndex := -1;
      motor.sprintWish := true;
    }

    method ChaseRun(w: World)
      requires AgentInvariant(AgentState(), config)
      modifies this`navMeshPath, this`curNavMeshPathIndex, this`hasReachedDestination, motor`moveWish
      ensures AgentState() == ChaseRunStep(old(AgentState()), config, w, followTarget)
    {
      if followTarget.None? {
        return;
      }
      var targetPosition := PositionOf(w, followTarget.value);
      var myHit := Sample(w, w.position);
      var followHit := Sample(w, targetPosition);
      var hasClearPath := myHit.Some? && followHit.Some? && !NavBlocked(w, myHit.value, followHit.value);
      if hasClearPath {
        motor.moveWish := SeekTarget(AgentState(), config, w, targetPosition);
      } else if followHit.Some? {
        var isPathStale := NavBlocked(w, Destination(navMeshPath), followHit.value) || hasReachedDestination;
        if isPathStale {
          var _ := SetDestination(w, followHit.value);
        }
      } else {
        motor.moveWish := SeekTarget(AgentState(), config, w, targetPosition);
      }
    }

    /** Runs the body of one logged hook call. */
    method Dispatch(h: Hook, w: World)
      requires AgentInvariant(AgentState(), config)
      modifies this`currentPatrolIndex, this`navMeshPath, this`curNavMeshPathIndex, this`hasReachedDestination
      modifies motor`sprintWish, motor`moveWish
      ensures AgentState() == HookStep(h, old(AgentState()), patrol, chase, config, w, followTarget)
    {
      match h
      case OnStateEnter(s) =>
        if s == patrol {
          PatrolEnter(w);
        } else if s == chase {
          ChaseEnter();
        }
      case OnStateRun(s) =>
        if s == patrol {
          PatrolRun(w);
        } else if s == chase {
          ChaseRun(w);
        }
      case OnStateExit(_) =>
      case NullStateAssertion =>
    }

    /** Executes, in order, the hook calls the runner logged from `start` on. */
    method ReplayCalls(start: nat, w: World)
      requires start <= |fsmRunner.calls|
      requires AgentInvariant(AgentState(), config)
      modifies this`currentPatrolIndex, this`navMeshPath, this`curNavMeshPathIndex, this`hasReachedDestination
      modifies motor`sprintWish, motor`moveWish
      ensures AgentState() == Replay(fsmRunner.calls[start..], old(AgentState()), patrol, chase, config, w, followTarget)
    {
      var i := start;
      while i < |fsmRunner.calls|
        invariant start <= i <= |fsmRunner.calls|
        invariant AgentInvariant(old(AgentState()), config)
        invariant AgentState() == Replay(fsmRunner.calls[start..i], old(AgentState()), patrol, chase, config, w, followTarget)
      {
        Dispatch(fsmRunner.calls[i], w);
        assert fsmRunner.calls[start..i + 1][..i - start] == fsmRunner.calls[start..i];
        i := i + 1;
      }
      assert fsmRunner.calls[start..i] == fsmRunner.calls[start..];
    }

    /** `fsmRunner.Run()` together with the hook bodies it calls. */
    method RunStateMachine(w: World)
      requires Wired()
      modifies fsmRunner, this`currentPatrolIndex, this`navMeshPath, this`curNavMeshPathIndex, this`hasReachedDestination
      modifies motor`sprintWish, motor`moveWish
      ensures Wired()
      ensures fsmRunner.currentState == Settled(followTarget, patrol, chase)
      ensures fsmRunner.calls == old(fsmRunner.calls) + RunHooks(old(fsmRunner.currentState), fsmRunner.currentState)
      ensures AgentState() == Replay(RunHooks(old(fsmRunner.currentState), fsmRunner.currentState),
                                     old(AgentState()), patrol, chase, config, w, followTarget)
    {
      var start := |fsmRunner.calls|;
      var current := fsmRunner.currentState;
      ghost var before := AgentState();
      WiringResolves(patrol, chase, current, followTarget);
      fsmRunner.Run(TransitionProbes(followTarget.Some?));
      assert fsmRunner.calls[start..] == RunHooks(current, fsmRunner.currentState);
      ReplayCalls(start, w);
      ReplaySetsSprint(before, current, followTarget, patrol, chase, config, w);
    }

    /** The path-following block at the end of Update. */
    method FollowPath(w: World)
      requires AgentInvariant(AgentState(), config)
      modifies this`curNavMeshPathIndex, this`hasReachedDestination, motor`moveWish
      ensures AgentState() == FollowPathStep(old(AgentState()), config, w, followTarget)
    {
      if navMeshPath.valid && curNavMeshPathIndex != -1 && curNavMeshPathIndex != |navMeshPath.corners| {
        var pathTarget := navMeshPath.corners[curNavMeshPathIndex];
        var offset := Sub(pathTarget, w.position);
        motor.moveWish := Normalized(offset);
        motor.moveWish := Steered(motor.moveWish, w.position, pathTarget, SteeringGain(config, w, followTarget));
        if SqrMagnitude(offset) < config.waypointThreshold * config.waypointThreshold {
          curNavMeshPathIndex := curNavMeshPathIndex + 1;
          hasReachedDestination := curNavMeshPathIndex >= |navMeshPath.corners|;
        }
      }
    }

    /** One frame: acquire or drop the target, run the machine, follow the path. */
    method Update(w: World)
      requires Valid()
      modifies this, fsmRunner, motor`sprintWish, motor`moveWish
      ensures Valid()
      ensures enemyCandidates == old(enemyCandidates)
      ensures old(followTarget).Some? ==>
                followTarget == (if CanSee(w, old(followTarget).value) then old(followTarget) else None)
      ensures old(followTarget).None? ==>
                && (followTarget.Some? ==> followTarget.value in enemyCandidates && CanSee(w, followTarget.value))
                && (followTarget.None? <==> forall c :: c in enemyCandidates ==> !CanSee(w, c))
      ensures fsmRunner.calls == old(fsmRunner.calls) + RunHooks(old(fsmRunner.currentState), fsmRunner.currentState)
      ensures AgentState() == AgentTick(old(AgentState()), old(fsmRunner.currentState), followTarget,
                                        patrol, chase, config, w)
    {
      if followTarget.None? {
        var found := FirstVisible(enemyCandidates, w);
        followTarget := found;
      } else if !CanSee(w, followTarget.value) {
        followTarget := None;
      }
      RunStateMachine(w);
      FollowPath(w);
    }

    method OnTriggerEnter(other: Option<Character>)
      requires Valid()
      modifies this`enemyCandidates
      ensures Valid()
      ensures enemyCandidates == Entered(old(enemyCandidates), character, other)
    {
      if other.Some? && other.value.factionId != character.factionId {
        enemyCandidates := enemyCandidates + {other.value};
      }
    }

    method OnTriggerExit(other: Option<Character>)
      requires Valid()
      modifies this`enemyCandidates
      ensures Valid()
      ensures enemyCandidates == Exited(old(enemyCandidates), character, other)
    {
      if other.Some? && other.value.factionId != character.factionId {
        enemyCandidates := enemyCandidates - {other.value};
      }
    }
  }
}
