# Third-person character and agent controllers, modelled in Dafny

This project models the gameplay core of a Unity third-person sample: a
generic finite-state-machine engine, two agents built on it, a simple
waypoint patroller, the character motor's movement-mode machine, and the
player's camera and input controller. It then proves what these scripts
promise.

- `common.dfy` (module `Common`) holds the engine's vectors, the squared-distance test `Within` and `Option`. It also holds the `Wish` datatype. `Wish` is a symbolic MoveWish: it records which vector was normalised and which steering force was added, instead of computing a square root.
- `state_machine.dfy` (module `StateMachine`) covers `BaseState` and its three transition kinds (`FloatTransition`, `BooleanTransition` and `CompoundTransition`), plus `FiniteStateMachineRunner`. The runner keeps a log of the hook calls it makes (enter, exit, run). That log is what lets the model state the order of the calls.
- `object_fsm.dfy` (module `ObjectFsm`) covers `ObjectFSMController`.
  - The agent acquires and drops a target by line of sight.
  - It keeps a set of enemy candidates.
  - It follows a navigation path with a corner cursor.
  - It cycles through patrol points.
  - Two `BaseState` objects (patrol and chase) are wired with one boolean transition each. The controller executes the logged hook calls in order.
- `switch_fsm.dfy` (module `SwitchFsm`) covers `SwitchFSMController`, the enum-based Patrol/Chase/Attack machine.
- `patrol_ai.dfy` (module `PatrolAi`) covers `PatrolAIController`.
- `character_motor.dfy` (module `Motor`) covers the `CharacterMotor` modes Grounded, Falling, Floating and Hanging. It includes the vertical-velocity and timeout rules, ledge catching and hanging, and flying.
- `player_controller.dfy` (module `Player`) covers `PlayerController`: the angle clamp, the yaw/pitch update and the input setters.

Scripts that change fields step by step are classes whose methods are
proved against pure step functions. `CharacterMotor.Update` is specified by
`Tick`, the ObjectFSM hooks by `PatrolRunStep` and its siblings, and
`SwitchFsmController.Update` by `SwitchTick`. The properties are proved as
lemmas about those functions.

The engine's queries are inputs to the model. These are the ground and
ledge probes, `Collider.ClosestPoint`, `Physics.Linecast`, the NavMesh
queries, transform positions and the frame time. They are fields of the
`Senses`, `World` and `Scene` datatypes.

Floats are modelled as `real`.

Where the specification and the code differ, the model follows the code:

- The terminal velocity of 53 is compared with a signed vertical velocity (`CharacterMotor.cs:442`). The cap is positive, so it never limits a fall; `FallingNeverCapped` and `DescentUnbounded` prove that a fall keeps speeding up.
- A `FloatTransition` compares its probe with the square of its threshold, not with the threshold itself.

## Model

| member | source | states |
|---|---|---|
| StateMachine.ShouldTransition | Assets/AIE.ThirdPersonBase/Scripts/FSMs/ObjectOriented/BaseState.cs:66-128 | The result is exactly whether the transition fires: a boolean one when the probe equals `expected`; a float one by comparing the probe with threshold²; a compound one when some child fires, scanning children in order and stopping at the first. |
| StateMachine.FirstFiring | Assets/AIE.ThirdPersonBase/Scripts/FSMs/ObjectOriented/BaseState.cs:12-18 | The result is the position of a transition that fires and none before it fires; it is None exactly when no transition fires. |
| StateMachine.Resolve | Assets/AIE.ThirdPersonBase/Scripts/FSMs/ObjectOriented/BaseState.cs:10-21 | With no transition satisfied, the state itself; otherwise the target of the first satisfied transition in registration order. |
| StateMachine.FirstIndex | Assets/AIE.ThirdPersonBase/Scripts/FSMs/ObjectOriented/BaseState.cs:34-37 | The position where the removed transition occurs first: it holds the transition, and no earlier position does. |
| StateMachine.FirstIndexUnique | Assets/AIE.ThirdPersonBase/Scripts/FSMs/ObjectOriented/BaseState.cs:34-37 | A position that holds the transition with no earlier one holding it is the first index. |
| StateMachine.RemoveFirst | Assets/AIE.ThirdPersonBase/Scripts/FSMs/ObjectOriented/BaseState.cs:34-37 | Removing an absent transition changes nothing. Otherwise the list loses exactly one copy (multiset difference), and the rest keep their relative order. |
| StateMachine.BaseState.constructor | Assets/AIE.ThirdPersonBase/Scripts/FSMs/ObjectOriented/BaseState.cs:8 | A new state has no transitions. |
| StateMachine.BaseState.ChangeState | Assets/AIE.ThirdPersonBase/Scripts/FSMs/ObjectOriented/BaseState.cs:10-21 | The loop returns `Resolve` of the transition list: the first satisfied target, or the state itself. |
| StateMachine.BaseState.AddCondition | Assets/AIE.ThirdPersonBase/Scripts/FSMs/ObjectOriented/BaseState.cs:29-32 | The transition is appended at the end of the list. |
| StateMachine.BaseState.RemoveCondition | Assets/AIE.ThirdPersonBase/Scripts/FSMs/ObjectOriented/BaseState.cs:34-37 | The list becomes `RemoveFirst` of the old list. |
| StateMachine.FiniteStateMachineRunner.constructor | Assets/AIE.ThirdPersonBase/Scripts/FSMs/ObjectOriented/FiniteStateMachineRunner.cs:7-8 | A new runner has no current or previous state and has made no calls. |
| StateMachine.FiniteStateMachineRunner.ChangeState | Assets/AIE.ThirdPersonBase/Scripts/FSMs/ObjectOriented/FiniteStateMachineRunner.cs:18-33 | The previous state becomes the old current state. The calls are the old state's exit (when there is one) before the new state's enter. A null new state records the assertion and enters nothing. |
| StateMachine.FiniteStateMachineRunner.SetCurrentState | Assets/AIE.ThirdPersonBase/Scripts/FSMs/ObjectOriented/FiniteStateMachineRunner.cs:9-16 | The setter is a full change, even to the state already current (exit then enter of that same state). |
| StateMachine.FiniteStateMachineRunner.Run | Assets/AIE.ThirdPersonBase/Scripts/FSMs/ObjectOriented/FiniteStateMachineRunner.cs:35-51 | With no current state, nothing happens. Otherwise the run hook comes first, and the state becomes the resolved one. A change (exit, then enter) happens only when that differs, and the previous state moves only on a change. |
| StateMachine.ThresholdSignIrrelevant | Assets/AIE.ThirdPersonBase/Scripts/FSMs/ObjectOriented/BaseState.cs:66-86 | Negating a float transition's threshold never changes whether it fires, because it is squared. |
| StateMachine.ComparisonsComplement | Assets/AIE.ThirdPersonBase/Scripts/FSMs/ObjectOriented/BaseState.cs:68-85 | `<` is the negation of `>=` and `>` that of `<=` against threshold²; an operator value outside the enum never fires. |
| StateMachine.CompoundIsDisjunction | Assets/AIE.ThirdPersonBase/Scripts/FSMs/ObjectOriented/BaseState.cs:117-128 | A compound over `a + b` fires iff the compound over `a` or over `b` fires; an empty compound never fires. |
| StateMachine.ResolveSingle | Assets/AIE.ThirdPersonBase/Scripts/FSMs/ObjectOriented/BaseState.cs:10-21 | A state with one transition moves to its target exactly when it fires. |
| StateMachine.AddedTransitionIsLastResort | Assets/AIE.ThirdPersonBase/Scripts/FSMs/ObjectOriented/BaseState.cs:29-32 | An appended transition decides the next state only when none of the earlier ones fires. |
| StateMachine.FirstFiringAfterRemoval | Assets/AIE.ThirdPersonBase/Scripts/FSMs/ObjectOriented/BaseState.cs:34-37 | Taking out a transition that does not fire shifts the first firing position down by one when it lay after it, and otherwise keeps it. |
| StateMachine.ResolveAfterRemoval | Assets/AIE.ThirdPersonBase/Scripts/FSMs/ObjectOriented/BaseState.cs:10-21 | Deleting a transition that does not fire, at any position, leaves the resolved state unchanged. |
| StateMachine.RemovingSilentTransitionKeepsResolution | Assets/AIE.ThirdPersonBase/Scripts/FSMs/ObjectOriented/BaseState.cs:34-37 | Removing a transition that does not fire never changes the state resolved to. |
| StateMachine.AddThenRemove | Assets/AIE.ThirdPersonBase/Scripts/FSMs/ObjectOriented/BaseState.cs:29-37 | Adding then removing a transition not yet registered restores the list. When it was registered already, the earlier copy is the one removed. |
| StateMachine.ChangeHooksOrder | Assets/AIE.ThirdPersonBase/Scripts/FSMs/ObjectOriented/FiniteStateMachineRunner.cs:18-33 | A change calls the old state's exit first and the new state's enter last, each once. |
| ObjectFsm.FirstVisible | Assets/AIE.ThirdPersonBase/Scripts/FSMs/ObjectOriented/ObjectFSMController.cs:183-200 | The loop finds a visible candidate from the set, and finds none exactly when no candidate is visible. A blocked line whose hit is the candidate itself counts as visible. |
| ObjectFsm.Entered | Assets/AIE.ThirdPersonBase/Scripts/FSMs/ObjectOriented/ObjectFSMController.cs:248-258 | Only the entering character can be added, and it is added exactly when its faction differs from the agent's. |
| ObjectFsm.Exited | Assets/AIE.ThirdPersonBase/Scripts/FSMs/ObjectOriented/ObjectFSMController.cs:260-271 | Only the leaving character can be removed, and it is removed exactly when its faction differs from the agent's. |
| ObjectFsm.TriggersKeepOnlyEnemies | Assets/AIE.ThirdPersonBase/Scripts/FSMs/ObjectOriented/ObjectFSMController.cs:248-271 | Both trigger events keep the candidate set free of same-faction characters. |
| ObjectFsm.EnterThenExit | Assets/AIE.ThirdPersonBase/Scripts/FSMs/ObjectOriented/ObjectFSMController.cs:248-271 | An enemy that enters and leaves again leaves the candidate set unchanged. |
| ObjectFsm.PlanPath | Assets/AIE.ThirdPersonBase/Scripts/FSMs/ObjectOriented/ObjectFSMController.cs:141-160 | SetDestination as a function on paths. An unreachable destination leaves no cursor and not reached. A found path starts at corner 0, or at corner 1 when the agent already stands on corner 0, and is reached iff that passes the end. The cursor invariant holds either way. |
| ObjectFsm.PlannedDestination | Assets/AIE.ThirdPersonBase/Scripts/FSMs/ObjectOriented/ObjectFSMController.cs:22-30 | After planning, `Destination` is the path's last corner, or zero when no path was found. |
| ObjectFsm.Advance | Assets/AIE.ThirdPersonBase/Scripts/FSMs/ObjectOriented/ObjectFSMController.cs:224-245 | The cursor moves by one exactly when a path is being followed and the agent is within the threshold of the current corner; otherwise nothing changes. The cursor invariant is kept. |
| ObjectFsm.WalkNeverRetreats | Assets/AIE.ThirdPersonBase/Scripts/FSMs/ObjectOriented/ObjectFSMController.cs:240-244 | Over any run of frames the cursor never moves back, and gains at most one corner per frame. |
| ObjectFsm.WalkingTheCornersArrives | Assets/AIE.ThirdPersonBase/Scripts/FSMs/ObjectOriented/ObjectFSMController.cs:240-244 | An agent that stands near each remaining corner in turn reaches the end of the path and sets HasReachedDestination. |
| ObjectFsm.PatrolEnterStep | Assets/AIE.ThirdPersonBase/Scripts/FSMs/ObjectOriented/ObjectFSMController.cs:62-66 | Patrol's enter hook plans the path to the patrol point the index names, clears the sprint wish, and keeps the patrol index, the move wish and the agent invariant. |
| ObjectFsm.NextPatrolIndex | Assets/AIE.ThirdPersonBase/Scripts/FSMs/ObjectOriented/ObjectFSMController.cs:71-74 | The index stays within the patrol points. It moves only when the agent is within the threshold of the current point, and then to the next point, wrapping after the last. |
| ObjectFsm.PatrolRunStep | Assets/AIE.ThirdPersonBase/Scripts/FSMs/ObjectOriented/ObjectFSMController.cs:68-76 | Patrol's run hook changes only the index (as above) and the path. Away from the current point it changes nothing; on arrival the path is re-planned to the point the new index names. |
| ObjectFsm.ChaseEnterStep | Assets/AIE.ThirdPersonBase/Scripts/FSMs/ObjectOriented/ObjectFSMController.cs:88-92 | Chase's enter hook sets the cursor to -1 and the sprint wish. It keeps the patrol index, the navigation path, the reached flag and the move wish. |
| ObjectFsm.ChaseRunStep | Assets/AIE.ThirdPersonBase/Scripts/FSMs/ObjectOriented/ObjectFSMController.cs:94-138 | Chase's run hook never touches the patrol index or the sprint wish, and does nothing without a target. With a clear navmesh line to the target, or with the target off the navmesh, only the move wish changes: it is steered at the target. With a blocked line to a target on the navmesh, the path is re-planned to the target's navmesh position when the old path is stale (its destination cannot see the target, or it was reached), and otherwise nothing changes. |
| ObjectFsm.HookStep | Assets/AIE.ThirdPersonBase/Scripts/FSMs/ObjectOriented/ObjectFSMController.cs:53-139 | Running the body of the state a logged hook names keeps the patrol index in range and the cursor invariant. |
| ObjectFsm.Replay | Assets/AIE.ThirdPersonBase/Scripts/FSMs/ObjectOriented/FiniteStateMachineRunner.cs:35-51 | Executing the hooks of a run, in order, keeps the agent invariant. |
| ObjectFsm.FollowPathStep | Assets/AIE.ThirdPersonBase/Scripts/FSMs/ObjectOriented/ObjectFSMController.cs:224-245 | While a path is followed, the move wish steers toward the current corner: the unit offset to it, eased by `Steered` with the patrol or chase gain times the frame time. The cursor moves as `Advance` says. The patrol index and sprint are kept, and nothing changes when no path is followed. |
| ObjectFsm.AgentTick | Assets/AIE.ThirdPersonBase/Scripts/FSMs/ObjectOriented/ObjectFSMController.cs:220-245 | A whole tick after acquisition keeps the patrol index in range and the cursor invariant. |
| ObjectFsm.ReplayFromChase | Assets/AIE.ThirdPersonBase/Scripts/FSMs/ObjectOriented/FiniteStateMachineRunner.cs:35-51 | A tick from Chase runs chase's body, then on a change patrol's enter, and nothing else. |
| ObjectFsm.ReplayFromPatrol | Assets/AIE.ThirdPersonBase/Scripts/FSMs/ObjectOriented/FiniteStateMachineRunner.cs:35-51 | A tick from Patrol runs patrol's body, then on a change chase's enter, and nothing else. |
| ObjectFsm.ChaseKeepsPatrolIndex | Assets/AIE.ThirdPersonBase/Scripts/FSMs/ObjectOriented/ObjectFSMController.cs:88-138 | A tick that starts in Chase never moves the patrol index, even when it falls back to Patrol. |
| ObjectFsm.PatrolAdvancesIndex | Assets/AIE.ThirdPersonBase/Scripts/FSMs/ObjectOriented/ObjectFSMController.cs:71-74 | A tick that starts in Patrol moves the index exactly as `NextPatrolIndex` says, whether or not it starts chasing. |
| ObjectFsm.ReplaySetsSprint | Assets/AIE.ThirdPersonBase/Scripts/FSMs/ObjectOriented/ObjectFSMController.cs:62-92 | After the run's hooks, the sprint wish says whether a target is held. |
| ObjectFsm.SprintTracksState | Assets/AIE.ThirdPersonBase/Scripts/FSMs/ObjectOriented/ObjectFSMController.cs:62-92 | Over a whole tick, the sprint wish ends up saying whether a target is held. |
| ObjectFsm.ChaseStartsWithoutCursor | Assets/AIE.ThirdPersonBase/Scripts/FSMs/ObjectOriented/ObjectFSMController.cs:88-92 | In the tick the chase starts, the cursor ends at -1: chase's enter comes after patrol's run, so no corner is followed. |
| ObjectFsm.WiringResolves | Assets/AIE.ThirdPersonBase/Scripts/FSMs/ObjectOriented/ObjectFSMController.cs:170-173 | As wired, Patrol moves to Chase iff a target is held, and Chase moves to Patrol iff none is. |
| ObjectFsm.ObjectFsmController.constructor | Assets/AIE.ThirdPersonBase/Scripts/FSMs/ObjectOriented/ObjectFSMController.cs:162-176 | Awake wires the two transitions and starts in Patrol, with one enter call. The first path goes to patrol point 0, sprint is off, there is no target, and the controller is valid. |
| ObjectFsm.ObjectFsmController.SetDestination | Assets/AIE.ThirdPersonBase/Scripts/FSMs/ObjectOriented/ObjectFSMController.cs:141-160 | The path becomes `PlanPath` of the query. The result says whether a path was found. |
| ObjectFsm.ObjectFsmController.PatrolEnter | Assets/AIE.ThirdPersonBase/Scripts/FSMs/ObjectOriented/ObjectFSMController.cs:62-66 | The agent becomes `PatrolEnterStep` of the old agent. |
| ObjectFsm.ObjectFsmController.PatrolRun | Assets/AIE.ThirdPersonBase/Scripts/FSMs/ObjectOriented/ObjectFSMController.cs:68-76 | The agent becomes `PatrolRunStep` of the old agent. |
| ObjectFsm.ObjectFsmController.ChaseEnter | Assets/AIE.ThirdPersonBase/Scripts/FSMs/ObjectOriented/ObjectFSMController.cs:88-92 | The agent becomes `ChaseEnterStep` of the old agent. |
| ObjectFsm.ObjectFsmController.ChaseRun | Assets/AIE.ThirdPersonBase/Scripts/FSMs/ObjectOriented/ObjectFSMController.cs:94-138 | The agent becomes `ChaseRunStep` of the old agent and the held target. |
| ObjectFsm.ObjectFsmController.Dispatch | Assets/AIE.ThirdPersonBase/Scripts/FSMs/ObjectOriented/ObjectFSMController.cs:53-139 | One logged hook runs the body of the state it names, as `HookStep` says. |
| ObjectFsm.ObjectFsmController.FollowPath | Assets/AIE.ThirdPersonBase/Scripts/FSMs/ObjectOriented/ObjectFSMController.cs:224-245 | The agent becomes `FollowPathStep` of the old agent. |
| ObjectFsm.ObjectFsmController.ReplayCalls | Assets/AIE.ThirdPersonBase/Scripts/FSMs/ObjectOriented/FiniteStateMachineRunner.cs:35-51 | Executing the logged calls one by one gives `Replay` of them. |
| ObjectFsm.ObjectFsmController.RunStateMachine | Assets/AIE.ThirdPersonBase/Scripts/FSMs/ObjectOriented/ObjectFSMController.cs:221 | After `fsmRunner.Run()` the state is Chase exactly when a target is held. The calls are the run hooks, and the agent is their replay. |
| ObjectFsm.ObjectFsmController.Update | Assets/AIE.ThirdPersonBase/Scripts/FSMs/ObjectOriented/ObjectFSMController.cs:178-246 | Acquisition runs only without a target and picks a visible candidate (none iff no candidate is visible). A held target is dropped exactly when it is no longer visible. The agent's new state is `AgentTick`, and validity is kept. |
| ObjectFsm.ObjectFsmController.OnTriggerEnter | Assets/AIE.ThirdPersonBase/Scripts/FSMs/ObjectOriented/ObjectFSMController.cs:248-258 | The candidate set becomes `Entered`, and validity is kept. |
| ObjectFsm.ObjectFsmController.OnTriggerExit | Assets/AIE.ThirdPersonBase/Scripts/FSMs/ObjectOriented/ObjectFSMController.cs:260-271 | The candidate set becomes `Exited`, and validity is kept. |
| SwitchFsm.PatrolBody | Assets/AIE.ThirdPersonBase/Scripts/FSMs/SwitchFSMController.cs:31-45 | Patrol clears sprint and aims at the current point. The index moves only within the threshold, to the next point with wrap-around. It asks for Chase iff a target is held. |
| SwitchFsm.ChaseBody | Assets/AIE.ThirdPersonBase/Scripts/FSMs/SwitchFSMController.cs:49-61 | Without a target, Chase resets the index to 0 and asks for Patrol. With one, it sprints at the target and asks for Attack iff strictly inside attack range. |
| SwitchFsm.AttackBody | Assets/AIE.ThirdPersonBase/Scripts/FSMs/SwitchFSMController.cs:65-79 | Without a target, Attack resets the index to 0 and asks for Patrol. With one, it zeroes MoveWish and asks for Chase iff strictly outside attack range. |
| SwitchFsm.RunBody | Assets/AIE.ThirdPersonBase/Scripts/FSMs/SwitchFSMController.cs:123-134 | Exactly one body runs. It keeps the index in bounds and leaves `currentState` alone. |
| SwitchFsm.SwitchTick | Assets/AIE.ThirdPersonBase/Scripts/FSMs/SwitchFSMController.cs:121-141 | After Update, `currentState` equals the `nextState` the body chose, and the index stays in bounds. |
| SwitchFsm.TickHooks | Assets/AIE.ThirdPersonBase/Scripts/FSMs/SwitchFSMController.cs:137-140 | Update calls either no hooks or one exit and one enter, and calls them exactly when the state changes. |
| SwitchFsm.ReachableMoves | Assets/AIE.ThirdPersonBase/Scripts/FSMs/SwitchFSMController.cs:44-78 | From Patrol the only move is to Chase, made iff a target is held; Patrol never goes directly to Attack. Chase and Attack end in Patrol iff the target is lost. |
| SwitchFsm.LostTargetResets | Assets/AIE.ThirdPersonBase/Scripts/FSMs/SwitchFSMController.cs:51-67 | Losing the target in Chase or Attack resets the index to 0 and returns to Patrol, with the old state's exit then Patrol's enter. |
| SwitchFsm.AttackBoundaryIsStrict | Assets/AIE.ThirdPersonBase/Scripts/FSMs/SwitchFSMController.cs:57-75 | Chase attacks iff strictly inside attack², and Attack chases iff strictly outside. |
| SwitchFsm.OnTheBoundaryNothingMoves | Assets/AIE.ThirdPersonBase/Scripts/FSMs/SwitchFSMController.cs:57-75 | At exactly attack², neither Chase nor Attack moves, and no hook is called. |
| SwitchFsm.MotorWishes | Assets/AIE.ThirdPersonBase/Scripts/FSMs/SwitchFSMController.cs:33-71 | With a target: Patrol clears sprint, Chase sets it, and Attack sets MoveWish to zero. |
| SwitchFsm.TriggerEnter | Assets/AIE.ThirdPersonBase/Scripts/FSMs/SwitchFSMController.cs:143-149 | A Player-tagged collider becomes the target; any other leaves it unchanged. |
| SwitchFsm.TriggerExit | Assets/AIE.ThirdPersonBase/Scripts/FSMs/SwitchFSMController.cs:151-157 | A Player-tagged collider clears the target; any other leaves it unchanged. |
| SwitchFsm.AnyPlayerExitDropsTarget | Assets/AIE.ThirdPersonBase/Scripts/FSMs/SwitchFSMController.cs:151-157 | A different Player-tagged collider leaving drops the held target too. |
| SwitchFsm.SwitchFsmController.constructor | Assets/AIE.ThirdPersonBase/Scripts/FSMs/SwitchFSMController.cs:14-28 | The controller starts in Patrol at point 0, with no target and no hook calls. |
| SwitchFsm.SwitchFsmController.PatrolRun | Assets/AIE.ThirdPersonBase/Scripts/FSMs/SwitchFSMController.cs:31-45 | The brain (state fields, index and motor wishes) becomes `PatrolBody` of the old one. |
| SwitchFsm.SwitchFsmController.ChaseRun | Assets/AIE.ThirdPersonBase/Scripts/FSMs/SwitchFSMController.cs:49-61 | The brain becomes `ChaseBody` of the old one. |
| SwitchFsm.SwitchFsmController.AttackRun | Assets/AIE.ThirdPersonBase/Scripts/FSMs/SwitchFSMController.cs:65-79 | The brain becomes `AttackBody` of the old one. |
| SwitchFsm.SwitchFsmController.ChangeState | Assets/AIE.ThirdPersonBase/Scripts/FSMs/SwitchFSMController.cs:82-114 | The old state's exit is called, then the state is assigned, then the new state's enter is called. |
| SwitchFsm.SwitchFsmController.Update | Assets/AIE.ThirdPersonBase/Scripts/FSMs/SwitchFSMController.cs:121-141 | The new state is `SwitchTick` and the hooks grow by `TickHooks`. Between frames `currentState == nextState` and the index stays in bounds. |
| SwitchFsm.SwitchFsmController.OnTriggerEnter | Assets/AIE.ThirdPersonBase/Scripts/FSMs/SwitchFSMController.cs:143-149 | The target becomes `TriggerEnter` of the collider. |
| SwitchFsm.SwitchFsmController.OnTriggerExit | Assets/AIE.ThirdPersonBase/Scripts/FSMs/SwitchFSMController.cs:151-157 | The target becomes `TriggerExit` of the collider. |
| PatrolAi.NextWaypoint | Assets/AIE.ThirdPersonBase/Scripts/Agent/PatrolAIController.cs:24 | The index after `index` is in bounds, and wraps to 0 after the last waypoint. |
| PatrolAi.PatrolStep | Assets/AIE.ThirdPersonBase/Scripts/Agent/PatrolAIController.cs:15-32 | The index moves on once, exactly when the current waypoint is strictly within the threshold, and stays in bounds. The final offset is taken against the waypoint the index names afterwards. |
| PatrolAi.PatrolWalk | Assets/AIE.ThirdPersonBase/Scripts/Agent/PatrolAIController.cs:15-32 | The index stays in bounds over any run of frames. |
| PatrolAi.ShiftedWrap | Assets/AIE.ThirdPersonBase/Scripts/Agent/PatrolAIController.cs:24 | One wrapping step followed by `m` more is the same as `m + 1` steps at once. |
| PatrolAi.ModuloDropsMultiples | Assets/AIE.ThirdPersonBase/Scripts/Agent/PatrolAIController.cs:24 | Whole laps of the waypoint loop do not change the index modulo the waypoint count. |
| PatrolAi.TourVisitsInOrder | Assets/AIE.ThirdPersonBase/Scripts/Agent/PatrolAIController.cs:22-24 | A character that reaches each waypoint in turn advances the index by exactly one per frame, around the loop: after `n` frames it is `(start + n) mod count`. |
| PatrolAi.FarAwayKeepsIndex | Assets/AIE.ThirdPersonBase/Scripts/Agent/PatrolAIController.cs:22 | A character that stays outside the threshold of its waypoint never advances the index. |
| PatrolAi.PatrolAiController.constructor | Assets/AIE.ThirdPersonBase/Scripts/Agent/PatrolAIController.cs:10-13 | The index starts at the first waypoint. |
| PatrolAi.PatrolAiController.Update | Assets/AIE.ThirdPersonBase/Scripts/Agent/PatrolAIController.cs:15-32 | The index becomes `PatrolStep`'s, stays in bounds, and MoveWish is the normalised final offset, written every frame. |
| Motor.ToggleFloat | Assets/Unity.ThirdPerson/Scripts/CharacterMotor.cs:146-149 | F makes Floating into Falling and every other mode into Floating. |
| Motor.JumpAndGravityStep | Assets/Unity.ThirdPerson/Scripts/CharacterMotor.cs:379-446 | Only the vertical velocity, the two timeouts and the jump wish change; the jump wish is always cleared. Grounded resets the fall timeout and counts the jump timeout down only while it is not negative; otherwise the jump timeout resets and the fall timeout counts down only while not negative. Grounded, a jump wish with the jump timeout run out launches at the jump velocity; without a jump a downward velocity rests at −2 and any other is kept. Then gravity is added whenever the velocity is below 53, and a velocity of 53 or more is left as it is. |
| Motor.GroundedCheckStep | Assets/Unity.ThirdPerson/Scripts/CharacterMotor.cs:239-254 | The mode becomes Grounded iff the probe hits and Falling iff it does not; nothing else changes. |
| Motor.LedgeCheckStep | Assets/Unity.ThirdPerson/Scripts/CharacterMotor.cs:176-193 | While descending, or with no overlap, nothing changes. Otherwise the character hangs from the first overlapping ledge, anchored at the ledge's closest point to the spot 10 above the character; nothing else changes. |
| Motor.HangStep | Assets/Unity.ThirdPerson/Scripts/CharacterMotor.cs:194-227 | With a jump wish, the mode becomes Falling and nothing else changes. Otherwise the hanging point becomes `SlidHangPosition` (slid along the ledge, re-projected onto it) and the vertical velocity becomes `SnapVelocity` of the offset from the character to the pose under that new point. No other field changes. |
| Motor.LedgeSlide | Assets/Unity.ThirdPerson/Scripts/CharacterMotor.cs:205-207 | The slide along the ledge is horizontal, perpendicular to the ledge's forward axis, and zero without sideways input. |
| Motor.SlidHangPosition | Assets/Unity.ThirdPerson/Scripts/CharacterMotor.cs:208-210 | The new hanging point is the ledge's closest point to the slid point raised by 10. |
| Motor.SnapVelocity | Assets/Unity.ThirdPerson/Scripts/CharacterMotor.cs:212-226 | Within 0.1 of the pose the velocity is 0. With `directionY` a normalised y component, it moves toward the pose (the sign of the offset's y) and never faster than the snap speed of 10. |
| Motor.NormalizedYIsUnit | Assets/Unity.ThirdPerson/Scripts/CharacterMotor.cs:217 | The y component of a normalised non-zero vector is at most 1 in size. |
| Motor.CancelPositive | Assets/Unity.ThirdPerson/Scripts/CharacterMotor.cs:217 | Arithmetic step for `NormalizedYIsUnit`: a factor that scales a positive number to at most itself is at most 1. |
| Motor.FlyStep | Assets/Unity.ThirdPerson/Scripts/CharacterMotor.cs:448-455 | Only the vertical velocity changes: ±MoveSpeed for jump or crouch alone, 0 for both or neither. No gravity is applied, and the jump wish stays set. |
| Motor.Tick | Assets/Unity.ThirdPerson/Scripts/CharacterMotor.cs:144-174 | The hanging-ledge invariant is kept. GroundedCheck is the only way out of Grounded. A fall catches a ledge iff it is not descending after gravity and a ledge overlaps. Hanging lets go iff the jump wish is set. Floating persists without F. The tick ends Floating iff F toggled it. |
| Motor.CharacterMotor.IsGrounded | Assets/Unity.ThirdPerson/Scripts/CharacterMotor.cs:55 | `Grounded` is true iff the mode is Grounded. |
| Motor.CharacterMotor.constructor | Assets/Unity.ThirdPerson/Scripts/CharacterMotor.cs:137-142 | A new motor is Falling (the initialiser on line 67), with both timeouts at full length and no wishes. |
| Motor.CharacterMotor.Update | Assets/Unity.ThirdPerson/Scripts/CharacterMotor.cs:144-174 | The new state is `Tick` of the old, and the invariant is kept. |
| Motor.CharacterMotor.LedgeCheck | Assets/Unity.ThirdPerson/Scripts/CharacterMotor.cs:176-193 | The new state is `LedgeCheckStep`. |
| Motor.CharacterMotor.Hang | Assets/Unity.ThirdPerson/Scripts/CharacterMotor.cs:194-227 | The new state is `HangStep`. |
| Motor.CharacterMotor.GroundedCheck | Assets/Unity.ThirdPerson/Scripts/CharacterMotor.cs:239-254 | The new state is `GroundedCheckStep`. |
| Motor.CharacterMotor.JumpAndGravity | Assets/Unity.ThirdPerson/Scripts/CharacterMotor.cs:379-446 | The new state is `JumpAndGravityStep`. |
| Motor.CharacterMotor.Fly | Assets/Unity.ThirdPerson/Scripts/CharacterMotor.cs:448-455 | The new state is `FlyStep`. |
| Motor.FallingNeverCapped | Assets/Unity.ThirdPerson/Scripts/CharacterMotor.cs:441-445 | Away from the ground, `n` runs of JumpAndGravity add exactly `n` steps of gravity and keep the mode: the positive terminal velocity never caps a fall. |
| Motor.Repeat | Assets/Unity.ThirdPerson/Scripts/CharacterMotor.cs:379-446 | Runs of JumpAndGravity keep the mode and the ledge. |
| Motor.FreeFallClosedForm | Assets/Unity.ThirdPerson/Scripts/CharacterMotor.cs:444 | Adding gravity one tick at a time for `n` ticks is adding `n` ticks at once. |
| Motor.OneMoreTick | Assets/Unity.ThirdPerson/Scripts/CharacterMotor.cs:444 | Arithmetic step for `FreeFallClosedForm`: `k` ticks plus one tick is `k + 1` ticks. |
| Motor.FreeFallDescends | Assets/Unity.ThirdPerson/Scripts/CharacterMotor.cs:444 | With a downward pull, the velocity never rises over a run of ticks. |
| Motor.AirborneStep | Assets/Unity.ThirdPerson/Scripts/CharacterMotor.cs:441-445 | One airborne JumpAndGravity below 53 adds exactly one tick of gravity and keeps the mode. |
| Motor.FallingSteps | Assets/Unity.ThirdPerson/Scripts/CharacterMotor.cs:441-445 | Away from the ground, each run of JumpAndGravity adds one more tick of gravity. |
| Motor.Ticks | Assets/Unity.ThirdPerson/Scripts/CharacterMotor.cs:144-174 | Any number of Updates keeps the hanging-ledge invariant. |
| Motor.FallingTickIsGravity | Assets/Unity.ThirdPerson/Scripts/CharacterMotor.cs:144-174 | A falling Update with F not pressed, no ground hit and no ledge overlap is JumpAndGravity alone. |
| Motor.TickExtendsFall | Assets/Unity.ThirdPerson/Scripts/CharacterMotor.cs:144-174 | One more such Update extends a fall's run of JumpAndGravity by one. |
| Motor.FallingTicksAreGravity | Assets/Unity.ThirdPerson/Scripts/CharacterMotor.cs:144-174 | `n` falling Updates that meet no ground and no ledge, with F not pressed, are `n` runs of JumpAndGravity, so `FallingNeverCapped` and `DescentUnbounded` hold of whole Updates. |
| Motor.DescentUnbounded | Assets/Unity.ThirdPerson/Scripts/CharacterMotor.cs:441-445 | With gravity pulling down, some number of runs of JumpAndGravity takes an airborne vertical velocity below any bound. |
| Motor.TicksToExceed | Assets/Unity.ThirdPerson/Scripts/CharacterMotor.cs:444 | Enough ticks of a positive step cover any distance. |
| Motor.GroundedVelocityRests | Assets/Unity.ThirdPerson/Scripts/CharacterMotor.cs:393-397 | A grounded character that does not jump settles at −2 plus one tick of gravity, every tick. |
| Motor.TimeoutFloor | Assets/Unity.ThirdPerson/Scripts/CharacterMotor.cs:412-427 | The timeouts count down only while not negative, so they never fall below minus one tick. |
| Motor.ToggleTwice | Assets/Unity.ThirdPerson/Scripts/CharacterMotor.cs:146-149 | Pressing F twice restores Floating or Falling, and turns Grounded or Hanging into Falling. |
| Motor.JumpNeedsTimeout | Assets/Unity.ThirdPerson/Scripts/CharacterMotor.cs:399-410 | While the jump timeout has not run out, a grounded jump wish does not jump, whatever the velocity: the step is the same as without the wish. A downward velocity then rests at −2 plus gravity. |
| Motor.LedgeCatchThenRelease | Assets/Unity.ThirdPerson/Scripts/CharacterMotor.cs:176-203 | Catching a ledge and jumping off leaves the character falling, with its velocity unchanged and the ledge remembered. |
| Player.Clamp | Assets/Unity.ThirdPerson/Scripts/PlayerController.cs:60 | Mathf.Clamp gives a value in [min, max] when min ≤ max, and leaves a value already inside unchanged. |
| Player.WrapOnce | Assets/Unity.ThirdPerson/Scripts/PlayerController.cs:58-59 | One turn is added below −360 and one is taken off above 360, once each; angles in between are kept. |
| Player.ClampAngle | Assets/Unity.ThirdPerson/Scripts/PlayerController.cs:56-61 | The result lies in [min, max] when min ≤ max. It is the wrapped angle itself when that already lies there. |
| Player.WrapIsSingle | Assets/Unity.ThirdPerson/Scripts/PlayerController.cs:58-59 | Only one turn is added or taken off: an angle below −720 stays below −360 (above 720 stays above 360), and the float-limit clamp of the yaw does not bring it back. |
| Player.YawIsOnlyWrapped | Assets/Unity.ThirdPerson/Scripts/PlayerController.cs:133 | Clamping to the float limits never bounds a float yaw; only the wrap applies. |
| Player.WrapKeepsWithinOneTurn | Assets/Unity.ThirdPerson/Scripts/PlayerController.cs:128-133 | An angle within one turn, changed by at most one turn and wrapped, stays within one turn. |
| Player.DeltaTimeMultiplier | Assets/Unity.ThirdPerson/Scripts/PlayerController.cs:126 | The multiplier is 1 whenever the device is a mouse. |
| Player.MultiplierIsAlwaysOne | Assets/Unity.ThirdPerson/Scripts/PlayerController.cs:32-39 | `IsCurrentDeviceMouse` is constantly true, so the multiplier is always 1. |
| Player.RotationStep | Assets/Unity.ThirdPerson/Scripts/PlayerController.cs:120-139 | Yaw is the wrapped sum when look input is taken, and the wrapped old yaw when it is not. Pitch ends within [BottomClamp, TopClamp]: it is the wrapped sum (or the wrapped old pitch) when that lies within the limits, BottomClamp when it lies below and TopClamp when it lies above. |
| Player.IgnoredLookKeepsAim | Assets/Unity.ThirdPerson/Scripts/PlayerController.cs:123 | Look input of squared magnitude below 0.01, or any input while the camera is locked, leaves an in-range aim unchanged. |
| Player.ThresholdLookIsTaken | Assets/Unity.ThirdPerson/Scripts/PlayerController.cs:123 | Any look input of squared magnitude exactly 0.01 is taken, since the test is `>=`, and the yaw moves by it. |
| Player.PlayerController.constructor | Assets/Unity.ThirdPerson/Scripts/PlayerController.cs:141-150 | Awake starts the yaw at the yaw of the camera target's current Euler angles, and leaves those angles as they are. |
| Player.PlayerController.MoveInput | Assets/Unity.ThirdPerson/Scripts/PlayerController.cs:90-93 | Stores the vector. |
| Player.PlayerController.LookInput | Assets/Unity.ThirdPerson/Scripts/PlayerController.cs:95-98 | Stores the vector. |
| Player.PlayerController.OnLook | Assets/Unity.ThirdPerson/Scripts/PlayerController.cs:71-77 | Look input is stored only while `cursorInputForLook` is set. |
| Player.PlayerController.JumpInput | Assets/Unity.ThirdPerson/Scripts/PlayerController.cs:100-103 | Copies the bool into the motor's jump wish. |
| Player.PlayerController.CrouchInput | Assets/Unity.ThirdPerson/Scripts/PlayerController.cs:105-108 | Copies the bool into the motor's crouch wish. |
| Player.PlayerController.SprintInput | Assets/Unity.ThirdPerson/Scripts/PlayerController.cs:110-113 | Copies the bool into the motor's sprint wish. |
| Player.PlayerController.Update | Assets/Unity.ThirdPerson/Scripts/PlayerController.cs:152-187 | RawMoveWish receives the move input widened with z = 0. MoveWish receives the move input laid on the ground plane and turned by the current yaw. |
| Player.PlayerController.ControlRotation | Assets/Unity.ThirdPerson/Scripts/PlayerController.cs:120-139 | Yaw and pitch become `RotationStep` of the old ones. The camera target's Euler angles are (pitch + override, yaw, 0). |

## Left out

- CharacterMotor `GroundMove` and `HangMove`: they are float smoothing (`Lerp`, rounding, `SmoothDampAngle`), quaternion rotations and `CharacterController.Move`. The animator, audio and gizmo calls are presentation.
- Normalisation and `SteeringMethods.Seek`: they take a float square root, so a MoveWish is kept symbolic (`Wish`). The model does not compute the resulting direction or its length. `SteeringMethods.Wander` draws random numbers and is not part of this model.
- Engine queries (`Physics.CheckSphere`, `OverlapSphere`, `Linecast`, `Collider.ClosestPoint`, the `NavMesh` queries, transform positions, `Time.deltaTime`, `Input.GetKeyDown`): these are inputs taken once per tick. The ObjectFsm and SwitchFsm patrol points are the exception: they are fixed configuration (see below). Movement within a tick is not modelled.
- `Mathf.Approximately` (FloatTransition `EqualTo`): a float tolerance, kept as an abstract predicate.
- Float precision, rounding and overflow: all arithmetic is on reals. `float.MaxValue` appears only as the yaw clamp's limit.
- `HashSet` iteration order during acquisition: any candidate may be examined first. `FirstVisible` promises only a visible candidate, not a particular one.
- StateMachine.BaseState.RemoveCondition: `List.Remove` compares transition objects by reference, while `RemoveFirst` compares transition values. The two differ in two cases. When the list holds two equal transitions that are distinct objects, C# removes the object passed and the model removes the first equal one. When the transition passed is equal to one in the list but is not itself in it, C# removes nothing and the model removes the equal one. Object identity is not part of this model.
- `Debug.Assert` in the runner only logs; it is recorded as a `NullStateAssertion` entry in the hook log.
- `Debug.Log` calls in the SwitchFSMController hooks: the hooks are recorded by name, without the message.
- SwitchFSMController Attack turns the motor to face the target (`transform.forward`). That rotation is not part of this model. The unused `navAgent` and `currentPath` fields are not part of it either.
- ObjectFsm: a failed `NavMesh.CalculatePath` is modelled as an invalid path with no corners. The initial `navMeshPath` is modelled the same way.
- ObjectFsm: `attackThreshold` and the other inspector fields that the modelled code never reads are not part of this model.
- PlayerController `Update`: the legacy input polling block (`Input.GetAxisRaw`, `GetButton*`) reads the keyboard and is compiled out when the input system is enabled. The model covers the build with the input system. The yaw rotation of MoveWish is kept symbolic (`YawRotated`). Cursor locking (`OnApplicationFocus`) is not part of this model. `OnMove`, `OnJump` and `OnSprint` only forward to the setters that are modelled.
- PlayerController `ClampAngle` on yaw: `YawIsOnlyWrapped` assumes the yaw is a float value, that is, within ±`float.MaxValue`.
- `ThirdPersonCameraController`, `MainCameraMotor`, the editor script, the NavMesh controllers and `IFiniteState` are not part of this model. They are camera framing, editor UI, NavMeshAgent wiring and interface declarations.
- PatrolAIController: the waypoint positions are passed in each frame. An empty waypoint array (an index exception in the code) is excluded by the precondition.
- ObjectFsm: an empty `patrolPoints` array makes PatrolState's enter hook throw an index exception (`ObjectFSMController.cs:64`). The precondition `|config.patrolPoints| > 0` excludes it, so that exception path is not modelled.
- SwitchFsm: an empty `patrolPoints` array makes `Patrol` throw an index exception (`SwitchFSMController.cs:34`). The precondition `|config.patrolPoints| > 0` excludes it, so that exception path is not modelled.
- ObjectFsm: the patrol points are fixed positions in `AgentConfig.patrolPoints`. The code keeps `Transform`s and re-reads each `.position` every frame (`ObjectFSMController.cs:64`, `71`, `74`), so a patrol point that moves while the agent patrols is not modelled.
- SwitchFsm: the patrol points are fixed positions in `SwitchConfig.patrolPoints`. The code keeps `Transform`s and re-reads each `.position` every frame (`SwitchFSMController.cs:34`, `37`), so a patrol point that moves while the agent patrols is not modelled.
- Motor: `Vector3.normalized` needs a square root, so its y component arrives as the `directionY` input. `SnapVelocity` and `HangStep` promise a direction and a speed bound only when `NormalizesY` holds of that input: the sign of `v.y`, and a square equal to `v.y²/|v|²`.
