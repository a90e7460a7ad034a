/** The generic finite-state-machine engine: states that hold an ordered list
    of transitions (first satisfied one wins), the three transition kinds,
    and the runner that performs exit-then-enter on a change. The runner
    records the hook calls it makes, so that their order can be stated. */
module StateMachine {

  import opened Common

  /** Names one of the live probes (the C# delegates) a transition calls. */
  type ProbeId = nat

  /** FloatTransition.Operator; `Unlisted` stands for any other value the
      enum field can hold. */
  datatype Operator =
    | LessThan
    | LessThanOrEqualTo
    | GreaterThan
    | GreaterThanOrEqualTo
    | EqualTo
    | Unlisted(code: int)

  /** What the probes answer at the moment the transitions are evaluated;
      `approximately` is Mathf.Approximately, kept abstract. */
  datatype Probes = Probes(
    booleanFunction: ProbeId -> bool,
    floatFunction: ProbeId -> real,
    approximately: (real, real) -> bool)

  datatype Transition =
    | BooleanTransition(nextState: BaseState?, expected: bool, probe: ProbeId)
    | FloatTransition(nextState: BaseState?, threshold: real, probe: ProbeId, comparisonOperation: Operator)
    | CompoundTransition(nextState: BaseState?, orTransitions: seq<Transition>)

  /** A float transition compares the probe against the SQUARE of its
      threshold (the probe is meant to be a squared distance). */
  function Compare(dist2: real, threshold: real, op: Operator, approximately: (real, real) -> bool): bool {
    var thres2 := threshold * threshold;
    match op
    case LessThan => dist2 < thres2
    case LessThanOrEqualTo => dist2 <= thres2
    case GreaterThan => dist2 > thres2
    case GreaterThanOrEqualTo => dist2 >= thres2
    case EqualTo => approximately(dist2, thres2)
    case Unlisted(_) => false
  }

  /** ShouldTransition, as a specification. */
  function Fires(t: Transition, p: Probes): bool {
    match t
    case BooleanTransition(_, expected, probe) => expected == p.booleanFunction(probe)
    case FloatTransition(_, threshold, probe, op) => Compare(p.floatFunction(probe), threshold, op, p.approximately)
    case CompoundTransition(_, children) => exists i :: 0 <= i < |children| && Fires(children[i], p)
  }

  /** IStateTransition.ShouldTransition; a compound transition scans its
      children in order and stops at the first that fires. */
  method ShouldTransition(t: Transition, p: Probes) returns (fires: bool)
    ensures fires == Fires(t, p)
    decreases t
  {
    match t
    case BooleanTransition(_, expected, probe) =>
      fires := expected == p.booleanFunction(probe);
    case FloatTransition(_, threshold, probe, op) =>
      var dist2 := p.floatFunction(probe);
      fires := Compare(dist2, threshold, op, p.approximately);
    case CompoundTransition(_, children) =>
      var i := 0;
      while i < |children|
        invariant 0 <= i <= |children|
        invariant forall j :: 0 <= j < i ==> !Fires(children[j], p)
      {
        var childFires := ShouldTransition(children[i], p);
        if childFires {
          return true;
        }
        i := i + 1;
      }
      fires := false;
  }

  /** The position of the first transition, in registration order, that fires. */
  function FirstFiring(ts: seq<Transition>, p: Probes): (k: Option<nat>)
    ensures k.Some? ==> k.value < |ts| && Fires(ts[k.value], p)
    ensures k.Some? ==> forall j :: 0 <= j < k.value ==> !Fires(ts[j], p)
    ensures k.None? <==> forall j :: 0 <= j < |ts| ==> !Fires(ts[j], p)
  {
    if |ts| == 0 then None
    else if Fires(ts[0], p) then Some(0)
    else match FirstFiring(ts[1..], p)
      case None => None
      case Some(k) => Some(k + 1)
  }

  /** BaseState.ChangeState, as a specification: the target of the first
      satisfied transition, or the state itself when none is satisfied. */
  function Resolve(self: BaseState, ts: seq<Transition>, p: Probes): (next: BaseState?)
    ensures (forall j :: 0 <= j < |ts| ==> !Fires(ts[j], p)) ==> next == self
    ensures forall k :: 0 <= k < |ts| && Fires(ts[k], p) && (forall j :: 0 <= j < k ==> !Fires(ts[j], p))
                        ==> next == ts[k].nextState
  {
    match FirstFiring(ts, p)
    case Some(k) => ts[k].nextState
    case None => self
  }

  /** The first position of `x` in `s`. */
  function FirstIndex<T(==)>(s: seq<T>, x: T): (i: nat)
    requires x in s
    ensures i < |s| && s[i] == x && x !in s[..i]
    ensures forall k :: 0 <= k < i ==> s[k] != x
  {
    if s[0] == x then 0
    else
      var i := FirstIndex(s[1..], x) + 1;
      assert s[..i] == [s[0]] + s[1..][..i - 1];
      i
  }

  /** List.Remove: drop the first occurrence, if there is one. */
  function RemoveFirst<T(==)>(s: seq<T>, x: T): (r: seq<T>)
    ensures x !in s ==> r == s
    ensures x in s ==> |r| == |s| - 1
    ensures multiset(r) == multiset(s) - multiset{x}
    // the others keep their relative order: r is s with one position skipped
    ensures x in s ==> forall k :: 0 <= k < |r| ==> r[k] == (if k < FirstIndex(s, x) then s[k] else s[k + 1])
  {
    if x !in s then s
    else
      var i := FirstIndex(s, x);
      assert s == s[..i] + [x] + s[i + 1..];
      s[..i] + s[i + 1..]
  }

  /** A state: its ordered transition list. Its enter, run and exit hooks are
      not bodies of this class; the runner reports when it calls them. */
  class BaseState {
    var transitions: seq<Transition>

    constructor ()
      ensures transitions == []
    {
      transitions := [];
    }

    method ChangeState(p: Probes) returns (next: BaseState?)
      ensures next == Resolve(this, transitions, p)
    {
      var i := 0;
      while i < |transitions|
        invariant 0 <= i <= |transitions|
        invariant forall j :: 0 <= j < i ==> !Fires(transitions[j], p)
      {
        var fires := ShouldTransition(transitions[i], p);
        if fires {
          return transitions[i].nextState;
        }
        i := i + 1;
      }
      return this;
    }

    method AddCondition(transition: Transition)
      modifies this
      ensures transitions == old(transitions) + [transition]
    {
      transitions := transitions + [transition];
    }

    method RemoveCondition(transition: Transition)
      modifies this
      ensures transitions == RemoveFirst(old(transitions), transition)
    {
      transitions := RemoveFirst(transitions, transition);
    }
  }

  /** A hook call the runner makes, or the report of Debug.Assert when the
      new state is null (Unity's Debug.Assert logs and execution goes on). */
  datatype Hook =
    | OnStateEnter(state: BaseState)
    | OnStateExit(state: BaseState)
    | OnStateRun(state: BaseState)
    | NullStateAssertion

  /** The calls FiniteStateMachineRunner.ChangeState makes. */
  function ChangeHooks(from: BaseState?, to: BaseState?): seq<Hook> {
    (if from == null then [] else [OnStateExit(from)]) +
    (if to == null then [NullStateAssertion] else [OnStateEnter(to)])
  }

  /** The calls FiniteStateMachineRunner.Run makes when `current` is set and
      its transitions resolve to `next`. */
  function RunHooks(current: BaseState, next: BaseState?): seq<Hook> {
    [OnStateRun(current)] + (if next == current then [] else ChangeHooks(current, next))
  }

  class FiniteStateMachineRunner {
    var previousState: BaseState?
    var currentState: BaseState?
    /** Every hook call made so far, oldest first. */
    var calls: seq<Hook>

    constructor ()
      ensures previousState == null && currentState == null && calls == []
    {
      previousState, currentState, calls := null, null, [];
    }

    method ChangeState(newState: BaseState?)
      modifies this
      ensures previousState == old(currentState) && currentState == newState
      ensures calls == old(calls) + ChangeHooks(old(currentState), newState)
      ensures old(currentState) != null && newState != null ==>
                calls == old(calls) + [OnStateExit(old(currentState)), OnStateEnter(newState)]
      ensures newState == null ==>
                calls[|calls| - 1] == NullStateAssertion && forall h :: h in calls[|old(calls)|..] ==> !h.OnStateEnter?
    {
      if currentState != null {
        calls := calls + [OnStateExit(currentState)];
      }
      previousState := currentState;
      currentState := newState;
      if currentState == null {
        calls := calls + [NullStateAssertion];
      }
      if newState != null {
        calls := calls + [OnStateEnter(newState)];
      }
    }

    /** The CurrentState setter: always a full change, even to the same state. */
    method SetCurrentState(value: BaseState?)
      modifies this
      ensures previousState == old(currentState) && currentState == value
      ensures calls == old(calls) + ChangeHooks(old(currentState), value)
      ensures old(currentState) == value && value != null ==>
                calls == old(calls) + [OnStateExit(value), OnStateEnter(value)]
    {
      ChangeState(value);
    }

    method Run(p: Probes)
      modifies this
      ensures old(currentState) == null ==>
                currentState == null && previousState == old(previousState) && calls == old(calls)
      ensures old(currentState) != null ==>
                var next := Resolve(old(currentState), old(currentState).transitions, p);
                && currentState == next
                && calls == old(calls) + RunHooks(old(currentState), next)
                && previousState == (if next == old(currentState) then old(previousState) else old(currentState))
      ensures old(currentState) != null ==> calls[|old(calls)|] == OnStateRun(old(currentState))
    {
      if currentState != null {
        calls := calls + [OnStateRun(currentState)];
        var nextState := currentState.ChangeState(p);
        if currentState != nextState {
          ChangeState(nextState);
        }
      }
    }
  }

  // ---------------------------------------------------------------------
  // Properties of transition evaluation and resolution

  /** A float transition's threshold is squared, so its sign never matters. */
  lemma ThresholdSignIrrelevant(next: BaseState?, threshold: real, probe: ProbeId, op: Operator, p: Probes)
    ensures Fires(FloatTransition(next, threshold, probe, op), p)
        == Fires(FloatTransition(next, -threshold, probe, op), p)
  {
    var neg := -threshold;
    assert neg * neg == threshold * threshold;
    var d := p.floatFunction(probe);
    match op {
      case LessThan =>
      case LessThanOrEqualTo =>
      case GreaterThan =>
      case GreaterThanOrEqualTo =>
      case EqualTo =>
        var squared := threshold * threshold;
        assert neg * neg == squared;
        assert p.approximately(d, neg * neg) == p.approximately(d, squared);
        assert Fires(FloatTransition(next, neg, probe, op), p) == p.approximately(d, neg * neg);
        assert Fires(FloatTransition(next, threshold, probe, op), p) == p.approximately(d, squared);
      case Unlisted(_) =>
    }
  }

  /** The strict and non-strict comparisons are complements of each other,
      and no unlisted operator value ever fires. */
  lemma ComparisonsComplement(dist2: real, threshold: real, approximately: (real, real) -> bool, code: int)
    ensures Compare(dist2, threshold, LessThan, approximately) == !Compare(dist2, threshold, GreaterThanOrEqualTo, approximately)
    ensures Compare(dist2, threshold, GreaterThan, approximately) == !Compare(dist2, threshold, LessThanOrEqualTo, approximately)
    ensures !Compare(dist2, threshold, Unlisted(code), approximately)
  {
  }

  /** A compound transition over two lists fires iff either part would: it is
      a plain OR, and an empty one never fires. */
  lemma CompoundIsDisjunction(next: BaseState?, a: seq<Transition>, b: seq<Transition>, p: Probes)
    ensures Fires(CompoundTransition(next, a + b), p)
        == (Fires(CompoundTransition(next, a), p) || Fires(CompoundTransition(next, b), p))
    ensures !Fires(CompoundTransition(next, []), p)
  {
    var ab := a + b;
    if Fires(CompoundTransition(next, ab), p) {
      var i :| 0 <= i < |ab| && Fires(ab[i], p);
      if i < |a| {
        assert ab[i] == a[i];
      } else {
        assert ab[i] == b[i - |a|];
      }
    }
    if Fires(CompoundTransition(next, a), p) {
      var i :| 0 <= i < |a| && Fires(a[i], p);
      assert ab[i] == a[i];
    }
    if Fires(CompoundTransition(next, b), p) {
      var i :| 0 <= i < |b| && Fires(b[i], p);
      assert ab[|a| + i] == b[i];
    }
  }

  /** A state with a single transition moves to its target exactly when it fires. */
  lemma ResolveSingle(self: BaseState, t: Transition, p: Probes)
    ensures Resolve(self, [t], p) == if Fires(t, p) then t.nextState else self
  {
  }

  /** AddCondition appends with the lowest priority: the new transition only
      decides when none of the earlier ones fires. */
  lemma {:induction false} AddedTransitionIsLastResort(self: BaseState, ts: seq<Transition>, t: Transition, p: Probes)
    ensures Resolve(self, ts + [t], p) ==
              if FirstFiring(ts, p).Some? then Resolve(self, ts, p)
              else if Fires(t, p) then t.nextState
              else self
  {
    var all := ts + [t];
    match FirstFiring(ts, p)
    case Some(k) =>
      assert all[k] == ts[k];
      assert forall j :: 0 <= j < k ==> all[j] == ts[j];
    case None =>
      assert all[|ts|] == t;
      assert forall j :: 0 <= j < |ts| ==> all[j] == ts[j];
  }

  /** Any position that satisfies FirstIndex's contract is FirstIndex. */
  lemma FirstIndexUnique<T>(s: seq<T>, x: T, i: nat)
    requires i < |s| && s[i] == x
    requires forall k :: 0 <= k < i ==> s[k] != x
    ensures FirstIndex(s, x) == i
  {
  }

  /** Where the first firing transition lands once a silent one is taken out. */
  lemma {:induction false} FirstFiringAfterRemoval(ts: seq<Transition>, i: nat, p: Probes)
    requires i < |ts| && !Fires(ts[i], p)
    ensures FirstFiring(ts[..i] + ts[i + 1..], p) ==
              match FirstFiring(ts, p)
              case None => None
              case Some(k) => if k < i then Some(k) else Some(k - 1)
  {
    var r := ts[..i] + ts[i + 1..];
    assert forall j :: 0 <= j < i ==> r[j] == ts[j];
    assert forall j :: i <= j < |r| ==> r[j] == ts[j + 1];
    match FirstFiring(ts, p)
    case None =>
      assert forall j :: 0 <= j < |r| ==> !Fires(r[j], p);
    case Some(k) =>
      var m := if k < i then k else k - 1;
      assert r[m] == ts[k];
      assert forall j :: 0 <= j < m ==> !Fires(r[j], p);
      match FirstFiring(r, p)
      case None =>
      case Some(n) =>
        assert !(n < m);
  }

  /** Taking a silent transition out of any position keeps the resolved state. */
  lemma ResolveAfterRemoval(self: BaseState, ts: seq<Transition>, i: nat, p: Probes)
    requires i < |ts| && !Fires(ts[i], p)
    ensures Resolve(self, ts[..i] + ts[i + 1..], p) == Resolve(self, ts, p)
  {
    FirstFiringAfterRemoval(ts, i, p);
    var r := ts[..i] + ts[i + 1..];
    match FirstFiring(ts, p)
    case None =>
    case Some(k) =>
      if k < i {
        assert r[k] == ts[k];
      } else {
        assert r[k - 1] == ts[k];
      }
  }

  /** Removing a transition that does not fire leaves the resolved state as it was. */
  lemma RemovingSilentTransitionKeepsResolution(self: BaseState, ts: seq<Transition>, x: Transition, p: Probes)
    requires !Fires(x, p)
    ensures Resolve(self, RemoveFirst(ts, x), p) == Resolve(self, ts, p)
  {
    if x in ts {
      var i := FirstIndex(ts, x);
      assert RemoveFirst(ts, x) == ts[..i] + ts[i + 1..];
      ResolveAfterRemoval(self, ts, i, p);
    }
  }

  /** RemoveCondition undoes AddCondition of a transition not registered before,
      and otherwise deletes exactly the first occurrence, keeping the order of the rest. */
  lemma AddThenRemove<T>(s: seq<T>, x: T)
    ensures x !in s ==> RemoveFirst(s + [x], x) == s
    ensures x in s ==> RemoveFirst(s + [x], x) == RemoveFirst(s, x) + [x]
  {
    var sx := s + [x];
    assert forall k :: 0 <= k < |s| ==> sx[k] == s[k];
    if x !in s {
      assert forall k :: 0 <= k < |s| ==> sx[k] != x;
      FirstIndexUnique(sx, x, |s|);
      assert RemoveFirst(sx, x) == sx[..|s|] + sx[|s| + 1..];
      assert sx[..|s|] == s;
    } else {
      var i := FirstIndex(s, x);
      FirstIndexUnique(sx, x, i);
      assert RemoveFirst(sx, x) == sx[..i] + sx[i + 1..];
      assert RemoveFirst(s, x) == s[..i] + s[i + 1..];
      assert sx[..i] == s[..i];
      assert sx[i + 1..] == s[i + 1..] + [x];
    }
  }

  /** The runner's change sequence: exit of the old state (if any) always
      comes before the enter of the new one, each exactly once. */
  lemma ChangeHooksOrder(from: BaseState?, to: BaseState?)
    ensures from != null ==> ChangeHooks(from, to)[0] == OnStateExit(from)
    ensures to != null ==> ChangeHooks(from, to)[|ChangeHooks(from, to)| - 1] == OnStateEnter(to)
    ensures |ChangeHooks(from, to)| == (if from == null then 1 else 2)
  {
  }
}
