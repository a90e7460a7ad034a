/** PatrolAIController: walks a character motor around a closed loop of
    waypoints, moving on to the next waypoint once within a threshold of the
    current one. */
module PatrolAi {

  import opened Common
  import opened Motor

  /** The outcome of one Update: the waypoint index after it, and the offset
      from the character to the waypoint it now heads for. */
  datatype PatrolStepResult = PatrolStepResult(index: int, offset: Vec3)

  /** The waypoint after `index`, wrapping to the first after the last. */
  function NextWaypoint(index: int, count: nat): (r: int)
    requires 0 <= index < count
    ensures 0 <= r < count
    ensures r == (if index == count - 1 then 0 else index + 1)
  {
    (index + 1) % count
  }

  /** One Update over the waypoint positions of this frame. */
  function PatrolStep(points: seq<Vec3>, index: int, position: Vec3, threshold: real): (r: PatrolStepResult)
    requires 0 <= index < |points|
    ensures 0 <= r.index < |points|
    // the offset is always taken against the waypoint the index names afterwards
    ensures r.offset == Sub(points[r.index], position)
    // the index moves on exactly when the old waypoint is strictly within the threshold
    ensures Within(points[index], position, threshold) ==> r.index == NextWaypoint(index, |points|)
    ensures !Within(points[index], position, threshold) ==> r.index == index
  {
    var offset := Sub(points[index], position);
    if SqrMagnitude(offset) < threshold * threshold then
      var next := (index + 1) % |points|;
      PatrolStepResult(next, Sub(points[next], position))
    else
      PatrolStepResult(index, offset)
  }

  /** The waypoint index after a run of frames at the given positions. */
  function PatrolWalk(points: seq<Vec3>, index: int, positions: seq<Vec3>, threshold: real): (r: int)
    requires 0 <= index < |points|
    ensures 0 <= r < |points|
    decreases |positions|
  {
    if |positions| == 0 then index
    else PatrolWalk(points, PatrolStep(points, index, positions[0], threshold).index, positions[1..], threshold)
  }

  /** Advancing by one waypoint then by `m` more is advancing by `m + 1`. */
  lemma ShiftedWrap(start: int, m: nat, count: nat)
    requires 0 <= start && count > 0
    ensures ((start + 1) % count + m) % count == (start + 1 + m) % count
  {
    var q := (start + 1) / count;
    assert start + 1 == q * count + (start + 1) % count;
    assert (start + 1 + m) == q * count + ((start + 1) % count + m);
    ModuloDropsMultiples(q, (start + 1) % count + m, count);
  }

  /** Whole laps of `count` drop out of an index taken modulo `count`. */
  lemma ModuloDropsMultiples(q: int, r: int, count: nat)
    requires count > 0 && q >= 0 && r >= 0
    ensures (q * count + r) % count == r % count
  {
    var a := q * count + r;
    assert a == (a / count) * count + a % count;
    assert r == (r / count) * count + r % count;
    var d := a / count - q - r / count;
    assert d * count == r % count - a % count;
    if d > 0 {
      assert false;
    } else if d < 0 {
      assert false;
    }
  }

  /** A character that reaches each waypoint in turn (at frame k it is
      within the threshold of waypoint start + k, counted around the loop)
      moves the index on by exactly one per frame: the loop is visited in
      order and wraps around. */
  lemma {:induction false} TourVisitsInOrder(points: seq<Vec3>, start: int, positions: seq<Vec3>, threshold: real)
    requires 0 <= start < |points|
    requires forall k :: 0 <= k < |positions| ==> Within(points[(start + k) % |points|], positions[k], threshold)
    ensures PatrolWalk(points, start, positions, threshold) == (start + |positions|) % |points|
    decreases |positions|
  {
    var n := |points|;
    if |positions| == 0 {
      assert start % n == start;
    } else {
      assert start % n == start;
      assert Within(points[start], positions[0], threshold);
      var next := (start + 1) % n;
      assert PatrolStep(points, start, positions[0], threshold).index == next;
      var rest := positions[1..];
      forall k | 0 <= k < |rest|
        ensures Within(points[(next + k) % n], rest[k], threshold)
      {
        ShiftedWrap(start, k, n);
        assert rest[k] == positions[k + 1];
      }
      TourVisitsInOrder(points, next, rest, threshold);
      ShiftedWrap(start, |rest|, n);
    }
  }

  /** A character that stays strictly outside the threshold of its current
      waypoint never moves the index on. */
  lemma {:induction false} FarAwayKeepsIndex(points: seq<Vec3>, index: int, positions: seq<Vec3>, threshold: real)
    requires 0 <= index < |points|
    requires forall k :: 0 <= k < |positions| ==> !Within(points[index], positions[k], threshold)
    ensures PatrolWalk(points, index, positions, threshold) == index
    decreases |positions|
  {
    if |positions| > 0 {
      assert PatrolStep(points, index, positions[0], threshold).index == index;
      FarAwayKeepsIndex(points, index, positions[1..], threshold);
    }
  }

  class PatrolAiController {
    const motor: CharacterMotor
    const waypointThreshold: real
    /** `waypoints.Length`; the positions themselves are read each frame. */
    const waypointCount: nat
    var curWaypointIndex: int

    predicate Valid()
      reads this
    {
      0 <= curWaypointIndex < waypointCount
    }

    /** The index starts at the first waypoint; the inspector default of the
        threshold is 0.1. */
    constructor (motor: CharacterMotor, waypointThreshold: real, waypointCount: nat)
      requires waypointCount > 0
      ensures this.motor == motor && this.waypointThreshold == waypointThreshold
      ensures this.waypointCount == waypointCount
      ensures curWaypointIndex == 0 && Valid()
    {
      this.motor := motor;
      this.waypointThreshold := waypointThreshold;
      this.waypointCount := waypointCount;
      curWaypointIndex := 0;
    }

    method Update(position: Vec3, points: seq<Vec3>)
      requires Valid() && |points| == waypointCount
      modifies this`curWaypointIndex, motor`moveWish
      ensures Valid()
      ensures var r := PatrolStep(points, old(curWaypointIndex), position, waypointThreshold);
              curWaypointIndex == r.index && motor.moveWish == Normalized(r.offset)
    {
      var dstPosition := points[curWaypointIndex];
      var offset := Sub(dstPosition, position);
      if SqrMagnitude(offset) < waypointThreshold * waypointThreshold {
        curWaypointIndex := (curWaypointIndex + 1) % |points|;
        dstPosition := points[curWaypointIndex];
        offset := Sub(dstPosition, position);
      }
      motor.moveWish := Normalized(offset);
    }
  }
}
