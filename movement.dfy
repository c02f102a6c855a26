/**
  How the dog moves in one tick: the path follower that spends a fixed
  speed budget along a list of waypoints, and the direct steering used when
  there is no path. Both are pure here; `DogEntities.DogEntity.TraversePath`
  runs them in place on the entity's fields.
*/
module Movement {
  import opened Geometry

  /** Length the dog may cover in one tick. The source's single-precision 1.85f is taken as the exact real 1.85. */
  const MOVEMENT_SPEED: real := 1.85
  /** Without a path, the dog only steps toward a target at least this far away. */
  const STEER_MIN_DISTANCE: real := 50.0
  /** Without a path, an owner at least this far away is reached by teleport. */
  const TELEPORT_DISTANCE: real := 800.0

  /** Where the follower stops: position, facing, path cursor and the unspent budget. */
  datatype Progress = Progress(position: Point, facing: real, cursor: nat, left: real)

  /**
    Length of the walk that starts at `from`, visits the waypoints
    `path[lo..hi]` in order and ends at `end`.
  */
  function WalkLength(from: Point, path: seq<Point>, lo: nat, hi: nat, end: Point): real
    requires lo <= hi <= |path|
    decreases hi - lo
  {
    if lo == hi then Dist(from, end)
    else Dist(from, path[lo]) + WalkLength(path[lo], path, lo + 1, hi, end)
  }

  /**
    The loop of `TraversePath` on a path: while budget is left, either move
    partway toward the current waypoint and stop, or land on it, face along
    the segment, pay its length and advance the cursor; stop when the cursor
    reaches the end of the path. Every round either stops or advances the
    cursor, so the loop ends even when segments have length zero.

    The cursor never goes back and never passes the end; budget is left
    over only when the whole path was walked, and then the dog stands on the
    last waypoint.
  */
  function Follow(position: Point, facing: real, path: seq<Point>, cursor: nat, left: real): (r: Progress)
    requires cursor < |path| && 0.0 <= left
    ensures cursor <= r.cursor <= |path|
    ensures 0.0 <= r.left <= left
    ensures r.cursor < |path| ==> r.left == 0.0
    ensures r.left > 0.0 ==> r.cursor == |path| && r.position == path[|path| - 1]
    decreases |path| - cursor
  {
    if left <= 0.0 then Progress(position, facing, cursor, left)
    else
      var goal := path[cursor];
      var d := Dist(position, goal);
      if d > left then
        Progress(Toward(position, goal, left), facing, cursor, 0.0)
      else
        var landed := Toward(position, goal, d);
        if cursor + 1 == |path| then Progress(landed, Dir(position, goal), cursor + 1, left - d)
        else Follow(landed, Dir(position, goal), path, cursor + 1, left - d)
  }

  /** The walk the follower makes is exactly as long as the budget it spends. */
  lemma {:induction false} FollowWalksWhatItSpends(position: Point, facing: real, path: seq<Point>, cursor: nat, left: real)
    requires cursor < |path| && 0.0 <= left
    ensures var r := Follow(position, facing, path, cursor, left);
      WalkLength(position, path, cursor, r.cursor, r.position) == left - r.left
    decreases |path| - cursor
  {
    if left > 0.0 {
      var goal := path[cursor];
      var d := Dist(position, goal);
      if d <= left && cursor + 1 < |path| {
        FollowWalksWhatItSpends(Toward(position, goal, d), Dir(position, goal), path, cursor + 1, left - d);
      }
    }
  }

  /** Length still to walk from `position` along the waypoints from `cursor` on, to the end of the path. */
  function Remaining(position: Point, path: seq<Point>, cursor: nat): real
    requires 0 < |path| && cursor <= |path|
  {
    WalkLength(position, path, cursor, |path|, path[|path| - 1])
  }

  /**
    Every unit of budget the follower spends brings it that much nearer the
    end of the path along the path: a partial step goes toward the current
    waypoint, never away from it, and a landing leaves no detour behind.
  */
  lemma {:induction false} FollowShortensTheRest(position: Point, facing: real, path: seq<Point>, cursor: nat, left: real)
    requires cursor < |path| && 0.0 <= left
    ensures var r := Follow(position, facing, path, cursor, left);
      Remaining(r.position, path, r.cursor) == Remaining(position, path, cursor) - (left - r.left)
    decreases |path| - cursor
  {
    if left > 0.0 {
      var goal := path[cursor];
      var d := Dist(position, goal);
      if d > left {
        var q := Toward(position, goal, left);
        assert Dist(q, goal) == d - left;
      } else {
        var landed := Toward(position, goal, d);
        assert landed == goal;
        if cursor + 1 < |path| {
          FollowShortensTheRest(landed, Dir(position, goal), path, cursor + 1, left - d);
        }
      }
    }
  }

  /** The walk is at least as long as the straight line from its start to its end. */
  lemma {:induction false} WalkBoundsDisplacement(from: Point, path: seq<Point>, lo: nat, hi: nat, end: Point)
    requires lo <= hi <= |path|
    ensures Dist(from, end) <= WalkLength(from, path, lo, hi, end)
    decreases hi - lo
  {
    if lo < hi {
      WalkBoundsDisplacement(path[lo], path, lo + 1, hi, end);
    }
  }

  /** One tick of the follower walks at most `MOVEMENT_SPEED`, so it never ends further than that from where it was. */
  lemma FollowStaysWithinSpeed(position: Point, facing: real, path: seq<Point>, cursor: nat)
    requires cursor < |path|
    ensures var r := Follow(position, facing, path, cursor, MOVEMENT_SPEED);
      && WalkLength(position, path, cursor, r.cursor, r.position) <= MOVEMENT_SPEED
      && Dist(position, r.position) <= MOVEMENT_SPEED
  {
    var r := Follow(position, facing, path, cursor, MOVEMENT_SPEED);
    FollowWalksWhatItSpends(position, facing, path, cursor, MOVEMENT_SPEED);
    WalkBoundsDisplacement(position, path, cursor, r.cursor, r.position);
  }

  /**
    Direct steering toward `target` (the no-path branch of `TraversePath`).
    The step uses the distance and direction measured before any teleport,
    so a teleported dog lands on the owner and then still steps
    `MOVEMENT_SPEED` past it.
  */
  function Steer(position: Point, target: Point, mayTeleport: bool): (r: Point)
    ensures Dist(position, target) < STEER_MIN_DISTANCE ==> r == position
    ensures STEER_MIN_DISTANCE <= Dist(position, target) && !(mayTeleport && TELEPORT_DISTANCE <= Dist(position, target)) ==>
              Dist(position, r) == MOVEMENT_SPEED && Dist(r, target) == Dist(position, target) - MOVEMENT_SPEED
    ensures mayTeleport && TELEPORT_DISTANCE <= Dist(position, target) ==>
              Dist(r, target) == MOVEMENT_SPEED && Dir(target, r) == Dir(position, target)
  {
    var diff := Dist(position, target);
    var dir := Dir(position, target);
    var teleported := if diff >= TELEPORT_DISTANCE && mayTeleport then target else position;
    if diff >= STEER_MIN_DISTANCE then teleported + dir * MOVEMENT_SPEED else teleported
  }

  /** `n` consecutive ticks of direct steering toward a target that does not move. */
  function SteerTimes(position: Point, target: Point, mayTeleport: bool, n: nat): Point
    decreases n
  {
    if n == 0 then position else SteerTimes(Steer(position, target, mayTeleport), target, mayTeleport, n - 1)
  }

  /**
    Steering from nearer than the teleport distance closes in by exactly
    `MOVEMENT_SPEED` per tick as long as every tick starts at least
    `STEER_MIN_DISTANCE` away.
  */
  lemma {:induction false} SteeringApproaches(position: Point, target: Point, mayTeleport: bool, n: nat)
    requires Dist(position, target) < TELEPORT_DISTANCE
    requires n == 0 || Dist(position, target) - (n - 1) as real * MOVEMENT_SPEED >= STEER_MIN_DISTANCE
    ensures Dist(SteerTimes(position, target, mayTeleport, n), target) == Dist(position, target) - n as real * MOVEMENT_SPEED
    decreases n
  {
    if n > 0 {
      var next := Steer(position, target, mayTeleport);
      assert Dist(next, target) == Dist(position, target) - MOVEMENT_SPEED;
      SteeringApproaches(next, target, mayTeleport, n - 1);
    }
  }

  /** Once nearer than `STEER_MIN_DISTANCE`, steering leaves the dog where it is. */
  lemma {:induction false} SteeringStopsWhenNear(position: Point, target: Point, mayTeleport: bool, n: nat)
    requires Dist(position, target) < STEER_MIN_DISTANCE
    ensures SteerTimes(position, target, mayTeleport, n) == position
    decreases n
  {
    if n > 0 {
      SteeringStopsWhenNear(position, target, mayTeleport, n - 1);
    }
  }

  /**
    An owner 100 units away with no path: 27 ticks leave the dog 50.05 away,
    still outside the stopping distance; the 28th brings it to 48.2, and no
    later tick moves it.
  */
  lemma HundredUnitsTakeTwentyEightTicks(position: Point, owner: Point, n: nat)
    requires Dist(position, owner) == 100.0
    ensures Dist(SteerTimes(position, owner, true, 27), owner) == 50.05
    ensures Dist(SteerTimes(position, owner, true, 28), owner) == 48.2
    ensures SteerTimes(position, owner, true, 28 + n) == SteerTimes(position, owner, true, 28)
  {
    SteeringApproaches(position, owner, true, 27);
    SteeringApproaches(position, owner, true, 28);
    SteerTimesSplit(position, owner, true, 28, n);
    SteeringStopsWhenNear(SteerTimes(position, owner, true, 28), owner, true, n);
  }

  /** Steering `m` then `n` ticks is steering `m + n` ticks. */
  lemma {:induction false} SteerTimesSplit(position: Point, target: Point, mayTeleport: bool, m: nat, n: nat)
    ensures SteerTimes(position, target, mayTeleport, m + n) == SteerTimes(SteerTimes(position, target, mayTeleport, m), target, mayTeleport, n)
    decreases m
  {
    if m > 0 {
      SteerTimesSplit(Steer(position, target, mayTeleport), target, mayTeleport, m - 1, n);
    }
  }
}
