/**
  The companion entity itself: its fields are updated in place by the
  per-tick dispatch, the three state behaviours, the sound and path helpers
  and the death handler. Every method is specified by the step function of
  `Behaviour` it carries out, and keeps `Valid()`, which includes the attack
  timeline: consecutive blows are more than `ATTACK_COOLDOWN` apart.
*/
module DogEntities {
  import opened Options
  import opened Geometry
  import opened Movement
  import opened Behaviour
  import Transitions

  class DogEntity {
    var state: DogState
    var dogOwner: Option<PlayerId>
    var ownerKiller: Option<PlayerId>
    var position: Point
    var facing: real
    var path: Option<seq<Point>>
    var currentPathSegment: nat
    var timeSinceGeneratedPath: real
    var lastAttack: real
    var lastSound: real
    var soundCooldown: real
    /** The engine calls made so far (sounds, damage, material swaps, error logs). */
    var effects: seq<Effect>

    /** Time since spawn. */
    ghost var clock: real
    /** When each blow in `effects` was dealt. */
    ghost var strikeTimes: seq<real>

    function Snap(): Dog
      reads this
    {
      Dog(state, dogOwner, ownerKiller, position, facing, path, currentPathSegment,
          timeSinceGeneratedPath, lastAttack, lastSound, soundCooldown, effects)
    }

    ghost predicate Valid()
      reads this
    {
      WellFormed(Snap()) && Transitions.Timeline(strikeTimes, Snap(), clock)
    }

    /** `new DogEntity()` followed by `Spawn`; an unset attack timer reads as the time since the engine started. */
    constructor (at: Point, roll: Roll, sinceStart: real)
      requires sinceStart >= 0.0
      ensures Valid() && Snap() == Spawned(at, roll, sinceStart)
      ensures strikeTimes == []
    {
      state := FollowOwner;
      dogOwner, ownerKiller := None, None;
      position, facing := at, 0.0;
      path, currentPathSegment := None, 0;
      timeSinceGeneratedPath := 0.0;
      lastAttack := sinceStart;
      lastSound := 0.0;
      soundCooldown := BASE_SOUND_COOLDOWN + roll as real;
      effects := [];
      clock, strikeTimes := 0.0, [];
    }

    method SetOwner(ply: PlayerId)
      requires Valid()
      modifies this
      ensures Valid() && Snap() == old(Snap()).(owner := Some(ply))
      ensures clock == old(clock) && strikeTimes == old(strikeTimes)
    {
      dogOwner := Some(ply);
    }

    /** The engine's clock moving on by `dt` seconds between calls. */
    method AdvanceTime(dt: real)
      requires Valid() && dt >= 0.0
      modifies this
      ensures Valid() && Snap() == Elapse(old(Snap()), dt)
      ensures clock == old(clock) + dt && strikeTimes == old(strikeTimes)
    {
      Transitions.TimelineAfterElapse(strikeTimes, Snap(), dt, clock);
      timeSinceGeneratedPath := timeSinceGeneratedPath + dt;
      lastAttack := lastAttack + dt;
      lastSound := lastSound + dt;
      clock := clock + dt;
    }

    method DogPlaySound(roll: Roll)
      requires WellFormed(Snap())
      modifies this
      ensures WellFormed(Snap()) && Snap() == Bark(old(Snap()), roll)
      ensures clock == old(clock) && strikeTimes == old(strikeTimes)
    {
      if lastSound < soundCooldown {
        return;
      }
      lastSound := 0.0;
      soundCooldown := BASE_SOUND_COOLDOWN + roll as real;
      match state {
        case FollowOwner =>
          effects := effects + [Sound("classhappydog")];
        case AttackingPlayer =>
          effects := effects + [Sound("classangrydog")];
          soundCooldown := soundCooldown + ANGRY_SOUND_EXTRA;
        case Crying =>
          effects := effects + [Sound("classsaddog")];
        case Invalid =>
          effects := effects + [ErrorLog("Invalid dog state")];
      }
    }

    method GeneratePath(nav: NavResult)
      requires WellFormed(Snap())
      modifies this
      ensures WellFormed(Snap()) && Snap() == Replan(old(Snap()), nav)
      ensures clock == old(clock) && strikeTimes == old(strikeTimes)
    {
      timeSinceGeneratedPath := 0.0;
      if nav.NotLoaded? {
        return;
      }
      path := StoredPath(nav.waypoints);
      currentPathSegment := 0;
    }

    /** The no-path branch of `TraversePath`: face the target and steer toward it. */
    method SteerToward(target: Target)
      requires WellFormed(Snap()) && path.None?
      modifies this
      ensures Snap() == old(Snap()).(facing := Dir(old(position), target.at),
                                     position := Steer(old(position), target.at, MayTeleport(target, dogOwner)))
      ensures clock == old(clock) && strikeTimes == old(strikeTimes)
    {
      var diff := Dist(position, target.at);
      var direction := Dir(position, target.at);
      facing := direction;
      if diff >= TELEPORT_DISTANCE && MayTeleport(target, dogOwner) {
        position := target.at;
      }
      if diff >= STEER_MIN_DISTANCE {
        position := position + direction * MOVEMENT_SPEED;
      }
    }

    method TraversePath(target: Target)
      requires WellFormed(Snap())
      modifies this
      ensures WellFormed(Snap()) && Snap() == Pursue(old(Snap()), target)
      ensures clock == old(clock) && strikeTimes == old(strikeTimes)
    {
      if path.None? {
        SteerToward(target);
        return;
      }

      var waypoints := path.value;
      ghost var start := Snap();
      ghost var goal := Follow(position, facing, waypoints, currentPathSegment, MOVEMENT_SPEED);
      var distanceToTravel := MOVEMENT_SPEED;
      while distanceToTravel > 0.0
        invariant path == Some(waypoints) && currentPathSegment < |waypoints|
        invariant 0.0 <= distanceToTravel
        invariant Follow(position, facing, waypoints, currentPathSegment, distanceToTravel) == goal
        invariant Snap() == start.(position := position, facing := facing, segment := currentPathSegment)
        invariant clock == old(clock) && strikeTimes == old(strikeTimes)
        decreases |waypoints| - currentPathSegment
      {
        var currentTarget := waypoints[currentPathSegment];
        var distanceToCurrentTarget := Dist(position, currentTarget);
        if distanceToCurrentTarget > distanceToTravel {
          position := Toward(position, currentTarget, distanceToTravel);
          assert goal == Progress(position, facing, currentPathSegment, 0.0);
          return;
        } else {
          facing := Dir(position, currentTarget);
          position := Toward(position, currentTarget, distanceToCurrentTarget);
          distanceToTravel := distanceToTravel - distanceToCurrentTarget;
          currentPathSegment := currentPathSegment + 1;
        }
        if currentPathSegment == |waypoints| {
          assert goal == Progress(position, facing, currentPathSegment, distanceToTravel);
          path := None;
          return;
        }
      }
      assert goal == Progress(position, facing, currentPathSegment, 0.0);
    }

    method PerformStateFollowOwner(w: World)
      requires WellFormed(Snap())
      modifies this
      ensures WellFormed(Snap()) && Snap() == FollowingTick(old(Snap()), w)
      ensures clock == old(clock) && strikeTimes == old(strikeTimes)
    {
      if dogOwner.None? {
        return;
      }
      var owner := w.players(dogOwner.value);
      if !owner.alive {
        effects := effects + [ErrorLog("Dog missed owner death")];
        state := Crying;
        return;
      }
      if Dist(owner.position, position) <= ARRIVE_DISTANCE {
        facing := Dir(position, owner.position);
        DogPlaySound(w.roll);
        return;
      }
      if timeSinceGeneratedPath >= REPLAN_INTERVAL {
        GeneratePath(w.nav);
      }
      DogPlaySound(w.roll);
      TraversePath(PlayerTarget(dogOwner.value, owner.position));
    }

    method PerformStateAttackingPlayer(w: World)
      requires WellFormed(Snap())
      modifies this
      ensures WellFormed(Snap()) && Snap() == AttackingTick(old(Snap()), w)
      ensures clock == old(clock) && strikeTimes == old(strikeTimes)
    {
      if ownerKiller.None? {
        effects := effects + [ErrorLog("Mismanaged dog state!")];
        return;
      }
      var killer := ownerKiller.value;
      var at := w.players(killer).position;
      if Dist(at, position) <= ATTACK_RANGE {
        if lastAttack > ATTACK_COOLDOWN {
          var blow := [Sound("classdogattack"), Damage(killer, ATTACK_DAMAGE)];
          effects := effects + blow;
          lastAttack := 0.0;
        }
      }
      if Dist(at, position) <= STRIKE_DISTANCE {
        facing := Dir(position, at);
        return;
      }
      if timeSinceGeneratedPath >= REPLAN_INTERVAL {
        GeneratePath(w.nav);
      }
      DogPlaySound(w.roll);
      TraversePath(PlayerTarget(killer, at));
    }

    method PerformStateCrying(w: World)
      requires WellFormed(Snap())
      modifies this
      ensures WellFormed(Snap()) && Snap() == CryingTick(old(Snap()), w)
      ensures clock == old(clock) && strikeTimes == old(strikeTimes)
    {
      if dogOwner.None? {
        return;
      }
      var corpse := w.players(dogOwner.value).corpse;
      if corpse.None? {
        DogPlaySound(w.roll);
        return;
      }
      if Dist(corpse.value, position) <= ARRIVE_DISTANCE {
        facing := Dir(position, corpse.value);
        DogPlaySound(w.roll);
        return;
      }
      if timeSinceGeneratedPath >= REPLAN_INTERVAL {
        GeneratePath(w.nav);
      }
      TraversePath(CorpseTarget(corpse.value));
    }

    /** One server tick. */
    method Tick(w: World)
      requires Valid()
      modifies this
      ensures Valid() && Snap() == TickStep(old(Snap()), w)
      ensures clock == old(clock)
      ensures strikeTimes == if Transitions.LandsBlow(old(Snap()), w) then old(strikeTimes) + [clock] else old(strikeTimes)
    {
      ghost var before := Snap();
      match state {
        case FollowOwner =>
          PerformStateFollowOwner(w);
        case AttackingPlayer =>
          PerformStateAttackingPlayer(w);
        case Crying =>
          PerformStateCrying(w);
        case Invalid =>
          effects := effects + [ErrorLog("Invalid dog state")];
      }
      Transitions.TimelineAfterTick(strikeTimes, before, w, clock);
      if Transitions.LandsBlow(before, w) {
        strikeTimes := strikeTimes + [clock];
      }
    }

    /** The handler of a player's death (`Player.PostOnKilled`). */
    method UpdateAttack(victim: PlayerId, attacker: Attacker)
      requires Valid()
      modifies this
      ensures Valid() && Snap() == KillStep(old(Snap()), victim, attacker)
      ensures clock == old(clock) && strikeTimes == old(strikeTimes)
    {
      Transitions.TimelineAfterDeath(strikeTimes, Snap(), victim, attacker, clock);
      if dogOwner == Some(victim) && state == FollowOwner {
        if attacker.PlayerAttacker? && dogOwner != Some(attacker.id) {
          ownerKiller := Some(attacker.id);
          effects := effects + [Material("materials/angrydog.vmat")];
          state := AttackingPlayer;
          lastAttack := 0.0;
        } else {
          effects := effects + [Material("materials/saddog.vmat")];
          state := Crying;
        }
      } else if ownerKiller == Some(victim) && state == AttackingPlayer {
        effects := effects + [Material("materials/saddog.vmat")];
        state := Crying;
      }
    }
  }
}
