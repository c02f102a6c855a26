/**
  The dog's behaviour as pure functions of a snapshot of its fields. Each
  function is the meaning of one method of `DogEntities.DogEntity`; the
  lemmas below state what the state machine promises.
*/
module Behaviour {
  import opened Options
  import opened Geometry
  import opened Movement

  const ATTACK_RANGE: real := 50.0
  const ATTACK_COOLDOWN: real := 2.0
  const ATTACK_DAMAGE: real := 25.0
  /** Following or mourning, the dog settles this close to its target. */
  const ARRIVE_DISTANCE: real := 50.0
  /** Attacking, the dog stops chasing this close to the killer. */
  const STRIKE_DISTANCE: real := 20.0
  /** A new path is requested at most once per this many seconds. */
  const REPLAN_INTERVAL: real := 0.25
  const BASE_SOUND_COOLDOWN: real := 5.0
  const ANGRY_SOUND_EXTRA: real := 1.3

  /** The behaviour tag; `Invalid` stands for any string other than the three the dispatch knows. */
  datatype DogState = FollowOwner | AttackingPlayer | Crying | Invalid

  type PlayerId = nat

  /** What the engine shows of a player during a tick. */
  datatype PlayerInfo = PlayerInfo(position: Point, alive: bool, corpse: Option<Point>)

  /** The attacker carried by the killing blow: none, some entity that is not a player, or a player. */
  datatype Attacker = NoAttacker | NonPlayer | PlayerAttacker(id: PlayerId)

  /** What `TraversePath` is sent toward: a player, or a corpse (never a player). */
  datatype Target = PlayerTarget(id: PlayerId, at: Point) | CorpseTarget(at: Point)

  /** The navigation mesh's answer to a path request: not loaded, or the waypoints of the built path (none when building failed). */
  datatype NavResult = NotLoaded | Built(waypoints: Option<seq<Point>>)

  /** A draw of `Game.Random.Int(5)`, which returns 0 to 5 inclusive. */
  type Roll = r: int | 0 <= r <= 5

  /** Everything a tick reads from outside the dog. */
  datatype World = World(players: PlayerId -> PlayerInfo, nav: NavResult, roll: Roll)

  /** The engine calls the dog makes, in order. */
  datatype Effect =
    | Sound(name: string)
    | Damage(victim: PlayerId, amount: real)
    | Material(name: string)
    | ErrorLog(message: string)

  /** A snapshot of the dog's fields. Timers hold seconds since they were last reset. */
  datatype Dog = Dog(
    state: DogState,
    owner: Option<PlayerId>,
    killer: Option<PlayerId>,
    position: Point,
    facing: real,
    path: Option<seq<Point>>,
    segment: nat,
    pathAge: real,
    lastAttack: real,
    lastSound: real,
    soundCooldown: real,
    effects: seq<Effect>)

  /** A stored path always has a waypoint under its cursor. */
  predicate WellFormed(d: Dog) {
    d.path.Some? ==> d.segment < |d.path.value|
  }

  /** The number of damage calls among `es`. */
  function Strikes(es: seq<Effect>): nat {
    if es == [] then 0
    else Strikes(es[..|es| - 1]) + (if es[|es| - 1].Damage? then 1 else 0)
  }

  lemma {:induction false} StrikesAppend(a: seq<Effect>, b: seq<Effect>)
    ensures Strikes(a + b) == Strikes(a) + Strikes(b)
    decreases |b|
  {
    if b == [] {
      assert a + b == a;
    } else {
      assert (a + b)[..|a + b| - 1] == a + b[..|b| - 1];
      StrikesAppend(a, b[..|b| - 1]);
    }
  }

  // ---------------------------------------------------------------- sound

  /** The cue `DogPlaySound` emits in each state. */
  function Cue(s: DogState): Effect {
    match s
    case FollowOwner => Sound("classhappydog")
    case AttackingPlayer => Sound("classangrydog")
    case Crying => Sound("classsaddog")
    case Invalid => ErrorLog("Invalid dog state")
  }

  /** `DogPlaySound`: rate-limited by the sound cooldown, which is redrawn at every cue. */
  function Bark(d: Dog, roll: Roll): Dog {
    if d.lastSound < d.soundCooldown then d
    else
      var cooldown := BASE_SOUND_COOLDOWN + roll as real;
      d.(lastSound := 0.0,
         soundCooldown := if d.state == AttackingPlayer then cooldown + ANGRY_SOUND_EXTRA else cooldown,
         effects := d.effects + [Cue(d.state)])
  }

  /**
    A cue is emitted exactly when the cooldown has run out; it resets the
    sound timer and draws a cooldown of 5 seconds plus the roll (0 to 5),
    1.3 more when attacking. Nothing but the sound fields and the effects changes.
  */
  lemma BarkIsRateLimited(d: Dog, roll: Roll)
    ensures var r := Bark(d, roll);
      && (r.effects == d.effects + [Cue(d.state)] <==> d.lastSound >= d.soundCooldown)
      && (d.lastSound < d.soundCooldown ==> r == d)
      && (d.lastSound >= d.soundCooldown ==>
            && r.lastSound == 0.0
            && r.soundCooldown == BASE_SOUND_COOLDOWN + roll as real + (if d.state == AttackingPlayer then ANGRY_SOUND_EXTRA else 0.0)
            && (d.state == AttackingPlayer ==> BASE_SOUND_COOLDOWN + ANGRY_SOUND_EXTRA <= r.soundCooldown <= BASE_SOUND_COOLDOWN + 5.0 + ANGRY_SOUND_EXTRA)
            && (d.state != AttackingPlayer ==> BASE_SOUND_COOLDOWN <= r.soundCooldown <= BASE_SOUND_COOLDOWN + 5.0))
      && r == d.(lastSound := r.lastSound, soundCooldown := r.soundCooldown, effects := r.effects)
  {
    if d.lastSound < d.soundCooldown {
      assert |d.effects + [Cue(d.state)]| != |d.effects|;
    }
  }

  // ---------------------------------------------------------------- planning

  /**
    The waypoints this model stores: an empty list is treated like a failed
    build, so the dog falls back to direct steering.
  */
  function StoredPath(waypoints: Option<seq<Point>>): (r: Option<seq<Point>>)
    ensures r.Some? ==> 0 < |r.value|
    ensures waypoints.Some? && 0 < |waypoints.value| <==> r.Some?
    ensures r.Some? ==> r == waypoints
  {
    if waypoints == Some([]) then None else waypoints
  }

  /** `GeneratePath`: always restarts the replanning timer; a loaded mesh replaces the path and rewinds the cursor. */
  function Replan(d: Dog, nav: NavResult): (r: Dog)
    requires WellFormed(d)
    ensures WellFormed(r)
  {
    match nav
    case NotLoaded => d.(pathAge := 0.0)
    case Built(waypoints) => d.(pathAge := 0.0, path := StoredPath(waypoints), segment := 0)
  }

  /**
    `GeneratePath` as written: the builder's waypoints are stored as they
    come, an empty list included, and the cursor is set to 0.
  */
  function ReplanAsWritten(d: Dog, nav: NavResult): Dog {
    match nav
    case NotLoaded => d.(pathAge := 0.0)
    case Built(waypoints) => d.(pathAge := 0.0, path := waypoints, segment := 0)
  }

  /**
    As written, a built path without waypoints leaves the cursor on no
    waypoint, so the next `TraversePath` reads index 0 of an empty array;
    this model's `Replan` drops such a path instead.
  */
  lemma EmptyPathBreaksFollower(d: Dog)
    requires WellFormed(d)
    ensures !WellFormed(ReplanAsWritten(d, Built(Some([]))))
    ensures Replan(d, Built(Some([]))).path == None
  {
  }

  /** `GeneratePath` runs only when the previous request is at least `REPLAN_INTERVAL` old. */
  function MaybeReplan(d: Dog, nav: NavResult): (r: Dog)
    requires WellFormed(d)
    ensures WellFormed(r)
  {
    if d.pathAge >= REPLAN_INTERVAL then Replan(d, nav) else d
  }

  /**
    Replanning is throttled: the path and the timer change only when the
    timer had reached `REPLAN_INTERVAL`, and then the timer is reset even
    without a mesh; a built path rewinds the cursor to 0.
  */
  lemma ReplanIsThrottled(d: Dog, nav: NavResult)
    requires WellFormed(d)
    ensures var r := MaybeReplan(d, nav);
      && (d.pathAge < REPLAN_INTERVAL ==> r == d)
      && (d.pathAge >= REPLAN_INTERVAL ==> r.pathAge == 0.0)
      && (d.pathAge >= REPLAN_INTERVAL && nav.NotLoaded? ==> r == d.(pathAge := 0.0))
      && (d.pathAge >= REPLAN_INTERVAL && nav.Built? ==> r.path == StoredPath(nav.waypoints) && r.segment == 0)
      && r == d.(pathAge := r.pathAge, path := r.path, segment := r.segment)
  {
  }

  // ---------------------------------------------------------------- moving

  /** Only the owner is worth a teleport. */
  predicate MayTeleport(target: Target, owner: Option<PlayerId>) {
    target.PlayerTarget? && owner == Some(target.id)
  }

  /**
    `TraversePath`: without a path, face the target and steer; with one,
    spend one tick's budget along it and drop it once the cursor reaches
    its end.
  */
  function Pursue(d: Dog, target: Target): (r: Dog)
    requires WellFormed(d)
    ensures WellFormed(r)
  {
    match d.path
    case None =>
      d.(facing := Dir(d.position, target.at), position := Steer(d.position, target.at, MayTeleport(target, d.owner)))
    case Some(p) =>
      var f := Follow(d.position, d.facing, p, d.segment, MOVEMENT_SPEED);
      d.(position := f.position, facing := f.facing, segment := f.cursor,
         path := if f.cursor == |p| then None else d.path)
  }

  /**
    One call of `TraversePath` on a stored path: the cursor only moves
    forward and stays inside the path, the path is dropped exactly when the
    cursor reaches its end, the dog moves at most `MOVEMENT_SPEED`, and only
    the position, the facing, the path and the cursor change.
  */
  lemma PursueAlongPath(d: Dog, target: Target)
    requires WellFormed(d) && d.path.Some?
    ensures var r := Pursue(d, target);
      && d.segment <= r.segment <= |d.path.value|
      && (r.path.None? <==> r.segment == |d.path.value|)
      && (r.path.Some? ==> r.path == d.path)
      && Dist(d.position, r.position) <= MOVEMENT_SPEED
      && r == d.(position := r.position, facing := r.facing, segment := r.segment, path := r.path)
  {
    FollowStaysWithinSpeed(d.position, d.facing, d.path.value, d.segment);
  }

  // ---------------------------------------------------------------- ticks

  /** `PerformStateFollowOwner`. */
  function FollowingTick(d: Dog, w: World): (r: Dog)
    requires WellFormed(d)
    ensures WellFormed(r)
  {
    match d.owner
    case None => d
    case Some(o) =>
      var owner := w.players(o);
      if !owner.alive then
        d.(state := Crying, effects := d.effects + [ErrorLog("Dog missed owner death")])
      else if Dist(owner.position, d.position) <= ARRIVE_DISTANCE then
        Bark(d.(facing := Dir(d.position, owner.position)), w.roll)
      else
        Pursue(Bark(MaybeReplan(d, w.nav), w.roll), PlayerTarget(o, owner.position))
  }

  /** The attack check at the top of `PerformStateAttackingPlayer`. */
  predicate StrikeDue(d: Dog, killerAt: Point) {
    Dist(killerAt, d.position) <= ATTACK_RANGE && d.lastAttack > ATTACK_COOLDOWN
  }

  /** `PerformStateAttackingPlayer`. */
  function AttackingTick(d: Dog, w: World): (r: Dog)
    requires WellFormed(d)
    ensures WellFormed(r)
  {
    match d.killer
    case None => d.(effects := d.effects + [ErrorLog("Mismanaged dog state!")])
    case Some(k) =>
      var at := w.players(k).position;
      var struck :=
        if StrikeDue(d, at) then
          d.(lastAttack := 0.0, effects := d.effects + [Sound("classdogattack"), Damage(k, ATTACK_DAMAGE)])
        else d;
      if Dist(at, d.position) <= STRIKE_DISTANCE then
        struck.(facing := Dir(d.position, at))
      else
        Pursue(Bark(MaybeReplan(struck, w.nav), w.roll), PlayerTarget(k, at))
  }

  /** `PerformStateCrying`: mourn at the owner's corpse. No cue is played while walking to it. */
  function CryingTick(d: Dog, w: World): (r: Dog)
    requires WellFormed(d)
    ensures WellFormed(r)
  {
    match d.owner
    case None => d
    case Some(o) =>
      match w.players(o).corpse
      case None => Bark(d, w.roll)
      case Some(c) =>
        if Dist(c, d.position) <= ARRIVE_DISTANCE then Bark(d.(facing := Dir(d.position, c)), w.roll)
        else Pursue(MaybeReplan(d, w.nav), CorpseTarget(c))
  }

  /** `Tick`: dispatch on the state; an unknown state only logs. */
  function TickStep(d: Dog, w: World): (r: Dog)
    requires WellFormed(d)
    ensures WellFormed(r)
  {
    match d.state
    case FollowOwner => FollowingTick(d, w)
    case AttackingPlayer => AttackingTick(d, w)
    case Crying => CryingTick(d, w)
    case Invalid => d.(effects := d.effects + [ErrorLog("Invalid dog state")])
  }

  /** `UpdateAttack`: the reaction to a player's death. */
  function KillStep(d: Dog, victim: PlayerId, attacker: Attacker): Dog {
    if d.owner == Some(victim) && d.state == FollowOwner then
      if attacker.PlayerAttacker? && d.owner != Some(attacker.id) then
        d.(killer := Some(attacker.id), state := AttackingPlayer, lastAttack := 0.0,
           effects := d.effects + [Material("materials/angrydog.vmat")])
      else
        d.(state := Crying, effects := d.effects + [Material("materials/saddog.vmat")])
    else if d.killer == Some(victim) && d.state == AttackingPlayer then
      d.(state := Crying, effects := d.effects + [Material("materials/saddog.vmat")])
    else d
  }

  /** Time passing between calls: every timer grows by the same `dt`, real-time and game-time timers alike. */
  function Elapse(d: Dog, dt: real): Dog {
    d.(pathAge := d.pathAge + dt, lastAttack := d.lastAttack + dt, lastSound := d.lastSound + dt)
  }

  /** The dog right after `Spawn`, before an owner is set. */
  function Spawned(position: Point, roll: Roll, sinceStart: real): Dog {
    Dog(FollowOwner, None, None, position, 0.0, None, 0, 0.0, sinceStart, 0.0,
        BASE_SOUND_COOLDOWN + roll as real, [])
  }
}
