/** What the behaviour state machine promises, stated over the step functions of `Behaviour`. */
module Transitions {
  import opened Options
  import opened Geometry
  import opened Movement
  import opened Behaviour

  /** The owner's death at the hands of another player starts the attack on that player. */
  predicate Avenges(d: Dog, victim: PlayerId, attacker: Attacker) {
    d.state == FollowOwner && d.owner == Some(victim) && attacker.PlayerAttacker? && attacker.id != victim
  }

  lemma OwnerKilledByAnotherPlayer(d: Dog, victim: PlayerId, attacker: Attacker)
    ensures var r := KillStep(d, victim, attacker);
      && (r.state == AttackingPlayer && d.state != AttackingPlayer <==> Avenges(d, victim, attacker))
      && (Avenges(d, victim, attacker) ==>
            r == d.(state := AttackingPlayer, killer := Some(attacker.id), lastAttack := 0.0,
                    effects := d.effects + [Material("materials/angrydog.vmat")]))
  {
  }

  /** The owner's death with no attacker, a non-player attacker or a suicide starts mourning and leaves the killer alone. */
  lemma OwnerKilledOtherwise(d: Dog, victim: PlayerId, attacker: Attacker)
    requires d.state == FollowOwner && d.owner == Some(victim)
    requires !attacker.PlayerAttacker? || attacker.id == victim
    ensures KillStep(d, victim, attacker) == d.(state := Crying, effects := d.effects + [Material("materials/saddog.vmat")])
  {
  }

  /** The killer's death while the dog attacks it starts mourning. */
  lemma KillerKilled(d: Dog, victim: PlayerId, attacker: Attacker)
    requires d.state == AttackingPlayer && d.killer == Some(victim)
    ensures KillStep(d, victim, attacker) == d.(state := Crying, effects := d.effects + [Material("materials/saddog.vmat")])
  {
  }

  /** Every other death leaves the dog untouched. */
  lemma OtherDeathsIgnored(d: Dog, victim: PlayerId, attacker: Attacker)
    requires !(d.state == FollowOwner && d.owner == Some(victim))
    requires !(d.state == AttackingPlayer && d.killer == Some(victim))
    ensures KillStep(d, victim, attacker) == d
  {
  }

  /** Following a dead owner is a missed death event: the tick switches to mourning, logs, and does nothing else. */
  lemma DeadOwnerTick(d: Dog, w: World)
    requires WellFormed(d) && d.state == FollowOwner && d.owner.Some? && !w.players(d.owner.value).alive
    ensures TickStep(d, w) == d.(state := Crying, effects := d.effects + [ErrorLog("Dog missed owner death")])
  {
  }

  /** An unknown state only logs: no field but the effects changes. */
  lemma InvalidTickOnlyLogs(d: Dog, w: World)
    requires WellFormed(d) && d.state == Invalid
    ensures TickStep(d, w) == d.(effects := d.effects + [ErrorLog("Invalid dog state")])
  {
  }

  /** Sounds, replanning and movement never touch the state, the owner or the killer. */
  predicate SameRoles(a: Dog, b: Dog) {
    a.state == b.state && a.owner == b.owner && a.killer == b.killer
  }

  lemma MovingKeepsRoles(d: Dog, w: World, target: Target)
    requires WellFormed(d)
    ensures SameRoles(Bark(d, w.roll), d)
    ensures SameRoles(MaybeReplan(d, w.nav), d)
    ensures SameRoles(Pursue(d, target), d)
  {
  }

  /** A tick changes the state only from following to mourning, and never the owner or the killer. */
  lemma TickStateChange(d: Dog, w: World)
    requires WellFormed(d)
    ensures var r := TickStep(d, w);
      && r.owner == d.owner && r.killer == d.killer
      && (r.state != d.state ==> d.state == FollowOwner && r.state == Crying)
  {
    MovingKeepsRoles(d, w, PlayerTarget(0, 0.0));
    match d.state
    case FollowOwner =>
      if d.owner.Some? {
        var o := d.owner.value;
        var at := w.players(o).position;
        MovingKeepsRoles(d.(facing := Dir(d.position, at)), w, PlayerTarget(o, at));
        var planned := MaybeReplan(d, w.nav);
        MovingKeepsRoles(planned, w, PlayerTarget(o, at));
        MovingKeepsRoles(Bark(planned, w.roll), w, PlayerTarget(o, at));
      }
    case AttackingPlayer =>
      if d.killer.Some? {
        var k := d.killer.value;
        var at := w.players(k).position;
        var struck :=
          if StrikeDue(d, at) then
            d.(lastAttack := 0.0, effects := d.effects + [Sound("classdogattack"), Damage(k, ATTACK_DAMAGE)])
          else d;
        var planned := MaybeReplan(struck, w.nav);
        MovingKeepsRoles(planned, w, PlayerTarget(k, at));
        MovingKeepsRoles(Bark(planned, w.roll), w, PlayerTarget(k, at));
      }
    case Crying =>
      if d.owner.Some? && w.players(d.owner.value).corpse.Some? {
        var c := w.players(d.owner.value).corpse.value;
        MovingKeepsRoles(d.(facing := Dir(d.position, c)), w, CorpseTarget(c));
        MovingKeepsRoles(MaybeReplan(d, w.nav), w, CorpseTarget(c));
      }
    case Invalid =>
  }

  /** A death changes the state only out of following, or from attacking to mourning. */
  lemma KillStateChange(d: Dog, victim: PlayerId, attacker: Attacker)
    ensures var r := KillStep(d, victim, attacker);
      && r.owner == d.owner
      && (r.state != d.state ==>
            (d.state == FollowOwner && (r.state == AttackingPlayer || r.state == Crying))
            || (d.state == AttackingPlayer && r.state == Crying))
  {
  }

  // ---------------------------------------------------------------- runs

  /** What can happen to the dog: time passes, a tick runs, or a player dies. */
  datatype Input =
    | Wait(dt: real)
    | Update(w: World)
    | Death(victim: PlayerId, attacker: Attacker)

  function Apply(d: Dog, i: Input): (r: Dog)
    requires WellFormed(d)
    ensures WellFormed(r)
  {
    match i
    case Wait(dt) => Elapse(d, dt)
    case Update(w) => TickStep(d, w)
    case Death(victim, attacker) => KillStep(d, victim, attacker)
  }

  /** The dog after a sequence of inputs. */
  function Run(d: Dog, inputs: seq<Input>): (r: Dog)
    requires WellFormed(d)
    decreases |inputs|
  {
    if inputs == [] then d else Run(Apply(d, inputs[0]), inputs[1..])
  }

  /** Following, then attacking, then mourning: the order in which states may follow one another. */
  function Rank(s: DogState): nat {
    match s
    case FollowOwner => 0
    case AttackingPlayer => 1
    case Crying => 2
    case Invalid => 3
  }

  /** One input never moves the state backward, and an unknown state stays unknown. */
  lemma ApplyIsOneWay(d: Dog, i: Input)
    requires WellFormed(d)
    ensures Rank(d.state) <= Rank(Apply(d, i).state)
    ensures (d.state == Invalid) == (Apply(d, i).state == Invalid)
  {
    match i
    case Wait(dt) =>
    case Update(w) => TickStateChange(d, w);
    case Death(victim, attacker) => KillStateChange(d, victim, attacker);
  }

  /**
    Over any run the state only moves forward: following, attacking,
    mourning. So mourning is never left, a spawned dog never reaches an
    unknown state, and no dog ever returns to following its owner.
  */
  lemma {:induction false} RunIsOneWay(d: Dog, inputs: seq<Input>)
    requires WellFormed(d)
    ensures Rank(d.state) <= Rank(Run(d, inputs).state)
    ensures (d.state == Invalid) == (Run(d, inputs).state == Invalid)
    decreases |inputs|
  {
    if inputs != [] {
      ApplyIsOneWay(d, inputs[0]);
      RunIsOneWay(Apply(d, inputs[0]), inputs[1..]);
    }
  }

  lemma CryingIsAbsorbing(d: Dog, inputs: seq<Input>)
    requires WellFormed(d) && d.state == Crying
    ensures Run(d, inputs).state == Crying
  {
    RunIsOneWay(d, inputs);
  }

  // ---------------------------------------------------------------- attacks

  /** Whether a tick of `d` in world `w` lands a blow on the killer. */
  predicate LandsBlow(d: Dog, w: World) {
    d.state == AttackingPlayer && d.killer.Some? && StrikeDue(d, w.players(d.killer.value).position)
  }

  /** Neither the attack timer nor the damage count is touched by sounds, replanning or movement. */
  predicate NoBlow(a: Dog, b: Dog) {
    Strikes(a.effects) == Strikes(b.effects) && a.lastAttack == b.lastAttack
  }

  lemma MovingAddsNoDamage(d: Dog, w: World, target: Target)
    requires WellFormed(d)
    ensures NoBlow(Bark(d, w.roll), d)
    ensures NoBlow(MaybeReplan(d, w.nav), d)
    ensures NoBlow(Pursue(d, target), d)
  {
    if d.lastSound >= d.soundCooldown {
      StrikesAppend(d.effects, [Cue(d.state)]);
    }
  }

  lemma LogAddsNoDamage(d: Dog, message: string)
    ensures NoBlow(d.(effects := d.effects + [ErrorLog(message)]), d)
  {
    StrikesAppend(d.effects, [ErrorLog(message)]);
  }

  lemma FollowingDealsNoDamage(d: Dog, w: World)
    requires WellFormed(d) && d.owner.Some?
    ensures NoBlow(FollowingTick(d, w), d)
  {
    var o := d.owner.value;
    var at := w.players(o).position;
    LogAddsNoDamage(d, "Dog missed owner death");
    MovingAddsNoDamage(d.(facing := Dir(d.position, at)), w, PlayerTarget(o, at));
    var planned := MaybeReplan(d, w.nav);
    MovingAddsNoDamage(planned, w, PlayerTarget(o, at));
    MovingAddsNoDamage(Bark(planned, w.roll), w, PlayerTarget(o, at));
  }

  lemma CryingDealsNoDamage(d: Dog, w: World)
    requires WellFormed(d) && d.owner.Some?
    ensures NoBlow(CryingTick(d, w), d)
  {
    var o := d.owner.value;
    MovingAddsNoDamage(d, w, PlayerTarget(o, 0.0));
    if w.players(o).corpse.Some? {
      var c := w.players(o).corpse.value;
      MovingAddsNoDamage(d.(facing := Dir(d.position, c)), w, CorpseTarget(c));
      MovingAddsNoDamage(MaybeReplan(d, w.nav), w, CorpseTarget(c));
    }
  }

  lemma AttackingDamage(d: Dog, w: World)
    requires WellFormed(d) && d.killer.Some?
    ensures var r := AttackingTick(d, w);
      var due := StrikeDue(d, w.players(d.killer.value).position);
      && Strikes(r.effects) == Strikes(d.effects) + (if due then 1 else 0)
      && r.lastAttack == (if due then 0.0 else d.lastAttack)
      && (due ==> |r.effects| >= |d.effects| + 2
                  && r.effects[..|d.effects| + 2] == d.effects + [Sound("classdogattack"), Damage(d.killer.value, ATTACK_DAMAGE)])
  {
    var k := d.killer.value;
    var at := w.players(k).position;
    var blow := [Sound("classdogattack"), Damage(k, ATTACK_DAMAGE)];
    StrikesAppend(d.effects, blow);
    assert Strikes(blow) == 1 by {
      assert blow[..1] == [Sound("classdogattack")];
      assert [Sound("classdogattack")][..0] == [];
    }
    var struck := if StrikeDue(d, at) then d.(lastAttack := 0.0, effects := d.effects + blow) else d;
    var planned := MaybeReplan(struck, w.nav);
    MovingAddsNoDamage(struck, w, PlayerTarget(k, at));
    MovingAddsNoDamage(planned, w, PlayerTarget(k, at));
    MovingAddsNoDamage(Bark(planned, w.roll), w, PlayerTarget(k, at));
    if StrikeDue(d, at) {
      BiteHitsKiller(d, w);
    }
  }

  /** A due bite opens the tick's effects: the attack sound, then `ATTACK_DAMAGE` dealt to the killer. */
  lemma BiteHitsKiller(d: Dog, w: World)
    requires WellFormed(d) && d.killer.Some? && StrikeDue(d, w.players(d.killer.value).position)
    ensures var r := AttackingTick(d, w);
      && |r.effects| >= |d.effects| + 2
      && r.effects[..|d.effects| + 2] == d.effects + [Sound("classdogattack"), Damage(d.killer.value, ATTACK_DAMAGE)]
  {
  }

  /**
    A tick deals damage only when attacking a killer within `ATTACK_RANGE`
    whose last blow is more than `ATTACK_COOLDOWN` ago; it then deals
    exactly one blow of `ATTACK_DAMAGE` and resets the attack timer, which
    no tick otherwise touches.
  */
  lemma TickDamageRule(d: Dog, w: World)
    requires WellFormed(d)
    ensures var r := TickStep(d, w);
      && Strikes(r.effects) == Strikes(d.effects) + (if LandsBlow(d, w) then 1 else 0)
      && r.lastAttack == (if LandsBlow(d, w) then 0.0 else d.lastAttack)
  {
    match d.state
    case FollowOwner =>
      if d.owner.Some? { FollowingDealsNoDamage(d, w); }
    case AttackingPlayer =>
      if d.killer.None? { LogAddsNoDamage(d, "Mismanaged dog state!"); } else { AttackingDamage(d, w); }
    case Crying =>
      if d.owner.Some? { CryingDealsNoDamage(d, w); }
    case Invalid =>
      LogAddsNoDamage(d, "Invalid dog state");
  }

  // ---------------------------------------------------------------- the attack timeline

  /** Consecutive blow times are more than `ATTACK_COOLDOWN` apart. */
  ghost predicate BlowsSpaced(times: seq<real>) {
    forall i :: 0 < i < |times| ==> times[i - 1] + ATTACK_COOLDOWN < times[i]
  }

  /**
    `times` holds when each damage call in `d.effects` was made, up to the
    present `now`: one time per blow, consecutive blows more than
    `ATTACK_COOLDOWN` apart, and the attack timer never claiming more time
    than has passed since the last blow.
  */
  ghost predicate Timeline(times: seq<real>, d: Dog, now: real) {
    && d.lastAttack >= 0.0
    && |times| == Strikes(d.effects)
    && BlowsSpaced(times)
    && (|times| > 0 ==> times[|times| - 1] + d.lastAttack <= now)
  }

  /** A tick keeps the timeline, recording a blow at the present time exactly when one lands. */
  lemma TimelineAfterTick(times: seq<real>, d: Dog, w: World, now: real)
    requires WellFormed(d) && Timeline(times, d, now)
    ensures Timeline(if LandsBlow(d, w) then times + [now] else times, TickStep(d, w), now)
  {
    TickDamageRule(d, w);
  }

  /** A death deals no damage and can only restart the attack timer, so it keeps the timeline. */
  lemma TimelineAfterDeath(times: seq<real>, d: Dog, victim: PlayerId, attacker: Attacker, now: real)
    requires Timeline(times, d, now)
    ensures Timeline(times, KillStep(d, victim, attacker), now)
  {
    StrikesAppend(d.effects, [Material("materials/angrydog.vmat")]);
    StrikesAppend(d.effects, [Material("materials/saddog.vmat")]);
  }

  /** Time passing moves the attack timer and the present along together. */
  lemma TimelineAfterElapse(times: seq<real>, d: Dog, dt: real, now: real)
    requires Timeline(times, d, now) && dt >= 0.0
    ensures Timeline(times, Elapse(d, dt), now + dt)
  {
  }

  /**
    On a timeline, any two blows are more than `ATTACK_COOLDOWN` apart, not
    only consecutive ones.
  */
  lemma {:induction false} BlowsNeverClose(times: seq<real>, i: nat, j: nat)
    requires BlowsSpaced(times) && i < j < |times|
    ensures times[i] + ATTACK_COOLDOWN < times[j]
    decreases j - i
  {
    if i + 1 < j {
      BlowsNeverClose(times, i, j - 1);
      BlowsNeverClose(times, j - 1, j);
    }
  }

  // ---------------------------------------------------------------- scenarios

  /** Following a live owner between 50 and 800 units away without a path closes in by exactly `MOVEMENT_SPEED`. */
  lemma FollowingClosesIn(d: Dog, w: World)
    requires WellFormed(d) && d.state == FollowOwner && d.owner.Some? && d.path.None?
    requires d.pathAge < REPLAN_INTERVAL || w.nav.NotLoaded?
    requires var owner := w.players(d.owner.value);
      owner.alive && ARRIVE_DISTANCE < Dist(owner.position, d.position) < TELEPORT_DISTANCE
    ensures var at := w.players(d.owner.value).position;
      Dist(TickStep(d, w).position, at) == Dist(d.position, at) - MOVEMENT_SPEED
  {
  }

  /**
    A killer 45 units away with the cooldown over is struck and the attack
    timer restarts. Without a path the dog then stays where it is: the
    steering step needs at least `STEER_MIN_DISTANCE`, so between
    `STRIKE_DISTANCE` and `ATTACK_RANGE` it only moves along a path.
  */
  lemma StrikeAtFortyFive(d: Dog, w: World)
    requires WellFormed(d) && d.state == AttackingPlayer && d.killer.Some? && d.path.None?
    requires d.pathAge < REPLAN_INTERVAL || w.nav.NotLoaded?
    requires Dist(w.players(d.killer.value).position, d.position) == 45.0 && d.lastAttack > ATTACK_COOLDOWN
    ensures var r := TickStep(d, w);
      && r.lastAttack == 0.0
      && Damage(d.killer.value, ATTACK_DAMAGE) in r.effects
      && r.position == d.position
  {
    var k := d.killer.value;
    var blow := [Sound("classdogattack"), Damage(k, ATTACK_DAMAGE)];
    var struck := d.(lastAttack := 0.0, effects := d.effects + blow);
    assert (d.effects + blow)[|d.effects| + 1] == Damage(k, ATTACK_DAMAGE);
    assert Bark(struck, w.roll).effects[|d.effects| + 1] == Damage(k, ATTACK_DAMAGE);
  }

  /** Mourning walks toward the owner's corpse, never teleporting. */
  lemma MourningWalksToCorpse(d: Dog, w: World)
    requires WellFormed(d) && d.state == Crying && d.owner.Some? && d.path.None?
    requires d.pathAge < REPLAN_INTERVAL || w.nav.NotLoaded?
    requires w.players(d.owner.value).corpse.Some?
    requires Dist(w.players(d.owner.value).corpse.value, d.position) > ARRIVE_DISTANCE
    ensures var c := w.players(d.owner.value).corpse.value;
      Dist(TickStep(d, w).position, c) == Dist(d.position, c) - MOVEMENT_SPEED
  {
  }

  // ---------------------------------------------------------------- arrival

  /**
    A following dog within `ARRIVE_DISTANCE` of its live owner only turns
    to face the owner and may bark: it does not move, replan or touch its
    path, and nothing else changes.
  */
  lemma FollowerArrivedStays(d: Dog, w: World)
    requires WellFormed(d) && d.state == FollowOwner && d.owner.Some?
    requires var owner := w.players(d.owner.value);
      owner.alive && Dist(owner.position, d.position) <= ARRIVE_DISTANCE
    ensures var r := TickStep(d, w);
      && r.facing == Dir(d.position, w.players(d.owner.value).position)
      && (r.effects == d.effects || r.effects == d.effects + [Sound("classhappydog")])
      && r == d.(facing := r.facing, lastSound := r.lastSound, soundCooldown := r.soundCooldown, effects := r.effects)
  {
  }

  /**
    A mourning dog within `ARRIVE_DISTANCE` of its owner's corpse only turns
    to face it and may whine; it stays where it is with its path untouched.
  */
  lemma MournerArrivedStays(d: Dog, w: World)
    requires WellFormed(d) && d.state == Crying && d.owner.Some?
    requires var corpse := w.players(d.owner.value).corpse;
      corpse.Some? && Dist(corpse.value, d.position) <= ARRIVE_DISTANCE
    ensures var r := TickStep(d, w);
      && r.facing == Dir(d.position, w.players(d.owner.value).corpse.value)
      && (r.effects == d.effects || r.effects == d.effects + [Sound("classsaddog")])
      && r == d.(facing := r.facing, lastSound := r.lastSound, soundCooldown := r.soundCooldown, effects := r.effects)
  {
  }

  /**
    An attacking dog within `STRIKE_DISTANCE` of the killer turns to face
    it and, at most, bites: it plays no cue, does not move and leaves its
    path and the replanning timer alone.
  */
  lemma AttackerCloseStays(d: Dog, w: World)
    requires WellFormed(d) && d.state == AttackingPlayer && d.killer.Some?
    requires Dist(w.players(d.killer.value).position, d.position) <= STRIKE_DISTANCE
    ensures var r := TickStep(d, w);
      && r.facing == Dir(d.position, w.players(d.killer.value).position)
      && (r.effects == d.effects || r.effects == d.effects + [Sound("classdogattack"), Damage(d.killer.value, ATTACK_DAMAGE)])
      && r == d.(facing := r.facing, lastAttack := r.lastAttack, effects := r.effects)
  {
  }

  // ---------------------------------------------------------------- catching up

  /** `n` ticks in a world that stays the same, with no time passing in between. */
  function Ticks(d: Dog, w: World, n: nat): (r: Dog)
    requires WellFormed(d)
    ensures WellFormed(r)
    decreases n
  {
    if n == 0 then d else Ticks(TickStep(d, w), w, n - 1)
  }

  /** A following dog with a live owner and no path, which will not get a path in this world. */
  predicate Approaching(d: Dog, w: World) {
    && WellFormed(d) && d.state == FollowOwner && d.owner.Some? && d.path.None?
    && w.players(d.owner.value).alive
    && (d.pathAge < REPLAN_INTERVAL || w.nav.NotLoaded?)
  }

  /** One tick of such a dog: it steps `MOVEMENT_SPEED` closer while more than `ARRIVE_DISTANCE` away, and stops from there on. */
  lemma ApproachTick(d: Dog, w: World)
    requires Approaching(d, w)
    requires Dist(w.players(d.owner.value).position, d.position) < TELEPORT_DISTANCE
    ensures var r := TickStep(d, w);
      var at := w.players(d.owner.value).position;
      && Approaching(r, w) && r.owner == d.owner
      && (ARRIVE_DISTANCE < Dist(at, d.position) ==> Dist(at, r.position) == Dist(at, d.position) - MOVEMENT_SPEED)
      && (Dist(at, d.position) <= ARRIVE_DISTANCE ==> r.position == d.position)
  {
  }

  lemma {:induction false} ApproachTicks(d: Dog, w: World, n: nat)
    requires Approaching(d, w)
    requires var at := w.players(d.owner.value).position;
      && Dist(at, d.position) < TELEPORT_DISTANCE
      && (n == 0 || Dist(at, d.position) - (n - 1) as real * MOVEMENT_SPEED > ARRIVE_DISTANCE)
    ensures var r := Ticks(d, w, n);
      var at := w.players(d.owner.value).position;
      && Approaching(r, w) && r.owner == d.owner
      && Dist(at, r.position) == Dist(at, d.position) - n as real * MOVEMENT_SPEED
    decreases n
  {
    if n > 0 {
      ApproachTick(d, w);
      ApproachTicks(TickStep(d, w), w, n - 1);
    }
  }

  lemma {:induction false} ArrivedStays(d: Dog, w: World, n: nat)
    requires Approaching(d, w)
    requires Dist(w.players(d.owner.value).position, d.position) <= ARRIVE_DISTANCE
    ensures Ticks(d, w, n).position == d.position
    decreases n
  {
    if n > 0 {
      ApproachTick(d, w);
      ArrivedStays(TickStep(d, w), w, n - 1);
    }
  }

  lemma {:induction false} TicksSplit(d: Dog, w: World, m: nat, n: nat)
    requires WellFormed(d)
    ensures Ticks(d, w, m + n) == Ticks(Ticks(d, w, m), w, n)
    decreases m
  {
    if m > 0 {
      TicksSplit(TickStep(d, w), w, m - 1, n);
    }
  }

  /**
    Catching up takes exactly `ceil((D - 50) / 1.85)` ticks from a distance
    `D` below 800: `n` is that number when `D - n * 1.85 <= 50 < D - (n - 1) * 1.85`.
    After `n - 1` ticks the dog is still further than 50; after `n` it is
    within 50 (exactly 50 when the quotient is whole, where the arrival
    check stops it) and it never moves again.
  */
  lemma FollowerArrivesInCeilTicks(d: Dog, w: World, n: nat, m: nat)
    requires Approaching(d, w) && 1 <= n
    requires var dist := Dist(w.players(d.owner.value).position, d.position);
      && dist < TELEPORT_DISTANCE
      && dist - n as real * MOVEMENT_SPEED <= ARRIVE_DISTANCE < dist - (n - 1) as real * MOVEMENT_SPEED
    ensures var at := w.players(d.owner.value).position;
      && Dist(at, Ticks(d, w, n - 1).position) > ARRIVE_DISTANCE
      && Dist(at, Ticks(d, w, n).position) == Dist(at, d.position) - n as real * MOVEMENT_SPEED
      && Ticks(d, w, n + m).position == Ticks(d, w, n).position
  {
    ApproachTicks(d, w, n - 1);
    ApproachTicks(d, w, n);
    TicksSplit(d, w, n, m);
    ArrivedStays(Ticks(d, w, n), w, m);
  }

  /** The owner 100 units away: 28 ticks, the 28th ending 48.2 away, and the dog stays there. */
  lemma FollowerFromHundredTakesTwentyEightTicks(d: Dog, w: World, m: nat)
    requires Approaching(d, w) && Dist(w.players(d.owner.value).position, d.position) == 100.0
    ensures var at := w.players(d.owner.value).position;
      && Dist(at, Ticks(d, w, 27).position) == 50.05
      && Dist(at, Ticks(d, w, 28).position) == 48.2
      && Ticks(d, w, 28 + m).position == Ticks(d, w, 28).position
  {
    FollowerArrivesInCeilTicks(d, w, 28, m);
    ApproachTicks(d, w, 27);
  }

  /** From 51.85 away one tick brings the dog to exactly 50, where it stops: steering does not carry it on. */
  lemma FollowerStopsAtExactlyFifty(d: Dog, w: World, m: nat)
    requires Approaching(d, w) && Dist(w.players(d.owner.value).position, d.position) == 51.85
    ensures var at := w.players(d.owner.value).position;
      && Dist(at, Ticks(d, w, 1).position) == ARRIVE_DISTANCE
      && Ticks(d, w, 1 + m).position == Ticks(d, w, 1).position
  {
    FollowerArrivesInCeilTicks(d, w, 1, m);
  }
}
