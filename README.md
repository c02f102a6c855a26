# Doggie companion: a verified model of `DogEntity`

This project models the behaviour core of `DogEntity`, the companion dog of the
"Doggie" class in a TerrorTown round. A dog follows its owner. When the owner is
killed by another player, the dog hunts that player. When the owner dies any other
way, or when the killer dies in turn, the dog mourns at the owner's corpse.

Each tick, the dog moves either along a path from the navigation mesh or by
direct steering. A throttle limits how often it asks for a new path. Separate
cooldowns limit how often it barks and how often it bites.

## Layout

- `options.dfy`: `Options.Option`, used for the source's nullable references.
- `geometry.dfy`: positions on a line, with distance, direction and "move `len` toward".
- `movement.dfy`: the pure path follower `Follow` (the loop of `TraversePath`) and direct steering `Steer`, with their lemmas.
- `behaviour.dfy`: a value snapshot `Dog` of the entity's fields. Each method of the entity has a step function on it: `Bark`, `Replan`, `Pursue`, `FollowingTick`, `AttackingTick`, `CryingTick`, `TickStep`, `KillStep` and `Elapse`.
- `transitions.dfy`: what the state machine promises. It covers the death-event transitions, one-way runs, the attack gate and timeline, and the tick scenarios.
- `dog_entity.dfy`: the class `DogEntity` with the source's fields and methods. Each method updates the fields in place, and `TraversePath` keeps its `while` loop. Every method is proved to leave `Snap()` equal to its step function applied to the old snapshot.

The state string becomes the datatype `DogState`. Its cases are `FollowOwner`, `AttackingPlayer` and `Crying`, plus `Invalid` for any other string, which the dispatch's default branch handles.

Players are identities (`PlayerId`). A `World` value gives, for one tick, each player's position, whether they are alive and where their corpse is. It also gives the navigation mesh's answer and the random draw. Engine calls are recorded in order in the field `effects`: sounds, damage, material swaps and error logs. Timers are real seconds. `AdvanceTime` moves them all on by the same amount. It stands in for the real-time timers `LastAttack` and `LastSound` and the game-time timer `TimeSinceGeneratedPath`.

## Behaviour of the code worth knowing

- A mourning dog walking toward the corpse plays no sound (code/DoggieClass.cs:79-84). Only the arrival branch and the no-corpse branch call `DogPlaySound`.
- Between 20 and 50 units from the killer, an attacking dog with no path bites but does not move: direct steering only steps from 50 units on (code/DoggieClass.cs:211). `Transitions.StrikeAtFortyFive` states this at 45 units.
- A teleport toward the owner lands on the owner and then still steps 1.85 further. The step uses the distance and direction measured before the teleport (code/DoggieClass.cs:207-214).

## Model

| member | source | states |
|---|---|---|
| `Geometry.Toward` | code/DoggieClass.cs:229-237 | Moving toward a waypoint by no more than the distance covers exactly that length and leaves the rest of the distance. Moving by the whole distance lands on the waypoint. |
| `Movement.Follow` | code/DoggieClass.cs:220-247 | The follower loop terminates even with zero-length segments. The cursor never goes back or past the end. Budget is left over only when the whole path was walked, and then the dog stands on the last waypoint. |
| `Movement.FollowShortensTheRest` | code/DoggieClass.cs:220-247 | The length still to walk to the end of the path shrinks by exactly the budget spent. So a partial step moves toward the current waypoint, and a landing is exactly on it. |
| `Movement.FollowWalksWhatItSpends` | code/DoggieClass.cs:220-247 | The walk through the waypoints passed is exactly as long as the speed budget the loop consumed. |
| `Movement.FollowStaysWithinSpeed` | code/DoggieClass.cs:220-247 | One tick on a path walks at most `MOVEMENT_SPEED` and ends at most that far from the start. |
| `Movement.Steer` | code/DoggieClass.cs:202-217 | Without a path, the dog stays put nearer than 50. From 50 on it moves exactly `MOVEMENT_SPEED` toward the target without overshooting. Only an owner target at least 800 away is teleported to, and the dog then ends `MOVEMENT_SPEED` past it. |
| `Movement.SteeringApproaches` | code/DoggieClass.cs:211-214 | Repeated steering closes in by exactly `MOVEMENT_SPEED` per tick while each tick starts at least 50 away. |
| `Movement.SteeringStopsWhenNear` | code/DoggieClass.cs:211-214 | Once nearer than 50, steering never moves the dog again. |
| `Movement.HundredUnitsTakeTwentyEightTicks` | code/DoggieClass.cs:202-216 | From 100 units with no path, 27 ticks leave the dog at 50.05 and the 28th at 48.2, where it stays. |
| `Behaviour.BarkIsRateLimited` | code/DoggieClass.cs:137-158 | A cue is emitted exactly when the sound timer has reached the cooldown. It resets the timer and draws a new cooldown of exactly 5 s plus the roll, plus 1.3 s when attacking: 5 to 10 s, or 6.3 to 11.3 s when attacking. No other field changes. |
| `Behaviour.Bark` | code/DoggieClass.cs:137-158 | The step function of `DogPlaySound`. `Behaviour.BarkIsRateLimited` states its rate limit, the cue and the new cooldown. |
| `Behaviour.StoredPath` | code/DoggieClass.cs:185-194 | The stored path is exactly a built, non-empty waypoint list, so it always has a waypoint for the cursor. |
| `Behaviour.EmptyPathBreaksFollower` | code/DoggieClass.cs:185-196 | As written, an empty built path leaves the cursor on no waypoint. The corrected `Replan` drops it. |
| `Behaviour.ReplanAsWritten` | code/DoggieClass.cs:175-197 | `GeneratePath` exactly as written, storing an empty build. `Behaviour.EmptyPathBreaksFollower` shows that this leaves the cursor on no waypoint. |
| `Behaviour.Replan` | code/DoggieClass.cs:175-197 | Path generation keeps a waypoint under the cursor. |
| `Behaviour.MaybeReplan` | code/DoggieClass.cs:100-103 | The 0.25 s throttle in front of `GeneratePath` (also at lines 79-82 and 128-131) keeps a waypoint under the cursor. `Behaviour.ReplanIsThrottled` states the throttle. |
| `Behaviour.ReplanIsThrottled` | code/DoggieClass.cs:177-196 | Replanning happens only when the timer is at least 0.25 s. It resets the timer even without a navigation mesh. A built path replaces the old one and rewinds the cursor to 0. Nothing else changes. |
| `Behaviour.Pursue` | code/DoggieClass.cs:199-248 | `TraversePath` keeps a waypoint under the cursor of any path it keeps. |
| `Behaviour.PursueAlongPath` | code/DoggieClass.cs:220-247 | On a path, the cursor moves only forward and stays within the path. The path is dropped exactly when the cursor reaches its end. The dog moves at most `MOVEMENT_SPEED`, and only the position, facing, path and cursor change. |
| `Behaviour.FollowingTick` | code/DoggieClass.cs:87-107 | Following the owner keeps a waypoint under the cursor. |
| `Behaviour.AttackingTick` | code/DoggieClass.cs:108-135 | Attacking keeps a waypoint under the cursor. |
| `Behaviour.CryingTick` | code/DoggieClass.cs:65-85 | Mourning keeps a waypoint under the cursor. |
| `Behaviour.TickStep` | code/DoggieClass.cs:45-63 | A tick in any state keeps a waypoint under the cursor. |
| `Behaviour.KillStep` | code/DoggieClass.cs:265-292 | The step function of `UpdateAttack`. The lemmas `OwnerKilledByAnotherPlayer`, `OwnerKilledOtherwise`, `KillerKilled`, `OtherDeathsIgnored`, `KillStateChange` and `TimelineAfterDeath` of `Transitions` state what it does. |
| `Behaviour.Elapse` | code/DoggieClass.cs:30-38 | Time passing: every timer grows by the same `dt`. `Transitions.TimelineAfterElapse` shows it keeps the attack timeline. |
| `Behaviour.Spawned` | code/DoggieClass.cs:250-258 | The dog right after `Spawn`. `DogEntities.DogEntity.constructor` establishes it together with `Valid()`. |
| `Transitions.OwnerKilledByAnotherPlayer` | code/DoggieClass.cs:268-278 | The dog enters the attack exactly when the owner is killed by a distinct player while following. It then records that player as the killer, resets the attack timer and swaps to the angry material, and nothing else changes. |
| `Transitions.OwnerKilledOtherwise` | code/DoggieClass.cs:279-284 | The owner's death with no attacker, a non-player attacker or the owner as attacker makes a following dog mourn. The killer is left unchanged. |
| `Transitions.KillerKilled` | code/DoggieClass.cs:286-291 | The killer's death makes an attacking dog mourn. |
| `Transitions.OtherDeathsIgnored` | code/DoggieClass.cs:265-292 | Every other death and state combination leaves the dog unchanged. |
| `Transitions.DeadOwnerTick` | code/DoggieClass.cs:90 | Following a dead owner switches to mourning and logs the error, and does nothing else. |
| `Transitions.InvalidTickOnlyLogs` | code/DoggieClass.cs:59-61 | In an unknown state a tick only logs. No field changes. |
| `Transitions.TickStateChange` | code/DoggieClass.cs:45-63 | A tick changes the state only from following to mourning, and never changes the owner or the killer. |
| `Transitions.KillStateChange` | code/DoggieClass.cs:265-292 | A death changes the state only from following (to attacking or mourning) or from attacking to mourning. |
| `Transitions.RunIsOneWay` | code/DoggieClass.cs:45-63 | Over any run of ticks, deaths and elapsed time, the state only moves forward: following, then attacking, then mourning. A dog that starts in a known state never reaches an unknown one. |
| `Transitions.CryingIsAbsorbing` | code/DoggieClass.cs:65-85 | Once mourning, a dog mourns for the rest of any run. |
| `Transitions.AttackingDamage` | code/DoggieClass.cs:111-118 | An attacking tick deals one blow exactly when the killer is within 50 and the attack timer exceeds 2 s. The blow resets the timer. The blow is the attack sound followed by `ATTACK_DAMAGE` dealt to the killer, ahead of anything else the tick records. |
| `Transitions.BiteHitsKiller` | code/DoggieClass.cs:113-118 | A due bite records the attack sound and then `ATTACK_DAMAGE` dealt to the killer, before any other effect of the tick. |
| `Transitions.TickDamageRule` | code/DoggieClass.cs:108-135 | No tick deals damage except that blow, and no tick otherwise touches the attack timer. |
| `Transitions.TimelineAfterTick` | code/DoggieClass.cs:113-117 | Ticks keep the attack timeline: consecutive blows are more than 2 s apart. |
| `Transitions.TimelineAfterDeath` | code/DoggieClass.cs:274-277 | Deaths add no blow and can only restart the attack timer, so the timeline holds. |
| `Transitions.TimelineAfterElapse` | code/DoggieClass.cs:30 | Elapsed time advances the attack timer and the clock together. |
| `Transitions.BlowsNeverClose` | code/DoggieClass.cs:113-117 | On the timeline, any two blows are more than 2 s apart. |
| `Transitions.FollowingClosesIn` | code/DoggieClass.cs:100-106 | Following a live owner 50 to 800 units away without a path brings the dog exactly `MOVEMENT_SPEED` closer. |
| `Transitions.StrikeAtFortyFive` | code/DoggieClass.cs:111-134 | At 45 units with the cooldown over, the killer is struck and the attack timer restarts. Without a path the dog does not move. |
| `Transitions.MourningWalksToCorpse` | code/DoggieClass.cs:79-84 | A mourning dog more than 50 from the owner's corpse steps `MOVEMENT_SPEED` toward it, never teleporting. |
| `Transitions.FollowerArrivedStays` | code/DoggieClass.cs:91-98 | Within 50 of its live owner, a following dog only faces the owner and may play the happy cue. Position, path, cursor and replanning timer are unchanged. |
| `Transitions.MournerArrivedStays` | code/DoggieClass.cs:70-78 | Within 50 of the owner's corpse, a mourning dog only faces the corpse and may play the sad cue. Position, path, cursor and replanning timer are unchanged. |
| `Transitions.AttackerCloseStays` | code/DoggieClass.cs:111-127 | Within 20 of the killer, an attacking dog faces the killer and at most bites. It plays no cue, and its position, path, cursor and replanning timer are unchanged. |
| `Transitions.ApproachTick` | code/DoggieClass.cs:87-106 | A following dog with no path and a live owner under 800 away steps exactly `MOVEMENT_SPEED` closer while more than 50 away, and does not move once within 50. It stays following with no path. |
| `Transitions.ApproachTicks` | code/DoggieClass.cs:87-106 | Repeated ticks close in by exactly `MOVEMENT_SPEED` each while every tick starts more than 50 away. |
| `Transitions.ArrivedStays` | code/DoggieClass.cs:91-98 | Once within 50 of its owner, a following dog with no path stays where it is for any number of ticks. |
| `Transitions.FollowerArrivesInCeilTicks` | code/DoggieClass.cs:87-106 | From a distance `D` under 800, the dog arrives after exactly `ceil((D-50)/1.85)` ticks and never moves after that. This includes a whole quotient, where it stops at exactly 50. |
| `Transitions.FollowerFromHundredTakesTwentyEightTicks` | code/DoggieClass.cs:87-106 | From 100 units, 27 ticks leave the dog 50.05 away, and the 28th brings it to 48.2, where it stays. |
| `Transitions.FollowerStopsAtExactlyFifty` | code/DoggieClass.cs:91 | From 51.85 units, one tick reaches exactly 50, and the arrival check then stops the dog. |
| `DogEntities.DogEntity.constructor` | code/DoggieClass.cs:250-258 | A spawned dog follows, has no owner, killer or path, and has its sound timer at 0 with a cooldown of 5 to 10 s. |
| `DogEntities.DogEntity.SetOwner` | code/DoggieClass.cs:260-263 | Only the owner changes. |
| `DogEntities.DogEntity.AdvanceTime` | code/DoggieClass.cs:30-38 | Every timer grows by the elapsed time, and the attack timeline is kept. |
| `DogEntities.DogEntity.DogPlaySound` | code/DoggieClass.cs:137-158 | The fields become `Bark` of the old ones. |
| `DogEntities.DogEntity.GeneratePath` | code/DoggieClass.cs:175-197 | The fields become `Replan` of the old ones. |
| `DogEntities.DogEntity.SteerToward` | code/DoggieClass.cs:202-217 | The dog faces the target and its position becomes `Steer` of the old one. Nothing else changes. |
| `DogEntities.DogEntity.TraversePath` | code/DoggieClass.cs:199-248 | The in-place loop leaves the fields equal to `Pursue` of the old ones, that is, to `Follow` on the stored path. |
| `DogEntities.DogEntity.PerformStateFollowOwner` | code/DoggieClass.cs:87-107 | The fields become `FollowingTick` of the old ones. |
| `DogEntities.DogEntity.PerformStateAttackingPlayer` | code/DoggieClass.cs:108-135 | The fields become `AttackingTick` of the old ones. |
| `DogEntities.DogEntity.PerformStateCrying` | code/DoggieClass.cs:65-85 | The fields become `CryingTick` of the old ones. |
| `DogEntities.DogEntity.Tick` | code/DoggieClass.cs:45-63 | The fields become `TickStep` of the old ones. The attack timeline records a blow exactly when one lands. |
| `DogEntities.DogEntity.UpdateAttack` | code/DoggieClass.cs:265-292 | The fields become `KillStep` of the old ones, and the attack timeline is kept. |

## Findings

| source | as written | input that shows it | evidently intended | confidence | as-written member | corrected member |
|---|---|---|---|---|---|---|
| code/DoggieClass.cs:185-196 | `GeneratePath` stores the built waypoint array even when it is empty and sets the cursor to 0. `TraversePath` then reads `Path[0]` (line 224), which is out of range. | The navigation mesh is loaded and builds a path with no segments. | An empty path is treated like a failed build: no path is stored and the dog steers directly. | not executed; medium (depends on whether the builder can return zero segments) | `Behaviour.EmptyPathBreaksFollower` | `Behaviour.StoredPath` |

## Left out

- Positions are points on a line, and distance is the absolute difference. The source works in three dimensions, and exact Euclidean lengths would need square roots.
- `PerformGroundCheck`, a physics ray trace, is left out. It only corrects the dog's height, which a line model does not have.
- `Rotation.LookAt`: facing is recorded as the direction of travel (-1, 0 or 1).
- Floating point: `1.85f` and every other constant is an exact real, with no rounding.
- The navigation mesh builder is an input (`NavResult`): not loaded, or the waypoints it built, if any. Its climb, drop, step-height, maximum-distance and partial-path settings are not modelled.
- `Game.Random.Int(5)` is the input `Roll`, from 0 to 5 inclusive.
- `LastAttack` and `LastSound` are `RealTimeSince` timers, which count real time. `TimeSinceGeneratedPath` is a `TimeSince` timer, which counts the engine's game time (code/DoggieClass.cs:30-38). Here all three are real fields that `AdvanceTime` (`Behaviour.Elapse`) moves on by the same `dt`, so game time and real time are treated as one clock. The replanning throttle and the attack and sound cooldowns therefore advance together, and a game-time scale or pause that would separate them is not modelled.
- `Log.Info` on the owner's death (including its `DogOwner.Owner.Name` dereference) and `SetModel` in `Spawn` are not modelled. They leave no trace in `effects`.
- `PlaySound`, `TakeDamage`, `SetMaterialOverride` and `Log.Error` are only recorded in `effects`. What they do in the engine is not modelled.
- `DoggieClass` (class metadata and `RoundStartAbility`) is engine wiring. The dog's starting position is a constructor argument.
- Event delivery is assumed serialized with ticks. `Tick` and `UpdateAttack` are separate methods called one at a time.
- The bite's `TakeDamage` (code/DoggieClass.cs:116) may kill the killer, and the engine may then raise `Player.PostOnKilled` during the tick. `UpdateAttack` would then run inside `PerformStateAttackingPlayer`, before the rest of that tick. The model does not capture this nesting: it runs the tick to its end and the death handler afterwards.
