# ProjectM player characters, modelled in Dafny

This project models the gameplay bookkeeping of ProjectM's two player
characters, the Berserker and the Agile character, and of the parts they
share. That bookkeeping is made of boolean ability flags, combo indices,
countdown timers and distance budgets, which input handlers and the
per-frame Tick update. It covers:

- the health component: damage and healing, clamped into [0, MaxHP];
- the melee combo state machine and the attack streak of
  `APlayerCharacter`;
- the interactable in reach and the notebook flag;
- the Berserker's shoulder bash and its two boosts, life-steal and berserk;
- the Agile character's hook points, grapple, pull and throw, grapple
  attack and dash.

## How the model is built

Each core source file becomes a class whose fields are the fields the
source updates. Its methods carry `modifies` clauses naming exactly the
fields they may change.

- `Health.HealthComponent` holds the hit points.
- `Player.PlayerCharacter` holds the combo, streak, interaction and
  notebook state. Its health component is `health`.
- `Berserker.BerserkerCharacter` and `Agile.AgileCharacter` build on a
  `PlayerCharacter`, held in `base`. Inheritance from APlayerCharacter
  becomes this composition: "Super::" calls go to `base`, and the
  inherited fields the subclasses write are written as `base.<field>`.

The rules the methods apply are also stated as values:

- `Combo` holds the next montage index, what EndAttackAnimation decides
  and the streak decay.
- `Boosts` holds the duration → cooldown cycle and berserk's Damage
  save/restore.
- `Dashing` holds the dash budget and cooldown.
- `Hooks` and `Targeting` hold the hook-point verdict, the argmax scan
  and the pull-release decision.
- `Countdown` counts how many frames a timer lasts.

Each method's `ensures` ties the new state to these functions. The lemmas
then state what the functions add up to over many frames:

- how long a boost, bash, dash or streak lasts;
- that a cooldown refuses the ability until it has run out;
- that berserk round-trips Damage;
- that the scan picks the first hit with the greatest dot product.

Engine queries arrive as method parameters:

- `IsFalling`;
- the movement component's max speed;
- sphere-trace hits with their dot products;
- what the line trace from the camera hits;
- distances;
- the pulled object's velocity.

Calls into the engine, Blueprint events and calls on other actors are
appended, in order, to the cue log `base.cues`. Examples are a montage
played, a collision enabled, damage dealt to an enemy, or an impulse. The
configured values (UPROPERTY defaults) are a configuration datatype per
class: `DefaultMelee`, `DefaultBerserker` and `DefaultAgile` hold the
header defaults. `CurrentLifeStealDuration/Cooldown` and
`CurrentBerserkDuration/Cooldown` have no initialiser in the header, so
their starting values are constructor parameters. `bIsGrappling` starts
false and is never set, and `Agile.AgileCharacter.Valid` records that.

Timers and distances are `real`. Integers are `int`: the combo counters
stay far from 32-bit limits in play, and no contract depends on
wrap-around.

### Source behaviour the model keeps

The model follows the code where it does something a reader might not
expect. Each case below is stated by the contract named.

- `CheckCurrentInteractable` compares the distance of the new candidate
  with the distance of the same candidate (PlayerCharacter.cpp:581 casts
  `Interactable`, not `CurrentInteractable`). So a held interactable is
  never replaced (`Player.PlayerCharacter.CheckCurrentInteractable`).
- The Berserker's melee overlap heals with life-steal before anything is
  filtered. Any overlap heals, not only a hit on an enemy
  (`Berserker.BerserkerCharacter.OnMeleeBoxBeginOverlap`).
- A bash hit, and a grapple-attack hit, grow the attack streak without
  restarting its idle timer. A melee hit restarts it.
- A bash that hits a destructable actor with only the Blueprint event
  returns early, so `FinishBashUponImpact` does not end that bash.
- `TickBashCooldown` stops once the cooldown has gone negative. So the
  cooldown keeps the last negative value it reached.
- `ShoulderBashAction` does not check whether the character is dead.
- `DashMovement` does not check that a dash is running. A dash
  interrupted by another ability (`StopDash`) keeps its remaining budget.
  Once the cooldown has run out, the character moves along the dash
  direction again with no dash running (`Dashing.InterruptedDashResumes`).
- `BeginGrappleAttack` checks neither that the held hook point is an ENEMY
  point nor that no pull is running. It only needs some point to be held.
  The attack's destination is not that point but `GrappleAttackTarget`:
  the parent of the last ENEMY point selected (AgileCharacter.cpp:256),
  which is never cleared. Before any ENEMY point has been selected,
  `GrappleAttackTarget` is empty. `BeginGrappleAttack` then reads its
  location through `SetGrappleAttackDestination`
  (AgileCharacter.cpp:735, 711) before anything else. The model leaves
  positions out, so it does not capture that read. In the model,
  `DealGrappleAttackDamage` does nothing without a target.
- `ResetGrappleAttack` leaves `bQueuedGrappleAttack` as it was.
- `CheckHook` drops the held hook point whenever the character is dead,
  possessing or has the notebook open, even in the middle of a pull.
  Opening the notebook while a pull moves the object thus leaves a pull
  running without a hook point, and `PullingMovement` reads that point's
  position (AgileCharacter.cpp:509). The model's `PullingMovement` does not
  use hook positions, so this is not captured beyond the verdict
  (`Hooks.Verdict`, `Agile.AgileCharacter.CheckHook`).
- The Player's `TakeDamage` hides the notebook widget on death but leaves
  `bIsNotebookVisible` as it was.
- The header comment of `DamageDamping` calls it the part of the damage
  that is discarded. The code multiplies the damage by it, so it is the
  part that is kept (`Berserker.DampedAmount`).

## Model

| member | source | states |
|---|---|---|
| Health.Abs | Source/ProjectM/HealthComponent.cpp:29 | FMath::Abs: the result is non-negative and is the argument or its negation |
| Health.Clamp | Source/ProjectM/HealthComponent.cpp:31 | FMath::Clamp: with lo <= hi the result lies in [lo, hi]; an in-range value is kept, one below lo becomes lo, one at or above hi becomes hi |
| Health.AfterDamage | Source/ProjectM/HealthComponent.cpp:27-32 | damage leaves HP in [0, MaxHP], never raises an in-range HP, leaves exactly 0 when Abs(amount) >= HP, and subtracts exactly Abs(amount) when that stays in range |
| Health.AfterHeal | Source/ProjectM/HealthComponent.cpp:35-40 | healing leaves HP in [0, MaxHP], never lowers an in-range HP, adds exactly Abs(amount) when that stays in range and stops at MaxHP otherwise |
| Health.DamageIgnoresSign | Source/ProjectM/HealthComponent.cpp:29 | a negative amount hurts (and heals) exactly as much as its absolute value |
| Health.LessDamageLeavesMore | Source/ProjectM/HealthComponent.cpp:27-32 | damage of smaller magnitude never leaves fewer hit points |
| Health.HealthComponent.constructor | Source/ProjectM/HealthComponent.h:20-22 | MaxHP as given, CurrentHP 0 before BeginPlay |
| Health.HealthComponent.BeginPlay | Source/ProjectM/HealthComponent.cpp:18-24 | CurrentHP becomes MaxHP |
| Health.HealthComponent.IsDead | Source/ProjectM/HealthComponent.cpp:42-45 | definition: no hit points left, 0 included (its use: TakeDamage) |
| Health.HealthComponent.TakeDamage | Source/ProjectM/HealthComponent.cpp:27-32 | CurrentHP becomes AfterDamage of the old value; fatal damage leaves 0 and IsDead holds |
| Health.HealthComponent.Heal | Source/ProjectM/HealthComponent.cpp:35-40 | CurrentHP becomes AfterHeal of the old value |
| Health.HealthComponent.HPRatio | Source/ProjectM/HealthComponent.cpp:47-50 | the ratio times MaxHP is CurrentHP, and it lies in [0, 1] for an in-range HP |
| Combo.NextAnimation | Source/ProjectM/PlayerCharacter.cpp:324-325 | the next montage index is a valid index, one past the old one, wrapping to 0 after the last |
| Combo.AtLimit | Source/ProjectM/PlayerCharacter.cpp:344 | definition: a limited combo at or past its last montage (its use: EndOfAttack, LimitedComboLength) |
| Combo.AnimationAfter | Source/ProjectM/PlayerCharacter.cpp:320-332 | after any number of continues the montage index is a valid index |
| Combo.ComboInOrder | Source/ProjectM/PlayerCharacter.cpp:320-332 | the first montage-count attacks of a combo play montages 0, 1, 2, ... in order |
| Combo.ComboCycles | Source/ProjectM/PlayerCharacter.cpp:324-325 | an unlimited combo cycles: montage-count more continues return to the same index |
| Combo.EndOfAttack | Source/ProjectM/PlayerCharacter.cpp:344-361 | EndAttackAnimation waits exactly when a special attack is queued, continues only when asked and not at a limited combo's last montage, and stops otherwise |
| Combo.LimitedComboNeverWraps | Source/ProjectM/PlayerCharacter.cpp:344-348 | whenever a limited combo continues, the index goes up by exactly one |
| Combo.LimitedComboLength | Source/ProjectM/PlayerCharacter.cpp:344-348 | a limited combo continued k times is at montage k, and k stays below the montage count |
| Combo.StreakTick | Source/ProjectM/PlayerCharacter.cpp:440-452 | without a streak or during a combo nothing changes; the streak count is either kept or zeroed, and it is zeroed only outside a combo with a spent timer |
| Combo.StreakHolds | Source/ProjectM/PlayerCharacter.cpp:445-449 | for Steps(timer, dt) idle ticks the streak count holds and the timer runs down by dt each tick |
| Combo.StreakLifetime | Source/ProjectM/PlayerCharacter.cpp:440-452 | a streak survives exactly Steps(timer, dt) idle ticks and is reset on the next one |
| Player.FirstInteractable | Source/ProjectM/PlayerCharacter.cpp:527-536 | none exactly when no component is interactable; otherwise the id of the first interactable component, every component before it not interactable |
| Player.InteractableIn | Source/ProjectM/PlayerCharacter.cpp:521-536 | none exactly when neither the actor nor any component is interactable; a pick is something that, once it leaves, counts as leaving (Leaves) |
| Player.DisableCues | Source/ProjectM/PlayerCharacter.cpp:555-565 | at most one DisableInteractable call per component |
| Player.DisableCuesCover | Source/ProjectM/PlayerCharacter.cpp:555-565 | every interactable component gets its DisableInteractable call, and every call is for an interactable component |
| Player.PlayerCharacter.constructor | Source/ProjectM/PlayerCharacter.cpp:84-99 | header defaults, full health, combo idle, no interactable, notebook hidden |
| Player.PlayerCharacter.EndUpperBodyMontage | Source/ProjectM/PlayerCharacter.cpp:277-280 | the upper-body montage flag drops |
| Player.PlayerCharacter.SetCanCombo | Source/ProjectM/PlayerCharacter.cpp:373-376 | the combo window flag takes the given value |
| Player.PlayerCharacter.BeginAttack | Source/ProjectM/PlayerCharacter.cpp:379-382 | the melee trigger is enabled |
| Player.PlayerCharacter.EndAttack | Source/ProjectM/PlayerCharacter.cpp:385-388 | the melee trigger is disabled |
| Player.PlayerCharacter.PlayAttackMontage | Source/ProjectM/PlayerCharacter.cpp:412-418 | the montage plays only for an index inside the montage array |
| Player.PlayerCharacter.StopAttackMontage | Source/ProjectM/PlayerCharacter.cpp:421-427 | the montage stops only for an index inside the montage array |
| Player.PlayerCharacter.QueueSpecialAttack | Source/ProjectM/PlayerCharacter.cpp:365-370 | queued set, continue and can-combo cleared |
| Player.PlayerCharacter.ContinueCombo | Source/ProjectM/PlayerCharacter.cpp:320-332 | index becomes NextAnimation of the old one, combo count +1, that montage plays, continue and ending cleared, in-attack and in-combo set |
| Player.PlayerCharacter.StopCombo | Source/ProjectM/PlayerCharacter.cpp:430-437 | combo count and index zeroed; continue, in-combo and can-combo cleared; the current montage stops and the trigger is disabled |
| Player.PlayerCharacter.EndAttackAnimation | Source/ProjectM/PlayerCharacter.cpp:335-362 | in-attack and can-combo cleared, a limited combo at its end drops continue and the streak, then the outcome EndOfAttack chooses (AttackEnded) with its calls |
| Player.PlayerCharacter.MeleeAttackAction | Source/ProjectM/PlayerCharacter.cpp:283-317 | refused: nothing changes; inside the window continue is raised; a fresh grounded attack with nothing queued plays montage 0 with in-attack, in-combo set and the streak reset; otherwise no attack starts |
| Player.PlayerCharacter.TickStopAttackStreak | Source/ProjectM/PlayerCharacter.cpp:440-452 | the streak becomes StreakTick of the old one |
| Player.PlayerCharacter.OnMeleeBoxBeginOverlap | Source/ProjectM/PlayerCharacter.cpp:391-410 | an enemy hit deals Damage, grows the streak by exactly one and restarts its timer; any other overlap changes nothing |
| Player.PlayerCharacter.TakeDamage | Source/ProjectM/PlayerCharacter.cpp:247-270 | a dead character ignores damage; otherwise the attack ends, montages stop, HP becomes AfterDamage, and the hit montage plays or, on death, the widgets hide |
| Player.PlayerCharacter.StartPossession | Source/ProjectM/PlayerCharacter.cpp:464-468 | the target is recorded and possessing starts |
| Player.PlayerCharacter.CheckCurrentInteractable | Source/ProjectM/PlayerCharacter.cpp:568-590 | with none held the candidate becomes current and is enabled; with one held nothing changes |
| Player.PlayerCharacter.OnInteractionBoxBeginOverlap | Source/ProjectM/PlayerCharacter.cpp:513-537 | when tracking, the actor or its first interactable component is offered, and becomes current only when none is held |
| Player.PlayerCharacter.OnInterationBoxOverlapEnd | Source/ProjectM/PlayerCharacter.cpp:540-566 | every interactable part of the leaving actor is disabled, and the current interactable is cleared exactly when it is one of them |
| Player.PlayerCharacter.TickNotebookVisibility | Source/ProjectM/PlayerCharacter.cpp:748-752 | the notebook flag flips (so two toggles restore it) and the widget follows it |
| Boosts.BoostTick | Source/ProjectM/BerserkerCharacter.cpp:303-329 | a boost stays active only while its duration is positive; a running duration only runs down; expiry loads the configured cooldown; an idle boost with a negative cooldown is left alone |
| Boosts.Ready | Source/ProjectM/BerserkerCharacter.cpp:286-287 | definition: not running and no positive cooldown (its use: BoostReadyAgain) |
| Boosts.Activate | Source/ProjectM/BerserkerCharacter.cpp:288-289 | definition: the full duration with the boost running (its use: BoostRuns) |
| Boosts.Expires | Source/ProjectM/BerserkerCharacter.cpp:320-324 | definition: running with the duration spent (its use: BoostEnds, BerserkTick) |
| Boosts.TicksAdd | Source/ProjectM/BerserkerCharacter.cpp:303-329 | m ticks then n ticks equal m + n ticks |
| Boosts.ActivePhase | Source/ProjectM/BerserkerCharacter.cpp:314-318 | while the duration lasts the boost stays on and only the duration runs down |
| Boosts.CooldownPhase | Source/ProjectM/BerserkerCharacter.cpp:327-328 | after it ends, only the cooldown runs down, until it is spent |
| Boosts.BoostRuns | Source/ProjectM/BerserkerCharacter.cpp:314-318 | a boost used when ready stays on for Steps(duration, dt) ticks |
| Boosts.BoostEnds | Source/ProjectM/BerserkerCharacter.cpp:319-325 | on the next tick it is off with the configured cooldown loaded |
| Boosts.BoostCooling | Source/ProjectM/BerserkerCharacter.cpp:286-287 | for the Steps(cooldown, dt) ticks after that, UseBoost refuses it |
| Boosts.CooldownDone | Source/ProjectM/BerserkerCharacter.cpp:327-328 | an ended boost is ready once its cooldown has run out |
| Boosts.BoostReadyAgain | Source/ProjectM/BerserkerCharacter.cpp:270-301 | once duration and cooldown have run, the boost can be used again |
| Boosts.BerserkTick | Source/ProjectM/BerserkerCharacter.cpp:331-358 | the berserk timer ticks as any boost, OriginalDamage is kept, and Damage is restored exactly on expiry |
| Boosts.UseBerserk | Source/ProjectM/BerserkerCharacter.cpp:295-298 | definition: OriginalDamage saved, Damage boosted, the timer activated (its use: BerserkRoundTrip) |
| Boosts.BerserkTimer | Source/ProjectM/BerserkerCharacter.cpp:331-358 | over any number of ticks the berserk timer behaves like Ticks and OriginalDamage is untouched |
| Boosts.BerserkBoosted | Source/ProjectM/BerserkerCharacter.cpp:295-298 | while berserk runs Damage stays old Damage + DamageBoost |
| Boosts.BerserkRoundTrip | Source/ProjectM/BerserkerCharacter.cpp:350-352 | Damage is boosted until berserk ends and is back to its old value, with the boost off, on the tick it ends |
| Berserker.KnockbackStays | Source/ProjectM/BerserkerCharacter.cpp:86 | once knockback applies it keeps applying as the remaining distance shrinks |
| Berserker.KnockbackApplies | Source/ProjectM/BerserkerCharacter.cpp:86 | definition: the remaining budget is at most the unused fraction of the bash distance (its use: KnockbackStays) |
| Berserker.DampedAmount | Source/ProjectM/BerserkerCharacter.cpp:364-365 | definition: the amount times DamageDamping while berserk runs (its use: DampingProtects) |
| Berserker.DefaultKnockbackFromStart | Source/ProjectM/BerserkerCharacter.h:84 | with the default fraction 0, knockback applies from the start of a bash |
| Berserker.ShrinkMagnitude | Source/ProjectM/BerserkerCharacter.cpp:364-365 | damping by a factor in [0, 1] never increases the magnitude |
| Berserker.DampingProtects | Source/ProjectM/BerserkerCharacter.cpp:360-371 | with DamageDamping in [0, 1], a damped hit leaves at least as many hit points as the full one |
| Berserker.BashTick | Source/ProjectM/BerserkerCharacter.cpp:242-259 | a moving bash spends one step of its budget and keeps moving exactly while budget is left; a still bash is unchanged |
| Berserker.BashMoving | Source/ProjectM/BerserkerCharacter.cpp:250-254 | before the budget is spent the bash moves and has spent n steps |
| Berserker.BashDuration | Source/ProjectM/BerserkerCharacter.cpp:242-259 | a bash with a positive budget moves for exactly Steps(distance, step) ticks |
| Berserker.BerserkerCharacter.constructor | Source/ProjectM/BerserkerCharacter.cpp:42-52 | header defaults, normal speed and acceleration from the movement component, the boost timers as given |
| Berserker.BerserkerCharacter.BeginBashAttack | Source/ProjectM/BerserkerCharacter.cpp:126-129 | the bash trigger is enabled |
| Berserker.BerserkerCharacter.EndBashAttack | Source/ProjectM/BerserkerCharacter.cpp:132-135 | the bash trigger is disabled |
| Berserker.BerserkerCharacter.ShoulderBashAction | Source/ProjectM/BerserkerCharacter.cpp:165-185 | refused (possessing, notebook, bashing, falling, cooldown, mid-attack): nothing changes; otherwise the bash is queued as a special attack |
| Berserker.BerserkerCharacter.BeginShoulderBash | Source/ProjectM/BerserkerCharacter.cpp:187-204 | only a queued bash with no attack playing begins: full budget, bashing, no longer queued, the montage plays |
| Berserker.BerserkerCharacter.EndShoulderBash | Source/ProjectM/BerserkerCharacter.cpp:207-214 | bashing, moving and queued-special cleared, cooldown loaded, attack animation ended |
| Berserker.BerserkerCharacter.BeginBashMovement | Source/ProjectM/BerserkerCharacter.cpp:217-224 | moving at bash speed and acceleration |
| Berserker.BerserkerCharacter.EndBashMovement | Source/ProjectM/BerserkerCharacter.cpp:227-240 | movement stops and normal speed and acceleration return |
| Berserker.BerserkerCharacter.BashMovement | Source/ProjectM/BerserkerCharacter.cpp:242-259 | the bash becomes BashTick of the old one with step maxSpeed * dt, and a spent budget ends the trigger and the movement |
| Berserker.BerserkerCharacter.TickBashCooldown | Source/ProjectM/BerserkerCharacter.cpp:262-268 | a negative cooldown is kept; otherwise it runs down by dt |
| Berserker.BerserkerCharacter.UseBoost | Source/ProjectM/BerserkerCharacter.cpp:270-301 | blocked or not ready: nothing changes; otherwise the chosen boost is activated, and berserk saves and raises Damage (UseBerserk) |
| Berserker.BerserkerCharacter.TickLifeSteal | Source/ProjectM/BerserkerCharacter.cpp:303-329 | dead: nothing changes; otherwise life-steal becomes BoostTick of the old state |
| Berserker.BerserkerCharacter.TickBerserkBoost | Source/ProjectM/BerserkerCharacter.cpp:331-358 | dead: nothing changes; otherwise berserk becomes BerserkTick of the old state |
| Berserker.BerserkerCharacter.TakeDamage | Source/ProjectM/BerserkerCharacter.cpp:360-371 | HP becomes AfterDamage of the amount damped while berserk runs; a running bash ends with its cooldown loaded |
| Berserker.BerserkerCharacter.BashHitsEnemy | Source/ProjectM/BerserkerCharacter.cpp:76-98 | an AEnemy takes BashDamage and knockback when KnockbackApplies; the streak grows by one; life-steal heals Damage * LifeStealPercent |
| Berserker.BerserkerCharacter.BashImpact | Source/ProjectM/BerserkerCharacter.cpp:76-115 | the enemy hit and the destruction events, and the early return exactly for a destructable without the native interface |
| Berserker.BerserkerCharacter.OnShoulderBashBeginOverlap | Source/ProjectM/BerserkerCharacter.cpp:68-123 | no actor or itself: nothing changes; otherwise the impact, and with FinishBashUponImpact (unless returned early) the trigger and movement end |
| Berserker.BerserkerCharacter.OnMeleeBoxBeginOverlap | Source/ProjectM/BerserkerCharacter.cpp:373-385 | a live Berserker with life-steal heals on every overlap; the player's handler then counts an enemy hit |
| Targeting.Best | Source/ProjectM/AgileCharacter.cpp:196-210 | the scan's pick, when there is one, is a valid index |
| Targeting.BestIsFirstMax | Source/ProjectM/AgileCharacter.cpp:196-210 | nothing is picked exactly when no dot exceeds the threshold; otherwise the pick is the first hit with the greatest dot |
| Targeting.FirstMaxUnique | Source/ProjectM/AgileCharacter.cpp:205 | at most one index is the first greatest hit |
| Targeting.BestIff | Source/ProjectM/AgileCharacter.cpp:645-658 | the scan picks k exactly when k is the first hit with the greatest dot above the threshold |
| Targeting.HigherThresholdPicksLess | Source/ProjectM/AgileCharacter.cpp:196 | raising the minimum dot never brings a pick back |
| Targeting.HighestAbove | Source/ProjectM/AgileCharacter.cpp:199-210 | the loop returns the scan's pick, which is none exactly when no dot exceeds the threshold and is otherwise the first greatest hit |
| Hooks.SelectMeans | Source/ProjectM/AgileCharacter.cpp:167-266 | a selected point comes from an idle character, is the first greatest hit, usable, typed, not an ENEMY point on cooldown, and visible |
| Hooks.Verdict | Source/ProjectM/AgileCharacter.cpp:167-266 | a blocked character clears; Keep exactly for an unblocked busy one; a selected point has a type and is visible |
| Hooks.Visible | Source/ProjectM/AgileCharacter.cpp:243-245 | definition: the line trace hit the point itself or an actor it is a child of |
| Hooks.NothingInViewClears | Source/ProjectM/AgileCharacter.cpp:212-218 | with no hit above the minimum dot an idle character drops its hook point |
| Hooks.EnemyOnCooldownClears | Source/ProjectM/AgileCharacter.cpp:222-226 | a winning ENEMY point during the grapple-attack cooldown is dropped |
| Hooks.ThrowPickMeans | Source/ProjectM/AgileCharacter.cpp:636-659 | no throw target exactly when no candidate is above MinThrowTargetDot; otherwise the first greatest candidate |
| Hooks.ThrowPick | Source/ProjectM/AgileCharacter.cpp:636-659 | a throw target is one of the candidates (which one: ThrowPickMeans) |
| Hooks.ReleaseOutcome | Source/ProjectM/AgileCharacter.cpp:526-589 | nothing to release exactly without a pull; a throw exactly for a pull that has reached the object, moves faster than the stillness threshold and whose heading is not below the dot threshold, and then towards ThrowPick; a still, unreached or badly aimed object is dropped |
| Hooks.DefaultThresholdAlwaysThrows | Source/ProjectM/AgileCharacter.h:170 | with the default dot threshold -1 a fast moving pull is always thrown |
| Dashing.StopDash | Source/ProjectM/AgileCharacter.cpp:975-1000 | no dash after it; a running dash loads the cooldown; without a dash nothing changes; the budget is kept |
| Dashing.CanDash | Source/ProjectM/AgileCharacter.cpp:904-909 | definition: not dashing and no positive cooldown (its use: DashCooldown) |
| Dashing.StartDash | Source/ProjectM/AgileCharacter.cpp:926-935 | definition: the full budget with the dash running (its use: DashRuns, DashStops) |
| Dashing.DashTick | Source/ProjectM/AgileCharacter.cpp:952-973 | a positive cooldown only runs down; a spent budget stops the dash; otherwise the budget shrinks by one step |
| Dashing.DashTicksAdd | Source/ProjectM/AgileCharacter.cpp:952-973 | m frames then n frames equal m + n frames |
| Dashing.MovingPhase | Source/ProjectM/AgileCharacter.cpp:968-972 | with no cooldown, the budget shrinks one step per frame until spent |
| Dashing.CoolingPhase | Source/ProjectM/AgileCharacter.cpp:955-959 | while the cooldown is positive only the cooldown changes |
| Dashing.DashRuns | Source/ProjectM/AgileCharacter.cpp:952-973 | a dash started when allowed moves for Steps(distance, step) frames |
| Dashing.DashStops | Source/ProjectM/AgileCharacter.cpp:962-966 | on the next frame it stops with the cooldown loaded |
| Dashing.DashCooldown | Source/ProjectM/AgileCharacter.cpp:904-909 | the dash is refused for the Steps(cooldown, dt) frames after it stops and allowed once they are over |
| Dashing.InterruptedDashResumes | Source/ProjectM/AgileCharacter.cpp:952-973 | an interrupted dash with budget left moves again after its cooldown, although no dash runs |
| Agile.ShortIffNoInput | Source/ProjectM/AgileCharacter.cpp:937-938 | for stored input signs the direction is shorter than 0.1 exactly when no direction is held |
| Agile.Sign | Source/ProjectM/AgileCharacter.cpp:135 | the stored value is an input sign, 1 exactly for positive input and -1 exactly for negative input |
| Agile.AgileCharacter.constructor | Source/ProjectM/AgileCharacter.cpp:42-58 | header defaults, gravity, speed and acceleration recorded from the movement component, all abilities idle |
| Agile.AgileCharacter.SpawnResets | Source/ProjectM/AgileCharacter.cpp:49-55 | the grapple and grapple attack are reset, the attack animation ends as AttackEnded with nothing queued, and the exact calls are stated |
| Agile.AgileCharacter.MoveForward | Source/ProjectM/AgileCharacter.cpp:128-139 | the input sign is stored unless an ability locks input |
| Agile.AgileCharacter.MoveRight | Source/ProjectM/AgileCharacter.cpp:141-150 | the input sign is stored unless an ability locks input |
| Agile.AgileCharacter.DeactivateHookPointRef | Source/ProjectM/AgileCharacter.cpp:289-298 | no hook point afterwards; the held one, if any, is deactivated, and with none nothing is called |
| Agile.AgileCharacter.ActivateHookPoint | Source/ProjectM/AgileCharacter.cpp:270-286 | the old point is deactivated before the new one is held and activated; a PULLABLE point sets the pull object |
| Agile.AgileCharacter.CheckHook | Source/ProjectM/AgileCharacter.cpp:167-266 | the hook point follows Verdict: dropped when cleared, untouched when kept, the selected one held (re-detecting the held point, the same actor by identity, changes nothing) and an ENEMY point records its target |
| Agile.AgileCharacter.StopDash | Source/ProjectM/AgileCharacter.cpp:975-1000 | the dash becomes Dashing.StopDash of the old one, and a running dash restores the normal movement values |
| Agile.AgileCharacter.UseHeldHook | Source/ProjectM/AgileCharacter.cpp:319-336 | a running dash stops, the held point is used and the ability's montage plays |
| Agile.AgileCharacter.GrappleAction | Source/ProjectM/AgileCharacter.cpp:301-348 | refused: nothing changes; otherwise the dash stops, the point is used and the grapple animation starts |
| Agile.AgileCharacter.StartGrapplingMovement | Source/ProjectM/AgileCharacter.cpp:381-393 | gravity off and the grapple moves the character |
| Agile.AgileCharacter.ResetGrappleMovement | Source/ProjectM/AgileCharacter.cpp:396-402 | grapple flags cleared and gravity restored |
| Agile.AgileCharacter.PullAction | Source/ProjectM/AgileCharacter.cpp:444-493 | refused: nothing changes; otherwise the dash stops, the point is used and the pull starts |
| Agile.AgileCharacter.MovePullRope | Source/ProjectM/AgileCharacter.cpp:592-634 | the object starts moving once the rope is within one frame of pull speed |
| Agile.AgileCharacter.SetThrowTarget | Source/ProjectM/AgileCharacter.cpp:636-659 | the throw target is the scan's pick over the candidates |
| Agile.AgileCharacter.EndPull | Source/ProjectM/AgileCharacter.cpp:661-673 | no pull object, no throw target, pulling and moving cleared |
| Agile.AgileCharacter.ResetPullMovement | Source/ProjectM/AgileCharacter.cpp:526-589 | without a pull nothing changes; otherwise the object is thrown or dropped as ReleaseOutcome decides and every exit ends the pull |
| Agile.AgileCharacter.PullingMovement | Source/ProjectM/AgileCharacter.cpp:496-523 | a moving pull pushes the object and is released once it is within PullMinDistance |
| Agile.AgileCharacter.GrappleAttackAction | Source/ProjectM/AgileCharacter.cpp:676-706 | refused: nothing changes; otherwise the attack is only queued, as a special attack |
| Agile.AgileCharacter.BeginGrappleAttack | Source/ProjectM/AgileCharacter.cpp:715-765 | a positive cooldown only runs down; otherwise a queued attack starts when allowed, and nothing changes when not |
| Agile.AgileCharacter.StartGrapplingAttackMovement | Source/ProjectM/AgileCharacter.cpp:768-777 | gravity off and the attack moves the character |
| Agile.AgileCharacter.DealGrappleAttackDamage | Source/ProjectM/AgileCharacter.cpp:855-867 | with a target, an AEnemy takes GrappleDamage and the streak grows by one; without one nothing changes |
| Agile.AgileCharacter.ResetGrappleAttack | Source/ProjectM/AgileCharacter.cpp:870-883 | the cooldown is entered only if the attack was running; flags always cleared; the attack animation ends with nothing queued |
| Agile.AgileCharacter.CancelCombo | Source/ProjectM/AgileCharacter.cpp:911-917 | the combo stops and the attack animation ends; bEndingCombo is unchanged, the streak drops only for a limited combo of at most one montage (StreakAfterCancel), and the calls are CancelComboCues |
| Agile.AgileCharacter.EndAbilities | Source/ProjectM/AgileCharacter.cpp:919-924 | grapple, grapple attack and pull all end, the grapple attack cooling down if it ran; the attack animation ends as AttackEnded with nothing queued; the calls are EndAbilitiesCues |
| Agile.AgileCharacter.CancelForDash | Source/ProjectM/AgileCharacter.cpp:911-924 | every other action is cancelled before a dash, bEndingCombo unchanged and the streak as StreakAfterCancel, with the exact calls of both halves |
| Agile.AgileCharacter.LoadDash | Source/ProjectM/AgileCharacter.cpp:926-942 | full budget, dash speed and acceleration, no gravity, the montage plays, forward when no direction is held |
| Agile.AgileCharacter.StartDashing | Source/ProjectM/AgileCharacter.cpp:911-942 | DashStarted: the dash state becomes StartDash; dash speed, acceleration and no gravity; every other ability and the combo cancelled, the grapple attack cooling down if it ran; bEndingCombo unchanged and the streak as StreakAfterCancel; forward when no direction is held; the exact cue log, ending with the dash montage |
| Agile.AgileCharacter.DashAction | Source/ProjectM/AgileCharacter.cpp:893-949 | refused (possessing, notebook, dead, cooldown, dashing): the character and its player state are unchanged; otherwise DashStarted, the whole post-state including bEndingCombo, the streak and the exact cue log |
| Agile.AgileCharacter.DashMovement | Source/ProjectM/AgileCharacter.cpp:952-973 | the dash becomes DashTick of the old one with step maxSpeed * dt, and a spent budget calls StopDash |
| Agile.AgileCharacter.ReleaseAndEndAttack | Source/ProjectM/AgileCharacter.cpp:1009-1010 | the pull is released as ReleaseNow decides and the grapple attack ends (AttackEnded with nothing queued); the cue log is the release calls, the end-of-attack calls and the rope hidden |
| Agile.AgileCharacter.EndDashAndGrapple | Source/ProjectM/AgileCharacter.cpp:1007-1008 | the dash ends (DashEnded), the grapple ends with gravity restored, and the cue log is the StopDash calls then the rope hidden |
| Agile.AgileCharacter.ResetAbilities | Source/ProjectM/AgileCharacter.cpp:1007-1010 | dash (DashEnded: normal speed and acceleration after a dash), grapple, pull and grapple attack all end, cooldowns entered only if they ran, the combo ends as AttackEnded; the cue log is stated exactly |
| Agile.AgileCharacter.TakeDamage | Source/ProjectM/AgileCharacter.cpp:1003-1013 | HP follows the player's TakeDamage; afterwards no ability runs, the dash ended as DashEnded (normal speed and acceleration), a pull is always ended, and the rope is hidden last |

## Left out

- Sounds (`Play2DSound`, the sound manager), visual effects, the rope's
  shape and visibility beyond the cues, the hook's position, and the
  float curves that drive grapple, pull and grapple-attack movement. They
  are engine and asset calls.
- Positions, rotations and vectors. Distances, velocity sizes and dot
  products are parameters computed by the engine. The dash direction is
  kept as the two input signs MoveForward and MoveRight store. The
  camera mapping DashAction applies to it afterwards (AgileCharacter.cpp:944-948)
  is not modelled. StopDash's velocity scaling is the `ScaleVelocity` cue.
- The sphere traces and line traces themselves (their hits are
  parameters), and `DetectionDistance`.
- `PossessCamMovement`, controller possession and the camera interpolation
  after `StartPossession`.
- Items and placement (`ItemAction`, `PlaceAction`, `PlacingItem`), the
  game instance, `InteractAction` and `UseInteractable`.
- The body of the enable, disable and destruction interface calls, which
  are foreign calls; they are cues.
- The composition of `Tick` and `BeginPlay` beyond their bookkeeping,
  input binding, and the Unreal constructors.
- Grapple, pull and grapple-attack movement along curves:
  `GrapplingMovement`, `GrappleAttackMovement`, `MoveGrappleRope`,
  `MoveGrappleAttackRope`. Only their flag and gravity updates are
  modelled (`StartGrapplingMovement`, `StartGrapplingAttackMovement`,
  `MovePullRope`).
- Floating point: timers and distances are unbounded `real`s, so rounding
  of `float` arithmetic is not modelled.
- Health.HealthComponent.HPRatio: a MaxHP of zero is excluded. MaxHP is
  an editable float that nothing clamps, and the source's float division
  then yields an infinity or NaN, which `real` division cannot express.
- Agile.AgileCharacter.CheckHook: a hook point is a value whose type and
  parent mesh are taken as fixed for its identity. The source reads the
  held point's `Type` live, and a Blueprint may change it; the model
  keeps the type the point had when it was selected. ActivateHookPoint
  takes the parent actor and its first static mesh to exist.
- Berserker.BerserkerCharacter.TakeDamage: the cue log is not stated; only
  hit points, the bash flags and the combo window flag are.
- Agile.AgileCharacter.TakeDamage: of the cue log only the last call (the
  rope hidden) is stated, and of the combo only that nothing is queued and
  the combo window is closed.
