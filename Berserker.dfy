/**
 * ABerserkerCharacter: the shoulder bash (queue -> begin -> move with a
 * distance budget -> end and cooldown, with a knockback threshold) and
 * the two boosts, life-steal and berserk.  The character builds on a
 * PlayerCharacter, held in `base`, whose fields its methods also update.
 */
module Berserker {
  import opened Optional
  import opened World
  import opened Health
  import opened Player
  import opened Boosts
  import Countdown

  /** The editable settings of the Berserker (header defaults in DefaultBerserker). */
  datatype BerserkerConfig = BerserkerConfig(
    bashDistance: real,
    bashKnockbackForce: real,
    bashDistancePercentToKnockback: real,
    bashSpeed: real,
    bashAcceleration: real,
    bashDamage: real,
    finishBashUponImpact: bool,
    bashCooldown: real,
    lifeStealPercent: real,
    lifeStealDuration: real,
    lifeStealCooldown: real,
    damageBoost: real,
    damageDamping: real,
    berserkDuration: real,
    berserkCooldown: real)

  function DefaultBerserker(): BerserkerConfig
  {
    BerserkerConfig(
      250.0, 100.0, 0.0, 1700.0, 20000.0, 45.0, false, 2.0,
      0.5, 2.0, 2.0,
      10.0, 0.5, 2.0, 2.0)
  }

  /** EBoostType. */
  datatype BoostType = LIFESTEAL | BERSERK

  /**
   * An enemy hit by the bash is knocked back only once the bash has used up
   * at least the configured fraction of its distance.
   */
  predicate KnockbackApplies(remaining: real, bashDistance: real, percent: real)
  {
    remaining <= bashDistance * (1.0 - percent)
  }

  /** Once knockback applies it keeps applying for the rest of the bash, as the budget only shrinks. */
  lemma KnockbackStays(remaining: real, later: real, bashDistance: real, percent: real)
    requires KnockbackApplies(remaining, bashDistance, percent) && later <= remaining
    ensures KnockbackApplies(later, bashDistance, percent)
  {
  }

  /** With the default fraction 0, knockback already applies when the bash starts. */
  lemma DefaultKnockbackFromStart()
    ensures var c := DefaultBerserker();
      KnockbackApplies(c.bashDistance, c.bashDistance, c.bashDistancePercentToKnockback)
  {
  }

  /** The damage Super::TakeDamage receives: scaled by DamageDamping while berserk runs. */
  function DampedAmount(amount: real, berserk: bool, damping: real): real
  {
    if berserk then amount * damping else amount
  }

  /** Scaling by a factor in [0, 1] never increases a magnitude. */
  lemma ShrinkMagnitude(amount: real, damping: real)
    requires 0.0 <= damping <= 1.0
    ensures Abs(amount * damping) <= Abs(amount)
  {
    if amount >= 0.0 {
      assert amount * damping <= amount * 1.0;
      assert amount * damping >= 0.0;
    } else {
      assert amount * (damping - 1.0) >= 0.0;
      assert amount * (damping - 1.0) == amount * damping - amount;
      assert amount * damping <= 0.0;
    }
  }

  /**
   * Berserk never makes a hit hurt more: with DamageDamping in [0, 1]
   * (the editor clamps it there) the hit points left after a damped hit are
   * at least those left after the full one.
   */
  lemma DampingProtects(hp: real, maxHP: real, amount: real, damping: real)
    requires 0.0 <= damping <= 1.0 && 0.0 <= maxHP
    ensures AfterDamage(hp, maxHP, DampedAmount(amount, true, damping)) >= AfterDamage(hp, maxHP, amount)
  {
    ShrinkMagnitude(amount, damping);
    LessDamageLeavesMore(hp, maxHP, amount * damping, amount);
  }

  /** The bash movement as a value: bMoveWithBash and CurrentBashDistance. */
  datatype Bash = Bash(moving: bool, distance: real)

  /**
   * One BashMovement tick with the engine's max speed times dt as `step`:
   * a moving bash spends `step` of its distance and stops moving once the
   * distance is used up.
   */
  function BashTick(b: Bash, step: real): (r: Bash)
    ensures !b.moving ==> r == b
    ensures b.moving ==> r.distance == b.distance - step && (r.moving <==> r.distance > 0.0)
  {
    if !b.moving then b
    else
      var d := b.distance - step;
      Bash(!(d <= 0.0), d)
  }

  /** The bash after n movement ticks. */
  function BashTicks(b: Bash, step: real, n: nat): Bash
  {
    if n == 0 then b else BashTick(BashTicks(b, step, n - 1), step)
  }

  /** Before its budget is spent, a bash is still moving and has covered n steps. */
  lemma {:induction false} BashMoving(distance: real, step: real, n: nat)
    requires step > 0.0 && n < Countdown.Steps(distance, step)
    ensures BashTicks(Bash(true, distance), step, n) == Bash(true, Countdown.Left(distance, step, n))
  {
    if n > 0 {
      BashMoving(distance, step, n - 1);
      Countdown.PositiveBefore(distance, step, n);
    }
  }

  /**
   * A bash with a positive distance budget moves for exactly
   * Steps(distance, step) ticks: the last of them spends the budget and
   * ends the movement.
   */
  lemma BashDuration(distance: real, step: real)
    requires step > 0.0 && distance > 0.0
    ensures var k := Countdown.Steps(distance, step);
      k >= 1
      && BashTicks(Bash(true, distance), step, k - 1).moving
      && !BashTicks(Bash(true, distance), step, k).moving
  {
    var k := Countdown.Steps(distance, step);
    BashMoving(distance, step, k - 1);
    Countdown.SpentAfterSteps(distance, step);
  }

  class BerserkerCharacter {
    const base: PlayerCharacter
    const cfg: BerserkerConfig

    var currentBashCooldown: real       // CurrentBashCooldown
    var currentBashDistance: real       // CurrentBashDistance
    var isBashing: bool                 // bIsBashing
    var moveWithBash: bool              // bMoveWithBash
    var queuedBash: bool                // bQueuedBash
    var walkSpeed: real                 // movement component MaxWalkSpeed
    var acceleration: real              // movement component MaxAcceleration
    var normalSpeed: real               // NormalSpeed
    var normalAcceleration: real        // NormalAcceleration
    var usingLifeSteal: bool            // bUsingLifeSteal
    var currentLifeStealDuration: real
    var currentLifeStealCooldown: real
    var usingBerserk: bool              // bUsingBerserk
    var currentBerserkDuration: real
    var currentBerserkCooldown: real
    var originalDamage: real            // OriginalDamage

    /** A queued bash has not begun yet: the two flags are never both set. */
    ghost predicate Valid()
      reads this, base
    {
      base.Valid() && !(queuedBash && isBashing)
    }

    function LifeSteal(): Boost
      reads this
    {
      Boost(usingLifeSteal, currentLifeStealDuration, currentLifeStealCooldown)
    }

    function BerserkState(): Berserk
      reads this, base
    {
      Berserk(Boost(usingBerserk, currentBerserkDuration, currentBerserkCooldown), base.damage, originalDamage)
    }

    function BashState(): Bash
      reads this
    {
      Bash(moveWithBash, currentBashDistance)
    }

    /**
     * A spawned Berserker after BeginPlay.  The boost timers have no
     * initialiser in the header, so their starting values are parameters;
     * NormalSpeed and NormalAcceleration are read from the movement component.
     */
    constructor (id: ObjectId, melee: MeleeConfig, damage: real, maxHP: real, possessed: bool,
                 cfg: BerserkerConfig, lifeStealDuration0: real, lifeStealCooldown0: real,
                 berserkDuration0: real, berserkCooldown0: real, walkSpeed: real, acceleration: real)
      ensures Valid() && fresh(base) && fresh(base.health)
      ensures base.id == id && base.cfg == melee && base.damage == damage && this.cfg == cfg
      ensures base.health.currentHP == maxHP && base.possessed == possessed
      ensures currentBashCooldown == 0.0 && currentBashDistance == 0.0
      ensures !isBashing && !moveWithBash && !queuedBash
      ensures this.walkSpeed == walkSpeed == normalSpeed
      ensures this.acceleration == acceleration == normalAcceleration
      ensures LifeSteal() == Boost(false, lifeStealDuration0, lifeStealCooldown0)
      ensures BerserkState() == Berserk(Boost(false, berserkDuration0, berserkCooldown0), damage, 0.0)
    {
      base := new PlayerCharacter(id, melee, damage, maxHP, possessed);
      this.cfg := cfg;
      currentBashCooldown := 0.0;
      currentBashDistance := 0.0;
      isBashing := false;
      moveWithBash := false;
      queuedBash := false;
      this.walkSpeed := walkSpeed;
      this.acceleration := acceleration;
      normalSpeed := walkSpeed;
      normalAcceleration := acceleration;
      usingLifeSteal := false;
      currentLifeStealDuration := lifeStealDuration0;
      currentLifeStealCooldown := lifeStealCooldown0;
      usingBerserk := false;
      currentBerserkDuration := berserkDuration0;
      currentBerserkCooldown := berserkCooldown0;
      originalDamage := 0.0;
    }

    /** Enables the bash trigger box. */
    method BeginBashAttack()
      modifies base`cues
      ensures base.cues == old(base.cues) + [BashCollision(true)]
    {
      base.cues := base.cues + [BashCollision(true)];
    }

    /** Disables the bash trigger box. */
    method EndBashAttack()
      modifies base`cues
      ensures base.cues == old(base.cues) + [BashCollision(false)]
    {
      base.cues := base.cues + [BashCollision(false)];
    }

    /** The guards of ShoulderBashAction, in the order the source checks them. */
    predicate RefusesBash(falling: bool)
      reads this, base
    {
      base.possessing || base.notebookVisible
      || isBashing || falling || currentBashCooldown > 0.0
      || (base.inAttackAnimation && !base.canCombo)
    }

    /**
     * Bash input: refused while possessing, with the notebook open, already
     * bashing, falling, on cooldown or mid-attack outside the combo window;
     * otherwise the bash is queued as a special attack.
     */
    method ShoulderBashAction(falling: bool)
      requires Valid()
      modifies this`queuedBash, base`queuedSpecialAttack, base`continueCombo, base`canCombo, base`endingCombo
      ensures Valid()
      ensures old(RefusesBash(falling)) ==>
        && queuedBash == old(queuedBash) && base.queuedSpecialAttack == old(base.queuedSpecialAttack)
        && base.continueCombo == old(base.continueCombo) && base.canCombo == old(base.canCombo)
        && base.endingCombo == old(base.endingCombo)
      ensures !old(RefusesBash(falling)) ==>
        && queuedBash && base.queuedSpecialAttack
        && !base.continueCombo && !base.canCombo && !base.endingCombo
    {
      if base.possessing || base.notebookVisible {
        return;
      }
      if isBashing || falling || currentBashCooldown > 0.0 {
        return;
      }
      if base.inAttackAnimation && !base.canCombo {
        return;
      }
      queuedBash := true;
      base.QueueSpecialAttack();
      base.endingCombo := false;
    }

    /**
     * Starts a queued bash once no attack animation is playing: the bash
     * montage plays, the full distance budget is loaded and the bash is no
     * longer queued but running.
     */
    method BeginShoulderBash()
      requires Valid()
      modifies this`currentBashDistance, this`isBashing, this`queuedBash, base`upperBodyMontage, base`cues
      ensures Valid()
      ensures !old(queuedBash) || base.inAttackAnimation ==>
        && currentBashDistance == old(currentBashDistance) && isBashing == old(isBashing)
        && queuedBash == old(queuedBash) && base.upperBodyMontage == old(base.upperBodyMontage)
        && base.cues == old(base.cues)
      ensures old(queuedBash) && !base.inAttackAnimation ==>
        && currentBashDistance == cfg.bashDistance && isBashing && !queuedBash
        && !base.upperBodyMontage && base.cues == old(base.cues) + [PlayMontage(BashMovementAnim)]
    {
      if !queuedBash || base.inAttackAnimation {
        return;
      }
      base.EndUpperBodyMontage();
      base.cues := base.cues + [PlayMontage(BashMovementAnim)];
      currentBashDistance := cfg.bashDistance;
      isBashing := true;
      queuedBash := false;
    }

    /**
     * Ends the bash: bashing, moving and the queued special attack are
     * cleared, the cooldown is loaded, and the attack animation ends with no
     * special attack queued.
     */
    method EndShoulderBash()
      requires Valid()
      modifies this`isBashing, this`moveWithBash, this`currentBashCooldown, base`queuedSpecialAttack
      modifies base`inAttackAnimation, base`canCombo, base`continueCombo, base`currentAttackString
      modifies base`currentCombo, base`currentAnimation, base`inCombo, base`endingCombo, base`cues
      ensures Valid()
      ensures !isBashing && !moveWithBash && !base.queuedSpecialAttack
      ensures currentBashCooldown == cfg.bashCooldown
      ensures base.AttackEnded(false)
      ensures base.cues == old(base.cues) + old(base.EndAttackCues(false))
    {
      isBashing := false;
      moveWithBash := false;
      base.queuedSpecialAttack := false;
      currentBashCooldown := cfg.bashCooldown;
      base.EndAttackAnimation();
    }

    /** The bash starts moving at bash speed and acceleration. */
    method BeginBashMovement()
      modifies this`moveWithBash, this`walkSpeed, this`acceleration
      ensures moveWithBash && walkSpeed == cfg.bashSpeed && acceleration == cfg.bashAcceleration
    {
      moveWithBash := true;
      walkSpeed := cfg.bashSpeed;
      acceleration := cfg.bashAcceleration;
    }

    /** The bash stops moving; normal speed and acceleration come back and the end montage plays. */
    method EndBashMovement()
      modifies this`moveWithBash, this`walkSpeed, this`acceleration, base`upperBodyMontage, base`cues
      ensures !moveWithBash && walkSpeed == normalSpeed && acceleration == normalAcceleration
      ensures !base.upperBodyMontage
      ensures base.cues == old(base.cues) + [StopMovementImmediately, PlayMontage(BashEndAnim)]
    {
      moveWithBash := false;
      walkSpeed := normalSpeed;
      acceleration := normalAcceleration;
      base.cues := base.cues + [StopMovementImmediately];
      base.EndUpperBodyMontage();
      base.cues := base.cues + [PlayMontage(BashEndAnim)];
    }

    /**
     * One frame of bash movement at the engine's current max speed: the
     * distance budget shrinks by maxSpeed * dt (Bash.BashTick), and once it
     * is spent the trigger and the movement are ended.
     */
    method BashMovement(dt: real, maxSpeed: real)
      modifies this`currentBashDistance, this`moveWithBash, this`walkSpeed, this`acceleration
      modifies base`upperBodyMontage, base`cues
      ensures BashState() == BashTick(old(BashState()), maxSpeed * dt)
      ensures !old(moveWithBash) ==>
        && walkSpeed == old(walkSpeed) && acceleration == old(acceleration)
        && base.upperBodyMontage == old(base.upperBodyMontage) && base.cues == old(base.cues)
      ensures old(moveWithBash) && moveWithBash ==>
        && walkSpeed == old(walkSpeed) && acceleration == old(acceleration)
        && base.upperBodyMontage == old(base.upperBodyMontage)
        && base.cues == old(base.cues) + [MovementInput]
      ensures old(moveWithBash) && !moveWithBash ==>
        && walkSpeed == normalSpeed && acceleration == normalAcceleration && !base.upperBodyMontage
        && base.cues == old(base.cues)
             + [MovementInput, BashCollision(false), StopMovementImmediately, PlayMontage(BashEndAnim)]
    {
      if !moveWithBash {
        return;
      }
      base.cues := base.cues + [MovementInput];
      currentBashDistance := currentBashDistance - maxSpeed * dt;
      if currentBashDistance <= 0.0 {
        EndBashAttack();
        EndBashMovement();
      }
    }

    /** The bash cooldown runs down each frame, and stops once it has gone negative. */
    method TickBashCooldown(dt: real)
      modifies this`currentBashCooldown
      ensures old(currentBashCooldown) < 0.0 ==> currentBashCooldown == old(currentBashCooldown)
      ensures old(currentBashCooldown) >= 0.0 ==> currentBashCooldown == old(currentBashCooldown) - dt
    {
      if currentBashCooldown < 0.0 {
        return;
      }
      currentBashCooldown := currentBashCooldown - dt;
    }

    /**
     * Boost input.  Nothing happens while possessing, with the notebook
     * open or when dead, nor when the chosen boost is running or cooling
     * down; otherwise it starts with its full duration, and berserk also
     * saves Damage and raises it by DamageBoost.
     */
    method UseBoost(kind: BoostType)
      modifies this`usingLifeSteal, this`currentLifeStealDuration
      modifies this`usingBerserk, this`currentBerserkDuration, this`originalDamage, base`damage
      ensures var blocked := old(base.possessing || base.notebookVisible || base.health.IsDead());
        && LifeSteal() ==
             (if !blocked && kind == LIFESTEAL && Ready(old(LifeSteal()))
              then Activate(old(LifeSteal()), cfg.lifeStealDuration) else old(LifeSteal()))
        && BerserkState() ==
             (if !blocked && kind == BERSERK && Ready(old(BerserkState()).timer)
              then UseBerserk(old(BerserkState()), cfg.berserkDuration, cfg.damageBoost) else old(BerserkState()))
    {
      if base.possessing || base.notebookVisible {
        return;
      }
      if base.health.IsDead() {
        return;
      }
      match kind
      case LIFESTEAL =>
        if usingLifeSteal || currentLifeStealCooldown > 0.0 {
          return;
        }
        currentLifeStealDuration := cfg.lifeStealDuration;
        usingLifeSteal := true;
      case BERSERK =>
        if usingBerserk || currentBerserkCooldown > 0.0 {
          return;
        }
        originalDamage := base.damage;
        base.damage := originalDamage + cfg.damageBoost;
        currentBerserkDuration := cfg.berserkDuration;
        usingBerserk := true;
    }

    /** The life-steal timers advance one frame (Boosts.BoostTick), unless the character is dead. */
    method TickLifeSteal(dt: real)
      modifies this`usingLifeSteal, this`currentLifeStealDuration, this`currentLifeStealCooldown
      ensures LifeSteal() ==
        if base.health.IsDead() then old(LifeSteal()) else BoostTick(old(LifeSteal()), dt, cfg.lifeStealCooldown)
    {
      if base.health.IsDead() {
        return;
      }
      if !usingLifeSteal && currentLifeStealCooldown < 0.0 {
        return;
      }
      if currentLifeStealDuration > 0.0 {
        currentLifeStealDuration := currentLifeStealDuration - dt;
        return;
      } else if usingLifeSteal {
        currentLifeStealCooldown := cfg.lifeStealCooldown;
        usingLifeSteal := false;
        return;
      }
      currentLifeStealCooldown := currentLifeStealCooldown - dt;
    }

    /**
     * The berserk timers advance one frame and Damage is restored when the
     * boost ends (Boosts.BerserkTick), unless the character is dead.
     */
    method TickBerserkBoost(dt: real)
      modifies this`usingBerserk, this`currentBerserkDuration, this`currentBerserkCooldown, base`damage
      ensures BerserkState() ==
        if base.health.IsDead() then old(BerserkState()) else BerserkTick(old(BerserkState()), dt, cfg.berserkCooldown)
    {
      if base.health.IsDead() {
        return;
      }
      if !usingBerserk && currentBerserkCooldown < 0.0 {
        return;
      }
      if currentBerserkDuration > 0.0 {
        currentBerserkDuration := currentBerserkDuration - dt;
        return;
      } else if usingBerserk {
        currentBerserkCooldown := cfg.berserkCooldown;
        base.damage := originalDamage;
        usingBerserk := false;
        return;
      }
      currentBerserkCooldown := currentBerserkCooldown - dt;
    }

    /**
     * Damage taken: damped while berserk runs, a running bash is ended
     * first, and then the player character takes the damped amount.
     */
    method TakeDamage(amount: real)
      requires Valid()
      modifies this`isBashing, this`moveWithBash, this`currentBashCooldown, base`queuedSpecialAttack
      modifies base`inAttackAnimation, base`canCombo, base`continueCombo, base`currentAttackString
      modifies base`currentCombo, base`currentAnimation, base`inCombo, base`endingCombo, base`cues
      modifies base.health`currentHP
      ensures Valid()
      ensures base.health.currentHP ==
        if old(base.health.IsDead()) then old(base.health.currentHP)
        else AfterDamage(old(base.health.currentHP), base.health.maxHP,
                         DampedAmount(amount, usingBerserk, cfg.damageDamping))
      ensures old(isBashing) ==>
        && !isBashing && !moveWithBash && !base.queuedSpecialAttack
        && currentBashCooldown == cfg.bashCooldown && !base.canCombo
      ensures !old(isBashing) ==>
        && isBashing == old(isBashing) && moveWithBash == old(moveWithBash)
        && currentBashCooldown == old(currentBashCooldown)
      ensures !old(base.health.IsDead()) ==> !base.canCombo
    {
      var taken := amount;
      if usingBerserk {
        taken := taken * cfg.damageDamping;
      }
      if isBashing {
        EndShoulderBash();
      }
      base.TakeDamage(taken);
    }

    /**
     * The part of the bash overlap for an actor tagged Enemy: an AEnemy
     * takes BashDamage and, once the bash has gone far enough, a knockback;
     * the attack streak grows by one (its timer is not restarted); with
     * life-steal running the Berserker heals Damage * LifeStealPercent.
     */
    method BashHitsEnemy(a: Actor)
      requires a.enemyTag
      modifies base`cues, base`currentAttackString, base.health`currentHP
      ensures base.currentAttackString == old(base.currentAttackString) + 1
      ensures base.health.currentHP ==
        if usingLifeSteal
        then AfterHeal(old(base.health.currentHP), base.health.maxHP, base.damage * cfg.lifeStealPercent)
        else old(base.health.currentHP)
      ensures base.cues == old(base.cues) + HitCues(a)
    {
      if a.isEnemy {
        base.cues := base.cues + [DamageEnemy(a.id, cfg.bashDamage)];
        if currentBashDistance <= cfg.bashDistance * (1.0 - cfg.bashDistancePercentToKnockback) {
          base.cues := base.cues + [Knockback(a.id)];
        }
      }
      base.currentAttackString := base.currentAttackString + 1;
      if usingLifeSteal {
        base.health.Heal(base.damage * cfg.lifeStealPercent);
      }
    }

    /** The calls the bash makes on an enemy it hits (see BashHitsEnemy). */
    function HitCues(a: Actor): seq<Cue>
      reads this
    {
      (if a.enemyTag && a.isEnemy then [DamageEnemy(a.id, cfg.bashDamage)] else [])
      + (if a.enemyTag && a.isEnemy
            && KnockbackApplies(currentBashDistance, cfg.bashDistance, cfg.bashDistancePercentToKnockback)
         then [Knockback(a.id)] else [])
    }

    /** The destruction events of a destructable actor the bash hits. */
    function DestroyCues(a: Actor): seq<Cue>
    {
      (if a.destructable then [DestructionEvent(a.id)] else [])
      + (if a.destructable && a.nativeDestructable then [NativeDestruction(a.id)] else [])
    }

    /** The calls the bash makes on the actor it hits. */
    function ImpactCues(a: Actor): seq<Cue>
      reads this
    {
      HitCues(a) + DestroyCues(a)
    }

    /**
     * What the bash does to the actor it overlaps, before it may finish:
     * the enemy hit, then the destructable events.  `returned` is the early
     * return after a destructable that only has the Blueprint event.
     */
    method BashImpact(a: Actor) returns (returned: bool)
      modifies base`cues, base`currentAttackString, base.health`currentHP
      ensures returned <==> a.destructable && !a.nativeDestructable
      ensures base.cues == old(base.cues) + ImpactCues(a)
      ensures base.currentAttackString == old(base.currentAttackString) + (if a.enemyTag then 1 else 0)
      ensures base.health.currentHP ==
        if a.enemyTag && usingLifeSteal
        then AfterHeal(old(base.health.currentHP), base.health.maxHP, base.damage * cfg.lifeStealPercent)
        else old(base.health.currentHP)
    {
      if a.enemyTag {
        BashHitsEnemy(a);
      }
      ghost var hit := base.cues;
      assert hit == old(base.cues) + HitCues(a);
      returned := false;
      if a.destructable {
        base.cues := base.cues + [DestructionEvent(a.id)];
        if !a.nativeDestructable {
          assert base.cues == hit + DestroyCues(a);
          return true;
        }
        base.cues := base.cues + [NativeDestruction(a.id)];
      }
      assert base.cues == hit + DestroyCues(a);
    }

    /**
     * The bash box overlaps an actor: an actor tagged Enemy is hit
     * (BashHitsEnemy); a destructable actor gets its Blueprint event and
     * then, when it implements the interface natively, its C++ event.  With
     * FinishBashUponImpact the bash trigger and movement end, except after a
     * destructable that only has the Blueprint event, where the handler has
     * already returned.
     */
    method OnShoulderBashBeginOverlap(other: Option<Actor>)
      modifies base`cues, base`currentAttackString, base.health`currentHP
      modifies this`moveWithBash, this`walkSpeed, this`acceleration, base`upperBodyMontage
      ensures other.None? || other.value.id == base.id ==>
        && base.cues == old(base.cues) && base.currentAttackString == old(base.currentAttackString)
        && base.health.currentHP == old(base.health.currentHP)
        && moveWithBash == old(moveWithBash) && walkSpeed == old(walkSpeed)
        && acceleration == old(acceleration) && base.upperBodyMontage == old(base.upperBodyMontage)
      ensures other.Some? && other.value.id != base.id ==>
        var a := other.value;
        var finishes := cfg.finishBashUponImpact && !(a.destructable && !a.nativeDestructable);
        && base.currentAttackString == old(base.currentAttackString) + (if a.enemyTag then 1 else 0)
        && base.health.currentHP ==
             (if a.enemyTag && usingLifeSteal
              then AfterHeal(old(base.health.currentHP), base.health.maxHP, base.damage * cfg.lifeStealPercent)
              else old(base.health.currentHP))
        && base.cues == old(base.cues) + ImpactCues(a)
             + (if finishes then [BashCollision(false), StopMovementImmediately, PlayMontage(BashEndAnim)] else [])
        && (finishes ==>
              && !moveWithBash && walkSpeed == normalSpeed && acceleration == normalAcceleration
              && !base.upperBodyMontage)
        && (!finishes ==>
              && moveWithBash == old(moveWithBash) && walkSpeed == old(walkSpeed)
              && acceleration == old(acceleration) && base.upperBodyMontage == old(base.upperBodyMontage))
    {
      if other.None? || other.value.id == base.id {
        return;
      }
      var a := other.value;
      var returned := BashImpact(a);
      if returned {
        return;
      }
      if cfg.finishBashUponImpact {
        EndBashAttack();
        EndBashMovement();
      }
    }

    /**
     * The melee box overlaps something.  A live Berserker with life-steal
     * running heals Damage * LifeStealPercent first, whatever it touched;
     * then the player character's handler runs.
     */
    method OnMeleeBoxBeginOverlap(other: Option<Actor>)
      modifies base`cues, base`currentAttackString, base`streakTimer, base.health`currentHP
      ensures base.health.currentHP ==
        if !old(base.health.IsDead()) && usingLifeSteal
        then AfterHeal(old(base.health.currentHP), base.health.maxHP, base.damage * cfg.lifeStealPercent)
        else old(base.health.currentHP)
      ensures old(base.health.IsDead()) || !base.MeleeHits(other) ==>
        base.cues == old(base.cues) && base.AttackStreak() == old(base.AttackStreak())
      ensures !old(base.health.IsDead()) && base.MeleeHits(other) ==>
        && base.cues == old(base.cues) + [DamageEnemy(other.value.id, base.damage)]
        && base.currentAttackString == old(base.currentAttackString) + 1
        && base.streakTimer == base.cfg.timeToStopAttackStreak
    {
      if base.health.IsDead() {
        return;
      }
      if usingLifeSteal {
        base.health.Heal(base.damage * cfg.lifeStealPercent);
      }
      base.OnMeleeBoxBeginOverlap(other);
    }
  }
}
