/**
 * AAgileCharacter: hook points (detect, activate, deactivate), grapple,
 * pull and throw, the grapple attack and the dash.  The character builds
 * on a PlayerCharacter, held in `base`, whose combo fields and cue log its
 * methods also update.  Positions, rotations, the rope's shape and the
 * float curves that drive the movement are not part of the model; the
 * engine's answers (traces, distances, velocities, IsFalling) are
 * parameters.
 */
module Agile {
  import opened Optional
  import opened World
  import opened Health
  import opened Player
  import opened Targeting
  import opened Hooks
  import opened Dashing

  /** The editable settings of the Agile character (header defaults in DefaultAgile). */
  datatype AgileConfig = AgileConfig(
    grappleThrowDistance: real,
    minDetectionDot: real,
    canPullWhileFalling: bool,
    pullSpeed: real,
    pullMinDistance: real,
    minThrowTargetDot: real,
    throwDotProductThreshold: real,
    throwCurrentVelocitySizeThreshold: real,
    grappleDamage: real,
    grappleAttackCooldown: real,
    endAirDashVelocityFactor: real,
    endGroundDashVelocityFactor: real,
    dashDistance: real,
    dashAcceleration: real,
    dashSpeed: real,
    dashCooldown: real)

  function DefaultAgile(): AgileConfig
  {
    AgileConfig(
      500.0, 0.7, false,
      1000.0, 1000.0, 0.7, -1.0, 0.1,
      35.0, 1.0,
      1.0, 1.0, 1500.0, 20000.0, 2000.0, 2.0)
  }

  /** FMath::Sign: 1, -1 or 0 with the sign of x. */
  function Sign(x: real): (r: real)
    ensures IsSign(r)
    ensures (r == 1.0 <==> x > 0.0) && (r == -1.0 <==> x < 0.0)
  {
    if x > 0.0 then 1.0 else if x < 0.0 then -1.0 else 0.0
  }

  /** The values MoveForward and MoveRight store. */
  predicate IsSign(x: real)
  {
    x == -1.0 || x == 0.0 || x == 1.0
  }

  /**
   * DashAction's test that the stored direction is shorter than 0.1 holds,
   * for stored signs, exactly when neither direction is held.
   */
  lemma ShortIffNoInput(x: real, y: real)
    requires IsSign(x) && IsSign(y)
    ensures x * x + y * y < 0.01 <==> x == 0.0 && y == 0.0
  {
  }

  /** The DeactivateHook call DeactivateHookPointRef makes for the held point, if any. */
  function DeactivateCues(h: Option<HookPoint>): seq<Cue>
  {
    if h.Some? then [DeactivateHook(h.value.id)] else []
  }

  /** The calls EndPull makes: back to the normal animation, rope hidden. */
  function EndPullCues(): seq<Cue>
  {
    [StopAllMontages(1.0), RopeShown(false)]
  }

  class AgileCharacter {
    const base: PlayerCharacter
    const cfg: AgileConfig

    var currentHook: Option<HookPoint>        // CurrentHookPoint
    var pullActorRef: Option<ObjectId>        // PullActorRef
    var throwTarget: Option<ObjectId>         // ThrowTarget
    var grappleAttackTarget: Option<Target>   // GrappleAttackTarget
    var isGrappling: bool                     // bIsGrappling, never set
    var movingWithGrapple: bool
    var inGrapplingAnimation: bool
    var isPulling: bool
    var movingWithPull: bool
    var isGrappleAttacking: bool
    var movingWithGrappleAttack: bool
    var queuedGrappleAttack: bool
    var currentGrappleAttackCooldown: real
    var isDashing: bool
    var currentDashDistance: real
    var currentDashCooldown: real
    var dashInputX: real                      // DashDirection.X as stored by MoveForward
    var dashInputY: real                      // DashDirection.Y as stored by MoveRight
    var gravityScale: real                    // movement component GravityScale
    var maxWalkSpeed: real                    // movement component MaxWalkSpeed
    var maxAcceleration: real                 // movement component MaxAcceleration
    var initialGravityScale: real
    var normalMaxSpeed: real
    var normalMaxAcc: real

    /**
     * bIsGrappling is never raised; a pull always has an object to pull
     * (PullAction requires one and only EndPull drops it, together with the
     * pull); the object only moves while the pull is on; and the stored
     * dash direction is made of input signs.
     */
    ghost predicate Valid()
      reads this, base
    {
      && base.Valid()
      && !isGrappling
      && (isPulling ==> pullActorRef.Some?)
      && (movingWithPull ==> isPulling)
      && IsSign(dashInputX) && IsSign(dashInputY)
    }

    function DashState(): Dash
      reads this
    {
      Dash(isDashing, currentDashDistance, currentDashCooldown)
    }

    /** Dead, possessing or with the notebook open: CheckHook drops the hook point. */
    predicate Blocked()
      reads this, base, base.health
    {
      base.health.IsDead() || base.possessing || base.notebookVisible
    }

    /** Grappling, pulling or grapple-attacking: CheckHook leaves the hook point alone. */
    predicate Busy()
      reads this
    {
      isGrappling || isPulling || isGrappleAttacking
    }

    /**
     * DashAction's test that a direction is held: the stored direction is
     * at least 0.1 long, which for input signs (ShortIffNoInput) means one
     * of them is not zero.
     */
    predicate DirectionHeld()
      reads this
    {
      !(dashInputX == 0.0 && dashInputY == 0.0)
    }

    /** Movement and dash input are ignored during these abilities. */
    predicate InputLocked()
      reads this
    {
      inGrapplingAnimation || isPulling || isDashing || isGrappleAttacking
    }

    /** The calls StopDash makes: the velocity is scaled by the end factor and the dash montage stops. */
    function StopDashCues(falling: bool): seq<Cue>
      reads this
    {
      if isDashing
      then [ScaleVelocity(if falling then cfg.endAirDashVelocityFactor else cfg.endGroundDashVelocityFactor),
            StopMontage(DashAnimation, 0.5)]
      else []
    }

    /** StopDash's effect on the dash and on the walk speed and acceleration. */
    twostate predicate DashEnded()
      reads this
    {
      && DashState() == Dashing.StopDash(old(DashState()), cfg.dashCooldown)
      && maxWalkSpeed == (if old(isDashing) then normalMaxSpeed else old(maxWalkSpeed))
      && maxAcceleration == (if old(isDashing) then normalMaxAcc else old(maxAcceleration))
    }

    /** StopDash's whole effect: DashEnded, and the gravity scale restored after a dash. */
    twostate predicate DashStopped()
      reads this
    {
      && DashEnded()
      && gravityScale == (if old(isDashing) then initialGravityScale else old(gravityScale))
    }

    /**
     * The calls CancelCombo makes from combo montage `anim` with `queued` as
     * the special-attack flag: StopCombo stops that montage; the attack
     * animation's end then waits for a queued special attack or stops the
     * combo again, now at montage 0; and the melee trigger is disabled.
     */
    function CancelComboCues(anim: int, queued: bool): seq<Cue>
    {
      base.StopComboCues(anim) + (if queued then [] else base.StopComboCues(0)) + [MeleeCollision(false)]
    }

    /** The calls EndAbilities makes, given those of the attack animation's end. */
    function EndAbilitiesCues(endAttack: seq<Cue>): seq<Cue>
    {
      [RopeShown(false)] + endAttack + [RopeShown(false)] + EndPullCues()
    }

    /**
     * The attack streak after the combo is cancelled: the end of the attack
     * animation runs at montage 0, so only a limited combo with at most one
     * montage is at its limit there and drops the streak.
     */
    twostate predicate StreakAfterCancel()
      reads base
    {
      base.currentAttackString ==
        if base.cfg.limitedCombo && base.cfg.montageCount <= 1 then 0 else old(base.currentAttackString)
    }

    /**
     * An accepted dash's effect: every other action cancelled (combo and
     * attack, grapple, grapple attack, pull), the full distance loaded with
     * dash speed and acceleration and no gravity, forward when no
     * direction is held, and the calls of the cancelling steps followed by
     * the dash montage.
     */
    twostate predicate DashStarted()
      reads this, base
    {
      && DashState() == StartDash(old(DashState()), cfg.dashDistance)
      && maxWalkSpeed == cfg.dashSpeed && maxAcceleration == cfg.dashAcceleration && gravityScale == 0.0
      && !movingWithGrapple && !inGrapplingAnimation && !isGrappleAttacking && !movingWithGrappleAttack
      && currentGrappleAttackCooldown ==
           (if old(isGrappleAttacking) then cfg.grappleAttackCooldown else old(currentGrappleAttackCooldown))
      && !isPulling && !movingWithPull && pullActorRef.None? && throwTarget.None?
      && !base.upperBodyMontage && !base.inAttackAnimation && !base.canCombo && !base.continueCombo
      && !base.inCombo && !base.queuedSpecialAttack && base.currentCombo == 0 && base.currentAnimation == 0
      && base.endingCombo == old(base.endingCombo) && StreakAfterCancel()
      && dashInputX == (if old(DirectionHeld()) then old(dashInputX) else 1.0)
      && base.cues == old(base.cues) + CancelComboCues(old(base.currentAnimation), old(base.queuedSpecialAttack))
           + EndAbilitiesCues(base.StopComboCues(0)) + [PlayMontage(DashAnimation)]
    }

    /** What ResetPullMovement decides from the current state and the engine's answers. */
    function ReleaseNow(r: PullRelease): PullEnd
      reads this
    {
      ReleaseOutcome(isPulling && pullActorRef.Some?, movingWithPull, r,
                     cfg.throwCurrentVelocitySizeThreshold, cfg.throwDotProductThreshold, cfg.minThrowTargetDot)
    }

    /** The calls ResetPullMovement makes for outcome `e`. */
    function ReleaseCues(e: PullEnd): seq<Cue>
      reads this
    {
      match e
      case NotPulling => []
      case Drop => EndPullCues()
      case Throw(towards) =>
        (if pullActorRef.Some? then [ThrowImpulse(pullActorRef.value, towards)] else []) + EndPullCues()
    }

    /**
     * A spawned Agile character after BeginPlay.  The gravity scale, walk
     * speed and acceleration are the movement component's values, which
     * BeginPlay records as the ones to return to.
     */
    constructor (id: ObjectId, melee: MeleeConfig, damage: real, maxHP: real, possessed: bool,
                 cfg: AgileConfig, gravityScale: real, walkSpeed: real, acceleration: real)
      ensures Valid() && fresh(base) && fresh(base.health)
      ensures base.id == id && base.cfg == melee && base.damage == damage && this.cfg == cfg
      ensures base.health.currentHP == maxHP && base.possessed == possessed
      ensures currentHook.None? && pullActorRef.None? && throwTarget.None? && grappleAttackTarget.None?
      ensures !movingWithGrapple && !inGrapplingAnimation && !isPulling && !movingWithPull
      ensures !isGrappleAttacking && !movingWithGrappleAttack && !queuedGrappleAttack && !isDashing
      ensures currentGrappleAttackCooldown == 0.0 && DashState() == Dash(false, 0.0, 0.0)
      ensures this.gravityScale == gravityScale == initialGravityScale
      ensures maxWalkSpeed == walkSpeed == normalMaxSpeed && maxAcceleration == acceleration == normalMaxAcc
      ensures base.currentCombo == 0 && base.currentAnimation == 0 && !base.inCombo && !base.inAttackAnimation
    {
      base := new PlayerCharacter(id, melee, damage, maxHP, possessed);
      this.cfg := cfg;
      currentHook := None;
      pullActorRef := None;
      throwTarget := None;
      grappleAttackTarget := None;
      isGrappling := false;
      movingWithGrapple := false;
      inGrapplingAnimation := false;
      isPulling := false;
      movingWithPull := false;
      isGrappleAttacking := false;
      movingWithGrappleAttack := false;
      queuedGrappleAttack := false;
      currentGrappleAttackCooldown := 0.0;
      isDashing := false;
      currentDashDistance := 0.0;
      currentDashCooldown := 0.0;
      dashInputX := 0.0;
      dashInputY := 0.0;
      this.gravityScale := gravityScale;
      initialGravityScale := gravityScale;
      maxWalkSpeed := walkSpeed;
      maxAcceleration := acceleration;
      normalMaxSpeed := walkSpeed;
      normalMaxAcc := acceleration;
      new;
      SpawnResets();
    }

    /**
     * The resets BeginPlay runs on a spawned character: the grapple and
     * the grapple attack (ResetPullMovement has nothing to release, as no
     * pull is on), then the rope is hidden.  From an idle combo they leave
     * the combo stopped.
     */
    method SpawnResets()
      requires Valid() && !base.continueCombo && !isGrappleAttacking
      modifies this`movingWithGrapple, this`gravityScale, this`inGrapplingAnimation
      modifies this`currentGrappleAttackCooldown, this`movingWithGrappleAttack, this`isGrappleAttacking
      modifies base`queuedSpecialAttack
      modifies base`inAttackAnimation, base`canCombo, base`continueCombo, base`currentAttackString
      modifies base`currentCombo, base`currentAnimation, base`inCombo, base`endingCombo, base`cues
      ensures Valid()
      ensures !movingWithGrapple && !inGrapplingAnimation && gravityScale == initialGravityScale
      ensures !isGrappleAttacking && !movingWithGrappleAttack
      ensures currentGrappleAttackCooldown == old(currentGrappleAttackCooldown)
      ensures !base.queuedSpecialAttack && !base.inAttackAnimation && !base.canCombo && !base.continueCombo
      ensures !base.inCombo && base.currentCombo == 0 && base.currentAnimation == 0
      ensures base.AttackEnded(false)
      ensures base.cues == old(base.cues) + [RopeShown(false)] + old(base.EndAttackCues(false))
        + [RopeShown(false), RopeShown(false)]
    {
      ResetGrappleMovement();
      ResetGrappleAttack();
      base.cues := base.cues + [RopeShown(false)];
    }

    /** Forward input is stored (as its sign) for the dash, unless an ability locks input. */
    method MoveForward(value: real)
      requires Valid()
      modifies this`dashInputX
      ensures Valid()
      ensures dashInputX == if InputLocked() then old(dashInputX) else Sign(value)
    {
      if inGrapplingAnimation || isPulling || isDashing || isGrappleAttacking {
        return;
      }
      dashInputX := Sign(value);
    }

    /** Right input is stored (as its sign) for the dash, unless an ability locks input. */
    method MoveRight(value: real)
      requires Valid()
      modifies this`dashInputY
      ensures Valid()
      ensures dashInputY == if InputLocked() then old(dashInputY) else Sign(value)
    {
      if inGrapplingAnimation || isPulling || isDashing || isGrappleAttacking {
        return;
      }
      dashInputY := Sign(value);
    }

    /** Drops the held hook point, hiding it; with none held nothing happens. */
    method DeactivateHookPointRef()
      modifies this`currentHook, base`cues
      ensures currentHook.None?
      ensures base.cues == old(base.cues) + DeactivateCues(old(currentHook))
    {
      if currentHook.None? {
        return;
      }
      base.cues := base.cues + [DeactivateHook(currentHook.value.id)];
      currentHook := None;
    }

    /**
     * Swaps the held hook point for `target`: the old one is deactivated
     * first, then the new one is held and shown; a PULLABLE point also
     * becomes the source of the object to pull.
     */
    method ActivateHookPoint(target: HookPoint)
      requires Valid()
      modifies this`currentHook, this`pullActorRef, base`cues
      ensures Valid()
      ensures currentHook == Some(target)
      ensures base.cues == old(base.cues) + DeactivateCues(old(currentHook)) + [ActivateHook(target.id)]
      ensures pullActorRef == if target.kind == PULLABLE then Some(target.parentMesh) else old(pullActorRef)
    {
      DeactivateHookPointRef();
      currentHook := Some(target);
      base.cues := base.cues + [ActivateHook(target.id)];
      if target.kind == PULLABLE {
        pullActorRef := Some(target.parentMesh);
      }
    }

    /**
     * The per-frame hook point check (Hooks.Verdict): a cleared verdict
     * drops the held point, Keep changes nothing, and a selected point
     * becomes the held one (re-detecting the held point, the same actor,
     * changes nothing).
     * Selecting an ENEMY point also records the actor the line trace hit
     * through as the grapple-attack target.
     */
    method CheckHook(hits: seq<SphereHit>, sight: ObjectId -> Sight)
      requires Valid()
      modifies this`currentHook, this`pullActorRef, this`grappleAttackTarget, base`cues
      ensures Valid()
      ensures var v := Verdict(old(Blocked()), old(Busy()), hits, cfg.minDetectionDot,
                               currentGrappleAttackCooldown, sight);
        && (v == Clear ==>
              && currentHook.None? && base.cues == old(base.cues) + DeactivateCues(old(currentHook))
              && pullActorRef == old(pullActorRef) && grappleAttackTarget == old(grappleAttackTarget))
        && (v == Keep ==>
              && currentHook == old(currentHook) && base.cues == old(base.cues)
              && pullActorRef == old(pullActorRef) && grappleAttackTarget == old(grappleAttackTarget))
        && (v.Select? ==>
              && grappleAttackTarget == (if v.hook.kind == ENEMY then v.sight.parent else old(grappleAttackTarget))
              && (SamePoint(old(currentHook), v.hook) ==>
                    currentHook == old(currentHook) && base.cues == old(base.cues) && pullActorRef == old(pullActorRef))
              && (!SamePoint(old(currentHook), v.hook) ==>
                    && currentHook == Some(v.hook)
                    && base.cues == old(base.cues) + DeactivateCues(old(currentHook)) + [ActivateHook(v.hook.id)]
                    && pullActorRef == (if v.hook.kind == PULLABLE then Some(v.hook.parentMesh) else old(pullActorRef))))
    {
      if base.health.IsDead() || base.possessing || base.notebookVisible {
        DeactivateHookPointRef();
        return;
      }
      if isGrappling || isPulling || isGrappleAttacking {
        return;
      }
      if |hits| <= 0 {
        DeactivateHookPointRef();
        return;
      }
      var best := HighestAbove(HitDots(hits), cfg.minDetectionDot);
      if best.None? || hits[best.value].hook.None? || !hits[best.value].usable
         || hits[best.value].hook.value.kind == NONE {
        DeactivateHookPointRef();
        return;
      }
      var detected := hits[best.value].hook.value;
      if detected.kind == ENEMY && currentGrappleAttackCooldown > 0.0 {
        DeactivateHookPointRef();
        return;
      }
      var line := sight(detected.id);
      if line.NoActor? {
        DeactivateHookPointRef();
        return;
      }
      if line.actor != detected.id && detected.id !in line.children {
        DeactivateHookPointRef();
        return;
      }
      if detected.kind == ENEMY {
        grappleAttackTarget := line.parent;
      }
      if SamePoint(currentHook, detected) {
        return;
      }
      ActivateHookPoint(detected);
    }

    /**
     * Ends a running dash: the normal movement values come back, the
     * velocity is scaled by the end factor, the montage stops and the
     * cooldown is loaded (Dashing.StopDash).  Without a dash nothing happens.
     */
    method StopDash(falling: bool)
      modifies this`isDashing, this`currentDashCooldown, this`maxWalkSpeed, this`maxAcceleration
      modifies this`gravityScale, base`cues
      ensures DashStopped()
      ensures base.cues == old(base.cues) + old(StopDashCues(falling))
    {
      if !isDashing {
        return;
      }
      maxWalkSpeed := normalMaxSpeed;
      maxAcceleration := normalMaxAcc;
      gravityScale := initialGravityScale;
      base.cues := base.cues + StopDashCues(falling);
      isDashing := false;
      currentDashCooldown := cfg.dashCooldown;
    }

    /**
     * The common start of GrappleAction, PullAction and BeginGrappleAttack
     * once they accept: the upper-body montage flag drops, a running dash
     * ends, the held point is used and the ability's montage plays.
     */
    method UseHeldHook(falling: bool, montage: Montage)
      requires Valid() && currentHook.Some?
      modifies base`upperBodyMontage, base`cues
      modifies this`isDashing, this`currentDashCooldown, this`maxWalkSpeed, this`maxAcceleration, this`gravityScale
      ensures Valid()
      ensures !base.upperBodyMontage && DashStopped()
      ensures base.cues == old(base.cues) + old(StopDashCues(falling)) + [UseHook(currentHook.value.id), PlayMontage(montage)]
    {
      base.EndUpperBodyMontage();
      StopDash(falling);
      base.cues := base.cues + [UseHook(currentHook.value.id), PlayMontage(montage)];
    }

    /** The guards of GrappleAction, in the order the source checks them. */
    predicate RefusesGrapple(distance: real)
      reads this, base, base.health
    {
      base.possessing || base.notebookVisible
      || base.health.IsDead() || currentHook.None?
      || isGrappling || currentHook.value.kind != GRAPPABLE
      || distance > cfg.grappleThrowDistance
    }

    /**
     * Grapple input, with `distance` from the character to the held point:
     * refused by RefusesGrapple; otherwise a running dash ends, the point is
     * used and the grapple animation (air or ground) starts.
     */
    method GrappleAction(falling: bool, distance: real)
      requires Valid()
      modifies this`inGrapplingAnimation, base`upperBodyMontage, base`cues
      modifies this`isDashing, this`currentDashCooldown, this`maxWalkSpeed, this`maxAcceleration, this`gravityScale
      ensures Valid()
      ensures old(RefusesGrapple(distance)) ==>
        && inGrapplingAnimation == old(inGrapplingAnimation) && base.upperBodyMontage == old(base.upperBodyMontage)
        && base.cues == old(base.cues) && DashState() == old(DashState())
        && maxWalkSpeed == old(maxWalkSpeed) && maxAcceleration == old(maxAcceleration)
        && gravityScale == old(gravityScale)
      ensures !old(RefusesGrapple(distance)) ==>
        && inGrapplingAnimation && !base.upperBodyMontage && DashStopped()
        && base.cues == old(base.cues) + old(StopDashCues(falling))
             + [UseHook(currentHook.value.id),
                PlayMontage(if falling then AirGrappleMontage else GroundGrappleMontage)]
    {
      if base.possessing || base.notebookVisible {
        return;
      }
      if base.health.IsDead() || currentHook.None? {
        return;
      }
      if isGrappling || currentHook.value.kind != GRAPPABLE {
        return;
      }
      if distance > cfg.grappleThrowDistance {
        return;
      }
      UseHeldHook(falling, if falling then AirGrappleMontage else GroundGrappleMontage);
      inGrapplingAnimation := true;
    }

    /** The grapple starts moving the character: gravity off, stopped in place, falling mode. */
    method StartGrapplingMovement()
      modifies this`gravityScale, this`movingWithGrapple, base`cues
      ensures gravityScale == 0.0 && movingWithGrapple
      ensures base.cues == old(base.cues) + [StopMovementImmediately, FallingMode]
    {
      gravityScale := 0.0;
      base.cues := base.cues + [StopMovementImmediately, FallingMode];
      movingWithGrapple := true;
    }

    /** Ends the grapple: movement and animation flags cleared, gravity restored, rope hidden. */
    method ResetGrappleMovement()
      requires Valid()
      modifies this`movingWithGrapple, this`gravityScale, this`inGrapplingAnimation, base`cues
      ensures Valid()
      ensures !movingWithGrapple && !inGrapplingAnimation && gravityScale == initialGravityScale
      ensures base.cues == old(base.cues) + [RopeShown(false)]
    {
      movingWithGrapple := false;
      gravityScale := initialGravityScale;
      inGrapplingAnimation := false;
      base.cues := base.cues + [RopeShown(false)];
    }

    /** The guards of PullAction, in the order the source checks them. */
    predicate RefusesPull(falling: bool, distance: real)
      reads this, base, base.health
    {
      base.possessing || base.notebookVisible
      || base.health.IsDead() || currentHook.None?
      || (!cfg.canPullWhileFalling && falling)
      || isPulling || currentHook.value.kind != PULLABLE || pullActorRef.None?
      || distance > cfg.grappleThrowDistance
    }

    /**
     * Pull input: refused by RefusesPull; otherwise a running dash ends, the
     * point is used, the pull starts and its animation (air or ground) plays.
     */
    method PullAction(falling: bool, distance: real)
      requires Valid()
      modifies this`isPulling, base`upperBodyMontage, base`cues
      modifies this`isDashing, this`currentDashCooldown, this`maxWalkSpeed, this`maxAcceleration, this`gravityScale
      ensures Valid()
      ensures old(RefusesPull(falling, distance)) ==>
        && isPulling == old(isPulling) && base.upperBodyMontage == old(base.upperBodyMontage)
        && base.cues == old(base.cues) && DashState() == old(DashState())
        && maxWalkSpeed == old(maxWalkSpeed) && maxAcceleration == old(maxAcceleration)
        && gravityScale == old(gravityScale)
      ensures !old(RefusesPull(falling, distance)) ==>
        && isPulling && !base.upperBodyMontage && DashStopped()
        && base.cues == old(base.cues) + old(StopDashCues(falling))
             + [UseHook(currentHook.value.id),
                PlayMontage(if falling then AirPullMontage else GroundPullMontage)]
    {
      if base.possessing || base.notebookVisible {
        return;
      }
      if base.health.IsDead() || currentHook.None? {
        return;
      }
      if !cfg.canPullWhileFalling && falling {
        return;
      }
      if isPulling || currentHook.value.kind != PULLABLE || pullActorRef.None? {
        return;
      }
      if distance > cfg.grappleThrowDistance {
        return;
      }
      UseHeldHook(falling, if falling then AirPullMontage else GroundPullMontage);
      isPulling := true;
    }

    /**
     * The rope travels towards the pulled object; with `gap` the distance
     * still to cover, the object starts moving once the gap is below one
     * frame of pull speed.
     */
    method MovePullRope(dt: real, gap: real)
      modifies this`movingWithPull
      ensures movingWithPull == (old(movingWithPull) || (isPulling && gap < cfg.pullSpeed * dt))
    {
      if !isPulling || movingWithPull {
        return;
      }
      if gap < cfg.pullSpeed * dt {
        movingWithPull := true;
      }
    }

    /** SetThrowTarget: the throw target is the candidate the scan picks. */
    method SetThrowTarget(cands: seq<ThrowCandidate>)
      modifies this`throwTarget
      ensures throwTarget == ThrowPick(cands, cfg.minThrowTargetDot)
    {
      var best := HighestAbove(CandidateDots(cands), cfg.minThrowTargetDot);
      if best.None? {
        throwTarget := None;
      } else {
        throwTarget := Some(cands[best.value].actor);
      }
    }

    /** Ends the pull: no object, no throw target, normal animation, rope hidden. */
    method EndPull()
      requires Valid()
      modifies this`pullActorRef, this`throwTarget, this`movingWithPull, this`isPulling, base`cues
      ensures Valid()
      ensures pullActorRef.None? && throwTarget.None? && !movingWithPull && !isPulling
      ensures base.cues == old(base.cues) + EndPullCues()
    {
      pullActorRef := None;
      throwTarget := None;
      base.cues := base.cues + EndPullCues();
      movingWithPull := false;
      isPulling := false;
    }

    /**
     * Pull release (Hooks.ReleaseOutcome): without a pull nothing happens;
     * otherwise the object is thrown (at the throw target, if the scan
     * finds one) when it was moving fast enough and the camera turned far
     * enough, and in every case the pull ends.
     */
    method ResetPullMovement(r: PullRelease)
      requires Valid()
      modifies this`pullActorRef, this`throwTarget, this`movingWithPull, this`isPulling, base`cues
      ensures Valid()
      ensures old(ReleaseNow(r)) == NotPulling ==>
        && pullActorRef == old(pullActorRef) && throwTarget == old(throwTarget)
        && movingWithPull == old(movingWithPull) && isPulling == old(isPulling) && base.cues == old(base.cues)
      ensures old(ReleaseNow(r)) != NotPulling ==>
        && pullActorRef.None? && throwTarget.None? && !movingWithPull && !isPulling
        && base.cues == old(base.cues) + old(ReleaseCues(ReleaseNow(r)))
    {
      if !isPulling || pullActorRef.None? {
        return;
      }
      if movingWithPull {
        if r.speed <= cfg.throwCurrentVelocitySizeThreshold {
          EndPull();
          return;
        }
        if r.heading.Some? && r.heading.value < cfg.throwDotProductThreshold {
          EndPull();
          return;
        }
        SetThrowTarget(r.targets);
        base.cues := base.cues + [ThrowImpulse(pullActorRef.value, throwTarget)];
      }
      EndPull();
    }

    /**
     * One frame of a moving pull: a force towards the character is applied
     * to the object, and once it is within PullMinDistance of the hand
     * (`handGap`) the pull is released as ResetPullMovement decides.
     */
    method PullingMovement(handGap: real, r: PullRelease)
      requires Valid()
      modifies this`pullActorRef, this`throwTarget, this`movingWithPull, this`isPulling, base`cues
      ensures Valid()
      ensures !old(movingWithPull) ==>
        && pullActorRef == old(pullActorRef) && throwTarget == old(throwTarget)
        && movingWithPull == old(movingWithPull) && isPulling == old(isPulling) && base.cues == old(base.cues)
      ensures old(movingWithPull) && !(handGap < cfg.pullMinDistance) ==>
        && pullActorRef == old(pullActorRef) && throwTarget == old(throwTarget) && movingWithPull && isPulling
        && base.cues == old(base.cues) + [PullForce(old(pullActorRef).value)]
      ensures old(movingWithPull) && handGap < cfg.pullMinDistance ==>
        && pullActorRef.None? && throwTarget.None? && !movingWithPull && !isPulling
        && base.cues == old(base.cues) + [PullForce(old(pullActorRef).value)] + old(ReleaseCues(ReleaseNow(r)))
    {
      if !movingWithPull {
        return;
      }
      base.cues := base.cues + [PullForce(pullActorRef.value)];
      if handGap < cfg.pullMinDistance {
        ResetPullMovement(r);
        return;
      }
    }

    /** The guards of GrappleAttackAction, in the order the source checks them. */
    predicate RefusesGrappleAttack(distance: real)
      reads this, base, base.health
    {
      base.possessing || base.notebookVisible
      || base.health.IsDead() || currentHook.None?
      || currentGrappleAttackCooldown > 0.0
      || isGrappleAttacking || currentHook.value.kind != ENEMY
      || (base.inAttackAnimation && !base.canCombo)
      || distance > cfg.grappleThrowDistance
    }

    /**
     * Grapple-attack input: refused by RefusesGrappleAttack; otherwise the
     * attack is only queued, as a special attack of the combo.
     */
    method GrappleAttackAction(distance: real)
      requires Valid()
      modifies this`queuedGrappleAttack, base`queuedSpecialAttack, base`continueCombo, base`canCombo
      modifies base`endingCombo
      ensures Valid()
      ensures old(RefusesGrappleAttack(distance)) ==>
        && queuedGrappleAttack == old(queuedGrappleAttack)
        && base.queuedSpecialAttack == old(base.queuedSpecialAttack)
        && base.continueCombo == old(base.continueCombo) && base.canCombo == old(base.canCombo)
        && base.endingCombo == old(base.endingCombo)
      ensures !old(RefusesGrappleAttack(distance)) ==>
        && queuedGrappleAttack && base.queuedSpecialAttack
        && !base.continueCombo && !base.canCombo && !base.endingCombo
    {
      if base.possessing || base.notebookVisible {
        return;
      }
      if base.health.IsDead() || currentHook.None? {
        return;
      }
      if currentGrappleAttackCooldown > 0.0 {
        return;
      }
      if isGrappleAttacking || currentHook.value.kind != ENEMY {
        return;
      }
      if base.inAttackAnimation && !base.canCombo {
        return;
      }
      if distance > cfg.grappleThrowDistance {
        return;
      }
      queuedGrappleAttack := true;
      base.QueueSpecialAttack();
      base.endingCombo := false;
    }

    /**
     * BeginGrappleAttack's test on a frame without cooldown: a live
     * character holding a hook point, with the grapple attack queued and no
     * attack animation playing.
     */
    predicate LaunchesGrappleAttack()
      reads this, base, base.health
    {
      !(currentGrappleAttackCooldown > 0.0) && !base.health.IsDead()
      && currentHook.Some? && queuedGrappleAttack && !base.inAttackAnimation
    }

    /**
     * The per-frame start of the grapple attack: a positive cooldown only
     * runs down.  Otherwise, when LaunchesGrappleAttack holds, a running
     * dash ends, the point is used, the attack animation (air or ground)
     * plays, and the attack runs and is no longer queued; when it does not
     * hold, nothing happens.
     */
    method BeginGrappleAttack(dt: real, falling: bool)
      requires Valid()
      modifies this`currentGrappleAttackCooldown, this`isGrappleAttacking, this`queuedGrappleAttack
      modifies base`upperBodyMontage, base`cues
      modifies this`isDashing, this`currentDashCooldown, this`maxWalkSpeed, this`maxAcceleration, this`gravityScale
      ensures Valid()
      ensures currentGrappleAttackCooldown ==
        if old(currentGrappleAttackCooldown) > 0.0 then old(currentGrappleAttackCooldown) - dt
        else old(currentGrappleAttackCooldown)
      ensures !old(LaunchesGrappleAttack()) ==>
        && isGrappleAttacking == old(isGrappleAttacking) && queuedGrappleAttack == old(queuedGrappleAttack)
        && base.upperBodyMontage == old(base.upperBodyMontage) && base.cues == old(base.cues)
        && DashState() == old(DashState()) && maxWalkSpeed == old(maxWalkSpeed)
        && maxAcceleration == old(maxAcceleration) && gravityScale == old(gravityScale)
      ensures old(LaunchesGrappleAttack()) ==>
        && isGrappleAttacking && !queuedGrappleAttack && !base.upperBodyMontage && DashStopped()
        && base.cues == old(base.cues) + old(StopDashCues(falling))
             + [UseHook(currentHook.value.id),
                PlayMontage(if falling then AirGrappleAttackMontage else GroundGrappleAttackMontage)]
    {
      if currentGrappleAttackCooldown > 0.0 {
        currentGrappleAttackCooldown := currentGrappleAttackCooldown - dt;
        return;
      }
      if base.health.IsDead() || currentHook.None? {
        return;
      }
      if !queuedGrappleAttack || base.inAttackAnimation {
        return;
      }
      UseHeldHook(falling, if falling then AirGrappleAttackMontage else GroundGrappleAttackMontage);
      isGrappleAttacking := true;
      queuedGrappleAttack := false;
    }

    /** The grapple attack starts moving the character: gravity off, stopped in place, falling mode. */
    method StartGrapplingAttackMovement()
      modifies this`gravityScale, this`movingWithGrappleAttack, base`cues
      ensures gravityScale == 0.0 && movingWithGrappleAttack
      ensures base.cues == old(base.cues) + [StopMovementImmediately, FallingMode]
    {
      gravityScale := 0.0;
      base.cues := base.cues + [StopMovementImmediately, FallingMode];
      movingWithGrappleAttack := true;
    }

    /**
     * The grapple attack lands: with a target, an AEnemy takes GrappleDamage
     * and the attack streak grows by one (its timer is not restarted).
     */
    method DealGrappleAttackDamage()
      modifies base`cues, base`currentAttackString
      ensures grappleAttackTarget.None? ==>
        base.cues == old(base.cues) && base.currentAttackString == old(base.currentAttackString)
      ensures grappleAttackTarget.Some? ==>
        && base.currentAttackString == old(base.currentAttackString) + 1
        && base.cues == old(base.cues)
             + (if grappleAttackTarget.value.isEnemy
                then [DamageEnemy(grappleAttackTarget.value.id, cfg.grappleDamage)] else [])
    {
      if grappleAttackTarget.None? {
        return;
      }
      if grappleAttackTarget.value.isEnemy {
        base.cues := base.cues + [DamageEnemy(grappleAttackTarget.value.id, cfg.grappleDamage)];
      }
      base.currentAttackString := base.currentAttackString + 1;
    }

    /**
     * Ends the grapple attack: a running attack enters its cooldown; the
     * movement and attack flags and the queued special attack are cleared,
     * gravity is restored, the attack animation ends and the rope is hidden.
     * A queued grapple attack stays queued.
     */
    method ResetGrappleAttack()
      requires Valid()
      modifies this`currentGrappleAttackCooldown, this`movingWithGrappleAttack, this`gravityScale
      modifies this`isGrappleAttacking, base`queuedSpecialAttack
      modifies base`inAttackAnimation, base`canCombo, base`continueCombo, base`currentAttackString
      modifies base`currentCombo, base`currentAnimation, base`inCombo, base`endingCombo, base`cues
      ensures Valid()
      ensures currentGrappleAttackCooldown ==
        if old(isGrappleAttacking) then cfg.grappleAttackCooldown else old(currentGrappleAttackCooldown)
      ensures !movingWithGrappleAttack && !isGrappleAttacking && gravityScale == initialGravityScale
      ensures !base.queuedSpecialAttack && base.AttackEnded(false)
      ensures !old(base.continueCombo) ==>
        && !base.inAttackAnimation && !base.canCombo && !base.continueCombo && !base.inCombo
        && base.currentCombo == 0 && base.currentAnimation == 0
      ensures base.cues == old(base.cues) + old(base.EndAttackCues(false)) + [RopeShown(false)]
    {
      if isGrappleAttacking {
        currentGrappleAttackCooldown := cfg.grappleAttackCooldown;
      }
      movingWithGrappleAttack := false;
      gravityScale := initialGravityScale;
      isGrappleAttacking := false;
      base.queuedSpecialAttack := false;
      base.EndAttackAnimation();
      base.cues := base.cues + [RopeShown(false)];
    }

    /** The guards of DashAction, in the order the source checks them. */
    predicate RefusesDash()
      reads this, base, base.health
    {
      base.possessing || base.notebookVisible || base.health.IsDead()
      || currentDashCooldown > 0.0 || isDashing
    }

    /**
     * The first steps of DashAction on the player character: the
     * upper-body montage flag drops, the combo stops, the attack animation
     * ends (waiting for a queued special attack, which keeps the combo from
     * continuing) and the melee trigger is disabled.
     */
    method CancelCombo()
      requires Valid()
      modifies base`upperBodyMontage
      modifies base`inAttackAnimation, base`canCombo, base`continueCombo, base`currentAttackString
      modifies base`currentCombo, base`currentAnimation, base`inCombo, base`endingCombo, base`cues
      ensures Valid()
      ensures !base.upperBodyMontage && !base.inAttackAnimation && !base.canCombo && !base.continueCombo
      ensures !base.inCombo && base.currentCombo == 0 && base.currentAnimation == 0
      ensures base.endingCombo == old(base.endingCombo) && StreakAfterCancel()
      ensures base.cues == old(base.cues) + CancelComboCues(old(base.currentAnimation), base.queuedSpecialAttack)
    {
      base.EndUpperBodyMontage();
      base.StopCombo();
      base.EndAttackAnimation();
      base.EndAttack();
    }

    /**
     * Grapple, grapple attack and pull all end, as an accepted DashAction
     * ends them one after the other: the grapple stops, the grapple attack
     * enters its cooldown if it was running (ending the attack animation
     * with no special attack queued), and the pull ends without a throw.
     * TakeDamage ends them differently (ResetAbilities): it releases the
     * pull, which may throw, before ending the grapple attack.
     */
    method EndAbilities()
      requires Valid()
      modifies this`movingWithGrapple, this`inGrapplingAnimation, this`gravityScale
      modifies this`pullActorRef, this`throwTarget, this`movingWithPull, this`isPulling
      modifies this`currentGrappleAttackCooldown, this`movingWithGrappleAttack, this`isGrappleAttacking
      modifies base`queuedSpecialAttack
      modifies base`inAttackAnimation, base`canCombo, base`continueCombo, base`currentAttackString
      modifies base`currentCombo, base`currentAnimation, base`inCombo, base`endingCombo, base`cues
      ensures Valid()
      ensures !movingWithGrapple && !inGrapplingAnimation && gravityScale == initialGravityScale
      ensures !isGrappleAttacking && !movingWithGrappleAttack
      ensures currentGrappleAttackCooldown ==
        if old(isGrappleAttacking) then cfg.grappleAttackCooldown else old(currentGrappleAttackCooldown)
      ensures !isPulling && !movingWithPull && pullActorRef.None? && throwTarget.None?
      ensures !base.queuedSpecialAttack && !base.canCombo
      ensures base.AttackEnded(false)
      ensures !old(base.continueCombo) ==>
        && !base.inAttackAnimation && !base.canCombo && !base.continueCombo && !base.inCombo
        && base.currentCombo == 0 && base.currentAnimation == 0
      ensures base.cues == old(base.cues) + EndAbilitiesCues(old(base.EndAttackCues(false)))
    {
      ResetGrappleMovement();
      ResetGrappleAttack();
      EndPull();
    }

    /**
     * The cancelling half of an accepted dash: the combo and the attack
     * (CancelCombo), then the grapple, the grapple attack and the pull
     * (EndAbilities).
     */
    method CancelForDash()
      requires Valid()
      modifies this`movingWithGrapple, this`inGrapplingAnimation, this`gravityScale
      modifies this`pullActorRef, this`throwTarget, this`movingWithPull, this`isPulling
      modifies this`currentGrappleAttackCooldown, this`movingWithGrappleAttack, this`isGrappleAttacking
      modifies base`upperBodyMontage, base`queuedSpecialAttack
      modifies base`inAttackAnimation, base`canCombo, base`continueCombo, base`currentAttackString
      modifies base`currentCombo, base`currentAnimation, base`inCombo, base`endingCombo, base`cues
      ensures Valid()
      ensures !movingWithGrapple && !inGrapplingAnimation && !isGrappleAttacking && !movingWithGrappleAttack
      ensures currentGrappleAttackCooldown ==
        if old(isGrappleAttacking) then cfg.grappleAttackCooldown else old(currentGrappleAttackCooldown)
      ensures !isPulling && !movingWithPull && pullActorRef.None? && throwTarget.None?
      ensures !base.upperBodyMontage && !base.inAttackAnimation && !base.canCombo && !base.continueCombo
      ensures !base.inCombo && !base.queuedSpecialAttack && base.currentCombo == 0 && base.currentAnimation == 0
      ensures base.endingCombo == old(base.endingCombo) && StreakAfterCancel()
      ensures base.cues == old(base.cues) + CancelComboCues(old(base.currentAnimation), old(base.queuedSpecialAttack))
        + EndAbilitiesCues(base.StopComboCues(0))
    {
      CancelCombo();
      EndAbilities();
    }

    /**
     * The loading half of an accepted dash: the full distance budget, dash
     * speed and acceleration without gravity, the dash montage, and the
     * forward direction when none is held.
     */
    method LoadDash()
      requires Valid()
      modifies this`isDashing, this`currentDashDistance, this`maxWalkSpeed, this`maxAcceleration
      modifies this`gravityScale, this`dashInputX, base`cues
      ensures Valid()
      ensures DashState() == StartDash(old(DashState()), cfg.dashDistance)
      ensures maxWalkSpeed == cfg.dashSpeed && maxAcceleration == cfg.dashAcceleration && gravityScale == 0.0
      ensures dashInputX == if old(DirectionHeld()) then old(dashInputX) else 1.0
      ensures base.cues == old(base.cues) + [PlayMontage(DashAnimation)]
    {
      currentDashDistance := cfg.dashDistance;
      maxWalkSpeed := cfg.dashSpeed;
      maxAcceleration := cfg.dashAcceleration;
      gravityScale := 0.0;
      base.cues := base.cues + [PlayMontage(DashAnimation)];
      isDashing := true;
      if !DirectionHeld() {
        dashInputX := 1.0;
      }
    }

    /**
     * An accepted dash: every other action is cancelled (combo and attack,
     * grapple, grapple attack, pull), the full dash distance is loaded with
     * dash speed and acceleration and no gravity, the dash montage plays,
     * and with no direction held the dash goes forward.
     */
    method StartDashing()
      requires Valid() && !RefusesDash()
      modifies this`isDashing, this`currentDashDistance, this`maxWalkSpeed, this`maxAcceleration
      modifies this`gravityScale, this`movingWithGrapple, this`inGrapplingAnimation, this`dashInputX
      modifies this`pullActorRef, this`throwTarget, this`movingWithPull, this`isPulling
      modifies this`currentGrappleAttackCooldown, this`movingWithGrappleAttack, this`isGrappleAttacking
      modifies base`upperBodyMontage, base`queuedSpecialAttack
      modifies base`inAttackAnimation, base`canCombo, base`continueCombo, base`currentAttackString
      modifies base`currentCombo, base`currentAnimation, base`inCombo, base`endingCombo, base`cues
      ensures Valid() && DashStarted()
    {
      CancelForDash();
      LoadDash();
    }

    /**
     * Dash input: refused by RefusesDash, when nothing changes; otherwise
     * the dash starts (DashStarted).
     */
    method DashAction()
      requires Valid()
      modifies this`isDashing, this`currentDashDistance, this`maxWalkSpeed, this`maxAcceleration
      modifies this`gravityScale, this`movingWithGrapple, this`inGrapplingAnimation, this`dashInputX
      modifies this`pullActorRef, this`throwTarget, this`movingWithPull, this`isPulling
      modifies this`currentGrappleAttackCooldown, this`movingWithGrappleAttack, this`isGrappleAttacking
      modifies base`upperBodyMontage, base`queuedSpecialAttack
      modifies base`inAttackAnimation, base`canCombo, base`continueCombo, base`currentAttackString
      modifies base`currentCombo, base`currentAnimation, base`inCombo, base`endingCombo, base`cues
      ensures Valid()
      ensures old(RefusesDash()) ==> unchanged(this) && unchanged(base)
      ensures !old(RefusesDash()) ==> DashStarted()
    {
      if base.possessing || base.notebookVisible {
        return;
      }
      if base.health.IsDead() {
        return;
      }
      if currentDashCooldown > 0.0 {
        return;
      }
      if isDashing {
        return;
      }
      StartDashing();
    }

    /**
     * One dash frame with the engine's current max speed (Dashing.DashTick):
     * a positive cooldown runs down; a spent budget calls StopDash;
     * otherwise the character moves and the budget shrinks by
     * maxSpeed * dt.  Whether a dash is running is not checked.
     */
    method DashMovement(dt: real, maxSpeed: real, falling: bool)
      modifies this`isDashing, this`currentDashCooldown, this`currentDashDistance
      modifies this`maxWalkSpeed, this`maxAcceleration, this`gravityScale, base`cues
      ensures DashState() == DashTick(old(DashState()), dt, maxSpeed * dt, cfg.dashCooldown)
      ensures base.cues == old(base.cues)
        + (if old(Moves(DashState())) then [MovementInput]
           else if old(currentDashCooldown) > 0.0 then []
           else old(StopDashCues(falling)))
      ensures old(currentDashCooldown) > 0.0 || old(currentDashDistance) > 0.0 ==>
        && maxWalkSpeed == old(maxWalkSpeed) && maxAcceleration == old(maxAcceleration)
        && gravityScale == old(gravityScale)
      ensures !(old(currentDashCooldown) > 0.0) && !(old(currentDashDistance) > 0.0) ==> DashStopped()
    {
      if currentDashCooldown > 0.0 {
        currentDashCooldown := currentDashCooldown - dt;
        return;
      }
      if currentDashDistance <= 0.0 {
        StopDash(falling);
        return;
      }
      base.cues := base.cues + [MovementInput];
      currentDashDistance := currentDashDistance - maxSpeed * dt;
    }

    /**
     * The second half of ResetAbilities: the pull is released as
     * ResetPullMovement decides, then the grapple attack ends.
     */
    method ReleaseAndEndAttack(r: PullRelease)
      requires Valid()
      modifies this`gravityScale, this`pullActorRef, this`throwTarget, this`movingWithPull, this`isPulling
      modifies this`currentGrappleAttackCooldown, this`movingWithGrappleAttack, this`isGrappleAttacking
      modifies base`queuedSpecialAttack
      modifies base`inAttackAnimation, base`canCombo, base`continueCombo, base`currentAttackString
      modifies base`currentCombo, base`currentAnimation, base`inCombo, base`endingCombo, base`cues
      ensures Valid()
      ensures !isGrappleAttacking && !movingWithGrappleAttack && !isPulling && !movingWithPull
      ensures old(isPulling) ==> pullActorRef.None? && throwTarget.None?
      ensures !old(isPulling) ==> pullActorRef == old(pullActorRef) && throwTarget == old(throwTarget)
      ensures gravityScale == initialGravityScale
      ensures currentGrappleAttackCooldown ==
        if old(isGrappleAttacking) then cfg.grappleAttackCooldown else old(currentGrappleAttackCooldown)
      ensures !base.queuedSpecialAttack && base.AttackEnded(false)
      ensures base.cues == old(base.cues) + old(ReleaseCues(ReleaseNow(r)))
        + old(base.EndAttackCues(false)) + [RopeShown(false)]
    {
      ResetPullMovement(r);
      ResetGrappleAttack();
    }

    /**
     * What TakeDamage does after the player character has taken the hit:
     * the dash stops, the grapple ends, the pull is released as
     * ResetPullMovement decides, and the grapple attack ends (entering its
     * cooldown if it was running).
     */
    method ResetAbilities(falling: bool, r: PullRelease)
      requires Valid()
      modifies this`isDashing, this`currentDashCooldown, this`maxWalkSpeed, this`maxAcceleration
      modifies this`gravityScale, this`movingWithGrapple, this`inGrapplingAnimation
      modifies this`pullActorRef, this`throwTarget, this`movingWithPull, this`isPulling
      modifies this`currentGrappleAttackCooldown, this`movingWithGrappleAttack, this`isGrappleAttacking
      modifies base`queuedSpecialAttack
      modifies base`inAttackAnimation, base`canCombo, base`continueCombo, base`currentAttackString
      modifies base`currentCombo, base`currentAnimation, base`inCombo, base`endingCombo, base`cues
      ensures Valid()
      ensures !isDashing && !movingWithGrapple && !inGrapplingAnimation
      ensures !isGrappleAttacking && !movingWithGrappleAttack
      ensures !isPulling && !movingWithPull
      ensures old(isPulling) ==> pullActorRef.None? && throwTarget.None?
      ensures !old(isPulling) ==> pullActorRef == old(pullActorRef) && throwTarget == old(throwTarget)
      ensures gravityScale == initialGravityScale && DashEnded()
      ensures currentGrappleAttackCooldown ==
        if old(isGrappleAttacking) then cfg.grappleAttackCooldown else old(currentGrappleAttackCooldown)
      ensures !base.queuedSpecialAttack && base.AttackEnded(false)
      ensures base.cues == old(base.cues) + old(StopDashCues(falling)) + [RopeShown(false)]
        + old(ReleaseCues(ReleaseNow(r))) + old(base.EndAttackCues(false)) + [RopeShown(false)]
    {
      EndDashAndGrapple(falling);
      ReleaseAndEndAttack(r);
    }

    /** The first half of ResetAbilities: the dash stops, then the grapple ends. */
    method EndDashAndGrapple(falling: bool)
      requires Valid()
      modifies this`isDashing, this`currentDashCooldown, this`maxWalkSpeed, this`maxAcceleration
      modifies this`gravityScale, this`movingWithGrapple, this`inGrapplingAnimation, base`cues
      ensures Valid()
      ensures !isDashing && !movingWithGrapple && !inGrapplingAnimation
      ensures gravityScale == initialGravityScale && DashEnded()
      ensures base.cues == old(base.cues) + old(StopDashCues(falling)) + [RopeShown(false)]
    {
      StopDash(falling);
      ResetGrappleMovement();
    }

    /**
     * Damage taken: the player character takes it (a dead one ignores it),
     * and then, dead or not, every ability is reset (ResetAbilities) and
     * the rope is hidden.
     */
    method TakeDamage(amount: real, falling: bool, r: PullRelease)
      requires Valid()
      modifies this`isDashing, this`currentDashCooldown, this`maxWalkSpeed, this`maxAcceleration
      modifies this`gravityScale, this`movingWithGrapple, this`inGrapplingAnimation
      modifies this`pullActorRef, this`throwTarget, this`movingWithPull, this`isPulling
      modifies this`currentGrappleAttackCooldown, this`movingWithGrappleAttack, this`isGrappleAttacking
      modifies base`queuedSpecialAttack
      modifies base`inAttackAnimation, base`canCombo, base`continueCombo, base`currentAttackString
      modifies base`currentCombo, base`currentAnimation, base`inCombo, base`endingCombo, base`cues
      modifies base.health`currentHP
      ensures Valid()
      ensures base.health.currentHP ==
        if old(base.health.IsDead()) then old(base.health.currentHP)
        else AfterDamage(old(base.health.currentHP), base.health.maxHP, amount)
      ensures !isDashing && !movingWithGrapple && !inGrapplingAnimation
      ensures !isGrappleAttacking && !movingWithGrappleAttack
      ensures !isPulling && !movingWithPull
      ensures old(isPulling) ==> pullActorRef.None? && throwTarget.None?
      ensures !old(isPulling) ==> pullActorRef == old(pullActorRef) && throwTarget == old(throwTarget)
      ensures gravityScale == initialGravityScale && DashEnded()
      ensures currentGrappleAttackCooldown ==
        if old(isGrappleAttacking) then cfg.grappleAttackCooldown else old(currentGrappleAttackCooldown)
      ensures !base.queuedSpecialAttack && !base.canCombo
      ensures |base.cues| > 0 && base.cues[|base.cues| - 1] == RopeShown(false)
    {
      base.TakeDamage(amount);
      ResetAbilities(falling, r);
      base.cues := base.cues + [RopeShown(false)];
    }
  }
}
