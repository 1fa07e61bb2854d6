/**
 * APlayerCharacter: the melee combo state machine, the attack streak, the
 * interactable in reach and the notebook flag that the two playable
 * characters share.  Engine queries (is the character falling, what is
 * overlapping) arrive as parameters; calls into the engine are appended to
 * `cues`.
 */
module Player {
  import opened Optional
  import opened World
  import opened Health
  import opened Combo

  /** The editable melee settings (header defaults in DefaultMelee). */
  datatype MeleeConfig = MeleeConfig(
    montageCount: nat,              // AttackMontages.Num()
    limitedCombo: bool,             // bLimitedCombo
    meleeAnimationStopSpeed: real,  // MeleeAnimationStopSpeed
    timeToStopAttackStreak: real)   // timeToStopAttackStreak

  /** bLimitedCombo = false, MeleeAnimationStopSpeed = 0.5, timeToStopAttackStreak = 1.0. */
  function DefaultMelee(montageCount: nat): MeleeConfig
  {
    MeleeConfig(montageCount, false, 0.5, 1.0)
  }

  /** The first interactable component in `parts`, if any. */
  function FirstInteractable(parts: seq<Part>): (r: Option<ObjectId>)
    ensures r.None? <==> forall j :: 0 <= j < |parts| ==> !parts[j].interactable
    ensures r.Some? ==> exists j :: (0 <= j < |parts| && parts[j].interactable && parts[j].id == r.value
                                     && forall i :: 0 <= i < j ==> !parts[i].interactable)
  {
    if |parts| == 0 then None
    else if parts[0].interactable then Some(parts[0].id)
    else
      var r := FirstInteractable(parts[1..]);
      assert forall j :: 1 <= j < |parts| ==> parts[1..][j - 1] == parts[j];
      if r.Some? then
        var k :| 0 <= k < |parts[1..]| && parts[1..][k].interactable && parts[1..][k].id == r.value
          && forall i :: 0 <= i < k ==> !parts[1..][i].interactable;
        assert parts[k + 1].interactable && parts[k + 1].id == r.value;
        assert forall i :: 0 <= i < k + 1 ==> !parts[i].interactable;
        r
      else r
  }

  /**
   * The interactable that OnInteractionBoxBeginOverlap picks from an actor:
   * the actor itself when it implements the interface, else its first
   * component that does.
   */
  function InteractableIn(a: Actor): (r: Option<ObjectId>)
    ensures r.None? <==> !a.interactable && forall j :: 0 <= j < |a.parts| ==> !a.parts[j].interactable
    ensures r.Some? ==> Leaves(a, r.value)
  {
    if a.interactable then Some(a.id) else FirstInteractable(a.parts)
  }

  /** `obj` is the actor, or one of its interactable components, that leaves the box. */
  predicate Leaves(a: Actor, obj: ObjectId)
  {
    (a.interactable && a.id == obj)
    || exists j :: 0 <= j < |a.parts| && a.parts[j].interactable && a.parts[j].id == obj
  }

  /** One DisableInteractable call per interactable part, in component order. */
  function DisableCues(parts: seq<Part>): (r: seq<Cue>)
    ensures |r| <= |parts|
  {
    if |parts| == 0 then []
    else
      var last := parts[|parts| - 1];
      DisableCues(parts[..|parts| - 1]) + (if last.interactable then [DisableInteractable(last.id)] else [])
  }

  /** The calls are exactly those for the interactable parts: each one gets its call, and no other part does. */
  lemma {:induction false} DisableCuesCover(parts: seq<Part>)
    ensures forall i :: 0 <= i < |parts| && parts[i].interactable ==> DisableInteractable(parts[i].id) in DisableCues(parts)
    ensures forall c :: c in DisableCues(parts) ==>
      exists i :: 0 <= i < |parts| && parts[i].interactable && c == DisableInteractable(parts[i].id)
  {
    if |parts| > 0 {
      var init := parts[..|parts| - 1];
      DisableCuesCover(init);
      assert forall i :: 0 <= i < |init| ==> init[i] == parts[i];
    }
  }

  class PlayerCharacter {
    const id: ObjectId
    const health: HealthComponent
    const cfg: MeleeConfig

    var damage: real                 // Damage
    var inAttackAnimation: bool      // bInAttackAnimation
    var canCombo: bool               // bCanCombo
    var continueCombo: bool          // bContinueCombo
    var queuedSpecialAttack: bool    // bQueuedSpecialAttack
    var inCombo: bool                // bInCombo
    var endingCombo: bool            // bEndingCombo
    var currentCombo: int            // CurrentCombo
    var currentAnimation: int        // CurrentAnimation
    var currentAttackString: int     // CurrentAttackString
    var streakTimer: real            // currentTimeToStopAttackStreak
    var upperBodyMontage: bool       // bUpperBodyMontage
    var possessed: bool              // bPossessed
    var possessing: bool             // bPossessing
    var possessTarget: Option<ObjectId>
    var notebookVisible: bool        // bIsNotebookVisible
    var currentInteractable: Option<ObjectId>
    var cues: seq<Cue>

    /**
     * The montage index always names a montage (or is 0 when there are
     * none), and the continue flag is only ever raised when there are
     * montages, so ContinueCombo never takes a remainder by zero.
     */
    ghost predicate Valid()
      reads this
    {
      0 <= currentAnimation
      && (currentAnimation < cfg.montageCount || currentAnimation == 0)
      && (continueCombo ==> cfg.montageCount > 0)
    }

    /** The attack streak as a value. */
    function AttackStreak(): Streak
      reads this
    {
      Streak(currentAttackString, streakTimer)
    }

    /** A limited combo that has reached its last montage. */
    predicate AtComboLimit()
      reads this
    {
      AtLimit(cfg.limitedCombo, currentAnimation, cfg.montageCount)
    }

    /** What EndAttackAnimation would do now, with `queued` as the special-attack flag. */
    function EndOutcome(queued: bool): AttackEnd
      reads this
    {
      EndOfAttack(cfg.limitedCombo, currentAnimation, cfg.montageCount, continueCombo, queued)
    }

    /** The PlayAttackMontage call for `index`, which only reaches the engine for a valid index. */
    function PlayCues(index: int): seq<Cue>
    {
      if 0 <= index < cfg.montageCount then [PlayAttack(index)] else []
    }

    /** The StopAttackMontage call for `index`, likewise. */
    function StopCues(index: int, stopTime: real): seq<Cue>
    {
      if 0 <= index < cfg.montageCount then [StopAttack(index, stopTime)] else []
    }

    /** The calls StopCombo makes when the combo is at montage `index`. */
    function StopComboCues(index: int): seq<Cue>
    {
      StopCues(index, cfg.meleeAnimationStopSpeed) + [MeleeCollision(false)]
    }

    /** The calls EndAttackAnimation makes from the current state with `queued` as the special-attack flag. */
    function EndAttackCues(queued: bool): seq<Cue>
      reads this
      requires Valid()
    {
      match EndOutcome(queued)
      case AwaitSpecial => []
      case Continue => PlayCues(NextAnimation(currentAnimation, cfg.montageCount))
      case Stop => StopComboCues(currentAnimation)
    }

    /**
     * The combo fields after EndAttackAnimation ran from the old state with
     * `queued` as the special-attack flag: in-attack and can-combo are
     * cleared, a limited combo at its last montage drops the continue flag
     * and the streak, and then the combo waits for the special attack,
     * continues with the next montage, or stops.
     */
    twostate predicate AttackEnded(queued: bool)
      reads this
      requires old(Valid())
    {
      var outcome := old(EndOutcome(queued));
      var atLimit := old(AtComboLimit());
      && !canCombo
      && (inAttackAnimation <==> outcome == Continue)
      && currentAttackString == (if atLimit then 0 else old(currentAttackString))
      && (outcome == AwaitSpecial ==>
            && continueCombo == (old(continueCombo) && !atLimit)
            && currentCombo == old(currentCombo) && currentAnimation == old(currentAnimation)
            && inCombo == old(inCombo) && endingCombo == old(endingCombo))
      && (outcome == Continue ==>
            && currentAnimation == NextAnimation(old(currentAnimation), cfg.montageCount)
            && currentCombo == old(currentCombo) + 1
            && inCombo && !continueCombo && !endingCombo)
      && (outcome == Stop ==>
            && currentCombo == 0 && currentAnimation == 0
            && !continueCombo && !inCombo && endingCombo == old(endingCombo))
    }

    /**
     * The guards at the top of MeleeAttackAction: possessing, notebook
     * open, dead, no attack montages, or mid-attack outside the combo window.
     */
    predicate RefusesAttack()
      reads this, health
    {
      possessing || notebookVisible || health.IsDead() || cfg.montageCount == 0
      || (inAttackAnimation && !canCombo)
    }

    /**
     * A freshly spawned character after BeginPlay: the header defaults
     * (Damage = 25 by default), full health, notebook hidden.
     */
    constructor (id: ObjectId, cfg: MeleeConfig, damage: real, maxHP: real, possessed: bool)
      ensures Valid() && fresh(health)
      ensures this.id == id && this.cfg == cfg && this.damage == damage
      ensures health.maxHP == maxHP && health.currentHP == maxHP
      ensures !inAttackAnimation && !canCombo && !continueCombo && !queuedSpecialAttack
      ensures !inCombo && !endingCombo && !upperBodyMontage
      ensures currentCombo == 0 && currentAnimation == 0 && currentAttackString == 0 && streakTimer == 0.0
      ensures this.possessed == possessed && !possessing && possessTarget.None?
      ensures !notebookVisible && currentInteractable.None?
      ensures cues == [NotebookShown(false)]
    {
      this.id := id;
      this.cfg := cfg;
      this.damage := damage;
      health := new HealthComponent(maxHP);
      inAttackAnimation := false;
      canCombo := false;
      continueCombo := false;
      queuedSpecialAttack := false;
      inCombo := false;
      endingCombo := false;
      currentCombo := 0;
      currentAnimation := 0;
      currentAttackString := 0;
      streakTimer := 0.0;
      upperBodyMontage := false;
      this.possessed := possessed;
      possessing := false;
      possessTarget := None;
      notebookVisible := false;
      currentInteractable := None;
      cues := [NotebookShown(false)];
      new;
      health.BeginPlay();
    }

    method EndUpperBodyMontage()
      modifies this`upperBodyMontage
      ensures !upperBodyMontage
    {
      upperBodyMontage := false;
    }

    method SetCanCombo(b: bool)
      modifies this`canCombo
      ensures canCombo == b
    {
      canCombo := b;
    }

    /** Enables the melee trigger box (QueryOnly collision). */
    method BeginAttack()
      modifies this`cues
      ensures cues == old(cues) + [MeleeCollision(true)]
    {
      cues := cues + [MeleeCollision(true)];
    }

    /** Disables the melee trigger box. */
    method EndAttack()
      modifies this`cues
      ensures cues == old(cues) + [MeleeCollision(false)]
    {
      cues := cues + [MeleeCollision(false)];
    }

    /** Plays attack montage `index`; an index past the end of the array is ignored. */
    method PlayAttackMontage(index: nat)
      modifies this`cues
      ensures cues == old(cues) + PlayCues(index)
    {
      if cfg.montageCount <= index {
        return;
      }
      cues := cues + [PlayAttack(index)];
    }

    /** Stops attack montage `index` with the given blend-out; an index past the end is ignored. */
    method StopAttackMontage(index: nat, stopTime: real)
      modifies this`cues
      ensures cues == old(cues) + StopCues(index, stopTime)
    {
      if cfg.montageCount <= index {
        return;
      }
      cues := cues + [StopAttack(index, stopTime)];
    }

    /** Arms a special attack to start once the current attack animation ends. */
    method QueueSpecialAttack()
      requires Valid()
      modifies this`queuedSpecialAttack, this`continueCombo, this`canCombo
      ensures Valid()
      ensures queuedSpecialAttack && !continueCombo && !canCombo
    {
      queuedSpecialAttack := true;
      continueCombo := false;
      SetCanCombo(false);
    }

    /** Moves on to the next attack montage, wrapping after the last. */
    method ContinueCombo()
      requires Valid() && cfg.montageCount > 0
      modifies this`inCombo, this`currentCombo, this`currentAnimation, this`cues
      modifies this`continueCombo, this`endingCombo, this`inAttackAnimation
      ensures Valid()
      ensures currentAnimation == NextAnimation(old(currentAnimation), cfg.montageCount)
      ensures currentCombo == old(currentCombo) + 1
      ensures cues == old(cues) + [PlayAttack(currentAnimation)]
      ensures inCombo && inAttackAnimation && !continueCombo && !endingCombo
    {
      inCombo := true;
      currentCombo := currentCombo + 1;
      currentAnimation := currentAnimation + 1;
      currentAnimation := currentAnimation % cfg.montageCount;
      PlayAttackMontage(currentAnimation);
      continueCombo := false;
      endingCombo := false;
      inAttackAnimation := true;
    }

    /** Stops the current attack montage and resets the combo. */
    method StopCombo()
      requires Valid()
      modifies this`cues, this`currentCombo, this`currentAnimation
      modifies this`continueCombo, this`inCombo, this`canCombo
      ensures Valid()
      ensures cues == old(cues) + StopComboCues(old(currentAnimation))
      ensures currentCombo == 0 && currentAnimation == 0
      ensures !continueCombo && !inCombo && !canCombo
    {
      StopAttackMontage(currentAnimation, cfg.meleeAnimationStopSpeed);
      currentCombo := 0;
      currentAnimation := 0;
      continueCombo := false;
      inCombo := false;
      SetCanCombo(false);
      EndAttack();
    }

    /**
     * Called at the end of each attack animation: decides between waiting
     * for a queued special attack, continuing the combo and stopping it.
     */
    method EndAttackAnimation()
      requires Valid()
      modifies this`inAttackAnimation, this`canCombo, this`continueCombo, this`currentAttackString
      modifies this`currentCombo, this`currentAnimation, this`inCombo, this`endingCombo, this`cues
      ensures Valid()
      ensures AttackEnded(queuedSpecialAttack)
      ensures cues == old(cues) + old(EndAttackCues(queuedSpecialAttack))
    {
      inAttackAnimation := false;
      SetCanCombo(false);
      if cfg.limitedCombo && currentAnimation >= cfg.montageCount - 1 {
        continueCombo := false;
        currentAttackString := 0;
      }
      if queuedSpecialAttack {
        return;
      }
      if continueCombo {
        ContinueCombo();
        return;
      }
      StopCombo();
    }

    /**
     * Melee input.  Refused outright by RefusesAttack; inside the combo
     * window it raises the continue flag; a new attack (montage 0) starts
     * only when no attack is running, no special attack is queued and the
     * character is on the ground.
     */
    method MeleeAttackAction(falling: bool)
      requires Valid()
      modifies this`continueCombo, this`upperBodyMontage, this`inAttackAnimation
      modifies this`inCombo, this`currentAttackString, this`cues
      ensures Valid()
      ensures old(RefusesAttack()) ==>
        && continueCombo == old(continueCombo) && upperBodyMontage == old(upperBodyMontage)
        && inAttackAnimation == old(inAttackAnimation) && inCombo == old(inCombo)
        && currentAttackString == old(currentAttackString) && cues == old(cues)
      ensures !old(RefusesAttack()) ==> continueCombo == (old(continueCombo) || canCombo)
      ensures !old(RefusesAttack()) && !queuedSpecialAttack && !falling && !old(inAttackAnimation) ==>
        && !upperBodyMontage && inAttackAnimation && inCombo && currentAttackString == 0
        && cues == old(cues) + [PlayAttack(0)]
      ensures old(RefusesAttack()) || queuedSpecialAttack || falling || old(inAttackAnimation) ==>
        && upperBodyMontage == old(upperBodyMontage) && inAttackAnimation == old(inAttackAnimation)
        && inCombo == old(inCombo) && currentAttackString == old(currentAttackString)
        && cues == old(cues)
    {
      if possessing || notebookVisible {
        return;
      }
      if health.IsDead() {
        return;
      }
      if cfg.montageCount <= 0 {
        return;
      }
      if inAttackAnimation && !canCombo {
        return;
      }
      if canCombo {
        continueCombo := true;
      }
      if queuedSpecialAttack {
        return;
      }
      if falling {
        return;
      }
      if !inAttackAnimation {
        EndUpperBodyMontage();
        inAttackAnimation := true;
        PlayAttackMontage(0);
        inCombo := true;
        currentAttackString := 0;
      }
    }

    /**
     * Per-frame decay of the attack streak outside a combo (the rule is
     * Combo.StreakTick; Combo.StreakLifetime says how long a streak lasts).
     */
    method TickStopAttackStreak(dt: real)
      modifies this`currentAttackString, this`streakTimer
      ensures AttackStreak() == StreakTick(old(AttackStreak()), inCombo, dt)
    {
      if currentAttackString <= 0 || inCombo {
        return;
      }
      if streakTimer > 0.0 {
        streakTimer := streakTimer - dt;
        return;
      }
      currentAttackString := 0;
    }

    /** The melee box overlaps an actor that is tagged Enemy and really is an enemy. */
    predicate MeleeHits(other: Option<Actor>)
    {
      other.Some? && other.value.id != id && other.value.enemyTag && other.value.isEnemy
    }

    /**
     * Melee box overlap: an enemy takes Damage, the streak grows by exactly
     * one and its idle timer restarts; anything else changes nothing.
     */
    method OnMeleeBoxBeginOverlap(other: Option<Actor>)
      modifies this`cues, this`currentAttackString, this`streakTimer
      ensures MeleeHits(other) ==>
        && cues == old(cues) + [DamageEnemy(other.value.id, damage)]
        && currentAttackString == old(currentAttackString) + 1
        && streakTimer == cfg.timeToStopAttackStreak
      ensures !MeleeHits(other) ==>
        cues == old(cues) && AttackStreak() == old(AttackStreak())
    {
      if other.None? || other.value.id == id {
        return;
      }
      var actor := other.value;
      if actor.enemyTag {
        if !actor.isEnemy {
          return;
        }
        cues := cues + [DamageEnemy(actor.id, damage)];
        currentAttackString := currentAttackString + 1;
        streakTimer := cfg.timeToStopAttackStreak;
      }
    }

    /**
     * Damage taken by the character.  A dead character ignores it.
     * Otherwise the attack ends (EndAttackAnimation, which may still
     * continue the combo), the trigger is disabled, all montages stop, the
     * health component takes the damage, and then either the hit montage
     * plays or, on death, the inventory and notebook widgets are hidden.
     * bIsNotebookVisible itself is left as it was.
     */
    method TakeDamage(amount: real)
      requires Valid()
      modifies this`inAttackAnimation, this`canCombo, this`continueCombo, this`currentAttackString
      modifies this`currentCombo, this`currentAnimation, this`inCombo, this`endingCombo, this`cues
      modifies health`currentHP
      ensures Valid()
      ensures old(health.IsDead()) ==>
        && health.currentHP == old(health.currentHP) && cues == old(cues)
        && inAttackAnimation == old(inAttackAnimation) && canCombo == old(canCombo)
        && continueCombo == old(continueCombo) && currentAttackString == old(currentAttackString)
        && currentCombo == old(currentCombo) && currentAnimation == old(currentAnimation)
        && inCombo == old(inCombo) && endingCombo == old(endingCombo)
      ensures !old(health.IsDead()) ==>
        && health.currentHP == AfterDamage(old(health.currentHP), health.maxHP, amount)
        && AttackEnded(queuedSpecialAttack)
        && cues == old(cues) + old(EndAttackCues(queuedSpecialAttack))
                  + [MeleeCollision(false), StopAllMontages(0.0)]
                  + (if health.IsDead() then [InventoryShown(false), NotebookShown(false)] else [PlayMontage(HitMontage)])
    {
      if health.IsDead() {
        return;
      }
      EndAttackAnimation();
      EndAttack();
      cues := cues + [StopAllMontages(0.0)];
      health.TakeDamage(amount);
      if !health.IsDead() {
        cues := cues + [PlayMontage(HitMontage)];
      } else {
        cues := cues + [InventoryShown(false), NotebookShown(false)];
      }
    }

    /** Starts the camera move towards another character to possess it. */
    method StartPossession(target: ObjectId)
      modifies this`possessTarget, this`possessing
      ensures possessTarget == Some(target) && possessing
    {
      possessTarget := Some(target);
      possessing := true;
    }

    /**
     * Offers a new interactable.  With none held it becomes current and is
     * enabled.  With one held nothing changes: the distance comparison that
     * would replace it measures the candidate against itself.
     */
    method CheckCurrentInteractable(obj: ObjectId)
      modifies this`currentInteractable, this`cues
      ensures old(currentInteractable).None? ==>
        currentInteractable == Some(obj) && cues == old(cues) + [EnableInteractable(obj)]
      ensures old(currentInteractable).Some? ==>
        currentInteractable == old(currentInteractable) && cues == old(cues)
    {
      if currentInteractable.None? {
        currentInteractable := Some(obj);
        cues := cues + [EnableInteractable(obj)];
        return;
      }
    }

    /** The interaction box is not tracking: not the player's avatar, mid-possession, or its own actor. */
    predicate IgnoresInteraction(other: Actor)
      reads this
    {
      !possessed || possessing || other.id == id
    }

    /**
     * An actor enters the interaction box: the actor itself, or else its
     * first interactable component, is offered to CheckCurrentInteractable.
     */
    method OnInteractionBoxBeginOverlap(other: Actor)
      modifies this`currentInteractable, this`cues
      ensures var offered := InteractableIn(other);
        if !old(IgnoresInteraction(other)) && offered.Some? && old(currentInteractable).None? then
          currentInteractable == offered && cues == old(cues) + [EnableInteractable(offered.value)]
        else
          currentInteractable == old(currentInteractable) && cues == old(cues)
    {
      if !possessed || possessing {
        return;
      }
      if other.id == id {
        return;
      }
      if other.interactable {
        CheckCurrentInteractable(other.id);
        return;
      }
      var i := 0;
      while i < |other.parts|
        invariant 0 <= i <= |other.parts|
        invariant FirstInteractable(other.parts) == FirstInteractable(other.parts[i..])
        invariant currentInteractable == old(currentInteractable) && cues == old(cues)
      {
        if other.parts[i].interactable {
          CheckCurrentInteractable(other.parts[i].id);
          return;
        }
        assert other.parts[i..][1..] == other.parts[i + 1..];
        i := i + 1;
      }
    }

    /**
     * An actor leaves the interaction box: the actor, if interactable, and
     * every interactable component are disabled, and the current
     * interactable is cleared exactly when it is one of them.
     */
    method OnInterationBoxOverlapEnd(other: Actor)
      modifies this`currentInteractable, this`cues
      ensures old(IgnoresInteraction(other)) ==>
        currentInteractable == old(currentInteractable) && cues == old(cues)
      ensures !old(IgnoresInteraction(other)) ==>
        && cues == old(cues) + (if other.interactable then [DisableInteractable(other.id)] else [])
                  + DisableCues(other.parts)
        && currentInteractable ==
             if old(currentInteractable).Some? && Leaves(other, old(currentInteractable).value)
             then None else old(currentInteractable)
    {
      if !possessed || possessing {
        return;
      }
      if other.id == id {
        return;
      }
      if other.interactable {
        cues := cues + [DisableInteractable(other.id)];
        if currentInteractable == Some(other.id) {
          currentInteractable := None;
        }
      }
      var held := currentInteractable;
      var logged := cues;
      var i := 0;
      while i < |other.parts|
        invariant 0 <= i <= |other.parts|
        invariant cues == logged + DisableCues(other.parts[..i])
        invariant currentInteractable ==
          if held.Some? && exists j :: 0 <= j < i && other.parts[j].interactable && other.parts[j].id == held.value
          then None else held
      {
        var part := other.parts[i];
        assert other.parts[..i + 1][..i] == other.parts[..i];
        if part.interactable {
          cues := cues + [DisableInteractable(part.id)];
          if currentInteractable == Some(part.id) {
            currentInteractable := None;
          }
        }
        i := i + 1;
      }
      assert other.parts[..i] == other.parts;
    }

    /** The notebook input toggles the notebook flag and shows or hides the widget to match. */
    method TickNotebookVisibility()
      modifies this`notebookVisible, this`cues
      ensures notebookVisible == !old(notebookVisible)
      ensures cues == old(cues) + [NotebookShown(notebookVisible)]
    {
      notebookVisible := !notebookVisible;
      cues := cues + [NotebookShown(notebookVisible)];
    }
  }
}
