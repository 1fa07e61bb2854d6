/**
 * The duration -> cooldown cycle that the Berserker's two boosts,
 * life-steal and berserk, run through (TickLifeSteal and TickBerserkBoost
 * have the same shape), and the Damage save/restore that berserk adds.
 */
module Boosts {
  import Countdown

  /** A boost's flag (bUsingLifeSteal / bUsingBerserk) and its two timers. */
  datatype Boost = Boost(active: bool, duration: real, cooldown: real)

  /** UseBoost accepts the boost: not already running and not on cooldown. */
  predicate Ready(b: Boost)
  {
    !b.active && !(b.cooldown > 0.0)
  }

  /** UseBoost's effect on the timers: the full duration, and the boost runs. */
  function Activate(b: Boost, durationCfg: real): Boost
  {
    Boost(true, durationCfg, b.cooldown)
  }

  /** The tick on which a running boost's duration has run out. */
  predicate Expires(b: Boost)
  {
    b.active && !(b.duration > 0.0)
  }

  /**
   * One tick of a live character's boost: an idle boost whose cooldown has
   * gone negative is left alone; otherwise a positive duration runs down,
   * a running boost whose duration is spent ends and enters its configured
   * cooldown, and an ended boost runs its cooldown down.
   */
  function BoostTick(b: Boost, dt: real, cooldownCfg: real): (r: Boost)
    ensures r.active <==> b.active && b.duration > 0.0
    ensures b.active && b.duration > 0.0 ==> r.cooldown == b.cooldown && r.duration == b.duration - dt
    ensures Expires(b) ==> r.cooldown == cooldownCfg && r.duration == b.duration
    ensures !b.active && b.cooldown < 0.0 ==> r == b
  {
    if !b.active && b.cooldown < 0.0 then b
    else if b.duration > 0.0 then Boost(b.active, b.duration - dt, b.cooldown)
    else if b.active then Boost(false, b.duration, cooldownCfg)
    else Boost(b.active, b.duration, b.cooldown - dt)
  }

  /** The boost after n ticks of length dt. */
  function Ticks(b: Boost, dt: real, cooldownCfg: real, n: nat): Boost
  {
    if n == 0 then b else BoostTick(Ticks(b, dt, cooldownCfg, n - 1), dt, cooldownCfg)
  }

  /** Ticking m times and then n times is ticking m + n times. */
  lemma {:induction false} TicksAdd(b: Boost, dt: real, cooldownCfg: real, m: nat, n: nat)
    ensures Ticks(b, dt, cooldownCfg, m + n) == Ticks(Ticks(b, dt, cooldownCfg, m), dt, cooldownCfg, n)
  {
    if n > 0 {
      TicksAdd(b, dt, cooldownCfg, m, n - 1);
    }
  }

  /** While its duration lasts, a running boost stays on and only the duration runs down. */
  lemma {:induction false} ActivePhase(b: Boost, dt: real, cooldownCfg: real, n: nat)
    requires b.active && dt > 0.0
    requires n <= Countdown.Steps(b.duration, dt)
    ensures Ticks(b, dt, cooldownCfg, n) == Boost(true, Countdown.Left(b.duration, dt, n), b.cooldown)
  {
    if n > 0 {
      ActivePhase(b, dt, cooldownCfg, n - 1);
      Countdown.PositiveBefore(b.duration, dt, n - 1);
    }
  }

  /** After it ends, a boost only runs its cooldown down, until the cooldown is spent. */
  lemma {:induction false} CooldownPhase(b: Boost, dt: real, cooldownCfg: real, n: nat)
    requires !b.active && !(b.duration > 0.0) && dt > 0.0
    requires n <= Countdown.Steps(b.cooldown, dt)
    ensures Ticks(b, dt, cooldownCfg, n) == Boost(false, b.duration, Countdown.Left(b.cooldown, dt, n))
  {
    if n > 0 {
      CooldownPhase(b, dt, cooldownCfg, n - 1);
      Countdown.PositiveBefore(b.cooldown, dt, n - 1);
    }
  }

  /** A boost used when ready keeps running for the Steps(D, dt) ticks its duration D lasts. */
  lemma BoostRuns(b: Boost, durationCfg: real, cooldownCfg: real, dt: real, n: nat)
    requires Ready(b) && dt > 0.0 && n <= Countdown.Steps(durationCfg, dt)
    ensures Ticks(Activate(b, durationCfg), dt, cooldownCfg, n).active
  {
    ActivePhase(Activate(b, durationCfg), dt, cooldownCfg, n);
  }

  /** On the next tick it ends, with its cooldown set to the configured C. */
  lemma BoostEnds(b: Boost, durationCfg: real, cooldownCfg: real, dt: real)
    requires Ready(b) && dt > 0.0
    ensures var k := Countdown.Steps(durationCfg, dt);
      Ticks(Activate(b, durationCfg), dt, cooldownCfg, k + 1) == Boost(false, Countdown.Left(durationCfg, dt, k), cooldownCfg)
  {
    ActivePhase(Activate(b, durationCfg), dt, cooldownCfg, Countdown.Steps(durationCfg, dt));
    Countdown.SpentAfterSteps(durationCfg, dt);
  }

  /** For the Steps(C, dt) ticks after that, the cooldown is positive and UseBoost refuses the boost. */
  lemma BoostCooling(b: Boost, durationCfg: real, cooldownCfg: real, dt: real, j: nat)
    requires Ready(b) && dt > 0.0 && j < Countdown.Steps(cooldownCfg, dt)
    ensures var k := Countdown.Steps(durationCfg, dt);
      !Ready(Ticks(Activate(b, durationCfg), dt, cooldownCfg, k + 1 + j))
  {
    var a := Activate(b, durationCfg);
    var k := Countdown.Steps(durationCfg, dt);
    BoostEnds(b, durationCfg, cooldownCfg, dt);
    TicksAdd(a, dt, cooldownCfg, k + 1, j);
    Countdown.SpentAfterSteps(durationCfg, dt);
    CooldownPhase(Ticks(a, dt, cooldownCfg, k + 1), dt, cooldownCfg, j);
    Countdown.PositiveBefore(cooldownCfg, dt, j);
  }

  /** An ended boost is ready once its cooldown has been ticked down Steps(cooldown, dt) times. */
  lemma CooldownDone(e: Boost, dt: real, cooldownCfg: real)
    requires !e.active && !(e.duration > 0.0) && dt > 0.0
    ensures Ready(Ticks(e, dt, cooldownCfg, Countdown.Steps(e.cooldown, dt)))
  {
    CooldownPhase(e, dt, cooldownCfg, Countdown.Steps(e.cooldown, dt));
    Countdown.SpentAfterSteps(e.cooldown, dt);
  }

  /** Once those ticks are over, the boost can be used again. */
  lemma BoostReadyAgain(b: Boost, durationCfg: real, cooldownCfg: real, dt: real)
    requires Ready(b) && dt > 0.0
    ensures var k := Countdown.Steps(durationCfg, dt);
      Ready(Ticks(Activate(b, durationCfg), dt, cooldownCfg, k + 1 + Countdown.Steps(cooldownCfg, dt)))
  {
    var a := Activate(b, durationCfg);
    var k := Countdown.Steps(durationCfg, dt);
    BoostEnds(b, durationCfg, cooldownCfg, dt);
    var ended := Ticks(a, dt, cooldownCfg, k + 1);
    TicksAdd(a, dt, cooldownCfg, k + 1, Countdown.Steps(cooldownCfg, dt));
    Countdown.SpentAfterSteps(durationCfg, dt);
    CooldownDone(ended, dt, cooldownCfg);
  }

  /** The berserk boost together with the Damage it raises and the OriginalDamage it restores. */
  datatype Berserk = Berserk(timer: Boost, damage: real, original: real)

  /** UseBoost(BERSERK) once accepted: remember Damage, add the boost, start the timer. */
  function UseBerserk(s: Berserk, durationCfg: real, damageBoost: real): Berserk
  {
    Berserk(Activate(s.timer, durationCfg), s.damage + damageBoost, s.damage)
  }

  /** TickBerserkBoost for a live character: the boost tick, and on expiry Damage is restored. */
  function BerserkTick(s: Berserk, dt: real, cooldownCfg: real): (r: Berserk)
    ensures r.timer == BoostTick(s.timer, dt, cooldownCfg) && r.original == s.original
    ensures r.damage == if Expires(s.timer) then s.original else s.damage
  {
    Berserk(BoostTick(s.timer, dt, cooldownCfg), if Expires(s.timer) then s.original else s.damage, s.original)
  }

  /** The berserk state after n ticks. */
  function BerserkTicks(s: Berserk, dt: real, cooldownCfg: real, n: nat): Berserk
  {
    if n == 0 then s else BerserkTick(BerserkTicks(s, dt, cooldownCfg, n - 1), dt, cooldownCfg)
  }

  /** The berserk timer ticks exactly like any boost, and OriginalDamage is never touched. */
  lemma {:induction false} BerserkTimer(s: Berserk, dt: real, cooldownCfg: real, n: nat)
    ensures BerserkTicks(s, dt, cooldownCfg, n).timer == Ticks(s.timer, dt, cooldownCfg, n)
    ensures BerserkTicks(s, dt, cooldownCfg, n).original == s.original
  {
    if n > 0 {
      BerserkTimer(s, dt, cooldownCfg, n - 1);
    }
  }

  /** While berserk runs, Damage stays boosted. */
  lemma {:induction false} BerserkBoosted(s: Berserk, durationCfg: real, damageBoost: real, cooldownCfg: real, dt: real, n: nat)
    requires dt > 0.0 && n <= Countdown.Steps(durationCfg, dt)
    ensures BerserkTicks(UseBerserk(s, durationCfg, damageBoost), dt, cooldownCfg, n).damage == s.damage + damageBoost
  {
    if n > 0 {
      var a := UseBerserk(s, durationCfg, damageBoost);
      BerserkBoosted(s, durationCfg, damageBoost, cooldownCfg, dt, n - 1);
      BerserkTimer(a, dt, cooldownCfg, n - 1);
      ActivePhase(a.timer, dt, cooldownCfg, n - 1);
      Countdown.PositiveBefore(durationCfg, dt, n - 1);
    }
  }

  /**
   * Berserk round-trips Damage: boosted by DamageBoost from UseBoost until
   * the boost ends, and back to exactly its old value on the tick it ends.
   */
  lemma BerserkRoundTrip(s: Berserk, durationCfg: real, damageBoost: real, cooldownCfg: real, dt: real)
    requires dt > 0.0
    ensures var a := UseBerserk(s, durationCfg, damageBoost);
      var k := Countdown.Steps(durationCfg, dt);
      && BerserkTicks(a, dt, cooldownCfg, k).damage == s.damage + damageBoost
      && BerserkTicks(a, dt, cooldownCfg, k + 1).damage == s.damage
      && !BerserkTicks(a, dt, cooldownCfg, k + 1).timer.active
  {
    var a := UseBerserk(s, durationCfg, damageBoost);
    var k := Countdown.Steps(durationCfg, dt);
    BerserkBoosted(s, durationCfg, damageBoost, cooldownCfg, dt, k);
    BerserkTimer(a, dt, cooldownCfg, k);
    ActivePhase(a.timer, dt, cooldownCfg, k);
    Countdown.SpentAfterSteps(durationCfg, dt);
  }
}
