/**
 * The health component of a player character: a current and a maximum
 * number of hit points, lowered by damage and raised by healing, both
 * clamped into [0, MaxHP].
 */
module Health {

  /** FMath::Abs on the amount given to TakeDamage and Heal. */
  function Abs(x: real): (r: real)
    ensures r >= 0.0
    ensures r == x || r == -x
  {
    if x < 0.0 then -x else x
  }

  /**
   * FMath::Clamp as the engine defines it: X < Min ? Min : (X < Max ? X : Max).
   * With Min <= Max the result lies in [Min, Max] and in-range values are kept.
   */
  function Clamp(x: real, lo: real, hi: real): (r: real)
    ensures lo <= hi ==> lo <= r <= hi
    ensures lo <= x <= hi ==> r == x
    ensures x < lo ==> r == lo
    ensures lo <= hi && hi <= x ==> r == hi
  {
    if x < lo then lo else if x < hi then x else hi
  }

  /** Hit points left after TakeDamage(amount) from `hp`. */
  function AfterDamage(hp: real, maxHP: real, amount: real): (r: real)
    ensures 0.0 <= maxHP ==> 0.0 <= r <= maxHP
    ensures 0.0 <= hp <= maxHP ==> r <= hp
    ensures 0.0 <= maxHP && Abs(amount) >= hp ==> r == 0.0
    ensures 0.0 <= hp - Abs(amount) && hp <= maxHP ==> r == hp - Abs(amount)
  {
    Clamp(hp - Abs(amount), 0.0, maxHP)
  }

  /** Hit points after Heal(amount) from `hp`. */
  function AfterHeal(hp: real, maxHP: real, amount: real): (r: real)
    ensures 0.0 <= maxHP ==> 0.0 <= r <= maxHP
    ensures 0.0 <= hp <= maxHP ==> hp <= r
    ensures 0.0 <= hp && hp + Abs(amount) <= maxHP ==> r == hp + Abs(amount)
    ensures 0.0 <= hp && maxHP <= hp + Abs(amount) ==> r == maxHP
  {
    Clamp(hp + Abs(amount), 0.0, maxHP)
  }

  /** A negative amount hurts exactly as much as its absolute value. */
  lemma DamageIgnoresSign(hp: real, maxHP: real, amount: real)
    ensures AfterDamage(hp, maxHP, -amount) == AfterDamage(hp, maxHP, amount)
    ensures AfterHeal(hp, maxHP, -amount) == AfterHeal(hp, maxHP, amount)
  {
  }

  /** A hit of smaller magnitude never leaves fewer hit points. */
  lemma LessDamageLeavesMore(hp: real, maxHP: real, smaller: real, larger: real)
    requires 0.0 <= maxHP && Abs(smaller) <= Abs(larger)
    ensures AfterDamage(hp, maxHP, smaller) >= AfterDamage(hp, maxHP, larger)
  {
  }

  class HealthComponent {
    var maxHP: real
    var currentHP: real

    /** Header defaults: MaxHP = 100, CurrentHP = 0 (BeginPlay fills it). */
    constructor (maxHP: real)
      ensures this.maxHP == maxHP && currentHP == 0.0
    {
      this.maxHP := maxHP;
      currentHP := 0.0;
    }

    /** The component starts the game at full health. */
    method BeginPlay()
      modifies this`currentHP
      ensures currentHP == maxHP
    {
      currentHP := maxHP;
    }

    method TakeDamage(amount: real)
      modifies this`currentHP
      ensures currentHP == AfterDamage(old(currentHP), maxHP, amount)
      ensures 0.0 <= maxHP && Abs(amount) >= old(currentHP) ==> currentHP == 0.0 && IsDead()
    {
      var a := Abs(amount);
      currentHP := currentHP - a;
      currentHP := Clamp(currentHP, 0.0, maxHP);
    }

    method Heal(amount: real)
      modifies this`currentHP
      ensures currentHP == AfterHeal(old(currentHP), maxHP, amount)
    {
      var a := Abs(amount);
      currentHP := currentHP + a;
      currentHP := Clamp(currentHP, 0.0, maxHP);
    }

    /** Dead means no hit points left (the comparison is <=, so exactly 0 is dead). */
    predicate IsDead()
      reads this
    {
      currentHP <= 0.0
    }

    /**
     * CurrentHP / MaxHP.  The source divides by whatever MaxHP holds; a
     * zero MaxHP, for which float division gives an infinity or NaN, is
     * outside the model.
     */
    function HPRatio(): (r: real)
      reads this
      requires maxHP != 0.0
      ensures r * maxHP == currentHP
      ensures 0.0 < maxHP && 0.0 <= currentHP <= maxHP ==> 0.0 <= r <= 1.0
    {
      currentHP / maxHP
    }
  }
}
