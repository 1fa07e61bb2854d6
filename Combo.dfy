/**
 * The value-level rules behind the melee combo of APlayerCharacter: which
 * montage index comes next, when a limited combo refuses to go on, what
 * EndAttackAnimation decides, and how the attack streak decays while the
 * character is out of combat.  The PlayerCharacter class applies these
 * rules to its fields; the lemmas here state what they add up to over
 * several calls.
 */
module Combo {
  import Countdown

  /**
   * CurrentAnimation after ContinueCombo: one past the old index, wrapping
   * to the first montage after the last one.
   */
  function NextAnimation(current: int, count: int): (r: int)
    requires count > 0 && 0 <= current < count
    ensures 0 <= r < count
    ensures current + 1 < count ==> r == current + 1
    ensures current + 1 == count ==> r == 0
  {
    (current + 1) % count
  }

  /** The montage index after `k` continued attacks of a combo that started at 0. */
  function AnimationAfter(count: int, k: nat): (r: int)
    requires count > 0
    ensures 0 <= r < count
  {
    if k == 0 then 0 else NextAnimation(AnimationAfter(count, k - 1), count)
  }

  /** The first `count` attacks of a combo play the montages in order. */
  lemma {:induction false} ComboInOrder(count: int, k: nat)
    requires count > 0 && k < count
    ensures AnimationAfter(count, k) == k
  {
    if k > 0 {
      ComboInOrder(count, k - 1);
    }
  }

  /**
   * An unlimited combo cycles through the montages: after `count` more
   * continues it is back at the same index (so after k continues it plays
   * montage k mod count).
   */
  lemma {:induction false} ComboCycles(count: int, k: nat)
    requires count > 0
    ensures AnimationAfter(count, k + count) == AnimationAfter(count, k)
  {
    if k == 0 {
      ComboInOrder(count, count - 1);
    } else {
      ComboCycles(count, k - 1);
    }
  }

  /** A limited combo at (or past) its last montage: the continue flag is dropped. */
  predicate AtLimit(limited: bool, current: int, count: int)
  {
    limited && current >= count - 1
  }

  /** What EndAttackAnimation does once it has cleared the attack flags. */
  datatype AttackEnd =
    | AwaitSpecial  // a special attack is queued: leave the combo as it is
    | Continue      // the player asked for another attack: ContinueCombo
    | Stop          // StopCombo

  /**
   * The decision of EndAttackAnimation: a queued special attack wins,
   * otherwise the combo continues when the player asked for it and a
   * limited combo has not reached its last montage, otherwise it stops.
   */
  function EndOfAttack(limited: bool, current: int, count: int, continueFlag: bool, queued: bool): (r: AttackEnd)
    ensures r == AwaitSpecial <==> queued
    ensures r == Continue ==> continueFlag && !AtLimit(limited, current, count)
    ensures r == Stop ==> !continueFlag || AtLimit(limited, current, count)
  {
    if queued then AwaitSpecial
    else if continueFlag && !AtLimit(limited, current, count) then Continue
    else Stop
  }

  /** A limited combo never wraps: whenever it continues, the index goes up by one. */
  lemma LimitedComboNeverWraps(current: int, count: int, continueFlag: bool)
    requires count > 0 && 0 <= current < count
    requires EndOfAttack(true, current, count, continueFlag, false) == Continue
    ensures NextAnimation(current, count) == current + 1
  {
  }

  /**
   * In a limited combo each montage plays at most once and in order: if the
   * first k attacks all continued, the k-th continue reached index k, which
   * is still a valid montage index below the last one plus one.
   */
  lemma {:induction false} LimitedComboLength(count: int, k: nat)
    requires count > 0
    requires forall j :: 0 <= j < k ==> EndOfAttack(true, AnimationAfter(count, j), count, true, false) == Continue
    ensures AnimationAfter(count, k) == k
    ensures k <= count - 1
  {
    if k > 0 {
      LimitedComboLength(count, k - 1);
      assert EndOfAttack(true, AnimationAfter(count, k - 1), count, true, false) == Continue;
    }
  }

  /** The attack streak: hits counted so far and the idle time left before it resets. */
  datatype Streak = Streak(count: int, timer: real)

  /**
   * One TickStopAttackStreak: nothing happens without a streak or during a
   * combo; otherwise a positive timer runs down by dt, and a run-out timer
   * ends the streak.
   */
  function StreakTick(s: Streak, inCombo: bool, dt: real): (r: Streak)
    ensures s.count <= 0 || inCombo ==> r == s
    ensures r.count == s.count || r.count == 0
    ensures r.count == 0 && s.count != 0 ==> s.timer <= 0.0 && !inCombo
  {
    if s.count <= 0 || inCombo then s
    else if s.timer > 0.0 then Streak(s.count, s.timer - dt)
    else Streak(0, s.timer)
  }

  /** The streak after n ticks of length dt outside a combo. */
  function IdleTicks(s: Streak, dt: real, n: nat): Streak
  {
    if n == 0 then s else StreakTick(IdleTicks(s, dt, n - 1), false, dt)
  }

  /** For the first Steps(timer, dt) idle ticks the streak holds and only its timer runs down. */
  lemma {:induction false} StreakHolds(s: Streak, dt: real, n: nat)
    requires s.count > 0 && dt > 0.0
    requires n <= Countdown.Steps(s.timer, dt)
    ensures IdleTicks(s, dt, n) == Streak(s.count, Countdown.Left(s.timer, dt, n))
  {
    if n > 0 {
      StreakHolds(s, dt, n - 1);
      Countdown.PositiveBefore(s.timer, dt, n - 1);
    }
  }

  /**
   * A streak survives exactly Steps(timer, dt) idle ticks, the number of
   * dt-long frames its timer needs to run out, and is reset on the next one.
   */
  lemma StreakLifetime(s: Streak, dt: real)
    requires s.count > 0 && dt > 0.0
    ensures IdleTicks(s, dt, Countdown.Steps(s.timer, dt)).count == s.count
    ensures IdleTicks(s, dt, Countdown.Steps(s.timer, dt) + 1).count == 0
  {
    StreakHolds(s, dt, Countdown.Steps(s.timer, dt));
    Countdown.SpentAfterSteps(s.timer, dt);
  }
}
