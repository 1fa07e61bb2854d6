/**
 * The Agile character's dash as a value: whether it is dashing, the
 * distance budget left and the cooldown.  DashMovement runs every frame
 * and StopDash ends a dash, either from DashMovement once the budget is
 * spent or from another ability interrupting it.
 */
module Dashing {
  import Countdown

  datatype Dash = Dash(dashing: bool, distance: real, cooldown: real)

  /** DashAction accepts: not dashing and the cooldown is not positive. */
  predicate CanDash(d: Dash)
  {
    !d.dashing && !(d.cooldown > 0.0)
  }

  /** DashAction's effect: the full distance budget, and the dash runs. */
  function StartDash(d: Dash, distanceCfg: real): Dash
  {
    Dash(true, distanceCfg, d.cooldown)
  }

  /** StopDash: a running dash stops and the cooldown is loaded; otherwise nothing happens. */
  function StopDash(d: Dash, cooldownCfg: real): (r: Dash)
    ensures !r.dashing && r.distance == d.distance
    ensures d.dashing ==> r.cooldown == cooldownCfg
    ensures !d.dashing ==> r == d
  {
    if d.dashing then Dash(false, d.distance, cooldownCfg) else d
  }

  /** The frame moves the character along the dash direction. */
  predicate Moves(d: Dash)
  {
    !(d.cooldown > 0.0) && d.distance > 0.0
  }

  /**
   * One DashMovement frame with `step` = max speed times dt: a positive
   * cooldown only runs down; a spent budget stops the dash; otherwise the
   * character moves and the budget shrinks by `step`.  Nothing here checks
   * that a dash is running.
   */
  function DashTick(d: Dash, dt: real, step: real, cooldownCfg: real): (r: Dash)
    ensures d.cooldown > 0.0 ==> r == Dash(d.dashing, d.distance, d.cooldown - dt)
    ensures Moves(d) ==> r == Dash(d.dashing, d.distance - step, d.cooldown)
    ensures !(d.cooldown > 0.0) && !(d.distance > 0.0) ==> r == StopDash(d, cooldownCfg)
  {
    if d.cooldown > 0.0 then Dash(d.dashing, d.distance, d.cooldown - dt)
    else if d.distance <= 0.0 then StopDash(d, cooldownCfg)
    else Dash(d.dashing, d.distance - step, d.cooldown)
  }

  /** The dash after n frames. */
  function DashTicks(d: Dash, dt: real, step: real, cooldownCfg: real, n: nat): Dash
  {
    if n == 0 then d else DashTick(DashTicks(d, dt, step, cooldownCfg, n - 1), dt, step, cooldownCfg)
  }

  lemma {:induction false} DashTicksAdd(d: Dash, dt: real, step: real, cooldownCfg: real, m: nat, n: nat)
    ensures DashTicks(d, dt, step, cooldownCfg, m + n)
      == DashTicks(DashTicks(d, dt, step, cooldownCfg, m), dt, step, cooldownCfg, n)
  {
    if n > 0 {
      DashTicksAdd(d, dt, step, cooldownCfg, m, n - 1);
    }
  }

  /** With no cooldown running, the budget shrinks by one step per frame until it is spent. */
  lemma {:induction false} MovingPhase(d: Dash, dt: real, step: real, cooldownCfg: real, n: nat)
    requires step > 0.0 && !(d.cooldown > 0.0) && n <= Countdown.Steps(d.distance, step)
    ensures DashTicks(d, dt, step, cooldownCfg, n) == Dash(d.dashing, Countdown.Left(d.distance, step, n), d.cooldown)
  {
    if n > 0 {
      MovingPhase(d, dt, step, cooldownCfg, n - 1);
      Countdown.PositiveBefore(d.distance, step, n - 1);
    }
  }

  /** While the cooldown is positive, only the cooldown changes. */
  lemma {:induction false} CoolingPhase(d: Dash, dt: real, step: real, cooldownCfg: real, n: nat)
    requires dt > 0.0 && n <= Countdown.Steps(d.cooldown, dt)
    ensures DashTicks(d, dt, step, cooldownCfg, n) == Dash(d.dashing, d.distance, Countdown.Left(d.cooldown, dt, n))
  {
    if n > 0 {
      CoolingPhase(d, dt, step, cooldownCfg, n - 1);
      Countdown.PositiveBefore(d.cooldown, dt, n - 1);
    }
  }

  /**
   * A dash started with budget D at a per-frame step moves for
   * Steps(D, step) frames (DashRuns), is stopped on the next one with its
   * cooldown loaded (DashStops), and cannot be started again while that
   * cooldown is positive (DashCooldown).
   */
  lemma DashRuns(d: Dash, distanceCfg: real, cooldownCfg: real, dt: real, step: real, n: nat)
    requires CanDash(d) && step > 0.0 && n < Countdown.Steps(distanceCfg, step)
    ensures var s := StartDash(d, distanceCfg);
      Moves(DashTicks(s, dt, step, cooldownCfg, n)) && DashTicks(s, dt, step, cooldownCfg, n).dashing
  {
    MovingPhase(StartDash(d, distanceCfg), dt, step, cooldownCfg, n);
    Countdown.PositiveBefore(distanceCfg, step, n);
  }

  lemma DashStops(d: Dash, distanceCfg: real, cooldownCfg: real, dt: real, step: real)
    requires CanDash(d) && step > 0.0
    ensures var k := Countdown.Steps(distanceCfg, step);
      DashTicks(StartDash(d, distanceCfg), dt, step, cooldownCfg, k + 1)
        == Dash(false, Countdown.Left(distanceCfg, step, k), cooldownCfg)
  {
    MovingPhase(StartDash(d, distanceCfg), dt, step, cooldownCfg, Countdown.Steps(distanceCfg, step));
    Countdown.SpentAfterSteps(distanceCfg, step);
  }

  /**
   * For the Steps(C, dt) frames after it stops, the dash is refused; once
   * they are over it can be used again.
   */
  lemma DashCooldown(d: Dash, distanceCfg: real, cooldownCfg: real, dt: real, step: real, j: nat)
    requires CanDash(d) && step > 0.0 && dt > 0.0 && j <= Countdown.Steps(cooldownCfg, dt)
    ensures var k := Countdown.Steps(distanceCfg, step);
      var after := DashTicks(StartDash(d, distanceCfg), dt, step, cooldownCfg, k + 1 + j);
      (j < Countdown.Steps(cooldownCfg, dt) ==> !CanDash(after))
      && (j == Countdown.Steps(cooldownCfg, dt) ==> CanDash(after))
  {
    var s := StartDash(d, distanceCfg);
    var k := Countdown.Steps(distanceCfg, step);
    DashStops(d, distanceCfg, cooldownCfg, dt, step);
    var stopped := DashTicks(s, dt, step, cooldownCfg, k + 1);
    DashTicksAdd(s, dt, step, cooldownCfg, k + 1, j);
    CoolingPhase(stopped, dt, step, cooldownCfg, j);
    if j < Countdown.Steps(cooldownCfg, dt) {
      Countdown.PositiveBefore(cooldownCfg, dt, j);
    } else {
      Countdown.SpentAfterSteps(cooldownCfg, dt);
    }
  }

  /**
   * A dash interrupted with budget left (StopDash called by another
   * ability) keeps that budget: once its cooldown has run out, DashMovement
   * moves the character again although no dash is running.
   */
  lemma InterruptedDashResumes(d: Dash, cooldownCfg: real, dt: real, step: real)
    requires d.dashing && d.distance > 0.0 && dt > 0.0
    ensures var stopped := StopDash(d, cooldownCfg);
      var later := DashTicks(stopped, dt, step, cooldownCfg, Countdown.Steps(cooldownCfg, dt));
      !later.dashing && Moves(later)
  {
    CoolingPhase(StopDash(d, cooldownCfg), dt, step, cooldownCfg, Countdown.Steps(cooldownCfg, dt));
    Countdown.SpentAfterSteps(cooldownCfg, dt);
  }
}
