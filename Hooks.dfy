/**
 * The decisions behind the Agile character's hook abilities, as values:
 * which hook point CheckHook settles on (or whether it clears or keeps the
 * current one), and what releasing a pull does with the pulled object.
 */
module Hooks {
  import opened Optional
  import opened World
  import opened Targeting

  /** EHookType: what a hook point is for; NONE points cannot be used. */
  datatype HookType = GRAPPABLE | PULLABLE | ENEMY | NONE

  /**
   * A hook point actor: its identity, its type and the first static mesh
   * of its parent actor, which a PULLABLE point pulls.
   */
  datatype HookPoint = HookPoint(id: ObjectId, kind: HookType, parentMesh: ObjectId)

  /**
   * One sphere-trace hit around the character: the dot product of the
   * camera's forward vector with the direction to the hit actor, the actor
   * as a hook point (None when the cast fails) and what its CanUse answers.
   */
  datatype SphereHit = SphereHit(dot: real, hook: Option<HookPoint>, usable: bool)

  /** The parent actor of a hit component, and whether it is an AEnemy. */
  datatype Target = Target(id: ObjectId, isEnemy: bool)

  /**
   * The visibility line trace from the camera to a hook point: no actor
   * hit, or the actor hit with its child actors and its parent.
   */
  datatype Sight =
    | NoActor
    | Sees(actor: ObjectId, children: set<ObjectId>, parent: Option<Target>)

  /** The hook point is what the line trace hit, or one of the hit actor's children. */
  predicate Visible(s: Sight, h: HookPoint)
  {
    s.Sees? && (s.actor == h.id || h.id in s.children)
  }

  /** `held` is the hook point actor `p`: hook points are compared by identity. */
  predicate SamePoint(held: Option<HookPoint>, p: HookPoint)
  {
    held.Some? && held.value.id == p.id
  }

  /** The dot products of the hits, in trace order. */
  function HitDots(hits: seq<SphereHit>): (r: seq<real>)
    ensures |r| == |hits| && forall i :: 0 <= i < |hits| ==> r[i] == hits[i].dot
  {
    seq(|hits|, i requires 0 <= i < |hits| => hits[i].dot)
  }

  /** What CheckHook does with the current hook point. */
  datatype HookVerdict =
    | Clear                                  // DeactivateHookPointRef
    | Keep                                   // leave everything as it is
    | Select(hook: HookPoint, sight: Sight)  // this point is detected and visible

  /**
   * CheckHook's decision.  `blocked`: dead, possessing or notebook open;
   * `busy`: grappling, pulling or grapple-attacking.  A blocked character
   * drops its hook point; a busy one keeps it; otherwise the hit the scan
   * picks must be a usable hook point of some type, not an ENEMY point
   * while the grapple attack cools down, and visible from the camera.
   */
  function Verdict(blocked: bool, busy: bool, hits: seq<SphereHit>, minDot: real,
                   attackCooldown: real, sight: ObjectId -> Sight): (v: HookVerdict)
    ensures blocked ==> v == Clear
    ensures v == Keep <==> !blocked && busy
    ensures v.Select? ==> v.hook.kind != NONE && Visible(v.sight, v.hook)
  {
    if blocked then Clear
    else if busy then Keep
    else if |hits| == 0 then Clear
    else
      match Best(HitDots(hits), minDot)
      case None => Clear
      case Some(k) =>
        var hit := hits[k];
        if hit.hook.None? || !hit.usable || hit.hook.value.kind == NONE then Clear
        else if hit.hook.value.kind == ENEMY && attackCooldown > 0.0 then Clear
        else if !Visible(sight(hit.hook.value.id), hit.hook.value) then Clear
        else Select(hit.hook.value, sight(hit.hook.value.id))
  }

  /**
   * A selected hook point is the one on the hit that is strictly closest to
   * the centre of the screen (the first such hit), above the minimum dot;
   * it can be used, has a type, is not an ENEMY point on cooldown and is
   * visible.
   */
  lemma SelectMeans(blocked: bool, busy: bool, hits: seq<SphereHit>, minDot: real,
                    attackCooldown: real, sight: ObjectId -> Sight)
    requires Verdict(blocked, busy, hits, minDot, attackCooldown, sight).Select?
    ensures var v := Verdict(blocked, busy, hits, minDot, attackCooldown, sight);
      && !blocked && !busy
      && (exists k: nat :: FirstMax(HitDots(hits), minDot, k) && hits[k].hook == Some(v.hook) && hits[k].usable)
      && v.hook.kind != NONE
      && (v.hook.kind == ENEMY ==> attackCooldown <= 0.0)
      && Visible(v.sight, v.hook) && v.sight == sight(v.hook.id)
  {
    BestIsFirstMax(HitDots(hits), minDot);
  }

  /** When no hit is above the minimum dot, an idle character drops its hook point. */
  lemma NothingInViewClears(busy: bool, hits: seq<SphereHit>, minDot: real,
                            attackCooldown: real, sight: ObjectId -> Sight)
    requires !busy && forall i :: 0 <= i < |hits| ==> hits[i].dot <= minDot
    ensures Verdict(false, busy, hits, minDot, attackCooldown, sight) == Clear
  {
    BestIsFirstMax(HitDots(hits), minDot);
  }

  /** An ENEMY point that wins the scan while the grapple attack cools down is dropped. */
  lemma EnemyOnCooldownClears(hits: seq<SphereHit>, minDot: real, attackCooldown: real,
                              sight: ObjectId -> Sight, k: nat)
    requires FirstMax(HitDots(hits), minDot, k)
    requires hits[k].hook.Some? && hits[k].hook.value.kind == ENEMY && attackCooldown > 0.0
    ensures Verdict(false, false, hits, minDot, attackCooldown, sight) == Clear
  {
    BestIff(HitDots(hits), minDot, k);
  }

  /** One sphere-trace hit around the character when a pull is released. */
  datatype ThrowCandidate = ThrowCandidate(dot: real, actor: ObjectId)

  function CandidateDots(cands: seq<ThrowCandidate>): (r: seq<real>)
    ensures |r| == |cands| && forall i :: 0 <= i < |cands| ==> r[i] == cands[i].dot
  {
    seq(|cands|, i requires 0 <= i < |cands| => cands[i].dot)
  }

  /** SetThrowTarget: the candidate the scan picks, above the minimum throw-target dot. */
  function ThrowPick(cands: seq<ThrowCandidate>, minDot: real): (r: Option<ObjectId>)
    ensures r.Some? ==> exists i :: 0 <= i < |cands| && cands[i].actor == r.value
  {
    match Best(CandidateDots(cands), minDot)
    case None => None
    case Some(k) => Some(cands[k].actor)
  }

  /** The throw target is the first candidate with the greatest dot above the minimum, if any. */
  lemma ThrowPickMeans(cands: seq<ThrowCandidate>, minDot: real)
    ensures ThrowPick(cands, minDot).None? <==> forall i :: 0 <= i < |cands| ==> cands[i].dot <= minDot
    ensures ThrowPick(cands, minDot).Some? ==>
      exists k: nat :: FirstMax(CandidateDots(cands), minDot, k) && cands[k].actor == ThrowPick(cands, minDot).value
  {
    BestIsFirstMax(CandidateDots(cands), minDot);
  }

  /**
   * What the engine says about the pulled object when the pull is
   * released: the size of its velocity, the dot of its normalised velocity
   * with the throw direction (None when the normalised velocity is zero),
   * and the throw-target hits around the character.
   */
  datatype PullRelease = PullRelease(speed: real, heading: Option<real>, targets: seq<ThrowCandidate>)

  /** What ResetPullMovement does. */
  datatype PullEnd =
    | NotPulling              // nothing to release
    | Drop                    // EndPull without an impulse
    | Throw(towards: Option<ObjectId>)  // an impulse, at the throw target if one is found, then EndPull

  /**
   * The release decision: only a pull that has reached the object can
   * throw it, and only when the object moves faster than the stillness
   * threshold and the camera has turned far enough from its motion.
   */
  function ReleaseOutcome(pulling: bool, moving: bool, r: PullRelease, sizeThreshold: real,
                          dotThreshold: real, minTargetDot: real): (e: PullEnd)
    ensures e == NotPulling <==> !pulling
    ensures e.Throw? <==>
      pulling && moving && r.speed > sizeThreshold && !(r.heading.Some? && r.heading.value < dotThreshold)
    ensures e.Throw? ==> e == Throw(ThrowPick(r.targets, minTargetDot))
    ensures pulling && (!moving || r.speed <= sizeThreshold) ==> e == Drop
    ensures pulling && r.heading.Some? && r.heading.value < dotThreshold ==> e == Drop
  {
    if !pulling then NotPulling
    else if !moving then Drop
    else if r.speed <= sizeThreshold then Drop
    else if r.heading.Some? && r.heading.value < dotThreshold then Drop
    else Throw(ThrowPick(r.targets, minTargetDot))
  }

  /**
   * With ThrowDotProductThreshold at its default of -1 the camera check
   * never cancels a throw: a moving pull released faster than the stillness
   * threshold is always thrown (a dot of unit vectors is at least -1).
   */
  lemma DefaultThresholdAlwaysThrows(r: PullRelease, sizeThreshold: real, minTargetDot: real)
    requires r.speed > sizeThreshold
    requires r.heading.Some? ==> r.heading.value >= -1.0
    ensures ReleaseOutcome(true, true, r, sizeThreshold, -1.0, minTargetDot)
      == Throw(ThrowPick(r.targets, minTargetDot))
  {
  }
}
