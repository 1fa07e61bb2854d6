/**
 * What the characters see of the engine and what they ask of it.
 *
 * Actors, components and hook points are identified by an object id; the
 * engine's answers to traces and queries are handed to the character's
 * methods as values of the types below.  Every call a character makes into
 * code outside the model (montage playback, Blueprint events, damage dealt
 * to an enemy, physics impulses) is recorded as a Cue in the character's
 * log, in the order the calls are made.
 */
module World {
  import opened Optional

  /** Identity of a UObject (actor, component, hook point). */
  type ObjectId = nat

  /** A component of an overlapping actor, and whether it implements the interaction interface. */
  datatype Part = Part(id: ObjectId, interactable: bool)

  /**
   * An actor that overlaps one of the character's trigger boxes, with the
   * facts the handlers ask of it: the "Enemy" tag, whether it really is an
   * AEnemy, whether it implements the destructable interface in Blueprint
   * and natively, and whether it or any of its components is interactable.
   */
  datatype Actor = Actor(
    id: ObjectId,
    enemyTag: bool,
    isEnemy: bool,
    destructable: bool,
    nativeDestructable: bool,
    interactable: bool,
    parts: seq<Part>)

  /** The animation montages the characters play by name. */
  datatype Montage =
    | HitMontage
    | BashMovementAnim | BashEndAnim
    | GroundGrappleMontage | AirGrappleMontage
    | GroundPullMontage | AirPullMontage
    | GroundGrappleAttackMontage | AirGrappleAttackMontage
    | DashAnimation

  /** One call from a character into the engine, a Blueprint or another actor. */
  datatype Cue =
    | PlayAttack(index: nat)
    | StopAttack(index: nat, blendOut: real)
    | PlayMontage(montage: Montage)
    | StopMontage(montage: Montage, blendOut: real)
    | StopAllMontages(blendOut: real)
    | MeleeCollision(enabled: bool)
    | BashCollision(enabled: bool)
    | InventoryShown(visible: bool)
    | NotebookShown(visible: bool)
    | EnableInteractable(obj: ObjectId)
    | DisableInteractable(obj: ObjectId)
    | DamageEnemy(enemy: ObjectId, amount: real)
    | Knockback(enemy: ObjectId)
    | DestructionEvent(obj: ObjectId)
    | NativeDestruction(obj: ObjectId)
    | MovementInput
    | StopMovementImmediately
    | FallingMode
    | ScaleVelocity(factor: real)
    | ActivateHook(hook: ObjectId)
    | DeactivateHook(hook: ObjectId)
    | UseHook(hook: ObjectId)
    | RopeShown(visible: bool)
    | PullForce(target: ObjectId)
    | ThrowImpulse(target: ObjectId, towards: Option<ObjectId>)
}
