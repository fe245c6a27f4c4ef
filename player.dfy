/**
 * A player (lib/Player.js): an Entity2D with the socket id of its client,
 * spawned at (10, 10) with a hitbox of radius 10, whose velocity is set from
 * the four direction keys and which steps by the wall clock.
 *
 * Player inherits from Entity2D through a prototype chain that starts at the
 * Entity2D constructor function rather than at its prototype, so the only
 * operations a Player actually has are its own `updateOnInput` and `update`;
 * the player is therefore modelled as holding an Entity2D.
 */
module Players {
  import opened Wrappers
  import opened Kinematics
  import Entities2D

  /** Player.HITBOX */
  const HITBOX: real := 10.0

  /** The speed, in units per second, that a held direction key gives on its axis. */
  const SPEED: real := 100.0

  /** The direction flags of a keyboard state sent by a client. */
  datatype KeyboardState = KeyboardState(up: bool, down: bool, left: bool, right: bool)

  /** Number(flag) */
  function Number(flag: bool): real
  {
    if flag then 1.0 else 0.0
  }

  /**
   * The velocity `updateOnInput` gives: on each axis SPEED towards the one
   * key held, or zero when neither or both of the opposite keys are held.
   * Canvas y grows downwards, so `down` is the positive y direction.
   */
  function InputVelocity(k: KeyboardState): (v: seq<real>)
    ensures |v| == 2
    ensures v[0] == SPEED <==> k.right && !k.left
    ensures v[0] == -SPEED <==> k.left && !k.right
    ensures v[0] == 0.0 <==> k.left == k.right
    ensures v[1] == SPEED <==> k.down && !k.up
    ensures v[1] == -SPEED <==> k.up && !k.down
    ensures v[1] == 0.0 <==> k.up == k.down
  {
    [SPEED * (Number(k.right) - Number(k.left)), SPEED * (Number(k.down) - Number(k.up))]
  }

  class Player {
    const id: string
    const entity: Entities2D.Entity2D

    ghost predicate Valid()
      reads this, entity
    {
      entity.Valid()
    }

    /**
     * A new player (also what Player.create returns): at (10, 10), at rest,
     * orientation 0, mass 1, hitbox HITBOX, never updated.
     */
    constructor (id: string)
      ensures Valid() && this.id == id
      ensures fresh(entity) && fresh(entity.position) && fresh(entity.velocity)
      ensures fresh(entity.acceleration)
      ensures entity.State()
           == Body([10.0, 10.0], [0.0, 0.0], [0.0, 0.0], 0.0, 1.0, HITBOX, 0.0, 0.0)
    {
      this.id := id;
      entity := new Entities2D.Entity2D(Some([10.0, 10.0]), None, None, None, None, Some(HITBOX));
    }

    /**
     * Sets the velocity from the keyboard state and changes nothing else.
     * The new velocity does not depend on the old one, so applying the same
     * input twice leaves the same state as applying it once.
     */
    method UpdateOnInput(keyboardState: KeyboardState)
      requires Valid()
      modifies entity.velocity
      ensures Valid()
      ensures entity.velocity[..] == InputVelocity(keyboardState)
      ensures entity.State() == old(entity.State()).(velocity := InputVelocity(keyboardState))
    {
      entity.velocity[1] := SPEED * (Number(keyboardState.down) - Number(keyboardState.up));
      entity.velocity[0] := SPEED * (Number(keyboardState.right) - Number(keyboardState.left));
    }

    /** The Entity2D step with no explicit step size: the clock decides it. */
    method Update(currentTime: real)
      requires Valid()
      modifies entity, entity.position, entity.velocity, entity.acceleration
      ensures Valid()
      ensures entity.State() == Entities2D.Stepped(old(entity.State()), None, currentTime)
    {
      entity.Update(None, currentTime);
    }
  }
}
