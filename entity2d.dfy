/**
 * A body in the plane (lib/Entity2D.js): vectors of two components, a step
 * measured in seconds, and a collision test on circular hitboxes that counts
 * touching as a collision.
 */
module Entities2D {
  import opened Wrappers
  import Util
  import opened Kinematics

  const DIMENSIONS: nat := 2

  /**
   * The step `update(deltaTime)` takes at wall-clock time `currentTime` (in
   * milliseconds): a truthy explicit step is used as it is; otherwise the
   * first update takes no step, and later ones take the time since the last
   * update, converted to seconds.
   */
  function StepSize(deltaTime: Option<real>, lastUpdateTime: real, currentTime: real): real
  {
    if Truthy(deltaTime) then deltaTime.value
    else if lastUpdateTime == 0.0 then 0.0
    else (currentTime - lastUpdateTime) / 1000.0
  }

  /** The state after `update(deltaTime)` at wall-clock time `currentTime`. */
  function Stepped(b: Body, deltaTime: Option<real>, currentTime: real): (r: Body)
    requires b.HasArity(DIMENSIONS)
    ensures r.HasArity(DIMENSIONS)
    ensures Truthy(deltaTime) ==> r.deltaTime == deltaTime.value
    ensures !Truthy(deltaTime) && b.lastUpdateTime == 0.0 ==>
              r.deltaTime == 0.0 && r.position == b.position && r.velocity == b.velocity
    ensures !Truthy(deltaTime) && b.lastUpdateTime != 0.0 ==>
              r.deltaTime == (currentTime - b.lastUpdateTime) / 1000.0
    ensures forall i :: 0 <= i < DIMENSIONS ==>
              && r.position[i] == b.position[i] + b.velocity[i] * r.deltaTime
              && r.velocity[i] == b.velocity[i] + b.acceleration[i] * r.deltaTime
              && r.acceleration[i] == 0.0
    ensures r.lastUpdateTime == currentTime
    ensures r.orientation == b.orientation && r.mass == b.mass && r.hitbox == b.hitbox
  {
    var dt := StepSize(deltaTime, b.lastUpdateTime, currentTime);
    if dt == 0.0 then
      ZeroStepKeepsMotion(b, currentTime);
      Advanced(b, dt, currentTime)
    else
      Advanced(b, dt, currentTime)
  }

  class Entity2D {
    const position: array<real>
    const velocity: array<real>
    const acceleration: array<real>
    var orientation: real
    var mass: real
    var hitbox: real
    var lastUpdateTime: real
    var deltaTime: real

    /** Three distinct vectors of two components, and a mass that is never zero. */
    ghost predicate Valid()
      reads this
    {
      && position.Length == DIMENSIONS
      && velocity.Length == DIMENSIONS
      && acceleration.Length == DIMENSIONS
      && position != velocity && position != acceleration && velocity != acceleration
      && mass != 0.0
    }

    /** The entity's fields as a value. */
    ghost function State(): Body
      reads this, position, velocity, acceleration
    {
      Body(position[..], velocity[..], acceleration[..], orientation, mass, hitbox,
           lastUpdateTime, deltaTime)
    }

    /**
     * A new entity. An omitted vector is the zero vector; an omitted or zero
     * orientation, mass or hitbox is 0, 1 and 0, so the mass is never zero.
     */
    constructor (pos: Option<seq<real>>, vel: Option<seq<real>>, acc: Option<seq<real>>,
                 orient: Option<real>, m: Option<real>, hb: Option<real>)
      requires pos.Some? ==> |pos.value| == DIMENSIONS
      requires vel.Some? ==> |vel.value| == DIMENSIONS
      requires acc.Some? ==> |acc.value| == DIMENSIONS
      ensures Valid()
      ensures fresh(position) && fresh(velocity) && fresh(acceleration)
      ensures State() == Body(VectorOr(pos, [0.0, 0.0]), VectorOr(vel, [0.0, 0.0]),
                              VectorOr(acc, [0.0, 0.0]), NumberOr(orient, 0.0),
                              NumberOr(m, 1.0), NumberOr(hb, 0.0), 0.0, 0.0)
    {
      var p := NewVector(VectorOr(pos, [0.0, 0.0]));
      var v := NewVector(VectorOr(vel, [0.0, 0.0]));
      var a := NewVector(VectorOr(acc, [0.0, 0.0]));
      position, velocity, acceleration := p, v, a;
      orientation := NumberOr(orient, 0.0);
      mass := NumberOr(m, 1.0);
      hitbox := NumberOr(hb, 0.0);
      lastUpdateTime := 0.0;
      deltaTime := 0.0;
    }

    /** Adds `force / mass` to the acceleration on each axis and changes nothing else. */
    method ApplyForce(force: seq<real>)
      requires Valid() && |force| == DIMENSIONS
      modifies acceleration
      ensures Valid()
      ensures State() == Pushed(old(State()), force)
    {
      var i := 0;
      while i < DIMENSIONS
        invariant 0 <= i <= DIMENSIONS
        invariant forall k :: 0 <= k < i ==> acceleration[k] == old(acceleration[k]) + force[k] / mass
        invariant forall k :: i <= k < DIMENSIONS ==> acceleration[k] == old(acceleration[k])
      {
        acceleration[i] := acceleration[i] + force[i] / mass;
        i := i + 1;
      }
      assert acceleration[..] == Pushed(old(State()), force).acceleration;
    }

    /**
     * One step of the integrator, `update(deltaTime)`, with the wall clock
     * read as `currentTime`: position and velocity advance by the step,
     * acceleration returns to zero and `currentTime` becomes the last update
     * time.
     */
    method Update(deltaTime: Option<real>, currentTime: real)
      requires Valid()
      modifies this, position, velocity, acceleration
      ensures Valid()
      ensures State() == Stepped(old(State()), deltaTime, currentTime)
    {
      ghost var r := Stepped(State(), deltaTime, currentTime);
      if Truthy(deltaTime) {
        this.deltaTime := deltaTime.value;
      } else if lastUpdateTime == 0.0 {
        this.deltaTime := 0.0;
      } else {
        this.deltaTime := (currentTime - lastUpdateTime) / 1000.0;
      }
      assert this.deltaTime == r.deltaTime;
      var i := 0;
      while i < DIMENSIONS
        modifies position, velocity, acceleration
        invariant 0 <= i <= DIMENSIONS
        invariant forall k :: 0 <= k < i ==>
          position[k] == r.position[k] && velocity[k] == r.velocity[k] && acceleration[k] == 0.0
        invariant forall k :: i <= k < DIMENSIONS ==>
          && position[k] == old(position[k])
          && velocity[k] == old(velocity[k])
          && acceleration[k] == old(acceleration[k])
      {
        position[i] := position[i] + velocity[i] * this.deltaTime;
        velocity[i] := velocity[i] + acceleration[i] * this.deltaTime;
        acceleration[i] := 0.0;
        i := i + 1;
      }
      lastUpdateTime := currentTime;
      assert position[..] == r.position;
      assert velocity[..] == r.velocity;
      assert acceleration[..] == r.acceleration;
    }

    /**
     * Whether the two circular hitboxes meet: the squared distance between
     * the centres is at most the square of the sum of the radii, so touching
     * counts.
     */
    function IsCollidedWith(other: Entity2D): (r: bool)
      reads this, position, other, other.position
      requires Valid() && other.Valid()
      ensures r <==> Util.Square(position[0] - other.position[0])
                     + Util.Square(position[1] - other.position[1])
                     <= Util.Square(hitbox + other.hitbox)
    {
      Util.EuclideanDistance2Plane(position[..], other.position[..]);
      var minDistance := hitbox + other.hitbox;
      Util.EuclideanDistance2(position[..], other.position[..]).value <= minDistance * minDistance
    }

    /**
     * `isCollidedWith` as written: its first point is `this._position`, a
     * field nothing assigns, so reading its length throws before any
     * distance is computed.
     */
    function IsCollidedWithAsWritten(other: Entity2D): (r: Result<bool>)
      reads this, other
      requires Valid() && other.Valid()
      ensures r.Failure?
    {
      Failure(ReadOfUndefined)
    }
  }

  /** The collision test gives the same answer from either side. */
  lemma CollisionSymmetric(a: Entity2D, b: Entity2D)
    requires a.Valid() && b.Valid()
    ensures a.IsCollidedWith(b) == b.IsCollidedWith(a)
  {
    Util.DistancesSymmetric(a.position[..], b.position[..]);
  }

  /**
   * Two entities at the same place collide whatever their hitboxes, yet the
   * test as written throws for them instead of answering.
   */
  lemma CoincidentEntitiesCollide(a: Entity2D, b: Entity2D)
    requires a.Valid() && b.Valid() && a.position[..] == b.position[..]
    ensures a.IsCollidedWith(b)
    ensures a.IsCollidedWithAsWritten(b) == Failure(ReadOfUndefined)
  {
    Util.SquareNonNegative(a.hitbox + b.hitbox);
    assert a.position[0] == b.position[0] && a.position[1] == b.position[1];
  }
}
