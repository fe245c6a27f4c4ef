/**
 * What Entity2D and Entity3D have in common: the state of a body as a value,
 * and the two state changes both entities make, written as functions on that
 * value. Each entity's class is proved against these functions.
 */
module Kinematics {

  /**
   * The fields of an entity: position, velocity and acceleration vectors of
   * the entity's arity, orientation in radians, mass, hitbox radius, and the
   * timing fields that `update` maintains.
   */
  datatype Body = Body(
    position: seq<real>,
    velocity: seq<real>,
    acceleration: seq<real>,
    orientation: real,
    mass: real,
    hitbox: real,
    lastUpdateTime: real,
    deltaTime: real)
  {
    /** The three vectors all have `n` components. */
    predicate HasArity(n: nat)
    {
      |position| == n && |velocity| == n && |acceleration| == n
    }
  }

  /** The body after `applyForce(force)`: `force / mass` is added to the acceleration, axis by axis. */
  function Pushed(b: Body, force: seq<real>): (r: Body)
    requires |force| == |b.acceleration| && b.mass != 0.0
    ensures |r.acceleration| == |b.acceleration|
    ensures forall i :: 0 <= i < |force| ==> r.acceleration[i] == b.acceleration[i] + force[i] / b.mass
    ensures r.(acceleration := b.acceleration) == b
  {
    b.(acceleration := seq(|force|, i requires 0 <= i < |force| => b.acceleration[i] + force[i] / b.mass))
  }

  /**
   * One explicit Euler step of length `dt` taken at time `now`: the position
   * moves with the old velocity, the velocity with the old acceleration, and
   * the acceleration is used up.
   */
  function Advanced(b: Body, dt: real, now: real): (r: Body)
    requires b.HasArity(|b.position|)
    ensures r.HasArity(|b.position|)
    ensures forall i :: 0 <= i < |b.position| ==>
      && r.position[i] == b.position[i] + b.velocity[i] * dt
      && r.velocity[i] == b.velocity[i] + b.acceleration[i] * dt
      && r.acceleration[i] == 0.0
    ensures r.deltaTime == dt && r.lastUpdateTime == now
    ensures r.orientation == b.orientation && r.mass == b.mass && r.hitbox == b.hitbox
  {
    var n := |b.position|;
    b.(position := seq(n, i requires 0 <= i < n => b.position[i] + b.velocity[i] * dt),
       velocity := seq(n, i requires 0 <= i < n => b.velocity[i] + b.acceleration[i] * dt),
       acceleration := seq(n, i requires 0 <= i < n => 0.0),
       deltaTime := dt,
       lastUpdateTime := now)
  }

  /** A step of length zero moves nothing: position and velocity are unchanged. */
  lemma ZeroStepKeepsMotion(b: Body, now: real)
    requires b.HasArity(|b.position|)
    ensures Advanced(b, 0.0, now).position == b.position
    ensures Advanced(b, 0.0, now).velocity == b.velocity
  {
    var r := Advanced(b, 0.0, now);
    assert forall i :: 0 <= i < |b.position| ==> r.position[i] == b.position[i];
    assert forall i :: 0 <= i < |b.position| ==> r.velocity[i] == b.velocity[i];
  }

  /**
   * A force applied to a body at rest in acceleration and followed by a step
   * of length `dt` changes the velocity by `force / mass * dt`, and leaves the
   * acceleration at zero again.
   */
  lemma ForceThenStep(b: Body, force: seq<real>, dt: real, now: real)
    requires b.HasArity(|b.position|) && |force| == |b.position| && b.mass != 0.0
    requires forall i :: 0 <= i < |b.acceleration| ==> b.acceleration[i] == 0.0
    ensures forall i :: 0 <= i < |force| ==>
      && Advanced(Pushed(b, force), dt, now).velocity[i] == b.velocity[i] + force[i] / b.mass * dt
      && Advanced(Pushed(b, force), dt, now).position[i] == b.position[i] + b.velocity[i] * dt
      && Advanced(Pushed(b, force), dt, now).acceleration[i] == 0.0
  {
  }

  /** Allocates a fresh array holding `s`. */
  method NewVector(s: seq<real>) returns (a: array<real>)
    ensures fresh(a) && a[..] == s
  {
    a := new real[|s|](i requires 0 <= i < |s| => s[i]);
  }
}
