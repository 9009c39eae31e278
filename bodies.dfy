/**
 * The rigid-body handle of the physics engine, reduced to the fields the
 * gameplay code reads and writes. The engine itself (integration, contact
 * solving, ray casts) is not part of this model: between two frames it may
 * change any body's position and velocity.
 */
module Bodies {
  import opened Geometry

  /** A body's motion besides its position: linear and angular velocity and the awake flag. */
  datatype Drift = Drift(velocity: Vec3, spin: Vec3, awake: bool)

  class Body {
    var position: Vec3
    var velocity: Vec3
    var angularVelocity: Vec3
    /** Whether contacts with this body push other bodies. */
    var collisionResponse: bool
    /** Set by `wakeUp`. */
    var awake: bool

    constructor (p: Vec3)
      ensures position == p && velocity == Zero && angularVelocity == Zero
      ensures collisionResponse && awake
    {
      position := p;
      velocity := Zero;
      angularVelocity := Zero;
      collisionResponse := true;
      awake := true;
    }

    function DriftOf(): Drift
      reads this
    {
      Drift(velocity, angularVelocity, awake)
    }
  }
}
