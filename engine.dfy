/**
 * The parts of the game engine that the player scripts read and write:
 * key codes and one frame of keyboard state, the rigid body's velocity
 * and the transform's position and horizontal scale.  The engine itself
 * (physics integration, rendering) is not part of this model.
 */
module Engine {

  /** The key codes the bindings use by name; every other key is `Other`. */
  datatype KeyCode =
    | None | A | D | E | Q | R | W
    | Space | Escape | LeftArrow | RightArrow | LeftShift
    | Other(id: nat)

  /**
   * One frame of keyboard state: the keys that are held (`Input.GetKey`),
   * went down this frame (`Input.GetKeyDown`) and went up this frame
   * (`Input.GetKeyUp`).
   */
  datatype KeyFrame = KeyFrame(held: set<KeyCode>, pressed: set<KeyCode>, released: set<KeyCode>)

  datatype Vec3 = Vec3(x: real, y: real, z: real)

  type PositiveReal = r: real | r > 0.0 witness 1.0

  /** A 2D rigid body reduced to its mass and velocity `(vx, vy)`. */
  class Rigidbody {
    const mass: PositiveReal
    var vx: real
    var vy: real

    constructor (mass: PositiveReal)
      ensures this.mass == mass && vx == 0.0 && vy == 0.0
    {
      this.mass := mass;
      vx, vy := 0.0, 0.0;
    }

    /** `AddForce((0, fy), ForceMode2D.Impulse)`: an impulse changes velocity by `fy / mass`. */
    method AddVerticalImpulse(fy: real)
      modifies this
      ensures vx == old(vx) && vy == old(vy) + fy / mass
    {
      vy := vy + fy / mass;
    }
  }

  /** A transform reduced to its position and the x component of its local scale. */
  class Transform {
    var position: Vec3
    var scaleX: real

    constructor (position: Vec3, scaleX: real)
      ensures this.position == position && this.scaleX == scaleX
    {
      this.position := position;
      this.scaleX := scaleX;
    }
  }
}
