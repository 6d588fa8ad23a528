/**
 * What the sketch keeps in the Box2D world, seen from outside the engine:
 * which box bodies and which mouse joints are registered, and the gravity.
 * Positions, velocities, fixtures and stepping stay inside the engine; a
 * point-in-fixture test is handed to the model as a PointTest.
 */
module Physics {
  import Screen

  /** A falling box. Its width and height are fixed at creation; (x, y) is the
      pixel position its body was spawned at. */
  class Box {
    const x: int
    const y: int
    const w: real
    const h: real

    /** new Box(x, y, w, h): records the size and registers a dynamic body. */
    constructor (world: World, x: int, y: int, w: real, h: real)
      modifies world
      ensures this.x == x && this.y == y && this.w == w && this.h == h
      ensures world.bodies == old(world.bodies) + {this}
      ensures world.joints == old(world.joints) && world.gravityY == old(world.gravityY)
    {
      this.x, this.y, this.w, this.h := x, y, w, h;
      new;
      world.AddBody(this);
    }

    /** The box is past the bottom edge by more than w * h pixels. */
    predicate Offscreen(posY: real) {
      posY > Screen.Height as real + w * h
    }

    /** Box.killBody: removes this box's body from the world. */
    method KillBody(world: World)
      modifies world
      ensures world.bodies == old(world.bodies) - {this}
      ensures world.joints == set j | j in old(world.joints) && j.body != this
      ensures world.gravityY == old(world.gravityY)
    {
      world.DestroyBody(this);
    }

    /** Box.done, with the body's pixel y read from the engine supplied as posY. */
    method Done(world: World, posY: real) returns (d: bool)
      modifies world
      ensures d <==> Offscreen(posY)
      ensures world.bodies == if d then old(world.bodies) - {this} else old(world.bodies)
      ensures world.joints == if d then set j | j in old(world.joints) && j.body != this else old(world.joints)
      ensures world.gravityY == old(world.gravityY)
    {
      if posY > Screen.Height as real + w * h {
        KillBody(world);
        return true;
      }
      return false;
    }
  }

  /** A mouse joint pulling body towards the pixel target. */
  class Joint {
    const body: Box
    var target: (int, int)

    constructor (body: Box, target: (int, int))
      ensures this.body == body && this.target == target
    {
      this.body, this.target := body, target;
    }
  }

  /** Box.contains at the moment of a call: is pixel (x, y) inside the box's fixture? */
  type PointTest = (Box, int, int) -> bool

  /** The part of the Box2D world the sketch changes. Only the vertical
      component of gravity is kept: the sketch always sets x to 0. */
  class World {
    var bodies: set<Box>
    var joints: set<Joint>
    var gravityY: int

    constructor (gravityY: int)
      ensures bodies == {} && joints == {} && this.gravityY == gravityY
    {
      bodies, joints := {}, {};
      this.gravityY := gravityY;
    }

    method AddBody(b: Box)
      modifies this
      ensures bodies == old(bodies) + {b}
      ensures joints == old(joints) && gravityY == old(gravityY)
    {
      bodies := bodies + {b};
    }

    /** Destroying a body also destroys the joints attached to it. */
    method DestroyBody(b: Box)
      modifies this
      ensures bodies == old(bodies) - {b}
      ensures joints == set j | j in old(joints) && j.body != b
      ensures gravityY == old(gravityY)
    {
      bodies := bodies - {b};
      joints := set j | j in joints && j.body != b;
    }

    method CreateJoint(body: Box, target: (int, int)) returns (j: Joint)
      modifies this
      ensures fresh(j) && j.body == body && j.target == target
      ensures joints == old(joints) + {j} && |joints| == |old(joints)| + 1
      ensures bodies == old(bodies) && gravityY == old(gravityY)
    {
      j := new Joint(body, target);
      joints := joints + {j};
    }

    method DestroyJoint(j: Joint)
      modifies this
      ensures joints == old(joints) - {j}
      ensures bodies == old(bodies) && gravityY == old(gravityY)
    {
      joints := joints - {j};
    }

    method SetGravity(gy: int)
      modifies this
      ensures gravityY == gy
      ensures bodies == old(bodies) && joints == old(joints)
    {
      gravityY := gy;
    }
  }
}
