/**
 * The QuickTest applet: its fields, the spring that drags a box, and the
 * per-frame update, reset and spawning that drive the levels. The physics
 * world is the World of physics.dfy; the point tests of Box.contains at the
 * moment of a call are passed in as a PointTest.
 */
module Sketch {
  import opened Optional
  import Screen
  import opened Physics
  import opened Progression
  import opened Spawning

  /** Box.contains(x, y) for box b, as the world answers it. */
  predicate Inside(contains: PointTest, b: Box, x: int, y: int) {
    contains(b, x, y)
  }

  /** Some pixel column of the goal line, goalHeight above the bottom edge, lies in some box. */
  predicate GoalLineCovered(bs: seq<Box>, contains: PointTest, goalHeight: int) {
    RowCovered(bs, contains, Screen.Height - goalHeight)
  }

  /** Some pixel of row y, 0 <= x < width, lies in some box. */
  predicate RowCovered(bs: seq<Box>, contains: PointTest, y: int) {
    exists c, i :: 0 <= c < Screen.Width && 0 <= i < |bs| && Inside(contains, bs[i], c, y)
  }

  /** The index of the last box of bs that contains pixel (x, y). */
  function LastContaining(bs: seq<Box>, contains: PointTest, x: int, y: int): (r: Option<nat>)
    ensures r.Some? ==> r.value < |bs| && Inside(contains, bs[r.value], x, y)
    ensures r.Some? ==> forall j :: r.value < j < |bs| ==> !Inside(contains, bs[j], x, y)
    ensures r.None? <==> forall j :: 0 <= j < |bs| ==> !Inside(contains, bs[j], x, y)
    decreases |bs|
  {
    if bs == [] then None
    else if Inside(contains, bs[|bs| - 1], x, y) then Some(|bs| - 1)
    else LastContaining(bs[..|bs| - 1], contains, x, y)
  }

  /** How many boxes of bs contain pixel (x, y). */
  function CountContaining(bs: seq<Box>, contains: PointTest, x: int, y: int): (n: nat)
    ensures n <= |bs|
    ensures n == 0 <==> LastContaining(bs, contains, x, y).None?
    decreases |bs|
  {
    if bs == [] then 0
    else CountContaining(bs[..|bs| - 1], contains, x, y) + (if Inside(contains, bs[|bs| - 1], x, y) then 1 else 0)
  }

  /** The boxes the joints of js hold. */
  ghost function Bodies(js: set<Joint>): set<Box> {
    set j | j in js :: j.body
  }

  /** One more box scanned: how LastContaining and CountContaining grow from
      the prefix bs[..i] to bs[..i + 1]. */
  lemma ScanStep(bs: seq<Box>, i: int, contains: PointTest, x: int, y: int)
    requires 0 <= i < |bs|
    ensures LastContaining(bs[..i + 1], contains, x, y) ==
              if Inside(contains, bs[i], x, y) then Some(i) else LastContaining(bs[..i], contains, x, y)
    ensures CountContaining(bs[..i + 1], contains, x, y) ==
              CountContaining(bs[..i], contains, x, y) + if Inside(contains, bs[i], x, y) then 1 else 0
  {
    assert bs[..i + 1][..i] == bs[..i];
  }

  /** Box b was made by new Box(s.x, s.y, s.w, s.h). */
  predicate Made(b: Box, s: Spawn) {
    b.x == s.x && b.y == s.y && b.w == s.w && b.h == s.h
  }

  /** The mouse spring: a mouse joint, or none. */
  class Spring {
    const world: World
    var mouseJoint: Joint?

    constructor (world: World)
      ensures this.world == world && mouseJoint == null
    {
      this.world := world;
      mouseJoint := null;
    }

    /** The joint update may move. */
    function Bound(): set<Joint>
      reads this
    {
      if mouseJoint == null then {} else {mouseJoint}
    }

    /** Spring.update: moves the joint's target to the mouse; with no joint it
        may change nothing at all. */
    method Update(x: int, y: int)
      modifies Bound()
      ensures mouseJoint != null ==> mouseJoint.target == (x, y)
    {
      if mouseJoint != null {
        mouseJoint.target := (x, y);
      }
    }

    /** Spring.bind: a new joint from the mouse to box. A joint already bound is
        not destroyed: it stays in the world, no longer referenced. */
    method Bind(x: int, y: int, box: Box)
      modifies this, world
      ensures mouseJoint != null && fresh(mouseJoint)
      ensures mouseJoint.body == box && mouseJoint.target == (x, y)
      ensures world.joints == old(world.joints) + {mouseJoint} && |world.joints| == |old(world.joints)| + 1
      ensures world.bodies == old(world.bodies) && world.gravityY == old(world.gravityY)
    {
      mouseJoint := world.CreateJoint(box, (x, y));
    }

    /** Spring.destroy: removes the joint, if any, from the world. */
    method Destroy()
      modifies this, world
      ensures mouseJoint == null
      ensures world.joints == old(world.joints) - old(Bound())
      ensures world.bodies == old(world.bodies) && world.gravityY == old(world.gravityY)
      ensures old(mouseJoint) == null ==> unchanged(this, world)
    {
      if mouseJoint != null {
        world.DestroyJoint(mouseJoint);
        mouseJoint := null;
      }
    }
  }

  class QuickTest {
    const world: World
    const spring: Spring
    const difficulty: int
    var boxes: seq<Box>
    var frameCount: int
    var passingCount: int
    var goalHeight: int
    var level: int
    var exitRequested: bool

    /** The spring works in this world; exactly the listed boxes have bodies
        in it; a held joint is still in the world, on a listed box. */
    ghost predicate Valid()
      reads this, spring, world
    {
      spring.world == world && difficulty != 0
      && world.bodies == (set b | b in boxes)
      && (spring.mouseJoint != null ==> spring.mouseJoint in world.joints && spring.mouseJoint.body in boxes)
    }

    /** The level bookkeeping held in the fields. */
    function State(): LevelState
      reads this, world
    {
      LevelState(frameCount, passingCount, goalHeight, level, world.gravityY, exitRequested)
    }

    /** All boxes of gone are out of the world, and boxes holds exactly the
        boxes createBoxes makes from draws, each registered in the world. */
    ghost predicate Restocked(gone: seq<Box>, draws: seq<Draw>)
      requires Drawables(draws) && difficulty != 0
      reads this, world
    {
      (forall b :: b in gone ==> b !in world.bodies)
      && |boxes| == BoxCount
      && (forall i :: 0 <= i < BoxCount ==> boxes[i] in world.bodies && Made(boxes[i], SpawnOf(draws[i], difficulty)))
    }

    /** setup, without the boundaries, the prompt and the background image:
        gravity (0, -40), ten boxes, an unbound spring, goal at 200. */
    constructor (difficulty: int, draws: seq<Draw>)
      requires difficulty != 0 && Drawables(draws)
      ensures Valid() && State() == Initial()
      ensures fresh(world) && fresh(spring) && spring.mouseJoint == null
      ensures Restocked([], draws) && world.joints == {}
      ensures world.bodies == set b | b in boxes
    {
      this.difficulty := difficulty;
      var w := new World(StartGravityY);
      world := w;
      spring := new Spring(w);
      boxes := [];
      frameCount, passingCount, goalHeight, level, exitRequested := 0, 0, StartGoal, 1, false;
      new;
      CreateBoxes(difficulty, draws);
      assert boxes[0..] == boxes;
    }

    /** One pass of createBoxes' loop: sample until accepted, narrow the width,
        place the box and register its body. */
    method MakeBox(difficulty: int, dr: Draw) returns (b: Box)
      requires difficulty != 0 && Drawable(dr)
      modifies world
      ensures fresh(b) && Made(b, SpawnOf(dr, difficulty))
      ensures world.bodies == old(world.bodies) + {b}
      ensures world.joints == old(world.joints) && world.gravityY == old(world.gravityY)
    {
      var h, w, _ := SampleSides(dr.tries, 0);
      w := Narrowed(w, difficulty);
      var xy := Place(dr.place);
      b := new Box(world, xy.0, xy.1, w, h);
    }

    /** createBoxes: appends ten boxes, the i-th made from draws[i]. */
    method CreateBoxes(difficulty: int, draws: seq<Draw>)
      requires difficulty != 0 && Drawables(draws)
      modifies this`boxes, world
      ensures |boxes| == |old(boxes)| + BoxCount && boxes[..|old(boxes)|] == old(boxes)
      ensures forall i :: 0 <= i < BoxCount ==>
                fresh(boxes[|old(boxes)| + i]) && Made(boxes[|old(boxes)| + i], SpawnOf(draws[i], difficulty))
      ensures world.bodies == old(world.bodies) + set b | b in boxes[|old(boxes)|..]
      ensures fresh(world.bodies - old(world.bodies))
      ensures world.joints == old(world.joints) && world.gravityY == old(world.gravityY)
    {
      ghost var made: seq<Box> := [];
      ghost var spawns := Spawns(draws, difficulty);
      for i := 0 to BoxCount
        invariant |made| == i
        invariant boxes == old(boxes) + made
        invariant forall j :: 0 <= j < i ==> fresh(made[j]) && Made(made[j], spawns[j])
        invariant world.bodies == old(world.bodies) + set b | b in made
        invariant fresh(world.bodies - old(world.bodies))
        invariant world.joints == old(world.joints) && world.gravityY == old(world.gravityY)
      {
        var b := MakeBox(difficulty, draws[i]);
        boxes := boxes + [b];
        made := made + [b];
      }
      assert boxes[|old(boxes)|..] == made;
    }

    /** reset's two loops: kill every box's body, then remove the boxes from
        the list, last one first. */
    method ClearBoxes()
      modifies this`boxes, world
      ensures boxes == []
      ensures world.bodies == old(world.bodies) - set b | b in old(boxes)
      ensures world.joints == set j | j in old(world.joints) && j.body !in old(boxes)
      ensures world.gravityY == old(world.gravityY)
    {
      var i := 0;
      while i < |boxes|
        modifies world
        invariant 0 <= i <= |boxes|
        invariant world.bodies == old(world.bodies) - set b | b in boxes[..i]
        invariant world.joints == set j | j in old(world.joints) && j.body !in boxes[..i]
        invariant world.gravityY == old(world.gravityY)
      {
        assert boxes[..i + 1] == boxes[..i] + [boxes[i]];
        boxes[i].KillBody(world);
        i := i + 1;
      }
      assert boxes[..i] == old(boxes);
      var k := |boxes| - 1;
      while k >= 0
        modifies this`boxes
        invariant -1 <= k < |old(boxes)|
        invariant boxes == old(boxes)[..k + 1]
      {
        boxes := boxes[..k];
        k := k - 1;
      }
    }

    /** reset's box replacement: kill and remove every box, then create ten
        new ones. */
    method Restock(draws: seq<Draw>)
      requires difficulty != 0 && Drawables(draws)
      requires world.bodies == set b | b in boxes
      modifies this`boxes, world
      ensures Restocked(old(boxes), draws)
      ensures world.bodies == set b | b in boxes
      ensures forall i :: 0 <= i < |boxes| ==> fresh(boxes[i])
      ensures world.joints == set j | j in old(world.joints) && j.body !in old(boxes)
      ensures world.gravityY == old(world.gravityY)
    {
      ClearBoxes();
      ghost var kept := world.bodies;
      assert kept == {};
      CreateBoxes(difficulty, draws);
      assert boxes[0..] == boxes;
      forall b | b in old(boxes)
        ensures b !in world.bodies
      {
        assert old(allocated(b));
      }
    }

    /** reset: counters zeroed, goal raised (wrapping to 200 with gravity
        flipped once it reaches the top), every box killed and replaced by ten
        new ones, and exit requested after the final level. */
    method Reset(lvl: int, draws: seq<Draw>)
      requires Valid() && Drawables(draws)
      modifies this, world
      ensures State() == AfterReset(old(State()), lvl)
      ensures spring.mouseJoint == null ==> Valid()
      ensures spring.mouseJoint != null ==> spring.mouseJoint !in world.joints
      ensures Restocked(old(boxes), draws)
      ensures forall i :: 0 <= i < |boxes| ==> fresh(boxes[i])
      ensures world.bodies == (old(world.bodies) - set b | b in old(boxes)) + set b | b in boxes
      ensures world.joints == set j | j in old(world.joints) && j.body !in old(boxes)
    {
      frameCount := 0;
      passingCount := 0;
      goalHeight := goalHeight + GoalStep;
      Restock(draws);
      if goalHeight == Screen.Height {
        goalHeight := StartGoal;
        world.SetGravity(FlippedGravityY);
      }
      if lvl == FinalLevel {
        exitRequested := true;
      }
    }

    /** reachedGoal: false while a box is held; otherwise whether some box
        covers some pixel of the goal line, scanned column by column. */
    method ReachedGoal(contains: PointTest) returns (r: bool)
      ensures r <==> GoalHeld(contains)
    {
      if spring.mouseJoint != null {
        return false;
      }
      var y := Screen.Height - goalHeight;
      var c := 0;
      while c < Screen.Width
        invariant 0 <= c <= Screen.Width
        invariant forall c', i :: 0 <= c' < c && 0 <= i < |boxes| ==> !Inside(contains, boxes[i], c', y)
      {
        var i := 0;
        while i < |boxes|
          invariant 0 <= i <= |boxes|
          invariant forall i' :: 0 <= i' < i ==> !Inside(contains, boxes[i'], c, y)
        {
          if Inside(contains, boxes[i], c, y) {
            return true;
          }
          i := i + 1;
        }
        c := c + 1;
      }
      return false;
    }

    /** The goal test draw makes: reachedGoal's answer. */
    ghost predicate GoalHeld(contains: PointTest)
      reads this, spring
    {
      spring.mouseJoint == null && GoalLineCovered(boxes, contains, goalHeight)
    }

    /** draw, without rendering and the physics step: move the spring to the
        mouse, request exit once time has run out, count consecutive frames
        at the goal after frame 250, and reset into the next level once the
        count passes 110. */
    method Draw(mouseX: int, mouseY: int, contains: PointTest, draws: seq<Draw>)
      requires Valid() && Drawables(draws)
      modifies this, world, spring.Bound()
      ensures Valid() && State() == AfterDraw(old(State()), old(GoalHeld(contains)))
      ensures spring.mouseJoint == old(spring.mouseJoint)
      ensures spring.mouseJoint != null ==> spring.mouseJoint.target == (mouseX, mouseY)
      ensures level == old(level) ==>
                boxes == old(boxes) && world.bodies == old(world.bodies) && world.joints == old(world.joints)
      ensures level != old(level) ==> old(spring.mouseJoint) == null && Restocked(old(boxes), draws)
      ensures level != old(level) ==>
                world.bodies == (old(world.bodies) - set b | b in old(boxes)) + set b | b in boxes
      ensures level != old(level) ==>
                world.joints == set j | j in old(world.joints) && j.body !in old(boxes)
    {
      spring.Update(mouseX, mouseY);
      if TimeLimit - frameCount < 0 {
        exitRequested := true;
      }
      var reached := false;
      if frameCount > SettleFrames {
        reached := ReachedGoal(contains);
      }
      if reached {
        passingCount := passingCount + 1;
      } else {
        passingCount := 0;
      }
      if passingCount > Debounce {
        Reset(level, draws);
        level := level + 1;
      }
    }

    /** One frame as Processing runs it: frameCount is incremented, then draw. */
    method HandleDraw(mouseX: int, mouseY: int, contains: PointTest, draws: seq<Draw>)
      requires Valid() && Drawables(draws)
      modifies this, world, spring.Bound()
      ensures Valid() && State() == FrameStep(old(State()), old(GoalHeld(contains)))
      ensures spring.mouseJoint == old(spring.mouseJoint)
      ensures spring.mouseJoint != null ==> spring.mouseJoint.target == (mouseX, mouseY)
      ensures level == old(level) ==>
                boxes == old(boxes) && world.bodies == old(world.bodies) && world.joints == old(world.joints)
      ensures level != old(level) ==> old(spring.mouseJoint) == null && Restocked(old(boxes), draws)
      ensures level != old(level) ==>
                world.bodies == (old(world.bodies) - set b | b in old(boxes)) + set b | b in boxes
      ensures level != old(level) ==>
                world.joints == set j | j in old(world.joints) && j.body !in old(boxes)
    {
      frameCount := frameCount + 1;
      Draw(mouseX, mouseY, contains, draws);
    }

    /** What mousePressed's loop has done once it has scanned boxes[..i],
        starting from joints j0 and held joint m0: the last box under the
        mouse is held, and each box under the mouse got one new joint at the
        mouse. */
    ghost predicate Scanned(i: int, j0: set<Joint>, m0: Joint?, mouseX: int, mouseY: int, contains: PointTest)
      reads this, spring, world, world.joints
    {
      && 0 <= i <= |boxes|
      && spring.world == world
      && (LastContaining(boxes[..i], contains, mouseX, mouseY).None? ==>
            spring.mouseJoint == m0 && world.joints == j0)
      && (LastContaining(boxes[..i], contains, mouseX, mouseY).Some? ==>
            spring.mouseJoint != null && spring.mouseJoint in world.joints
            && spring.mouseJoint.body == boxes[LastContaining(boxes[..i], contains, mouseX, mouseY).value]
            && spring.mouseJoint.target == (mouseX, mouseY))
      && j0 <= world.joints
      && |world.joints| == |j0| + CountContaining(boxes[..i], contains, mouseX, mouseY)
      && (forall j :: j in world.joints && j !in j0 ==>
            j.body in boxes && Inside(contains, j.body, mouseX, mouseY) && j.target == (mouseX, mouseY))
      && (forall k :: 0 <= k < i && Inside(contains, boxes[k], mouseX, mouseY) ==>
            boxes[k] in Bodies(world.joints - j0))
    }

    /** One pass of mousePressed's loop: binds the spring to boxes[k] if it
        lies under the mouse, so one more box is scanned. */
    method Press(k: int, ghost j0: set<Joint>, ghost m0: Joint?, mouseX: int, mouseY: int, contains: PointTest)
      requires k < |boxes| && Scanned(k, j0, m0, mouseX, mouseY, contains)
      modifies spring, world
      ensures Scanned(k + 1, j0, m0, mouseX, mouseY, contains)
      ensures world.bodies == old(world.bodies) && world.gravityY == old(world.gravityY)
      ensures old(world.joints) <= world.joints
      ensures forall j :: j in world.joints && j !in old(world.joints) ==> fresh(j)
      ensures Inside(contains, boxes[k], mouseX, mouseY) ==> fresh(spring.mouseJoint)
      ensures !Inside(contains, boxes[k], mouseX, mouseY) ==> spring.mouseJoint == old(spring.mouseJoint)
    {
      ScanStep(boxes, k, contains, mouseX, mouseY);
      if Inside(contains, boxes[k], mouseX, mouseY) {
        Grab(k, j0, m0, mouseX, mouseY, contains);
      }
    }

    /** The bind of one pass of mousePressed's loop, for a box under the mouse. */
    method Grab(k: int, ghost j0: set<Joint>, ghost m0: Joint?, mouseX: int, mouseY: int, contains: PointTest)
      requires k < |boxes| && Scanned(k, j0, m0, mouseX, mouseY, contains)
      requires Inside(contains, boxes[k], mouseX, mouseY)
      requires LastContaining(boxes[..k + 1], contains, mouseX, mouseY) == Some(k)
      requires CountContaining(boxes[..k + 1], contains, mouseX, mouseY) == CountContaining(boxes[..k], contains, mouseX, mouseY) + 1
      modifies spring, world
      ensures Scanned(k + 1, j0, m0, mouseX, mouseY, contains)
      ensures world.bodies == old(world.bodies) && world.gravityY == old(world.gravityY)
      ensures world.joints == old(world.joints) + {spring.mouseJoint}
      ensures fresh(spring.mouseJoint)
    {
      spring.Bind(mouseX, mouseY, boxes[k]);
    }

    /** mousePressed: binds the spring to every box under the mouse in list
        order, so the last such box ends up held; each bind adds a joint. */
    method MousePressed(mouseX: int, mouseY: int, contains: PointTest)
      requires Valid()
      modifies spring, world
      ensures Valid()
      ensures world.bodies == old(world.bodies) && world.gravityY == old(world.gravityY)
      ensures LastContaining(boxes, contains, mouseX, mouseY).None? ==>
                spring.mouseJoint == old(spring.mouseJoint) && world.joints == old(world.joints)
      ensures LastContaining(boxes, contains, mouseX, mouseY).Some? ==>
                spring.mouseJoint != null && fresh(spring.mouseJoint)
                && spring.mouseJoint.body == boxes[LastContaining(boxes, contains, mouseX, mouseY).value]
                && spring.mouseJoint.target == (mouseX, mouseY)
      ensures old(world.joints) <= world.joints
      ensures |world.joints| == |old(world.joints)| + CountContaining(boxes, contains, mouseX, mouseY)
      ensures forall j :: j in world.joints && j !in old(world.joints) ==>
                fresh(j) && j.body in boxes && Inside(contains, j.body, mouseX, mouseY)
                && j.target == (mouseX, mouseY)
      ensures forall k :: 0 <= k < |boxes| && Inside(contains, boxes[k], mouseX, mouseY) ==>
                exists j :: j in world.joints && j !in old(world.joints) && j.body == boxes[k]
    {
      for i := 0 to |boxes|
        invariant Scanned(i, old(world.joints), old(spring.mouseJoint), mouseX, mouseY, contains)
        invariant world.bodies == old(world.bodies) && world.gravityY == old(world.gravityY)
        invariant forall j :: j in world.joints && j !in old(world.joints) ==> fresh(j)
        invariant LastContaining(boxes[..i], contains, mouseX, mouseY).Some? ==> fresh(spring.mouseJoint)
      {
        assert boxes[..i + 1][..i] == boxes[..i];
        Press(i, old(world.joints), old(spring.mouseJoint), mouseX, mouseY, contains);
      }
      assert boxes[..|boxes|] == boxes;
    }

    /** mouseReleased: lets go of the held box, if any. */
    method MouseReleased()
      requires Valid()
      modifies spring, world
      ensures Valid() && spring.mouseJoint == null
      ensures world.joints == old(world.joints) - old(spring.Bound())
      ensures world.bodies == old(world.bodies) && world.gravityY == old(world.gravityY)
      ensures old(spring.mouseJoint) == null ==> unchanged(spring, world)
    {
      spring.Destroy();
    }
  }
}
