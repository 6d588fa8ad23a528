/**
 * createBoxes' random sizes and positions. The Math.random() values the
 * method draws are supplied, two at a time: a Roll is either a candidate
 * (h, w) pair of the resampling loop or the (x, y) pair that places an
 * accepted box.
 */
module Spawning {
  import opened Optional
  import Screen

  /** Two consecutive Math.random() values. */
  datatype Roll = Roll(a: real, b: real)

  /** Width and height of a box before difficulty scaling must reach this. */
  const MinSide: real := 20.0

  predicate IsUnit(r: real) {
    0.0 <= r < 1.0
  }

  /** Every value is one Math.random() can return. */
  predicate UnitRolls(ps: seq<Roll>) {
    forall k :: 0 <= k < |ps| ==> IsUnit(ps[k].a) && IsUnit(ps[k].b)
  }

  /** Math.random() * 100 + 1 */
  function Side(r: real): real {
    r * 100.0 + 1.0
  }

  /** The loop test of the do-while, negated: neither h nor w is below 20. */
  predicate Accepts(p: Roll) {
    !(Side(p.a) < MinSide || Side(p.b) < MinSide)
  }

  /** The index of the first accepted candidate at or after pos. */
  function FirstFit(ps: seq<Roll>, pos: nat): (r: Option<nat>)
    ensures r.Some? ==> pos <= r.value < |ps| && Accepts(ps[r.value])
    ensures r.Some? ==> forall k :: pos <= k < r.value ==> !Accepts(ps[k])
    ensures r.None? <==> forall k :: pos <= k < |ps| ==> !Accepts(ps[k])
    decreases |ps| - pos
  {
    if pos >= |ps| then None
    else if Accepts(ps[pos]) then Some(pos)
    else FirstFit(ps, pos + 1)
  }

  /** The do-while of createBoxes: draw (h, w) until neither is below 20. */
  method SampleSides(ps: seq<Roll>, pos: nat) returns (h: real, w: real, next: nat)
    requires UnitRolls(ps)
    requires FirstFit(ps, pos).Some?
    ensures next == FirstFit(ps, pos).value + 1
    ensures h == Side(ps[next - 1].a) && w == Side(ps[next - 1].b)
    ensures MinSide <= h < 101.0 && MinSide <= w < 101.0
  {
    var i := pos;
    h := Side(ps[i].a);
    w := Side(ps[i].b);
    while h < MinSide || w < MinSide
      invariant pos <= i < |ps|
      invariant FirstFit(ps, i) == FirstFit(ps, pos)
      invariant h == Side(ps[i].a) && w == Side(ps[i].b)
      decreases |ps| - i
    {
      i := i + 1;
      h := Side(ps[i].a);
      w := Side(ps[i].b);
    }
    next := i + 1;
  }

  /** The width a box had before it was narrowed for the difficulty. */
  function Widened(w: real, difficulty: int): real {
    w * (difficulty as real * 0.8)
  }

  /** w /= (difficulty * 0.8) */
  function Narrowed(w: real, difficulty: int): real
    requires difficulty != 0
  {
    w / (difficulty as real * 0.8)
  }

  lemma PositiveProduct(a: real, b: real)
    requires a > 0.0 && b > 0.0
    ensures a * b > 0.0
  {
  }

  lemma NarrowedShrinks(w: real, difficulty: int)
    requires difficulty > 1 && w > 0.0
    ensures Narrowed(w, difficulty) < w
  {
    var k := difficulty as real * 0.8;
    var r := w / k;
    assert r * k == w;
    assert k > 1.0 && r > 0.0;
    PositiveProduct(r, k - 1.0);
    assert r * (k - 1.0) == r * k - r;
  }

  /** Narrowing divides by difficulty * 0.8: it widens a positive width at
      difficulty 1 and narrows it at every other difficulty. */
  lemma NarrowedUndone(w: real, difficulty: int)
    requires difficulty != 0
    ensures Widened(Narrowed(w, difficulty), difficulty) == w
    ensures w > 0.0 ==> (difficulty == 1 <==> Narrowed(w, difficulty) > w)
  {
    var k := difficulty as real * 0.8;
    var r := w / k;
    assert r * k == w;
    if w > 0.0 {
      if difficulty == 1 {
        assert k == 0.8;
      } else if difficulty > 1 {
        NarrowedShrinks(w, difficulty);
      } else {
        assert k < 0.0 && r < 0.0;
      }
    }
  }

  /** Width scaling follows the >= 20 check, so a width below 20 comes out
      for some sample exactly when the difficulty is not 1. */
  lemma NarrowKeepsMinimumOnlyAtOne(difficulty: int)
    requires difficulty != 0
    ensures (forall w :: MinSide <= w < 101.0 ==> Narrowed(w, difficulty) >= MinSide) <==> difficulty == 1
  {
    if difficulty == 1 {
      forall w | MinSide <= w < 101.0
        ensures Narrowed(w, difficulty) >= MinSide
      {
        NarrowedUndone(w, 1);
      }
    } else {
      NarrowedUndone(MinSide, difficulty);
      assert Narrowed(MinSide, difficulty) < MinSide;
    }
  }

  /** (int) (Math.random() * (width - 100)) and (int) (Math.random() * (height / 2) + 200) */
  function Place(p: Roll): (xy: (int, int))
    requires IsUnit(p.a) && IsUnit(p.b)
    ensures 0 <= xy.0 < Screen.Width - 100
    ensures 200 <= xy.1 < 200 + Screen.Height / 2
  {
    var x := p.a * (Screen.Width - 100) as real;
    assert (Screen.Height / 2) as real == 300.0;
    var y := p.b * (Screen.Height / 2) as real + 200.0;
    assert 0.0 <= x < 500.0 && 200.0 <= y < 500.0;
    (x.Floor, y.Floor)
  }

  /** What createBoxes hands to new Box(x, y, w, h). */
  datatype Spawn = Spawn(x: int, y: int, w: real, h: real)

  /** The bounds every spawned box satisfies. */
  predicate InRange(s: Spawn, difficulty: int) {
    0 <= s.x < Screen.Width - 100
    && 200 <= s.y < 200 + Screen.Height / 2
    && MinSide <= s.h < 101.0
    && MinSide <= Widened(s.w, difficulty) < 101.0
  }

  /** The Math.random() values one pass of createBoxes' loop draws: the (h, w)
      candidates of the do-while, then the (x, y) pair that places the box. */
  datatype Draw = Draw(tries: seq<Roll>, place: Roll)

  /** Every value is one Math.random() can return, and the do-while ends
      within tries. */
  predicate Drawable(dr: Draw) {
    UnitRolls(dr.tries) && IsUnit(dr.place.a) && IsUnit(dr.place.b)
    && FirstFit(dr.tries, 0).Some?
  }

  /** createBoxes makes this many boxes per call. */
  const BoxCount: nat := 10

  /** One draw for each pass of createBoxes' loop. */
  predicate Drawables(draws: seq<Draw>) {
    |draws| == BoxCount && forall i :: 0 <= i < |draws| ==> Drawable(draws[i])
  }

  /** The box one pass makes from its draw: the first accepted candidate gives
      h and the width before narrowing. */
  function SpawnOf(dr: Draw, difficulty: int): Spawn
    requires Drawable(dr) && difficulty != 0
  {
    var p := dr.tries[FirstFit(dr.tries, 0).value];
    var xy := Place(dr.place);
    Spawn(xy.0, xy.1, Narrowed(Side(p.b), difficulty), Side(p.a))
  }

  /** The boxes a whole call of createBoxes makes, one per draw. */
  function Spawns(draws: seq<Draw>, difficulty: int): (r: seq<Spawn>)
    requires Drawables(draws) && difficulty != 0
    ensures |r| == |draws|
    ensures forall j :: 0 <= j < |draws| ==> r[j] == SpawnOf(draws[j], difficulty)
  {
    seq(|draws|, j requires 0 <= j < |draws| => SpawnOf(draws[j], difficulty))
  }

  /** Every box has h in [20, 101), a width that was in [20, 101) before
      narrowing, and a spawn point in the upper part of the window. */
  lemma SpawnInRange(dr: Draw, difficulty: int)
    requires Drawable(dr) && difficulty != 0
    ensures InRange(SpawnOf(dr, difficulty), difficulty)
  {
    var k := FirstFit(dr.tries, 0).value;
    assert IsUnit(dr.tries[k].a) && IsUnit(dr.tries[k].b);
    NarrowedUndone(Side(dr.tries[k].b), difficulty);
  }
}
