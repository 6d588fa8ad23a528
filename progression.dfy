/**
 * The level/goal state machine that QuickTest keeps in its fields: the frame
 * counter, the count of consecutive frames at the goal, the goal height, the
 * level, the sign of gravity and the exit request. Each function below is the
 * effect on these fields of one piece of the sketch; the class in sketch.dfy
 * is proved to have exactly these effects.
 */
module Progression {
  import Screen

  const TimeLimit: int := 2000
  /** draw ignores the goal while frameCount <= SettleFrames */
  const SettleFrames: int := 250
  /** a level completes once passingCount exceeds Debounce */
  const Debounce: int := 110
  const GoalStep: int := 100
  const StartGoal: int := 200
  const FinalLevel: int := 5
  const StartGravityY: int := -40
  const FlippedGravityY: int := 40

  datatype LevelState = LevelState(
    frameCount: int,
    passingCount: int,
    goalHeight: int,
    level: int,
    gravityY: int,
    exitRequested: bool)

  /** The fields as setup leaves them. */
  function Initial(): LevelState {
    LevelState(0, 0, StartGoal, 1, StartGravityY, false)
  }

  /** Position of the goal line among its four heights 200, 300, 400, 500. */
  function GoalIndex(s: LevelState): int {
    (s.goalHeight - StartGoal) / GoalStep
  }

  /** The goal index one step further round the four heights. */
  function NextIndex(i: int): int {
    if i == 3 then 0 else i + 1
  }

  /** The goal is at one of its four heights and gravity points one of its two ways. */
  predicate GoalSane(s: LevelState) {
    StartGoal <= s.goalHeight < Screen.Height
    && (s.goalHeight - StartGoal) % GoalStep == 0
    && (s.gravityY == StartGravityY || s.gravityY == FlippedGravityY)
  }

  /** What holds between frames of every run that starts from Initial(). */
  predicate Sane(s: LevelState) {
    0 <= s.frameCount
    && 0 <= s.passingCount
    && (s.passingCount == 0 || s.passingCount <= s.frameCount - SettleFrames)
    && GoalSane(s)
    && 1 <= s.level
  }

  /** reset(lvl): counters zeroed, goal raised, wrapped (with gravity turned
      upwards) when it reaches the top, exit requested when lvl is the last. */
  function AfterReset(s: LevelState, lvl: int): (t: LevelState)
    ensures t.frameCount == 0 && t.passingCount == 0 && t.level == s.level
    ensures Sane(s) ==> Sane(t)
    ensures GoalSane(s) ==> GoalSane(t) && GoalIndex(t) == NextIndex(GoalIndex(s))
    ensures GoalSane(s) ==> t.gravityY == if GoalIndex(s) == 3 then FlippedGravityY else s.gravityY
    ensures t.exitRequested <==> s.exitRequested || lvl == FinalLevel
  {
    var raised := s.goalHeight + GoalStep;
    var exit := s.exitRequested || lvl == FinalLevel;
    if raised == Screen.Height then
      LevelState(0, 0, StartGoal, s.level, FlippedGravityY, exit)
    else
      LevelState(0, 0, raised, s.level, s.gravityY, exit)
  }

  /** Level completion as draw does it: reset(level), then level++. */
  function Complete(s: LevelState): LevelState {
    var t := AfterReset(s, s.level);
    t.(level := t.level + 1)
  }

  /** The frame counts towards the goal: past the settle window and at the goal. */
  predicate Qualifies(s: LevelState, reached: bool) {
    s.frameCount > SettleFrames && reached
  }

  /** The bookkeeping of one call of draw, given what reachedGoal would answer. */
  function AfterDraw(s: LevelState, reached: bool): (t: LevelState)
    ensures t.level == s.level || t.level == s.level + 1
    ensures t.level == s.level + 1 <==> Qualifies(s, reached) && s.passingCount >= Debounce
    ensures !Qualifies(s, reached) ==> t.passingCount == 0
    ensures t.level == s.level && Qualifies(s, reached) ==> t.passingCount == s.passingCount + 1
    ensures t.exitRequested <==>
              s.exitRequested || s.frameCount > TimeLimit || (t.level != s.level && s.level == FinalLevel)
    ensures t.level == s.level ==> t.frameCount == s.frameCount && t.goalHeight == s.goalHeight
                                   && t.gravityY == s.gravityY
    ensures t.level != s.level ==> t.frameCount == 0 && t.passingCount == 0
    ensures GoalSane(s) && t.level != s.level ==>
              GoalSane(t) && GoalIndex(t) == NextIndex(GoalIndex(s))
              && t.gravityY == if GoalIndex(s) == 3 then FlippedGravityY else s.gravityY
  {
    var exit := s.exitRequested || TimeLimit - s.frameCount < 0;
    var passing := if s.frameCount > SettleFrames && reached then s.passingCount + 1 else 0;
    var u := s.(passingCount := passing, exitRequested := exit);
    if passing > Debounce then Complete(u) else u
  }

  /** One frame of the running sketch: the framework advances frameCount, then draw runs. */
  function FrameStep(s: LevelState, reached: bool): (t: LevelState)
    ensures Sane(s) ==> Sane(t)
    ensures Sane(s) && t.level != s.level ==> s.frameCount + 1 > SettleFrames + Debounce
  {
    AfterDraw(s.(frameCount := s.frameCount + 1), reached)
  }

  /** The state after one frame per entry of rs, rs[i] being the goal test of frame i. */
  function Run(s: LevelState, rs: seq<bool>): LevelState
    decreases |rs|
  {
    if rs == [] then s else FrameStep(Run(s, rs[..|rs| - 1]), rs[|rs| - 1])
  }

  /** n level completions in a row. */
  function Completions(s: LevelState, n: nat): LevelState
    decreases n
  {
    if n == 0 then s else Complete(Completions(s, n - 1))
  }

  /** Every state reached from a sane one by frames is sane. */
  lemma {:induction false} RunStaysSane(s: LevelState, rs: seq<bool>)
    requires Sane(s)
    ensures Sane(Run(s, rs))
    decreases |rs|
  {
    if rs != [] {
      RunStaysSane(s, rs[..|rs| - 1]);
    }
  }

  /** The level never goes down, an exit request is never withdrawn, and while
      the level stays the same frameCount counts the frames. */
  lemma {:induction false} RunMonotone(s: LevelState, rs: seq<bool>)
    ensures Run(s, rs).level >= s.level
    ensures s.exitRequested ==> Run(s, rs).exitRequested
    ensures Run(s, rs).level == s.level ==> Run(s, rs).frameCount == s.frameCount + |rs|
    decreases |rs|
  {
    if rs != [] {
      RunMonotone(s, rs[..|rs| - 1]);
    }
  }

  /** passingCount is the number of consecutive frames, ending with the last,
      whose goal test was true. */
  lemma {:induction false} StreakCounts(s: LevelState, rs: seq<bool>)
    requires s.passingCount == 0
    ensures 0 <= Run(s, rs).passingCount <= |rs|
    ensures forall j :: |rs| - Run(s, rs).passingCount <= j < |rs| ==> rs[j]
    decreases |rs|
  {
    if rs != [] {
      var n := |rs|;
      StreakCounts(s, rs[..n - 1]);
      var k0 := Run(s, rs[..n - 1]).passingCount;
      assert forall j :: n - 1 - k0 <= j < n - 1 ==> rs[..n - 1][j] == rs[j];
    }
  }

  /** A frame r after frames p completes the level only if it ends Debounce + 1
      consecutive frames at the goal: r itself and the last Debounce of p. */
  lemma CompletionNeedsStreak(s: LevelState, p: seq<bool>, r: bool)
    requires s.passingCount == 0
    requires FrameStep(Run(s, p), r).level != Run(s, p).level
    ensures r && |p| >= Debounce
    ensures forall j :: |p| - Debounce <= j < |p| ==> p[j]
  {
    StreakCounts(s, p);
  }

  /** No level outlasts the time limit: once frameCount passes TimeLimit the
      level has been completed or the exit has been requested. */
  lemma {:induction false} TimeoutEndsLevel(s: LevelState, rs: seq<bool>)
    requires rs != [] && s.frameCount + |rs| > TimeLimit
    ensures Run(s, rs).exitRequested || Run(s, rs).level > s.level
    decreases |rs|
  {
    var n := |rs|;
    var p := rs[..n - 1];
    RunMonotone(s, p);
    if p != [] && s.frameCount + |p| > TimeLimit {
      TimeoutEndsLevel(s, p);
    }
  }

  lemma GoalIndexBounds(s: LevelState)
    requires GoalSane(s)
    ensures 0 <= GoalIndex(s) < 4
  {
  }

  /** One completion, in terms of the goal's position. */
  lemma CompleteStep(t: LevelState)
    requires Sane(t)
    ensures Sane(Complete(t)) && Complete(t).level == t.level + 1
    ensures GoalIndex(Complete(t)) == NextIndex(GoalIndex(t))
    ensures Complete(t).gravityY == if GoalIndex(t) == 3 then FlippedGravityY else t.gravityY
    ensures Complete(t).exitRequested <==> t.exitRequested || t.level == FinalLevel
  {
  }

  /** One completion, as far as the goal and gravity are concerned. */
  lemma CompleteGoalStep(t: LevelState)
    requires GoalSane(t)
    ensures GoalSane(Complete(t))
    ensures GoalIndex(Complete(t)) == NextIndex(GoalIndex(t))
    ensures Complete(t).gravityY == if GoalIndex(t) == 3 then FlippedGravityY else t.gravityY
  {
  }

  lemma ModStep(x: int)
    requires 0 <= x
    ensures NextIndex(x % 4) == (x + 1) % 4
    ensures x < 4 ==> x % 4 == x
  {
  }

  /** The goal index after n steps from index i. */
  function Cycle(i: int, n: nat): int
    decreases n
  {
    if n == 0 then i else NextIndex(Cycle(i, n - 1))
  }

  /** n steps round the four heights are addition modulo 4. */
  lemma {:induction false} CycleMod(i: int, n: nat)
    requires 0 <= i < 4
    ensures Cycle(i, n) == (i + n) % 4
    decreases n
  {
    if n > 0 {
      CycleMod(i, n - 1);
      ModStep(i + n - 1);
    } else {
      ModStep(i);
    }
  }

  /** Gravity after the n-th completion from index i and gravity y0, given
      index c and gravity y after the one before. */
  lemma GravityStep(i: int, n: int, c: int, y0: int, y: int, y2: int)
    requires 0 <= i < 4 && n >= 1 && c == (i + n - 1) % 4
    requires y == (if i + n - 1 >= 4 then FlippedGravityY else y0)
    requires y2 == (if c == 3 then FlippedGravityY else y)
    ensures y2 == if i + n >= 4 then FlippedGravityY else y0
  {
    ModStep(i + n - 1);
  }

  /** Level completions keep the state sane, climb one level each and request
      exit exactly when level FinalLevel is among those completed. */
  lemma {:induction false} CompletionLevels(s: LevelState, n: nat)
    requires Sane(s)
    ensures Sane(Completions(s, n))
    ensures Completions(s, n).level == s.level + n
    ensures Completions(s, n).exitRequested <==> s.exitRequested || s.level <= FinalLevel < s.level + n
    decreases n
  {
    if n > 0 {
      CompletionLevels(s, n - 1);
      CompleteStep(Completions(s, n - 1));
    }
  }

  /** Level completions step the goal round its four heights and turn
      gravity upwards the first time the goal wraps. */
  lemma {:induction false} CompletionGoals(s: LevelState, n: nat)
    requires GoalSane(s)
    ensures GoalSane(Completions(s, n))
    ensures GoalIndex(Completions(s, n)) == Cycle(GoalIndex(s), n)
    ensures Completions(s, n).gravityY == if GoalIndex(s) + n >= 4 then FlippedGravityY else s.gravityY
    decreases n
  {
    if n > 0 {
      CompletionGoals(s, n - 1);
      var t := Completions(s, n - 1);
      CompleteGoalStep(t);
      GoalIndexBounds(s);
      CycleMod(GoalIndex(s), n - 1);
      GravityStep(GoalIndex(s), n, GoalIndex(t), s.gravityY, t.gravityY, Complete(t).gravityY);
      assert Completions(s, n) == Complete(t);
    }
  }

  /** Level completions climb one level each, walk the goal through its four
      heights, turn gravity upwards the first time the goal wraps and request
      exit when level FinalLevel is the one completed. */
  lemma CompletionSchedule(s: LevelState, n: nat)
    requires Sane(s)
    ensures Sane(Completions(s, n))
    ensures Completions(s, n).level == s.level + n
    ensures GoalIndex(Completions(s, n)) == (GoalIndex(s) + n) % 4
    ensures Completions(s, n).gravityY == if GoalIndex(s) + n >= 4 then FlippedGravityY else s.gravityY
    ensures Completions(s, n).exitRequested <==> s.exitRequested || s.level <= FinalLevel < s.level + n
  {
    CompletionLevels(s, n);
    CompletionGoals(s, n);
    GoalIndexBounds(s);
    CycleMod(GoalIndex(s), n);
  }

  /** draw's "You beat the game!" message needs goalHeight == height, which
      no frame of a run from setup ever sees: reset wraps the goal first. */
  lemma {:induction false} BeatMessageUnreachable(rs: seq<bool>)
    ensures Run(Initial(), rs).goalHeight != Screen.Height
  {
    RunStaysSane(Initial(), rs);
  }

  /** Where a run from setup stands: the goal has moved one step per level
      completed, gravity is upwards from level 5 on, and every level past the
      final one comes with an exit request. */
  predicate OnSchedule(s: LevelState) {
    GoalIndex(s) == (s.level - 1) % 4
    && s.gravityY == (if s.level >= FinalLevel then FlippedGravityY else StartGravityY)
    && (s.level > FinalLevel ==> s.exitRequested)
  }

  /** Every state a run of frames from setup reaches is sane and on schedule. */
  lemma {:induction false} RunOnSchedule(rs: seq<bool>)
    ensures Sane(Run(Initial(), rs)) && OnSchedule(Run(Initial(), rs))
    decreases |rs|
  {
    if rs != [] {
      var p := rs[..|rs| - 1];
      RunOnSchedule(p);
      var s := Run(Initial(), p);
      var t := Run(Initial(), rs);
      assert t == FrameStep(s, rs[|rs| - 1]);
      if t.level != s.level {
        GoalIndexBounds(s);
        ModStep(s.level - 1);
      }
    }
  }

  /** Every run of frames from setup plays level 5 with the goal back at 200
      and gravity upwards, and has requested exit once level 5 is completed. */
  lemma FinalLevelUpsideDown(rs: seq<bool>)
    ensures Run(Initial(), rs).level == FinalLevel ==>
              Run(Initial(), rs).goalHeight == StartGoal && Run(Initial(), rs).gravityY == FlippedGravityY
    ensures Run(Initial(), rs).level > FinalLevel ==> Run(Initial(), rs).exitRequested
  {
    RunOnSchedule(rs);
  }
}
