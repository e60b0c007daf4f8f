/** The submarine's per-frame physics, identical in src/actors/sub.rs and
    src/sub.rs: truncating float-to-int conversion, the playing step with its
    clamps, and the pregame bobbing angle. `f32` values are modelled as reals. */
module SubPhysics {
  import opened Game

  /** Rust's `v as i32` on a float: truncation toward zero. */
  function TruncToInt(v: real): (n: int)
    ensures v >= 0.0 ==> n as real <= v < n as real + 1.0
    ensures v < 0.0 ==> n as real - 1.0 < v <= n as real
  {
    if v >= 0.0 then v.Floor else -((-v).Floor)
  }

  /** `2.0 * std::f32::consts::PI`, written as the shortest decimal that
      denotes that `f32`. */
  const TwoPi: real := 6.2831855

  /** Rust's float `%` by 2π: `a - trunc(a / 2π) * 2π`, so the remainder
      carries the sign of the dividend. */
  function FModTurn(a: real): (r: real)
    ensures a >= 0.0 ==> 0.0 <= r < TwoPi
    ensures a < 0.0 ==> -TwoPi < r <= 0.0
  {
    a - TruncToInt(a / TwoPi) as real * TwoPi
  }

  /** The pregame bob: `angle += 0.04; angle %= 2π`. */
  function Bobbed(angle: real): real {
    FModTurn(angle + 0.04)
  }

  /** From any non-negative angle (including the game-over pose 180) the bob
      lands in one turn, [0, 2π). */
  lemma BobbedInTurn(angle: real)
    requires angle >= 0.0
    ensures 0.0 <= Bobbed(angle) < TwoPi
  {
  }

  /** The upside-down pose after a crash (`self.angle = 180.0`). */
  const DeadAngle: real := 180.0

  /** The two quantities a playing frame changes. */
  datatype Motion = Motion(y: int, velocity: real)

  /** One playing frame: `velocity += gravity; y += velocity as i32`, then the
      velocity is clamped to [-10, 10] and a sub below the floor is put back
      on it at rest. */
  function PlayingStep(y: int, velocity: real, gravity: real, floor: int): (m: Motion)
    ensures -10.0 <= m.velocity <= 10.0
    ensures m.y <= floor
    ensures var target := y + TruncToInt(velocity + gravity);
      && (target > floor ==> m.y == floor && m.velocity == 0.0)
      && (target <= floor ==> m.y == target)
      && (target <= floor && -10.0 <= velocity + gravity <= 10.0 ==> m.velocity == velocity + gravity)
      && (target <= floor && velocity + gravity > 10.0 ==> m.velocity == 10.0)
      && (target <= floor && velocity + gravity < -10.0 ==> m.velocity == -10.0)
  {
    var v := velocity + gravity;
    var y' := y + TruncToInt(v);
    var v' := if v < -10.0 then -10.0 else if v > 10.0 then 10.0 else v;
    if y' > floor then Motion(floor, 0.0) else Motion(y', v')
  }

  /** `n` consecutive playing frames without input. */
  function PlayingFrames(m: Motion, gravity: real, floor: int, n: nat): Motion
    decreases n
  {
    if n == 0 then m else PlayingFrames(PlayingStep(m.y, m.velocity, gravity, floor), gravity, floor, n - 1)
  }

  /** However many gravity accumulations occur, the velocity stays within
      [-10, 10] and the sub never sinks below the floor. */
  lemma {:induction false} FramesStayBounded(m: Motion, gravity: real, floor: int, n: nat)
    requires n > 0
    decreases n
    ensures -10.0 <= PlayingFrames(m, gravity, floor, n).velocity <= 10.0
    ensures PlayingFrames(m, gravity, floor, n).y <= floor
  {
    if n > 1 {
      FramesStayBounded(PlayingStep(m.y, m.velocity, gravity, floor), gravity, floor, n - 1);
    }
  }

  /** Ten frames from rest at y = 100 with gravity 0.2 in a 600-pixel window:
      truncating each frame's velocity (0.2, 0.4, ..., 2.0 gives
      0, 0, 0, 0, 1, 1, 1, 1, 1, 2) moves the sub 7 pixels, and the velocity
      reaches 2.0. */
  lemma TenFramesFromRest()
    ensures PlayingFrames(Motion(100, 0.0), 0.2, 600, 10) == Motion(107, 2.0)
  {
    var m := Motion(100, 0.0);
    m := PlayingStep(m.y, m.velocity, 0.2, 600); assert m == Motion(100, 0.2);
    m := PlayingStep(m.y, m.velocity, 0.2, 600); assert m == Motion(100, 0.4);
    m := PlayingStep(m.y, m.velocity, 0.2, 600); assert m == Motion(100, 0.6);
    m := PlayingStep(m.y, m.velocity, 0.2, 600); assert m == Motion(100, 0.8);
    m := PlayingStep(m.y, m.velocity, 0.2, 600); assert m == Motion(101, 1.0);
    m := PlayingStep(m.y, m.velocity, 0.2, 600); assert m == Motion(102, 1.2);
    m := PlayingStep(m.y, m.velocity, 0.2, 600); assert m == Motion(103, 1.4);
    m := PlayingStep(m.y, m.velocity, 0.2, 600); assert m == Motion(104, 1.6);
    m := PlayingStep(m.y, m.velocity, 0.2, 600); assert m == Motion(105, 1.8);
    m := PlayingStep(m.y, m.velocity, 0.2, 600); assert m == Motion(107, 2.0);
    assert PlayingFrames(Motion(100, 0.0), 0.2, 600, 10) == m;
  }

  /** The part of the sub that `update` may change. */
  datatype Pose = Pose(y: int, angle: real, velocity: real)

  /** The sub's `update` as one case split on the phase: bob while neither
      flag is set, turn upside down once the game is over, otherwise fall
      under gravity with the clamps of `PlayingStep`. */
  function SubStep(p: Pose, gravity: real, s: GameState): Pose {
    if s.gameOver then p.(angle := DeadAngle)
    else if !s.gameStarted then p.(angle := Bobbed(p.angle))
    else
      var m := PlayingStep(p.y, p.velocity, gravity, s.windowHeight);
      Pose(m.y, 0.0, m.velocity)
  }

  /** The angles the sub can hold: within one turn, or the game-over pose. */
  predicate AngleInRange(angle: real) {
    0.0 <= angle < TwoPi || angle == DeadAngle
  }

  /** What each phase of `update` promises. Pregame and game over leave y and
      the velocity alone (pregame keeps the angle within one turn, game over
      sets it to 180); playing zeroes the angle, moves y by the truncated
      velocity-plus-gravity, keeps the velocity within [-10, 10] and the sub
      at or above the floor, resting on it when it would have sunk below. */
  lemma SubStepPhases(p: Pose, gravity: real, s: GameState)
    requires AngleInRange(p.angle)
    ensures var q := SubStep(p, gravity, s);
      && AngleInRange(q.angle)
      && (s.Pregame() ==> q.y == p.y && q.velocity == p.velocity && 0.0 <= q.angle < TwoPi)
      && (s.gameOver ==> q == Pose(p.y, DeadAngle, p.velocity))
      && (s.Playing() ==>
            && q.angle == 0.0
            && -10.0 <= q.velocity <= 10.0
            && q.y <= s.windowHeight
            && (p.y + TruncToInt(p.velocity + gravity) <= s.windowHeight ==> q.y == p.y + TruncToInt(p.velocity + gravity))
            && (p.y + TruncToInt(p.velocity + gravity) > s.windowHeight ==> q.y == s.windowHeight && q.velocity == 0.0))
  {
    if s.Pregame() {
      BobbedInTurn(p.angle);
    }
  }
}
