/** The submarine of the earlier draft (src/sub.rs): the same physics as the
    actor version, but no spawn point and no `reset`. */
module DraftSub {
  import opened Game
  import opened SubPhysics

  class Sub {
    var x: int
    var y: int
    var angle: real
    var velocity: real
    const gravity: real
    const jumpStrength: real

    ghost predicate Valid()
      reads this
    {
      AngleInRange(angle)
    }

    /** The part of the state `update` may change. */
    function Pose(): Pose
      reads this
    {
      SubPhysics.Pose(y, angle, velocity)
    }

    /** A sub at rest at (x, y), level, with gravity 0.2 and a jump of -5.0. */
    constructor (x: int, y: int)
      ensures Valid()
      ensures this.x == x && this.y == y
      ensures angle == 0.0 && velocity == 0.0
      ensures gravity == 0.2 && jumpStrength == -5.0
    {
      this.x, this.y := x, y;
      angle := 0.0;
      velocity := 0.0;
      gravity := 0.2;
      jumpStrength := -5.0;
    }

    /** One frame: the three phase tests, in the draft's order. */
    method Update(s: GameState)
      requires Valid()
      modifies this
      ensures Valid()
      ensures x == old(x)
      ensures Pose() == SubStep(old(Pose()), gravity, s)
    {
      if !s.gameStarted && !s.gameOver {
        angle := angle + 0.04;
        angle := FModTurn(angle);
      }
      if s.gameOver {
        angle := DeadAngle;
      }
      if s.gameStarted && !s.gameOver {
        angle := 0.0;
        velocity := velocity + gravity;
        y := y + TruncToInt(velocity);
        if velocity < -10.0 {
          velocity := -10.0;
        }
        if velocity > 10.0 {
          velocity := 10.0;
        }
        if y > s.windowHeight {
          y := s.windowHeight;
          velocity := 0.0;
        }
      }
      SubStepPhases(old(Pose()), gravity, s);
    }

    /** The palette only re-tints the texture, which is not modelled. */
    method SwitchTheme()
      ensures unchanged(this)
    {
    }
  }
}
