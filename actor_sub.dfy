/** The player's submarine in the actor-based game (src/actors/sub.rs). */
module ActorSub {
  import opened Game
  import opened SubPhysics

  class Sub {
    /** The spawn point `reset` returns to. */
    const initialX: int
    const initialY: int
    var x: int
    var y: int
    var angle: real
    var velocity: real
    const gravity: real
    const jumpStrength: real

    ghost predicate Valid()
      reads this
    {
      AngleInRange(angle)
    }

    /** The part of the state `update` may change. */
    function Pose(): Pose
      reads this
    {
      SubPhysics.Pose(y, angle, velocity)
    }

    /** A sub at rest at its spawn point, level, with gravity 0.2 and a jump of -5.0. */
    constructor (x: int, y: int)
      ensures Valid()
      ensures initialX == x && initialY == y && this.x == x && this.y == y
      ensures angle == 0.0 && velocity == 0.0
      ensures gravity == 0.2 && jumpStrength == -5.0
    {
      initialX, initialY := x, y;
      this.x, this.y := x, y;
      angle := 0.0;
      velocity := 0.0;
      gravity := 0.2;
      jumpStrength := -5.0;
    }

    /** One frame: the three phase tests of the game, in the game's order. */
    method Update(s: GameState)
      requires Valid()
      modifies this
      ensures Valid()
      ensures x == old(x)
      ensures Pose() == SubStep(old(Pose()), gravity, s)
    {
      if !s.gameStarted && !s.gameOver {
        angle := angle + 0.04;
        angle := FModTurn(angle);
      }
      if s.gameOver {
        angle := DeadAngle;
      }
      if s.gameStarted && !s.gameOver {
        angle := 0.0;
        velocity := velocity + gravity;
        y := y + TruncToInt(velocity);
        if velocity < -10.0 {
          velocity := -10.0;
        }
        if velocity > 10.0 {
          velocity := 10.0;
        }
        if y > s.windowHeight {
          y := s.windowHeight;
          velocity := 0.0;
        }
      }
      SubStepPhases(old(Pose()), gravity, s);
    }

    /** The palette only re-tints the texture, which is not modelled. */
    method SwitchTheme()
      ensures unchanged(this)
    {
    }

    /** Back to the spawn point, level and at rest, whatever the state was;
        the result depends on nothing but the spawn point, so a second reset
        changes nothing. */
    method Reset()
      modifies this
      ensures Valid()
      ensures x == initialX && y == initialY && angle == 0.0 && velocity == 0.0
    {
      x := initialX;
      y := initialY;
      angle := 0.0;
      velocity := 0.0;
    }

    /** The single 50x45 hitbox, drawn `bob` pixels below y, where `bob` is
        the truncated `sin(angle) * 10`: zero while level, -8 in the
        game-over pose (sin 180 = -0.801...). */
    method GetBoundingBoxes(bob: int) returns (boxes: seq<Rect>)
      requires -10 <= bob <= 10
      requires angle == 0.0 ==> bob == 0
      requires angle == DeadAngle ==> bob == -8
      ensures boxes == [Rect(x, y + bob, 50, 45)]
      ensures |boxes| == 1
      ensures boxes[0].x == x && boxes[0].width == 50 && boxes[0].height == 45
      ensures y - 10 <= boxes[0].y <= y + 10
      ensures angle == 0.0 ==> boxes[0].y == y
      ensures angle == DeadAngle ==> boxes[0].y == y - 8
    {
      boxes := [Rect(x, y + bob, 50, 45)];
    }
  }
}
