/** The aggregate of the actor-based game (src/actors.rs): it owns one
    instance of each actor and forwards `update`, `reset` and `switch_theme`
    to them in a fixed order. */
module Actors {
  import opened Game
  import Themes
  import SubPhysics
  import ActorSub
  import ActorBubbles
  import ActorPipes
  import ActorBackground
  import Score

  class Actors {
    const sub: ActorSub.Sub
    const bubbles: ActorBubbles.Bubbles
    const pipes: ActorPipes.Pipes
    const background: ActorBackground.Background
    const score: Score.Score

    ghost predicate Valid()
      reads this, sub, bubbles, pipes, background
    {
      sub.Valid() && bubbles.Valid() && pipes.Valid() && background.Valid()
    }

    constructor (sub: ActorSub.Sub, bubbles: ActorBubbles.Bubbles, pipes: ActorPipes.Pipes,
                 background: ActorBackground.Background, score: Score.Score)
      requires sub.Valid() && bubbles.Valid() && pipes.Valid() && background.Valid()
      ensures Valid()
      ensures this.sub == sub && this.bubbles == bubbles && this.pipes == pipes
      ensures this.background == background && this.score == score
    {
      this.sub := sub;
      this.bubbles := bubbles;
      this.pipes := pipes;
      this.background := background;
      this.score := score;
    }

    /** One frame for every actor, in the order background, sub, bubbles,
        pipes, score. Each actor changes only its own fields, so the result is
        each actor's own update applied to its own old state; the random
        draws each actor makes are passed in. */
    method Update(s: GameState, redraws: seq<int>, objectDraw: ActorBackground.ObjectDraw,
                  bubbleDraw: ActorBubbles.BubbleDraw, pipeDraw: ActorPipes.PipeDraw)
      requires Valid()
      requires ActorBackground.ValidRedraws(background.sandHighlights, s.xSpeed, redraws)
      requires ActorBackground.Due(s.fc, background.newObjectAtFc) ==>
                 ActorBackground.ValidObjectDraw(objectDraw, background.textureCount)
      requires |bubbles.bubbles| < bubbles.maxBubbles ==>
                 ActorBubbles.ValidDraw(bubbleDraw, s.windowWidth, s.windowHeight)
      requires ActorPipes.Due(s.fc, pipes.nextPipeAt) ==> ActorPipes.ValidDraw(pipeDraw, s.windowHeight)
      modifies sub, bubbles, pipes, background
      ensures Valid()
      ensures background.sandHighlights == ActorBackground.ScrollAll(old(background.sandHighlights), s.xSpeed, redraws)
      ensures background.objects == ActorBackground.SteppedObjects(old(background.objects), s,
                old(background.newObjectAtFc), objectDraw, background.textureCount)
      ensures background.newObjectAtFc == ActorBackground.NextMark(s.fc, old(background.newObjectAtFc), objectDraw)
      ensures sub.x == old(sub.x)
      ensures sub.Pose() == SubPhysics.SubStep(old(sub.Pose()), sub.gravity, s)
      ensures bubbles.bubbles == ActorBubbles.SteppedBubbles(old(bubbles.bubbles), bubbles.maxBubbles, s, bubbleDraw)
      ensures pipes.pipes == ActorPipes.Stepped(old(pipes.pipes), s, old(pipes.nextPipeAt), pipeDraw)
      ensures pipes.nextPipeAt == ActorPipes.NextMark(s, old(pipes.nextPipeAt), pipeDraw)
    {
      background.Update(s, redraws, objectDraw);
      sub.Update(s);
      bubbles.Update(s, bubbleDraw);
      pipes.Update(s, pipeDraw);
      score.Update(s);
    }

    /** Starts a new run: the sub goes back to its spawn point at rest and the
        pipe queue is emptied with the next pipe due at once; the scenery and
        the bubbles flow on untouched. None of the results depends on the
        state before, so a second reset changes nothing. */
    method Reset()
      requires Valid()
      modifies sub, pipes
      ensures Valid()
      ensures pipes.pipes == [] && pipes.nextPipeAt == 0
      ensures sub.x == sub.initialX && sub.y == sub.initialY && sub.angle == 0.0 && sub.velocity == 0.0
      ensures unchanged(background, bubbles)
    {
      background.Reset();
      sub.Reset();
      bubbles.Reset();
      pipes.Reset();
      score.Reset();
    }

    /** A new palette re-tints textures only: no position, list, counter or
        physics value of any actor changes. */
    method SwitchTheme(t: Themes.Theme)
      ensures unchanged(sub, bubbles, pipes, background)
    {
      background.SwitchTheme();
      sub.SwitchTheme();
      bubbles.SwitchTheme();
      pipes.SwitchTheme();
      score.SwitchTheme(t);
    }
  }
}
