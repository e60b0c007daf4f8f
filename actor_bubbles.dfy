/** The bubble particle pool of the actor-based game (src/actors/bubble.rs). */
module ActorBubbles {
  import opened Seqs
  import opened Game

  /** One bubble; the `f32` coordinates are modelled as reals. It rises with
      `velocityY` (negative) and pops once above `maxY`. */
  datatype Bubble = Bubble(x: real, y: real, maxY: real, velocityY: real, textureIdx: nat)
  {
    /** Popped, or drifted off the left edge. */
    predicate Finished() { y < maxY || x < 0.0 }

    /** One frame: drift left with the world, rise with its own velocity. */
    function Moved(speed: real): Bubble { this.(x := x - speed, y := y + velocityY) }

    /** The ranges `generate` gives the fields that never change afterwards. */
    predicate WellFormed() {
      -3.0 <= velocityY < -0.5 && textureIdx < TextureCount && maxY >= -20.0
    }
  }

  /** A frame moves a bubble left by the world speed and up by its own
      velocity, keeping what `generate` fixed; since a well-formed bubble
      always rises, for a non-negative speed a finished bubble stays finished. */
  lemma BubbleMotion(b: Bubble, speed: real)
    ensures b.Moved(speed).x == b.x - speed && b.Moved(speed).y == b.y + b.velocityY
    ensures b.Moved(speed).WellFormed() <==> b.WellFormed()
    ensures b.WellFormed() ==> b.Moved(speed).y < b.y
    ensures b.WellFormed() && speed >= 0.0 && b.Finished() ==> b.Moved(speed).Finished()
  {
  }

  /** Small, medium and large bubble textures. */
  const TextureCount := 3

  /** The random draws of one bubble: x position, pop height before capping,
      rising velocity and texture. */
  datatype BubbleDraw = BubbleDraw(x: int, maxY: int, velocityY: real, textureIdx: int)

  /** The `gen_range` intervals. `(y / 2.0) as i32` with `y = h as f32` and
      `h >= 0` is `h / 2`. */
  predicate ValidDraw(d: BubbleDraw, w: nat, h: nat) {
    && 0 <= d.x < w + 300
    && -200 <= d.maxY < h / 2
    && -3.0 <= d.velocityY < -0.5
    && 0 <= d.textureIdx < TextureCount
  }

  /** A new bubble at the bottom edge; its pop height is capped at -20, just
      above the top of the screen. */
  function Generate(w: nat, h: nat, d: BubbleDraw): (b: Bubble)
    requires ValidDraw(d, w, h)
    ensures 0.0 <= b.x < (w + 300) as real
    ensures b.y == h as real
    ensures -20.0 <= b.maxY < (h / 2) as real
    ensures -3.0 <= b.velocityY < -0.5
    ensures b.textureIdx < TextureCount
    ensures b.WellFormed() && !b.Finished()
  {
    var maxY := if d.maxY < -20 then -20 else d.maxY;
    Bubble(d.x as real, h as real, maxY as real, d.velocityY, d.textureIdx)
  }

  function Alive(b: Bubble): bool { !b.Finished() }

  /** The pool after the replenishing step: one new bubble while under capacity. */
  function Replenished(bs: seq<Bubble>, maxBubbles: nat, s: GameState, d: BubbleDraw): seq<Bubble>
    requires |bs| < maxBubbles ==> ValidDraw(d, s.windowWidth, s.windowHeight)
  {
    if |bs| < maxBubbles then bs + [Generate(s.windowWidth, s.windowHeight, d)] else bs
  }

  function MoveAll(bs: seq<Bubble>, speed: real): seq<Bubble> {
    seq(|bs|, i requires 0 <= i < |bs| => bs[i].Moved(speed))
  }

  /** The pool after `update`: replenish, move, drop the finished ones. */
  function SteppedBubbles(bs: seq<Bubble>, maxBubbles: nat, s: GameState, d: BubbleDraw): seq<Bubble>
    requires |bs| < maxBubbles ==> ValidDraw(d, s.windowWidth, s.windowHeight)
  {
    Filter(MoveAll(Replenished(bs, maxBubbles, s, d), s.xSpeed as real), Alive)
  }

  /** `update` adds at most one bubble, and only under capacity; a pool that
      starts within capacity stays within it. */
  lemma StepCapacity(bs: seq<Bubble>, maxBubbles: nat, s: GameState, d: BubbleDraw)
    requires |bs| < maxBubbles ==> ValidDraw(d, s.windowWidth, s.windowHeight)
    ensures |SteppedBubbles(bs, maxBubbles, s, d)| <= |bs| + 1
    ensures |bs| >= maxBubbles ==> |SteppedBubbles(bs, maxBubbles, s, d)| <= |bs|
    ensures |bs| <= maxBubbles ==> |SteppedBubbles(bs, maxBubbles, s, d)| <= maxBubbles
  {
  }

  /** After `update` every bubble is alive (not above its pop height, not past
      the left edge), each is a replenished bubble moved by exactly
      `(-xSpeed, velocityY)`, and the survivors keep their order. */
  lemma StepSurvivors(bs: seq<Bubble>, maxBubbles: nat, s: GameState, d: BubbleDraw)
    requires |bs| < maxBubbles ==> ValidDraw(d, s.windowWidth, s.windowHeight)
    ensures var r := SteppedBubbles(bs, maxBubbles, s, d);
      var rep := Replenished(bs, maxBubbles, s, d);
      && (forall b :: b in r ==> b.y >= b.maxY && b.x >= 0.0)
      && (forall b :: b in r ==> exists q :: q in rep && b == Bubble(q.x - s.xSpeed as real, q.y + q.velocityY, q.maxY, q.velocityY, q.textureIdx))
      && IsSubsequence(r, MoveAll(rep, s.xSpeed as real))
  {
    var rep := Replenished(bs, maxBubbles, s, d);
    var moved := MoveAll(rep, s.xSpeed as real);
    FilterIsSubsequence(moved, Alive);
    forall b | b in SteppedBubbles(bs, maxBubbles, s, d)
      ensures exists q :: q in rep && b == Bubble(q.x - s.xSpeed as real, q.y + q.velocityY, q.maxY, q.velocityY, q.textureIdx)
    {
      var i :| 0 <= i < |moved| && moved[i] == b;
      assert rep[i] in rep;
    }
  }

  /** The Bubbles actor: a pool of at most `maxBubbles` live bubbles. */
  class Bubbles {
    var bubbles: seq<Bubble>
    const maxBubbles: nat

    ghost predicate Valid()
      reads this
    {
      && |bubbles| <= maxBubbles
      && forall b :: b in bubbles ==> b.WellFormed() && !b.Finished()
    }

    /** Fills the pool with `maxBubbles` bubbles, one per draw. */
    constructor (maxBubbles: nat, w: nat, h: nat, draws: seq<BubbleDraw>)
      requires |draws| == maxBubbles
      requires forall i :: 0 <= i < |draws| ==> ValidDraw(draws[i], w, h)
      ensures Valid()
      ensures this.maxBubbles == maxBubbles
      ensures |bubbles| == maxBubbles
      ensures forall i :: 0 <= i < maxBubbles ==> bubbles[i] == Generate(w, h, draws[i])
    {
      var pool := [];
      var i := 0;
      while i < maxBubbles
        invariant 0 <= i <= maxBubbles
        invariant |pool| == i
        invariant forall j :: 0 <= j < i ==> pool[j] == Generate(w, h, draws[j])
      {
        pool := pool + [Generate(w, h, draws[i])];
        i := i + 1;
      }
      this.maxBubbles := maxBubbles;
      bubbles := pool;
    }

    /** Adds one bubble when under capacity, moves every bubble, then keeps
        the live ones. */
    method Update(s: GameState, d: BubbleDraw)
      requires Valid()
      requires |bubbles| < maxBubbles ==> ValidDraw(d, s.windowWidth, s.windowHeight)
      modifies this
      ensures Valid()
      ensures bubbles == SteppedBubbles(old(bubbles), maxBubbles, s, d)
    {
      var pool := bubbles;
      if |pool| < maxBubbles {
        var bubble := Generate(s.windowWidth, s.windowHeight, d);
        pool := pool + [bubble];
      }
      ghost var replenished := pool;
      assert forall b :: b in replenished ==> b.WellFormed();

      var speed := s.xSpeed as real;
      var i := 0;
      while i < |pool|
        invariant 0 <= i <= |pool| == |replenished|
        invariant forall j :: 0 <= j < i ==> pool[j] == replenished[j].Moved(speed)
        invariant forall j :: i <= j < |pool| ==> pool[j] == replenished[j]
      {
        pool := pool[i := pool[i].Moved(speed)];
        i := i + 1;
      }
      assert pool == MoveAll(replenished, speed);

      pool := Retain(pool, Alive);
      StepCapacity(bubbles, maxBubbles, s, d);
      forall b | b in pool
        ensures b.WellFormed()
      {
        var k :| 0 <= k < |MoveAll(replenished, speed)| && MoveAll(replenished, speed)[k] == b;
        assert replenished[k] in replenished;
      }
      bubbles := pool;
    }

    /** The palette only re-tints the bubble textures, which are not modelled. */
    method SwitchTheme()
      ensures unchanged(this)
    {
    }

    /** The bubbles keep flowing across runs: nothing is reset. */
    method Reset()
      ensures unchanged(this)
    {
    }
  }
}
