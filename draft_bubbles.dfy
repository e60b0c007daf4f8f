/** The bubbles of the earlier drafts: the pool object of src/bubble.rs and
    the bubble type and generator that src/main.rs declares identically. */
module DraftBubbles {
  import opened Seqs
  import opened Game

  /** One bubble; `f32` coordinates are modelled as reals. */
  datatype Bubble = Bubble(x: real, y: real, velocityY: real, textureIdx: nat)
  {
    /** Risen above the top edge, or drifted past the left edge. */
    predicate Finished() { y < 0.0 || x < 0.0 }

    /** One frame: `x += xSpeed` (the speed is added, not subtracted), rise
        with its own velocity. */
    function MovedBy(xSpeed: real): Bubble { this.(x := x + xSpeed, y := y + velocityY) }

    /** The fields `generate` fixes for good. */
    predicate WellFormed() { velocityY == -3.0 && textureIdx < TextureCount }
  }

  const TextureCount := 3

  /** A frame moves a bubble right by `xSpeed` and up by 3 pixels, keeping
      what `generate` fixed. A bubble that has risen above the top edge stays
      there; one past the left edge comes back when `xSpeed` is positive,
      because the speed is added. */
  lemma BubbleMotion(b: Bubble, xSpeed: real)
    requires b.WellFormed()
    ensures b.MovedBy(xSpeed).WellFormed()
    ensures b.MovedBy(xSpeed).x == b.x + xSpeed && b.MovedBy(xSpeed).y == b.y - 3.0
    ensures b.y < 0.0 ==> b.MovedBy(xSpeed).Finished()
    ensures b.y >= 3.0 && b.x + xSpeed >= 0.0 ==> !b.MovedBy(xSpeed).Finished()
  {
  }

  /** The random draws of one bubble: x, the depth below the bottom edge and
      the texture. */
  datatype BubbleDraw = BubbleDraw(x: int, depth: int, textureIdx: int)

  /** The `gen_range` intervals for a `w` x `h` window. */
  predicate ValidDraw(d: BubbleDraw, w: nat, h: nat) {
    && 0 <= d.x < w + 600
    && 10 <= d.depth < 100
    && 0 <= d.textureIdx < TextureCount
  }

  /** A new bubble 10 to 99 pixels below the bottom edge, rising 3 pixels a frame. */
  function Generate(w: nat, h: nat, d: BubbleDraw): (b: Bubble)
    requires ValidDraw(d, w, h)
    ensures 0.0 <= b.x < (w + 600) as real
    ensures (h + 10) as real <= b.y < (h + 100) as real
    ensures b.velocityY == -3.0 && b.textureIdx < TextureCount
    ensures b.WellFormed() && !b.Finished()
  {
    Bubble(d.x as real, (h + d.depth) as real, -3.0, d.textureIdx)
  }

  function Alive(b: Bubble): bool { !b.Finished() }

  function Replenished(bs: seq<Bubble>, maxBubbles: nat, s: GameState, d: BubbleDraw): seq<Bubble>
    requires |bs| < maxBubbles ==> ValidDraw(d, s.windowWidth, s.windowHeight)
  {
    if |bs| < maxBubbles then bs + [Generate(s.windowWidth, s.windowHeight, d)] else bs
  }

  function MoveAll(bs: seq<Bubble>, xSpeed: real): seq<Bubble> {
    seq(|bs|, i requires 0 <= i < |bs| => bs[i].MovedBy(xSpeed))
  }

  /** The precondition on the draw: it is used only when the pool is under
      capacity once the finished bubbles are gone. */
  predicate DrawNeeded(bs: seq<Bubble>, maxBubbles: nat, s: GameState, d: BubbleDraw) {
    |Filter(bs, Alive)| < maxBubbles ==> ValidDraw(d, s.windowWidth, s.windowHeight)
  }

  /** The pool after `update`: drop the finished, replenish, move. */
  function Stepped(bs: seq<Bubble>, maxBubbles: nat, s: GameState, d: BubbleDraw): seq<Bubble>
    requires DrawNeeded(bs, maxBubbles, s, d)
  {
    MoveAll(Replenished(Filter(bs, Alive), maxBubbles, s, d), s.xSpeed as real)
  }

  /** The pool never outgrows its capacity, and grows by at most one. */
  lemma StepCapacity(bs: seq<Bubble>, maxBubbles: nat, s: GameState, d: BubbleDraw)
    requires DrawNeeded(bs, maxBubbles, s, d)
    ensures |Stepped(bs, maxBubbles, s, d)| <= |bs| + 1
    ensures |bs| <= maxBubbles ==> |Stepped(bs, maxBubbles, s, d)| <= maxBubbles
  {
  }

  /** Every bubble after `update` is a bubble that was alive before moving (an
      old survivor or the new one), moved by exactly `(xSpeed, velocityY)`.
      Because the move comes after the removal, a bubble may be finished
      after `update`; it is dropped on the next one. */
  lemma StepSurvivors(bs: seq<Bubble>, maxBubbles: nat, s: GameState, d: BubbleDraw)
    requires DrawNeeded(bs, maxBubbles, s, d)
    ensures var rep := Replenished(Filter(bs, Alive), maxBubbles, s, d);
      forall b :: b in Stepped(bs, maxBubbles, s, d) ==>
        exists q :: q in rep && !q.Finished() && b == q.MovedBy(s.xSpeed as real)
  {
    var kept := Filter(bs, Alive);
    var rep := Replenished(kept, maxBubbles, s, d);
    forall b | b in Stepped(bs, maxBubbles, s, d)
      ensures exists q :: q in rep && !q.Finished() && b == q.MovedBy(s.xSpeed as real)
    {
      var i :| 0 <= i < |rep| && MoveAll(rep, s.xSpeed as real)[i] == b;
      assert rep[i] in rep;
      if i < |kept| {
        assert rep[i] in kept;
      }
    }
  }

  /** The bubble pool of the draft. */
  class Bubbles {
    var bubbles: seq<Bubble>
    const maxBubbles: nat

    ghost predicate Valid()
      reads this
    {
      && |bubbles| <= maxBubbles
      && forall b :: b in bubbles ==> b.WellFormed()
    }

    /** Fills the pool with `maxBubbles` bubbles, one per draw. */
    constructor (maxBubbles: nat, w: nat, h: nat, draws: seq<BubbleDraw>)
      requires |draws| == maxBubbles
      requires forall i :: 0 <= i < |draws| ==> ValidDraw(draws[i], w, h)
      ensures Valid()
      ensures this.maxBubbles == maxBubbles
      ensures |bubbles| == maxBubbles
      ensures forall i :: 0 <= i < maxBubbles ==> bubbles[i] == Generate(w, h, draws[i])
    {
      var pool := [];
      var i := 0;
      while i < maxBubbles
        invariant 0 <= i <= maxBubbles
        invariant |pool| == i
        invariant forall j :: 0 <= j < i ==> pool[j] == Generate(w, h, draws[j])
      {
        pool := pool + [Generate(w, h, draws[i])];
        i := i + 1;
      }
      this.maxBubbles := maxBubbles;
      bubbles := pool;
    }

    /** Drops the finished bubbles, adds one when under capacity, then moves
        every bubble. */
    method Update(s: GameState, d: BubbleDraw)
      requires Valid()
      requires DrawNeeded(bubbles, maxBubbles, s, d)
      modifies this
      ensures Valid()
      ensures bubbles == Stepped(old(bubbles), maxBubbles, s, d)
    {
      var pool := Retain(bubbles, Alive);
      if |pool| < maxBubbles {
        pool := pool + [Generate(s.windowWidth, s.windowHeight, d)];
      }
      ghost var replenished := pool;
      assert forall b :: b in replenished ==> b.WellFormed() by {
        forall b | b in replenished
          ensures b.WellFormed()
        {
          if b in Filter(bubbles, Alive) {
            FilterMembership(bubbles, Alive, b);
          }
        }
      }

      var speed := s.xSpeed as real;
      var i := 0;
      while i < |pool|
        invariant 0 <= i <= |pool| == |replenished|
        invariant forall j :: 0 <= j < i ==> pool[j] == replenished[j].MovedBy(speed)
        invariant forall j :: i <= j < |pool| ==> pool[j] == replenished[j]
      {
        pool := pool[i := pool[i].MovedBy(speed)];
        i := i + 1;
      }
      assert pool == MoveAll(replenished, speed);
      StepCapacity(bubbles, maxBubbles, s, d);
      forall b | b in pool
        ensures b.WellFormed()
      {
        var k :| 0 <= k < |pool| && pool[k] == b;
        assert replenished[k] in replenished;
      }
      bubbles := pool;
    }
  }
}
