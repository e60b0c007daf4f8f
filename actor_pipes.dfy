/** The obstacle queue of the actor-based game (src/actors/pipe.rs). */
module ActorPipes {
  import opened Seqs
  import opened Game

  /** One obstacle pair: `topOffset` is the lower edge of the top pipe,
      `bottomOffset` the upper edge of the bottom pipe. */
  datatype Pipe = Pipe(x: int, topOffset: int, bottomOffset: int)
  {
    /** Off-screen to the left (`x < -50.0 as i32`). */
    predicate Finished() { x < -50 }

    /** One frame of scrolling. */
    function Moved(speed: int): Pipe { this.(x := x - speed) }

    /** The gap lies at least 50 pixels below the top and is 150 to 249 pixels high. */
    predicate WellFormed() {
      topOffset >= 50 && 150 <= bottomOffset - topOffset <= 249
    }
  }

  /** Scrolling moves a pipe left and nothing else: two scrolls add up, the
      gap is kept, and for a non-negative speed a pipe that is off-screen
      stays off-screen, so dropping it never loses a pipe that would return. */
  lemma ScrollingPipe(p: Pipe, a: int, b: int)
    ensures p.Moved(a).Moved(b) == p.Moved(a + b)
    ensures p.Moved(a).WellFormed() <==> p.WellFormed()
    ensures p.Moved(a).Finished() <==> p.x < a - 50
    ensures a >= 0 && p.Finished() ==> p.Moved(a).Finished()
  {
  }

  /** The three random draws of one spawn: the hole size, the hole offset
      and the delay until the next spawn. */
  datatype PipeDraw = PipeDraw(holeSize: int, holeOffset: int, delay: int)

  /** The `gen_range` intervals the draws come from for a window of height
      `height` (`height - hole_size - 50` is computed in `u32`). */
  predicate ValidDraw(d: PipeDraw, height: int) {
    && 150 <= d.holeSize < 250
    && 50 <= d.holeOffset < height - d.holeSize - 50
    && 75 <= d.delay < 200
  }

  /** A hole offset can be drawn for a hole of size `holeSize`: the range
      `50..height - holeSize - 50` is not empty. */
  predicate OffsetFits(height: int, holeSize: int) {
    50 < height - holeSize - 50
  }

  /** Every hole size can be followed by a hole offset exactly when the
      window is at least 350 pixels high; below that the offset range is
      empty for some hole size and `generate` panics. */
  lemma OffsetRangeNonEmpty(height: int)
    ensures (forall h :: 150 <= h < 250 ==> OffsetFits(height, h)) <==> height >= 350
  {
    if height < 350 {
      assert !OffsetFits(height, 249);
    }
  }

  /** A new obstacle at `x` whose gap is fully on screen. */
  function Generate(x: int, height: int, d: PipeDraw): (p: Pipe)
    requires ValidDraw(d, height)
    ensures p.x == x
    ensures p.topOffset >= 50
    ensures 150 <= p.bottomOffset - p.topOffset <= 249
    ensures p.bottomOffset < height - 50
  {
    Pipe(x, d.holeOffset, d.holeOffset + d.holeSize)
  }

  /** Spawn rule: a pipe is due when the frame counter has passed the mark. */
  predicate Due(fc: int, nextPipeAt: int) { fc > nextPipeAt }

  /** The queue after the spawn step of `update`. */
  function Spawned(ps: seq<Pipe>, s: GameState, nextPipeAt: int, d: PipeDraw): seq<Pipe>
    requires Due(s.fc, nextPipeAt) ==> ValidDraw(d, s.windowHeight)
  {
    if Due(s.fc, nextPipeAt) then ps + [Generate(s.windowWidth, s.windowHeight, d)] else ps
  }

  /** The mark after the spawn step of `update`. */
  function NextMark(s: GameState, nextPipeAt: int, d: PipeDraw): int {
    if Due(s.fc, nextPipeAt) then s.fc + d.delay else nextPipeAt
  }

  /** Every pipe scrolled left by `speed`. */
  function ShiftAll(ps: seq<Pipe>, speed: int): seq<Pipe> {
    seq(|ps|, i requires 0 <= i < |ps| => ps[i].Moved(speed))
  }

  function OnScreen(p: Pipe): bool { !p.Finished() }

  /** The whole queue transition of `update`: spawn, scroll, drop. */
  function Stepped(ps: seq<Pipe>, s: GameState, nextPipeAt: int, d: PipeDraw): seq<Pipe>
    requires Due(s.fc, nextPipeAt) ==> ValidDraw(d, s.windowHeight)
  {
    Filter(ShiftAll(Spawned(ps, s, nextPipeAt, d), s.xSpeed), OnScreen)
  }

  /** A due spawn adds exactly one pipe and reschedules 75 to 199 frames
      ahead; otherwise neither the queue nor the mark changes. */
  lemma SpawnRule(ps: seq<Pipe>, s: GameState, nextPipeAt: int, d: PipeDraw)
    requires Due(s.fc, nextPipeAt) ==> ValidDraw(d, s.windowHeight)
    ensures Due(s.fc, nextPipeAt) ==>
              |Spawned(ps, s, nextPipeAt, d)| == |ps| + 1
              && s.fc + 75 <= NextMark(s, nextPipeAt, d) < s.fc + 200
    ensures !Due(s.fc, nextPipeAt) ==>
              Spawned(ps, s, nextPipeAt, d) == ps && NextMark(s, nextPipeAt, d) == nextPipeAt
  {
  }

  /** After `update` no pipe is off-screen, every pipe is a pipe of the
      spawned queue moved left by exactly `xSpeed` (offsets unchanged), and
      the survivors keep their order. */
  lemma StepSurvivors(ps: seq<Pipe>, s: GameState, nextPipeAt: int, d: PipeDraw)
    requires Due(s.fc, nextPipeAt) ==> ValidDraw(d, s.windowHeight)
    ensures forall p :: p in Stepped(ps, s, nextPipeAt, d) ==> p.x >= -50
    ensures forall p :: p in Stepped(ps, s, nextPipeAt, d) ==>
              exists q :: q in Spawned(ps, s, nextPipeAt, d) && p == q.Moved(s.xSpeed)
    ensures IsSubsequence(Stepped(ps, s, nextPipeAt, d),
                          ShiftAll(Spawned(ps, s, nextPipeAt, d), s.xSpeed))
  {
    var sp := Spawned(ps, s, nextPipeAt, d);
    var shifted := ShiftAll(sp, s.xSpeed);
    FilterIsSubsequence(shifted, OnScreen);
    forall p | p in Stepped(ps, s, nextPipeAt, d)
      ensures exists q :: q in sp && p == q.Moved(s.xSpeed)
    {
      var i :| 0 <= i < |shifted| && shifted[i] == p;
      assert sp[i] in sp;
    }
  }

  /** A pipe that is still on screen after scrolling is not dropped. */
  lemma StepKeepsVisible(ps: seq<Pipe>, s: GameState, nextPipeAt: int, d: PipeDraw, q: Pipe)
    requires Due(s.fc, nextPipeAt) ==> ValidDraw(d, s.windowHeight)
    requires q in Spawned(ps, s, nextPipeAt, d) && q.x - s.xSpeed >= -50
    ensures q.Moved(s.xSpeed) in Stepped(ps, s, nextPipeAt, d)
  {
    var sp := Spawned(ps, s, nextPipeAt, d);
    var i :| 0 <= i < |sp| && sp[i] == q;
    assert ShiftAll(sp, s.xSpeed)[i] == q.Moved(s.xSpeed);
    FilterMembership(ShiftAll(sp, s.xSpeed), OnScreen, q.Moved(s.xSpeed));
  }

  /** A freshly spawned pipe is placed at the window's right edge and scrolled
      in the same call: unless that already takes it off-screen it is the last
      pipe of the queue, at `windowWidth - xSpeed`. */
  lemma NewPipeIsLast(ps: seq<Pipe>, s: GameState, nextPipeAt: int, d: PipeDraw)
    requires Due(s.fc, nextPipeAt) && ValidDraw(d, s.windowHeight)
    requires s.windowWidth - s.xSpeed >= -50
    ensures var r := Stepped(ps, s, nextPipeAt, d);
            |r| > 0 && r[|r| - 1] == Pipe(s.windowWidth - s.xSpeed, d.holeOffset, d.holeOffset + d.holeSize)
  {
    var spawn := Generate(s.windowWidth, s.windowHeight, d);
    var sp := Spawned(ps, s, nextPipeAt, d);
    var moved := spawn.Moved(s.xSpeed);
    assert sp == ps + [spawn];
    ShiftAllSnoc(ps, spawn, s.xSpeed);
    FilterAppend(ShiftAll(ps, s.xSpeed), [moved], OnScreen);
    FilterCons(moved, [], OnScreen);
    assert [moved] + [] == [moved];
  }

  /** Scrolling a queue with one more pipe at its end. */
  lemma ShiftAllSnoc(ps: seq<Pipe>, q: Pipe, speed: int)
    ensures ShiftAll(ps + [q], speed) == ShiftAll(ps, speed) + [q.Moved(speed)]
  {
  }

  /** Two hitboxes per pipe: the top column and the bottom column, each with
      five pixels of horizontal padding. */
  function TopBox(p: Pipe): Rect { Rect(p.x - 5, 0, 60, p.topOffset + 20) }
  function BottomBox(p: Pipe): Rect { Rect(p.x - 5, p.bottomOffset, 60, 600) }

  /** The Pipes actor: the live obstacles and the frame at which the next one is due. */
  class Pipes {
    var pipes: seq<Pipe>
    var nextPipeAt: int

    /** Every pipe on screen has a well-formed gap and has not scrolled off. */
    ghost predicate Valid()
      reads this
    {
      forall p :: p in pipes ==> p.WellFormed() && !p.Finished()
    }

    constructor ()
      ensures Valid()
      ensures pipes == [] && nextPipeAt == 0
    {
      pipes := [];
      nextPipeAt := 0;
    }

    /** Spawns a pipe when one is due, scrolls every pipe, drops the ones off-screen. */
    method Update(s: GameState, d: PipeDraw)
      requires Valid()
      requires Due(s.fc, nextPipeAt) ==> ValidDraw(d, s.windowHeight)
      modifies this
      ensures Valid()
      ensures pipes == Stepped(old(pipes), s, old(nextPipeAt), d)
      ensures nextPipeAt == NextMark(s, old(nextPipeAt), d)
    {
      ghost var spawned := Spawned(pipes, s, nextPipeAt, d);
      ghost var mark := nextPipeAt;
      if s.fc > nextPipeAt {
        var newPipe := Generate(s.windowWidth, s.windowHeight, d);
        pipes := pipes + [newPipe];
        nextPipeAt := s.fc + d.delay;
      }
      assert pipes == spawned;
      assert forall p :: p in pipes ==> p.WellFormed();

      var i := 0;
      while i < |pipes|
        invariant 0 <= i <= |pipes| == |spawned|
        invariant forall j :: 0 <= j < i ==> pipes[j] == spawned[j].Moved(s.xSpeed)
        invariant forall j :: i <= j < |pipes| ==> pipes[j] == spawned[j]
        invariant nextPipeAt == NextMark(s, mark, d)
      {
        pipes := pipes[i := pipes[i].Moved(s.xSpeed)];
        i := i + 1;
      }
      assert pipes == ShiftAll(spawned, s.xSpeed);

      pipes := Retain(pipes, OnScreen);
      forall p | p in pipes
        ensures p.WellFormed()
      {
        var k :| 0 <= k < |ShiftAll(spawned, s.xSpeed)| && ShiftAll(spawned, s.xSpeed)[k] == p;
        assert spawned[k] in spawned;
      }
    }

    /** The palette only re-tints the textures, which are not modelled. */
    method SwitchTheme()
      ensures unchanged(this)
    {
    }

    /** Clears the queue and makes the next pipe due at once. */
    method Reset()
      modifies this
      ensures Valid()
      ensures pipes == [] && nextPipeAt == 0
    {
      pipes := [];
      nextPipeAt := 0;
    }

    /** Two hitboxes per pipe, in queue order. */
    method GetBoundingBoxes() returns (boxes: seq<Rect>)
      ensures |boxes| == 2 * |pipes|
      ensures forall i :: 0 <= i < |pipes| ==>
                boxes[2 * i] == TopBox(pipes[i]) && boxes[2 * i + 1] == BottomBox(pipes[i])
    {
      boxes := [];
      var i := 0;
      while i < |pipes|
        invariant 0 <= i <= |pipes|
        invariant |boxes| == 2 * i
        invariant forall j :: 0 <= j < i ==>
                    boxes[2 * j] == TopBox(pipes[j]) && boxes[2 * j + 1] == BottomBox(pipes[j])
      {
        boxes := boxes + [TopBox(pipes[i])];
        boxes := boxes + [BottomBox(pipes[i])];
        i := i + 1;
      }
    }
  }
}
