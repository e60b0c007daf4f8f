/** The monolithic first version of the game (src/main.rs): a pregame loop
    that waits for Space, then a playing loop whose every tick advances the
    frame counter, spawns and scrolls pipes, applies gravity to the sub,
    checks the screen bounds and handles input; plus its fixed array of
    ten bubbles. All state lives in local variables of `main`, so each tick
    is modelled as a method from the old values to the new ones. */
module MainLoop {
  import opened Seqs
  import opened SubPhysics
  import ActorPipes
  import opened DraftBubbles

  const MaxBubbles := 10

  /** The input events the loops react to; any other event is ignored. */
  datatype Event = Quit | Space | Other

  /** The draft's sub: no angle and no clamps. */
  datatype Sub = Sub(x: int, y: int, velocity: real, gravity: real, jumpStrength: real)

  /** `Sub::default()`: at (100, 100), at rest, gravity 0.1, jump -5.0. */
  const DefaultSub := Sub(100, 100, 0.0, 0.1, -5.0)

  // ---------------------------------------------------------------- pregame

  /** Drains the pregame events: Space starts the game, Quit starts it and
      ends it at once (so the playing loop is skipped). */
  method PregameEvents(started: bool, over: bool, events: seq<Event>) returns (started': bool, over': bool)
    ensures started' <==> started || Quit in events || Space in events
    ensures over' <==> over || Quit in events
  {
    started', over' := started, over;
    var i := 0;
    while i < |events|
      invariant 0 <= i <= |events|
      invariant started' <==> started || Quit in events[..i] || Space in events[..i]
      invariant over' <==> over || Quit in events[..i]
    {
      match events[i] {
        case Quit =>
          started' := true;
          over' := true;
        case Space =>
          started' := true;
        case Other =>
      }
      assert events[..i + 1] == events[..i] + [events[i]];
      i := i + 1;
    }
    assert events[..i] == events;
  }

  // ---------------------------------------------------------------- playing

  /** The locals the playing loop carries from tick to tick. */
  datatype Run = Run(fc: int, nextPipeFc: int, sub: Sub, pipes: seq<ActorPipes.Pipe>, gameOver: bool)

  /** The state entering the playing loop: the counters of lines 199-200,
      the default sub (the pregame loop only bobs its picture), no pipes yet. */
  function StartRun(gameOver: bool): Run {
    Run(0, 100, DefaultSub, [], gameOver)
  }

  /** Pipes scroll 3 pixels a frame. */
  const PipeSpeed := 3

  /** Gravity acts only while the sub is above the bottom edge `wh`. */
  function Fall(sub: Sub, wh: int): Sub {
    if sub.y < wh then
      var v := sub.velocity + sub.gravity;
      sub.(velocity := v, y := sub.y + TruncToInt(v))
    else sub
  }

  /** Gravity changes only the velocity and the height: a sub at or below
      the bottom edge is left alone; above it the velocity grows by the
      gravity and the height moves by the truncated new velocity, so a sub
      with a non-negative new velocity never rises. */
  lemma FallSpec(sub: Sub, wh: int)
    ensures var f := Fall(sub, wh);
      && f.x == sub.x && f.gravity == sub.gravity && f.jumpStrength == sub.jumpStrength
      && (sub.y >= wh ==> f == sub)
      && (sub.y < wh ==> f.velocity == sub.velocity + sub.gravity && f.y == sub.y + TruncToInt(f.velocity))
      && (sub.y < wh && f.velocity >= 0.0 ==> f.y >= sub.y)
  {
  }

  /** From `Sub::default()` the first falling frame only picks up speed:
      0.1 truncates to 0, so the sub stays at y = 100; it has to be above the
      bottom edge for that. */
  lemma DefaultSubFirstFall(wh: int)
    ensures wh > 100 ==> Fall(DefaultSub, wh) == Sub(100, 100, 0.1, 0.1, -5.0)
    ensures wh <= 100 ==> Fall(DefaultSub, wh) == DefaultSub
  {
  }

  /** A pipe is kept until it is more than a tenth of the texture width past
      the left edge. */
  function KeepPipe(limit: int): ActorPipes.Pipe -> bool {
    (p: ActorPipes.Pipe) => !(p.x < -limit)
  }

  predicate OutOfBounds(y: int, wh: int) { y >= wh || y < 0 }

  /** The event drain of one tick, event by event: Quit ends the game, Space
      sets the velocity to the jump strength. */
  function AfterEvents(over: bool, sub: Sub, events: seq<Event>): (bool, Sub)
    decreases |events|
  {
    if |events| == 0 then (over, sub)
    else
      var (o, s) := AfterEvents(over, sub, events[..|events| - 1]);
      match events[|events| - 1]
      case Quit => (true, s)
      case Space => (o, s.(velocity := s.jumpStrength))
      case Other => (o, s)
  }

  /** A pipe is due when the incremented counter has passed the mark. */
  predicate PipeDue(r: Run) { r.fc + 1 > r.nextPipeFc }

  /** The draws are only made, and so only constrained, when a pipe is due;
      `spawnHeight` is the window height read before the loop. */
  predicate TickDraw(r: Run, d: ActorPipes.PipeDraw, spawnHeight: nat) {
    PipeDue(r) ==> ActorPipes.ValidDraw(d, spawnHeight)
  }

  function SpawnedPipes(r: Run, d: ActorPipes.PipeDraw): seq<ActorPipes.Pipe> {
    if PipeDue(r) then r.pipes + [ActorPipes.Pipe(800, d.holeOffset, d.holeOffset + d.holeSize)] else r.pipes
  }

  /** One tick of the playing loop. `spawnHeight` is the height captured
      before the loop (used for the hole offset), `wh` the current height
      (used for gravity and the bounds test), `pipeTextureWidth` the pipe
      texture's width. */
  function Tick(r: Run, events: seq<Event>, d: ActorPipes.PipeDraw, spawnHeight: nat, wh: nat, pipeTextureWidth: nat): Run {
    var fc := r.fc + 1;
    var next := if PipeDue(r) then fc + d.delay else r.nextPipeFc;
    var sub := Fall(r.sub, wh);
    var pipes := Filter(ActorPipes.ShiftAll(SpawnedPipes(r, d), PipeSpeed), KeepPipe(pipeTextureWidth / 10));
    var over := r.gameOver || OutOfBounds(sub.y, wh);
    var (over', sub') := AfterEvents(over, sub, events);
    Run(fc, next, sub', pipes, over')
  }

  /** Lines 229-231: every pipe scrolls 3 pixels left. */
  method MovePipes(ps: seq<ActorPipes.Pipe>) returns (moved: seq<ActorPipes.Pipe>)
    ensures moved == ActorPipes.ShiftAll(ps, PipeSpeed)
  {
    moved := ps;
    var i := 0;
    while i < |moved|
      invariant 0 <= i <= |moved| == |ps|
      invariant forall j :: 0 <= j < i ==> moved[j] == ps[j].Moved(PipeSpeed)
      invariant forall j :: i <= j < |moved| ==> moved[j] == ps[j]
    {
      moved := moved[i := moved[i].(x := moved[i].x - 3)];
      i := i + 1;
    }
  }

  /** Lines 234-241: walks the indices from the last down to the first and
      removes each pipe more than `qw` pixels past the left edge; walking
      backwards keeps the indices still to visit valid, so the result is the
      order-preserving filter. */
  method RemoveOffscreen(ps: seq<ActorPipes.Pipe>, qw: int) returns (kept: seq<ActorPipes.Pipe>)
    ensures kept == Filter(ps, KeepPipe(qw))
  {
    kept := ps;
    var i := |ps|;
    while i > 0
      invariant 0 <= i <= |ps|
      invariant kept == ps[..i] + Filter(ps[i..], KeepPipe(qw))
    {
      i := i - 1;
      FilterBackStep(ps, i, kept, KeepPipe(qw));
      if kept[i].x < -qw {
        kept := kept[..i] + kept[i + 1..];
      }
    }
    assert ps[0..] == ps;
  }

  /** Lines 249-259: the events of the tick, in arrival order. */
  method DrainEvents(over: bool, sub: Sub, events: seq<Event>) returns (over': bool, sub': Sub)
    ensures (over', sub') == AfterEvents(over, sub, events)
  {
    over', sub' := over, sub;
    var i := 0;
    while i < |events|
      invariant 0 <= i <= |events|
      invariant (over', sub') == AfterEvents(over, sub, events[..i])
    {
      match events[i] {
        case Quit =>
          over' := true;
        case Space =>
          sub' := sub'.(velocity := sub'.jumpStrength);
        case Other =>
      }
      assert events[..i + 1][..i] == events[..i];
      i := i + 1;
    }
    assert events[..i] == events;
  }

  /** The loop body of lines 202-259, statement by statement. */
  method PlayingTick(r: Run, events: seq<Event>, d: ActorPipes.PipeDraw, spawnHeight: nat, wh: nat, pipeTextureWidth: nat)
    returns (r': Run)
    requires TickDraw(r, d, spawnHeight)
    ensures r' == Tick(r, events, d, spawnHeight, wh, pipeTextureWidth)
  {
    var fc := r.fc + 1;
    var next := r.nextPipeFc;
    var pipes := r.pipes;
    if fc > next {
      next := fc + d.delay;
      pipes := pipes + [ActorPipes.Pipe(800, d.holeOffset, d.holeOffset + d.holeSize)];
    }
    assert pipes == SpawnedPipes(r, d);

    var sub := r.sub;
    if sub.y < wh {
      sub := sub.(velocity := sub.velocity + sub.gravity);
      sub := sub.(y := sub.y + TruncToInt(sub.velocity));
    }
    assert sub == Fall(r.sub, wh);

    pipes := MovePipes(pipes);
    pipes := RemoveOffscreen(pipes, pipeTextureWidth / 10);

    var over := r.gameOver;
    if sub.y >= wh || sub.y < 0 {
      over := true;
    }
    assert over == (r.gameOver || OutOfBounds(sub.y, wh));

    over, sub := DrainEvents(over, sub, events);
    r' := Run(fc, next, sub, pipes, over);
  }

  /** Draining a tick's events ends the game exactly when it was over already
      or a Quit arrived, leaves the position alone, and leaves the velocity
      at the jump strength exactly when some Space arrived. */
  lemma {:induction false} AfterEventsSpec(over: bool, sub: Sub, events: seq<Event>)
    decreases |events|
    ensures var (o, s) := AfterEvents(over, sub, events);
      && (o <==> over || Quit in events)
      && s.x == sub.x && s.y == sub.y && s.gravity == sub.gravity && s.jumpStrength == sub.jumpStrength
      && (Space in events ==> s.velocity == sub.jumpStrength)
      && (Space !in events ==> s.velocity == sub.velocity)
  {
    if |events| > 0 {
      var init := events[..|events| - 1];
      AfterEventsSpec(over, sub, init);
      assert events == init + [events[|events| - 1]];
    }
  }

  /** What one tick does to each local: the counter goes up by one; a pipe is
      spawned exactly when due, at x = 800 with a well-formed gap, and the
      next one is scheduled 75 to 199 frames later; every remaining pipe is a
      spawned pipe moved 3 pixels left and is at most a tenth of the texture
      width past the left edge; the game is over when it was, when the fallen
      sub left the screen, or on Quit. */
  lemma TickSpec(r: Run, events: seq<Event>, d: ActorPipes.PipeDraw, spawnHeight: nat, wh: nat, pipeTextureWidth: nat)
    requires TickDraw(r, d, spawnHeight)
    ensures var r' := Tick(r, events, d, spawnHeight, wh, pipeTextureWidth);
      var fallen := Fall(r.sub, wh);
      && r'.fc == r.fc + 1
      && (PipeDue(r) ==>
            && SpawnedPipes(r, d) == r.pipes + [ActorPipes.Pipe(800, d.holeOffset, d.holeOffset + d.holeSize)]
            && SpawnedPipes(r, d)[|r.pipes|].WellFormed()
            && r.fc + 1 + 75 <= r'.nextPipeFc < r.fc + 1 + 200)
      && (!PipeDue(r) ==> SpawnedPipes(r, d) == r.pipes && r'.nextPipeFc == r.nextPipeFc)
      && (forall p :: p in r'.pipes ==> p.x >= -(pipeTextureWidth / 10))
      && (forall p :: p in r'.pipes ==> exists q :: q in SpawnedPipes(r, d) && p == q.Moved(PipeSpeed))
      && (r'.gameOver <==> r.gameOver || OutOfBounds(fallen.y, wh) || Quit in events)
      && r'.sub.y == fallen.y && r'.sub.x == r.sub.x
      && (Space in events ==> r'.sub.velocity == r.sub.jumpStrength)
      && (Space !in events ==> r'.sub.velocity == fallen.velocity)
  {
    var sp := SpawnedPipes(r, d);
    var moved := ActorPipes.ShiftAll(sp, PipeSpeed);
    var keep := KeepPipe(pipeTextureWidth / 10);
    forall p | p in Filter(moved, keep)
      ensures exists q :: q in sp && p == q.Moved(PipeSpeed)
    {
      var i :| 0 <= i < |moved| && moved[i] == p;
      assert sp[i] in sp;
    }
    var fallen := Fall(r.sub, wh);
    AfterEventsSpec(r.gameOver || OutOfBounds(fallen.y, wh), fallen, events);
  }

  /** What the counters guarantee across ticks: the mark never drops below
      100, and there are pipes only once the counter has passed 100. */
  predicate RunInvariant(r: Run) {
    r.nextPipeFc >= 100 && (r.pipes != [] ==> r.fc > 100)
  }

  lemma StartRunInvariant(over: bool)
    ensures RunInvariant(StartRun(over)) && StartRun(over).pipes == []
  {
  }

  /** Every tick keeps the invariant, so the first pipe appears no earlier
      than frame 101. */
  lemma TickKeepsInvariant(r: Run, events: seq<Event>, d: ActorPipes.PipeDraw, spawnHeight: nat, wh: nat, pipeTextureWidth: nat)
    requires RunInvariant(r) && r.fc >= 0
    requires TickDraw(r, d, spawnHeight)
    ensures var r' := Tick(r, events, d, spawnHeight, wh, pipeTextureWidth);
      RunInvariant(r') && r'.fc >= 0 && (r'.pipes != [] ==> r'.fc >= 101)
  {
    var r' := Tick(r, events, d, spawnHeight, wh, pipeTextureWidth);
    var sp := SpawnedPipes(r, d);
    if r'.pipes != [] {
      var p := r'.pipes[0];
      FilterMembership(ActorPipes.ShiftAll(sp, PipeSpeed), KeepPipe(pipeTextureWidth / 10), p);
      assert sp != [];
    }
  }

  // ---------------------------------------------------------------- bubbles

  /** The array of lines 138-141: ten bubbles, one per draw. */
  method InitialBubbles(w: nat, h: nat, draws: seq<BubbleDraw>) returns (bubbles: array<Bubble>)
    requires |draws| == MaxBubbles
    requires forall i :: 0 <= i < |draws| ==> ValidDraw(draws[i], w, h)
    ensures fresh(bubbles) && bubbles.Length == MaxBubbles
    ensures forall i :: 0 <= i < MaxBubbles ==> bubbles[i] == Generate(w, h, draws[i])
  {
    bubbles := new Bubble[MaxBubbles](i requires 0 <= i < MaxBubbles reads {} => Generate(w, h, draws[i]));
  }

  /** The drift of the bubbles: 3 pixels left a frame once the game has started. */
  function BubbleSpeed(gameStarted: bool): real { if gameStarted then -3.0 else 0.0 }

  /** One bubble after the tick: moved, and replaced by a new one if that
      finished it. */
  function BubbleAfter(b: Bubble, gameStarted: bool, w: nat, h: nat, d: BubbleDraw): Bubble
    requires b.MovedBy(BubbleSpeed(gameStarted)).Finished() ==> ValidDraw(d, w, h)
  {
    var m := b.MovedBy(BubbleSpeed(gameStarted));
    if m.Finished() then Generate(w, h, d) else m
  }

  /** After the tick no bubble is finished; a bubble the move did not finish
      just moved, keeping its texture and velocity, and a finished one was
      replaced by a well-formed bubble below the bottom edge. */
  lemma BubbleAfterSpec(b: Bubble, gameStarted: bool, w: nat, h: nat, d: BubbleDraw)
    requires b.MovedBy(BubbleSpeed(gameStarted)).Finished() ==> ValidDraw(d, w, h)
    ensures var a := BubbleAfter(b, gameStarted, w, h, d);
      && !a.Finished()
      && (!b.MovedBy(BubbleSpeed(gameStarted)).Finished() ==>
            a.x == b.x + BubbleSpeed(gameStarted) && a.y == b.y + b.velocityY
            && a.velocityY == b.velocityY && a.textureIdx == b.textureIdx)
      && (b.MovedBy(BubbleSpeed(gameStarted)).Finished() ==> a.WellFormed() && a.y >= (h + 10) as real)
  {
  }

  /** Lines 305-311: every bubble of the array moves, and a finished one is
      overwritten in place by a new bubble for the window (`w` is the width
      read before the loop, `h` the current height). The array keeps its ten
      entries. */
  method StepBubbles(bubbles: array<Bubble>, gameStarted: bool, w: nat, h: nat, draws: seq<BubbleDraw>)
    requires |draws| == bubbles.Length
    requires forall i :: 0 <= i < bubbles.Length ==>
               (bubbles[i].MovedBy(BubbleSpeed(gameStarted)).Finished() ==> ValidDraw(draws[i], w, h))
    modifies bubbles
    ensures forall i :: 0 <= i < bubbles.Length ==>
              bubbles[i] == BubbleAfter(old(bubbles[i]), gameStarted, w, h, draws[i])
    ensures forall i :: 0 <= i < bubbles.Length ==> !bubbles[i].Finished()
  {
    var i := 0;
    while i < bubbles.Length
      invariant 0 <= i <= bubbles.Length
      invariant forall j :: 0 <= j < i ==> bubbles[j] == BubbleAfter(old(bubbles[j]), gameStarted, w, h, draws[j])
      invariant forall j :: i <= j < bubbles.Length ==> bubbles[j] == old(bubbles[j])
    {
      bubbles[i] := bubbles[i].MovedBy(BubbleSpeed(gameStarted));
      if bubbles[i].Finished() {
        bubbles[i] := Generate(w, h, draws[i]);
      }
      i := i + 1;
    }
    forall j | 0 <= j < bubbles.Length
      ensures !bubbles[j].Finished()
    {
      BubbleAfterSpec(old(bubbles[j]), gameStarted, w, h, draws[j]);
    }
  }
}
