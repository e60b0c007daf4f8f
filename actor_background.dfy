/** Scrolling scenery of the actor-based game (src/actors/background.rs):
    100 sand speckles that wrap round, and creature sprites spawned at
    random intervals. */
module ActorBackground {
  import opened Seqs
  import opened Game

  /** A decorative sprite in flight. */
  datatype BackgroundObject = BackgroundObject(x: int, y: int, textureIdx: nat)
  {
    /** Scrolled past the left edge. */
    predicate Finished() { x < -100 }

    function Moved(speed: int): BackgroundObject { this.(x := x - speed) }
  }

  /** Scrolling moves an object left and nothing else: two scrolls add up,
      height and texture are kept, and for a non-negative speed an object
      past x = -100 stays past it. */
  lemma ScrollingObject(o: BackgroundObject, a: int, b: int)
    ensures o.Moved(a).Moved(b) == o.Moved(a + b)
    ensures o.Moved(a).y == o.y && o.Moved(a).textureIdx == o.textureIdx
    ensures o.Moved(a).Finished() <==> o.x < a - 100
    ensures a >= 0 && o.Finished() ==> o.Moved(a).Finished()
  {
  }

  /** A two-pixel speckle in the sand. */
  datatype Speckle = Speckle(x: int, y: int)

  /** The number of speckles in the sand. */
  const SpeckleCount := 100
  /** The right edge a speckle or object is (re)placed at; fixed, not the window width. */
  const RightEdge := 800

  /** A speckle lies in the sand band and has not scrolled past the left edge. */
  predicate InSand(h: Speckle) {
    h.x >= 0 && 400 <= h.y < 600
  }

  /** Scrolling by `speed` takes the speckle past the left edge. */
  predicate Wraps(h: Speckle, speed: int) { h.x - speed < 0 }

  /** One frame for one speckle: scroll left; once it is past the left edge it
      wraps to the right edge with a freshly drawn height `redraw`. */
  function Scrolled(h: Speckle, speed: int, redraw: int): Speckle {
    if Wraps(h, speed) then Speckle(RightEdge, redraw) else h.(x := h.x - speed)
  }

  /** The heights drawn for wrapping speckles lie in [400, 600). */
  predicate ValidRedraws(hs: seq<Speckle>, speed: int, redraws: seq<int>) {
    |redraws| == |hs| && forall i :: 0 <= i < |hs| && Wraps(hs[i], speed) ==> 400 <= redraws[i] < 600
  }

  function ScrollAll(hs: seq<Speckle>, speed: int, redraws: seq<int>): seq<Speckle>
    requires |redraws| == |hs|
  {
    seq(|hs|, i requires 0 <= i < |hs| => Scrolled(hs[i], speed, redraws[i]))
  }

  /** Scrolling keeps the number of speckles and leaves every one at x >= 0;
      one that does not wrap moves left by exactly `speed` at the same height,
      one that wraps lands at x = 800 with a height in [400, 600). */
  lemma ScrollAllSpec(hs: seq<Speckle>, speed: int, redraws: seq<int>)
    requires ValidRedraws(hs, speed, redraws)
    ensures var r := ScrollAll(hs, speed, redraws);
      && |r| == |hs|
      && (forall i :: 0 <= i < |hs| ==> r[i].x >= 0)
      && (forall i :: 0 <= i < |hs| && !Wraps(hs[i], speed) ==> r[i] == Speckle(hs[i].x - speed, hs[i].y))
      && (forall i :: 0 <= i < |hs| && Wraps(hs[i], speed) ==> r[i].x == RightEdge && 400 <= r[i].y < 600)
  {
  }

  /** The random draws of one object spawn: its height, its texture and the
      delay until the next spawn. */
  datatype ObjectDraw = ObjectDraw(y: int, textureIdx: int, delay: int)

  predicate ValidObjectDraw(d: ObjectDraw, textureCount: nat) {
    && 450 <= d.y < 550
    && 0 <= d.textureIdx < textureCount
    && 50 <= d.delay < 300
  }

  /** Spawn rule: an object is due once the frame counter reaches the mark. */
  predicate Due(fc: int, mark: int) { fc >= mark }

  function SpawnedObjects(objs: seq<BackgroundObject>, fc: int, mark: int, d: ObjectDraw, textureCount: nat): seq<BackgroundObject>
    requires Due(fc, mark) ==> ValidObjectDraw(d, textureCount)
  {
    if Due(fc, mark) then objs + [BackgroundObject(RightEdge, d.y, d.textureIdx)] else objs
  }

  function NextMark(fc: int, mark: int, d: ObjectDraw): int {
    if Due(fc, mark) then fc + d.delay else mark
  }

  function MoveAll(objs: seq<BackgroundObject>, speed: int): seq<BackgroundObject> {
    seq(|objs|, i requires 0 <= i < |objs| => objs[i].Moved(speed))
  }

  function Visible(o: BackgroundObject): bool { !o.Finished() }

  /** The object list after `update`: spawn, scroll, drop. */
  function SteppedObjects(objs: seq<BackgroundObject>, s: GameState, mark: int, d: ObjectDraw, textureCount: nat): seq<BackgroundObject>
    requires Due(s.fc, mark) ==> ValidObjectDraw(d, textureCount)
  {
    Filter(MoveAll(SpawnedObjects(objs, s.fc, mark, d, textureCount), s.xSpeed), Visible)
  }

  /** An object is added exactly when due, at x = 800 with a height in
      [450, 550) and a valid texture, and the next one is scheduled 50 to 299
      frames later; otherwise neither the list nor the mark changes. */
  lemma ObjectSpawnRule(objs: seq<BackgroundObject>, fc: int, mark: int, d: ObjectDraw, textureCount: nat)
    requires Due(fc, mark) ==> ValidObjectDraw(d, textureCount)
    ensures var sp := SpawnedObjects(objs, fc, mark, d, textureCount);
      && (Due(fc, mark) ==>
            && |sp| == |objs| + 1 && sp[..|objs|] == objs
            && sp[|objs|].x == 800 && 450 <= sp[|objs|].y < 550 && sp[|objs|].textureIdx < textureCount
            && fc + 50 <= NextMark(fc, mark, d) < fc + 300)
      && (!Due(fc, mark) ==> sp == objs && NextMark(fc, mark, d) == mark)
  {
  }

  /** After `update` no object is past x = -100, each one is a spawned object
      moved left by exactly `xSpeed`, and the survivors keep their order. */
  lemma SteppedObjectsSurvivors(objs: seq<BackgroundObject>, s: GameState, mark: int, d: ObjectDraw, textureCount: nat)
    requires Due(s.fc, mark) ==> ValidObjectDraw(d, textureCount)
    ensures var r := SteppedObjects(objs, s, mark, d, textureCount);
      var sp := SpawnedObjects(objs, s.fc, mark, d, textureCount);
      && (forall o :: o in r ==> o.x >= -100)
      && (forall o :: o in r ==> exists q :: q in sp && o == q.Moved(s.xSpeed))
      && IsSubsequence(r, MoveAll(sp, s.xSpeed))
  {
    var sp := SpawnedObjects(objs, s.fc, mark, d, textureCount);
    var moved := MoveAll(sp, s.xSpeed);
    FilterIsSubsequence(moved, Visible);
    forall o | o in SteppedObjects(objs, s, mark, d, textureCount)
      ensures exists q :: q in sp && o == q.Moved(s.xSpeed)
    {
      var i :| 0 <= i < |moved| && moved[i] == o;
      assert sp[i] in sp;
    }
  }

  /** The Background actor. */
  class Background {
    var objects: seq<BackgroundObject>
    var newObjectAtFc: int
    /** `textures.len()`: the axolotl is the only texture loaded. */
    const textureCount: nat
    var sandHighlights: seq<Speckle>

    ghost predicate Valid()
      reads this
    {
      && |sandHighlights| == SpeckleCount
      && (forall h :: h in sandHighlights ==> InSand(h))
      && (forall o :: o in objects ==> !o.Finished() && 450 <= o.y < 550 && o.textureIdx < textureCount)
    }

    /** `highlights` are the 100 drawn speckle positions, `firstObjectAt` the
        drawn frame of the first object. */
    constructor (highlights: seq<Speckle>, firstObjectAt: int)
      requires |highlights| == SpeckleCount
      requires forall h :: h in highlights ==> 0 <= h.x < 800 && 400 <= h.y < 600
      requires 0 <= firstObjectAt < 100
      ensures Valid()
      ensures |sandHighlights| == 100 && sandHighlights == highlights
      ensures objects == [] && newObjectAtFc == firstObjectAt
      ensures textureCount == 1
    {
      objects := [];
      newObjectAtFc := firstObjectAt;
      textureCount := 1;
      sandHighlights := highlights;
    }

    /** Scrolls and wraps the speckles, spawns an object when due, scrolls the
        objects and drops the ones past the left edge. */
    method Update(s: GameState, redraws: seq<int>, d: ObjectDraw)
      requires Valid()
      requires ValidRedraws(sandHighlights, s.xSpeed, redraws)
      requires Due(s.fc, newObjectAtFc) ==> ValidObjectDraw(d, textureCount)
      modifies this
      ensures Valid()
      ensures sandHighlights == ScrollAll(old(sandHighlights), s.xSpeed, redraws)
      ensures objects == SteppedObjects(old(objects), s, old(newObjectAtFc), d, textureCount)
      ensures newObjectAtFc == NextMark(s.fc, old(newObjectAtFc), d)
    {
      // Speckles: scroll, and wrap the ones past the left edge.
      var hs := sandHighlights;
      var i := 0;
      while i < |hs|
        invariant 0 <= i <= |hs| == |sandHighlights|
        invariant forall j :: 0 <= j < i ==> hs[j] == Scrolled(sandHighlights[j], s.xSpeed, redraws[j])
        invariant forall j :: i <= j < |hs| ==> hs[j] == sandHighlights[j]
      {
        hs := hs[i := Scrolled(hs[i], s.xSpeed, redraws[i])];
        i := i + 1;
      }
      ScrollAllSpec(sandHighlights, s.xSpeed, redraws);
      forall h | h in hs
        ensures InSand(h)
      {
        var k :| 0 <= k < |hs| && hs[k] == h;
        assert sandHighlights[k] in sandHighlights;
      }
      sandHighlights := hs;

      // Objects: spawn when due, scroll, drop.
      var objs := objects;
      if s.fc >= newObjectAtFc {
        var obj := BackgroundObject(800, d.y, d.textureIdx);
        objs := objs + [obj];
        newObjectAtFc := s.fc + d.delay;
      }
      ghost var spawned := objs;
      i := 0;
      while i < |objs|
        invariant 0 <= i <= |objs| == |spawned|
        invariant forall j :: 0 <= j < i ==> objs[j] == spawned[j].Moved(s.xSpeed)
        invariant forall j :: i <= j < |objs| ==> objs[j] == spawned[j]
      {
        objs := objs[i := objs[i].Moved(s.xSpeed)];
        i := i + 1;
      }
      assert objs == MoveAll(spawned, s.xSpeed);
      objs := Retain(objs, Visible);
      forall o | o in objs
        ensures 450 <= o.y < 550 && o.textureIdx < textureCount
      {
        var k :| 0 <= k < |MoveAll(spawned, s.xSpeed)| && MoveAll(spawned, s.xSpeed)[k] == o;
        assert spawned[k] in spawned;
      }
      objects := objs;
    }

    /** The palette only re-tints the creature texture, which is not modelled. */
    method SwitchTheme()
      ensures unchanged(this)
    {
    }

    /** The scenery keeps flowing across runs: nothing is reset. */
    method Reset()
      ensures unchanged(this)
    {
    }
  }
}
