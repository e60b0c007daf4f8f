/** The scenery of the earlier draft (src/background.rs): creature sprites
    spawned at random intervals in the upper water and dropped once their
    whole width has scrolled past the left edge. There are no sand speckles
    in this draft. */
module DraftBackground {
  import opened Seqs
  import opened Game

  /** A sprite in flight; every sprite uses the one texture loaded. */
  datatype BackgroundObject = BackgroundObject(x: int, y: int)
  {
    function Moved(speed: int): BackgroundObject { this.(x := x - speed) }
  }

  /** The random draws of one spawn: the height and the delay until the next. */
  datatype ObjectDraw = ObjectDraw(y: int, delay: int)

  predicate ValidObjectDraw(d: ObjectDraw) {
    0 <= d.y < 400 && 50 <= d.delay < 300
  }

  /** An object is due once the frame counter reaches the mark. */
  predicate Due(fc: int, mark: int) { fc >= mark }

  function Spawned(objs: seq<BackgroundObject>, fc: int, mark: int, d: ObjectDraw): seq<BackgroundObject> {
    if Due(fc, mark) then objs + [BackgroundObject(800, d.y)] else objs
  }

  function NextMark(fc: int, mark: int, d: ObjectDraw): int {
    if Due(fc, mark) then fc + d.delay else mark
  }

  function MoveAll(objs: seq<BackgroundObject>, speed: int): seq<BackgroundObject> {
    seq(|objs|, i requires 0 <= i < |objs| => objs[i].Moved(speed))
  }

  /** Some part of the sprite, `textureWidth` pixels wide, is still right of x = 0. */
  function OnScreen(textureWidth: nat): BackgroundObject -> bool {
    (o: BackgroundObject) => o.x + textureWidth > 0
  }

  /** The object list after `update`: spawn, scroll, keep the ones still on screen. */
  function Stepped(objs: seq<BackgroundObject>, s: GameState, mark: int, d: ObjectDraw, textureWidth: nat): seq<BackgroundObject> {
    Filter(MoveAll(Spawned(objs, s.fc, mark, d), s.xSpeed), OnScreen(textureWidth))
  }

  /** An object is added exactly when due, at x = 800 with the drawn height,
      and the next one is scheduled 50 to 299 frames later; otherwise neither
      the list nor the mark changes. */
  lemma SpawnRule(objs: seq<BackgroundObject>, fc: int, mark: int, d: ObjectDraw)
    requires Due(fc, mark) ==> ValidObjectDraw(d)
    ensures var sp := Spawned(objs, fc, mark, d);
      && (Due(fc, mark) ==>
            && sp == objs + [BackgroundObject(800, d.y)] && 0 <= d.y < 400
            && fc + 50 <= NextMark(fc, mark, d) < fc + 300)
      && (!Due(fc, mark) ==> sp == objs && NextMark(fc, mark, d) == mark)
  {
  }

  /** After `update` every object still overlaps the screen, each is a spawned
      object moved left by exactly `xSpeed`, and the order is kept. */
  lemma StepSurvivors(objs: seq<BackgroundObject>, s: GameState, mark: int, d: ObjectDraw, textureWidth: nat)
    ensures var r := Stepped(objs, s, mark, d, textureWidth);
      var sp := Spawned(objs, s.fc, mark, d);
      && (forall o :: o in r ==> o.x + textureWidth > 0)
      && (forall o :: o in r ==> exists q :: q in sp && o == q.Moved(s.xSpeed))
      && IsSubsequence(r, MoveAll(sp, s.xSpeed))
  {
    var sp := Spawned(objs, s.fc, mark, d);
    var moved := MoveAll(sp, s.xSpeed);
    FilterIsSubsequence(moved, OnScreen(textureWidth));
    forall o | o in Stepped(objs, s, mark, d, textureWidth)
      ensures exists q :: q in sp && o == q.Moved(s.xSpeed)
    {
      var i :| 0 <= i < |moved| && moved[i] == o;
      assert sp[i] in sp;
    }
  }

  /** A wider texture keeps an object on screen longer: everything kept with
      a narrow texture is also kept with a wider one. */
  lemma WiderKeepsMore(objs: seq<BackgroundObject>, s: GameState, mark: int, d: ObjectDraw, narrow: nat, wide: nat)
    requires narrow <= wide
    ensures forall o :: o in Stepped(objs, s, mark, d, narrow) ==> o in Stepped(objs, s, mark, d, wide)
  {
    var moved := MoveAll(Spawned(objs, s.fc, mark, d), s.xSpeed);
    forall o | o in Stepped(objs, s, mark, d, narrow)
      ensures o in Stepped(objs, s, mark, d, wide)
    {
      FilterMembership(moved, OnScreen(narrow), o);
      FilterMembership(moved, OnScreen(wide), o);
    }
  }

  class Background {
    var objects: seq<BackgroundObject>
    var newObjectAtFc: int
    /** The width of the creature texture, as `texture.query()` reports it. */
    const textureWidth: nat

    ghost predicate Valid()
      reads this
    {
      forall o :: o in objects ==> 0 <= o.y < 400 && o.x + textureWidth > 0
    }

    /** No objects yet; `firstObjectAt` is the drawn frame of the first one. */
    constructor (textureWidth: nat, firstObjectAt: int)
      requires 0 <= firstObjectAt < 100
      ensures Valid()
      ensures objects == [] && newObjectAtFc == firstObjectAt
      ensures this.textureWidth == textureWidth
    {
      objects := [];
      newObjectAtFc := firstObjectAt;
      this.textureWidth := textureWidth;
    }

    /** Spawns an object when due, scrolls every object, keeps the visible ones. */
    method Update(s: GameState, d: ObjectDraw)
      requires Valid()
      requires Due(s.fc, newObjectAtFc) ==> ValidObjectDraw(d)
      modifies this
      ensures Valid()
      ensures objects == Stepped(old(objects), s, old(newObjectAtFc), d, textureWidth)
      ensures newObjectAtFc == NextMark(s.fc, old(newObjectAtFc), d)
    {
      var objs := objects;
      if s.fc >= newObjectAtFc {
        objs := objs + [BackgroundObject(800, d.y)];
        newObjectAtFc := s.fc + d.delay;
      }
      ghost var spawned := objs;
      assert forall o :: o in spawned ==> 0 <= o.y < 400;
      var i := 0;
      while i < |objs|
        invariant 0 <= i <= |objs| == |spawned|
        invariant forall j :: 0 <= j < i ==> objs[j] == spawned[j].Moved(s.xSpeed)
        invariant forall j :: i <= j < |objs| ==> objs[j] == spawned[j]
      {
        objs := objs[i := objs[i].Moved(s.xSpeed)];
        i := i + 1;
      }
      assert objs == MoveAll(spawned, s.xSpeed);
      objs := Retain(objs, OnScreen(textureWidth));
      forall o | o in objs
        ensures 0 <= o.y < 400
      {
        var k :| 0 <= k < |MoveAll(spawned, s.xSpeed)| && MoveAll(spawned, s.xSpeed)[k] == o;
        assert spawned[k] in spawned;
      }
      objects := objs;
    }
  }
}
