/**
 * The game-round bookkeeping of the final script (src/scripts/script.js): the wall layout
 * data, the boxes and spheres tracked for rendering, the bodies in the physics world, the
 * cohesion springs with their `postStep` hook, the projectile's one-shot collide handler,
 * and the reset between rounds.
 */
module Scene {
  import opened Wrappers
  import opened Physics
  import opened Layout
  import opened Springs
  import opened GameScore
  import opened Sounds

  /** This revision adds no extra height to the wall cells. */
  const NoLift: real := 0.0

  /** `floorBody`: a static 20 x 20 slab, the first body created. */
  const FloorBody: Body := Body(0.0, BoxShape(10.0, 0.01, 10.0), Pos(0.0, 0.0, 0.0))

  /** The bodies `fillSpheres` makes: the first `n` grid spheres of radius 0.15 and mass 0.1. */
  function FillBodies(n: nat): (r: seq<Body>)
    ensures |r| == n
  {
    seq(n, i requires 0 <= i < n => Body(0.1, SphereShape(SphereSize), SpherePosition(i)))
  }

  /** The shot ball launched at screen position `xPosition`: radius 0.7, mass 50. */
  function ShotBallBody(xPosition: real): Body
  {
    Body(50.0, SphereShape(0.7), Pos(xPosition, 0.9, 5.0))
  }

  /** The ids of the first `n` spheres whose index is a multiple of 5, given the first id. */
  function SoundSpheres(first: BodyId, n: nat): set<BodyId>
  {
    set i | 0 <= i < n && i % 5 == 0 :: first + i
  }

  lemma FillBodiesSnoc(n: nat)
    ensures FillBodies(n + 1) == FillBodies(n) + [Body(0.1, SphereShape(SphereSize), SpherePosition(n))]
  {
    assert forall k :: 0 <= k < n + 1 ==>
      FillBodies(n + 1)[k] == (FillBodies(n) + [Body(0.1, SphereShape(SphereSize), SpherePosition(n))])[k];
  }

  lemma SoundSpheresSnoc(first: BodyId, n: nat)
    ensures SoundSpheres(first, n + 1) == SoundSpheres(first, n) + (if n % 5 == 0 then {first + n} else {})
  {
  }

  /** No cell is laid out yet, or the first 56 cells are the six walls. */
  predicate StartsWithWalls(data: seq<Pos>)
  {
    data == [] || (|data| >= BoxCount && data[..BoxCount] == Walls(0.0, NoLift))
  }

  /** Appending the six walls keeps "the first 56 cells are the six walls". */
  lemma LayoutGrows(before: seq<Pos>, after: seq<Pos>)
    requires after == before + Walls(0.0, NoLift)
    requires StartsWithWalls(before)
    ensures |after| >= BoxCount && after[..BoxCount] == Walls(0.0, NoLift)
    ensures StartsWithWalls(after)
  {
    WallsSize(0.0, 0.0, NoLift);
    if before != [] {
      assert after[..BoxCount] == before[..BoxCount];
    }
  }

  class Scene {
    /** Every wall cell laid out so far (`boxesData`); it is never cleared. */
    var boxesData: seq<Pos>
    /** Every body created so far, indexed by its id. */
    var bodies: seq<Body>
    /** The bodies added to the physics world. */
    var world: set<BodyId>
    /** The bodies of `updateObjectsBoxes`, in order. */
    var boxes: seq<BodyId>
    /** The bodies of `updateObjectsSpheres`: fill spheres and shot balls, in order. */
    var spheres: seq<BodyId>
    /** `springConstraints`: the bodies each spring binds. */
    var springs: seq<(BodyId, BodyId)>
    /** Whether `applySpringForce` listens to the world's `postStep` event. */
    var postStepHooked: bool
    /** The shot balls whose `collideHandler` is still registered. */
    var collideHandlers: set<BodyId>
    /** The bodies `throttlePlaySound` listens to. */
    var soundHooks: set<BodyId>
    /** The bodies `throttlePlayBallSound` listens to. */
    var ballSoundHooks: set<BodyId>
    /** `sphereShotBall`: the latest shot ball, `null` before the first shot. */
    var shotBall: Option<BodyId>
    /** The colour index of this round's spheres. */
    var randomColor: nat
    const floor: BodyId
    /** The score keeper, or `null` when the page has no game wrapper. */
    const game: Game?

    /**
     * Every id in use names a created body, the floor stays in the world and is never
     * tracked, listener sets hold created bodies, and the two sound listeners never share a
     * body.
     */
    ghost predicate IdsValid()
      reads this
    {
      && floor < |bodies| && bodies[floor] == FloorBody && floor in world
      && floor !in boxes && floor !in spheres
      && (forall id :: id in world ==> id < |bodies|)
      && (forall k :: 0 <= k < |boxes| ==> boxes[k] < |bodies|)
      && (forall k :: 0 <= k < |spheres| ==> spheres[k] < |bodies|)
      && (forall id :: id in collideHandlers ==> id < |bodies|)
      && (forall id :: id in soundHooks ==> id < |bodies|)
      && (forall id :: id in ballSoundHooks ==> id < |bodies|)
      && soundHooks !! ballSoundHooks
    }

    /** The ids are consistent, the first 56 layout cells are the six walls, and the score keeper is consistent. */
    ghost predicate Valid()
      reads this, game
    {
      IdsValid() && StartsWithWalls(boxesData) && (game != null ==> game.Valid())
    }

    /** Page load: the world holds only the floor, and nothing is laid out or tracked. */
    constructor (game: Game?)
      requires game != null ==> game.Valid()
      ensures Valid() && this.game == game
      ensures floor == 0 && bodies == [FloorBody] && world == {floor}
      ensures boxesData == [] && boxes == [] && spheres == [] && springs == [] && !postStepHooked
      ensures collideHandlers == {} && soundHooks == {} && ballSoundHooks == {}
      ensures shotBall == None && randomColor == 0
    {
      this.game := game;
      floor := 0;
      bodies := [FloorBody];
      world := {0};
      boxesData := [];
      boxes := [];
      spheres := [];
      springs := [];
      postStepHooked := false;
      collideHandlers := {};
      soundHooks := {};
      ballSoundHooks := {};
      shotBall := None;
      randomColor := 0;
    }

    /** `new CANNON.Body(...)`: the body gets the next id. */
    method NewBody(b: Body) returns (id: BodyId)
      modifies this`bodies
      ensures id == old(|bodies|) && bodies == old(bodies) + [b]
    {
      id := |bodies|;
      bodies := bodies + [b];
    }

    /** `createWall`: appends the cells of a `rows x cols` wall anchored at `p`, row by row. */
    method CreateWall(rows: nat, cols: nat, p: Pos)
      modifies this`boxesData
      ensures boxesData == old(boxesData) + WallLayout(rows, cols, p, NoLift)
    {
      var colsCenter := ColsCenter(cols);
      var i := 0;
      while i < rows
        invariant 0 <= i <= rows
        invariant boxesData == old(boxesData) + WallLayout(i, cols, p, NoLift)
      {
        var j := colsCenter;
        ghost var k: nat := 0;
        while j < -colsCenter + 1.0
          invariant k <= cols && j == colsCenter + k as real
          invariant boxesData == old(boxesData) + WallLayout(i, cols, p, NoLift) + Row(i, cols, p, NoLift)[..k]
          decreases cols - k
        {
          var x := if j != 0.0 then BoxW * j else 0.0;
          var z := p.z;
          if i % 2 == 0 && IsEven(j) {
            z := p.z + 0.05;
          } else if i % 2 != 0 && !IsEven(j) {
            z := p.z + 0.05;
          }
          var xShift := if i % 2 == 0 then -0.1 else 0.0;
          var position := Pos(x + p.x + xShift, BoxH * 0.5 + BoxH * i as real, z);
          assert Row(i, cols, p, NoLift)[..k + 1] == Row(i, cols, p, NoLift)[..k] + [position];
          boxesData := boxesData + [position];
          j := j + 1.0;
          k := k + 1;
        }
        assert Row(i, cols, p, NoLift)[..k] == Row(i, cols, p, NoLift);
        i := i + 1;
      }
    }

    /**
     * `createBoxes(count)`: one box body per layout cell, from the first cell on, stopping
     * early when the cells run out; each is added to the world and tracked.
     */
    method CreateBoxes(count: nat)
      requires IdsValid()
      modifies this`bodies, this`world, this`boxes
      ensures IdsValid()
      ensures var n := Min(count, |boxesData|);
              && boxes == old(boxes) + Fresh(old(|bodies|), n)
              && bodies == old(bodies) + BoxBodies(boxesData[..n])
              && world == old(world) + Ids(Fresh(old(|bodies|), n))
    {
      var i := 0;
      while i < count
        invariant 0 <= i <= count && i <= |boxesData| && IdsValid()
        invariant boxes == old(boxes) + Fresh(old(|bodies|), i)
        invariant bodies == old(bodies) + BoxBodies(boxesData[..i])
        invariant world == old(world) + Ids(Fresh(old(|bodies|), i))
      {
        if i >= |boxesData| {
          return;
        }
        AddBox(i, old(bodies), old(boxes), old(world));
        i := i + 1;
      }
    }

    /** One turn of the `createBoxes` loop: the box of layout cell `i`. */
    method AddBox(i: nat, ghost bodies0: seq<Body>, ghost boxes0: seq<BodyId>, ghost world0: set<BodyId>)
      requires IdsValid() && i < |boxesData|
      requires boxes == boxes0 + Fresh(|bodies0|, i)
      requires bodies == bodies0 + BoxBodies(boxesData[..i])
      requires world == world0 + Ids(Fresh(|bodies0|, i))
      modifies this`bodies, this`world, this`boxes
      ensures IdsValid()
      ensures boxes == boxes0 + Fresh(|bodies0|, i + 1)
      ensures bodies == bodies0 + BoxBodies(boxesData[..i + 1])
      ensures world == world0 + Ids(Fresh(|bodies0|, i + 1))
    {
      FreshSnoc(|bodies0|, i);
      BoxBodiesSnoc(boxesData, i);
      IdsSnoc(Fresh(|bodies0|, i), |bodies0| + i);
      AppendAssoc(boxes0, Fresh(|bodies0|, i), [|bodies0| + i]);
      AppendAssoc(bodies0, BoxBodies(boxesData[..i]), [BoxBody(boxesData[i])]);
      var body := NewBody(BoxBody(boxesData[i]));
      world := world + {body};
      boxes := boxes + [body];
    }

    /** `createSphere`: a sphere body that is tracked but NOT added to the world. */
    method CreateSphere(position: Pos, size: real, i: nat, mass: real)
      requires Valid()
      modifies this`bodies, this`soundHooks, this`spheres
      ensures Valid()
      ensures bodies == old(bodies) + [Body(mass, SphereShape(size), position)]
      ensures spheres == old(spheres) + [old(|bodies|)]
      ensures soundHooks == if i % 5 == 0 then old(soundHooks) + {old(|bodies|)} else old(soundHooks)
    {
      var body := NewBody(Body(mass, SphereShape(size), position));
      if i % 5 == 0 {
        soundHooks := soundHooks + {body};
      }
      spheres := spheres + [body];
    }

    /**
     * `fillSpheres`: the 90 coloured spheres of the 5 x 6 x 3 grid, tracked and hidden from
     * the world; every fifth one listens for collision sounds.
     */
    method FillSpheres()
      requires Valid()
      modifies this`bodies, this`soundHooks, this`spheres, this`randomColor
      ensures Valid() && randomColor == 0
      ensures spheres == old(spheres) + Fresh(old(|bodies|), SphereCount)
      ensures bodies == old(bodies) + FillBodies(SphereCount)
      ensures soundHooks == old(soundHooks) + SoundSpheres(old(|bodies|), SphereCount)
    {
      randomColor := 0;
      var i := 0;
      while i < SphereCount
        invariant 0 <= i <= SphereCount && randomColor == 0 && Valid()
        invariant spheres == old(spheres) + Fresh(old(|bodies|), i)
        invariant bodies == old(bodies) + FillBodies(i)
        invariant soundHooks == old(soundHooks) + SoundSpheres(old(|bodies|), i)
      {
        AddGridSphere(i, old(bodies), old(spheres), old(soundHooks));
        i := i + 1;
      }
    }

    /** One turn of the `fillSpheres` loop: the sphere of grid index `i`. */
    method AddGridSphere(i: nat, ghost bodies0: seq<Body>, ghost spheres0: seq<BodyId>, ghost hooks0: set<BodyId>)
      requires Valid()
      requires spheres == spheres0 + Fresh(|bodies0|, i)
      requires bodies == bodies0 + FillBodies(i)
      requires soundHooks == hooks0 + SoundSpheres(|bodies0|, i)
      modifies this`bodies, this`soundHooks, this`spheres
      ensures Valid()
      ensures spheres == spheres0 + Fresh(|bodies0|, i + 1)
      ensures bodies == bodies0 + FillBodies(i + 1)
      ensures soundHooks == hooks0 + SoundSpheres(|bodies0|, i + 1)
    {
      CreateSphere(SpherePosition(i), SphereSize, i, 0.1);
      FreshSnoc(|bodies0|, i);
      FillBodiesSnoc(i);
      SoundSpheresSnoc(|bodies0|, i);
      AppendAssoc(spheres0, Fresh(|bodies0|, i), [|bodies0| + i]);
      AppendAssoc(bodies0, FillBodies(i), [Body(0.1, SphereShape(SphereSize), SpherePosition(i))]);
    }

    /**
     * `createShotBall`: a ball at `xPosition`, registered as `sphereShotBall`, with the ball
     * sound listener and a fresh one-shot collide handler, added to the world and tracked.
     */
    method CreateShotBall(xPosition: real)
      requires Valid()
      modifies this`bodies, this`shotBall, this`ballSoundHooks, this`collideHandlers, this`world, this`spheres
      ensures Valid()
      ensures bodies == old(bodies) + [ShotBallBody(xPosition)]
      ensures shotBall == Some(old(|bodies|))
      ensures ballSoundHooks == old(ballSoundHooks) + {old(|bodies|)}
      ensures collideHandlers == old(collideHandlers) + {old(|bodies|)}
      ensures world == old(world) + {old(|bodies|)}
      ensures spheres == old(spheres) + [old(|bodies|)]
    {
      var body := NewBody(ShotBallBody(xPosition));
      shotBall := Some(body);
      ballSoundHooks := ballSoundHooks + {body};
      collideHandlers := collideHandlers + {body};
      world := world + {body};
      spheres := spheres + [body];
    }

    /** `addSpeheresToWorld`: every tracked sphere body is in the world afterwards. */
    method AddSpheresToWorld()
      modifies this`world
      ensures world == old(world) + Ids(spheres)
    {
      var k := 0;
      while k < |spheres|
        invariant 0 <= k <= |spheres|
        invariant world == old(world) + Ids(spheres[..k])
      {
        world := world + {spheres[k]};
        assert spheres[..k + 1] == spheres[..k] + [spheres[k]];
        IdsSnoc(spheres[..k], spheres[k]);
        k := k + 1;
      }
      assert spheres[..k] == spheres;
    }

    /**
     * `createSpringConstraints`: appends one spring for every pair `i < j` of tracked boxes
     * to the existing list, then hooks `applySpringForce` on `postStep`.
     */
    method CreateSpringConstraints()
      modifies this`springs, this`postStepHooked
      ensures springs == old(springs) + AllPairs(boxes)
      ensures postStepHooked
    {
      var i := 0;
      while i < |boxes|
        invariant 0 <= i <= |boxes|
        invariant springs == old(springs) + PairsUpTo(boxes, i)
      {
        var j := i + 1;
        while j < |boxes|
          invariant i + 1 <= j <= |boxes|
          invariant springs == old(springs) + PairsUpTo(boxes, i) + RowPairs(boxes, i)[..j - i - 1]
        {
          assert RowPairs(boxes, i)[..j - i] == RowPairs(boxes, i)[..j - i - 1] + [(boxes[i], boxes[j])];
          springs := springs + [(boxes[i], boxes[j])];
          j := j + 1;
        }
        assert RowPairs(boxes, i)[..j - i - 1] == RowPairs(boxes, i);
        i := i + 1;
      }
      postStepHooked := true;
    }

    /** `applySpringForce`: the springs whose force is applied, every one in list order. */
    method ApplySpringForce() returns (applied: seq<(BodyId, BodyId)>)
      ensures applied == springs
    {
      applied := [];
      var k := 0;
      while k < |springs|
        invariant 0 <= k <= |springs|
        invariant applied == springs[..k]
      {
        applied := applied + [springs[k]];
        k := k + 1;
      }
    }

    /** A world step ends: the springs whose force is applied by the `postStep` listeners. */
    method PostStep() returns (applied: seq<(BodyId, BodyId)>)
      ensures applied == if postStepHooked then springs else []
    {
      applied := [];
      if postStepHooked {
        applied := ApplySpringForce();
      }
    }

    /**
     * `removeSpringConstraints`: the list is always left empty; `applySpringForce` is
     * unhooked once per spring, so only when the list was not empty.
     */
    method RemoveSpringConstraints()
      modifies this`springs, this`postStepHooked
      ensures springs == []
      ensures postStepHooked == (old(postStepHooked) && old(springs) == [])
    {
      var k := 0;
      while k < |springs|
        invariant 0 <= k <= |springs|
        invariant springs == old(springs)
        invariant postStepHooked == (old(postStepHooked) && k == 0)
      {
        postStepHooked := false;
        k := k + 1;
      }
      springs := [];
    }

    /**
     * The `collide` event of shot ball `ball`, whose contact names `bj`: while the ball's
     * handler is registered and `bj` is a tracked box, the handler removes itself, clears
     * the springs, puts every tracked sphere into the world and scores the round's colour.
     * Any other contact, or a ball whose handler is gone, changes nothing.
     */
    method CollideHandler(ball: BodyId, bj: BodyId)
      requires Valid()
      modifies this`collideHandlers, this`springs, this`postStepHooked, this`world, game
      ensures Valid()
      ensures old(ball in collideHandlers && bj in boxes) ==>
        && collideHandlers == old(collideHandlers) - {ball}
        && springs == []
        && postStepHooked == (old(postStepHooked) && old(springs) == [])
        && world == old(world) + Ids(spheres)
        && boxes == old(boxes) && spheres == old(spheres) && bodies == old(bodies)
        && (game != null ==>
              && game.answers == old(game.answers) + [old(game.selectedColor) == Some(randomColor)]
              && game.score == (if old(game.selectedColor) == Some(randomColor) then old(game.score) + 1 else 0)
              && game.pendingShows == old(game.pendingShows) + 1
              && game.selectedColor == old(game.selectedColor) && game.guesserHidden == old(game.guesserHidden))
      ensures !old(ball in collideHandlers && bj in boxes) ==>
        unchanged(this) && (game != null ==> unchanged(game))
    {
      var isSphereCollideWithBoxes := bj in boxes;
      if ball in collideHandlers && isSphereCollideWithBoxes {
        collideHandlers := collideHandlers - {ball};
        RemoveSpringConstraints();
        AddSpheresToWorld();
        if game != null {
          game.CheckAnswer(randomColor);
        }
      }
    }

    /** The six `createWall` calls that open `createWallsFromBoxes`. */
    method LayWalls()
      modifies this`boxesData
      ensures boxesData == old(boxesData) + Walls(0.0, NoLift)
    {
      ghost var laid: seq<Pos> := [];
      CreateWall(WallRows, FaceCols, Pos(0.0, 0.0, 0.0));
      laid := WallLayout(WallRows, FaceCols, Pos(0.0, 0.0, 0.0), NoLift);
      AppendAssoc(old(boxesData), laid, WallLayout(WallRows, FaceCols, Pos(0.0, 0.0, BoxD * -3.0), NoLift));
      CreateWall(WallRows, FaceCols, Pos(0.0, 0.0, BoxD * -3.0));
      laid := laid + WallLayout(WallRows, FaceCols, Pos(0.0, 0.0, BoxD * -3.0), NoLift);
      AppendAssoc(old(boxesData), laid, WallLayout(WallRows, PillarCols, Pos(BoxW * -2.0, 0.0, BoxD * -1.0), NoLift));
      CreateWall(WallRows, PillarCols, Pos(BoxW * -2.0, 0.0, BoxD * -1.0));
      laid := laid + WallLayout(WallRows, PillarCols, Pos(BoxW * -2.0, 0.0, BoxD * -1.0), NoLift);
      AppendAssoc(old(boxesData), laid, WallLayout(WallRows, PillarCols, Pos(BoxW * -2.0, 0.0, BoxD * -2.0), NoLift));
      CreateWall(WallRows, PillarCols, Pos(BoxW * -2.0, 0.0, BoxD * -2.0));
      laid := laid + WallLayout(WallRows, PillarCols, Pos(BoxW * -2.0, 0.0, BoxD * -2.0), NoLift);
      AppendAssoc(old(boxesData), laid, WallLayout(WallRows, PillarCols, Pos(BoxW * 2.0, 0.0, BoxD * -1.0), NoLift));
      CreateWall(WallRows, PillarCols, Pos(BoxW * 2.0, 0.0, BoxD * -1.0));
      laid := laid + WallLayout(WallRows, PillarCols, Pos(BoxW * 2.0, 0.0, BoxD * -1.0), NoLift);
      AppendAssoc(old(boxesData), laid, WallLayout(WallRows, PillarCols, Pos(BoxW * 2.0, 0.0, BoxD * -2.0), NoLift));
      CreateWall(WallRows, PillarCols, Pos(BoxW * 2.0, 0.0, BoxD * -2.0));
      laid := laid + WallLayout(WallRows, PillarCols, Pos(BoxW * 2.0, 0.0, BoxD * -2.0), NoLift);
      assert laid == Walls(0.0, NoLift);
    }

    /**
     * `createWallsFromBoxes`: lays out the six walls (56 more cells), builds the boxes of
     * the first 56 cells, which are always the six walls, and binds them with springs.
     */
    method CreateWallsFromBoxes()
      requires Valid()
      modifies this`boxesData, this`bodies, this`world, this`boxes, this`springs, this`postStepHooked
      ensures Valid()
      ensures boxesData == old(boxesData) + Walls(0.0, NoLift)
      ensures boxes == old(boxes) + Fresh(old(|bodies|), BoxCount)
      ensures bodies == old(bodies) + BoxBodies(Walls(0.0, NoLift))
      ensures world == old(world) + Ids(Fresh(old(|bodies|), BoxCount))
      ensures springs == old(springs) + AllPairs(boxes)
      ensures postStepHooked
    {
      var boxCount := BoxCount;
      ghost var before := boxesData;
      LayWalls();
      WallsSize(0.0, 0.0, NoLift);
      LayoutGrows(before, boxesData);
      CreateBoxes(boxCount);
      CreateSpringConstraints();
      IdsFresh(old(|bodies|), BoxCount);
    }

    /**
     * `resetScene`: every tracked box and sphere loses its sound listeners and leaves the
     * world, and both collections are emptied. The layout cells, the springs and the
     * collide handlers are left as they are.
     */
    method ResetScene()
      requires Valid()
      modifies this`world, this`soundHooks, this`ballSoundHooks, this`boxes, this`spheres
      ensures Valid()
      ensures world == old(world) - Ids(old(boxes)) - Ids(old(spheres))
      ensures soundHooks == old(soundHooks) - Ids(old(boxes)) - Ids(old(spheres))
      ensures ballSoundHooks == old(ballSoundHooks) - Ids(old(boxes)) - Ids(old(spheres))
      ensures boxes == [] && spheres == []
      ensures boxesData == old(boxesData) && springs == old(springs) && collideHandlers == old(collideHandlers)
    {
      RemoveBodies(boxes);
      RemoveBodies(spheres);
      boxes := [];
      spheres := [];
    }

    /** One `resetScene` loop: each body of `ids` loses both sound listeners and leaves the world. */
    method RemoveBodies(ids: seq<BodyId>)
      modifies this`world, this`soundHooks, this`ballSoundHooks
      ensures world == old(world) - Ids(ids)
      ensures soundHooks == old(soundHooks) - Ids(ids)
      ensures ballSoundHooks == old(ballSoundHooks) - Ids(ids)
    {
      var k := 0;
      while k < |ids|
        invariant 0 <= k <= |ids|
        invariant world == old(world) - Ids(ids[..k])
        invariant soundHooks == old(soundHooks) - Ids(ids[..k])
        invariant ballSoundHooks == old(ballSoundHooks) - Ids(ids[..k])
      {
        var body := ids[k];
        soundHooks := soundHooks - {body};
        ballSoundHooks := ballSoundHooks - {body};
        world := world - {body};
        assert ids[..k + 1] == ids[..k] + [body];
        IdsSnoc(ids[..k], body);
        k := k + 1;
      }
      assert ids[..k] == ids;
    }

    /**
     * The `selectColor` listener: resets the scene, rebuilds the walls with their springs and
     * lays out a fresh, hidden set of spheres. The new round's boxes always stand on the six
     * walls, and the layout data grows by another 56 cells.
     */
    method StartRound()
      requires Valid()
      modifies this`boxesData, this`bodies, this`world, this`boxes, this`spheres, this`springs
      modifies this`postStepHooked, this`soundHooks, this`ballSoundHooks, this`randomColor
      ensures Valid()
      ensures bodies == old(bodies) + BoxBodies(Walls(0.0, NoLift)) + FillBodies(SphereCount)
      ensures boxesData == old(boxesData) + Walls(0.0, NoLift)
      ensures boxes == Fresh(old(|bodies|), BoxCount)
      ensures spheres == Fresh(old(|bodies|) + BoxCount, SphereCount)
      ensures world == old(world) - Ids(old(boxes)) - Ids(old(spheres)) + Ids(boxes)
      ensures springs == old(springs) + AllPairs(boxes) && postStepHooked
      ensures forall k :: 0 <= k < |spheres| ==> spheres[k] !in world
      ensures soundHooks == old(soundHooks) - Ids(old(boxes)) - Ids(old(spheres)) + SoundSpheres(old(|bodies|) + BoxCount, SphereCount)
      ensures ballSoundHooks == old(ballSoundHooks) - Ids(old(boxes)) - Ids(old(spheres))
      ensures randomColor == 0
    {
      ResetScene();
      BuildRound();
    }

    /** The rebuilding half of a new round, on a scene whose lists are empty. */
    method BuildRound()
      requires Valid() && boxes == [] && spheres == []
      modifies this`boxesData, this`bodies, this`world, this`boxes, this`spheres, this`springs
      modifies this`postStepHooked, this`soundHooks, this`randomColor
      ensures Valid()
      ensures bodies == old(bodies) + BoxBodies(Walls(0.0, NoLift)) + FillBodies(SphereCount)
      ensures boxesData == old(boxesData) + Walls(0.0, NoLift)
      ensures boxes == Fresh(old(|bodies|), BoxCount)
      ensures spheres == Fresh(old(|bodies|) + BoxCount, SphereCount)
      ensures world == old(world) + Ids(boxes)
      ensures springs == old(springs) + AllPairs(boxes) && postStepHooked
      ensures forall k :: 0 <= k < |spheres| ==> spheres[k] !in world
      ensures soundHooks == old(soundHooks) + SoundSpheres(old(|bodies|) + BoxCount, SphereCount)
      ensures randomColor == 0
    {
      CreateWallsFromBoxes();
      WallsSize(0.0, 0.0, NoLift);
      assert |bodies| == old(|bodies|) + BoxCount;
      assert boxes == Fresh(old(|bodies|), BoxCount);
      assert forall id :: id in world ==> id < old(|bodies|) + BoxCount;
      FillSpheres();
    }

    /**
     * A click on colour `index`: the game records the pick, hides the guesser and dispatches
     * `selectColor`, which starts a new round.
     */
    method SelectColor(index: nat)
      requires Valid() && game != null && index < game.colorCount
      modifies this`boxesData, this`bodies, this`world, this`boxes, this`spheres, this`springs
      modifies this`postStepHooked, this`soundHooks, this`ballSoundHooks, this`randomColor, game
      ensures Valid()
      ensures game.selectedColor == Some(index) && game.guesserHidden
      ensures game.score == old(game.score) && game.answers == old(game.answers)
      ensures game.pendingShows == old(game.pendingShows)
      ensures bodies == old(bodies) + BoxBodies(Walls(0.0, NoLift)) + FillBodies(SphereCount)
      ensures boxesData == old(boxesData) + Walls(0.0, NoLift)
      ensures boxes == Fresh(old(|bodies|), BoxCount)
      ensures spheres == Fresh(old(|bodies|) + BoxCount, SphereCount)
      ensures world == old(world) - Ids(old(boxes)) - Ids(old(spheres)) + Ids(boxes)
      ensures springs == old(springs) + AllPairs(boxes) && postStepHooked
      ensures forall k :: 0 <= k < |spheres| ==> spheres[k] !in world
      ensures soundHooks == old(soundHooks) - Ids(old(boxes)) - Ids(old(spheres)) + SoundSpheres(old(|bodies|) + BoxCount, SphereCount)
      ensures ballSoundHooks == old(ballSoundHooks) - Ids(old(boxes)) - Ids(old(spheres))
      ensures randomColor == 0
    {
      game.ClickColor(index);
      StartRound();
    }

    /**
     * A collision on `body` whose contact names `bj`, as its sound listeners see it: both
     * listeners call `playSound`, which never forwards `isShotBall`, so even the shot ball is
     * only heard against the floor, with the ordinary sound.
     */
    method CollisionSound(body: BodyId, bj: BodyId, impact: real, board: SoundBoard)
      requires Valid() && board.Valid()
      modifies board`volumes, board`played
      ensures board.Valid()
      ensures body !in soundHooks && body !in ballSoundHooks ==>
        board.volumes == old(board.volumes) && board.played == old(board.played)
      ensures body in soundHooks || body in ballSoundHooks ==>
        match HitSound(bj, impact, shotBall, floor, false)
        case None => board.volumes == old(board.volumes) && board.played == old(board.played)
        case Some(h) =>
          && board.volumes == old(board.volumes)[h.soundId := if board.isMuted then 0.0 else h.volume]
          && board.played == old(board.played) + [h.soundId]
      ensures |board.played| > |old(board.played)| ==>
        bj == floor && impact > 1.5 && board.played == old(board.played) + [0]
    {
      if body in soundHooks {
        board.PlayHitSound(bj, impact, shotBall, floor, false);
      }
      if body in ballSoundHooks {
        board.PlayHitSound(bj, impact, shotBall, floor, false);
      }
    }
  }
}
