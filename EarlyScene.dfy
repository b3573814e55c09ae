/**
 * The earlier, single-file revision of the scene (src/script.js). The page load lays out the
 * same six walls (every cell 0.2 higher), builds their 56 boxes, and registers one `postStep`
 * listener per pair of boxes. Nothing is ever reset or removed.
 */
module EarlyScene {
  import opened Physics
  import opened Layout
  import opened Springs

  /** The extra height this revision adds to every wall cell (`+ 0.2`). */
  const EarlyLift: real := 0.2

  /** The physics floor: `new CANNON.Body()` with a plane shape, so mass 0 at the origin. */
  const PlaneFloor: Body := Body(0.0, PlaneShape, Pos(0.0, 0.0, 0.0))

  /** The sphere of `createSphere`: radius `sphereSize` (1) and mass 1000. */
  function EarlySphereBody(position: Pos): Body
  {
    Body(1000.0, SphereShape(1.0), position)
  }

  class Scene {
    /** Every wall cell laid out so far (`boxesData`). */
    var boxesData: seq<Pos>
    /** Every body created so far, indexed by its id. */
    var bodies: seq<Body>
    /** The bodies added to the physics world. */
    var world: set<BodyId>
    /** The bodies of `updateObjects`, in order. */
    var updateObjects: seq<BodyId>
    /** The `postStep` listeners: each applies the force of the spring between two bodies. */
    var listeners: seq<(BodyId, BodyId)>
    const floor: BodyId

    /**
     * The floor is a created body in the world and never tracked, every body in the world
     * has been created, and every tracked body is in the world.
     */
    ghost predicate Valid()
      reads this
    {
      && floor < |bodies| && bodies[floor] == PlaneFloor && floor in world
      && floor !in updateObjects
      && (forall id :: id in world ==> id < |bodies|)
      && (forall k :: 0 <= k < |updateObjects| ==> updateObjects[k] in world)
    }

    /**
     * Page load: the floor, then `createWallsFromBoxes()`. Afterwards the world holds the
     * floor and the 56 boxes of the six walls, and 1540 spring listeners bind every pair.
     */
    constructor ()
      ensures Valid() && floor == 0
      ensures boxesData == Walls(0.5, EarlyLift)
      ensures updateObjects == Fresh(1, BoxCount)
      ensures bodies == [PlaneFloor] + BoxBodies(Walls(0.5, EarlyLift))
      ensures world == {floor} + Ids(updateObjects)
      ensures listeners == AllPairs(updateObjects) && |listeners| == 1540
    {
      floor := 0;
      bodies := [PlaneFloor];
      world := {0};
      boxesData := [];
      updateObjects := [];
      listeners := [];
      new;
      CreateWallsFromBoxes();
      assert boxesData[..BoxCount] == Walls(0.5, EarlyLift);
      WallSpringCount(updateObjects);
    }

    /** `new CANNON.Body(...)`: the body gets the next id. */
    method NewBody(b: Body) returns (id: BodyId)
      modifies this`bodies
      ensures id == old(|bodies|) && bodies == old(bodies) + [b]
    {
      id := |bodies|;
      bodies := bodies + [b];
    }

    /**
     * `createWall`: appends the cells of a `rows x cols` wall anchored at `p`, row by row,
     * each 0.2 higher than in the final revision.
     */
    method CreateWall(rows: nat, cols: nat, p: Pos)
      modifies this`boxesData
      ensures boxesData == old(boxesData) + WallLayout(rows, cols, p, EarlyLift)
    {
      var colsCenter := ColsCenter(cols);
      var i := 0;
      while i < rows
        invariant 0 <= i <= rows
        invariant boxesData == old(boxesData) + WallLayout(i, cols, p, EarlyLift)
      {
        var j := colsCenter;
        ghost var k: nat := 0;
        while j < -colsCenter + 1.0
          invariant k <= cols && j == colsCenter + k as real
          invariant boxesData == old(boxesData) + WallLayout(i, cols, p, EarlyLift) + Row(i, cols, p, EarlyLift)[..k]
          decreases cols - k
        {
          var x := if j != 0.0 then BoxW * j else 0.0;
          var z := p.z;
          if i % 2 == 0 && IsEven(j) {
            z := p.z + 0.05;
          } else if i % 2 != 0 && !IsEven(j) {
            z := p.z + 0.05;
          }
          var xShift := if i % 2 == 0 then -0.1 else 0.0;
          var position := Pos(x + p.x + xShift, BoxH * 0.5 + EarlyLift + BoxH * i as real, z);
          assert Row(i, cols, p, EarlyLift)[..k + 1] == Row(i, cols, p, EarlyLift)[..k] + [position];
          boxesData := boxesData + [position];
          j := j + 1.0;
          k := k + 1;
        }
        assert Row(i, cols, p, EarlyLift)[..k] == Row(i, cols, p, EarlyLift);
        i := i + 1;
      }
    }

    /**
     * `createBoxes(count)`: one box body per layout cell, from the first cell on, stopping
     * early when the cells run out; each is added to the world and to `updateObjects`.
     */
    method CreateBoxes(count: nat)
      modifies this`bodies, this`world, this`updateObjects
      ensures var n := Min(count, |boxesData|);
              && updateObjects == old(updateObjects) + Fresh(old(|bodies|), n)
              && bodies == old(bodies) + BoxBodies(boxesData[..n])
              && world == old(world) + Ids(Fresh(old(|bodies|), n))
    {
      var i := 0;
      while i < count
        invariant 0 <= i <= count && i <= |boxesData|
        invariant updateObjects == old(updateObjects) + Fresh(old(|bodies|), i)
        invariant bodies == old(bodies) + BoxBodies(boxesData[..i])
        invariant world == old(world) + Ids(Fresh(old(|bodies|), i))
      {
        if i >= |boxesData| {
          return;
        }
        var body := NewBody(BoxBody(boxesData[i]));
        world := world + {body};
        updateObjects := updateObjects + [body];
        FreshSnoc(old(|bodies|), i);
        assert BoxBodies(boxesData[..i + 1]) == BoxBodies(boxesData[..i]) + [BoxBody(boxesData[i])];
        IdsSnoc(Fresh(old(|bodies|), i), body);
        i := i + 1;
      }
    }

    /** `createSphere`: a heavy sphere at `position`, added to the world and tracked. */
    method CreateSphere(position: Pos)
      requires Valid()
      modifies this`bodies, this`world, this`updateObjects
      ensures Valid()
      ensures bodies == old(bodies) + [EarlySphereBody(position)]
      ensures world == old(world) + {old(|bodies|)}
      ensures updateObjects == old(updateObjects) + [old(|bodies|)]
    {
      var body := NewBody(EarlySphereBody(position));
      world := world + {body};
      updateObjects := updateObjects + [body];
    }

    /**
     * `createSpringConstraints`: one `postStep` listener for every pair `i < j` of tracked
     * objects, appended to those already registered.
     */
    method CreateSpringConstraints()
      modifies this`listeners
      ensures listeners == old(listeners) + AllPairs(updateObjects)
    {
      var i := 0;
      while i < |updateObjects|
        invariant 0 <= i <= |updateObjects|
        invariant listeners == old(listeners) + PairsUpTo(updateObjects, i)
      {
        var j := i + 1;
        while j < |updateObjects|
          invariant i + 1 <= j <= |updateObjects|
          invariant listeners == old(listeners) + PairsUpTo(updateObjects, i) + RowPairs(updateObjects, i)[..j - i - 1]
        {
          assert RowPairs(updateObjects, i)[..j - i] == RowPairs(updateObjects, i)[..j - i - 1] + [(updateObjects[i], updateObjects[j])];
          listeners := listeners + [(updateObjects[i], updateObjects[j])];
          j := j + 1;
        }
        assert RowPairs(updateObjects, i)[..j - i - 1] == RowPairs(updateObjects, i);
        i := i + 1;
      }
    }

    /** The six `createWall` calls, anchored at height 0.5. */
    method LayWalls()
      modifies this`boxesData
      ensures boxesData == old(boxesData) + Walls(0.5, EarlyLift)
    {
      ghost var laid: seq<Pos> := [];
      CreateWall(WallRows, FaceCols, Pos(0.0, 0.5, 0.0));
      laid := WallLayout(WallRows, FaceCols, Pos(0.0, 0.5, 0.0), EarlyLift);
      AppendAssoc(old(boxesData), laid, WallLayout(WallRows, FaceCols, Pos(0.0, 0.5, BoxD * -3.0), EarlyLift));
      CreateWall(WallRows, FaceCols, Pos(0.0, 0.5, BoxD * -3.0));
      laid := laid + WallLayout(WallRows, FaceCols, Pos(0.0, 0.5, BoxD * -3.0), EarlyLift);
      AppendAssoc(old(boxesData), laid, WallLayout(WallRows, PillarCols, Pos(BoxW * -2.0, 0.5, BoxD * -1.0), EarlyLift));
      CreateWall(WallRows, PillarCols, Pos(BoxW * -2.0, 0.5, BoxD * -1.0));
      laid := laid + WallLayout(WallRows, PillarCols, Pos(BoxW * -2.0, 0.5, BoxD * -1.0), EarlyLift);
      AppendAssoc(old(boxesData), laid, WallLayout(WallRows, PillarCols, Pos(BoxW * -2.0, 0.5, BoxD * -2.0), EarlyLift));
      CreateWall(WallRows, PillarCols, Pos(BoxW * -2.0, 0.5, BoxD * -2.0));
      laid := laid + WallLayout(WallRows, PillarCols, Pos(BoxW * -2.0, 0.5, BoxD * -2.0), EarlyLift);
      AppendAssoc(old(boxesData), laid, WallLayout(WallRows, PillarCols, Pos(BoxW * 2.0, 0.5, BoxD * -1.0), EarlyLift));
      CreateWall(WallRows, PillarCols, Pos(BoxW * 2.0, 0.5, BoxD * -1.0));
      laid := laid + WallLayout(WallRows, PillarCols, Pos(BoxW * 2.0, 0.5, BoxD * -1.0), EarlyLift);
      AppendAssoc(old(boxesData), laid, WallLayout(WallRows, PillarCols, Pos(BoxW * 2.0, 0.5, BoxD * -2.0), EarlyLift));
      CreateWall(WallRows, PillarCols, Pos(BoxW * 2.0, 0.5, BoxD * -2.0));
      laid := laid + WallLayout(WallRows, PillarCols, Pos(BoxW * 2.0, 0.5, BoxD * -2.0), EarlyLift);
      assert laid == Walls(0.5, EarlyLift);
    }

    /**
     * `createWallsFromBoxes`: lays out the six walls, builds the boxes of the first 56 cells
     * and binds every pair of tracked objects with a spring listener.
     */
    method CreateWallsFromBoxes()
      requires Valid()
      modifies this`boxesData, this`bodies, this`world, this`updateObjects, this`listeners
      ensures Valid()
      ensures boxesData == old(boxesData) + Walls(0.5, EarlyLift)
      ensures |boxesData| == old(|boxesData|) + BoxCount
      ensures updateObjects == old(updateObjects) + Fresh(old(|bodies|), BoxCount)
      ensures bodies == old(bodies) + BoxBodies(boxesData[..BoxCount])
      ensures world == old(world) + Ids(Fresh(old(|bodies|), BoxCount))
      ensures listeners == old(listeners) + AllPairs(updateObjects)
    {
      var boxCount := BoxCount;
      LayWalls();
      WallsSize(0.5, 0.5, EarlyLift);
      CreateBoxes(boxCount);
      CreateSpringConstraints();
      IdsFresh(old(|bodies|), BoxCount);
    }

    /** A world step ends: every registered listener applies its spring's force, in order. */
    method PostStep() returns (applied: seq<(BodyId, BodyId)>)
      ensures applied == listeners
    {
      applied := [];
      var k := 0;
      while k < |listeners|
        invariant 0 <= k <= |listeners|
        invariant applied == listeners[..k]
      {
        applied := applied + [listeners[k]];
        k := k + 1;
      }
    }
  }
}
