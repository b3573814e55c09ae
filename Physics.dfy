/**
 * The rigid-body engine (cannon-es) seen through the narrow interface the game uses:
 * bodies are opaque identities handed out by a counter, and each body remembers the
 * mass, shape and position it was created with. The world is the set of body ids
 * that have been added to it.
 */
module Physics {

  /** A position in the scene (a `{x, y, z}` object or a `CANNON.Vec3`). */
  datatype Pos = Pos(x: real, y: real, z: real)

  /** A body's id: cannon-es numbers bodies 0, 1, 2, ... in creation order. */
  type BodyId = nat

  /** Collision shapes: a box by its half extents, a sphere by its radius, an infinite plane. */
  datatype Shape = BoxShape(hx: real, hy: real, hz: real) | SphereShape(radius: real) | PlaneShape

  /** The creation parameters of a body: `new CANNON.Body({ mass, position, shape })`. */
  datatype Body = Body(mass: real, shape: Shape, position: Pos)

  /** The ids of a sequence of tracked bodies, as a set. */
  function Ids(s: seq<BodyId>): (r: set<BodyId>)
    ensures forall k :: 0 <= k < |s| ==> s[k] in r
    ensures forall id :: id in r ==> exists k :: 0 <= k < |s| && s[k] == id
  {
    set id | id in s
  }

  /** The ids `first`, `first + 1`, ..., `first + n - 1` handed out by `n` consecutive creations. */
  function Fresh(first: BodyId, n: nat): (r: seq<BodyId>)
    ensures |r| == n
    ensures forall k :: 0 <= k < n ==> r[k] == first + k
  {
    seq(n, k requires 0 <= k < n => first + k)
  }

  /** One more creation hands out the next id. */
  lemma FreshSnoc(first: BodyId, n: nat)
    ensures Fresh(first, n + 1) == Fresh(first, n) + [first + n]
  {
    var longer, shorter := Fresh(first, n + 1), Fresh(first, n) + [first + n];
    assert forall k :: 0 <= k < n + 1 ==> longer[k] == shorter[k];
  }

  lemma IdsSnoc(s: seq<BodyId>, id: BodyId)
    ensures Ids(s + [id]) == Ids(s) + {id}
  {
  }

  lemma IdsFresh(first: BodyId, n: nat)
    ensures forall id :: id in Ids(Fresh(first, n)) <==> first <= id < first + n
  {
    forall id | first <= id < first + n
      ensures id in Ids(Fresh(first, n))
    {
      assert Fresh(first, n)[id - first] == id;
    }
  }
}
