/**
 * Static placement data: the brick walls of `createWall` (both revisions) and the grid
 * of coloured spheres of `fillSpheres`.
 */
module Layout {
  import opened Physics

  /** `boxSize` in both revisions. */
  const BoxW: real := 0.5
  const BoxH: real := 0.5
  const BoxD: real := 0.5

  /** The walls of `createWallsFromBoxes`: 4 rows; 5 columns front and back, 1 for the side pillars. */
  const WallRows: nat := 4
  const FaceCols: nat := 5
  const PillarCols: nat := 1

  /** Number of boxes `createWallsFromBoxes` asks for (`boxCount`). */
  const BoxCount: nat := 56

  /** JavaScript's `j % 2 === 0` on a number: true exactly for the even integers. */
  predicate IsEven(j: real) {
    j == j.Floor as real && j.Floor % 2 == 0
  }

  /** Row `i` and column offset `j` have the same parity (both even or both odd). */
  predicate SameParity(i: nat, j: real) {
    (i % 2 == 0) == IsEven(j)
  }

  /** The first column offset of a wall: `((cols - 1) / 2) * -1`. */
  function ColsCenter(cols: nat): real {
    ((cols as real - 1.0) / 2.0) * -1.0
  }

  /**
   * The position pushed for row `i`, column offset `j` of a wall anchored at `p`.
   * `lift` is the extra height the earlier revision adds (0.2 there, 0 in the final one).
   */
  function Cell(i: nat, j: real, p: Pos, lift: real): (r: Pos)
    ensures r.x == BoxW * j + p.x + (if i % 2 == 0 then -0.1 else 0.0)
    ensures r.z == if SameParity(i, j) then p.z + 0.05 else p.z
  {
    var x := if j != 0.0 then BoxW * j else 0.0;
    var z := if i % 2 == 0 && IsEven(j) then p.z + 0.05
             else if i % 2 != 0 && !IsEven(j) then p.z + 0.05
             else p.z;
    var xShift := if i % 2 == 0 then -0.1 else 0.0;
    Pos(x + p.x + xShift, BoxH * 0.5 + lift + BoxH * i as real, z)
  }

  /** The cells of row `i`, left to right. */
  function Row(i: nat, cols: nat, p: Pos, lift: real): (r: seq<Pos>)
    ensures |r| == cols
  {
    seq(cols, k requires 0 <= k < cols => Cell(i, ColsCenter(cols) + k as real, p, lift))
  }

  /** The cells of rows `0 .. rows - 1` in row-major order, as `createWall` pushes them. */
  function WallLayout(rows: nat, cols: nat, p: Pos, lift: real): seq<Pos>
  {
    if rows == 0 then [] else WallLayout(rows - 1, cols, p, lift) + Row(rows - 1, cols, p, lift)
  }

  lemma AppendAssoc<T>(a: seq<T>, b: seq<T>, c: seq<T>)
    ensures (a + b) + c == a + (b + c)
  {
  }

  /** `(a + 1) * c == a * c + c`. */
  lemma MulSucc(a: nat, c: nat)
    ensures (a + 1) * c == a * c + c
  {
  }

  /** Multiplying by `c` keeps `a <= b`. */
  lemma {:induction false} MulMonotone(a: nat, b: nat, c: nat)
    requires a <= b
    ensures a * c <= b * c
    decreases b - a
  {
    if a < b {
      MulMonotone(a + 1, b, c);
      MulSucc(a, c);
    }
  }

  lemma {:induction false} WallLayoutLength(rows: nat, cols: nat, p: Pos, lift: real)
    ensures |WallLayout(rows, cols, p, lift)| == rows * cols
  {
    if rows > 0 {
      WallLayoutLength(rows - 1, cols, p, lift);
      MulSucc(rows - 1, cols);
    }
  }

  /** Row-major indexing stays inside an `n x cols` block. */
  lemma RowMajorBound(i: nat, k: nat, n: nat, cols: nat)
    requires i < n && k < cols
    ensures i * cols + k < n * cols
  {
    MulSucc(i, cols);
    MulMonotone(i + 1, n, cols);
  }

  /** Cell `(i, k)` of a wall is the `(i * cols + k)`-th position pushed. */
  lemma {:induction false} WallLayoutIndex(rows: nat, cols: nat, p: Pos, lift: real, i: nat, k: nat)
    requires i < rows && k < cols
    ensures |WallLayout(rows, cols, p, lift)| == rows * cols
    ensures i * cols + k < rows * cols
    ensures WallLayout(rows, cols, p, lift)[i * cols + k] == Cell(i, ColsCenter(cols) + k as real, p, lift)
  {
    WallLayoutLength(rows, cols, p, lift);
    RowMajorBound(i, k, rows, cols);
    var w := WallLayout(rows - 1, cols, p, lift);
    assert WallLayout(rows, cols, p, lift) == w + Row(rows - 1, cols, p, lift);
    if i < rows - 1 {
      WallLayoutIndex(rows - 1, cols, p, lift, i, k);
    } else {
      WallLayoutLength(rows - 1, cols, p, lift);
      assert i * cols == |w|;
    }
  }

  /**
   * A wall has exactly `rows * cols` cells in row-major order; cell `(i, k)` sits at column
   * offset `j = k - (cols - 1) / 2`, is staggered by -0.1 on even rows, stacked at
   * `0.25 + lift + 0.5 * i` whatever the anchor's height, and nudged by 0.05 in depth
   * exactly when row and column have the same parity.
   */
  lemma WallLayoutAt(rows: nat, cols: nat, p: Pos, lift: real, i: nat, k: nat)
    requires i < rows && k < cols
    ensures |WallLayout(rows, cols, p, lift)| == rows * cols
    ensures i * cols + k < rows * cols
    ensures var j := k as real - (cols as real - 1.0) / 2.0;
            WallLayout(rows, cols, p, lift)[i * cols + k] ==
            Pos(0.5 * j + p.x + (if i % 2 == 0 then -0.1 else 0.0),
                0.25 + lift + 0.5 * i as real,
                if SameParity(i, j) then p.z + 0.05 else p.z)
  {
    WallLayoutIndex(rows, cols, p, lift, i, k);
  }

  /** The height of the anchor plays no part in a wall's layout. */
  lemma {:induction false} WallLayoutIgnoresAnchorHeight(rows: nat, cols: nat, p: Pos, q: Pos, lift: real)
    requires p.x == q.x && p.z == q.z
    ensures WallLayout(rows, cols, p, lift) == WallLayout(rows, cols, q, lift)
  {
    if rows > 0 {
      WallLayoutIgnoresAnchorHeight(rows - 1, cols, p, q, lift);
      assert Row(rows - 1, cols, p, lift) == Row(rows - 1, cols, q, lift);
    }
  }

  /**
   * The six walls of `createWallsFromBoxes`, anchored at height `y`: two 4 x 5 walls front
   * and back, and four 4 x 1 pillars closing the sides.
   */
  function Walls(y: real, lift: real): seq<Pos>
  {
    WallLayout(WallRows, FaceCols, Pos(0.0, y, 0.0), lift)
    + WallLayout(WallRows, FaceCols, Pos(0.0, y, BoxD * -3.0), lift)
    + WallLayout(WallRows, PillarCols, Pos(BoxW * -2.0, y, BoxD * -1.0), lift)
    + WallLayout(WallRows, PillarCols, Pos(BoxW * -2.0, y, BoxD * -2.0), lift)
    + WallLayout(WallRows, PillarCols, Pos(BoxW * 2.0, y, BoxD * -1.0), lift)
    + WallLayout(WallRows, PillarCols, Pos(BoxW * 2.0, y, BoxD * -2.0), lift)
  }

  /** The six walls hold exactly the 56 cells `createBoxes(56)` asks for, whatever the anchor height. */
  lemma WallsSize(y: real, y': real, lift: real)
    ensures |Walls(y, lift)| == BoxCount
    ensures Walls(y, lift) == Walls(y', lift)
  {
    WallLayoutLength(WallRows, FaceCols, Pos(0.0, y, 0.0), lift);
    WallLayoutLength(WallRows, FaceCols, Pos(0.0, y, BoxD * -3.0), lift);
    WallLayoutLength(WallRows, PillarCols, Pos(BoxW * -2.0, y, BoxD * -1.0), lift);
    WallLayoutLength(WallRows, PillarCols, Pos(BoxW * -2.0, y, BoxD * -2.0), lift);
    WallLayoutLength(WallRows, PillarCols, Pos(BoxW * 2.0, y, BoxD * -1.0), lift);
    WallLayoutLength(WallRows, PillarCols, Pos(BoxW * 2.0, y, BoxD * -2.0), lift);
    WallLayoutIgnoresAnchorHeight(WallRows, FaceCols, Pos(0.0, y, 0.0), Pos(0.0, y', 0.0), lift);
    WallLayoutIgnoresAnchorHeight(WallRows, FaceCols, Pos(0.0, y, BoxD * -3.0), Pos(0.0, y', BoxD * -3.0), lift);
    WallLayoutIgnoresAnchorHeight(WallRows, PillarCols, Pos(BoxW * -2.0, y, BoxD * -1.0), Pos(BoxW * -2.0, y', BoxD * -1.0), lift);
    WallLayoutIgnoresAnchorHeight(WallRows, PillarCols, Pos(BoxW * -2.0, y, BoxD * -2.0), Pos(BoxW * -2.0, y', BoxD * -2.0), lift);
    WallLayoutIgnoresAnchorHeight(WallRows, PillarCols, Pos(BoxW * 2.0, y, BoxD * -1.0), Pos(BoxW * 2.0, y', BoxD * -1.0), lift);
    WallLayoutIgnoresAnchorHeight(WallRows, PillarCols, Pos(BoxW * 2.0, y, BoxD * -2.0), Pos(BoxW * 2.0, y', BoxD * -2.0), lift);
  }

  /** Every cell of `s` moved up by `lift`. */
  function Raised(s: seq<Pos>, lift: real): (r: seq<Pos>)
    ensures |r| == |s|
  {
    seq(|s|, k requires 0 <= k < |s| => s[k].(y := s[k].y + lift))
  }

  lemma RaisedConcat(a: seq<Pos>, b: seq<Pos>, lift: real)
    ensures Raised(a + b, lift) == Raised(a, lift) + Raised(b, lift)
  {
    assert forall k :: 0 <= k < |a| + |b| ==> Raised(a + b, lift)[k] == (Raised(a, lift) + Raised(b, lift))[k];
  }

  /** A wall built with an extra height `lift` is the same wall with every cell moved up by `lift`. */
  lemma {:induction false} WallLayoutRaised(rows: nat, cols: nat, p: Pos, lift: real)
    ensures WallLayout(rows, cols, p, lift) == Raised(WallLayout(rows, cols, p, 0.0), lift)
  {
    if rows > 0 {
      WallLayoutRaised(rows - 1, cols, p, lift);
      assert Row(rows - 1, cols, p, lift) == Raised(Row(rows - 1, cols, p, 0.0), lift);
      RaisedConcat(WallLayout(rows - 1, cols, p, 0.0), Row(rows - 1, cols, p, 0.0), lift);
    }
  }

  /**
   * The walls of the earlier revision (extra height 0.2) are those of the final one, each
   * cell 0.2 higher: the two layouts differ in nothing else.
   */
  lemma WallsRaised(y: real, lift: real)
    ensures Walls(y, lift) == Raised(Walls(y, 0.0), lift)
  {
    var a := WallLayout(WallRows, FaceCols, Pos(0.0, y, 0.0), 0.0);
    var b := WallLayout(WallRows, FaceCols, Pos(0.0, y, BoxD * -3.0), 0.0);
    var c := WallLayout(WallRows, PillarCols, Pos(BoxW * -2.0, y, BoxD * -1.0), 0.0);
    var d := WallLayout(WallRows, PillarCols, Pos(BoxW * -2.0, y, BoxD * -2.0), 0.0);
    var e := WallLayout(WallRows, PillarCols, Pos(BoxW * 2.0, y, BoxD * -1.0), 0.0);
    var f := WallLayout(WallRows, PillarCols, Pos(BoxW * 2.0, y, BoxD * -2.0), 0.0);
    WallLayoutRaised(WallRows, FaceCols, Pos(0.0, y, 0.0), lift);
    WallLayoutRaised(WallRows, FaceCols, Pos(0.0, y, BoxD * -3.0), lift);
    WallLayoutRaised(WallRows, PillarCols, Pos(BoxW * -2.0, y, BoxD * -1.0), lift);
    WallLayoutRaised(WallRows, PillarCols, Pos(BoxW * -2.0, y, BoxD * -2.0), lift);
    WallLayoutRaised(WallRows, PillarCols, Pos(BoxW * 2.0, y, BoxD * -1.0), lift);
    WallLayoutRaised(WallRows, PillarCols, Pos(BoxW * 2.0, y, BoxD * -2.0), lift);
    RaisedConcat(a, b, lift);
    RaisedConcat(a + b, c, lift);
    RaisedConcat(a + b + c, d, lift);
    RaisedConcat(a + b + c + d, e, lift);
    RaisedConcat(a + b + c + d + e, f, lift);
  }

  /** A wall box, in both revisions: mass 1, half extents of `boxSize`, placed at `p`. */
  function BoxBody(p: Pos): Body
  {
    Body(1.0, BoxShape(BoxW / 2.0, BoxH / 2.0, BoxD / 2.0), p)
  }

  /** The bodies `createBoxes` makes for the layout cells `data`, in order. */
  function BoxBodies(data: seq<Pos>): (r: seq<Body>)
    ensures |r| == |data|
  {
    seq(|data|, k requires 0 <= k < |data| => BoxBody(data[k]))
  }

  /** One more layout cell gives one more box body. */
  lemma BoxBodiesSnoc(data: seq<Pos>, i: nat)
    requires i < |data|
    ensures BoxBodies(data[..i + 1]) == BoxBodies(data[..i]) + [BoxBody(data[i])]
  {
    var longer, shorter := BoxBodies(data[..i + 1]), BoxBodies(data[..i]) + [BoxBody(data[i])];
    assert forall k :: 0 <= k < i + 1 ==> longer[k] == shorter[k];
  }

  /** How many boxes `createBoxes(count)` makes from `cells` layout cells. */
  function Min(a: nat, b: nat): nat
  {
    if a < b then a else b
  }

  // ---------------------------------------------------------------------------------
  // The sphere grid of fillSpheres

  const CountWidth: nat := 5
  const CountHeight: nat := 6
  const CountDepth: nat := 3
  /** `allCount`: 5 * 6 * 3 spheres. */
  const SphereCount: nat := 90
  const SphereSize: real := 0.15

  /** The grid cell (column, layer, slice) of the `i`-th sphere. */
  function SphereCell(i: nat): (nat, nat, nat)
  {
    (i % CountWidth, (i % (CountWidth * CountHeight)) / CountWidth, i / (CountWidth * CountHeight))
  }

  /** The index of grid cell `(a, b, c)` in fill order: X first, then Y, then Z. */
  function SphereIndex(a: nat, b: nat, c: nat): nat
  {
    a + CountWidth * b + CountWidth * CountHeight * c
  }

  /** Every index below 90 lands in the 5 x 6 x 3 grid, and the cell gives the index back. */
  lemma SphereCellInGrid(i: nat)
    requires i < SphereCount
    ensures var (a, b, c) := SphereCell(i);
            a < CountWidth && b < CountHeight && c < CountDepth && SphereIndex(a, b, c) == i
  {
    var (a, b, c) := SphereCell(i);
    assert i % 30 == a + 5 * b;
    assert i == (i % 30) + 30 * c;
  }

  /** Every cell of the grid is reached, by exactly one index: the map is a bijection. */
  lemma SphereIndexInGrid(a: nat, b: nat, c: nat)
    requires a < CountWidth && b < CountHeight && c < CountDepth
    ensures SphereIndex(a, b, c) < SphereCount
    ensures SphereCell(SphereIndex(a, b, c)) == (a, b, c)
  {
    var i := a + 5 * b + 30 * c;
    assert i % 30 == a + 5 * b && i / 30 == c;
    assert (a + 5 * b) % 5 == a && (a + 5 * b) / 5 == b;
  }

  /** The position `fillSpheres` gives the `i`-th sphere. */
  function SpherePosition(i: nat): (r: Pos)
    ensures var (a, b, c) := SphereCell(i);
            r == Pos(-0.6 + 0.3 * a as real, 0.15 + 0.3 * b as real, -1.05 + 0.3 * c as real)
  {
    var shiftX := SphereSize * 2.0 - (CountWidth as real / 2.0) * SphereSize * 2.0;
    var shiftZ := -0.9;
    var x := -SphereSize + (i % CountWidth) as real * SphereSize * 2.0;
    var y := SphereSize + ((i % (CountWidth * CountHeight)) / CountWidth) as real * SphereSize * 2.0;
    var z := -SphereSize + (i / (CountWidth * CountHeight)) as real * SphereSize * 2.0;
    Pos(x + shiftX, y, z + shiftZ)
  }

  /** No two of the 90 spheres start at the same place. */
  lemma SpherePositionsDistinct(i: nat, i': nat)
    requires i < SphereCount && i' < SphereCount && i != i'
    ensures SpherePosition(i) != SpherePosition(i')
  {
    SphereCellInGrid(i);
    SphereCellInGrid(i');
  }
}
