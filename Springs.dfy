/**
 * The cohesion springs of `createSpringConstraints`: one spring for every pair of tracked
 * boxes `i < j`, enumerated by the two nested loops (outer `i`, inner `j = i + 1 ..`).
 */
module Springs {
  import opened Physics

  /** The pairs the inner loop adds for box `i`: `(s[i], s[j])` for `j = i + 1 .. |s| - 1`. */
  function RowPairs(s: seq<BodyId>, i: nat): (r: seq<(BodyId, BodyId)>)
    requires i < |s|
    ensures |r| == |s| - i - 1
  {
    seq(|s| - i - 1, k requires 0 <= k < |s| - i - 1 => (s[i], s[i + 1 + k]))
  }

  /** The pairs added by the first `m` rounds of the outer loop. */
  function PairsUpTo(s: seq<BodyId>, m: nat): seq<(BodyId, BodyId)>
    requires m <= |s|
  {
    if m == 0 then [] else PairsUpTo(s, m - 1) + RowPairs(s, m - 1)
  }

  /** Every pair `i < j` of `s`, in the order the nested loops visit them. */
  function AllPairs(s: seq<BodyId>): seq<(BodyId, BodyId)>
  {
    PairsUpTo(s, |s|)
  }

  lemma {:induction false} PairsUpToLength(s: seq<BodyId>, m: nat)
    requires m <= |s|
    ensures 2 * |PairsUpTo(s, m)| == m * (2 * |s| - m - 1)
  {
    if m > 0 {
      PairsUpToLength(s, m - 1);
      var n := |s|;
      assert (m - 1) * (2 * n - (m - 1) - 1) + 2 * (n - m) == m * (2 * n - m - 1);
    }
  }

  /** `n` boxes are bound by exactly `n * (n - 1) / 2` springs. */
  lemma AllPairsCount(s: seq<BodyId>)
    ensures |AllPairs(s)| == |s| * (|s| - 1) / 2
  {
    PairsUpToLength(s, |s|);
  }

  /** Every pair `i < j` of boxes gets its spring ... */
  lemma {:induction false} AllPairsComplete(s: seq<BodyId>, i: nat, j: nat)
    requires i < j < |s|
    ensures (s[i], s[j]) in AllPairs(s)
  {
    PairsUpToHas(s, |s|, i, j);
  }

  lemma {:induction false} PairsUpToHas(s: seq<BodyId>, m: nat, i: nat, j: nat)
    requires i < j < |s| && i < m <= |s|
    ensures (s[i], s[j]) in PairsUpTo(s, m)
  {
    if i < m - 1 {
      PairsUpToHas(s, m - 1, i, j);
    } else {
      assert RowPairs(s, i)[j - i - 1] == (s[i], s[j]);
    }
  }

  /** ... and every spring binds a pair `i < j` of boxes: never a box to itself, never out of order. */
  lemma {:induction false} AllPairsSound(s: seq<BodyId>, e: (BodyId, BodyId))
    requires e in AllPairs(s)
    ensures exists i, j :: 0 <= i < j < |s| && e == (s[i], s[j])
  {
    PairsUpToSound(s, |s|, e);
  }

  lemma {:induction false} PairsUpToSound(s: seq<BodyId>, m: nat, e: (BodyId, BodyId))
    requires m <= |s| && e in PairsUpTo(s, m)
    ensures exists i, j :: 0 <= i < j < |s| && e == (s[i], s[j])
  {
    if e in PairsUpTo(s, m - 1) {
      PairsUpToSound(s, m - 1, e);
    } else {
      var k :| 0 <= k < |RowPairs(s, m - 1)| && RowPairs(s, m - 1)[k] == e;
      assert e == (s[m - 1], s[m + k]);
    }
  }

  /** With the 56 boxes of a round there are 1540 springs. */
  lemma WallSpringCount(s: seq<BodyId>)
    requires |s| == 56
    ensures |AllPairs(s)| == 1540
  {
    AllPairsCount(s);
  }
}
