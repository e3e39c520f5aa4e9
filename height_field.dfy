/**
  The height field shared by every generator: a square grid of elevations,
  indexed `g[x][y]` exactly as the working buffer is indexed `heightMap[x, y]`.
  Floating-point elevations are modelled as reals.
 */
module HeightField {

  type Grid = seq<seq<real>>

  /** `g` has `res` columns of `res` cells each. */
  predicate IsSquare(g: Grid, res: nat) {
    |g| == res && forall x :: 0 <= x < res ==> |g[x]| == res
  }

  /** The freshly allocated buffer: every cell is 0. */
  function Zeros(res: nat): (g: Grid)
    ensures IsSquare(g, res)
    ensures forall x, y :: 0 <= x < res && 0 <= y < res ==> g[x][y] == 0.0
  {
    seq(res, _ => seq(res, _ => 0.0))
  }

  /**
    The grid a generator starts from: zeros when the reset flag is set,
    otherwise the heights currently stored in the terrain.
   */
  function Acquired(stored: Grid, res: nat, reset: bool): (g: Grid)
    requires IsSquare(stored, res)
    ensures IsSquare(g, res)
  {
    if reset then Zeros(res) else stored
  }

  /** The contents of a working buffer, read back as a grid (the bulk write to the terrain). */
  function Snapshot(a: array2<real>): (g: Grid)
    reads a
    ensures |g| == a.Length0
    ensures forall x :: 0 <= x < a.Length0 ==> |g[x]| == a.Length1
    ensures forall x, y :: 0 <= x < a.Length0 && 0 <= y < a.Length1 ==> g[x][y] == a[x, y]
  {
    seq(a.Length0, x requires 0 <= x < a.Length0 reads a =>
      seq(a.Length1, y requires 0 <= y < a.Length1 reads a => a[x, y]))
  }

  /**
    An additive pass: every cell `(x, y)` of the result is the old cell plus
    `f(x, y)`, and the grid keeps its shape.
   */
  function AddGrid(g: Grid, res: nat, f: (int, int) -> real): (r: Grid)
    requires IsSquare(g, res)
    ensures IsSquare(r, res)
    ensures forall x, y :: 0 <= x < res && 0 <= y < res ==> r[x][y] == g[x][y] + f(x, y)
  {
    seq(res, x requires 0 <= x < res => seq(res, y requires 0 <= y < res => g[x][y] + f(x, y)))
  }

  /** Two square grids of the same resolution that agree on every cell are equal. */
  lemma SameGrid(g: Grid, h: Grid, res: nat)
    requires IsSquare(g, res) && IsSquare(h, res)
    requires forall x, y :: 0 <= x < res && 0 <= y < res ==> g[x][y] == h[x][y]
    ensures g == h
  {
    forall x | 0 <= x < res
      ensures g[x] == h[x]
    {
      assert |g[x]| == |h[x]| == res;
      assert forall y :: 0 <= y < res ==> g[x][y] == h[x][y];
    }
  }

  /** The buffer holds grid `g` once its every cell holds the matching cell of `g`. */
  lemma SnapshotHolds(a: array2<real>, g: Grid, res: nat)
    requires a.Length0 == res && a.Length1 == res && IsSquare(g, res)
    requires forall x, y :: 0 <= x < res && 0 <= y < res ==> a[x, y] == g[x][y]
    ensures Snapshot(a) == g
  {
    SameGrid(Snapshot(a), g, res);
  }
}
