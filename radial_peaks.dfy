/**
  The radial-peak ("Voronoi") synthesis as a function of grids: one step per
  drawn peak, each step either rejected (the grid is unchanged) or accepted
  (every cell becomes the larger of its value and the peak's falloff surface).
 */
module RadialPeaks {
  import opened HeightField

  /** The falloff shapes (`CustomTerrain.VoronoiType`). */
  datatype VoronoiType = Linear | Power | Combined | SinPow

  /**
    The floating-point operations the falloff uses, whose code is not part of
    this model: `Vector2.Distance((ax, ay), (bx, by))`, `Mathf.Pow`, `Mathf.Sin`,
    and float division (total: dividing by zero gives an infinity or NaN).
   */
  datatype FloatOps = FloatOps(
    distance: (real, real, real, real) -> real,
    pow: (real, real) -> real,
    sin: real -> real,
    divide: (real, real) -> real)

  /** `Mathf.PI`, the single-precision value of pi. */
  const PI: real := 3.14159274

  /** One random draw: the peak's cell `(px, pz)` and its height `ph`. */
  datatype Peak = Peak(px: int, ph: real, pz: int)

  /** Everything one synthesis run holds fixed: resolution, shape, its two coefficients, the float operations. */
  datatype Setup = Setup(res: nat, kind: VoronoiType, fallOff: real, dropOff: real, ops: FloatOps)

  predicate InGrid(pk: Peak, res: nat) {
    0 <= pk.px < res && 0 <= pk.pz < res
  }

  /** The falloff formula: the height of a peak of height `ph` at normalised distance `d`. */
  function ShapeHeight(kind: VoronoiType, ph: real, d: real, fallOff: real, dropOff: real, ops: FloatOps): real {
    match kind
    case Combined => ph - d * fallOff - ops.pow(d, dropOff)
    case Power => ph - ops.pow(d, dropOff) * fallOff
    case SinPow => ph - ops.pow(d * 3.0, fallOff) - ops.divide(ops.sin(d * 2.0 * PI), dropOff)
    case Linear => ph - d * fallOff
  }

  /**
    The normalised distance from the peak to cell `(x, y)`: the distance
    divided by the distance from (0, 0) to (res, res).
   */
  function NormalisedDistance(pk: Peak, x: int, y: int, c: Setup): real {
    var maxDistance := c.ops.distance(0.0, 0.0, c.res as real, c.res as real);
    c.ops.divide(c.ops.distance(pk.px as real, pk.pz as real, x as real, y as real), maxDistance)
  }

  /** The candidate height the peak offers cell `(x, y)`. */
  function Candidate(pk: Peak, x: int, y: int, c: Setup): real {
    ShapeHeight(c.kind, pk.ph, NormalisedDistance(pk, x, y, c), c.fallOff, c.dropOff, c.ops)
  }

  /** The peak's surface: its own height at its own cell, the candidate height elsewhere. */
  function Surface(pk: Peak, x: int, y: int, c: Setup): real {
    if x == pk.px && y == pk.pz then pk.ph else Candidate(pk, x, y, c)
  }

  /** A cell keeps its value unless the offered height is strictly larger. */
  function Raise(v: real, h: real): (r: real)
    ensures r >= v && r >= h
    ensures r == v || r == h
  {
    if v < h then h else v
  }

  /** The peak is accepted when the current value at its cell is strictly below its height. */
  predicate Accepts(g: Grid, pk: Peak, c: Setup)
    requires IsSquare(g, c.res) && InGrid(pk, c.res)
  {
    g[pk.px][pk.pz] < pk.ph
  }

  /** One peak's step. */
  function PeakStep(g: Grid, pk: Peak, c: Setup): (r: Grid)
    requires IsSquare(g, c.res) && InGrid(pk, c.res)
    ensures IsSquare(r, c.res)
  {
    if Accepts(g, pk, c) then
      seq(c.res, x requires 0 <= x < c.res =>
        seq(c.res, y requires 0 <= y < c.res => Raise(g[x][y], Surface(pk, x, y, c))))
    else g
  }

  predicate AllInGrid(ds: seq<Peak>, res: nat) {
    forall i :: 0 <= i < |ds| ==> InGrid(ds[i], res)
  }

  /** The grid after the peaks `ds`, drawn and applied in order. */
  function Peaks(g: Grid, ds: seq<Peak>, c: Setup): (r: Grid)
    requires IsSquare(g, c.res) && AllInGrid(ds, c.res)
    ensures IsSquare(r, c.res)
  {
    if |ds| == 0 then g
    else PeakStep(Peaks(g, ds[..|ds| - 1], c), ds[|ds| - 1], c)
  }

  /** Peak `i` of `ds` is accepted against the grid left by the peaks before it. */
  predicate AcceptedAt(g: Grid, ds: seq<Peak>, i: nat, c: Setup)
    requires IsSquare(g, c.res) && AllInGrid(ds, c.res) && i < |ds|
  {
    Accepts(Peaks(g, ds[..i], c), ds[i], c)
  }

  /** A rejected peak leaves the whole grid unchanged, and the next draw is still the next peak. */
  lemma PeakRejected(g: Grid, ds: seq<Peak>, pk: Peak, c: Setup)
    requires IsSquare(g, c.res) && AllInGrid(ds, c.res) && InGrid(pk, c.res)
    requires Peaks(g, ds, c)[pk.px][pk.pz] >= pk.ph
    ensures Peaks(g, ds + [pk], c) == Peaks(g, ds, c)
  {
    assert (ds + [pk])[..|ds|] == ds;
  }

  /**
    An accepted peak sets its own cell to exactly its height and raises every
    other cell to the candidate height when that is strictly larger.
   */
  lemma PeakAccepted(g: Grid, pk: Peak, c: Setup)
    requires IsSquare(g, c.res) && InGrid(pk, c.res)
    requires g[pk.px][pk.pz] < pk.ph
    ensures PeakStep(g, pk, c)[pk.px][pk.pz] == pk.ph
    ensures forall x, y :: 0 <= x < c.res && 0 <= y < c.res && !(x == pk.px && y == pk.pz) ==>
              PeakStep(g, pk, c)[x][y] == (if g[x][y] < Candidate(pk, x, y, c) then Candidate(pk, x, y, c) else g[x][y])
  {
  }

  /** No step lowers any cell. */
  lemma PeakStepNeverLowers(g: Grid, pk: Peak, c: Setup, x: int, y: int)
    requires IsSquare(g, c.res) && InGrid(pk, c.res) && 0 <= x < c.res && 0 <= y < c.res
    ensures PeakStep(g, pk, c)[x][y] >= g[x][y]
  {
  }

  /** After any number of peaks, no cell is below its value before the synthesis. */
  lemma {:induction false} PeaksNeverLower(g: Grid, ds: seq<Peak>, c: Setup, x: int, y: int)
    requires IsSquare(g, c.res) && AllInGrid(ds, c.res) && 0 <= x < c.res && 0 <= y < c.res
    ensures Peaks(g, ds, c)[x][y] >= g[x][y]
  {
    if |ds| > 0 {
      var before := ds[..|ds| - 1];
      PeaksNeverLower(g, before, c, x, y);
      PeakStepNeverLowers(Peaks(g, before, c), ds[|ds| - 1], c, x, y);
    }
  }

  /** The grid after a prefix of the draws, extended by one more draw. */
  lemma PeaksPrefix(g: Grid, ds: seq<Peak>, i: nat, c: Setup)
    requires IsSquare(g, c.res) && AllInGrid(ds, c.res) && i < |ds|
    ensures Peaks(g, ds[..i + 1], c) == PeakStep(Peaks(g, ds[..i], c), ds[i], c)
  {
    assert ds[..i + 1][..i] == ds[..i];
  }

  /**
    Every cell ends at or above the surface of every peak that was accepted:
    the result is an upper envelope of the starting grid and those surfaces.
   */
  lemma {:induction false} PeaksCoverAcceptedSurfaces(g: Grid, ds: seq<Peak>, c: Setup, i: nat, x: int, y: int)
    requires IsSquare(g, c.res) && AllInGrid(ds, c.res) && 0 <= x < c.res && 0 <= y < c.res
    requires i < |ds| && AcceptedAt(g, ds, i, c)
    ensures Peaks(g, ds, c)[x][y] >= Surface(ds[i], x, y, c)
  {
    var n := |ds| - 1;
    var before := ds[..n];
    assert ds[..n + 1] == ds;
    if i == n {
      PeaksPrefix(g, ds, n, c);
    } else {
      assert before[..i] == ds[..i] && before[i] == ds[i];
      PeaksCoverAcceptedSurfaces(g, before, c, i, x, y);
      PeakStepNeverLowers(Peaks(g, before, c), ds[n], c, x, y);
    }
  }

  /**
    Every cell ends at its starting value or at the surface value of some
    accepted peak: together with the two lemmas above, each cell is the
    maximum of its starting value and the accepted peaks' surfaces.
   */
  lemma {:induction false} PeaksAttained(g: Grid, ds: seq<Peak>, c: Setup, x: int, y: int)
    requires IsSquare(g, c.res) && AllInGrid(ds, c.res) && 0 <= x < c.res && 0 <= y < c.res
    ensures Peaks(g, ds, c)[x][y] == g[x][y]
         || exists i :: 0 <= i < |ds| && AcceptedAt(g, ds, i, c) && Peaks(g, ds, c)[x][y] == Surface(ds[i], x, y, c)
  {
    if |ds| > 0 {
      var n := |ds| - 1;
      var before := ds[..n];
      var mid := Peaks(g, before, c);
      PeaksPrefix(g, ds, n, c);
      assert ds[..n + 1] == ds;
      if Accepts(mid, ds[n], c) && mid[x][y] < Surface(ds[n], x, y, c) {
        assert AcceptedAt(g, ds, n, c);
      } else {
        assert Peaks(g, ds, c)[x][y] == mid[x][y];
        PeaksAttained(g, before, c, x, y);
        if mid[x][y] != g[x][y] {
          var i :| 0 <= i < |before| && AcceptedAt(g, before, i, c) && mid[x][y] == Surface(before[i], x, y, c);
          assert before[..i] == ds[..i] && before[i] == ds[i];
          assert AcceptedAt(g, ds, i, c);
        }
      }
    }
  }

  /**
    A Linear, Power or Combined peak never offers more than its own height,
    provided the distance is not negative, the falloff coefficient is not
    negative and the power term is not negative.
   */
  lemma CandidateAtMostPeak(pk: Peak, x: int, y: int, c: Setup)
    requires c.kind != SinPow && c.fallOff >= 0.0
    requires NormalisedDistance(pk, x, y, c) >= 0.0
    requires c.ops.pow(NormalisedDistance(pk, x, y, c), c.dropOff) >= 0.0
    ensures Candidate(pk, x, y, c) <= pk.ph
  {
    var d := NormalisedDistance(pk, x, y, c);
    assert d * c.fallOff >= 0.0;
    assert c.ops.pow(d, c.dropOff) * c.fallOff >= 0.0;
  }

  /**
    On an all-zero 3 x 3 grid, one Linear peak of height 0.5 at (1, 1) with
    falloff 0.2 sets the centre to 0.5 and each corner to the larger of 0 and
    0.5 minus 0.2 times the corner's normalised distance.
   */
  lemma SinglePeakOnFlatGrid(ops: FloatOps)
    ensures Peaks(Zeros(3), [Peak(1, 0.5, 1)], Setup(3, Linear, 0.2, 0.6, ops))[1][1] == 0.5
    ensures var c := Setup(3, Linear, 0.2, 0.6, ops);
            var r := Peaks(Zeros(3), [Peak(1, 0.5, 1)], c);
            forall x, y :: x in {0, 2} && y in {0, 2} ==>
              r[x][y] == Raise(0.0, 0.5 - NormalisedDistance(Peak(1, 0.5, 1), x, y, c) * 0.2)
  {
    var c := Setup(3, Linear, 0.2, 0.6, ops);
    var pk := Peak(1, 0.5, 1);
    assert [pk][..0] == [];
    assert Peaks(Zeros(3), [pk], c) == PeakStep(Zeros(3), pk, c);
  }
}
