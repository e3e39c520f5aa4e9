/**
  The terrain component: its configuration fields, the terrain's stored
  heights, the list of noise layers, and the generators. Each generator
  acquires a working buffer, changes it in place in one nested-loop pass and
  writes it back to the terrain in one bulk write.
 */
module Terrain {
  import opened HeightField
  import opened NoiseLayers
  import opened RadialPeaks

  /** A value `Random.Range(lo, hi)` can return: it lies between the two bounds, both included. */
  predicate Between(v: real, lo: real, hi: real) {
    (lo <= v <= hi) || (hi <= v <= lo)
  }

  /** The C# conversion `(int)r` of a float: truncation toward zero. */
  function TruncateToInt(r: real): int
  {
    if r >= 0.0 then r.Floor else -((-r).Floor)
  }

  /** The conversion truncates toward zero: it drops the fractional part and keeps the sign. */
  lemma TruncatesTowardZero(r: real)
    ensures 0.0 <= r ==> 0 <= TruncateToInt(r) && TruncateToInt(r) as real <= r < TruncateToInt(r) as real + 1.0
    ensures r < 0.0 ==> TruncateToInt(r) <= 0 && TruncateToInt(r) as real - 1.0 < r <= TruncateToInt(r) as real
  {
  }

  /**
    What the image adds to cell `(x, z)`: the greyscale of the pixel at the
    truncated scaled coordinates, times the vertical scale.
   */
  function ImageHeight(grayscale: (int, int) -> real, scaleX: real, scaleY: real, scaleZ: real, x: int, z: int): real {
    grayscale(TruncateToInt(x as real * scaleX), TruncateToInt(z as real * scaleZ)) * scaleY
  }

  /** The image as a per-cell contribution. */
  function ImageField(grayscale: (int, int) -> real, scaleX: real, scaleY: real, scaleZ: real): (int, int) -> real {
    (x, z) => ImageHeight(grayscale, scaleX, scaleY, scaleZ, x, z)
  }

  class CustomTerrain {
    // random heights
    var randomHeightMin: real   // randomHeightRange.x
    var randomHeightMax: real   // randomHeightRange.y

    // image
    var heightMapScaleX: real
    var heightMapScaleY: real
    var heightMapScaleZ: real

    // single-layer noise
    var perlinXScale: real
    var perlinYScale: real
    var perlinOffsetX: int
    var perlinOffsetY: int
    var perlinOctaves: int
    var perlinPersistence: real
    var perlinHeightScale: real

    // multiple-layer noise
    var perlinParameters: seq<PerlinParameters>

    // radial peaks
    var voronoiFallOff: real
    var voronoiDropOff: real
    var voronoiMinHeight: real
    var voronoiMaxHeight: real
    var voronoiPeaks: int
    var voronoiType: VoronoiType

    /** The terrain's heightmap resolution and its stored heights. */
    const resolution: nat
    var heights: Grid

    var resetTerrain: bool

    ghost predicate Valid()
      reads this
    {
      IsSquare(heights, resolution)
    }

    /** A component on a terrain of the given resolution and heights, with the fields' initial values. */
    constructor (res: nat, stored: Grid)
      requires IsSquare(stored, res)
      ensures Valid() && resolution == res && heights == stored
      ensures randomHeightMin == 0.0 && randomHeightMax == 0.1
      ensures heightMapScaleX == 1.0 && heightMapScaleY == 1.0 && heightMapScaleZ == 1.0
      ensures SingleLayer() == DefaultLayer && perlinParameters == [DefaultLayer]
      ensures voronoiFallOff == 0.2 && voronoiDropOff == 0.6
      ensures voronoiMinHeight == 0.1 && voronoiMaxHeight == 0.5
      ensures voronoiPeaks == 5 && voronoiType == Linear
      ensures !resetTerrain
    {
      randomHeightMin, randomHeightMax := 0.0, 0.1;
      heightMapScaleX, heightMapScaleY, heightMapScaleZ := 1.0, 1.0, 1.0;
      perlinXScale, perlinYScale := 0.01, 0.01;
      perlinOffsetX, perlinOffsetY := 0, 0;
      perlinOctaves, perlinPersistence, perlinHeightScale := 3, 8.0, 0.09;
      perlinParameters := [DefaultLayer];
      voronoiFallOff, voronoiDropOff := 0.2, 0.6;
      voronoiMinHeight, voronoiMaxHeight := 0.1, 0.5;
      voronoiPeaks, voronoiType := 5, Linear;
      resolution := res;
      heights := stored;
      resetTerrain := false;
    }

    /** The single-layer noise fields, read as one layer. */
    function SingleLayer(): PerlinParameters
      reads this
    {
      PerlinParameters(perlinXScale, perlinYScale, perlinOffsetX, perlinOffsetY,
                       perlinOctaves, perlinPersistence, perlinHeightScale, false)
    }

    /** The grid every generator starts from. */
    function Start(): Grid
      reads this
      requires Valid()
    {
      Acquired(heights, resolution, resetTerrain)
    }

    /**
      A working buffer: a fresh all-zero grid when the reset flag is set,
      otherwise a copy of the stored heights.
     */
    method GetHeightMap() returns (heightMap: array2<real>)
      requires Valid()
      ensures fresh(heightMap)
      ensures heightMap.Length0 == resolution && heightMap.Length1 == resolution
      ensures resetTerrain ==> forall x, y :: 0 <= x < resolution && 0 <= y < resolution ==> heightMap[x, y] == 0.0
      ensures !resetTerrain ==> Snapshot(heightMap) == heights
      ensures Snapshot(heightMap) == Start()
    {
      if !resetTerrain {
        var stored := heights;
        heightMap := new real[resolution, resolution]((x, y) requires 0 <= x < |stored| && 0 <= y < |stored[x]| => stored[x][y]);
        SnapshotHolds(heightMap, stored, resolution);
      } else {
        heightMap := new real[resolution, resolution]((x, y) => 0.0);
        SnapshotHolds(heightMap, Zeros(resolution), resolution);
      }
    }

    /** The bulk write of a full buffer back to the terrain. */
    method SetHeights(heightMap: array2<real>)
      requires heightMap.Length0 == resolution && heightMap.Length1 == resolution
      modifies this`heights
      ensures Valid()
      ensures heights == Snapshot(heightMap)
    {
      heights := Snapshot(heightMap);
    }

    /**
      Radial-peak synthesis with the given random draws, one per peak (none
      when the peak count is not positive).
     */
    method Voronoi(draws: seq<Peak>, ops: FloatOps)
      requires Valid()
      requires |draws| == if voronoiPeaks > 0 then voronoiPeaks else 0
      requires forall i :: 0 <= i < |draws| ==>
                 InGrid(draws[i], resolution) && Between(draws[i].ph, voronoiMinHeight, voronoiMaxHeight)
      modifies this`heights
      ensures Valid()
      ensures heights == Peaks(old(Start()), draws,
                               Setup(resolution, voronoiType, voronoiFallOff, voronoiDropOff, ops))
    {
      var heightMap := GetHeightMap();
      ghost var start := Snapshot(heightMap);
      var c := Setup(resolution, voronoiType, voronoiFallOff, voronoiDropOff, ops);
      assert AllInGrid(draws, resolution);
      for p := 0 to |draws|
        invariant Snapshot(heightMap) == Peaks(start, draws[..p], c)
      {
        var peak := draws[p];
        ghost var before := Snapshot(heightMap);
        PeaksPrefix(start, draws, p, c);
        if heightMap[peak.px, peak.pz] < peak.ph {
          heightMap[peak.px, peak.pz] := peak.ph;
        } else {
          continue;
        }

        FalloffPass(heightMap, peak, c);
        assert forall i, j :: 0 <= i < resolution && 0 <= j < resolution ==>
                 heightMap[i, j] == Raise(before[i][j], Surface(peak, i, j, c));
        SnapshotHolds(heightMap, PeakStep(before, peak, c), resolution);
      }
      assert draws[..|draws|] == draws;
      SetHeights(heightMap);
    }

    /** Adds the single-layer noise to every cell. */
    method Perlin(fbm: Fbm)
      requires Valid()
      modifies this`heights
      ensures Valid()
      ensures heights == AddGrid(old(Start()), resolution, LayerField(SingleLayer(), fbm))
    {
      var heightMapResolution := resolution;
      var heightMap := GetHeightMap();
      ghost var start := Snapshot(heightMap);
      var layer := SingleLayer();
      for y := 0 to heightMapResolution
        invariant forall i, j :: 0 <= i < resolution && 0 <= j < resolution ==>
                    heightMap[i, j] == if j < y then start[i][j] + LayerHeight(layer, fbm, i, j) else start[i][j]
      {
        for x := 0 to heightMapResolution
          invariant forall i, j :: 0 <= i < resolution && 0 <= j < resolution ==>
                      heightMap[i, j] == if j < y || (j == y && i < x) then start[i][j] + LayerHeight(layer, fbm, i, j)
                                         else start[i][j]
        {
          heightMap[x, y] := heightMap[x, y] + LayerHeight(layer, fbm, x, y);
        }
      }
      SnapshotHolds(heightMap, AddGrid(start, resolution, LayerField(layer, fbm)), resolution);
      SetHeights(heightMap);
    }

    /** Adds to every cell the sum of every layer's noise, layer by layer in list order. */
    method MultiplePerlin(fbm: Fbm)
      requires Valid()
      modifies this`heights
      ensures Valid()
      ensures heights == AddGrid(old(Start()), resolution, LayersField(perlinParameters, fbm))
    {
      var heightMapResolution := resolution;
      var heightMap := GetHeightMap();
      ghost var start := Snapshot(heightMap);
      ghost var layers := perlinParameters;
      for y := 0 to heightMapResolution
        invariant forall i, j :: 0 <= i < resolution && 0 <= j < resolution ==>
                    heightMap[i, j] == if j < y then start[i][j] + LayersHeight(layers, fbm, i, j) else start[i][j]
      {
        for x := 0 to heightMapResolution
          invariant forall i, j :: 0 <= i < resolution && 0 <= j < resolution ==>
                      heightMap[i, j] == if j < y || (j == y && i < x) then start[i][j] + LayersHeight(layers, fbm, i, j)
                                         else start[i][j]
        {
          for k := 0 to |perlinParameters|
            invariant heightMap[x, y] == start[x][y] + LayersHeight(layers[..k], fbm, x, y)
            invariant forall i, j :: 0 <= i < resolution && 0 <= j < resolution && !(i == x && j == y) ==>
                        heightMap[i, j] == if j < y || (j == y && i < x) then start[i][j] + LayersHeight(layers, fbm, i, j)
                                           else start[i][j]
          {
            var p := perlinParameters[k];
            heightMap[x, y] := heightMap[x, y] + LayerHeight(p, fbm, x, y);
            assert layers[..k + 1][..k] == layers[..k];
            assert LayersHeight(layers[..k + 1], fbm, x, y) == LayersHeight(layers[..k], fbm, x, y) + LayerHeight(p, fbm, x, y);
          }
          assert layers[..|layers|] == layers;
        }
      }
      SnapshotHolds(heightMap, AddGrid(start, resolution, LayersField(layers, fbm)), resolution);
      SetHeights(heightMap);
    }

    /** Appends one default layer. */
    method AddNewPerlin()
      modifies this`perlinParameters
      ensures perlinParameters == AfterAdd(old(perlinParameters))
      ensures |perlinParameters| == |old(perlinParameters)| + 1
      ensures perlinParameters[..|old(perlinParameters)|] == old(perlinParameters)
    {
      perlinParameters := perlinParameters + [DefaultLayer];
    }

    /** Removes every flagged layer, then puts back one default layer if none is left. */
    method RemovePerlin()
      modifies this`perlinParameters
      ensures perlinParameters == AfterRemove(old(perlinParameters))
      ensures |perlinParameters| > 0
      ensures forall i :: 0 <= i < |perlinParameters| ==> !perlinParameters[i].remove
    {
      perlinParameters := Survivors(perlinParameters);
      if |perlinParameters| == 0 {
        perlinParameters := perlinParameters + [DefaultLayer];
      }
    }

    /** Adds to every cell its own random draw, taken from the random-height range. */
    method RandomTerrain(draw: (int, int) -> real)
      requires Valid()
      requires forall x, y :: 0 <= x < resolution && 0 <= y < resolution ==>
                 Between(draw(x, y), randomHeightMin, randomHeightMax)
      modifies this`heights
      ensures Valid()
      ensures heights == AddGrid(old(Start()), resolution, draw)
    {
      var heightMapResolution := resolution;
      var heightMap := GetHeightMap();
      ghost var start := Snapshot(heightMap);
      for x := 0 to heightMapResolution
        invariant forall i, j :: 0 <= i < resolution && 0 <= j < resolution ==>
                    heightMap[i, j] == if i < x then start[i][j] + draw(i, j) else start[i][j]
      {
        for y := 0 to heightMapResolution
          invariant forall i, j :: 0 <= i < resolution && 0 <= j < resolution ==>
                      heightMap[i, j] == if i < x || (i == x && j < y) then start[i][j] + draw(i, j) else start[i][j]
        {
          heightMap[x, y] := heightMap[x, y] + draw(x, y);
        }
      }
      SnapshotHolds(heightMap, AddGrid(start, resolution, draw), resolution);
      SetHeights(heightMap);
    }

    /** Adds to every cell the scaled greyscale of the image pixel it maps to. */
    method LoadTexture(grayscale: (int, int) -> real)
      requires Valid()
      modifies this`heights
      ensures Valid()
      ensures heights == AddGrid(old(Start()), resolution,
                                 ImageField(grayscale, heightMapScaleX, heightMapScaleY, heightMapScaleZ))
    {
      var heightMapResolution := resolution;
      var heightMap := GetHeightMap();
      ghost var start := Snapshot(heightMap);
      ghost var f := ImageField(grayscale, heightMapScaleX, heightMapScaleY, heightMapScaleZ);
      for x := 0 to heightMapResolution
        invariant forall i, j :: 0 <= i < resolution && 0 <= j < resolution ==>
                    heightMap[i, j] == if i < x then start[i][j] + f(i, j) else start[i][j]
      {
        for z := 0 to heightMapResolution
          invariant forall i, j :: 0 <= i < resolution && 0 <= j < resolution ==>
                      heightMap[i, j] == if i < x || (i == x && j < z) then start[i][j] + f(i, j) else start[i][j]
        {
          heightMap[x, z] := heightMap[x, z] + ImageHeight(grayscale, heightMapScaleX, heightMapScaleY, heightMapScaleZ, x, z);
        }
      }
      SnapshotHolds(heightMap, AddGrid(start, resolution, f), resolution);
      SetHeights(heightMap);
    }

    /** Sets every cell to 0. */
    method ResetTerrain()
      requires Valid()
      modifies this`heights
      ensures Valid()
      ensures heights == Zeros(resolution)
    {
      var heightMapResolution := resolution;
      var heightMap := GetHeightMap();
      for x := 0 to heightMapResolution
        invariant forall i, j :: 0 <= i < x && 0 <= j < resolution ==> heightMap[i, j] == 0.0
      {
        for y := 0 to heightMapResolution
          invariant forall i, j :: 0 <= i < resolution && 0 <= j < resolution && (i < x || (i == x && j < y)) ==>
                      heightMap[i, j] == 0.0
        {
          heightMap[x, y] := 0.0;
        }
      }
      SnapshotHolds(heightMap, Zeros(resolution), resolution);
      SetHeights(heightMap);
    }
  }

  /**
    One accepted peak's falloff pass over the buffer, whose peak cell already
    holds the peak height: every other cell takes the candidate height when
    that is strictly larger.
   */
  method FalloffPass(heightMap: array2<real>, peak: Peak, c: Setup)
    requires heightMap.Length0 == c.res && heightMap.Length1 == c.res && InGrid(peak, c.res)
    requires heightMap[peak.px, peak.pz] == peak.ph
    modifies heightMap
    ensures forall i, j :: 0 <= i < c.res && 0 <= j < c.res ==>
              heightMap[i, j] == Raise(old(heightMap[i, j]), Surface(peak, i, j, c))
  {
    for y := 0 to c.res
      invariant forall i, j :: 0 <= i < c.res && 0 <= j < c.res ==>
                  heightMap[i, j] == if j < y then Raise(old(heightMap[i, j]), Surface(peak, i, j, c))
                                     else old(heightMap[i, j])
    {
      for x := 0 to c.res
        invariant forall i, j :: 0 <= i < c.res && 0 <= j < c.res ==>
                    heightMap[i, j] == if j < y || (j == y && i < x) then Raise(old(heightMap[i, j]), Surface(peak, i, j, c))
                                       else old(heightMap[i, j])
      {
        if !(x == peak.px && y == peak.pz) {
          var height := Candidate(peak, x, y, c);
          if heightMap[x, y] < height {
            heightMap[x, y] := height;
          }
        }
      }
    }
  }

  // ----- what the additive passes promise per cell -----

  /**
    Random heights change each cell by exactly its own draw, which lies in the
    configured range.
   */
  lemma RandomChangesByDraw(g: Grid, res: nat, draw: (int, int) -> real, lo: real, hi: real, x: int, y: int)
    requires IsSquare(g, res) && 0 <= x < res && 0 <= y < res
    requires Between(draw(x, y), lo, hi)
    ensures AddGrid(g, res, draw)[x][y] - g[x][y] == draw(x, y)
    ensures lo <= hi ==> lo <= AddGrid(g, res, draw)[x][y] - g[x][y] <= hi
  {
  }

  /** When both bounds of the range are `k`, every cell grows by exactly `k`. */
  lemma RandomFixedRange(g: Grid, res: nat, draw: (int, int) -> real, k: real)
    requires IsSquare(g, res)
    requires forall x, y :: 0 <= x < res && 0 <= y < res ==> Between(draw(x, y), k, k)
    ensures forall x, y :: 0 <= x < res && 0 <= y < res ==> AddGrid(g, res, draw)[x][y] == g[x][y] + k
  {
  }

  /**
    With greyscale values in [0, 1] and a non-negative vertical scale, the
    image raises each cell by at least 0 and at most the vertical scale.
   */
  lemma ImageRaisesWithinScale(g: Grid, res: nat, grayscale: (int, int) -> real,
                               scaleX: real, scaleY: real, scaleZ: real, x: int, z: int)
    requires IsSquare(g, res) && 0 <= x < res && 0 <= z < res && scaleY >= 0.0
    requires forall u, v :: 0.0 <= grayscale(u, v) <= 1.0
    ensures g[x][z] <= AddGrid(g, res, ImageField(grayscale, scaleX, scaleY, scaleZ))[x][z] <= g[x][z] + scaleY
  {
    var v := grayscale(TruncateToInt(x as real * scaleX), TruncateToInt(z as real * scaleZ));
    assert ImageHeight(grayscale, scaleX, scaleY, scaleZ, x, z) == v * scaleY;
    ScaledUnit(v, scaleY);
  }

  lemma ScaledUnit(v: real, s: real)
    requires 0.0 <= v <= 1.0 && s >= 0.0
    ensures 0.0 <= v * s <= s
  {
    assert s - v * s == (1.0 - v) * s;
  }
}
