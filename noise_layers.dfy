/**
  Fractal-noise layers: the parameter record of one layer, what a layer adds
  to a cell, the sum over a list of layers, and the list operations that add
  a default layer and remove the flagged ones.
 */
module NoiseLayers {
  import opened HeightField

  /** One noise layer's configuration (`CustomTerrain.PerlinParameters`). */
  datatype PerlinParameters = PerlinParameters(
    xScale: real,
    yScale: real,
    offsetX: int,
    offsetY: int,
    octaves: int,
    persistence: real,
    heightScale: real,
    remove: bool)

  /** A freshly constructed layer, with the field initialisers of the record. */
  const DefaultLayer := PerlinParameters(0.01, 0.01, 0, 0, 3, 8.0, 0.09, false)

  /**
    The fractal Brownian motion sampler `Utils.fBM(x, y, octaves, persistence)`,
    whose code is not part of this model: every generator receives it as a
    parameter.
   */
  type Fbm = (real, real, int, real) -> real

  /** What layer `p` adds to cell `(x, y)`: the sample at the offset, scaled coordinates, times the height scale. */
  function LayerHeight(p: PerlinParameters, fbm: Fbm, x: int, y: int): real {
    fbm((x + p.offsetX) as real * p.xScale, (y + p.offsetY) as real * p.yScale, p.octaves, p.persistence)
      * p.heightScale
  }

  /** Layer `p` as a per-cell contribution. */
  function LayerField(p: PerlinParameters, fbm: Fbm): (int, int) -> real {
    (x, y) => LayerHeight(p, fbm, x, y)
  }

  /** What a list of layers adds to cell `(x, y)`: every layer's height, accumulated in list order. */
  function LayersHeight(layers: seq<PerlinParameters>, fbm: Fbm, x: int, y: int): real {
    if |layers| == 0 then 0.0
    else LayersHeight(layers[..|layers| - 1], fbm, x, y) + LayerHeight(layers[|layers| - 1], fbm, x, y)
  }

  /** A list of layers as a per-cell contribution. */
  function LayersField(layers: seq<PerlinParameters>, fbm: Fbm): (int, int) -> real {
    (x, y) => LayersHeight(layers, fbm, x, y)
  }

  /** The layer sum splits over concatenation of layer lists. */
  lemma {:induction false} LayersHeightAppend(a: seq<PerlinParameters>, b: seq<PerlinParameters>, fbm: Fbm, x: int, y: int)
    ensures LayersHeight(a + b, fbm, x, y) == LayersHeight(a, fbm, x, y) + LayersHeight(b, fbm, x, y)
    decreases |b|
  {
    if |b| == 0 {
      assert a + b == a;
    } else {
      var b' := b[..|b| - 1];
      assert (a + b)[..|a + b| - 1] == a + b';
      assert (a + b)[|a + b| - 1] == b[|b| - 1];
      LayersHeightAppend(a, b', fbm, x, y);
    }
  }

  /**
    A one-entry layer list adds, at every cell, exactly what the single-layer
    pass with the same parameters adds.
   */
  lemma OneLayerIsSingleLayer(g: Grid, res: nat, p: PerlinParameters, fbm: Fbm)
    requires IsSquare(g, res)
    ensures AddGrid(g, res, LayersField([p], fbm)) == AddGrid(g, res, LayerField(p, fbm))
  {
    forall x, y | 0 <= x < res && 0 <= y < res
      ensures AddGrid(g, res, LayersField([p], fbm))[x][y] == AddGrid(g, res, LayerField(p, fbm))[x][y]
    {
      assert [p][..0] == [];
      assert LayersHeight([p], fbm, x, y) == LayerHeight(p, fbm, x, y);
    }
    SameGrid(AddGrid(g, res, LayersField([p], fbm)), AddGrid(g, res, LayerField(p, fbm)), res);
  }

  /**
    Two layers add, at each cell, the sum of the two contributions each layer
    adds on its own.
   */
  lemma TwoLayersAddBoth(g: Grid, res: nat, p: PerlinParameters, q: PerlinParameters, fbm: Fbm, x: int, y: int)
    requires IsSquare(g, res) && 0 <= x < res && 0 <= y < res
    ensures AddGrid(g, res, LayersField([p, q], fbm))[x][y]
         == g[x][y] + LayerHeight(p, fbm, x, y) + LayerHeight(q, fbm, x, y)
  {
    assert [p, q][..1] == [p];
    assert [p][..0] == [];
    assert LayersHeight([p], fbm, x, y) == LayerHeight(p, fbm, x, y);
    assert LayersHeight([p, q], fbm, x, y) == LayerHeight(p, fbm, x, y) + LayerHeight(q, fbm, x, y);
  }

  /**
    Applying the layers of `a` and then those of `b` in two passes gives the
    same grid as one pass over the list `a + b`.
   */
  lemma LayerPassesCompose(g: Grid, res: nat, a: seq<PerlinParameters>, b: seq<PerlinParameters>, fbm: Fbm)
    requires IsSquare(g, res)
    ensures AddGrid(AddGrid(g, res, LayersField(a, fbm)), res, LayersField(b, fbm))
         == AddGrid(g, res, LayersField(a + b, fbm))
  {
    var lhs := AddGrid(AddGrid(g, res, LayersField(a, fbm)), res, LayersField(b, fbm));
    var rhs := AddGrid(g, res, LayersField(a + b, fbm));
    forall x, y | 0 <= x < res && 0 <= y < res
      ensures lhs[x][y] == rhs[x][y]
    {
      LayersHeightAppend(a, b, fbm, x, y);
    }
    SameGrid(lhs, rhs, res);
  }

  // ----- the layer list -----

  /** The layers whose removal flag is clear, in their original order (`List.RemoveAll(p => p.remove)`). */
  function Survivors(layers: seq<PerlinParameters>): (r: seq<PerlinParameters>)
    ensures |r| <= |layers|
    ensures forall i :: 0 <= i < |r| ==> !r[i].remove
    ensures (forall i :: 0 <= i < |layers| ==> !layers[i].remove) ==> r == layers
  {
    if |layers| == 0 then []
    else if layers[0].remove then Survivors(layers[1..])
    else [layers[0]] + Survivors(layers[1..])
  }

  /** `s` can be obtained from `t` by deleting entries, keeping the rest in order. */
  predicate IsSubsequence<T(==)>(s: seq<T>, t: seq<T>)
    decreases |t|
  {
    if |s| == 0 then true
    else if |t| == 0 then false
    else if s[0] == t[0] then IsSubsequence(s[1..], t[1..])
    else IsSubsequence(s, t[1..])
  }

  /** Removal keeps the survivors in their relative order. */
  lemma {:induction false} SurvivorsKeepOrder(layers: seq<PerlinParameters>)
    ensures IsSubsequence(Survivors(layers), layers)
  {
    if |layers| > 0 {
      SurvivorsKeepOrder(layers[1..]);
      if !layers[0].remove {
        assert ([layers[0]] + Survivors(layers[1..]))[1..] == Survivors(layers[1..]);
      }
    }
  }

  /**
    Removal keeps every unflagged layer, as many times as it occurs, and no
    flagged one.
   */
  lemma {:induction false} SurvivorsCount(layers: seq<PerlinParameters>, e: PerlinParameters)
    ensures multiset(Survivors(layers))[e] == if e.remove then 0 else multiset(layers)[e]
  {
    if |layers| == 0 {
    } else {
      SurvivorsCount(layers[1..], e);
      assert layers == [layers[0]] + layers[1..];
      assert multiset(layers) == multiset([layers[0]]) + multiset(layers[1..]);
    }
  }

  /** Survivors of a concatenation are the survivors of each part. */
  lemma {:induction false} SurvivorsAppend(a: seq<PerlinParameters>, b: seq<PerlinParameters>)
    ensures Survivors(a + b) == Survivors(a) + Survivors(b)
  {
    if |a| == 0 {
      assert a + b == b;
    } else {
      assert (a + b)[0] == a[0];
      assert (a + b)[1..] == a[1..] + b;
      SurvivorsAppend(a[1..], b);
    }
  }

  /**
    The list after `RemovePerlin`: the survivors, or one default layer when
    nothing survived. It is never empty, holds no flagged layer, keeps the
    survivors in order and keeps each unflagged layer as often as before.
   */
  function AfterRemove(layers: seq<PerlinParameters>): (r: seq<PerlinParameters>)
    ensures |r| > 0
    ensures forall i :: 0 <= i < |r| ==> !r[i].remove
    ensures Survivors(layers) != [] ==> r == Survivors(layers) && IsSubsequence(r, layers)
    ensures Survivors(layers) == [] ==> r == [DefaultLayer]
    ensures Survivors(layers) != [] ==>
              forall e: PerlinParameters :: !e.remove ==> multiset(r)[e] == multiset(layers)[e]
  {
    SurvivorsKeepOrder(layers);
    forall e: PerlinParameters | !e.remove
      ensures multiset(Survivors(layers))[e] == multiset(layers)[e]
    {
      SurvivorsCount(layers, e);
    }
    var kept := Survivors(layers);
    if |kept| == 0 then [DefaultLayer] else kept
  }

  /** The list after `AddNewPerlin`: one default layer appended. */
  function AfterAdd(layers: seq<PerlinParameters>): (r: seq<PerlinParameters>)
    ensures |r| == |layers| + 1
    ensures r[..|layers|] == layers
    ensures r[|layers|] == DefaultLayer && !r[|layers|].remove
  {
    layers + [DefaultLayer]
  }

  /**
    Adding a layer, flagging that new layer and removing flagged layers gives
    the same list as removing flagged layers without the addition; when the
    list held no flagged layer (and was not empty) that is the list itself.
   */
  lemma AddFlagRemoveRestores(layers: seq<PerlinParameters>)
    ensures AfterRemove(AfterAdd(layers)[|layers| := DefaultLayer.(remove := true)]) == AfterRemove(layers)
    ensures |layers| > 0 && (forall i :: 0 <= i < |layers| ==> !layers[i].remove) ==>
              AfterRemove(AfterAdd(layers)[|layers| := DefaultLayer.(remove := true)]) == layers
  {
    var flagged := DefaultLayer.(remove := true);
    assert AfterAdd(layers)[|layers| := flagged] == layers + [flagged];
    SurvivorsAppend(layers, [flagged]);
    assert Survivors([flagged]) == [];
    assert Survivors(layers + [flagged]) == Survivors(layers);
  }
}
