# Procedural terrain height-field generation in Dafny

This project models the `CustomTerrain` component of a procedural-terrain tool.
The component fills a terrain's square height map (`res × res` elevations) using
one of several generators:

- radial peaks ("Voronoi"): a per-cell running maximum of peak falloff surfaces;
- single-layer and multi-layer fractal noise ("Perlin"): additive;
- random jitter: additive;
- a greyscale image: additive;
- a full reset to zero.

It also manages the list of noise layers: one operation appends a default
layer, another removes the flagged layers.

Every generator runs the same transaction:

1. Acquire a working buffer (`GetHeightMap`). It is all zeros when the
   reset flag is set, and a copy of the stored heights otherwise.
2. Change the buffer in place with one nested-loop pass.
3. Write it back in one bulk write.

In the model:

- The buffer is an `array2<real>`.
- The terrain's stored heights are a field `heights: seq<seq<real>>`, indexed
  `[x][y]` like the buffer's `heightMap[x, y]`.
- Each generator is a method of the class `Terrain.CustomTerrain`. Its
  postcondition equates the new stored heights with a specification function
  of the starting grid.
- Lemmas then prove what the component promises about those functions.

Modules:

- `HeightField` (`height_field.dfy`): the grid, the zero grid, acquisition,
  reading a buffer back, and additive passes (`AddGrid`).
- `NoiseLayers` (`noise_layers.dfy`): the layer record, what one layer and a
  list of layers add to a cell, and the removal filter and its properties.
- `RadialPeaks` (`radial_peaks.dfy`): the four falloff shapes, one peak's
  step, the fold over all peaks, and the max-envelope properties.
- `Terrain` (`custom_terrain.dfy`): the class with its configuration fields
  and the imperative generators.

Floating-point code and code from other libraries enters as explicit
parameters of the generators:

- the fractal Brownian motion sampler `Utils.fBM`;
- the pixel greyscale lookup;
- `Vector2.Distance`, `Mathf.Pow`, `Mathf.Sin` and float division (the record `FloatOps`);
- the random draws: one `Peak` per radial peak, and one value per cell for jitter.

So the verified content is the loop structure and the combination rules:
running maximum, exact addition, zeroing, and order-preserving filtering.

Where the code and the design notes for this component disagree, the model follows the code:

- A peak is rejected when the value at its cell is *at least* its height
  (`!(heightMap[..] < peak.y)`), not only when it strictly exceeds it.
- Image coordinates are converted by a C# `(int)` cast. That is truncation
  toward zero, not floor; the two differ on negative scales.
- Only `RemovePerlin` makes the layer list non-empty. The list is a public
  field that the inspector can edit, so non-emptiness is not a class
  invariant. `AddNewPerlin` preserves it.

## Model

| member | source | states |
|---|---|---|
| `Terrain.CustomTerrain.constructor` | Assets/CustomTerrain.cs:13-64 | the fields start at the component's initial values (random range (0, 0.1), image scale (1, 1, 1), the default layer, 5 Linear peaks of height 0.1 to 0.5 with falloff 0.2 and dropoff 0.6, reset off) |
| `Terrain.CustomTerrain.GetHeightMap` | Assets/CustomTerrain.cs:78-86 | returns a fresh `res × res` buffer; all zeros when the reset flag is set, otherwise exactly the stored heights |
| `Terrain.CustomTerrain.SetHeights` | Assets/CustomTerrain.cs:140 | the bulk write: the stored heights become the whole buffer and stay `res × res` |
| `Terrain.CustomTerrain.Voronoi` | Assets/CustomTerrain.cs:88-141 | with one draw per peak (none for a non-positive count), the stored heights become the fold `Peaks` of the starting grid over the draws in order |
| `Terrain.FalloffPass` | Assets/CustomTerrain.cs:104-137 | one accepted peak's pass: every cell becomes the larger of its old value and the peak's surface; the peak cell keeps the peak height |
| `RadialPeaks.Raise` | Assets/CustomTerrain.cs:131-134 | the per-cell update is the maximum: at least both arguments and equal to one of them |
| `RadialPeaks.PeakRejected` | Assets/CustomTerrain.cs:99-102 | a peak whose cell already holds at least its height leaves the whole grid unchanged, and the next draw is the next peak |
| `RadialPeaks.PeakAccepted` | Assets/CustomTerrain.cs:99-134 | an accepted peak sets its own cell to exactly its height; every other cell becomes the candidate height if that is strictly larger, and otherwise keeps its value |
| `RadialPeaks.PeakStepNeverLowers` | Assets/CustomTerrain.cs:99-134 | one peak never lowers any cell |
| `RadialPeaks.PeaksNeverLower` | Assets/CustomTerrain.cs:92-139 | after all peaks, every cell is at least its value before the synthesis |
| `RadialPeaks.PeaksCoverAcceptedSurfaces` | Assets/CustomTerrain.cs:92-139 | every cell ends at or above the surface of every peak that was accepted against the grid the earlier peaks left |
| `RadialPeaks.PeaksAttained` | Assets/CustomTerrain.cs:92-139 | every cell ends at its starting value or at some accepted peak's surface value; with the two lemmas above, each cell is the maximum of its start and the accepted surfaces |
| `RadialPeaks.CandidateAtMostPeak` | Assets/CustomTerrain.cs:114-130 | for the Linear, Power and Combined shapes, given a non-negative distance, falloff and power term, a peak offers no cell more than its own height |
| `RadialPeaks.SinglePeakOnFlatGrid` | Assets/CustomTerrain.cs:92-139 | on a zero 3 × 3 grid, one Linear peak of 0.5 at (1, 1) with falloff 0.2 sets the centre to 0.5 and each corner to max(0, 0.5 − 0.2·d), where d is the corner's distance divided by the distance from (0, 0) to (3, 3) |
| `Terrain.CustomTerrain.Perlin` | Assets/CustomTerrain.cs:143-158 | the stored heights become the starting grid plus, at every cell, `fBM((x+offsetX)·xScale, (y+offsetY)·yScale, octaves, persistence) · heightScale` |
| `Terrain.CustomTerrain.MultiplePerlin` | Assets/CustomTerrain.cs:160-178 | the stored heights become the starting grid plus, at every cell, the sum of every layer's contribution, accumulated in list order |
| `NoiseLayers.OneLayerIsSingleLayer` | Assets/CustomTerrain.cs:143-178 | a one-entry layer list produces the same grid as the single-layer pass with the same parameters |
| `NoiseLayers.TwoLayersAddBoth` | Assets/CustomTerrain.cs:168-174 | two layers add to a cell exactly the sum of what each adds on its own |
| `NoiseLayers.LayersHeightAppend` | Assets/CustomTerrain.cs:168-174 | the per-cell layer sum over `a + b` is the sum over `a` plus the sum over `b` |
| `NoiseLayers.LayerPassesCompose` | Assets/CustomTerrain.cs:160-178 | passing layers `a`, then layers `b`, gives the same grid as one pass over `a + b` |
| `Terrain.CustomTerrain.AddNewPerlin` | Assets/CustomTerrain.cs:180-183 | the list grows by one; the earlier entries are unchanged and the new last entry is the default layer |
| `NoiseLayers.AfterAdd` | Assets/CustomTerrain.cs:180-183 | appending keeps the old list as a prefix and adds one unflagged default layer |
| `Terrain.CustomTerrain.RemovePerlin` | Assets/CustomTerrain.cs:185-193 | the list becomes `AfterRemove` of the old list: non-empty, with no flagged entry |
| `NoiseLayers.AfterRemove` | Assets/CustomTerrain.cs:185-193 | the result is non-empty and has no flagged entry. If some layer survived, it is exactly the survivors, a subsequence of the old list, with every unflagged layer kept as many times as before. If none survived, it is exactly one default layer |
| `NoiseLayers.Survivors` | Assets/CustomTerrain.cs:187 | the filter keeps no flagged entry, never grows the list, and returns the list unchanged when nothing is flagged |
| `NoiseLayers.SurvivorsKeepOrder` | Assets/CustomTerrain.cs:187 | the survivors keep their relative order (a subsequence of the original) |
| `NoiseLayers.SurvivorsCount` | Assets/CustomTerrain.cs:187 | each unflagged layer survives as many times as it occurs, and no flagged layer survives |
| `NoiseLayers.SurvivorsAppend` | Assets/CustomTerrain.cs:187 | filtering distributes over concatenation |
| `NoiseLayers.AddFlagRemoveRestores` | Assets/CustomTerrain.cs:180-193 | adding a layer, flagging it and removing flagged layers gives the same list as removal alone; for a non-empty list with nothing flagged, that is the original list |
| `Terrain.CustomTerrain.RandomTerrain` | Assets/CustomTerrain.cs:196-209 | each draw lies in the random-height range; the stored heights become the starting grid plus each cell's own draw |
| `Terrain.RandomChangesByDraw` | Assets/CustomTerrain.cs:205 | a cell changes by exactly its own draw, and for an ordered range that change lies in `[min, max]` |
| `Terrain.RandomFixedRange` | Assets/CustomTerrain.cs:205 | when both bounds equal `k`, every cell grows by exactly `k` |
| `Terrain.CustomTerrain.LoadTexture` | Assets/CustomTerrain.cs:212-227 | the stored heights become the starting grid plus, at `(x, z)`, the greyscale of pixel `((int)(x·scale.x), (int)(z·scale.z))` times `scale.y` |
| `Terrain.ImageRaisesWithinScale` | Assets/CustomTerrain.cs:221-223 | with greyscale values in [0, 1] and a non-negative vertical scale, each cell rises by between 0 and the vertical scale |
| `Terrain.TruncatesTowardZero` | Assets/CustomTerrain.cs:221-222 | the `(int)` cast drops the fractional part toward zero and keeps the sign |
| `Terrain.CustomTerrain.ResetTerrain` | Assets/CustomTerrain.cs:229-241 | every stored cell in `[0, res) × [0, res)` becomes exactly 0 |

## Left out

- `Awake` and `AddTag` (Assets/CustomTerrain.cs:244-276): bookkeeping in the editor's tag database, which is asset I/O.
- `OnEnable` and `Update` (Assets/CustomTerrain.cs:70-75, 279-282): only wiring into the engine's lifecycle.
- Assets/Editor/CustomTerrainEditor.cs: inspector UI that only calls the generators. The configuration fields are public `var`s a caller may assign.
- Floating point: heights and coefficients are reals. Rounding, infinities and NaN are not modelled, except through the `divide` operation passed in `FloatOps`.
- Other code the model receives as opaque parameters:
  - `Utils.fBM` is not part of this model, so the fractal-noise convention (persistence scaling successive octaves) is not modelled;
  - the pixel greyscale and the behaviour of `GetPixel` outside the image;
  - `Vector2.Distance`, `Mathf.Pow` and `Mathf.Sin`.
- `Random.Range` is not modelled: the draws are inputs. A `requires` clause holds them to what `Random.Range` returns: peak cells in `[0, res)` and peak heights and jitter values between the range bounds. On a terrain of resolution 0 with a positive peak count, no draw can meet that. The original then indexes out of range, and the model does not cover that case.
- A missing image (`heightMapImage` null) raises an exception in the original; the model always has a greyscale function.
- 32-bit integer overflow of `x + offset` in the noise coordinates is not modelled; integers are unbounded.
- `PerlinParameters` is a reference type in C#; the model stores the layers as values. If the same object appeared twice in the list, flagging one would flag both; that aliasing is not captured.
- The working buffer's `res × res` shape is read once per call, and the model takes the resolution as a constant of the component. A resolution change between calls is not modelled.
