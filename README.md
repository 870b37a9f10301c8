# Perlin noise generator — a Dafny model of its engine

The program draws a 2-D Perlin noise field. Its engine is two classes in
`perlin_noise.py`; a Tk GUI sits on top of them.

- **`PermutationTable`** holds a size and a seed. From them it builds a shuffled table: the list `0 .. size-1` twice over, shuffled after reseeding Python's random generator.
- **`PerlinNoise`** holds grid extents, a sampling resolution, an octave count and the amplitude and frequency steps. It turns the table into a grid of samples in four stages:
  - `basic_noise` computes gradient noise at one point. It looks up a gradient for each of the four lattice corners through the table, takes the dot products, and blends them with the quintic fade curve.
  - `apply_to_each_pixel` samples one octave over the whole grid.
  - `complete_noise` sums the base octave and `octaveNum` more octaves.
  - It then rescales the sum to `[-1, 1]` with its own minimum and maximum.

The GUI builds the table for `size = width * length` and passes it to a
fresh noise object (`instance_pTable`, `instance_pNoise`). This linkage is
what keeps every table lookup in bounds.

Files and modules:

| file | module | contents |
|---|---|---|
| `arith.dfy` | `Arith` | small integer facts used by the proofs |
| `perm_table.dfy` | `PermTable` | `range(size) * 2`, `random.shuffle` as Fisher–Yates over an abstract random source, and the `PermutationTable` class |
| `interp.dfy` | `Interp` | `lerp` and `smoothing_func` |
| `noise.dfy` | `Noise` | the corner lookup, the gradients and the single-octave noise as functions |
| `grid.dfy` | `Grid` | what numpy does to the sample grid: `np.add`, `np.amax`, `np.amin` and the min-max rescale |
| `perlin.dfy` | `Perlin` | samples of one octave, the octave sum, and the `PerlinNoise` class with its in-place methods |
| `pipeline.dfy` | `Gui` | the GUI's two builders (`GUI.instance_pTable`, `GUI.instance_pNoise`) and the whole start-up path |

How the model is built:

- The **mutating classes** are Dafny classes. Their methods state their whole new state in terms of specification functions: `Table`, `NoiseAt`, `Layer`, `OctaveSum`, `FinalValues`.
- **`basic_noise`, `apply_to_each_pixel` and the octave loop of `complete_noise`** (`AccumulateOctaves`) keep their loops. Each loop is proved against those functions.
- **Sample points**: `SampleCoord(k, res, freq)` names `(k / resolution) * frequency`, the point at which `apply_to_each_pixel` calls `basic_noise`.
- **Properties** are lemmas about the functions: permutation and counts, bounds, continuity, periodicity, reproducibility, and behaviour at the lattice points and at the rescale.
- **Numbers** are exact reals in place of Python floats.
- **numpy's 0/0 rescale of a flat field** is the `NaNs(rows, cols)` alternative of the `Samples` datatype.

A flat field (maximum equal to minimum) has no special case in the code:
line 98 divides 0 by 0 in every cell, which numpy turns into NaN. The model
follows the code. Two lemmas show that flat fields occur:

- `Perlin.FlatAtUnitResolution` holds for the engine and every table. At resolution 1 with no extra octaves, every pixel lies on a lattice point, where the noise is exactly 0. The GUI itself rejects resolutions below 2 (perlin_noise.py:248).
- `Perlin.FlatOnSingleCell` covers input the GUI accepts: a 1 x 1 grid at resolution 2 with no extra octaves. There the table is `[0, 0]`, so every corner has the gradient (1, 1). Every sample then sits at offset 0 or 1/2, where the noise is 0 because Smooth(1/2) = 1/2.

## Model

| member | source | states |
|---|---|---|
| PermTable.Range | perlin_noise.py:21 | `range(n)` has length max(n, 0) and holds k at position k |
| PermTable.Doubled | perlin_noise.py:21 | the unshuffled table has length 2 * size, or 0 when size <= 0 |
| PermTable.RangeCount | perlin_noise.py:21 | every v in [0, n) occurs exactly once in `range(n)`, and nothing else occurs |
| PermTable.DoubledCount | perlin_noise.py:21 | every v in [0, size) occurs exactly twice in the unshuffled table, and nothing else occurs |
| PermTable.RemainderIsMod | perlin_noise.py:22 | the swap partner reduction equals the draw modulo i + 1 |
| PermTable.SwapIndex | perlin_noise.py:22 | the partner picked for position i is never beyond i |
| PermTable.SwapPermutes | perlin_noise.py:22 | one exchange of two positions keeps the multiset of elements |
| PermTable.ShuffleFromPermutes | perlin_noise.py:22 | the Fisher–Yates steps from position i down keep the multiset of elements |
| PermTable.ShufflePermutes | perlin_noise.py:22 | `random.shuffle` only rearranges: the multiset of elements is unchanged |
| PermTable.Swap | perlin_noise.py:22 | an exchange keeps the length, puts each of the two elements at the other's position, and leaves every other position unchanged |
| PermTable.ShuffleFrom | perlin_noise.py:22 | the Fisher–Yates steps from position i down keep the length of the list |
| PermTable.Shuffle | perlin_noise.py:22 | `random.shuffle` keeps the length of the list |
| PermTable.ShuffleLoop | perlin_noise.py:20-22 | the swap loop from the last position down to 1, over a sequence value that each swap replaces, leaves exactly the shuffle of the input |
| PermTable.Table | perlin_noise.py:19-22 | the built table has length 2 * size, or 0 when size <= 0 |
| PermTable.TableShape | perlin_noise.py:19-22 | the built table has length 2 * size, holds every v in [0, size) exactly twice, and every entry lies in [0, size) |
| PermTable.ShuffleUsesOnlyItsDraws | perlin_noise.py:20-22 | two random sources that agree on draws 0 .. len - 2, the only ones the swap steps take, produce the same shuffle |
| PermTable.TableDependsOnlyOnDraws | perlin_noise.py:20-22 | the table depends only on the size and on the first 2 * size - 1 draws after reseeding, not on any earlier table or earlier use of the generator |
| PermTable.PermutationTable.constructor | perlin_noise.py:13-16 | defaults: size 25, seed 2023, empty table |
| PermTable.PermutationTable.MakePermutationTable | perlin_noise.py:19-22 | the new table is the shuffle of `range(size) * 2` for the current seed, a permutation of that list, of length 2 * size, holding each of [0, size) twice and nothing else |
| PermTable.PermutationTable.SetSize | perlin_noise.py:24-25 | stores the size |
| PermTable.PermutationTable.SetSeed | perlin_noise.py:27-28 | stores the seed |
| PermTable.PermutationTable.GetP | perlin_noise.py:30-31 | returns the table |
| PermTable.PermutationTable.GetSeed | perlin_noise.py:33-34 | returns the seed |
| PermTable.PermutationTable.GetSize | perlin_noise.py:36-37 | returns the size |
| PermTable.RebuildReproduces | perlin_noise.py:19-28 | building, changing the seed and rebuilding, then restoring the seed and rebuilding gives the same table as the first build |
| Interp.Lerp | perlin_noise.py:52-53 | the interpolant is a at weight 0 and b at weight 1 |
| Interp.LerpBetween | perlin_noise.py:52-53 | for a weight in [0, 1] the interpolant lies between a and b |
| Interp.Smooth | perlin_noise.py:56-57 | the fade curve is 0 at 0 and 1 at 1 |
| Interp.SmoothFlatAtEnds | perlin_noise.py:56-57 | the fade curve has a triple root at 0, and 1 minus the curve has a triple root at 1 |
| Interp.SmoothSymmetric | perlin_noise.py:56-57 | the fade curve is point-symmetric: Smooth(1 - t) == 1 - Smooth(t) |
| Interp.SmoothRange | perlin_noise.py:56-57 | on [0, 1] the fade curve stays in [0, 1] |
| Noise.Frac | perlin_noise.py:77-79 | `x % 1` lies in [0, 1) and x is its floor plus it; the blend weights are taken from it |
| Noise.LookupsInBounds | perlin_noise.py:73 | for a fitting table both lookups stay in bounds for every corner, negative ones included |
| Noise.GradientIndex | perlin_noise.py:73 | the gradient index lies in [0, 4) |
| Noise.Gradient | perlin_noise.py:61 | each gradient component is +1 or -1; index < 2 gives x-component +1, an even index gives y-component +1 |
| Noise.Corners | perlin_noise.py:63-68 | the four corners come in the order (xMin, yMin), (xMax, yMin), (xMin, yMax), (xMax, yMax), with xMax = xMin + 1 and yMax = yMin + 1, and the point lies in the unit cell from the first corner up to but excluding the last |
| Noise.CornerDot | perlin_noise.py:73-74 | a corner's contribution is 0 when the point is the corner itself |
| Noise.CornerDotBounded | perlin_noise.py:73-74 | a corner's dot product lies in [-2, 2] while both offset components lie in [-1, 1] |
| Noise.CellNoise | perlin_noise.py:77-79 | the blend over a cell is 0 at the cell's lower corner and lies in [-2, 2] for a point inside the cell |
| Noise.NoiseAt | perlin_noise.py:60-81 | the single-octave noise is never outside [-2, 2] (a bound, not a tight range) |
| Noise.ZeroAtLattice | perlin_noise.py:60-81 | the noise at a lattice point is exactly 0 |
| Noise.ZeroAtIntegers | perlin_noise.py:60-81 | the noise at every integer point (i, j) is 0 |
| Noise.ContinuousAcrossX | perlin_noise.py:63-79 | on a vertical cell boundary the cells on both sides give the same value |
| Noise.ContinuousAcrossY | perlin_noise.py:63-79 | on a horizontal cell boundary the cells on both sides give the same value |
| Noise.CornerShiftX | perlin_noise.py:73-74 | shifting point and corner by gridLength keeps the corner's contribution |
| Noise.CornerShiftY | perlin_noise.py:73-74 | shifting point and corner by gridWidth keeps the corner's contribution |
| Noise.PeriodicInX | perlin_noise.py:60-81 | the noise repeats with period gridLength in x |
| Noise.PeriodicInY | perlin_noise.py:60-81 | the noise repeats with period gridWidth in y |
| Noise.SingleCellDot | perlin_noise.py:73-74 | on a 1 x 1 grid every corner's contribution is the sum of the two offsets |
| Noise.SingleCellNoise | perlin_noise.py:60-81 | on a 1 x 1 grid the noise is (Frac(x) - Smooth(Frac(x))) + (Frac(y) - Smooth(Frac(y))) |
| Grid.Add | perlin_noise.py:92 | `np.add` keeps the shape and adds cell by cell |
| Grid.RowMax | perlin_noise.py:95 | the row maximum is an entry and is no smaller than any entry |
| Grid.RowMin | perlin_noise.py:96 | the row minimum is an entry and is no larger than any entry |
| Grid.GridMax | perlin_noise.py:95 | `np.amax` is an entry of the grid and is no smaller than any entry |
| Grid.GridMin | perlin_noise.py:96 | `np.amin` is an entry of the grid and is no larger than any entry |
| Grid.Rescale | perlin_noise.py:98 | the rescale maps [lo, hi] into [-1, 1]; it gives -1 exactly for lo and 1 exactly for hi |
| Grid.Normalize | perlin_noise.py:98 | the elementwise rescale keeps the shape and rescales each cell |
| Grid.RescaleToUnitRange | perlin_noise.py:95-98 | max, min and rescale give the normalised grid, or NaNs when max equals min |
| Grid.FlatIffConstant | perlin_noise.py:95-96 | min equals max exactly when every cell holds the same value |
| Grid.ConstantIsFlat | perlin_noise.py:95-98 | a constant grid rescales to all NaN, in its own shape |
| Grid.NormalizeBounded | perlin_noise.py:98 | cells within [lo, hi] rescale into [-1, 1] |
| Grid.NormalizeEnds | perlin_noise.py:98 | a cell holding lo becomes -1 and a cell holding hi becomes 1 |
| Grid.NormalizeSpans | perlin_noise.py:95-98 | against the grid's own extrema, the rescaled grid keeps the shape, stays in [-1, 1] and reaches both -1 and 1 |
| Grid.NormalizeAgainstExtrema | perlin_noise.py:95-98 | the result is NaN, in the grid's shape, exactly when the field is flat; otherwise it has the full shape and spans exactly [-1, 1] |
| Perlin.Rows | perlin_noise.py:103 | for a length and resolution of at least 1 there are length * resolution rows, at least resolution of them |
| Perlin.Cols | perlin_noise.py:105 | for a width and resolution of at least 1 each row has width * resolution samples, at least resolution of them |
| Perlin.PixelBounded | perlin_noise.py:106 | a pixel of one octave lies within twice the amplitude's magnitude of 0 |
| Perlin.LayerRow | perlin_noise.py:104-107 | a row has gridWidth * resolution samples |
| Perlin.Layer | perlin_noise.py:101-109 | one octave is a (gridLength * resolution) x (gridWidth * resolution) grid |
| Perlin.LayerCell | perlin_noise.py:101-109 | cell (i, j) of an octave is amplitude * noise((i / res) * freq, (j / res) * freq) |
| Perlin.OctaveSum | perlin_noise.py:87-92 | the accumulator keeps the full grid shape after every octave |
| Perlin.OctaveSumCell | perlin_noise.py:84-92 | each accumulated cell is the sum over octaves t = 0..k of ampStep^t * noise at frequency freqStep^t |
| Perlin.PositiveCells | perlin_noise.py:103-105 | with extents and resolution at least 1 the grid has at least one row and one column |
| Perlin.FinalValues | perlin_noise.py:84-98 | the stored samples are all NaN in the grid's shape, or a full-shape grid spanning exactly [-1, 1] |
| Perlin.UnitResolutionCellZero | perlin_noise.py:101-109 | at resolution 1 every sample of the base octave is 0 |
| Perlin.UnitResolutionLayerZero | perlin_noise.py:101-109 | at resolution 1 the whole base octave is 0 |
| Perlin.FlatBaseOctave | perlin_noise.py:84-98 | a base octave that is 0 everywhere, with no further octaves, leaves all NaN in the grid's shape |
| Perlin.FlatAtUnitResolution | perlin_noise.py:84-98 | at resolution 1 with no further octaves the stored samples are all NaN, whatever the table |
| Perlin.SingleCellSampleZero | perlin_noise.py:101-109 | on a 1 x 1 grid at resolution 2 every sample of the base octave is 0 |
| Perlin.SingleCellLayerZero | perlin_noise.py:101-109 | on a 1 x 1 grid at resolution 2 the whole base octave is 0 |
| Perlin.FlatOnSingleCell | perlin_noise.py:84-98 | on a 1 x 1 grid at resolution 2 with no further octaves, input the GUI accepts, the stored samples are a 2 x 2 grid of NaN |
| Perlin.PerlinNoise.constructor | perlin_noise.py:41-49 | defaults: 2 octaves, 5 x 5 grid, resolution 100, steps 1/2 and 2, and the table's current list |
| Perlin.PerlinNoise.Lerp | perlin_noise.py:52-53 | the method computes the interpolant |
| Perlin.PerlinNoise.SmoothingFunc | perlin_noise.py:56-57 | the method computes the fade curve |
| Perlin.PerlinNoise.BasicNoise | perlin_noise.py:60-81 | the loop over the four corners and the blends compute the single-octave noise at (x, y) |
| Perlin.PerlinNoise.ApplyToEachPixel | perlin_noise.py:101-109 | the nested loops build exactly the octave grid for the amplitude and frequency |
| Perlin.PerlinNoise.AccumulateOctaves | perlin_noise.py:85-92 | after the loop amplitude is ampStep^n and frequency freqStep^n for n = max(octaveNum, 0), and the stored grid is the octave sum over octaves 0..n |
| Perlin.PerlinNoise.CompleteNoise | perlin_noise.py:84-98 | the stored samples are the rescaled octave sum: all NaN, or a full-shape grid spanning exactly [-1, 1] |
| Perlin.PerlinNoise.SetWidthLength | perlin_noise.py:111-113 | stores width and length |
| Perlin.PerlinNoise.SetOctaveNum | perlin_noise.py:115-116 | stores the octave count |
| Perlin.PerlinNoise.SetResolution | perlin_noise.py:118-119 | stores the resolution |
| Perlin.PerlinNoise.SetAmpStep | perlin_noise.py:121-122 | stores the amplitude step |
| Perlin.PerlinNoise.SetFreqStep | perlin_noise.py:124-125 | stores the frequency step |
| Perlin.PerlinNoise.GetWidthLength | perlin_noise.py:127-128 | returns (width, length) |
| Perlin.PerlinNoise.GetOctaveNum | perlin_noise.py:130-131 | returns the octave count |
| Perlin.PerlinNoise.GetResolution | perlin_noise.py:133-134 | returns the resolution |
| Perlin.PerlinNoise.GetAmpStep | perlin_noise.py:136-137 | returns the amplitude step |
| Perlin.PerlinNoise.GetFreqStep | perlin_noise.py:139-140 | returns the frequency step |
| Perlin.PerlinNoise.GetFinalValues | perlin_noise.py:142-143 | returns the stored samples |
| Gui.TableFits | perlin_noise.py:196 | a table of size width * length fits a width x length grid, so every lookup stays in bounds |
| Gui.InstancePTable | perlin_noise.py:194-200 | the new table object has size width * length, the seed, and the table for them |
| Gui.InstancePNoise | perlin_noise.py:203-211 | the new noise object carries the parameters and the samples `complete_noise` computes for them |
| Gui.Build | perlin_noise.py:194-211 | the table object has size width * length and the seed; the noise object stores the width, length, octave count, resolution and both steps it was given, and shares the table's list; the path indexes only inside the table and stores all NaN or a (length * res) x (width * res) grid spanning exactly [-1, 1] |

## Left out

- The random source: this is not a model of Python's Mersenne Twister. `gen(seed, k)` stands for the k-th draw after `random.seed(seed)`, because the generator's internals are a foreign library and only the fact that reseeding fixes the draws matters here.
- PermTable.SwapIndex: `randbelow(i + 1)` rejects and redraws raw bits instead of reducing them modulo i + 1. The model takes one draw per position, reduced modulo i + 1, because the bit-level sampling belongs to the random library. The permutation, shape and reproducibility results hold for any draws.
- Noise.NoiseAt: the proved bound [-2, 2] is not tight. The comment at perlin_noise.py:94 takes [-1, 1] as the range of one octave, and a tighter bound is not proved here.
- Floating point: values are exact reals. Rounding, overflow and infinities are out of scope.
- NaN: this is not IEEE-754 NaN arithmetic. The all-NaN result of the rescale is the `NaNs` alternative of `Samples`; arithmetic on a NaN grid is not modelled.
- numpy: the array is a list of lists, and the numpy array type is left out. `np.add`, `np.amax`, `np.amin` and broadcasting are given by their effect on the cells.
- The seed is a real number. The source's default is the integer 2023 and the GUI passes a float.
- Python's out-of-range behaviour is left out: negative list indices and `IndexError`. The methods that use the table require `Fits` (extents at least 1, table of length 2 * width * length with entries below width * length). `Gui.TableFits` shows that the GUI's own linkage meets this.
- Perlin.PerlinNoise.CompleteNoise: requires resolution >= 1 and `Fits`. A resolution of 0 or less gives an empty `range` at line 103, so the grid is empty and `np.amax` raises `ValueError` at line 95. A zero extent through `complete_noise` empties the grid the same way and ends in the same `ValueError`. A zero extent makes `% gridLength` or `% gridWidth` at line 73 raise `ZeroDivisionError` only when `basic_noise` is called on its own. The model does not carry these error paths. The GUI's input checks (perlin_noise.py:242-248) exclude all of them.
- The `PerlinNoise` object keeps the list it got from the table at construction. `make_permutation_table` always builds a new list before shuffling, so a later rebuild never changes the list the noise object holds. Holding a value is therefore faithful, and aliasing is not modelled.
- The GUI: `create_display`, `display_graph`, the matplotlib figure and the Tk widgets, because they are presentation and I/O.
- `check_for_error` and `display_error_message` (perlin_noise.py:153-191). They validate and report text-field input, so they are presentation.
- The change-detection glue that reacts to edits in the GUI fields (perlin_noise.py:267-278). It is event handling, which is left out with the GUI.
- Perlin.PerlinNoise.AccumulateOctaves: this is not a separate method in the source. It is the octave loop of `complete_noise` (lines 85-92), kept on its own so each proof stays small. `CompleteNoise` calls it and then rescales.
