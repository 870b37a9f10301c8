/** The noise object: its parameters, the sampling of one octave over the whole
    grid, and the octave sum with its final rescale. */
module Perlin {
  import opened Interp
  import opened Noise
  import opened Grid
  import opened Arith
  import PermTable

  function Pow(b: real, n: nat): real
  {
    if n == 0 then 1.0 else Pow(b, n - 1) * b
  }

  /** Number of sample rows, `len(range(gridLength * resolution))`: for a
      length and resolution of at least 1 it is their product, so at least
      `resolution` rows per lattice cell. */
  function Rows(lat: Lattice, res: int): (n: nat)
    ensures lat.length >= 1 && res >= 1 ==> n == lat.length * res && n >= res
  {
    if lat.length >= 1 && res >= 1 then
      MulAtLeast(lat.length, res);
      lat.length * res
    else if lat.length * res <= 0 then 0 else lat.length * res
  }

  /** Number of samples per row, `len(range(gridWidth * resolution))`: for a
      width and resolution of at least 1 it is their product. */
  function Cols(lat: Lattice, res: int): (n: nat)
    ensures lat.width >= 1 && res >= 1 ==> n == lat.width * res && n >= res
  {
    if lat.width >= 1 && res >= 1 then
      MulAtLeast(lat.width, res);
      lat.width * res
    else if lat.width * res <= 0 then 0 else lat.width * res
  }

  lemma PositiveExtent(e: int, res: int)
    requires e >= 1 && e * res > 0
    ensures res >= 1
  {
  }

  /** `(k / resolution) * frequency`: the coordinate at which sample k of a
      row or column is taken. */
  function SampleCoord(k: int, res: int, freq: real): real
    requires res >= 1
  {
    (k as real / res as real) * freq
  }

  /** The value of pixel (i, j) for one octave:
      `amplitude * basic_noise((i / res) * frequency, (j / res) * frequency)`. */
  function Pixel(lat: Lattice, res: int, amp: real, freq: real, i: int, j: int): real
    requires Fits(lat) && res >= 1
  {
    amp * NoiseAt(lat, SampleCoord(i, res, freq), SampleCoord(j, res, freq))
  }

  /** One octave's pixel stays within twice the amplitude's magnitude of 0. */
  lemma PixelBounded(lat: Lattice, res: int, amp: real, freq: real, i: int, j: int)
    requires Fits(lat) && res >= 1
    ensures -2.0 * Max(amp, -amp) <= Pixel(lat, res, amp, freq, i, j) <= 2.0 * Max(amp, -amp)
  {
    var n := NoiseAt(lat, SampleCoord(i, res, freq), SampleCoord(j, res, freq));
    var m := Max(amp, -amp);
    ScaleBounded(amp, n, 2.0);
    assert -2.0 * m <= amp * n <= 2.0 * m;
    PixelIs(lat, res, amp, freq, i, j, n);
  }

  lemma PixelIs(lat: Lattice, res: int, amp: real, freq: real, i: int, j: int, n: real)
    requires Fits(lat) && res >= 1
    requires n == NoiseAt(lat, SampleCoord(i, res, freq), SampleCoord(j, res, freq))
    ensures amp * n == Pixel(lat, res, amp, freq, i, j)
  {
  }

  /** Row i of one octave: `row` as the inner loop of `apply_to_each_pixel`
      leaves it. */
  function LayerRow(lat: Lattice, res: int, amp: real, freq: real, i: int): (row: seq<real>)
    requires Fits(lat)
    ensures |row| == Cols(lat, res)
  {
    if Cols(lat, res) == 0 then []
    else
      PositiveExtent(lat.width, res);
      seq(Cols(lat, res), j requires 0 <= j < Cols(lat, res) => Pixel(lat, res, amp, freq, i, j))
  }

  /** One octave sampled over the grid: what `apply_to_each_pixel` returns. */
  function Layer(lat: Lattice, res: int, amp: real, freq: real): (g: Grid)
    requires Fits(lat)
    ensures IsRect(g, Rows(lat, res), Cols(lat, res))
  {
    seq(Rows(lat, res), i requires 0 <= i < Rows(lat, res) => LayerRow(lat, res, amp, freq, i))
  }

  /** The grid of one octave has (gridLength * res) x (gridWidth * res)
      cells, and cell (i, j) is the amplitude times the single-octave noise at
      ((i / res) * frequency, (j / res) * frequency). */
  lemma LayerCell(lat: Lattice, res: int, amp: real, freq: real, i: int, j: int)
    requires Fits(lat) && res >= 1
    requires 0 <= i < Rows(lat, res) && 0 <= j < Cols(lat, res)
    ensures Rows(lat, res) == lat.length * res && Cols(lat, res) == lat.width * res
    ensures Layer(lat, res, amp, freq)[i][j]
            == amp * NoiseAt(lat, SampleCoord(i, res, freq), SampleCoord(j, res, freq))
  {
    LayerPixel(lat, res, amp, freq, i, j);
    PixelIs(lat, res, amp, freq, i, j, NoiseAt(lat, SampleCoord(i, res, freq), SampleCoord(j, res, freq)));
  }

  lemma LayerPixel(lat: Lattice, res: int, amp: real, freq: real, i: int, j: int)
    requires Fits(lat) && res >= 1
    requires 0 <= i < Rows(lat, res) && 0 <= j < Cols(lat, res)
    ensures Layer(lat, res, amp, freq)[i][j] == Pixel(lat, res, amp, freq, i, j)
  {
    assert Layer(lat, res, amp, freq)[i] == LayerRow(lat, res, amp, freq, i);
  }

  /** The accumulator after the base octave and k further octaves, each added
      with `np.add(new_layer, accumulator)`. */
  function OctaveSum(lat: Lattice, res: int, ampStep: real, freqStep: real, k: nat): (g: Grid)
    requires Fits(lat)
    ensures IsRect(g, Rows(lat, res), Cols(lat, res))
  {
    if k == 0 then Layer(lat, res, 1.0, 1.0)
    else
      var prev := OctaveSum(lat, res, ampStep, freqStep, k - 1);
      var layer := Layer(lat, res, Pow(ampStep, k), Pow(freqStep, k));
      Add(layer, prev)
  }

  /** The geometric series of one pixel over octaves 0..k: octave t has
      amplitude ampStep^t and frequency freqStep^t. */
  function PixelSum(lat: Lattice, res: int, ampStep: real, freqStep: real, k: nat, i: int, j: int): real
    requires Fits(lat) && res >= 1
  {
    var term := Pixel(lat, res, Pow(ampStep, k), Pow(freqStep, k), i, j);
    if k == 0 then term else term + PixelSum(lat, res, ampStep, freqStep, k - 1, i, j)
  }

  /** One more octave: the next layer added onto the accumulator. */
  lemma OctaveSumNext(lat: Lattice, res: int, ampStep: real, freqStep: real, x: nat)
    requires Fits(lat)
    ensures OctaveSum(lat, res, ampStep, freqStep, x + 1)
            == Add(Layer(lat, res, Pow(ampStep, x + 1), Pow(freqStep, x + 1)),
                   OctaveSum(lat, res, ampStep, freqStep, x))
  {
    assert x + 1 - 1 == x;
  }

  /** The base octave's cell is the first term of the series. */
  lemma OctaveSumBase(lat: Lattice, res: int, ampStep: real, freqStep: real, i: int, j: int)
    requires Fits(lat) && res >= 1
    requires 0 <= i < Rows(lat, res) && 0 <= j < Cols(lat, res)
    ensures OctaveSum(lat, res, ampStep, freqStep, 0)[i][j] == PixelSum(lat, res, ampStep, freqStep, 0, i, j)
  {
    LayerPixel(lat, res, 1.0, 1.0, i, j);
    assert Pow(ampStep, 0) == 1.0 && Pow(freqStep, 0) == 1.0;
  }

  /** Octave k adds its layer cell to the accumulated cell, and the series
      its term. */
  lemma OctaveSumStep(lat: Lattice, res: int, ampStep: real, freqStep: real, k: nat, i: int, j: int)
    requires Fits(lat) && res >= 1 && k > 0
    requires 0 <= i < Rows(lat, res) && 0 <= j < Cols(lat, res)
    requires OctaveSum(lat, res, ampStep, freqStep, k - 1)[i][j] == PixelSum(lat, res, ampStep, freqStep, k - 1, i, j)
    ensures OctaveSum(lat, res, ampStep, freqStep, k)[i][j] == PixelSum(lat, res, ampStep, freqStep, k, i, j)
  {
    var a, f := Pow(ampStep, k), Pow(freqStep, k);
    LayerPixel(lat, res, a, f, i, j);
    var prev := OctaveSum(lat, res, ampStep, freqStep, k - 1);
    assert OctaveSum(lat, res, ampStep, freqStep, k) == Add(Layer(lat, res, a, f), prev);
  }

  /** Each accumulated cell is the sum over octaves 0..k of the octave's
      amplitude times the single-octave noise at the octave's frequency. */
  lemma {:induction false} OctaveSumCell(lat: Lattice, res: int, ampStep: real, freqStep: real,
                                        k: nat, i: int, j: int)
    requires Fits(lat) && res >= 1
    requires 0 <= i < Rows(lat, res) && 0 <= j < Cols(lat, res)
    ensures OctaveSum(lat, res, ampStep, freqStep, k)[i][j] == PixelSum(lat, res, ampStep, freqStep, k, i, j)
  {
    if k == 0 {
      OctaveSumBase(lat, res, ampStep, freqStep, i, j);
    } else {
      OctaveSumCell(lat, res, ampStep, freqStep, k - 1, i, j);
      OctaveSumStep(lat, res, ampStep, freqStep, k, i, j);
    }
  }

  /** The samples `complete_noise` stores for the given parameters: all NaN in
      the grid's shape (when the accumulated field is flat), or a grid of the
      full shape whose cells lie in [-1, 1] with both -1 and 1 attained. */
  function FinalValues(lat: Lattice, res: int, ampStep: real, freqStep: real, octaves: int): (s: Samples)
    requires Fits(lat) && res >= 1
    ensures || s == NaNs(Rows(lat, res), Cols(lat, res))
            || (s.Samples? && IsRect(s.cells, Rows(lat, res), Cols(lat, res)) && SpansUnitRange(s.cells))
  {
    var n: nat := if octaves < 0 then 0 else octaves;
    PositiveCells(lat, res);
    NormalizeAgainstExtrema(OctaveSum(lat, res, ampStep, freqStep, n))
  }

  lemma PositiveCells(lat: Lattice, res: int)
    requires Fits(lat) && res >= 1
    ensures Rows(lat, res) >= 1 && Cols(lat, res) >= 1
  {
    assert lat.length * (res - 1) >= 0;
    assert lat.width * (res - 1) >= 0;
  }

  /** A sample of the base octave (amplitude and frequency 1) is the noise at
      its sample point. */
  lemma BasePixel(lat: Lattice, res: int, i: int, j: int)
    requires Fits(lat) && res >= 1
    requires 0 <= i < Rows(lat, res) && 0 <= j < Cols(lat, res)
    ensures Layer(lat, res, 1.0, 1.0)[i][j] == NoiseAt(lat, SampleCoord(i, res, 1.0), SampleCoord(j, res, 1.0))
  {
    LayerPixel(lat, res, 1.0, 1.0, i, j);
    PixelIs(lat, res, 1.0, 1.0, i, j, NoiseAt(lat, SampleCoord(i, res, 1.0), SampleCoord(j, res, 1.0)));
  }

  /** At resolution 1 every sample of the base octave lies on a lattice point,
      so it is 0. */
  lemma UnitResolutionCellZero(lat: Lattice, i: int, j: int)
    requires Fits(lat)
    requires 0 <= i < Rows(lat, 1) && 0 <= j < Cols(lat, 1)
    ensures Layer(lat, 1, 1.0, 1.0)[i][j] == 0.0
  {
    BasePixel(lat, 1, i, j);
    assert SampleCoord(i, 1, 1.0) == i as real && SampleCoord(j, 1, 1.0) == j as real;
    ZeroAtIntegers(lat, i, j);
  }

  /** At resolution 1 the whole base octave is 0. */
  lemma UnitResolutionLayerZero(lat: Lattice)
    requires Fits(lat)
    ensures var g := Layer(lat, 1, 1.0, 1.0);
            forall i, j :: 0 <= i < |g| && 0 <= j < |g[i]| ==> g[i][j] == 0.0
  {
    var g := Layer(lat, 1, 1.0, 1.0);
    forall i, j | 0 <= i < |g| && 0 <= j < |g[i]| ensures g[i][j] == 0.0 {
      UnitResolutionCellZero(lat, i, j);
    }
  }

  /** A base octave that is 0 everywhere, with no further octaves, is a flat
      field: the rescale divides 0 by 0 and every stored sample is NaN. */
  lemma FlatBaseOctave(lat: Lattice, res: int, ampStep: real, freqStep: real, octaves: int)
    requires Fits(lat) && res >= 1 && octaves <= 0
    requires var g := Layer(lat, res, 1.0, 1.0);
             forall i, j :: 0 <= i < |g| && 0 <= j < |g[i]| ==> g[i][j] == 0.0
    ensures FinalValues(lat, res, ampStep, freqStep, octaves) == NaNs(Rows(lat, res), Cols(lat, res))
  {
    PositiveCells(lat, res);
    var g := Layer(lat, res, 1.0, 1.0);
    assert OctaveSum(lat, res, ampStep, freqStep, 0) == g;
    ConstantIsFlat(g, 0.0);
  }

  /** With resolution 1 and no further octaves the accumulated field is flat
      for every table, so every stored sample is NaN. */
  lemma FlatAtUnitResolution(lat: Lattice, ampStep: real, freqStep: real, octaves: int)
    requires Fits(lat) && octaves <= 0
    ensures FinalValues(lat, 1, ampStep, freqStep, octaves) == NaNs(lat.length, lat.width)
  {
    UnitResolutionLayerZero(lat);
    FlatBaseOctave(lat, 1, ampStep, freqStep, octaves);
  }

  /** On a 1 x 1 grid at resolution 2 every sample of the base octave lies at
      offset 0 or 1/2 in both coordinates, where the single-cell closed form is
      0 because Smooth(1/2) == 1/2. */
  lemma SingleCellSampleZero(lat: Lattice, i: int, j: int)
    requires Fits(lat) && lat.width == 1 && lat.length == 1
    requires 0 <= i < Rows(lat, 2) && 0 <= j < Cols(lat, 2)
    ensures Layer(lat, 2, 1.0, 1.0)[i][j] == 0.0
  {
    BasePixel(lat, 2, i, j);
    var x, y := SampleCoord(i, 2, 1.0), SampleCoord(j, 2, 1.0);
    assert x == 0.0 || x == 0.5 by {
      assert i == 0 || i == 1;
    }
    assert y == 0.0 || y == 0.5 by {
      assert j == 0 || j == 1;
    }
    SingleCellHalfPointZero(lat, x, y);
  }

  lemma SingleCellHalfPointZero(lat: Lattice, x: real, y: real)
    requires Fits(lat) && lat.width == 1 && lat.length == 1
    requires (x == 0.0 || x == 0.5) && (y == 0.0 || y == 0.5)
    ensures NoiseAt(lat, x, y) == 0.0
  {
    assert Frac(x) == x && Frac(y) == y;
    assert Smooth(0.5) == 0.5;
    SingleCellNoise(lat, x, y);
  }

  /** On a 1 x 1 grid at resolution 2 the whole base octave is 0. */
  lemma SingleCellLayerZero(lat: Lattice)
    requires Fits(lat) && lat.width == 1 && lat.length == 1
    ensures var g := Layer(lat, 2, 1.0, 1.0);
            forall i, j :: 0 <= i < |g| && 0 <= j < |g[i]| ==> g[i][j] == 0.0
  {
    var g := Layer(lat, 2, 1.0, 1.0);
    forall i, j | 0 <= i < |g| && 0 <= j < |g[i]| ensures g[i][j] == 0.0 {
      SingleCellSampleZero(lat, i, j);
    }
  }

  /** A 1 x 1 grid at resolution 2 with no further octaves, which the
      application's input checks accept, also gives a flat field: the stored
      samples are a 2 x 2 array of NaN. */
  lemma FlatOnSingleCell(lat: Lattice, ampStep: real, freqStep: real, octaves: int)
    requires Fits(lat) && lat.width == 1 && lat.length == 1 && octaves <= 0
    ensures FinalValues(lat, 2, ampStep, freqStep, octaves) == NaNs(2, 2)
  {
    SingleCellLayerZero(lat);
    FlatBaseOctave(lat, 2, ampStep, freqStep, octaves);
  }

  class PerlinNoise {
    var finalValues: Samples
    var octaveNum: int
    var gridWidth: int
    var gridLength: int
    var resolution: int
    var ampStep: real
    var freqStep: real
    var P: seq<int>

    /** The defaults of the source, bound to the table the object is given.
        make_permutation_table always builds a new list before shuffling, so
        holding the list the table had at this moment is holding a value. */
    constructor (pTable: PermTable.PermutationTable)
      ensures finalValues == Samples([]) && P == pTable.P
      ensures octaveNum == 2 && gridWidth == 5 && gridLength == 5 && resolution == 100
      ensures ampStep == 0.5 && freqStep == 2.0
    {
      finalValues := Samples([]);
      octaveNum := 2;
      gridWidth := 5;
      gridLength := 5;
      resolution := 100;
      ampStep := 0.5;
      freqStep := 2.0;
      P := pTable.P;
    }

    function Lat(): Lattice
      reads this`P, this`gridWidth, this`gridLength
    {
      Lattice(P, gridWidth, gridLength)
    }

    /** `lerp` as the method the object offers. */
    method Lerp(a: real, b: real, weight: real) returns (r: real)
      ensures r == Interp.Lerp(a, b, weight)
    {
      r := a + (weight * (b - a));
    }

    /** `smoothing_func` as the method the object offers. */
    method SmoothingFunc(t: real) returns (r: real)
      ensures r == Smooth(t)
    {
      r := ((6.0 * t - 15.0) * t + 10.0) * t * t * t;
    }

    /** `basic_noise(x, y)`: one dot product per corner, then the blend. */
    method BasicNoise(x: real, y: real) returns (r: real)
      requires Fits(Lat())
      ensures r == NoiseAt(Lat(), x, y)
    {
      ghost var lat := Lat();
      var p, w, l := P, gridWidth, gridLength;
      var G := [(1, 1), (1, -1), (-1, 1), (-1, -1)];
      var possibleCoords := Corners(x, y);
      var dotProducts: seq<real> := [];
      for k := 0 to 4
        invariant |dotProducts| == k
        invariant forall t :: 0 <= t < k ==>
                    dotProducts[t] == CornerDot(lat, x, y, possibleCoords[t].0, possibleCoords[t].1)
      {
        var coord := possibleCoords[k];
        LookupsInBounds(lat, coord.0, coord.1);
        var g := p[p[coord.0 % l] + coord.1 % w] % 4;
        var constVector := G[g];
        var dotProduct := Dot(x - coord.0 as real, y - coord.1 as real, constVector);
        assert dotProduct == CornerDot(lat, x, y, coord.0, coord.1) by {
          assert g == GradientIndex(lat, coord.0, coord.1);
          assert constVector == Gradient(g);
        }
        dotProducts := dotProducts + [dotProduct];
      }
      var sx := SmoothingFunc(Frac(x));
      var productA := Lerp(dotProducts[0], dotProducts[1], sx);
      var productB := Lerp(dotProducts[2], dotProducts[3], sx);
      var sy := SmoothingFunc(Frac(y));
      r := Lerp(productA, productB, sy);
      assert r == NoiseAt(lat, x, y) by {
        NoiseAtCorners(lat, x, y, dotProducts);
      }
    }

    /** `apply_to_each_pixel(amplitude, frequency)`: one octave over the
        (gridLength * resolution) x (gridWidth * resolution) grid. */
    method ApplyToEachPixel(amplitude: real, frequency: real) returns (values: Grid)
      requires Fits(Lat())
      ensures values == Layer(Lat(), resolution, amplitude, frequency)
    {
      ghost var lat := Lat();
      var res := resolution;
      var rows, cols := Rows(Lat(), res), Cols(Lat(), res);
      values := [];
      for x := 0 to rows
        invariant |values| == x
        invariant forall i :: 0 <= i < x ==> values[i] == LayerRow(lat, res, amplitude, frequency, i)
      {
        PositiveExtent(gridLength, res);
        var row: seq<real> := [];
        for y := 0 to cols
          invariant |row| == y
          invariant forall j :: 0 <= j < y ==> row[j] == Pixel(lat, res, amplitude, frequency, x, j)
        {
          var pixelVal := BasicNoise(SampleCoord(x, res, frequency), SampleCoord(y, res, frequency));
          PixelIs(lat, res, amplitude, frequency, x, y, pixelVal);
          pixelVal := amplitude * pixelVal;
          row := row + [pixelVal];
        }
        assert row == LayerRow(lat, res, amplitude, frequency, x);
        values := values + [row];
      }
      assert values == Layer(lat, res, amplitude, frequency);
    }

    /** The octave loop of `complete_noise()`: the base octave, then octaveNum
        more octaves with amplitude and frequency multiplied by their steps
        each time, each added into finalValues. Returns the amplitude and
        frequency the loop ends with. */
    method AccumulateOctaves() returns (amp: real, freq: real)
      requires Fits(Lat())
      modifies this`finalValues
      ensures var n := if octaveNum < 0 then 0 else octaveNum;
              amp == Pow(ampStep, n) && freq == Pow(freqStep, n)
      ensures finalValues == Samples(OctaveSum(Lat(), resolution, ampStep, freqStep,
                                               if octaveNum < 0 then 0 else octaveNum))
    {
      amp := 1.0;
      freq := 1.0;
      var first := ApplyToEachPixel(amp, freq);
      finalValues := Samples(first);
      var n: nat := if octaveNum < 0 then 0 else octaveNum;
      for x := 0 to n
        invariant amp == Pow(ampStep, x) && freq == Pow(freqStep, x)
        invariant finalValues == Samples(OctaveSum(Lat(), resolution, ampStep, freqStep, x))
      {
        amp := amp * ampStep;
        freq := freq * freqStep;
        assert amp == Pow(ampStep, x + 1) && freq == Pow(freqStep, x + 1);
        var layer := ApplyToEachPixel(amp, freq);
        OctaveSumNext(Lat(), resolution, ampStep, freqStep, x);
        finalValues := Samples(Add(layer, finalValues.cells));
      }
    }

    /** `complete_noise()`: the octave sum, then the min-max rescale of the
        accumulated grid. */
    method CompleteNoise()
      requires Fits(Lat()) && resolution >= 1
      modifies this`finalValues
      ensures finalValues == FinalValues(Lat(), resolution, ampStep, freqStep, octaveNum)
      ensures || finalValues == NaNs(Rows(Lat(), resolution), Cols(Lat(), resolution))
              || (&& IsRect(finalValues.cells, Rows(Lat(), resolution), Cols(Lat(), resolution))
                  && SpansUnitRange(finalValues.cells))
    {
      ghost var lat, res := Lat(), resolution;
      var amp, freq := AccumulateOctaves();
      var acc := finalValues.cells;
      PositiveCells(lat, res);
      finalValues := RescaleToUnitRange(acc);
    }

    method SetWidthLength(width: int, length: int)
      modifies this`gridWidth, this`gridLength
      ensures gridWidth == width && gridLength == length
    {
      gridLength := length;
      gridWidth := width;
    }

    method SetOctaveNum(octaveNum: int)
      modifies this`octaveNum
      ensures this.octaveNum == octaveNum
    {
      this.octaveNum := octaveNum;
    }

    method SetResolution(res: int)
      modifies this`resolution
      ensures resolution == res
    {
      resolution := res;
    }

    method SetAmpStep(ampStep: real)
      modifies this`ampStep
      ensures this.ampStep == ampStep
    {
      this.ampStep := ampStep;
    }

    method SetFreqStep(freqStep: real)
      modifies this`freqStep
      ensures this.freqStep == freqStep
    {
      this.freqStep := freqStep;
    }

    method GetWidthLength() returns (width: int, length: int)
      ensures width == gridWidth && length == gridLength
    {
      width, length := gridWidth, gridLength;
    }

    method GetOctaveNum() returns (n: int)
      ensures n == octaveNum
    {
      n := octaveNum;
    }

    method GetResolution() returns (res: int)
      ensures res == resolution
    {
      res := resolution;
    }

    method GetAmpStep() returns (s: real)
      ensures s == ampStep
    {
      s := ampStep;
    }

    method GetFreqStep() returns (s: real)
      ensures s == freqStep
    {
      s := freqStep;
    }

    method GetFinalValues() returns (v: Samples)
      ensures v == finalValues
    {
      v := finalValues;
    }
  }
}
