/** Single-octave gradient noise: the lattice-corner lookup through the
    permutation table and the blend that `basic_noise` computes. */
module Noise {
  import opened Interp
  import opened Arith

  /** What `basic_noise` reads from its object: the permutation table and the
      grid extents used as moduli for the corner coordinates. */
  datatype Lattice = Lattice(P: seq<int>, width: int, length: int)

  /** The linkage the GUI sets up (the table is built for size width * length):
      both extents at least 1, the table 2 * size long, every entry in
      [0, size). */
  predicate Fits(lat: Lattice)
  {
    && lat.width >= 1 && lat.length >= 1
    && |lat.P| == 2 * (lat.width * lat.length)
    && forall k :: 0 <= k < |lat.P| ==> 0 <= lat.P[k] < lat.width * lat.length
  }

  /** Python's `x % 1`: the fractional part, always in [0, 1). */
  function Frac(x: real): (r: real)
    ensures 0.0 <= r < 1.0
    ensures x == x.Floor as real + r
  {
    x - x.Floor as real
  }

  /** Both table lookups of a corner stay in bounds, negative corners included:
      the inner index `cx % length` is below size and the outer index
      `P[cx % length] + cy % width` is below 2 * size. */
  lemma LookupsInBounds(lat: Lattice, cx: int, cy: int)
    requires Fits(lat)
    ensures 0 <= cx % lat.length < lat.width * lat.length
    ensures 0 <= lat.P[cx % lat.length] + cy % lat.width < |lat.P|
  {
    var w, l := lat.width, lat.length;
    MulAtLeast(w, l);
    MulAtLeast(l, w);
    assert l * w == w * l;
  }

  /** The gradient index `P[P[cx % length] + cy % width] % 4`. */
  function GradientIndex(lat: Lattice, cx: int, cy: int): (g: int)
    requires Fits(lat)
    ensures 0 <= g < 4
  {
    LookupsInBounds(lat, cx, cy);
    lat.P[lat.P[cx % lat.length] + cy % lat.width] % 4
  }

  /** `G[g]` for G = [(1,1), (1,-1), (-1,1), (-1,-1)]. */
  function Gradient(g: int): (v: (int, int))
    requires 0 <= g < 4
    ensures v.0 == 1 || v.0 == -1
    ensures v.1 == 1 || v.1 == -1
    ensures g < 2 <==> v.0 == 1
    ensures g % 2 == 0 <==> v.1 == 1
  {
    [(1, 1), (1, -1), (-1, 1), (-1, -1)][g]
  }

  /** The dot product of an offset (dx, dy) with a gradient vector v. */
  function Dot(dx: real, dy: real, v: (int, int)): real
  {
    dx * (v.0 as real) + dy * (v.1 as real)
  }

  /** The dot product of the corner's gradient with the offset from the corner
      to the point: 0 at the corner itself. */
  function CornerDot(lat: Lattice, x: real, y: real, cx: int, cy: int): (d: real)
    requires Fits(lat)
    ensures x == cx as real && y == cy as real ==> d == 0.0
  {
    Dot(x - cx as real, y - cy as real, Gradient(GradientIndex(lat, cx, cy)))
  }

  /** Each gradient component is 1 or -1, so while both offset components lie
      in [-1, 1] the dot product lies in [-2, 2]. */
  lemma CornerDotBounded(lat: Lattice, x: real, y: real, cx: int, cy: int)
    requires Fits(lat)
    ensures -1.0 <= x - cx as real <= 1.0 && -1.0 <= y - cy as real <= 1.0
            ==> -2.0 <= CornerDot(lat, x, y, cx, cy) <= 2.0
  {
    DotBounded(x - cx as real, y - cy as real, Gradient(GradientIndex(lat, cx, cy)));
  }

  /** A dot product with a vector of ±1 components, for offsets in [-1, 1],
      lies in [-2, 2]. */
  lemma DotBounded(dx: real, dy: real, v: (int, int))
    requires (v.0 == 1 || v.0 == -1) && (v.1 == 1 || v.1 == -1)
    ensures -1.0 <= dx <= 1.0 && -1.0 <= dy <= 1.0 ==> -2.0 <= Dot(dx, dy, v) <= 2.0
  {
    var a := if v.0 == 1 then dx else -dx;
    var b := if v.1 == 1 then dy else -dy;
    assert dx * (v.0 as real) == a;
    assert dy * (v.1 as real) == b;
  }

  /** The four corners of the cell containing (x, y), in the order the code
      visits them: (xMin, yMin), (xMax, yMin), (xMin, yMax), (xMax, yMax).
      The point lies in the unit cell they span: at or past c[0] and before
      c[3] in both coordinates. */
  function Corners(x: real, y: real): (c: seq<(int, int)>)
    ensures |c| == 4
    ensures c[1] == (c[0].0 + 1, c[0].1) && c[2] == (c[0].0, c[0].1 + 1) && c[3] == (c[0].0 + 1, c[0].1 + 1)
    ensures c[0].0 as real <= x < c[3].0 as real && c[0].1 as real <= y < c[3].1 as real
  {
    var xMin, yMin := x.Floor, y.Floor;
    [(xMin, yMin), (xMin + 1, yMin), (xMin, yMin + 1), (xMin + 1, yMin + 1)]
  }

  /** The blend over the cell whose lower corner is (cx, cy): the two x-pairs
      with weight Smooth(x - cx), then the results with weight Smooth(y - cy).
      It is 0 at the lower corner, and within [-2, 2] for a point inside the
      cell. */
  function CellNoise(lat: Lattice, x: real, y: real, cx: int, cy: int): (r: real)
    requires Fits(lat)
    ensures x == cx as real && y == cy as real ==> r == 0.0
    ensures 0.0 <= x - cx as real <= 1.0 && 0.0 <= y - cy as real <= 1.0 ==> -2.0 <= r <= 2.0
  {
    var sx := Smooth(x - cx as real);
    var d0, d1 := CornerDot(lat, x, y, cx, cy), CornerDot(lat, x, y, cx + 1, cy);
    var d2, d3 := CornerDot(lat, x, y, cx, cy + 1), CornerDot(lat, x, y, cx + 1, cy + 1);
    CornerDotBounded(lat, x, y, cx, cy);
    CornerDotBounded(lat, x, y, cx + 1, cy);
    CornerDotBounded(lat, x, y, cx, cy + 1);
    CornerDotBounded(lat, x, y, cx + 1, cy + 1);
    BlendBounded(d0, d1, d2, d3, x - cx as real, y - cy as real, 2.0);
    Lerp(Lerp(d0, d1, sx), Lerp(d2, d3, sx), Smooth(y - cy as real))
  }

  /** `basic_noise(x, y)`: the blend over the cell that contains the point.
      It is not clamped, but it never leaves [-2, 2]. That bound is not tight:
      the code's own comment takes [-1, 1] as the range of one octave. */
  function NoiseAt(lat: Lattice, x: real, y: real): (r: real)
    requires Fits(lat)
    ensures -2.0 <= r <= 2.0
  {
    CellNoise(lat, x, y, x.Floor, y.Floor)
  }

  /** The blend over the four corner dot products, taken in the order of
      `Corners(x, y)` with weights from the fractional parts, is the noise. */
  lemma NoiseAtCorners(lat: Lattice, x: real, y: real, ds: seq<real>)
    requires Fits(lat) && |ds| == 4
    requires forall t :: 0 <= t < 4 ==> ds[t] == CornerDot(lat, x, y, Corners(x, y)[t].0, Corners(x, y)[t].1)
    ensures NoiseAt(lat, x, y) == Lerp(Lerp(ds[0], ds[1], Smooth(Frac(x))), Lerp(ds[2], ds[3], Smooth(Frac(x))), Smooth(Frac(y)))
  {
    var c := Corners(x, y);
    assert c[0] == (x.Floor, y.Floor);
    assert NoiseAt(lat, x, y) == CellNoise(lat, x, y, x.Floor, y.Floor);
  }

  /** At a lattice point the offset to the lower corner is zero and both
      weights are Smooth(0) = 0, so the noise is exactly 0. */
  lemma ZeroAtLattice(lat: Lattice, x: real, y: real)
    requires Fits(lat)
    requires x == x.Floor as real && y == y.Floor as real
    ensures NoiseAt(lat, x, y) == 0.0
  {
    assert NoiseAt(lat, x, y) == CellNoise(lat, x, y, x.Floor, y.Floor);
  }

  lemma FloorShift(x: real, n: int)
    ensures (x + n as real).Floor == x.Floor + n
  {
    var f := x.Floor + n;
    assert f as real <= x + n as real < f as real + 1.0;
  }

  lemma FloorOfInteger(n: int)
    ensures (n as real).Floor == n
  {
  }

  /** The noise at every integer point is 0. */
  lemma ZeroAtIntegers(lat: Lattice, i: int, j: int)
    requires Fits(lat)
    ensures NoiseAt(lat, i as real, j as real) == 0.0
  {
    FloorOfInteger(i);
    FloorOfInteger(j);
    ZeroAtLattice(lat, i as real, j as real);
  }

  /** Across the vertical cell boundary x = cx, the cell to the right and the
      cell to the left blend to the same value (Smooth(0) = 0, Smooth(1) = 1). */
  lemma ContinuousAcrossX(lat: Lattice, x: real, y: real, cx: int, cy: int)
    requires Fits(lat)
    requires x == cx as real
    ensures CellNoise(lat, x, y, cx, cy) == CellNoise(lat, x, y, cx - 1, cy)
  {
    assert x - (cx - 1) as real == 1.0;
  }

  /** The same across the horizontal boundary y = cy. */
  lemma ContinuousAcrossY(lat: Lattice, x: real, y: real, cx: int, cy: int)
    requires Fits(lat)
    requires y == cy as real
    ensures CellNoise(lat, x, y, cx, cy) == CellNoise(lat, x, y, cx, cy - 1)
  {
    assert y - (cy - 1) as real == 1.0;
  }

  /** Shifting a point and its corner by the length keeps the contribution. */
  lemma CornerShiftX(lat: Lattice, x: real, y: real, cx: int, cy: int)
    requires Fits(lat)
    ensures CornerDot(lat, x + lat.length as real, y, cx + lat.length, cy) == CornerDot(lat, x, y, cx, cy)
  {
    ModShift(cx, lat.length);
    assert GradientIndex(lat, cx + lat.length, cy) == GradientIndex(lat, cx, cy);
    assert (x + lat.length as real) - (cx + lat.length) as real == x - cx as real;
  }

  /** Shifting a point and its corner by the width keeps the contribution. */
  lemma CornerShiftY(lat: Lattice, x: real, y: real, cx: int, cy: int)
    requires Fits(lat)
    ensures CornerDot(lat, x, y + lat.width as real, cx, cy + lat.width) == CornerDot(lat, x, y, cx, cy)
  {
    ModShift(cy, lat.width);
    assert GradientIndex(lat, cx, cy + lat.width) == GradientIndex(lat, cx, cy);
    assert (y + lat.width as real) - (cy + lat.width) as real == y - cy as real;
  }

  /** The corner coordinates are wrapped by the extents, so the noise tiles:
      shifting x by the length or y by the width leaves it unchanged. */
  lemma PeriodicInX(lat: Lattice, x: real, y: real)
    requires Fits(lat)
    ensures NoiseAt(lat, x + lat.length as real, y) == NoiseAt(lat, x, y)
  {
    var l := lat.length;
    var x' := x + l as real;
    FloorShift(x, l);
    var cx, cy := x.Floor, y.Floor;
    CornerShiftX(lat, x, y, cx, cy);
    CornerShiftX(lat, x, y, cx + 1, cy);
    CornerShiftX(lat, x, y, cx, cy + 1);
    CornerShiftX(lat, x, y, cx + 1, cy + 1);
    assert x' - (cx + l) as real == x - cx as real;
  }

  lemma PeriodicInY(lat: Lattice, x: real, y: real)
    requires Fits(lat)
    ensures NoiseAt(lat, x, y + lat.width as real) == NoiseAt(lat, x, y)
  {
    var w := lat.width;
    var y' := y + w as real;
    FloorShift(y, w);
    var cx, cy := x.Floor, y.Floor;
    CornerShiftY(lat, x, y, cx, cy);
    CornerShiftY(lat, x, y, cx + 1, cy);
    CornerShiftY(lat, x, y, cx, cy + 1);
    CornerShiftY(lat, x, y, cx + 1, cy + 1);
    assert y' - (cy + w) as real == y - cy as real;
  }

  /** On a 1 x 1 grid the table is [0, 0], so every corner gets the gradient
      (1, 1) and its contribution is the sum of the two offsets. */
  lemma SingleCellDot(lat: Lattice, x: real, y: real, cx: int, cy: int)
    requires Fits(lat) && lat.width == 1 && lat.length == 1
    ensures CornerDot(lat, x, y, cx, cy) == (x - cx as real) + (y - cy as real)
  {
    assert lat.P[0] == 0;
    assert cx % 1 == 0 && cy % 1 == 0;
    assert GradientIndex(lat, cx, cy) == 0;
  }

  /** On a 1 x 1 grid the noise has the closed form
      (Frac(x) - Smooth(Frac(x))) + (Frac(y) - Smooth(Frac(y))). */
  lemma SingleCellNoise(lat: Lattice, x: real, y: real)
    requires Fits(lat) && lat.width == 1 && lat.length == 1
    ensures NoiseAt(lat, x, y) == (Frac(x) - Smooth(Frac(x))) + (Frac(y) - Smooth(Frac(y)))
  {
    var cx, cy := x.Floor, y.Floor;
    var fx, fy := x - cx as real, y - cy as real;
    SingleCellDot(lat, x, y, cx, cy);
    SingleCellDot(lat, x, y, cx + 1, cy);
    SingleCellDot(lat, x, y, cx, cy + 1);
    SingleCellDot(lat, x, y, cx + 1, cy + 1);
    var d := fx + fy;
    var sx, sy := Smooth(fx), Smooth(fy);
    LerpDownByOne(d, sx);
    LerpDownByOne(d - 1.0, sx);
    LerpDownByOne(d - sx, sy);
    assert NoiseAt(lat, x, y) == Lerp(Lerp(d, d - 1.0, sx), Lerp(d - 1.0, d - 2.0, sx), sy);
  }
}
