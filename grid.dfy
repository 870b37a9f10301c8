/** The numpy operations `complete_noise` applies to its 2-D array of samples:
    elementwise addition, the grid-wide maximum and minimum, and the min-max
    rescale to [-1, 1]. */
module Grid {

  type Grid = seq<seq<real>>

  /** A rows x cols rectangular grid. */
  predicate IsRect(g: Grid, rows: nat, cols: nat)
  {
    |g| == rows && forall i :: 0 <= i < rows ==> |g[i]| == cols
  }

  /** A grid with at least one cell in every row and at least one row. */
  predicate NonEmpty(g: Grid)
  {
    |g| > 0 && |g[0]| > 0 && IsRect(g, |g|, |g[0]|)
  }

  /** `np.add(a, b)` on two grids of the same shape. */
  function Add(a: Grid, b: Grid): (r: Grid)
    requires |a| == |b| && forall i :: 0 <= i < |a| ==> |a[i]| == |b[i]|
    ensures |r| == |a| && forall i :: 0 <= i < |r| ==> |r[i]| == |a[i]|
    ensures forall i, j :: 0 <= i < |r| && 0 <= j < |r[i]| ==> r[i][j] == a[i][j] + b[i][j]
  {
    seq(|a|, i requires 0 <= i < |a| => seq(|a[i]|, j requires 0 <= j < |a[i]| => a[i][j] + b[i][j]))
  }

  /** The largest entry of a non-empty row. */
  function RowMax(s: seq<real>): (m: real)
    requires |s| > 0
    ensures m in s
    ensures forall k :: 0 <= k < |s| ==> s[k] <= m
  {
    if |s| == 1 then s[0]
    else
      var rest := RowMax(s[1..]);
      if s[0] >= rest then s[0] else rest
  }

  /** The smallest entry of a non-empty row. */
  function RowMin(s: seq<real>): (m: real)
    requires |s| > 0
    ensures m in s
    ensures forall k :: 0 <= k < |s| ==> m <= s[k]
  {
    if |s| == 1 then s[0]
    else
      var rest := RowMin(s[1..]);
      if s[0] <= rest then s[0] else rest
  }

  /** `np.amax(g)`: an entry of the grid, no smaller than any entry. */
  function GridMax(g: Grid): (m: real)
    requires |g| > 0 && forall i :: 0 <= i < |g| ==> |g[i]| > 0
    ensures exists i :: 0 <= i < |g| && m in g[i]
    ensures forall i, j :: 0 <= i < |g| && 0 <= j < |g[i]| ==> g[i][j] <= m
  {
    var head := RowMax(g[0]);
    if |g| == 1 then head
    else
      var rest := GridMax(g[1..]);
      assert forall i :: 1 <= i < |g| ==> g[i] == g[1..][i - 1];
      if head >= rest then head else rest
  }

  /** `np.amin(g)`: an entry of the grid, no larger than any entry. */
  function GridMin(g: Grid): (m: real)
    requires |g| > 0 && forall i :: 0 <= i < |g| ==> |g[i]| > 0
    ensures exists i :: 0 <= i < |g| && m in g[i]
    ensures forall i, j :: 0 <= i < |g| && 0 <= j < |g[i]| ==> m <= g[i][j]
  {
    var head := RowMin(g[0]);
    if |g| == 1 then head
    else
      var rest := GridMin(g[1..]);
      assert forall i :: 1 <= i < |g| ==> g[i] == g[1..][i - 1];
      if head <= rest then head else rest
  }

  /** `((v - minVal) / (maxVal - minVal)) * 2 - 1` for one cell: it maps
      [lo, hi] onto [-1, 1], lo exactly to -1 and hi exactly to 1, and nothing
      else to either end. */
  function Rescale(v: real, lo: real, hi: real): (r: real)
    requires lo < hi
    ensures lo <= v <= hi ==> -1.0 <= r <= 1.0
    ensures r == -1.0 <==> v == lo
    ensures r == 1.0 <==> v == hi
  {
    var u := (v - lo) / (hi - lo);
    assert u * (hi - lo) == v - lo;
    u * 2.0 - 1.0
  }

  /** `(((np.array(g) - minVal) / (maxVal - minVal)) * 2) - 1`, elementwise. */
  function Normalize(g: Grid, lo: real, hi: real): (r: Grid)
    requires lo < hi
    ensures |r| == |g| && forall i :: 0 <= i < |r| ==> |r[i]| == |g[i]|
    ensures forall i, j :: 0 <= i < |r| && 0 <= j < |r[i]| ==> r[i][j] == Rescale(g[i][j], lo, hi)
  {
    seq(|g|, i requires 0 <= i < |g| => seq(|g[i]|, j requires 0 <= j < |g[i]| => Rescale(g[i][j], lo, hi)))
  }

  /** The stored result of `complete_noise`: a grid of numbers, or, when every
      accumulated sample is equal, the array of NaNs that numpy produces from
      0 / 0 in each of its rows x cols cells. */
  datatype Samples = Samples(cells: Grid) | NaNs(rows: nat, cols: nat)

  /** The min-max rescale against the grid's own extrema. The result is all
      NaN, in the grid's shape, exactly when the field is flat (minimum equal
      to maximum). Otherwise it keeps the shape, every cell lies in [-1, 1], a
      cell holding the minimum becomes exactly -1 and a cell holding the
      maximum exactly 1. */
  function NormalizeAgainstExtrema(g: Grid): (s: Samples)
    requires NonEmpty(g)
    ensures s.NaNs? <==> GridMin(g) == GridMax(g)
    ensures s.NaNs? ==> s == NaNs(|g|, |g[0]|)
    ensures s.Samples? ==> IsRect(s.cells, |g|, |g[0]|) && SpansUnitRange(s.cells)
  {
    var lo, hi := GridMin(g), GridMax(g);
    if lo == hi then NaNs(|g|, |g[0]|)
    else
      assert lo <= g[0][0] <= hi;
      NormalizeSpans(g, lo, hi);
      Samples(Normalize(g, lo, hi))
  }

  /** The closing step of `complete_noise`: `np.amax`, `np.amin`, then the
      rescale, which divides 0 by 0 in every cell when the two coincide. */
  method RescaleToUnitRange(acc: Grid) returns (s: Samples)
    requires NonEmpty(acc)
    ensures s == NormalizeAgainstExtrema(acc)
  {
    var maxVal := GridMax(acc);
    var minVal := GridMin(acc);
    if maxVal == minVal {
      s := NaNs(|acc|, |acc[0]|);
    } else {
      s := Samples(Normalize(acc, minVal, maxVal));
    }
  }

  /** All entries lie in [-1, 1] and both ends are attained. */
  predicate SpansUnitRange(g: Grid)
  {
    && (forall i, j :: 0 <= i < |g| && 0 <= j < |g[i]| ==> -1.0 <= g[i][j] <= 1.0)
    && (exists i, j :: 0 <= i < |g| && 0 <= j < |g[i]| && g[i][j] == -1.0)
    && (exists i, j :: 0 <= i < |g| && 0 <= j < |g[i]| && g[i][j] == 1.0)
  }

  /** The extrema coincide exactly when every cell holds the same value. */
  lemma FlatIffConstant(g: Grid)
    requires NonEmpty(g)
    ensures GridMin(g) == GridMax(g) <==>
            forall i, j :: 0 <= i < |g| && 0 <= j < |g[i]| ==> g[i][j] == g[0][0]
  {
    var lo, hi := GridMin(g), GridMax(g);
    if forall i, j :: 0 <= i < |g| && 0 <= j < |g[i]| ==> g[i][j] == g[0][0] {
      var i :| 0 <= i < |g| && lo in g[i];
      var j :| 0 <= j < |g[i]| && g[i][j] == lo;
      var i' :| 0 <= i' < |g| && hi in g[i'];
      var j' :| 0 <= j' < |g[i']| && g[i'][j'] == hi;
    }
  }

  /** A grid holding one value everywhere normalises to NaNs of its shape. */
  lemma ConstantIsFlat(g: Grid, c: real)
    requires NonEmpty(g)
    requires forall i, j :: 0 <= i < |g| && 0 <= j < |g[i]| ==> g[i][j] == c
    ensures NormalizeAgainstExtrema(g) == NaNs(|g|, |g[0]|)
  {
    FlatIffConstant(g);
  }

  /** Rescaling a grid whose cells lie in [lo, hi] leaves every cell in
      [-1, 1]. */
  lemma NormalizeBounded(g: Grid, lo: real, hi: real)
    requires lo < hi
    requires forall i, j :: 0 <= i < |g| && 0 <= j < |g[i]| ==> lo <= g[i][j] <= hi
    ensures forall i, j :: 0 <= i < |g| && 0 <= j < |g[i]| ==> -1.0 <= Normalize(g, lo, hi)[i][j] <= 1.0
  {
    forall i, j | 0 <= i < |g| && 0 <= j < |g[i]| ensures -1.0 <= Normalize(g, lo, hi)[i][j] <= 1.0 {
      assert Normalize(g, lo, hi)[i][j] == Rescale(g[i][j], lo, hi);
    }
  }

  /** A cell holding lo becomes -1 and a cell holding hi becomes 1. */
  lemma NormalizeEnds(g: Grid, lo: real, hi: real, i: int, j: int)
    requires lo < hi && 0 <= i < |g| && 0 <= j < |g[i]|
    ensures g[i][j] == lo ==> Normalize(g, lo, hi)[i][j] == -1.0
    ensures g[i][j] == hi ==> Normalize(g, lo, hi)[i][j] == 1.0
  {
    assert Normalize(g, lo, hi)[i][j] == Rescale(g[i][j], lo, hi);
  }

  /** Against a grid's own extrema lo < hi, the rescaled grid keeps the shape,
      stays in [-1, 1] and attains both ends. */
  lemma NormalizeSpans(g: Grid, lo: real, hi: real)
    requires NonEmpty(g) && lo == GridMin(g) && hi == GridMax(g) && lo < hi
    ensures IsRect(Normalize(g, lo, hi), |g|, |g[0]|)
    ensures SpansUnitRange(Normalize(g, lo, hi))
  {
    var r := Normalize(g, lo, hi);
    NormalizeBounded(g, lo, hi);
    var i :| 0 <= i < |g| && lo in g[i];
    var j :| 0 <= j < |g[i]| && g[i][j] == lo;
    NormalizeEnds(g, lo, hi, i, j);
    assert 0 <= i < |r| && 0 <= j < |r[i]| && r[i][j] == -1.0;
    var i' :| 0 <= i' < |g| && hi in g[i'];
    var j' :| 0 <= j' < |g[i']| && g[i'][j'] == hi;
    NormalizeEnds(g, lo, hi, i', j');
    assert 0 <= i' < |r| && 0 <= j' < |r[i']| && r[i'][j'] == 1.0;
  }
}
