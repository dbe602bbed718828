/**
 Two-dimensional grids of samples: the raster bands, the feature channels, the
 model's probability map and the binary prediction mask. Samples are float32 in
 the program; here they are reals. A tensor is a batch of channel stacks, so a
 `Tensor` indexed `t[n][c][i][j]` is sample (i, j) of channel c of batch element n.
 */
module Grids {

  /** A row-major grid of samples. */
  type Grid = seq<seq<real>>

  /** A row-major grid of booleans. */
  type Mask = seq<seq<bool>>

  /** Batch, channel, row, column. */
  type Tensor = seq<seq<Grid>>

  /** `g` has exactly `h` rows of exactly `w` entries each. */
  predicate IsShape<T>(g: seq<seq<T>>, h: nat, w: nat) {
    |g| == h && forall i :: 0 <= i < h ==> |g[i]| == w
  }

  /** `g` is a rectangle with at least one row and one column. */
  predicate IsImage<T>(g: seq<seq<T>>) {
    |g| > 0 && |g[0]| > 0 && IsShape(g, |g|, |g[0]|)
  }

  /** Every sample of `g` equals `c`. */
  predicate IsConstant(g: Grid, c: real) {
    forall i, j :: 0 <= i < |g| && 0 <= j < |g[i]| ==> g[i][j] == c
  }

  /** The `h` by `w` grid of zeros. */
  function Zeros(h: nat, w: nat): (z: Grid)
    ensures IsShape(z, h, w) && IsConstant(z, 0.0)
  {
    seq(h, i => seq(w, j => 0.0))
  }

  /** Number of samples in `g`, row by row. */
  function Cells<T>(g: seq<seq<T>>): (n: nat)
    ensures |g| > 0 ==> n >= |g[0]|
  {
    if |g| == 0 then 0 else |g[0]| + Cells(g[1..])
  }

  function RowSum(row: seq<real>): real {
    if |row| == 0 then 0.0 else row[0] + RowSum(row[1..])
  }

  /** Sum of all samples of `g`. */
  function GridSum(g: Grid): real {
    if |g| == 0 then 0.0 else RowSum(g[0]) + GridSum(g[1..])
  }

  /** The spatial mean over the whole grid, as numpy's `mean` over both axes. */
  function Mean(g: Grid): real
    requires IsImage(g)
  {
    GridSum(g) / (Cells(g) as real)
  }

  /** A rectangle of `h` rows and `w` columns has `h * w` samples. */
  lemma {:induction false} CellsOfShape<T>(g: seq<seq<T>>, h: nat, w: nat)
    requires IsShape(g, h, w)
    ensures Cells(g) == h * w
  {
    if h > 0 {
      assert IsShape(g[1..], h - 1, w);
      CellsOfShape(g[1..], h - 1, w);
    }
  }

  /** `n` copies of `m` added up; the repeated sum keeps the sum lemmas linear. */
  function Times(n: nat, m: real): real {
    if n == 0 then 0.0 else m + Times(n - 1, m)
  }

  lemma {:induction false} TimesIsProduct(n: nat, m: real)
    ensures Times(n, m) == n as real * m
  {
    if n > 0 {
      TimesIsProduct(n - 1, m);
    }
  }

  lemma {:induction false} TimesAdd(a: nat, b: nat, m: real)
    ensures Times(a + b, m) == Times(a, m) + Times(b, m)
  {
    if a > 0 {
      TimesAdd(a - 1, b, m);
    }
  }

  /** Every sample moved by `-m`, as numpy's broadcast `g - m`. */
  function Shift(g: Grid, m: real): Grid {
    seq(|g|, i requires 0 <= i < |g| => seq(|g[i]|, j requires 0 <= j < |g[i]| => g[i][j] - m))
  }

  /** Every sample divided by `d`, as numpy's broadcast `g / d`. */
  function Scale(g: Grid, d: real): Grid
    requires d != 0.0
  {
    seq(|g|, i requires 0 <= i < |g| => seq(|g[i]|, j requires 0 <= j < |g[i]| => g[i][j] / d))
  }

  lemma {:induction false} RowSumShift(row: seq<real>, m: real)
    ensures RowSum(seq(|row|, j requires 0 <= j < |row| => row[j] - m)) == RowSum(row) - Times(|row|, m)
  {
    var s := seq(|row|, j requires 0 <= j < |row| => row[j] - m);
    if |row| > 0 {
      RowSumShift(row[1..], m);
      assert s[1..] == seq(|row[1..]|, j requires 0 <= j < |row[1..]| => row[1..][j] - m);
    }
  }

  /** Shifting every sample by `-m` lowers the sum by `m` once per sample. */
  lemma {:induction false} GridSumShift(g: Grid, m: real)
    ensures GridSum(Shift(g, m)) == GridSum(g) - Times(Cells(g), m)
  {
    if |g| > 0 {
      var s := Shift(g, m);
      assert s[1..] == Shift(g[1..], m);
      RowSumShift(g[0], m);
      GridSumShift(g[1..], m);
      TimesAdd(|g[0]|, Cells(g[1..]), m);
    }
  }

  lemma DivAdd(a: real, b: real, d: real)
    requires d != 0.0
    ensures a / d + b / d == (a + b) / d
  {
  }

  lemma {:induction false} RowSumScale(row: seq<real>, d: real)
    requires d != 0.0
    ensures RowSum(seq(|row|, j requires 0 <= j < |row| => row[j] / d)) == RowSum(row) / d
  {
    var s := seq(|row|, j requires 0 <= j < |row| => row[j] / d);
    if |row| > 0 {
      RowSumScale(row[1..], d);
      assert s[1..] == seq(|row[1..]|, j requires 0 <= j < |row[1..]| => row[1..][j] / d);
      DivAdd(row[0], RowSum(row[1..]), d);
    }
  }

  /** Dividing every sample by `d` divides the sum by `d`. */
  lemma {:induction false} GridSumScale(g: Grid, d: real)
    requires d != 0.0
    ensures GridSum(Scale(g, d)) == GridSum(g) / d
  {
    if |g| > 0 {
      var s := Scale(g, d);
      assert s[1..] == Scale(g[1..], d);
      RowSumScale(g[0], d);
      GridSumScale(g[1..], d);
      DivAdd(RowSum(g[0]), GridSum(g[1..]), d);
    }
  }

  lemma {:induction false} RowSumConstant(row: seq<real>, c: real)
    requires forall j :: 0 <= j < |row| ==> row[j] == c
    ensures RowSum(row) == Times(|row|, c)
  {
    if |row| > 0 {
      RowSumConstant(row[1..], c);
    }
  }

  /** Summing a constant grid adds the constant once per sample. */
  lemma {:induction false} GridSumConstant(g: Grid, c: real)
    requires IsConstant(g, c)
    ensures GridSum(g) == Times(Cells(g), c)
  {
    if |g| > 0 {
      RowSumConstant(g[0], c);
      assert IsConstant(g[1..], c) by {
        forall i, j | 0 <= i < |g[1..]| && 0 <= j < |g[1..][i]|
          ensures g[1..][i][j] == c
        {
          assert g[1..][i] == g[i + 1];
        }
      }
      GridSumConstant(g[1..], c);
      TimesAdd(|g[0]|, Cells(g[1..]), c);
    }
  }

  /** The mean of a constant grid is that constant. */
  lemma MeanConstant(g: Grid, c: real)
    requires IsImage(g) && IsConstant(g, c)
    ensures Mean(g) == c
  {
    GridSumConstant(g, c);
    TimesIsProduct(Cells(g), c);
  }

  /** Moving every sample by the grid's own mean leaves a grid that sums to zero. */
  lemma CentredSumsToZero(g: Grid)
    requires IsImage(g)
    ensures GridSum(Shift(g, Mean(g))) == 0.0
  {
    GridSumShift(g, Mean(g));
    TimesIsProduct(Cells(g), Mean(g));
  }

  /** The least element of a non-empty sequence, as numpy's `min`. */
  function MinOf(s: seq<real>): (m: real)
    requires |s| > 0
    ensures m in s
    ensures forall x :: x in s ==> m <= x
  {
    if |s| == 1 then s[0]
    else
      var rest := MinOf(s[1..]);
      assert forall x :: x in s ==> x == s[0] || x in s[1..];
      if s[0] <= rest then s[0] else rest
  }

  /** The greatest element of a non-empty sequence, as numpy's `max`. */
  function MaxOf(s: seq<real>): (m: real)
    requires |s| > 0
    ensures m in s
    ensures forall x :: x in s ==> x <= m
  {
    if |s| == 1 then s[0]
    else
      var rest := MaxOf(s[1..]);
      assert forall x :: x in s ==> x == s[0] || x in s[1..];
      if s[0] >= rest then s[0] else rest
  }
}
