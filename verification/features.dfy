/**
 The feature builder of `preprocess_9ch_for_inference`: six raw bands picked from
 a band-major raster, three spectral indices (NDWI, MNDWI, AWEI), the nine
 channels stacked in the order the model was trained on, each channel centred
 on its own spatial mean and divided by its own standard deviation plus 1e-7,
 each resized on its own to 128 x 128, and a batch dimension of one put in front.

 Reading the raster, the standard deviation (its square root in particular) and
 the interpolation of `cv2.resize` are not modelled: the deviation and the
 resize are parameters of `Preprocess`, constrained only by their types.
 */
module Features {
  import opened Grids

  /** The stabilising constant 1e-7 added to every denominator. */
  const Eps: real := 0.0000001

  /** Side length of the square the model expects. */
  const Side: nat := 128

  /** Number of channels handed to the model. */
  const ChannelCount: nat := 9

  /** 0-based positions of blue, green, red, band 8, band 11 and band 12 in the stack. */
  const RawBands: seq<nat> := [1, 2, 3, 7, 10, 11]

  /** A standard deviation is never negative. */
  type NonNeg = x: real | x >= 0.0

  /** What `cv2.resize(ch, (128, 128))` returns: a 128 x 128 grid. */
  type Grid128 = g: Grid | IsShape(g, Side, Side) witness Zeros(Side, Side)

  /** A decoded raster: bands that all share one non-empty shape. */
  predicate IsRaster(img: seq<Grid>) {
    && |img| > 0
    && IsImage(img[0])
    && forall b :: 0 <= b < |img| ==> IsShape(img[b], |img[0]|, |img[0][0]|)
  }

  /**
   The normalized difference `(a - b) / (a + b + 1e-7)` behind NDWI and MNDWI.
   Defined whenever the denominator is not zero, so in particular for all
   non-negative reflectances; there it lies strictly between -1 and 1.
   */
  function NormDiff(a: real, b: real): (r: real)
    requires a + b + Eps != 0.0
    ensures a == b ==> r == 0.0
    ensures a >= 0.0 && b >= 0.0 ==> -1.0 < r < 1.0
    ensures r == 0.0 ==> a == b
  {
    (a - b) / (a + b + Eps)
  }

  /** Swapping the two bands negates a normalized difference. */
  lemma NormDiffAntisymmetric(a: real, b: real)
    requires a + b + Eps != 0.0
    ensures NormDiff(b, a) == -NormDiff(a, b)
  {
  }

  /** The automated water extraction index `4 (green - b11) - (0.25 b8 + 2.75 b11)`; no division. */
  function Awei(green: real, b8: real, b11: real): real {
    4.0 * (green - b11) - (0.25 * b8 + 2.75 * b11)
  }

  /**
   AWEI is the linear form `4 green - 0.25 b8 - 6.75 b11`: it grows with green
   and falls with band 8 and band 11.
   */
  lemma AweiLinear(green: real, b8: real, b11: real, dg: real, d8: real, d11: real)
    requires dg >= 0.0 && d8 >= 0.0 && d11 >= 0.0
    ensures Awei(green, b8, b11) == 4.0 * green - 0.25 * b8 - 6.75 * b11
    ensures Awei(green + dg, b8 - d8, b11 - d11) >= Awei(green, b8, b11)
  {
  }

  /** No pixel makes an index denominator vanish (float32 would give inf or NaN there). */
  predicate IndicesDefined(img: seq<Grid>)
    requires |img| >= 12 && IsRaster(img)
  {
    forall i, j :: 0 <= i < |img[0]| && 0 <= j < |img[0][0]| ==>
      && img[2][i][j] + img[7][i][j] + Eps != 0.0
      && img[2][i][j] + img[10][i][j] + Eps != 0.0
  }

  /** The pixelwise normalized difference of two grids of one shape. */
  function NormDiffGrid(a: Grid, b: Grid): (r: Grid)
    requires IsImage(a) && IsShape(b, |a|, |a[0]|)
    requires forall i, j :: 0 <= i < |a| && 0 <= j < |a[0]| ==> a[i][j] + b[i][j] + Eps != 0.0
    ensures IsShape(r, |a|, |a[0]|)
    ensures forall i, j :: 0 <= i < |a| && 0 <= j < |a[0]| ==> r[i][j] == NormDiff(a[i][j], b[i][j])
  {
    seq(|a|, i requires 0 <= i < |a| =>
      seq(|a[0]|, j requires 0 <= j < |a[0]| => NormDiff(a[i][j], b[i][j])))
  }

  /** The pixelwise AWEI of three grids of one shape. */
  function AweiGrid(green: Grid, b8: Grid, b11: Grid): (r: Grid)
    requires IsImage(green) && IsShape(b8, |green|, |green[0]|) && IsShape(b11, |green|, |green[0]|)
    ensures IsShape(r, |green|, |green[0]|)
    ensures forall i, j :: 0 <= i < |green| && 0 <= j < |green[0]| ==>
      r[i][j] == Awei(green[i][j], b8[i][j], b11[i][j])
  {
    seq(|green|, i requires 0 <= i < |green| =>
      seq(|green[0]|, j requires 0 <= j < |green[0]| => Awei(green[i][j], b8[i][j], b11[i][j])))
  }

  /**
   The nine channels before standardisation, in training order:
   blue, green, red, band 8, band 11, band 12, NDWI, MNDWI, AWEI.
   Raw bands are read at 0-based stack positions 1, 2, 3, 7, 10 and 11, so the
   stack needs at least twelve bands.
   */
  function Stack(img: seq<Grid>): (f: seq<Grid>)
    requires |img| >= 12 && IsRaster(img) && IndicesDefined(img)
    ensures |f| == ChannelCount
    ensures f[..6] == [img[1], img[2], img[3], img[7], img[10], img[11]]
    ensures forall k :: 0 <= k < |f| ==> IsShape(f[k], |img[0]|, |img[0][0]|)
    ensures IsShape(f[6], |img[0]|, |img[0][0]|) && IsShape(f[7], |img[0]|, |img[0][0]|)
    ensures IsShape(f[8], |img[0]|, |img[0][0]|)
    ensures forall i, j :: 0 <= i < |img[0]| && 0 <= j < |img[0][0]| ==>
      && f[6][i][j] == NormDiff(img[2][i][j], img[7][i][j])
      && f[7][i][j] == NormDiff(img[2][i][j], img[10][i][j])
      && f[8][i][j] == Awei(img[2][i][j], img[7][i][j], img[10][i][j])
  {
    var raw := seq(|RawBands|, k requires 0 <= k < |RawBands| => img[RawBands[k]]);
    var green, band8, band11 := img[2], img[7], img[10];
    var ndwi := NormDiffGrid(green, band8);
    var mndwi := NormDiffGrid(green, band11);
    var awei := AweiGrid(green, band8, band11);
    raw + [ndwi, mndwi, awei]
  }

  /**
   Per-channel standardisation: subtract the channel's own mean and divide by
   `sd + 1e-7`, where `sd` is its standard deviation. The result has mean zero,
   is undone by multiplying back and adding the mean, and a constant channel
   comes out all zeros.
   */
  function Standardize(g: Grid, sd: NonNeg): (r: Grid)
    requires IsImage(g)
    ensures IsShape(r, |g|, |g[0]|)
    ensures Mean(r) == 0.0
    ensures forall i, j :: 0 <= i < |g| && 0 <= j < |g[i]| ==> r[i][j] * (sd + Eps) + Mean(g) == g[i][j]
    ensures forall c :: IsConstant(g, c) ==> IsConstant(r, 0.0)
  {
    var m, d := Mean(g), sd + Eps;
    CentreScaleMeanZero(g, d);
    CentreScaleConstant(g, d);
    Scale(Shift(g, m), d)
  }

  /** Centring on the mean and dividing by a positive `d` leaves a rectangle of mean zero. */
  lemma CentreScaleMeanZero(g: Grid, d: real)
    requires IsImage(g) && d > 0.0
    ensures IsShape(Scale(Shift(g, Mean(g)), d), |g|, |g[0]|)
    ensures Mean(Scale(Shift(g, Mean(g)), d)) == 0.0
  {
    CentredSumsToZero(g);
    GridSumScale(Shift(g, Mean(g)), d);
  }

  /** Centring a constant grid on its mean gives zeros, whatever `d` divides them. */
  lemma CentreScaleConstant(g: Grid, d: real)
    requires IsImage(g) && d > 0.0
    ensures forall c :: IsConstant(g, c) ==> IsConstant(Scale(Shift(g, Mean(g)), d), 0.0)
  {
    forall c | IsConstant(g, c) ensures IsConstant(Scale(Shift(g, Mean(g)), d), 0.0) {
      MeanConstant(g, c);
    }
  }

  /**
   The model input built from a raster: one batch element holding nine 128 x 128
   channels, channel k being the resize of the standardised k-th stacked channel.
   `std` stands for numpy's population standard deviation over a channel and
   `resize` for `cv2.resize` to 128 x 128, applied to each channel separately.
   */
  function Preprocess(img: seq<Grid>, std: Grid -> NonNeg, resize: Grid -> Grid128): (t: Tensor)
    requires |img| >= 12 && IsRaster(img) && IndicesDefined(img)
    ensures |t| == 1 && |t[0]| == ChannelCount
    ensures forall k :: 0 <= k < ChannelCount ==> IsShape(t[0][k], Side, Side)
    ensures forall k :: 0 <= k < ChannelCount ==>
      var ch := Stack(img)[k]; t[0][k] == resize(Standardize(ch, std(ch)))
  {
    var f := Stack(img);
    var chans := seq(ChannelCount, k requires 0 <= k < ChannelCount => resize(Standardize(f[k], std(f[k]))));
    [chans]
  }

  /**
   A raster whose green band and band 8 are constant has a constant NDWI
   channel `NormDiff(green, band 8)`, which standardises to all zeros whatever
   the deviation function reports.
   */
  lemma ConstantBandsGiveZeroNdwi(img: seq<Grid>, std: Grid -> NonNeg, green: real, nir: real)
    requires |img| >= 12 && IsRaster(img) && IndicesDefined(img)
    requires IsConstant(img[2], green) && IsConstant(img[7], nir)
    ensures green + nir + Eps != 0.0
    ensures IsConstant(Stack(img)[6], NormDiff(green, nir))
    ensures var ch := Stack(img)[6]; IsConstant(Standardize(ch, std(ch)), 0.0)
  {
    var f := Stack(img);
    assert img[2][0][0] + img[7][0][0] + Eps != 0.0;
    assert IsConstant(f[6], NormDiff(green, nir)) by {
      forall i, j | 0 <= i < |f[6]| && 0 <= j < |f[6][i]|
        ensures f[6][i][j] == NormDiff(green, nir)
      {
        assert f[6][i][j] == NormDiff(img[2][i][j], img[7][i][j]);
      }
    }
  }
}
