/**
 The image work of `visualize_single_prediction`: the prediction mask cut from
 the model's output, the display image taken from the first three input
 channels with the channel axis moved last and min-max rescaled jointly, and
 the red overlay blended into it with `cv2.addWeighted`.
 */
module Composite {
  import opened Grids

  /**
   One display pixel. `imshow` reads the last axis as red, green, blue, so `r`
   is component 0, `g` component 1 and `b` component 2; taken from input
   channels 0, 1 and 2, which hold the standardised blue, green and red bands.
   */
  datatype Rgb = Rgb(r: real, g: real, b: real)

  /** Rows of pixels: an H x W x 3 array. */
  type Image = seq<seq<Rgb>>

  /** A probability strictly above this marks a pixel as water. */
  const Threshold: real := 0.5

  /** The paint colour `[1, 0, 0]` written over masked pixels. */
  const Red: Rgb := Rgb(1.0, 0.0, 0.0)

  /** Weight of the unpainted image in the blend. */
  const BaseWeight: real := 0.6

  /** Weight of the painted copy in the blend. */
  const PaintWeight: real := 0.4

  /** `a` and `b` have the same number of rows and each row the same length. */
  predicate SameShape<A, B>(a: seq<seq<A>>, b: seq<seq<B>>) {
    |a| == |b| && forall i :: 0 <= i < |a| ==> |a[i]| == |b[i]|
  }

  /** `outputs[0][0, 0]` exists: a first output with a first batch element with a first channel. */
  predicate HasProbabilityMap(outputs: seq<Tensor>) {
    |outputs| > 0 && |outputs[0]| > 0 && |outputs[0][0]| > 0
  }

  /**
   The prediction mask `outputs[0][0, 0] > 0.5`: same shape as the probability
   map, true exactly where the probability is strictly above one half.
   */
  function Binarize(outputs: seq<Tensor>): (m: Mask)
    requires HasProbabilityMap(outputs)
    ensures SameShape(m, outputs[0][0][0])
    ensures forall i, j :: 0 <= i < |m| && 0 <= j < |m[i]| ==> (m[i][j] <==> outputs[0][0][0][i][j] > Threshold)
  {
    var p := outputs[0][0][0];
    seq(|p|, i requires 0 <= i < |p| => seq(|p[i]|, j requires 0 <= j < |p[i]| => p[i][j] > Threshold))
  }

  /**
   The mask reads nothing but the first channel of the first batch element of
   the first output: two outputs that agree there give the same mask.
   */
  lemma {:induction false} BinarizeReadsFirstMapOnly(o1: seq<Tensor>, o2: seq<Tensor>)
    requires HasProbabilityMap(o1) && HasProbabilityMap(o2)
    requires o1[0][0][0] == o2[0][0][0]
    ensures Binarize(o1) == Binarize(o2)
  {
    var m1, m2 := Binarize(o1), Binarize(o2);
    assert |m1| == |m2|;
    forall i | 0 <= i < |m1| ensures m1[i] == m2[i] {
      assert |m1[i]| == |m2[i]|;
      forall j | 0 <= j < |m1[i]| ensures m1[i][j] == m2[i][j] {
      }
    }
  }

  /** The input holds channels 0, 1 and 2 of batch element 0, all of one non-empty shape. */
  predicate HasRgbChannels(input: Tensor) {
    && |input| > 0 && |input[0]| >= 3
    && IsImage(input[0][0])
    && IsShape(input[0][1], |input[0][0]|, |input[0][0][0]|)
    && IsShape(input[0][2], |input[0][0]|, |input[0][0][0]|)
  }

  /**
   `np.transpose(input[0, [0, 1, 2]], (1, 2, 0))`: the first three channels with
   the channel axis moved last, so pixel (i, j) gathers sample (i, j) of each.
   */
  function RgbOf(input: Tensor): (img: Image)
    requires HasRgbChannels(input)
    ensures IsShape(img, |input[0][0]|, |input[0][0][0]|)
    ensures forall i, j :: 0 <= i < |img| && 0 <= j < |img[i]| ==>
      img[i][j] == Rgb(input[0][0][i][j], input[0][1][i][j], input[0][2][i][j])
  {
    var h, w := |input[0][0]|, |input[0][0][0]|;
    seq(h, i requires 0 <= i < h => seq(w, j requires 0 <= j < w =>
      Rgb(input[0][0][i][j], input[0][1][i][j], input[0][2][i][j])))
  }

  /** Component `c` (0, 1 or 2) of a pixel. */
  function Component(p: Rgb, c: nat): real
    requires c < 3
  {
    if c == 0 then p.r else if c == 1 then p.g else p.b
  }

  /** Component `c` of every pixel: the channel-first plane `img[:, :, c]`. */
  function Plane(img: Image, c: nat): Grid
    requires c < 3
  {
    seq(|img|, i requires 0 <= i < |img| => seq(|img[i]|, j requires 0 <= j < |img[i]| => Component(img[i][j], c)))
  }

  /** Moving the channel axis last loses nothing: plane c of the image is input channel c. */
  lemma {:induction false} RgbOfRoundTrip(input: Tensor, c: nat)
    requires HasRgbChannels(input) && c < 3
    ensures Plane(RgbOf(input), c) == input[0][c]
  {
    var img, p, ch := RgbOf(input), Plane(RgbOf(input), c), input[0][c];
    assert |p| == |ch|;
    forall i | 0 <= i < |p| ensures p[i] == ch[i] {
      assert |p[i]| == |ch[i]|;
      forall j | 0 <= j < |p[i]| ensures p[i][j] == ch[i][j] {
        assert img[i][j] == Rgb(input[0][0][i][j], input[0][1][i][j], input[0][2][i][j]);
      }
    }
  }

  /** `x` is one of the three components of `p`. */
  predicate HasComponent(p: Rgb, x: real) {
    x == p.r || x == p.g || x == p.b
  }

  /** Every component of every pixel of a row, pixel by pixel. */
  function RowValues(row: seq<Rgb>): seq<real> {
    if |row| == 0 then [] else [row[0].r, row[0].g, row[0].b] + RowValues(row[1..])
  }

  /** Every component of every pixel of an image: what `rgb.min()` and `rgb.max()` range over. */
  function Values(img: Image): seq<real> {
    if |img| == 0 then [] else RowValues(img[0]) + Values(img[1..])
  }

  lemma {:induction false} RowValuesHasPixel(row: seq<Rgb>, j: nat)
    requires j < |row|
    ensures row[j].r in RowValues(row) && row[j].g in RowValues(row) && row[j].b in RowValues(row)
  {
    if j > 0 {
      RowValuesHasPixel(row[1..], j - 1);
    }
  }

  /** Each component of each pixel is among the image's values. */
  lemma {:induction false} ValuesHasPixel(img: Image, i: nat, j: nat)
    requires i < |img| && j < |img[i]|
    ensures img[i][j].r in Values(img) && img[i][j].g in Values(img) && img[i][j].b in Values(img)
  {
    if i == 0 {
      RowValuesHasPixel(img[0], j);
    } else {
      ValuesHasPixel(img[1..], i - 1, j);
    }
  }

  lemma {:induction false} RowValuesFromPixel(row: seq<Rgb>, x: real) returns (j: nat)
    requires x in RowValues(row)
    ensures j < |row| && HasComponent(row[j], x)
  {
    if x in [row[0].r, row[0].g, row[0].b] {
      j := 0;
    } else {
      var k := RowValuesFromPixel(row[1..], x);
      j := k + 1;
    }
  }

  /** Each of the image's values is a component of some pixel. */
  lemma {:induction false} ValuesFromPixel(img: Image, x: real) returns (i: nat, j: nat)
    requires x in Values(img)
    ensures i < |img| && j < |img[i]| && HasComponent(img[i][j], x)
  {
    if x in RowValues(img[0]) {
      i := 0;
      j := RowValuesFromPixel(img[0], x);
    } else {
      var k, l := ValuesFromPixel(img[1..], x);
      i, j := k + 1, l;
    }
  }

  /** The least component over all pixels and channels. */
  function JointMin(img: Image): real
    requires |Values(img)| > 0
  {
    MinOf(Values(img))
  }

  /** The greatest component over all pixels and channels. */
  function JointMax(img: Image): real
    requires |Values(img)| > 0
  {
    MaxOf(Values(img))
  }

  /** The image has samples and they are not all equal, so the joint rescale divides by a positive span. */
  predicate HasRange(img: Image) {
    |Values(img)| > 0 && JointMin(img) < JointMax(img)
  }

  /** Every component of every pixel lies in [0, 1]. */
  predicate InUnitRange(img: Image) {
    forall i, j :: 0 <= i < |img| && 0 <= j < |img[i]| ==>
      && 0.0 <= img[i][j].r <= 1.0
      && 0.0 <= img[i][j].g <= 1.0
      && 0.0 <= img[i][j].b <= 1.0
  }

  function RescalePixel(p: Rgb, lo: real, hi: real): Rgb
    requires lo < hi
  {
    Rgb((p.r - lo) / (hi - lo), (p.g - lo) / (hi - lo), (p.b - lo) / (hi - lo))
  }

  /**
   `(rgb - rgb.min()) / (rgb.max() - rgb.min())`, with the minimum and maximum
   taken jointly over all three components: every component lands in [0, 1],
   and some component becomes exactly 0 and some exactly 1.
   */
  function Rescale(img: Image): (out: Image)
    requires HasRange(img)
    ensures SameShape(out, img)
    ensures InUnitRange(out)
    ensures exists i, j :: 0 <= i < |out| && 0 <= j < |out[i]| && HasComponent(out[i][j], 0.0)
    ensures exists i, j :: 0 <= i < |out| && 0 <= j < |out[i]| && HasComponent(out[i][j], 1.0)
  {
    var lo, hi := JointMin(img), JointMax(img);
    var out := seq(|img|, i requires 0 <= i < |img| =>
      seq(|img[i]|, j requires 0 <= j < |img[i]| => RescalePixel(img[i][j], lo, hi)));
    RescaleBounds(img, out);
    RescaleHitsEnds(img, out);
    out
  }

  /** Pixel (i, j) of the rescaled image. */
  predicate IsRescaleOf(img: Image, out: Image)
    requires HasRange(img)
  {
    && SameShape(out, img)
    && forall i, j :: 0 <= i < |img| && 0 <= j < |img[i]| ==> out[i][j] == RescalePixel(img[i][j], JointMin(img), JointMax(img))
  }

  lemma DivUnit(x: real, d: real)
    requires 0.0 <= x <= d && d > 0.0
    ensures 0.0 <= x / d <= 1.0
  {
  }

  lemma RescalePixelBounds(p: Rgb, lo: real, hi: real)
    requires lo < hi
    requires lo <= p.r <= hi && lo <= p.g <= hi && lo <= p.b <= hi
    ensures var q := RescalePixel(p, lo, hi);
      0.0 <= q.r <= 1.0 && 0.0 <= q.g <= 1.0 && 0.0 <= q.b <= 1.0
  {
    DivUnit(p.r - lo, hi - lo);
    DivUnit(p.g - lo, hi - lo);
    DivUnit(p.b - lo, hi - lo);
  }

  lemma RescaleBounds(img: Image, out: Image)
    requires HasRange(img) && IsRescaleOf(img, out)
    ensures InUnitRange(out)
  {
    forall i, j | 0 <= i < |out| && 0 <= j < |out[i]|
      ensures 0.0 <= out[i][j].r <= 1.0 && 0.0 <= out[i][j].g <= 1.0 && 0.0 <= out[i][j].b <= 1.0
    {
      ValuesHasPixel(img, i, j);
      RescalePixelBounds(img[i][j], JointMin(img), JointMax(img));
    }
  }

  lemma RescalePixelKeepsComponent(p: Rgb, lo: real, hi: real, x: real)
    requires lo < hi && HasComponent(p, x)
    ensures HasComponent(RescalePixel(p, lo, hi), (x - lo) / (hi - lo))
  {
  }

  lemma RescaleEnds(lo: real, hi: real)
    requires lo < hi
    ensures (lo - lo) / (hi - lo) == 0.0
    ensures (hi - lo) / (hi - lo) == 1.0
  {
  }

  lemma RescaleHitsEnds(img: Image, out: Image)
    requires HasRange(img) && IsRescaleOf(img, out)
    ensures exists i, j :: 0 <= i < |out| && 0 <= j < |out[i]| && HasComponent(out[i][j], 0.0)
    ensures exists i, j :: 0 <= i < |out| && 0 <= j < |out[i]| && HasComponent(out[i][j], 1.0)
  {
    var lo, hi := JointMin(img), JointMax(img);
    RescaleEnds(lo, hi);
    var i, j := ValuesFromPixel(img, lo);
    RescalePixelKeepsComponent(img[i][j], lo, hi, lo);
    assert HasComponent(out[i][j], 0.0);
    var k, l := ValuesFromPixel(img, hi);
    RescalePixelKeepsComponent(img[k][l], lo, hi, hi);
    assert HasComponent(out[k][l], 1.0);
  }

  lemma Unscale(v: real, x: real, lo: real, hi: real)
    requires lo < hi && v == (x - lo) / (hi - lo)
    ensures lo + v * (hi - lo) == x
  {
  }

  /**
   The rescale is undone by `min + v * (max - min)`: pixel (i, j) of the
   rescaled image is the pixel rescaled by the joint extremes, and each of its
   components gives back the original one.
   */
  lemma RescaleInverse(img: Image, i: nat, j: nat)
    requires HasRange(img) && i < |img| && j < |img[i]|
    ensures Rescale(img)[i][j] == RescalePixel(img[i][j], JointMin(img), JointMax(img))
    ensures Unrescale(RescalePixel(img[i][j], JointMin(img), JointMax(img)), JointMin(img), JointMax(img)) == img[i][j]
  {
    RescalePixelInverse(img[i][j], JointMin(img), JointMax(img));
  }

  /** `min + v * (max - min)` on each component. */
  function Unrescale(q: Rgb, lo: real, hi: real): Rgb {
    Rgb(lo + q.r * (hi - lo), lo + q.g * (hi - lo), lo + q.b * (hi - lo))
  }

  lemma RescalePixelInverse(p: Rgb, lo: real, hi: real)
    requires lo < hi
    ensures Unrescale(RescalePixel(p, lo, hi), lo, hi) == p
  {
    var q := RescalePixel(p, lo, hi);
    Unscale(q.r, p.r, lo, hi);
    Unscale(q.g, p.g, lo, hi);
    Unscale(q.b, p.b, lo, hi);
  }

  /**
   After the rescale the joint minimum is 0 and the joint maximum is 1, so a
   second rescale would change nothing.
   */
  lemma {:induction false} RescaledExtremes(img: Image)
    requires HasRange(img)
    ensures |Values(Rescale(img))| > 0
    ensures JointMin(Rescale(img)) == 0.0
    ensures JointMax(Rescale(img)) == 1.0
  {
    var out := Rescale(img);
    var s := Values(out);
    var i, j :| 0 <= i < |out| && 0 <= j < |out[i]| && HasComponent(out[i][j], 0.0);
    ValuesHasPixel(out, i, j);
    var k, l :| 0 <= k < |out| && 0 <= l < |out[k]| && HasComponent(out[k][l], 1.0);
    ValuesHasPixel(out, k, l);
    forall x | x in s ensures 0.0 <= x <= 1.0 {
      var a, b := ValuesFromPixel(out, x);
    }
  }

  /** `overlay[mask] = [1, 0, 0]` on a copy: masked pixels turn red, the others stay as they were. */
  function Paint(img: Image, mask: Mask): (out: Image)
    requires SameShape(img, mask)
    ensures SameShape(out, img)
    ensures forall i, j :: 0 <= i < |img| && 0 <= j < |img[i]| && mask[i][j] ==> out[i][j] == Red
    ensures forall i, j :: 0 <= i < |img| && 0 <= j < |img[i]| && !mask[i][j] ==> out[i][j] == img[i][j]
  {
    seq(|img|, i requires 0 <= i < |img| =>
      seq(|img[i]|, j requires 0 <= j < |img[i]| => if mask[i][j] then Red else img[i][j]))
  }

  /** Painting twice with the same mask is painting once. */
  lemma {:induction false} PaintIdempotent(img: Image, mask: Mask)
    requires SameShape(img, mask)
    ensures Paint(Paint(img, mask), mask) == Paint(img, mask)
  {
    var once := Paint(img, mask);
    var twice := Paint(once, mask);
    assert |twice| == |once|;
    forall i | 0 <= i < |once| ensures twice[i] == once[i] {
      assert |twice[i]| == |once[i]|;
    }
  }

  /** One pixel of `cv2.addWeighted(a, 0.6, b, 0.4, 0)`. */
  function Mix(a: Rgb, b: Rgb): Rgb {
    Rgb(BaseWeight * a.r + PaintWeight * b.r, BaseWeight * a.g + PaintWeight * b.g, BaseWeight * a.b + PaintWeight * b.b)
  }

  /** The weights sum to one, so mixing a pixel with itself returns it. */
  lemma MixSelf(p: Rgb)
    ensures Mix(p, p) == p
  {
  }

  /** `cv2.addWeighted(a, 0.6, b, 0.4, 0)` over two images of one shape. */
  function Blend(a: Image, b: Image): (out: Image)
    requires SameShape(a, b)
    ensures SameShape(out, a)
    ensures forall i, j :: 0 <= i < |a| && 0 <= j < |a[i]| ==> out[i][j] == Mix(a[i][j], b[i][j])
  {
    seq(|a|, i requires 0 <= i < |a| => seq(|a[i]|, j requires 0 <= j < |a[i]| => Mix(a[i][j], b[i][j])))
  }

  /** Blending an image with itself returns it. */
  lemma {:induction false} BlendSelf(a: Image)
    ensures Blend(a, a) == a
  {
    var out := Blend(a, a);
    forall i | 0 <= i < |a| ensures out[i] == a[i] {
      forall j | 0 <= j < |a[i]| ensures out[i][j] == a[i][j] {
        MixSelf(a[i][j]);
      }
    }
  }

  /**
   The softened overlay `addWeighted(rgb, 0.6, painted, 0.4, 0)`: identical to the
   image off the mask; on the mask red becomes `0.6 r + 0.4` and green and blue
   are scaled by 0.6.
   */
  function Overlay(img: Image, mask: Mask): (out: Image)
    requires SameShape(img, mask)
    ensures SameShape(out, img)
    ensures forall i, j :: 0 <= i < |img| && 0 <= j < |img[i]| && !mask[i][j] ==> out[i][j] == img[i][j]
    ensures forall i, j :: 0 <= i < |img| && 0 <= j < |img[i]| && mask[i][j] ==>
      out[i][j] == Rgb(BaseWeight * img[i][j].r + PaintWeight, BaseWeight * img[i][j].g, BaseWeight * img[i][j].b)
  {
    var painted := Paint(img, mask);
    var out := Blend(img, painted);
    assert forall i, j :: 0 <= i < |img| && 0 <= j < |img[i]| && !mask[i][j] ==> out[i][j] == Mix(img[i][j], img[i][j]);
    forall i, j | 0 <= i < |img| && 0 <= j < |img[i]| && !mask[i][j] ensures out[i][j] == img[i][j] {
      MixSelf(img[i][j]);
    }
    out
  }

  /**
   On a masked pixel whose red component is at most 1 the overlay never lowers
   red, and raises it strictly when red was below 1; green and blue never rise
   when they were non-negative.
   */
  lemma OverlayTintsMasked(img: Image, mask: Mask, i: nat, j: nat)
    requires SameShape(img, mask)
    requires i < |img| && j < |img[i]| && mask[i][j]
    requires img[i][j].r <= 1.0
    ensures Overlay(img, mask)[i][j].r >= img[i][j].r
    ensures img[i][j].r < 1.0 ==> Overlay(img, mask)[i][j].r > img[i][j].r
    ensures img[i][j].g >= 0.0 ==> Overlay(img, mask)[i][j].g <= img[i][j].g
    ensures img[i][j].b >= 0.0 ==> Overlay(img, mask)[i][j].b <= img[i][j].b
  {
  }

  /** The overlay of an image within [0, 1] stays within [0, 1], as `imshow` expects of floats. */
  lemma OverlayKeepsUnitRange(img: Image, mask: Mask)
    requires SameShape(img, mask) && InUnitRange(img)
    ensures InUnitRange(Overlay(img, mask))
  {
    var out: Image := Overlay(img, mask);
    forall i, j | 0 <= i < |out| && 0 <= j < |out[i]|
      ensures 0.0 <= out[i][j].r <= 1.0 && 0.0 <= out[i][j].g <= 1.0 && 0.0 <= out[i][j].b <= 1.0
    {
      if mask[i][j] {
        assert out[i][j] == Rgb(BaseWeight * img[i][j].r + PaintWeight, BaseWeight * img[i][j].g, BaseWeight * img[i][j].b);
      } else {
        assert out[i][j] == img[i][j];
      }
    }
  }
}
