# Water-segmentation inference core, modelled in Dafny

The program turns a multispectral satellite raster into a water mask and a
picture of that mask. `preprocess_9ch_for_inference` builds the model input:
- It picks six raw bands: blue, green, red, band 8, band 11 and band 12.
- It computes three water indices: NDWI, MNDWI and AWEI.
- It stacks the nine channels in training order.
- It standardises each channel on its own spatial mean and standard deviation.
- It resizes each channel to 128 x 128 and adds a batch dimension of one.

`visualize_single_prediction` runs the segmentation model and composes a figure:
- It thresholds the first probability map at 0.5 to get the mask.
- It rescales the first three input channels jointly to [0, 1] to get an RGB image.
- It paints the mask red and blends the painted copy with the image.
- It looks for a ground-truth label at `data/labels/<stem>.png`.
- It lays out three or four panels.
- It returns the figure as a `data:image/png;base64,` URI, together with the mask.

The model is over Dafny `real` numbers, standing in for the program's float32. It has four modules:

- `Grids` (`grids.dfy`): grids, masks and tensors as nested sequences. It also holds sums and the spatial mean, with the facts about the mean that standardisation needs, and the least and greatest element of a sequence of values. `Composite.JointMin` and `Composite.JointMax` apply these to all three channels together.
- `Features` (`features.dfy`): the feature builder, from band selection to the 1 x 9 x 128 x 128 tensor.
- `Composite` (`composite.dfy`): the mask, the RGB image, the joint min-max rescale, the red paint and the 0.6 / 0.4 blend.
- `Report` (`report.dfy`): the label path, in the sense of POSIX `os.path.basename` and `os.path.splitext`. It also holds the panel layout, the data URI, and `Visualize`, which puts the pieces together.

Some parts of the program are parameters of the model and are constrained only by their types:
- the standard deviation, which is a non-negative real;
- `cv2.resize`, whose result is a 128 x 128 grid;
- the model's outputs;
- the label lookup, which gives an image or nothing;
- the figure renderer and base64 encoder, which give an opaque string.

## Model

| member | source | states |
|---|---|---|
| Features.Stack | utils/inference.py:11-16 | The nine channels are exactly bands 1, 2, 3, 7, 10 and 11 of the raster, then NDWI(green, band 8), MNDWI(green, band 11) and AWEI pixelwise. They all have the raster's shape, and the raster needs at least twelve bands. |
| Features.NormDiff | utils/inference.py:13-14 | The normalized difference is zero exactly when the two bands are equal. For non-negative reflectances it lies strictly between -1 and 1. |
| Features.NormDiffAntisymmetric | utils/inference.py:13-14 | Swapping the two bands negates NDWI or MNDWI. |
| Features.NormDiffGrid | utils/inference.py:13-14 | The index grid has the bands' shape and, at every pixel, the normalized difference of that pixel's two values. |
| Features.AweiLinear | utils/inference.py:15 | AWEI is the division-free linear form 4 green - 0.25 b8 - 6.75 b11. It does not fall when green rises or when band 8 or band 11 fall. |
| Features.AweiGrid | utils/inference.py:15 | The AWEI grid has the bands' shape and, at every pixel, the AWEI of that pixel's values. |
| Features.Standardize | utils/inference.py:17-18 | A standardised channel keeps its shape and has mean zero. Multiplying by std + 1e-7 and adding the old mean gives back every sample. A constant channel becomes all zeros. |
| Features.ConstantBandsGiveZeroNdwi | utils/inference.py:13-18 | If green and band 8 are constant, NDWI is the constant NormDiff(green, band 8), and its standardised channel is all zeros whatever the deviation. |
| Features.Preprocess | utils/inference.py:7-20 | The model input has one batch element of nine 128 x 128 channels. Channel k is the resize of stacked channel k after standardisation with that channel's own deviation. |
| Grids.CentredSumsToZero | utils/inference.py:17 | A channel minus its own mean sums to zero. |
| Grids.MeanConstant | utils/inference.py:17 | The mean of a constant channel is that constant. |
| Grids.MinOf | utils/inference.py:30 | `min` returns an element of the values that is no greater than any of them. |
| Grids.MaxOf | utils/inference.py:30 | `max` returns an element of the values that is no smaller than any of them. |
| Composite.Binarize | utils/inference.py:25-26 | The mask has the shape of `outputs[0][0, 0]` and is true exactly where that probability is strictly above 0.5. |
| Composite.BinarizeReadsFirstMapOnly | utils/inference.py:25-26 | Two outputs that agree on their first probability map give the same mask, whatever else they hold. |
| Composite.RgbOf | utils/inference.py:28-29 | The RGB image has the shape of input channel 0. Pixel (i, j) gathers sample (i, j) of channels 0, 1 and 2, in that order. |
| Composite.RgbOfRoundTrip | utils/inference.py:28-29 | Taking component c of every pixel of the transposed image gives back input channel c, so the transpose loses nothing. |
| Composite.Rescale | utils/inference.py:30 | When the input's values are not all equal, the rescaled image keeps the shape, every component lies in [0, 1], and some component is 0 and some is 1. |
| Composite.RescaledExtremes | utils/inference.py:30 | After the rescale, the joint minimum over all three channels is exactly 0 and the joint maximum is exactly 1. |
| Composite.RescaleInverse | utils/inference.py:30 | Each rescaled pixel is (p - min) / (max - min), taken componentwise with the joint min and max. Multiplying back and adding the minimum recovers the original pixel. |
| Composite.RescalePixelInverse | utils/inference.py:30 | Undoing the rescale of one pixel with the same min and max gives back that pixel. |
| Composite.Paint | utils/inference.py:33-34 | Masked pixels become exactly (1, 0, 0) and unmasked pixels are unchanged. |
| Composite.PaintIdempotent | utils/inference.py:33-34 | Painting an already painted copy changes nothing. |
| Composite.MixSelf | utils/inference.py:35 | The weights 0.6 and 0.4 add to one, so blending a pixel with itself gives back that pixel. |
| Composite.Blend | utils/inference.py:35 | The blend keeps the shape and is, pixel by pixel, 0.6 times the first image plus 0.4 times the second, with gamma 0. |
| Composite.BlendSelf | utils/inference.py:35 | Blending an image with itself gives back the image. |
| Composite.Overlay | utils/inference.py:33-35 | The overlay keeps the shape and equals the image wherever the mask is false. Where it is true, the pixel is (0.6 r + 0.4, 0.6 g, 0.6 b). |
| Composite.OverlayTintsMasked | utils/inference.py:33-35 | For a masked pixel with red at most 1, red does not fall, and it rises strictly when it was below 1. Non-negative green and blue do not rise. |
| Composite.OverlayKeepsUnitRange | utils/inference.py:30-35 | An image in [0, 1] gives an overlay in [0, 1]. |
| Report.LastIndexOf | utils/inference.py:38 | The result is -1 or the position of a `c`, and no `c` comes after it. |
| Report.Basename | utils/inference.py:38 | The basename holds no slash. It is a tail of the path that is either the whole path or follows a slash. |
| Report.BasenameOfJoin | utils/inference.py:38 | The basename of `dir/name`, for a slash-free name, is the name, whatever the directory. |
| Report.Stem | utils/inference.py:38 | The stem is a prefix of the name. Anything cut off is a dot followed by dot-free text, after a stem that is not all dots. |
| Report.StemOfPlainName | utils/inference.py:38 | A name with no dot is its own stem. |
| Report.StemOfDotfile | utils/inference.py:38 | A leading-dot name such as `.tif` has no extension to split off. |
| Report.StemDropsExtension | utils/inference.py:38 | The stem of `s.ext`, for dot-free `ext` and `s` not all dots, is `s`. |
| Report.TruthPath | utils/inference.py:38-39 | The label path starts with `data/labels/` and ends with `.png`, and the part between holds no slash. |
| Report.TruthPathOfRaster | utils/inference.py:38-39 | A raster whose file name is `s.ext` has its label at `data/labels/s.png`, with or without a directory in front. |
| Report.TruthPathIgnoresDirectory | utils/inference.py:38-39 | A raster at `dir/name` has the same label path as a raster at the bare `name`. |
| Report.Layout | utils/inference.py:45-64 | There are four panels with ground truth and three without. The order is RGB, overlay, ground truth only in third place, and the mask always last. |
| Report.LayoutWithoutTruth | utils/inference.py:45-64 | Dropping the third panel of the four-panel figure gives the three-panel figure. |
| Report.DataUri | utils/inference.py:73 | The result starts with `data:image/png;base64,` and what follows the prefix is exactly the payload. |
| Report.DataUriOfPayload | utils/inference.py:73 | Every string with the prefix is the URI of its own payload. |
| Report.MaskFitsImage | utils/inference.py:26-34 | The mask has the shape of the rescaled RGB image, so the boolean index in the paint step is defined. |
| Report.Figure | utils/inference.py:28-64 | The figure shows, in order, the rescaled RGB image, its overlay with the mask, the resized label when one is found at the label path, and the mask. |
| Report.Visualize | utils/inference.py:22-73 | The first result is the data URI of the rendered figure. The second is a mask of the probability map's shape, true exactly where the probability exceeds 0.5. |
| Report.PreprocessFeedsVisualize | utils/inference.py:23-29 | The tensor the feature builder produces always has the three 128 x 128 channels the compositor reads. |

## Behaviour worth knowing

- Zero mean is stated before the resize only. The resize is a parameter, and the model says nothing about the mean after it.
- `input[0, [0, 1, 2]]` holds the standardised blue, green and red bands, in that order. The display treats position 0 as red, so the "RGB" panel shows blue in its red component. `Composite.RgbOf` keeps this order exactly as the code has it.
- The joint rescale is over the standardised and resized values, not over raw reflectances.
- The code raises no error of its own. A raster with fewer than twelve bands, or a probability map whose shape differs from the RGB image's, fails inside numpy's indexing. The model follows the code: the conditions are preconditions (`|img| >= 12` on `Features.Stack`, `Report.CanVisualize`), and no error types are invented.

## Left out

- Reading the raster, `cv2.imread` and `os.path.exists`: these are I/O. The label lookup is the parameter `labels`, which gives `None` when the file is missing or unreadable.
- The inference call `model_session.run`: it is an external model. Its outputs are an input of `Report.Visualize`.
- `cv2.resize` interpolation: it is a parameter with a 128 x 128 result.
- `std`, including its square root: it is a parameter with a non-negative result. The model does not check that it really is the standard deviation.
- matplotlib rendering, PNG encoding and base64: together they are the parameter `render`, which returns an opaque payload.
- Panel titles, colours, font sizes, figure size and dpi: these are cosmetic.
- float32 rounding, inf and NaN: the model uses real arithmetic. A zero index denominator (`Features.IndicesDefined`) and a constant RGB input (`Composite.HasRange`) are preconditions. In the program they silently produce inf or NaN.
- `os.path` on Windows: only the POSIX separator `/` is modelled.
