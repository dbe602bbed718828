/**
 The rest of `visualize_single_prediction`: where the ground-truth label of a
 raster is looked for, which panels the figure shows and in what order, and
 the `data:` URI the encoded figure is returned in, next to the mask.

 The file system, the PNG decoder, `cv2.resize` of the label, matplotlib's
 rendering and base64 are parameters: `labels` answers what reading a path as
 a grayscale image gives (nothing when the file is absent or unreadable),
 `resizeTruth` stands for the resize to 128 x 128, and `render` for drawing the
 panels and encoding the PNG as base64 text.
 */
module Report {
  import opened Grids
  import opened Composite
  import Features

  datatype Option<+T> = None | Some(value: T)

  /** Directory the label of a raster is looked for in, `os.path.join("data", "labels", ...)`. */
  const LabelsDir: string := "data/labels/"

  /** Extension of a label file. */
  const LabelExt: string := ".png"

  /** What precedes the base64 payload in the returned string. */
  const UriPrefix: string := "data:image/png;base64,"

  /** Position of the last `c` in `s`, or -1 when `s` has none (Python's `str.rfind`). */
  function LastIndexOf(s: string, c: char): (k: int)
    ensures -1 <= k < |s|
    ensures k >= 0 ==> s[k] == c
    ensures forall i :: k < i < |s| ==> s[i] != c
  {
    if |s| == 0 then -1
    else if s[|s| - 1] == c then |s| - 1
    else LastIndexOf(s[..|s| - 1], c)
  }

  /**
   `os.path.basename` on a POSIX path: the longest slash-free tail of the path,
   which is all of it or follows a slash.
   */
  function Basename(path: string): (name: string)
    ensures '/' !in name
    ensures |name| <= |path| && path[|path| - |name|..] == name
    ensures |name| < |path| ==> path[|path| - |name| - 1] == '/'
  {
    path[LastIndexOf(path, '/') + 1..]
  }

  /** Joining a directory and a slash-free file name and taking the basename gives back the name. */
  lemma BasenameOfJoin(dir: string, name: string)
    requires '/' !in name
    ensures Basename(dir + "/" + name) == name
  {
    var p := dir + "/" + name;
    assert p[|dir|] == '/';
    assert forall i :: |dir| < i < |p| ==> p[i] == name[i - |dir| - 1];
    assert LastIndexOf(p, '/') == |dir|;
    assert p[|dir| + 1..] == name;
  }

  /** `s` has a character other than a dot. */
  predicate HasNonDot(s: string) {
    exists k :: 0 <= k < |s| && s[k] != '.'
  }

  /**
   The first half of `os.path.splitext` on a file name: cut at the last dot,
   unless everything before that dot is dots (a name like `.bashrc` has no
   extension). The stem is a prefix of the name; what is cut off is a dot
   followed by dot-free text, after a stem that is not all dots.
   */
  function Stem(name: string): (stem: string)
    ensures |stem| <= |name| && name[..|stem|] == stem
    ensures stem != name ==> name[|stem|] == '.' && '.' !in name[|stem| + 1..] && HasNonDot(stem)
  {
    var d := LastIndexOf(name, '.');
    if d >= 0 && HasNonDot(name[..d]) then
      name[..d]
    else name
  }

  /** A name without a dot is its own stem. */
  lemma StemOfPlainName(name: string)
    requires '.' !in name
    ensures Stem(name) == name
  {
  }

  /** A name that is a dot followed by dot-free text is its own stem. */
  lemma StemOfDotfile(rest: string)
    requires '.' !in rest
    ensures Stem("." + rest) == "." + rest
  {
    var name := "." + rest;
    assert name[0] == '.';
    assert forall i :: 0 < i < |name| ==> name[i] == rest[i - 1];
    assert LastIndexOf(name, '.') == 0;
  }

  /** The stem of `s.ext`, for a dot-free `ext` and an `s` that is not all dots, is `s`. */
  lemma StemDropsExtension(s: string, ext: string)
    requires HasNonDot(s) && '.' !in ext
    ensures Stem(s + "." + ext) == s
  {
    var name := s + "." + ext;
    assert name[|s|] == '.';
    assert forall i :: |s| < i < |name| ==> name[i] == ext[i - |s| - 1];
    assert LastIndexOf(name, '.') == |s|;
    assert name[..|s|] == s;
  }

  /**
   `os.path.join("data", "labels", f"{base_name}.png")` for the stem of the
   raster's file name: the path starts with the labels directory, ends in
   `.png`, and the part between holds no slash.
   */
  function TruthPath(path: string): (p: string)
    ensures |p| >= |LabelsDir| + |LabelExt|
    ensures p[..|LabelsDir|] == LabelsDir && p[|p| - |LabelExt|..] == LabelExt
    ensures '/' !in p[|LabelsDir|..|p| - |LabelExt|]
  {
    var name := Basename(path);
    var stem := Stem(name);
    assert '/' !in stem by {
      forall i | 0 <= i < |stem| ensures stem[i] != '/' {
        assert stem[i] == name[..|stem|][i] == name[i];
      }
    }
    var p := LabelsDir + stem + LabelExt;
    assert p[|LabelsDir|..|p| - |LabelExt|] == stem;
    p
  }

  /**
   A raster whose file name is `s.ext` has its label at `data/labels/s.png`,
   whatever directory it sits in, or none, when `ext` holds no dot and `s` is
   not all dots.
   */
  lemma TruthPathOfRaster(path: string, s: string, ext: string)
    requires Basename(path) == s + "." + ext && '.' !in ext && HasNonDot(s)
    ensures TruthPath(path) == "data/labels/" + s + ".png"
  {
    StemDropsExtension(s, ext);
  }

  /** A raster in a directory has the label of its bare file name. */
  lemma TruthPathIgnoresDirectory(dir: string, name: string)
    requires '/' !in name
    ensures TruthPath(dir + "/" + name) == TruthPath(name)
  {
    BasenameOfJoin(dir, name);
    assert Basename(name) == name;
  }

  /** One panel of the figure; titles and colours are left out. */
  datatype Panel =
    | RgbPanel(image: Image)
    | OverlayPanel(overlay: Image)
    | TruthPanel(truth: Grid)
    | MaskPanel(mask: Mask)

  /**
   The subplot row: RGB, overlay, the ground truth when there is one, and the
   predicted mask last; four panels with ground truth, three without, and the
   ground truth only ever in third place.
   */
  function Layout(rgb: Image, overlay: Image, truth: Option<Grid>, mask: Mask): (ps: seq<Panel>)
    ensures |ps| == if truth.Some? then 4 else 3
    ensures ps[0] == RgbPanel(rgb) && ps[1] == OverlayPanel(overlay)
    ensures truth.Some? ==> ps[2] == TruthPanel(truth.value)
    ensures ps[|ps| - 1] == MaskPanel(mask)
    ensures forall k :: 0 <= k < |ps| ==> (ps[k].TruthPanel? <==> truth.Some? && k == 2)
  {
    var middle := match truth
      case Some(t) => [TruthPanel(t)]
      case None => [];
    [RgbPanel(rgb), OverlayPanel(overlay)] + middle + [MaskPanel(mask)]
  }

  /** Removing the ground-truth panel from the four-panel figure leaves the three-panel one. */
  lemma LayoutWithoutTruth(rgb: Image, overlay: Image, truth: Grid, mask: Mask)
    ensures var four := Layout(rgb, overlay, Some(truth), mask);
      four[..2] + four[3..] == Layout(rgb, overlay, None, mask)
  {
  }

  /** The returned string: the data-URI prefix followed by the payload. */
  function DataUri(payload: string): (uri: string)
    ensures HasUriPrefix(uri) && PayloadOf(uri) == payload
  {
    UriPrefix + payload
  }

  predicate HasUriPrefix(uri: string) {
    |uri| >= |UriPrefix| && uri[..|UriPrefix|] == UriPrefix
  }

  /** The base64 text after the prefix. */
  function PayloadOf(uri: string): string
    requires HasUriPrefix(uri)
  {
    uri[|UriPrefix|..]
  }

  /** Every string with the prefix is the URI of its payload, so the encoding loses nothing. */
  lemma DataUriOfPayload(uri: string)
    requires HasUriPrefix(uri)
    ensures DataUri(PayloadOf(uri)) == uri
  {
  }

  /**
   What the compositor needs of its inputs: the first three input channels of one
   non-empty shape, a probability map of that same shape (numpy refuses a
   boolean index of another shape), and input values that are not all equal
   (the rescale divides by their span).
   */
  predicate CanVisualize(input: Tensor, outputs: seq<Tensor>) {
    && HasRgbChannels(input)
    && HasProbabilityMap(outputs)
    && SameShape(RgbOf(input), outputs[0][0][0])
    && HasRange(RgbOf(input))
  }

  /**
   The panels of the figure for one raster: the rescaled RGB image, its overlay
   with the prediction mask, the resized label when the labels directory has
   one for this raster, and the mask.
   */
  function Figure(input: Tensor, outputs: seq<Tensor>, path: string,
                  labels: string -> Option<Grid>, resizeTruth: Grid -> Features.Grid128): (ps: seq<Panel>)
    requires CanVisualize(input, outputs)
    ensures |ps| == if labels(TruthPath(path)).Some? then 4 else 3
    ensures ps[0] == RgbPanel(Rescale(RgbOf(input)))
    ensures ps[1] == OverlayPanel(Overlay(Rescale(RgbOf(input)), Binarize(outputs)))
    ensures labels(TruthPath(path)).Some? ==> ps[2] == TruthPanel(resizeTruth(labels(TruthPath(path)).value))
    ensures ps[|ps| - 1] == MaskPanel(Binarize(outputs))
  {
    var mask := Binarize(outputs);
    var rgb := Rescale(RgbOf(input));
    MaskFitsImage(input, outputs);
    var overlay := Overlay(rgb, mask);
    var truth: Option<Grid> := match labels(TruthPath(path))
      case Some(gt) => Some(resizeTruth(gt))
      case None => None;
    Layout(rgb, overlay, truth, mask)
  }

  /** The mask has the shape of the rescaled RGB image, so it can index it. */
  lemma MaskFitsImage(input: Tensor, outputs: seq<Tensor>)
    requires CanVisualize(input, outputs)
    ensures SameShape(Rescale(RgbOf(input)), Binarize(outputs))
  {
    var rgb, mask, p := Rescale(RgbOf(input)), Binarize(outputs), outputs[0][0][0];
    assert SameShape(rgb, RgbOf(input));
    assert SameShape(RgbOf(input), p);
    assert SameShape(mask, p);
  }

  /**
   `visualize_single_prediction` once the model has run: the data URI of the
   rendered figure, and the prediction mask, true exactly where the first
   probability map is strictly above one half.
   */
  function Visualize(input: Tensor, outputs: seq<Tensor>, path: string,
                     labels: string -> Option<Grid>, resizeTruth: Grid -> Features.Grid128,
                     render: seq<Panel> -> string): (res: (string, Mask))
    requires CanVisualize(input, outputs)
    ensures HasUriPrefix(res.0) && PayloadOf(res.0) == render(Figure(input, outputs, path, labels, resizeTruth))
    ensures SameShape(res.1, outputs[0][0][0])
    ensures forall i, j :: 0 <= i < |res.1| && 0 <= j < |res.1[i]| ==> (res.1[i][j] <==> outputs[0][0][0][i][j] > Threshold)
  {
    (DataUri(render(Figure(input, outputs, path, labels, resizeTruth))), Binarize(outputs))
  }

  /**
   The tensor the feature builder hands over always has the three channels the
   compositor reads, each 128 x 128.
   */
  lemma PreprocessFeedsVisualize(img: seq<Grid>, std: Grid -> Features.NonNeg, resize: Grid -> Features.Grid128)
    requires |img| >= 12 && Features.IsRaster(img) && Features.IndicesDefined(img)
    ensures HasRgbChannels(Features.Preprocess(img, std, resize))
    ensures IsShape(RgbOf(Features.Preprocess(img, std, resize)), Features.Side, Features.Side)
  {
  }
}
