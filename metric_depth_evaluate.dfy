/** The evaluation step of the metric-depth tool (EyeAICore/metric_depth/src/
    utils.hpp, evaluate): check the buffer sizes, run the depth model on the
    256x256 image, and pair each model depth with the dataset's metric depth
    at the same relative position, keeping only masked-in depths in range. */
module MetricDepthEvaluation {
  import opened Wrappers
  import opened Strings
  import opened TfLiteApi
  import opened TfLiteErrors
  import opened TfLiteRuntimes
  import opened DepthModels
  import TfLiteUtils
  import Operators

  const INPUT_WIDTH: nat := 256
  const INPUT_HEIGHT: nat := 256
  const DATASET_WIDTH: nat := 1024
  const DATASET_HEIGHT: nat := 768
  const DATASET_MIN: real := 0.6
  const DATASET_MAX: real := 350.0

  /** Pixels of a model input and values of a dataset depth image. */
  const INPUT_PIXELS: nat := INPUT_WIDTH * INPUT_HEIGHT
  const DATASET_PIXELS: nat := DATASET_WIDTH * DATASET_HEIGHT

  /** Why evaluate gives up. The first three carry the offending size; the
      last is the depth model's own error. */
  datatype EvaluateError =
    | InvalidImageSize(pixelCount: nat)
    | InvalidMetricDepthSize(size: nat)
    | InvalidDepthMaskSize(size: nat)
    | ModelFailed(error: RunInferenceError)

  /** "<prefix><size> instead of <expected>", the shape of every size error. */
  function SizeMessage(prefix: string, size: nat, expected: nat): string {
    prefix + NatToString(size) + " instead of " + NatToString(expected)
  }

  /** The size stands between the prefix and " instead of ", and reads back
      as the size. */
  lemma SizeMessageNamesSize(prefix: string, size: nat, expected: nat)
    ensures var m := SizeMessage(prefix, size, expected);
      var d := |NatToString(size)|;
      && |m| > |prefix| + d + 12
      && m[..|prefix|] == prefix
      && m[|prefix| + d..|prefix| + d + 12] == " instead of "
      && AllDigits(m[|prefix|..|prefix| + d])
      && DecimalValue(m[|prefix|..|prefix| + d]) == size
  {
    ConcatSlices(prefix, NatToString(size), " instead of ", NatToString(expected));
    DecimalValueOfNatToString(size);
  }

  /** The three leading parts of a four-part concatenation sit at their
      offsets. */
  lemma ConcatSlices<T>(a: seq<T>, b: seq<T>, c: seq<T>, e: seq<T>)
    ensures var m := a + b + c + e;
      && |m| == |a| + |b| + |c| + |e|
      && m[..|a|] == a
      && m[|a|..|a| + |b|] == b
      && m[|a| + |b|..|a| + |b| + |c|] == c
  {
  }

  /** The text a size error starts with. */
  function SizeErrorPrefix(e: EvaluateError): string
    requires !e.ModelFailed?
  {
    match e
    case InvalidImageSize(_) => "Invalid image size of "
    case InvalidMetricDepthSize(_) => "Invalid metric depth image size of "
    case InvalidDepthMaskSize(_) => "Invalid depth mask image size of "
  }

  /** The size a size error reports. */
  function WrongSize(e: EvaluateError): nat
    requires !e.ModelFailed?
  {
    match e
    case InvalidImageSize(pixelCount) => pixelCount
    case InvalidMetricDepthSize(size) => size
    case InvalidDepthMaskSize(size) => size
  }

  /** The text of a size error: its prefix, the size it reports and the size
      that check expects. */
  function SizeErrorMessage(e: EvaluateError): string
    requires !e.ModelFailed?
  {
    SizeMessage(SizeErrorPrefix(e), WrongSize(e), if e.InvalidImageSize? then INPUT_PIXELS else DATASET_PIXELS)
  }

  /** The size checks, in the order evaluate makes them. The image is
      measured in whole pixels (its length divided by three, rounded down). */
  function EvaluateChecks(imageLength: nat, metricDepthLength: nat, depthMaskLength: nat): Outcome<EvaluateError> {
    var pixelCount := imageLength / 3;
    if pixelCount != INPUT_PIXELS then Fail(InvalidImageSize(pixelCount))
    else if metricDepthLength != DATASET_PIXELS then Fail(InvalidMetricDepthSize(metricDepthLength))
    else if depthMaskLength != DATASET_PIXELS then Fail(InvalidDepthMaskSize(depthMaskLength))
    else Pass
  }

  /** The checks pass exactly on an image of 256*256 whole pixels and depth
      and mask images of 1024*768 values; an image with one or two values
      beyond the last whole pixel still passes; a failure names the first
      wrong size. */
  lemma EvaluateChecksPassIff(imageLength: nat, metricDepthLength: nat, depthMaskLength: nat)
    ensures EvaluateChecks(imageLength, metricDepthLength, depthMaskLength).Pass? <==>
      && INPUT_PIXELS * 3 <= imageLength <= INPUT_PIXELS * 3 + 2
      && metricDepthLength == DATASET_PIXELS && depthMaskLength == DATASET_PIXELS
    ensures imageLength / 3 != INPUT_PIXELS ==>
      EvaluateChecks(imageLength, metricDepthLength, depthMaskLength) == Fail(InvalidImageSize(imageLength / 3))
    ensures imageLength / 3 == INPUT_PIXELS && metricDepthLength != DATASET_PIXELS ==>
      EvaluateChecks(imageLength, metricDepthLength, depthMaskLength) == Fail(InvalidMetricDepthSize(metricDepthLength))
  {
  }

  /** A failed size check is a size error whose text names the check that
      failed and reads back as the size that check measured, which is not
      the size it expected. */
  lemma SizeErrorMessageNamesWrongSize(imageLength: nat, metricDepthLength: nat, depthMaskLength: nat)
    requires EvaluateChecks(imageLength, metricDepthLength, depthMaskLength).Fail?
    ensures var e := EvaluateChecks(imageLength, metricDepthLength, depthMaskLength).error;
      && !e.ModelFailed?
      && (e.InvalidImageSize? ==> WrongSize(e) == imageLength / 3 != INPUT_PIXELS)
      && (e.InvalidMetricDepthSize? ==> WrongSize(e) == metricDepthLength != DATASET_PIXELS)
      && (e.InvalidDepthMaskSize? ==> WrongSize(e) == depthMaskLength != DATASET_PIXELS)
      && var m := SizeErrorMessage(e);
         var n := |SizeErrorPrefix(e)|;
         var d := |NatToString(WrongSize(e))|;
         && |m| > n + d + 12
         && m[..n] == SizeErrorPrefix(e)
         && AllDigits(m[n..n + d]) && DecimalValue(m[n..n + d]) == WrongSize(e)
         && m[n + d..n + d + 12] == " instead of "
  {
    var e := EvaluateChecks(imageLength, metricDepthLength, depthMaskLength).error;
    SizeMessageNamesSize(SizeErrorPrefix(e), WrongSize(e), if e.InvalidImageSize? then INPUT_PIXELS else DATASET_PIXELS);
  }

  /** The relative position of input pixel (x, y), scaled to the dataset's
      width or height and truncated as the source's float-to-size_t casts
      do, is exact: 4x columns and 3y rows in. */
  lemma ScaledPositionIsExact(x: nat, y: nat)
    requires x < INPUT_WIDTH && y < INPUT_HEIGHT
    ensures (x as real / INPUT_WIDTH as real * DATASET_WIDTH as real).Floor == 4 * x
    ensures (y as real / INPUT_HEIGHT as real * DATASET_HEIGHT as real).Floor == 3 * y
  {
    assert x as real / INPUT_WIDTH as real * DATASET_WIDTH as real == (4 * x) as real;
    assert y as real / INPUT_HEIGHT as real * DATASET_HEIGHT as real == (3 * y) as real;
  }

  /** The index of input pixel (x, y) in the model's row-major buffer. */
  function InputIndex(x: nat, y: nat): (p: nat)
    requires x < INPUT_WIDTH && y < INPUT_HEIGHT
    ensures p < INPUT_PIXELS
  {
    y * INPUT_WIDTH + x
  }

  /** The index of the dataset value at the relative position of input
      pixel (x, y). */
  function DatasetIndex(x: nat, y: nat): (i: nat)
    requires x < INPUT_WIDTH && y < INPUT_HEIGHT
    ensures i < DATASET_PIXELS
  {
    3 * y * DATASET_WIDTH + 4 * x
  }

  /** The buffers a pairing reads: the model's depth per input pixel and
      the dataset's depth and mask per dataset pixel. */
  predicate PairingSizes(estimation: seq<real>, metricDepth: seq<real>, depthMask: seq<real>) {
    |estimation| == INPUT_PIXELS && |metricDepth| == DATASET_PIXELS && |depthMask| == DATASET_PIXELS
  }

  /** Whether the pair of input pixel (x, y) is kept: the mask is non-zero
      and the metric depth lies in [0.6, 350]. */
  predicate Kept(metricDepth: seq<real>, depthMask: seq<real>, x: nat, y: nat)
    requires x < INPUT_WIDTH && y < INPUT_HEIGHT
    requires |metricDepth| == DATASET_PIXELS && |depthMask| == DATASET_PIXELS
  {
    var i := DatasetIndex(x, y);
    depthMask[i] != 0.0 && DATASET_MIN <= metricDepth[i] <= DATASET_MAX
  }

  /** What input pixel (x, y) contributes: (relative, absolute), or nothing. */
  function PixelPair(estimation: seq<real>, metricDepth: seq<real>, depthMask: seq<real>, x: nat, y: nat): seq<real>
    requires PairingSizes(estimation, metricDepth, depthMask) && x < INPUT_WIDTH && y < INPUT_HEIGHT
  {
    if Kept(metricDepth, depthMask, x, y) then [estimation[InputIndex(x, y)], metricDepth[DatasetIndex(x, y)]] else []
  }

  /** The parts laid end to end, in order. */
  function Flatten(parts: seq<seq<real>>): seq<real> {
    if |parts| == 0 then [] else Flatten(parts[..|parts| - 1]) + parts[|parts| - 1]
  }

  /** The contributions of row y's pixels, left to right. */
  function RowParts(estimation: seq<real>, metricDepth: seq<real>, depthMask: seq<real>, y: nat): (parts: seq<seq<real>>)
    requires PairingSizes(estimation, metricDepth, depthMask) && y < INPUT_HEIGHT
    ensures |parts| == INPUT_WIDTH
    ensures forall x :: 0 <= x < INPUT_WIDTH ==> parts[x] == PixelPair(estimation, metricDepth, depthMask, x, y)
  {
    seq(INPUT_WIDTH, x requires 0 <= x < INPUT_WIDTH => PixelPair(estimation, metricDepth, depthMask, x, y))
  }

  /** The pairs of each row, top to bottom. */
  function Rows(estimation: seq<real>, metricDepth: seq<real>, depthMask: seq<real>): (rows: seq<seq<real>>)
    requires PairingSizes(estimation, metricDepth, depthMask)
    ensures |rows| == INPUT_HEIGHT
    ensures forall y :: 0 <= y < INPUT_HEIGHT ==> rows[y] == Flatten(RowParts(estimation, metricDepth, depthMask, y))
  {
    seq(INPUT_HEIGHT, y requires 0 <= y < INPUT_HEIGHT => Flatten(RowParts(estimation, metricDepth, depthMask, y)))
  }

  /** The pairs of all input pixels, in row-major order. */
  function Pairs(estimation: seq<real>, metricDepth: seq<real>, depthMask: seq<real>): seq<real>
    requires PairingSizes(estimation, metricDepth, depthMask)
  {
    Flatten(Rows(estimation, metricDepth, depthMask))
  }

  /** Appending a part appends it to the flattening. */
  lemma FlattenStep(parts: seq<seq<real>>, k: nat)
    requires k < |parts|
    ensures Flatten(parts[..k + 1]) == Flatten(parts[..k]) + parts[k]
  {
    assert parts[..k + 1][..k] == parts[..k];
  }

  /** The first k parts flatten to the beginning of the flattening, and
      part k follows them. */
  lemma {:induction false} FlattenAt(parts: seq<seq<real>>, k: nat, i: nat)
    requires k < |parts| && i < |parts[k]|
    ensures var at := |Flatten(parts[..k])| + i;
      at < |Flatten(parts)| && Flatten(parts)[at] == parts[k][i]
    decreases |parts|
  {
    var n := |parts|;
    var init := parts[..n - 1];
    if k < n - 1 {
      assert init[..k] == parts[..k];
      FlattenAt(init, k, i);
    } else {
      assert parts[..k] == init;
    }
  }

  /** A sequence of (relative, absolute) pairs whose absolute values all lie
      in [0.6, 350]. */
  predicate PairList(s: seq<real>) {
    |s| % 2 == 0 && forall m :: 0 <= m < |s| / 2 ==> DATASET_MIN <= s[2 * m + 1] <= DATASET_MAX
  }

  lemma AppendPairLists(a: seq<real>, b: seq<real>)
    requires PairList(a) && PairList(b)
    ensures PairList(a + b)
  {
    forall m | 0 <= m < |a + b| / 2
      ensures DATASET_MIN <= (a + b)[2 * m + 1] <= DATASET_MAX
    {
      if m >= |a| / 2 {
        assert (a + b)[2 * m + 1] == b[2 * (m - |a| / 2) + 1];
      }
    }
  }

  /** Parts that are pair lists of at most `bound` values flatten to a pair
      list of at most `bound` values per part. */
  lemma {:induction false} FlattenPairList(parts: seq<seq<real>>, bound: nat)
    requires forall k :: 0 <= k < |parts| ==> PairList(parts[k]) && |parts[k]| <= bound
    ensures PairList(Flatten(parts)) && |Flatten(parts)| <= bound * |parts|
  {
    var n := |parts|;
    if n > 0 {
      FlattenPairList(parts[..n - 1], bound);
      AppendPairLists(Flatten(parts[..n - 1]), parts[n - 1]);
      assert bound * (n - 1) + bound == bound * n;
    }
  }

  /** Each pair of a flattening of pair lists lies within one part. */
  lemma {:induction false} FlattenPairSource(parts: seq<seq<real>>, m: nat) returns (k: nat, j: nat)
    requires forall k :: 0 <= k < |parts| ==> |parts[k]| % 2 == 0
    requires 2 * m + 1 < |Flatten(parts)|
    ensures k < |parts| && 2 * j + 1 < |parts[k]|
    ensures Flatten(parts)[2 * m] == parts[k][2 * j] && Flatten(parts)[2 * m + 1] == parts[k][2 * j + 1]
  {
    var n := |parts|;
    var init := parts[..n - 1];
    var before := Flatten(init);
    assert Flatten(parts) == before + parts[n - 1];
    if 2 * m + 1 < |before| {
      k, j := FlattenPairSource(init, m);
    } else {
      FlattenIsEven(init);
      k, j := n - 1, m - |before| / 2;
    }
  }

  lemma {:induction false} FlattenIsEven(parts: seq<seq<real>>)
    requires forall k :: 0 <= k < |parts| ==> |parts[k]| % 2 == 0
    ensures |Flatten(parts)| % 2 == 0
  {
    if |parts| > 0 {
      FlattenIsEven(parts[..|parts| - 1]);
    }
  }

  /** The pairs come two values per pixel at most, and every absolute value
      lies in [0.6, 350]. */
  lemma PairsShape(estimation: seq<real>, metricDepth: seq<real>, depthMask: seq<real>)
    requires PairingSizes(estimation, metricDepth, depthMask)
    ensures var pairs := Pairs(estimation, metricDepth, depthMask);
      PairList(pairs) && |pairs| <= 2 * INPUT_PIXELS
  {
    var rows := Rows(estimation, metricDepth, depthMask);
    forall y | 0 <= y < INPUT_HEIGHT
      ensures PairList(rows[y]) && |rows[y]| <= 2 * INPUT_WIDTH
    {
      var parts := RowParts(estimation, metricDepth, depthMask, y);
      forall x | 0 <= x < INPUT_WIDTH
        ensures PairList(parts[x]) && |parts[x]| <= 2
      {
        assert parts[x] == PixelPair(estimation, metricDepth, depthMask, x, y);
      }
      FlattenPairList(parts, 2);
    }
    FlattenPairList(rows, 2 * INPUT_WIDTH);
  }

  /** Each pair comes from a kept input pixel: its relative value is the
      model's depth there and its absolute value the dataset's depth at the
      matching position. */
  lemma PairSource(estimation: seq<real>, metricDepth: seq<real>, depthMask: seq<real>, m: nat)
    returns (x: nat, y: nat)
    requires PairingSizes(estimation, metricDepth, depthMask)
    requires 2 * m + 1 < |Pairs(estimation, metricDepth, depthMask)|
    ensures x < INPUT_WIDTH && y < INPUT_HEIGHT && Kept(metricDepth, depthMask, x, y)
    ensures var pairs := Pairs(estimation, metricDepth, depthMask);
      pairs[2 * m] == estimation[InputIndex(x, y)] && pairs[2 * m + 1] == metricDepth[DatasetIndex(x, y)]
  {
    var rows := Rows(estimation, metricDepth, depthMask);
    forall y | 0 <= y < INPUT_HEIGHT
      ensures |rows[y]| % 2 == 0
    {
      PairsOfRowAreEven(estimation, metricDepth, depthMask, y);
    }
    var j;
    y, j := FlattenPairSource(rows, m);
    var parts := RowParts(estimation, metricDepth, depthMask, y);
    PairsOfRowAreEven(estimation, metricDepth, depthMask, y);
    var i;
    x, i := FlattenPairSource(parts, j);
    assert parts[x] == PixelPair(estimation, metricDepth, depthMask, x, y);
  }

  lemma PairsOfRowAreEven(estimation: seq<real>, metricDepth: seq<real>, depthMask: seq<real>, y: nat)
    requires PairingSizes(estimation, metricDepth, depthMask) && y < INPUT_HEIGHT
    ensures forall x :: 0 <= x < INPUT_WIDTH ==> |RowParts(estimation, metricDepth, depthMask, y)[x]| % 2 == 0
    ensures |Flatten(RowParts(estimation, metricDepth, depthMask, y))| % 2 == 0
  {
    FlattenIsEven(RowParts(estimation, metricDepth, depthMask, y));
  }

  /** Every kept pixel is paired, right after the pairs of the pixels
      before it in row-major order. */
  lemma KeptPixelIsPaired(estimation: seq<real>, metricDepth: seq<real>, depthMask: seq<real>, x: nat, y: nat)
    requires PairingSizes(estimation, metricDepth, depthMask) && x < INPUT_WIDTH && y < INPUT_HEIGHT
    requires Kept(metricDepth, depthMask, x, y)
    ensures var rows := Rows(estimation, metricDepth, depthMask);
      var at := |Flatten(rows[..y])| + |Flatten(RowParts(estimation, metricDepth, depthMask, y)[..x])|;
      var pairs := Pairs(estimation, metricDepth, depthMask);
      at + 1 < |pairs| && pairs[at] == estimation[InputIndex(x, y)] && pairs[at + 1] == metricDepth[DatasetIndex(x, y)]
  {
    var rows := Rows(estimation, metricDepth, depthMask);
    var parts := RowParts(estimation, metricDepth, depthMask, y);
    assert parts[x] == PixelPair(estimation, metricDepth, depthMask, x, y);
    assert rows[y] == Flatten(parts);
    FlattenAtNested(rows, parts, y, x, 0);
    FlattenAtNested(rows, parts, y, x, 1);
  }

  /** Value j of part x of row y sits after the rows before y and the parts
      before x. */
  lemma FlattenAtNested(rows: seq<seq<real>>, parts: seq<seq<real>>, y: nat, x: nat, j: nat)
    requires y < |rows| && rows[y] == Flatten(parts) && x < |parts| && j < |parts[x]|
    ensures var at := |Flatten(rows[..y])| + |Flatten(parts[..x])| + j;
      at < |Flatten(rows)| && Flatten(rows)[at] == parts[x][j]
  {
    FlattenAt(parts, x, j);
    FlattenAt(rows, y, |Flatten(parts[..x])| + j);
  }

  /** The pairing loops of evaluate: rows then columns of the input, a
      pair appended for each kept pixel. */
  method CollectPairs(estimation: seq<real>, metricDepth: seq<real>, depthMask: seq<real>) returns (pairs: seq<real>)
    requires PairingSizes(estimation, metricDepth, depthMask)
    ensures pairs == Pairs(estimation, metricDepth, depthMask)
  {
    ghost var rows := Rows(estimation, metricDepth, depthMask);
    pairs := [];
    var y := 0;
    while y < INPUT_HEIGHT
      invariant 0 <= y <= INPUT_HEIGHT
      invariant pairs == Flatten(rows[..y])
    {
      pairs := CollectRowPairs(estimation, metricDepth, depthMask, y, pairs);
      FlattenStep(rows, y);
      y := y + 1;
    }
    assert rows[..y] == rows;
  }

  /** The inner loop over the columns of row y. */
  method CollectRowPairs(estimation: seq<real>, metricDepth: seq<real>, depthMask: seq<real>, y: nat, before: seq<real>)
    returns (pairs: seq<real>)
    requires PairingSizes(estimation, metricDepth, depthMask) && y < INPUT_HEIGHT
    ensures pairs == before + Flatten(RowParts(estimation, metricDepth, depthMask, y))
  {
    ghost var parts := RowParts(estimation, metricDepth, depthMask, y);
    pairs := before;
    var x := 0;
    while x < INPUT_WIDTH
      invariant 0 <= x <= INPUT_WIDTH
      invariant pairs == before + Flatten(parts[..x])
    {
      FlattenStep(parts, x);
      ghost var pixel := PixelPair(estimation, metricDepth, depthMask, x, y);
      assert parts[x] == pixel;
      var inputImageIndex := InputIndex(x, y);
      var relativeX := x as real / INPUT_WIDTH as real;
      var relativeY := y as real / INPUT_HEIGHT as real;
      ScaledPositionIsExact(x, y);
      var datasetImageIndex := (relativeY * DATASET_HEIGHT as real).Floor * DATASET_WIDTH
                             + (relativeX * DATASET_WIDTH as real).Floor;
      assert datasetImageIndex == DatasetIndex(x, y);
      x := x + 1;
      if depthMask[datasetImageIndex] == 0.0 {
        continue;
      }
      var absolute := metricDepth[datasetImageIndex];
      if absolute < DATASET_MIN || absolute > DATASET_MAX {
        continue;
      }
      var relative := estimation[inputImageIndex];
      pairs := pairs + [relative];
      pairs := pairs + [absolute];
    }
    assert parts[..x] == parts;
  }

  /** The zero-filled buffer evaluate hands the model for its output. */
  function Zeros(n: nat): (s: seq<real>)
    ensures |s| == n && forall i :: 0 <= i < n ==> s[i] == 0.0
  {
    seq(n, _ => 0.0)
  }

  /** evaluate: the size checks, then the depth model on the image (which
      normalises the image buffer in place) into a zero-filled buffer of
      one value per pixel, then the pairs. The model's error is returned as
      is. The engine's answers are as for DepthModel.Run. */
  method Evaluate(
    model: DepthModel, imageRgb: array<real>, metricDepth: seq<real>, depthMask: seq<real>,
    copyFromStatus: TfLiteStatus, invokeStatus: TfLiteStatus, copyToStatus: TfLiteStatus)
    returns (r: Result<seq<real>, EvaluateError>)
    requires model.Valid()
    requires EvaluateChecks(imageRgb.Length, |metricDepth|, |depthMask|).Pass? ==>
      TfLiteUtils.LoadRequires(model.runtime.interpreter.inputTensor.State(),
                               RunOperatorsSpec(DEPTH_INPUT_OPERATORS, imageRgb[..]).1)
    modifies imageRgb, model.runtime.interpreter.inputTensor, model.runtime.interpreter.inputTensor.data
    ensures model.Valid()
    ensures var checks := EvaluateChecks(imageRgb.Length, |metricDepth|, |depthMask|);
      checks.Fail? ==>
        && r == Failure(checks.error)
        && imageRgb[..] == old(imageRgb[..])
        && model.runtime.interpreter.inputTensor.State() == old(model.runtime.interpreter.inputTensor.State())
    ensures EvaluateChecks(imageRgb.Length, |metricDepth|, |depthMask|).Pass? ==>
      var run := RunInferenceSpec(DEPTH_INPUT_OPERATORS, DEPTH_OUTPUT_OPERATORS, old(imageRgb[..]), Zeros(INPUT_PIXELS),
                                  old(model.runtime.interpreter.inputTensor.State()),
                                  model.runtime.interpreter.outputTensor.State(),
                                  copyFromStatus, invokeStatus, copyToStatus);
      && imageRgb[..] == run.input
      && model.runtime.interpreter.inputTensor.State() == run.inputTensor
      && (run.outcome.Fail? ==> r == Failure(ModelFailed(run.outcome.error)))
      && (run.outcome.Pass? ==> |run.output| == INPUT_PIXELS && r == Success(Pairs(run.output, metricDepth, depthMask)))
  {
    var checks := EvaluateChecks(imageRgb.Length, |metricDepth|, |depthMask|);
    if checks.Fail? {
      return Failure(checks.error);
    }
    var depthEstimation := new real[INPUT_PIXELS](_ => 0.0);
    assert depthEstimation[..] == Zeros(INPUT_PIXELS);
    var status := model.Run(imageRgb, depthEstimation, copyFromStatus, invokeStatus, copyToStatus);
    if status.Fail? {
      return Failure(ModelFailed(status.error));
    }
    var pairs := CollectPairs(depthEstimation[..], metricDepth, depthMask);
    return Success(pairs);
  }

  /** An image with one or two values past its last whole pixel passes the
      size checks, and then the model's normalisation rejects it. */
  lemma RaggedImageFailsInModel(
    input: seq<real>, metricDepth: seq<real>, depthMask: seq<real>, inT: TensorState, outT: TensorState,
    c1: TfLiteStatus, inv: TfLiteStatus, c2: TfLiteStatus)
    requires |input| % 3 != 0 && |input| / 3 == INPUT_PIXELS
    requires |metricDepth| == DATASET_PIXELS && |depthMask| == DATASET_PIXELS
    requires TfLiteUtils.LoadRequires(inT, RunOperatorsSpec(DEPTH_INPUT_OPERATORS, input).1)
    ensures EvaluateChecks(|input|, |metricDepth|, |depthMask|).Pass?
    ensures RunInferenceSpec(DEPTH_INPUT_OPERATORS, DEPTH_OUTPUT_OPERATORS, input, Zeros(INPUT_PIXELS),
                             inT, outT, c1, inv, c2).outcome
         == Fail(RunInferenceOperator(Operators.NotMultipleOfThreeError(|input|)))
  {
    DepthOperatorsAreValid();
    DepthInferenceProperties(input, Zeros(INPUT_PIXELS), inT, outT, c1, inv, c2);
  }
}
