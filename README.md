# EyeAI inference core in Dafny

This project models the native core of the EyeAI assistive-vision app and proves properties of it. That core covers:

- the TensorFlow Lite runtime wrapper that runs a depth-estimation and an object-detection model;
- the tensor codec that moves floats in and out of engine tensors, with uint8 affine quantization;
- the pre- and post-processing operators;
- the pixel packing and bitmap conversions of the Android layer;
- the inferno depth colour map;
- the helpers of the metric-depth evaluation tool.

It models both generations of this code. The current one reports failures as values (`tl::expected`). The older app-side one throws exceptions or only logs. Each older module states where it agrees with the current one and where it differs.

## Modules

| module | file | models |
|---|---|---|
| `Wrappers` | wrappers.dfy | `Option`, `Result` and `Outcome`, standing for `std::optional`, `tl::expected<T, E>` and `tl::expected<void, E>` |
| `Strings` | strings.dfy | character classes, ASCII case folding and decimal rendering, as used by `std::format` messages and the file-name matchers |
| `TfLiteApi` | tflite_api.dfy | the TensorFlow Lite vocabulary: element types, statuses, quantization parameters, and the engine-owned `Tensor` and `Interpreter` objects |
| `TfLiteErrors` | tflite_errors.dfy | the error taxonomy of the codec and runtime header, one datatype per union; "exactly one alternative" holds by construction |
| `TfLiteUtils` | tflite_utils.dfy | the codec: its tables, the quantized and float load/read paths, and quantize/dequantize |
| `Operators` | operators.dfy | `MinMaxOperator` and `RgbNormalizeOperator`, and the closed `Operator` type |
| `TfLiteRuntimes` | tflite_runtime.dfy | runtime creation with the GPU-delegate fallback, teardown, invoke, `run_inference` and the builder |
| `DepthModels`, `YoloModels` | depth_model.dfy, yolo_model.dfy | the two fixed pipeline configurations |
| `ImageUtils`, `DepthColormaps` | image_utils.dfy, depth_colormap.dfy | ARGB packing and the inferno colour map |
| `AndroidImageUtils` | bitmap_utils.dfy | the bitmap status check, the HWC and CHW conversions and camera-byte packing |
| `LegacyImageUtils`, `LegacyTfLiteUtils`, `LegacyTfLiteRuntimes` | legacy_*.dfy | the older app-side copies |
| `MetricDepthUtils`, `MetricDepthEvaluation` | dataset_utils.dfy, metric_depth_evaluate.dfy | the dataset file-name matchers, the scan join and `evaluate` |

The inference engine is an oracle, not a model:

- Each call into it becomes a parameter holding its answer: whether `create_gpu_delegate` returned a delegate, the interpreter each creation attempt returns (null on failure), and the status of allocate, invoke and each copy.
- Its tensors are Dafny objects whose state the codec reads and writes.
- Android bitmap calls work the same way: an `AndroidBitmap` value holds the platform's answers.

Float arithmetic is exact arithmetic over `real`. The float-to-integer casts are written out as truncation toward zero. A `uint8_t` or `std::byte` result is wrapped modulo 256, and a C++ `int` colour is its 32-bit pattern (`bv32`).

Every in-place loop of the source is a method with a loop, proved against a specification function on the old contents. The properties the source promises are proved as lemmas about those functions. The source's classes are Dafny classes: the runtime, the builder, the two models and the engine's tensors.

## Model

| member | source | states |
|---|---|---|
| Operators.OperatorError.ToString | EyeAICore/include/EyeAICore/Operators.hpp:8-12 | to_string hands back the stored message unchanged |
| Operators.DefaultRgbNormalizeIsValid | EyeAICore/include/EyeAICore/Operators.hpp:46-47 | the default operator's mean is {123.675, 116.28, 103.53}, its stddev {58.395, 57.12, 57.375}, and no stddev is zero |
| Operators.SeqMin | EyeAICore/src/Operators.cpp:14-15 | the minimum is no larger than any element |
| Operators.SeqMax | EyeAICore/src/Operators.cpp:14-16 | the maximum is no smaller than any element |
| Operators.SeqMinIsAttained | EyeAICore/src/Operators.cpp:14-15 | the minimum is one of the elements |
| Operators.SeqMaxIsAttained | EyeAICore/src/Operators.cpp:14-16 | the maximum is one of the elements |
| Operators.RescaledBy | EyeAICore/src/Operators.cpp:20-23 | element i becomes `(v[i] - min) / diff`, for every i, with the length kept |
| Operators.Constant | EyeAICore/src/Operators.cpp:24-28 | every one of the n elements is the given value |
| Operators.MinMaxRescaled | EyeAICore/src/Operators.cpp:8-31 | the buffer keeps its length |
| Operators.MinMaxOfEmptyIsIdentity | EyeAICore/src/Operators.cpp:11-12 | an empty buffer is left as it is |
| Operators.MinMaxRescaledWhenSpread | EyeAICore/src/Operators.cpp:18-23 | when max - min > 0 every element is rescaled by the minimum and that difference |
| Operators.MinMaxRescaledWhenFlat | EyeAICore/src/Operators.cpp:24-28 | when max - min is not positive every element becomes 0.5 |
| Operators.MinMaxRescalesToUnitRange | EyeAICore/src/Operators.cpp:18-23 | when max > min every element becomes `(v - min) / (max - min)`, all results lie in [0, 1], and some element becomes 0 and some becomes 1 |
| Operators.MinMaxOfConstantIsHalf | EyeAICore/src/Operators.cpp:24-28 | a constant buffer (the only kind with max - min not positive) becomes all 0.5 |
| Operators.MinMaxResultInUnitRange | EyeAICore/src/Operators.cpp:8-31 | every result of MinMaxOperator, on any buffer, lies in [0, 1] |
| Operators.MinMaxIsIdempotent | EyeAICore/src/Operators.cpp:8-31 | running MinMaxOperator on its own output changes nothing |
| Operators.MinMaxOfUnitRangeIsFixed | EyeAICore/src/Operators.cpp:18-23 | a buffer within [0, 1] that holds both 0 and 1 is left as it is |
| Operators.MinMaxExamples | EyeAICore/src/Operators.cpp:8-31 | [5, 5, 5] becomes [0.5, 0.5, 0.5] and [0, 5, 10] becomes [0, 0.5, 1] |
| Operators.RgbNormalized | EyeAICore/src/Operators.cpp:43-48 | the buffer keeps its length |
| Operators.RgbNormalizeOfMeanIsZero | EyeAICore/src/Operators.cpp:43-48 | a pixel equal to the default mean normalises to zeros |
| Operators.Apply | EyeAICore/include/EyeAICore/Operators.hpp:22-51 | executing an operator keeps the buffer's length, and a failing one leaves the buffer unchanged |
| Operators.ApplySucceedsIff | EyeAICore/src/Operators.cpp:8-51 | MinMaxOperator always succeeds; RgbNormalizeOperator succeeds exactly when the length is a multiple of 3 |
| Operators.ExecuteMinMax | EyeAICore/src/Operators.cpp:8-31 | returns success, and the buffer becomes MinMaxRescaled of its old contents |
| Operators.ExecuteRgbNormalize | EyeAICore/src/Operators.cpp:33-51 | fails iff the length is not a multiple of 3, with the size message and the buffer untouched; otherwise element i becomes `(v - mean[i % 3]) / stddev[i % 3]` |
| Operators.Execute | EyeAICore/include/EyeAICore/Operators.hpp:31-32 | the virtual call's status and the new buffer are Apply on the old buffer |
| TfLiteUtils.FormatTfLiteTypeIsInvertible | EyeAICore/src/tflite/TfLiteUtils.cpp:324-369 | every listed element type has a name of its own that maps back to it; an unlisted tag prints "unknown", which names no type |
| TfLiteUtils.FormatTfLiteStatusIsInvertible | EyeAICore/src/tflite/TfLiteUtils.cpp:371-396 | every listed status has a name of its own that maps back to it; an unlisted code prints "unknown" |
| TfLiteUtils.TypeSize | EyeAICore/src/tflite/TfLiteUtils.cpp:398-429 | a known element size is 1, 2, 4 or 8 bytes |
| TfLiteUtils.TypeSizeTable | EyeAICore/src/tflite/TfLiteUtils.cpp:398-429 | float32 is 4 bytes, uint8 and int8 are 1, float16 and bfloat16 are 2; string, complex64/128, resource, variant, int4, no-type and unlisted tags have no size |
| TfLiteUtils.GetTensorQuantization | EyeAICore/src/tflite/TfLiteUtils.cpp:20-28 | affine parameters are returned exactly when the quantization type is not kTfLiteNoQuantization, and they are the tensor's own |
| TfLiteUtils.Trunc | EyeAICore/src/tflite/TfLiteUtils.cpp:276-278 | the float-to-integer cast truncates toward zero: less than 1 away from the value and never past it |
| TfLiteUtils.QuantizeByte | EyeAICore/src/tflite/TfLiteUtils.cpp:273-279 | one byte is `(trunc(v / scale) + zp) mod 256` |
| TfLiteUtils.QuantizeInvertsDequantize | EyeAICore/src/tflite/TfLiteUtils.cpp:273-279 | quantizing a dequantized byte gives the byte back whenever `q - zp` is in 0..255 |
| TfLiteUtils.DequantizeApproximatesQuantize | EyeAICore/src/tflite/TfLiteUtils.cpp:273-279 | dequantizing a quantized value is within one scale step of the value when the byte sum does not wrap |
| TfLiteUtils.QuantizedAll | EyeAICore/src/tflite/TfLiteUtils.cpp:273-279 | element i is the quantized values[i], for every i, and lengths agree |
| TfLiteUtils.DequantizedAll | EyeAICore/src/tflite/TfLiteUtils.cpp:314-320 | element i is `scale * (q[i] - zp)`, for every i, and lengths agree |
| TfLiteUtils.QuantizeFloatsSpec | EyeAICore/src/tflite/TfLiteUtils.cpp:243-282 | the result is the first failed check, and then the output is unchanged; the output keeps its length |
| TfLiteUtils.QuantizeChecksOrder | EyeAICore/src/tflite/TfLiteUtils.cpp:249-271 | the checks pass iff the type is uint8, the lengths agree and there is one scale and one zero point; each error kind arises exactly under its own condition given the earlier ones pass |
| TfLiteUtils.QuantizeFloats | EyeAICore/src/tflite/TfLiteUtils.cpp:243-282 | the returned status and the new output span are those of QuantizeFloatsSpec on the old span |
| TfLiteUtils.DequantizeSpec | EyeAICore/src/tflite/TfLiteUtils.cpp:284-322 | the result is the first failed check, and then the float span is unchanged; the span keeps its length |
| TfLiteUtils.DequantizeChecksOrder | EyeAICore/src/tflite/TfLiteUtils.cpp:290-312 | the same four checks in the same order as quantize, each error exactly under its condition |
| TfLiteUtils.DequantizeToFloats | EyeAICore/src/tflite/TfLiteUtils.cpp:284-322 | the returned status and the new float span are those of DequantizeSpec on the old span |
| TfLiteUtils.LoadInputSpec | EyeAICore/src/tflite/TfLiteUtils.cpp:134-148 | a failed load leaves the tensor as it was and is a quantized-load error iff the tensor is quantized; type, quantization, size and storage presence never change; a non-quantized load changes only the float view, a quantized one only the storage |
| TfLiteUtils.LoadNonQuantizedOrder | EyeAICore/src/tflite/TfLiteUtils.cpp:55-92 | a non-float32 type, then missing storage, then a count other than byteSize/4 are rejected in that order with those payloads; success iff all pass and the copy status is OK, and then the tensor holds the values |
| TfLiteUtils.LoadQuantizedOrder | EyeAICore/src/tflite/TfLiteUtils.cpp:95-132 | an element type with no size, then missing storage, then a count mismatch are rejected in that order; success iff the type is uint8, storage exists, the count equals the byte size and there is one scale and one zero point |
| TfLiteUtils.LoadNeverReportsQuantizationMismatch | EyeAICore/src/tflite/TfLiteUtils.cpp:117-131 | the quantize length check never fails through a load, because the count check before it already equates the lengths |
| TfLiteUtils.LoadInputTensorWithFloats | EyeAICore/src/tflite/TfLiteUtils.cpp:134-148 | the returned status and the tensor's new state are LoadInputSpec of its old state |
| TfLiteUtils.LoadNonQuantizedInput | EyeAICore/src/tflite/TfLiteUtils.cpp:55-92 | the status and the new tensor state follow the non-quantized load's checks in order |
| TfLiteUtils.LoadQuantizedInput | EyeAICore/src/tflite/TfLiteUtils.cpp:95-132 | the status and the new tensor storage follow the quantized load's checks and then quantize_floats over the storage |
| TfLiteUtils.ReadOutputSpec | EyeAICore/src/tflite/TfLiteUtils.cpp:227-241 | a failed read leaves the buffer as it was and is a quantized-read error iff the tensor is quantized; the buffer keeps its length |
| TfLiteUtils.ReadNonQuantizedOrder | EyeAICore/src/tflite/TfLiteUtils.cpp:151-186 | a non-float32 type, then a count mismatch, are rejected in order; there is no missing-storage check; success iff both pass and the copy status is OK, and then the buffer holds the tensor's floats |
| TfLiteUtils.ReadQuantizedOrder | EyeAICore/src/tflite/TfLiteUtils.cpp:188-225 | no size, then no storage, then a count mismatch, in order; success iff uint8, storage present, matching count and one scale and zero point |
| TfLiteUtils.ReadNeverReportsQuantizationMismatch | EyeAICore/src/tflite/TfLiteUtils.cpp:209-224 | the dequantize length check never fails through a read |
| TfLiteUtils.NonQuantizedLoadThenRead | EyeAICore/src/tflite/TfLiteUtils.cpp:55-186 | loading floats into a float32 tensor and reading them back gives exactly those floats |
| TfLiteUtils.QuantizedLoadThenRead | EyeAICore/src/tflite/TfLiteUtils.cpp:243-322 | loading into a uint8 tensor and reading back succeeds and gives every value back to within one scale step, when no byte sum wraps |
| TfLiteUtils.ReadFloatsFromOutputTensor | EyeAICore/src/tflite/TfLiteUtils.cpp:227-241 | the status and the buffer's new contents are ReadOutputSpec of the tensor and the old buffer |
| TfLiteUtils.ReadNonQuantizedOutput | EyeAICore/src/tflite/TfLiteUtils.cpp:151-186 | the status and the buffer follow the non-quantized read's checks and copy |
| TfLiteUtils.ReadQuantizedOutput | EyeAICore/src/tflite/TfLiteUtils.cpp:188-225 | the status and the buffer follow the quantized read's checks and dequantize_to_floats |
| TfLiteRuntimes.BaseOptions | EyeAICore/src/tflite/TfLiteRuntime.cpp:42-53 | the options without the delegate have 4 threads, the error reporter and no delegate |
| TfLiteRuntimes.DelegateOptions | EyeAICore/src/tflite/TfLiteRuntime.cpp:55-67 | the delegate options are a copy of the base options with the GPU delegate added |
| TfLiteRuntimes.CreateWarnings | EyeAICore/src/tflite/TfLiteRuntime.cpp:77-81 | create emits at most one warning |
| TfLiteRuntimes.CreatePlanCases | EyeAICore/src/tflite/TfLiteRuntime.cpp:69-111 | an interpreter error iff both attempts yield null; an allocation error carrying the status iff an attempt succeeded and allocation is not OK; success iff an attempt succeeded and allocation is OK, and the delegate is kept iff the first attempt succeeded; the fallback warning is emitted iff the first attempt failed |
| TfLiteRuntimes.RunOperatorsSpec | EyeAICore/src/tflite/TfLiteRuntime.cpp:141-145 | running an operator list keeps the buffer's length |
| TfLiteRuntimes.RunOperatorsAppend | EyeAICore/src/tflite/TfLiteRuntime.cpp:141-145 | running `a + b` is running `a` and then, unless it failed, `b` on its result |
| TfLiteRuntimes.FirstOperatorFailureWins | EyeAICore/src/tflite/TfLiteRuntime.cpp:141-145 | the first failing operator's error is the result, no later operator runs, and the buffer keeps what the earlier ones did |
| TfLiteRuntimes.RunInferenceSpec | EyeAICore/src/tflite/TfLiteRuntime.cpp:134-170 | the input buffer keeps its length, and on success so does the output buffer |
| TfLiteRuntimes.AfterPreprocessing | EyeAICore/src/tflite/TfLiteRuntime.cpp:148-169 | the stages after the input operators never change the input buffer, and on success the output keeps its length |
| TfLiteRuntimes.AfterLoad | EyeAICore/src/tflite/TfLiteRuntime.cpp:150-168 | on success the output buffer keeps its length |
| TfLiteRuntimes.InputOperatorFailureStopsPipeline | EyeAICore/src/tflite/TfLiteRuntime.cpp:141-145 | a failing input operator is the result; the input tensor and the output buffer are untouched, so nothing is loaded, invoked or read |
| TfLiteRuntimes.RunInferenceSucceedsIff | EyeAICore/src/tflite/TfLiteRuntime.cpp:134-170 | run_inference succeeds iff the input operators, the load, the invoke, the read and the output operators all succeed; then the input holds the preprocessed values, the tensor the loaded state and the output the output operators applied to what was read |
| TfLiteRuntimes.OutputOperatorFailureKeepsEarlierChanges | EyeAICore/src/tflite/TfLiteRuntime.cpp:156-167 | a failing output operator is the result, and the output buffer keeps what was read and what the output operators before it did |
| TfLiteRuntimes.ReleaseOrderOfCreatedRuntime | EyeAICore/src/tflite/TfLiteRuntime.cpp:114-121 | for a created runtime the interpreter is released first, then the delegate when kept, the options, the model, and the model bytes last |
| TfLiteRuntimes.TfLiteRuntime.constructor | EyeAICore/include/EyeAICore/tflite/TfLiteRuntime.hpp:72-81 | the private constructor takes the model bytes and both operator lists; every engine handle starts out null |
| TfLiteRuntimes.TfLiteRuntime.Create | EyeAICore/src/tflite/TfLiteRuntime.cpp:18-112 | the warnings and the result follow CreatePlan; a created runtime is new, valid, owns the bytes and operator lists, holds the interpreter of the attempt that succeeded and keeps the delegate only if create_gpu_delegate returned one and that attempt used it |
| TfLiteRuntimes.CreatedWithoutDelegateReleasesNoDelegate | EyeAICore/src/tflite/TfLiteRuntime.cpp:65-121 | a created runtime whose delegate came back null, or whose fallback interpreter was taken, holds no delegate and releases interpreter, options and model with no delegate among them |
| TfLiteRuntimes.TfLiteRuntime.Release | EyeAICore/src/tflite/TfLiteRuntime.cpp:114-121 | the handles are released in the order interpreter, delegate, options, model (each only if present), then the operator lists and the model bytes; afterwards every handle is null |
| TfLiteRuntimes.TfLiteRuntime.Invoke | EyeAICore/src/tflite/TfLiteRuntime.cpp:123-132 | invoke succeeds iff the engine's status is OK, and otherwise carries that status |
| TfLiteRuntimes.TfLiteRuntime.RunInference | EyeAICore/src/tflite/TfLiteRuntime.cpp:134-170 | the result, both buffers and the input tensor become RunInferenceSpec of their old values, and the runtime stays valid |
| TfLiteRuntimes.TfLiteRuntime.AfterInputOperators | EyeAICore/src/tflite/TfLiteRuntime.cpp:143-149 | after the input operators' result, the rest of the method agrees with RunInferenceSpec |
| TfLiteRuntimes.TfLiteRuntime.LoadInvokeRead | EyeAICore/src/tflite/TfLiteRuntime.cpp:149-180 | the load and what follows it agree with AfterPreprocessing |
| TfLiteRuntimes.TfLiteRuntime.AfterLoadStage | EyeAICore/src/tflite/TfLiteRuntime.cpp:149-155 | a failed load is the result; otherwise invoke and read follow, as AfterPreprocessing says |
| TfLiteRuntimes.TfLiteRuntime.InvokeAndRead | EyeAICore/src/tflite/TfLiteRuntime.cpp:150-190 | the invoke, the read and the output operators agree with AfterLoad |
| TfLiteRuntimes.RunOperators | EyeAICore/src/tflite/TfLiteRuntime.cpp:141-145 | the loop over an operator list returns and leaves what RunOperatorsSpec says |
| TfLiteRuntimes.TfLiteRuntimeBuilder.constructor | EyeAICore/src/tflite/TfLiteRuntime.cpp:224-234 | the builder keeps the model bytes, directory and token, with both operator lists empty |
| TfLiteRuntimes.TfLiteRuntimeBuilder.AddInputOperator | EyeAICore/src/tflite/TfLiteRuntime.cpp:236-241 | appends to the input operators only and returns the builder itself |
| TfLiteRuntimes.TfLiteRuntimeBuilder.AddOutputOperator | EyeAICore/src/tflite/TfLiteRuntime.cpp:243-248 | appends to the output operators only and returns the builder itself |
| TfLiteRuntimes.TfLiteRuntimeBuilder.Build | EyeAICore/src/tflite/TfLiteRuntime.cpp:250-257 | build is create applied to everything the builder collected, with the same warnings and result |
| DepthModels.DepthOperatorsAreValid | EyeAICore/src/DepthModel.cpp:18-19 | the depth pipeline's operators (default RgbNormalize in, MinMax out) are valid |
| DepthModels.RunSingleOperator | EyeAICore/src/tflite/TfLiteRuntime.cpp:141-145 | a one-operator list runs exactly that operator |
| DepthModels.DepthInferenceProperties | EyeAICore/src/DepthModel.cpp:13-30 | through the depth pipeline, an input whose length is not a multiple of 3 fails with the normalise error and changes neither the tensor nor the output; otherwise no operator error can arise; on success every output value is in [0, 1] |
| DepthModels.DepthModel.constructor | EyeAICore/src/DepthModel.cpp:24 | the model wraps the runtime it is given |
| DepthModels.DepthModel.Create | EyeAICore/src/DepthModel.cpp:5-25 | registers exactly [RgbNormalize] and [MinMax] through the builder; a build error is returned unchanged; on success the model is new, valid and wraps the runtime that was built, which keeps a delegate iff create_gpu_delegate returned one and the first attempt succeeded |
| DepthModels.DepthModel.Run | EyeAICore/src/DepthModel.cpp:27-30 | run forwards both buffers to run_inference and returns its result and effects |
| YoloModels.YoloModel.constructor | EyeAICore/src/YoloModel.cpp:7 | a new model has no runtime |
| YoloModels.YoloModel.Create | EyeAICore/src/YoloModel.cpp:9-36 | creates a runtime with [RgbNormalize] and [MinMax]; a creation error is returned unchanged and the model keeps its runtime; on success the new runtime is stored and true is returned, and it keeps a delegate iff create_gpu_delegate returned one and the first attempt succeeded |
| YoloModels.YoloModel.Run | EyeAICore/src/YoloModel.cpp:38-41 | run returns the stored runtime's run_inference result and effects |
| ImageUtils.ColorRgb | EyeAICore/include/EyeAICore/utils/ImageUtils.hpp:11-13 | color_rgb always has alpha 255 and keeps the red, green and blue it was given |
| ImageUtils.ChannelsOfColorArgb | EyeAICore/include/EyeAICore/utils/ImageUtils.hpp:6-23 | the red, green and blue extractors (and the alpha byte) give back the channels color_argb packed |
| ImageUtils.ColorArgbOfChannels | EyeAICore/include/EyeAICore/utils/ImageUtils.hpp:6-23 | every 32-bit colour is the packing of its own four channels, so packing and extraction are inverse |
| DepthColormaps.InfernoColor | EyeAICore/src/utils/DepthColormap.cpp:37-166 | every table entry is built with color_rgb, so it has alpha 255 |
| DepthColormaps.Clamp | EyeAICore/src/utils/DepthColormap.cpp:169 | the clamped depth is in [0, 1]: 0 for depths at or below 0, 1 at or above 1, the depth itself in between |
| DepthColormaps.InfernoIndex | EyeAICore/src/utils/DepthColormap.cpp:30 | the index `trunc(clamped * 255)` is always inside the 256-entry table |
| DepthColormaps.InfernoDepthColormap | EyeAICore/src/utils/DepthColormap.cpp:168-173 | every colour the map returns is opaque |
| DepthColormaps.InfernoIndexIsMonotone | EyeAICore/src/utils/DepthColormap.cpp:169-171 | the index does not decrease as the depth increases |
| DepthColormaps.InfernoIndexOfStep | EyeAICore/src/utils/DepthColormap.cpp:169-172 | the depth k/255 selects entry k, so every entry is reachable |
| DepthColormaps.InfernoIndexExtremes | EyeAICore/src/utils/DepthColormap.cpp:169-171 | the last entry is chosen iff depth >= 1 and the first iff depth < 1/255 |
| DepthColormaps.InfernoEndpoints | EyeAICore/src/utils/DepthColormap.cpp:168-173 | depth <= 0 gives color_rgb(0, 0, 4) and depth >= 1 gives color_rgb(252, 255, 164) |
| DepthColormaps.Colormapped | EyeAICore/src/utils/DepthColormap.cpp:23-25 | the colour-mapped buffer has the depth buffer's length and only opaque pixels |
| DepthColormaps.ColormappedAt | EyeAICore/src/utils/DepthColormap.cpp:23-25 | pixel i is the table colour at the index of depth value i |
| DepthColormaps.DepthColormap | EyeAICore/src/utils/DepthColormap.cpp:10-28 | fails iff the lengths differ, with the size message and no pixel written; otherwise every pixel becomes the colour of the depth at the same index and nothing else is written |
| AndroidImageUtils.CheckAndroidBitmapResult | EyeAIApp/app/src/main/cpp/ImageUtils.cpp:7-22 | success exactly for ANDROID_BITMAP_RESULT_SUCCESS; every other code fails with a message that starts "Android Bitmap error: " |
| AndroidImageUtils.KnownCodeMessagesAreDistinct | EyeAIApp/app/src/main/cpp/ImageUtils.cpp:7-22 | the messages for bad parameter, JNI exception and allocation failure differ from each other and from the message of any other failing code |
| AndroidImageUtils.ConversionSucceedsIff | EyeAIApp/app/src/main/cpp/ImageUtils.cpp:31-74 | a conversion succeeds exactly when getInfo, lockPixels and unlockPixels succeed, the format is RGBA_8888, the output holds three floats per pixel and the pixel address is not null; it throws invalid_argument exactly when getInfo and the format are fine but the output size is wrong; it writes the output exactly when every check before the loop passes |
| AndroidImageUtils.ByteFloat | EyeAIApp/app/src/main/cpp/ImageUtils.cpp:68-71 | a channel byte converted to a float lies in [0, 255] |
| AndroidImageUtils.HwcFloats | EyeAIApp/app/src/main/cpp/ImageUtils.cpp:64-72 | the HWC layout has three floats per pixel, each in [0, 255] |
| AndroidImageUtils.HwcFloatsAt | EyeAIApp/app/src/main/cpp/ImageUtils.cpp:64-72 | floats 3i, 3i + 1 and 3i + 2 are the red, green and blue channels of pixel i |
| AndroidImageUtils.Plane | EyeAIApp/app/src/main/cpp/ImageUtils.cpp:123-131 | one colour plane has one float per pixel: that pixel's channel divided by 255 |
| AndroidImageUtils.ChwFloats | EyeAIApp/app/src/main/cpp/ImageUtils.cpp:117-131 | the CHW layout has three floats per pixel |
| AndroidImageUtils.ChwFloatsAt | EyeAIApp/app/src/main/cpp/ImageUtils.cpp:117-131 | floats i, n + i and 2n + i of the CHW layout are pixel i of the red, green and blue planes |
| AndroidImageUtils.ChwIsTransposedHwc | EyeAIApp/app/src/main/cpp/ImageUtils.cpp:117-131 | float c·n + i of the CHW layout is float 3i + c of the HWC layout divided by 255: the two conversions agree up to transposition and scale |
| AndroidImageUtils.ChwFloatsInUnitRange | EyeAIApp/app/src/main/cpp/ImageUtils.cpp:117-131 | every CHW float lies in [0, 1] |
| AndroidImageUtils.BitmapToRgbHwc255FloatArray | EyeAIApp/app/src/main/cpp/ImageUtils.cpp:24-75 | the result is the first failed check or else the unlock status; once the checks pass the output holds the HWC floats of the locked pixels, and otherwise it is left untouched |
| AndroidImageUtils.WriteHwcFloats | EyeAIApp/app/src/main/cpp/ImageUtils.cpp:64-72 | the loop with i over pixels and j over floats fills the output with exactly the HWC floats |
| AndroidImageUtils.BitmapToRgbChwFloatArray | EyeAIApp/app/src/main/cpp/ImageUtils.cpp:77-134 | as the HWC conversion, with the CHW floats in the output |
| AndroidImageUtils.WriteChwFloats | EyeAIApp/app/src/main/cpp/ImageUtils.cpp:117-131 | the loop writing each pixel at offsets 0, n and 2n fills the output with exactly the CHW floats |
| AndroidImageUtils.PackPixels | EyeAIApp/app/src/main/cpp/ImageUtils.cpp:149-157 | one pixel per four bytes; a trailing partial group is dropped |
| AndroidImageUtils.PackPixelsAt | EyeAIApp/app/src/main/cpp/ImageUtils.cpp:149-157 | pixel i is colour_argb of bytes 4i + 3 (alpha), 4i (red), 4i + 1 (green) and 4i + 2 (blue) |
| AndroidImageUtils.UnpackPackPixels | EyeAIApp/app/src/main/cpp/ImageUtils.cpp:149-157 | for a whole number of pixels, unpacking the packed pixels gives the bytes back |
| AndroidImageUtils.PackUnpackPixels | EyeAIApp/app/src/main/cpp/ImageUtils.cpp:149-157 | every pixel sequence is the packing of its own bytes, so packing is a bijection onto pixel sequences |
| AndroidImageUtils.ImageBytesToArgbIntArray | EyeAIApp/app/src/main/cpp/ImageUtils.cpp:136-160 | fails, with both byte counts in the message and without writing, exactly when the input does not have four bytes per output pixel; otherwise the output holds the packed pixels |
| LegacyImageUtils.SignExtend | EyeAIApp/app/src/main/cpp/src/utils/ImageUtils.cpp:131-135 | a jbyte promoted to int keeps its low byte; below 0x80 it is the byte itself, otherwise the upper 24 bits are all ones |
| LegacyImageUtils.LegacyColorRgb | EyeAIApp/app/src/main/cpp/src/utils/ImageUtils.hpp:11-14 | the legacy color_rgb always has a top byte of 0xFF, whatever its int arguments |
| LegacyImageUtils.LegacyRedChannel | EyeAIApp/app/src/main/cpp/src/utils/ImageUtils.hpp:16-18 | the red extractor returns an int in 0..255 |
| LegacyImageUtils.LegacyGreenChannel | EyeAIApp/app/src/main/cpp/src/utils/ImageUtils.hpp:19-21 | the green extractor returns an int in 0..255 |
| LegacyImageUtils.LegacyBlueChannel | EyeAIApp/app/src/main/cpp/src/utils/ImageUtils.hpp:22 | the blue extractor returns an int in 0..255 |
| LegacyImageUtils.LegacyColorArgbOnBytes | EyeAIApp/app/src/main/cpp/src/utils/ImageUtils.hpp:6-22 | on arguments in 0..255 the legacy color_argb equals the newer one, and the legacy extractors give the channels back |
| LegacyImageUtils.LegacyChannelsNeedByteRange | EyeAIApp/app/src/main/cpp/src/utils/ImageUtils.hpp:6-14 | outside 0..255 the channels do not survive: color_rgb(0, 0, -128) has red and green 255 |
| LegacyImageUtils.LegacyCheckAndroidBitmapResult | EyeAIApp/app/src/main/cpp/src/utils/ImageUtils.cpp:6-24 | logs nothing exactly on success and at most one line otherwise |
| LegacyImageUtils.LegacyCheckLogsCoreMessage | EyeAIApp/app/src/main/cpp/src/utils/ImageUtils.cpp:6-24 | the line it logs for a failing code is the message the newer check returns |
| LegacyImageUtils.LegacyPrecheckIgnoresStatus | EyeAIApp/app/src/main/cpp/src/utils/ImageUtils.cpp:26-47 | a legacy conversion gets past its checks exactly when the format is RGBA_8888, the output size is right and the address is not null, whatever getInfo and lockPixels report; with both succeeding it agrees with the newer checks |
| LegacyImageUtils.LegacyBitmapToRgbHwc255FloatArray | EyeAIApp/app/src/main/cpp/src/utils/ImageUtils.cpp:26-68 | throws the first failed check's exception with the logs so far and no write; otherwise the output holds the HWC floats and the unlock status is logged |
| LegacyImageUtils.LegacyBitmapToRgbChwFloatArray | EyeAIApp/app/src/main/cpp/src/utils/ImageUtils.cpp:70-117 | as above with the CHW floats |
| LegacyImageUtils.LegacyPackPixels | EyeAIApp/app/src/main/cpp/src/utils/ImageUtils.cpp:128-136 | one pixel per four bytes, as written with each jbyte sign-extended |
| LegacyImageUtils.LegacyPackPixelsAt | EyeAIApp/app/src/main/cpp/src/utils/ImageUtils.cpp:128-136 | pixel i is the legacy color_argb of the four sign-extended bytes 4i + 3, 4i, 4i + 1 and 4i + 2 |
| LegacyImageUtils.LegacyPackPixelsSignBug | EyeAIApp/app/src/main/cpp/src/utils/ImageUtils.cpp:128-136 | bytes 00 00 80 FF pack to 0xFFFFFF80 as written, while the newer packing gives 0xFF000080 |
| LegacyImageUtils.LegacyPackAgreesWithoutSignBits | EyeAIApp/app/src/main/cpp/src/utils/ImageUtils.cpp:128-136 | when no byte has its top bit set the legacy packing equals the newer one |
| LegacyImageUtils.LegacyImageBytesToArgbIntArray | EyeAIApp/app/src/main/cpp/src/utils/ImageUtils.cpp:119-137 | throws invalid_argument("out_pixels") without writing exactly when the input lacks four bytes per pixel; otherwise the output holds the legacy packing |
| LegacyTfLiteUtils.IsTensorQuantizedAgreesWithCore | EyeAIApp/app/src/main/cpp/src/tflite/TfLiteUtils.hpp:16-18 | a tensor is quantized exactly when its quantization is affine, which is exactly when the newer get_tensor_quantization finds parameters, and then those are the parameters |
| LegacyTfLiteUtils.StatusExceptionMessageNamesStatus | EyeAIApp/app/src/main/cpp/src/tflite/TfLiteUtils.hpp:20-33 | a status exception's message is its context, ": ", and a name from which the status can be read back (statuses outside the enumeration print as "unknown") |
| LegacyTfLiteUtils.ThrowOnTfLiteStatus | EyeAIApp/app/src/main/cpp/src/tflite/TfLiteUtils.hpp:34-38 | throws exactly when the status is not ok, and then a status exception carrying that status and context |
| LegacyTfLiteUtils.CheckTfLiteStatus | EyeAIApp/app/src/main/cpp/src/tflite/TfLiteUtils.hpp:304-316 | never throws; logs nothing exactly when the status is ok and at most one line otherwise |
| LegacyTfLiteUtils.CheckTfLiteStatusLogsStatusName | EyeAIApp/app/src/main/cpp/src/tflite/TfLiteUtils.hpp:304-316 | the logged line starts with the function name and names the status so that it can be read back |
| LegacyTfLiteUtils.TfLiteTypeFromType | EyeAIApp/app/src/main/cpp/src/tflite/TfLiteUtils.hpp:178-194 | TFLITE_TYPE_FROM_TYPE is kTfLiteNoType exactly for an unlisted C++ type |
| LegacyTfLiteUtils.TfLiteTypeFromTypeMatchesSizes | EyeAIApp/app/src/main/cpp/src/tflite/TfLiteUtils.hpp:178-228 | the listed C++ types map to distinct tensor types, and get_tflite_type_size of each such type is the size of the C++ type |
| LegacyTfLiteUtils.QuantizeChecksMatchCore | EyeAIApp/app/src/main/cpp/src/tflite/TfLiteUtils.hpp:125-137 | quantize<float> rejects exactly what the newer quantize_floats rejects, in the same order, with the exception that stands for the same error |
| LegacyTfLiteUtils.DequantizeChecksMatchCore | EyeAIApp/app/src/main/cpp/src/tflite/TfLiteUtils.hpp:156-168 | the same for dequantize<float> and dequantize_floats |
| LegacyTfLiteUtils.Quantize | EyeAIApp/app/src/main/cpp/src/tflite/TfLiteUtils.hpp:116-145 | on a failed check it throws that check's exception and writes nothing; otherwise byte i is uint8(values[i] / scale) + zero_point wrapped to a byte |
| LegacyTfLiteUtils.Dequantize | EyeAIApp/app/src/main/cpp/src/tflite/TfLiteUtils.hpp:147-176 | on a failed check it throws and writes nothing; otherwise real value i is scale · (quantized[i] − zero_point) |
| LegacyTfLiteRuntimes.LoadInputSpec | EyeAIApp/app/src/main/cpp/src/tflite/TfLiteRuntime.hpp:73-84 | load_input dispatches on is_tensor_quantized; a load that throws leaves the tensor as it was, and no load changes the tensor's type, quantization, byte size or whether it has storage |
| LegacyTfLiteRuntimes.LoadQuantizedOrder | EyeAIApp/app/src/main/cpp/src/tflite/TfLiteRuntime.hpp:111-139 | the quantized load throws, in order, for a type without a size, for missing storage and for a storage count other than the input length; it never reaches quantize's own invalid_argument; it succeeds exactly for a uint8 tensor with storage, one byte per input and single scale and zero point |
| LegacyTfLiteRuntimes.LoadAgreesWithCore | EyeAIApp/app/src/main/cpp/src/tflite/TfLiteRuntime.hpp:73-139 | where the legacy and the newer load both succeed they leave the same tensor, and on a quantized tensor they succeed on the same inputs |
| LegacyTfLiteRuntimes.ReadOutputSpec | EyeAIApp/app/src/main/cpp/src/tflite/TfLiteRuntime.hpp:86-98 | read_output dispatches on is_tensor_quantized; a read that throws leaves the buffer unchanged, and a successful one fills the whole buffer |
| LegacyTfLiteRuntimes.ReadQuantizedOrder | EyeAIApp/app/src/main/cpp/src/tflite/TfLiteRuntime.hpp:141-171 | the quantized read throws in the same order as the quantized load, never reaches dequantize's own invalid_argument, and succeeds exactly under the same conditions |
| LegacyTfLiteRuntimes.NonQuantizedLoadThenRead | EyeAIApp/app/src/main/cpp/src/tflite/TfLiteRuntime.cpp:55-85 | floats loaded into a non-quantized float tensor are read back unchanged |
| LegacyTfLiteRuntimes.RunInferenceStages | EyeAIApp/app/src/main/cpp/src/tflite/TfLiteRuntime.hpp:49-70 | run_inference succeeds exactly when load, invoke and read all do; the first failing stage's exception is thrown (a failed invoke as "failed to invoke interpreter" with its status); a failed run leaves the caller's buffer unchanged |
| LegacyTfLiteRuntimes.TfLiteRuntime.constructor | EyeAIApp/app/src/main/cpp/src/tflite/TfLiteRuntime.hpp:21-41 | a runtime over an allocated interpreter starts with no profiler entries |
| LegacyTfLiteRuntimes.TfLiteRuntime.RunInference | EyeAIApp/app/src/main/cpp/src/tflite/TfLiteRuntime.hpp:49-70 | the input tensor and output buffer end as the run specification says; only a run that completes hands the recorded profiler entries to the caller and clears the runtime's list, and a run that throws leaves both lists as they were |
| LegacyTfLiteRuntimes.LoadInvokeRead | EyeAIApp/app/src/main/cpp/src/tflite/TfLiteRuntime.hpp:57-66 | the three stages on the interpreter's tensors leave the state the run specification describes |
| LegacyTfLiteRuntimes.AfterLoadStage | EyeAIApp/app/src/main/cpp/src/tflite/TfLiteRuntime.hpp:57-66 | after the load has reported its result, the rest of the run gives the run specification's outcome and output |
| LegacyTfLiteRuntimes.InvokeAndRead | EyeAIApp/app/src/main/cpp/src/tflite/TfLiteRuntime.hpp:58-66 | the invoke and the read give the outcome and buffer of the invoke-and-read specification |
| LegacyTfLiteRuntimes.LoadInput | EyeAIApp/app/src/main/cpp/src/tflite/TfLiteRuntime.hpp:73-84 | load_input on the interpreter's input tensor leaves the tensor the load specification describes |
| LegacyTfLiteRuntimes.LoadNonQuantizedInput | EyeAIApp/app/src/main/cpp/src/tflite/TfLiteRuntime.cpp:55-69 | a tensor of another type throws WrongTypeException with the tensor's type first; a failed copy throws "failed to load input from tensor"; otherwise the tensor holds the floats |
| LegacyTfLiteRuntimes.LoadQuantizedInput | EyeAIApp/app/src/main/cpp/src/tflite/TfLiteRuntime.hpp:111-139 | the quantized load leaves the tensor the quantized-load specification describes: unchanged on a throw, the quantized bytes otherwise |
| LegacyTfLiteRuntimes.ReadOutput | EyeAIApp/app/src/main/cpp/src/tflite/TfLiteRuntime.hpp:86-98 | read_output from the interpreter's output tensor yields the outcome and buffer of the read specification |
| LegacyTfLiteRuntimes.ReadNonQuantizedOutput | EyeAIApp/app/src/main/cpp/src/tflite/TfLiteRuntime.cpp:71-85 | a tensor of another type throws WrongTypeException; a failed copy throws "failed to read output from tensor"; otherwise the buffer holds the tensor's floats |
| LegacyTfLiteRuntimes.ReadQuantizedOutput | EyeAIApp/app/src/main/cpp/src/tflite/TfLiteRuntime.hpp:141-171 | the quantized read yields the quantized-read specification's outcome: the buffer unchanged on a throw, the dequantized storage otherwise |
| MetricDepthUtils.DigitRun | EyeAICore/metric_depth/src/utils.hpp:116-117 | the run of digits a `\d+` group can span from a position: every character in it is a digit, and the character after it is not |
| MetricDepthUtils.DigitRunEnds | EyeAICore/metric_depth/src/utils.hpp:116-117 | a run of digits followed by a non-digit is the run that starts there, so the id groups are determined by the name |
| MetricDepthUtils.MatchDataPointIsSound | EyeAICore/metric_depth/src/utils.hpp:115-151 | every name a matcher accepts is a dataset file name: it spells `scene_scan_label_imgname` and then the suffix in some case; its key is well formed (non-empty digit ids, a non-empty word for the image name); and the key is indoors exactly when the label is exactly "indoors" |
| MetricDepthUtils.KeyOfGroups | EyeAICore/metric_depth/src/utils.hpp:115-125 | a name whose groups lie at the positions the regular expression fixes yields a well-formed key and is the file name of those groups |
| MetricDepthUtils.MatchedKeyIsWellFormed | EyeAICore/metric_depth/src/utils.hpp:115-125 | the key built from the groups has non-empty digit ids and a non-empty word for the image name |
| MetricDepthUtils.MatchGroups | EyeAICore/metric_depth/src/utils.hpp:115-125 | an accepted name has its separators, its digit groups, its label, its word and its suffix where the regular expression puts them |
| MetricDepthUtils.FileNameOfParts | EyeAICore/metric_depth/src/utils.hpp:115-125 | a name with underscores at three positions is the concatenation of the groups between them |
| MetricDepthUtils.FileNameParts | EyeAICore/metric_depth/src/utils.hpp:115-125 | in a dataset file name the scene id, the scan id, the label, the image name and the suffix lie at fixed positions, separated by underscores |
| MetricDepthUtils.MatchOfParts | EyeAICore/metric_depth/src/utils.hpp:115-125 | a name whose groups lie where they should is accepted, with the key those groups spell |
| MetricDepthUtils.MatchDataPointIsComplete | EyeAICore/metric_depth/src/utils.hpp:115-151 | every dataset file name with a well-formed key, either label in any case and the suffix in any case is accepted, with the key it spells |
| MetricDepthUtils.ImageFileNameRoundTrip | EyeAICore/metric_depth/src/utils.hpp:115-125 | the image file name of a well-formed point is matched back to that same point |
| MetricDepthUtils.MatchLabelIsCaseSensitive | EyeAICore/metric_depth/src/utils.hpp:116-122 | the label is matched in any case, but an upper-case INDOORS makes an outdoor point; only the exact "indoors" is indoors |
| MetricDepthUtils.MatchHasSuffix | EyeAICore/metric_depth/src/utils.hpp:115-151 | an accepted name is longer than the suffix and ends with it, in some case |
| MetricDepthUtils.SuffixesDisagree | EyeAICore/metric_depth/src/utils.hpp:117-143 | no name ends, in any case, with two of ".png", "_depth.npy" and "_depth_mask.npy" |
| MetricDepthUtils.MatchersAreExclusive | EyeAICore/metric_depth/src/utils.hpp:115-151 | no file name is accepted by two of the three matchers |
| MetricDepthUtils.MatchScanDirectory | EyeAICore/metric_depth/src/utils.hpp:153-162 | an accepted directory name is "scan_" in some case followed by a non-empty digit string, and the result is that string |
| MetricDepthUtils.ScanDirectoryRoundTrip | EyeAICore/metric_depth/src/utils.hpp:153-162 | any spelling of "scan_" followed by a non-empty digit string is accepted and yields those digits |
| MetricDepthUtils.DataPointToString | EyeAICore/metric_depth/src/utils.hpp:95-100 | the text starts with "indoors" or "outdoor", as the point is |
| MetricDepthUtils.DataPointToStringIsInjective | EyeAICore/metric_depth/src/utils.hpp:93-100 | two well-formed points with the same text are equal, so the skip messages name the point they are about |
| MetricDepthUtils.ToStringParts | EyeAICore/metric_depth/src/utils.hpp:95-100 | in the text of a well-formed point, the scene id is the digit run at 14, the scan id the digit run seven characters after it, and the image name the rest after ", image " |
| MetricDepthUtils.ClassifyEntryEffect | EyeAICore/metric_depth/src/utils.hpp:385-409 | one directory entry only sets the key it has, in the map of its kind, to its path; every other key of every map is unchanged |
| MetricDepthUtils.ClassifyLastEntryWins | EyeAICore/metric_depth/src/utils.hpp:382-410 | the last regular file of a kind keyed as a point gives that point's path in the map of that kind |
| MetricDepthUtils.ClassifyHasKeyIff | EyeAICore/metric_depth/src/utils.hpp:382-410 | a point is in the map of a kind exactly when some regular file of that kind is keyed as it |
| MetricDepthUtils.Join | EyeAICore/metric_depth/src/utils.hpp:412-428 | a point is joined exactly when it has an image, a depth and a depth mask |
| MetricDepthUtils.SearchForImagesInScan | EyeAICore/metric_depth/src/utils.hpp:376-446 | the scan holds the directory and the join of the classification of all of its entries, in their iteration order |
| MetricDepthUtils.ScanPointsAreLastMatches | EyeAICore/metric_depth/src/utils.hpp:376-446 | a point with files of all three kinds is in the scan, with the paths of the last image, depth and mask files keyed as it |
| MetricDepthUtils.ScanHasPointIff | EyeAICore/metric_depth/src/utils.hpp:376-446 | a point is in the scan exactly when regular files of all three kinds are keyed as it |
| MetricDepthEvaluation.SizeErrorMessageNamesWrongSize | EyeAICore/metric_depth/src/utils.hpp:188-207 | a failed size check's text starts with the failing check's prefix, then the size it measured (which reads back as that size and differs from the expected one), then " instead of " |
| MetricDepthEvaluation.SizeMessageNamesSize | EyeAICore/metric_depth/src/utils.hpp:189-207 | a size error's text is its prefix, then the offending size in decimal (which reads back as that size), then " instead of " |
| MetricDepthEvaluation.EvaluateChecksPassIff | EyeAICore/metric_depth/src/utils.hpp:188-207 | the checks pass exactly for an image of 256·256 whole pixels (plus at most two stray values) and depth and mask images of 1024·768 values each; a failure reports the first wrong size, the image's as a pixel count |
| MetricDepthEvaluation.ScaledPositionIsExact | EyeAICore/metric_depth/src/utils.hpp:222-229 | the relative position of input pixel (x, y), scaled to the dataset image and truncated, is exactly column 4x and row 3y |
| MetricDepthEvaluation.InputIndex | EyeAICore/metric_depth/src/utils.hpp:221 | the row-major index of an input pixel lies inside the 256·256 buffer |
| MetricDepthEvaluation.DatasetIndex | EyeAICore/metric_depth/src/utils.hpp:226-229 | the dataset index of an input pixel lies inside the 1024·768 buffer |
| MetricDepthEvaluation.RowParts | EyeAICore/metric_depth/src/utils.hpp:220-241 | a row has one contribution per column, each that pixel's pair or nothing |
| MetricDepthEvaluation.Rows | EyeAICore/metric_depth/src/utils.hpp:219-242 | there is one row of pairs per input row, each the contributions of its pixels in order |
| MetricDepthEvaluation.FlattenStep | EyeAICore/metric_depth/src/utils.hpp:219-242 | appending a part appends it to the flattened pairs |
| MetricDepthEvaluation.FlattenAt | EyeAICore/metric_depth/src/utils.hpp:219-242 | value i of part k sits in the flattening just after the values of the parts before it |
| MetricDepthEvaluation.AppendPairLists | EyeAICore/metric_depth/src/utils.hpp:170-173 | two lists of (relative, absolute) pairs with absolute values in range concatenate to such a list |
| MetricDepthEvaluation.FlattenPairList | EyeAICore/metric_depth/src/utils.hpp:170-173 | flattening pair lists of at most a bound of values gives a pair list of at most the bound times the number of parts |
| MetricDepthEvaluation.FlattenPairSource | EyeAICore/metric_depth/src/utils.hpp:239-240 | each pair of a flattening of even-length parts lies whole within one part |
| MetricDepthEvaluation.FlattenIsEven | EyeAICore/metric_depth/src/utils.hpp:239-240 | flattening even-length parts gives an even number of values |
| MetricDepthEvaluation.PairsShape | EyeAICore/metric_depth/src/utils.hpp:170-173 | the result holds (relative, absolute) pairs, at most two values per input pixel, and every absolute value lies in [0.6, 350] |
| MetricDepthEvaluation.PairSource | EyeAICore/metric_depth/src/utils.hpp:219-242 | each pair comes from a kept input pixel: the mask there is non-zero and the absolute depth in range; its relative value is the model's depth at the pixel and its absolute value the dataset depth at the scaled position |
| MetricDepthEvaluation.PairsOfRowAreEven | EyeAICore/metric_depth/src/utils.hpp:239-240 | every pixel's contribution, and so every row, has an even number of values |
| MetricDepthEvaluation.KeptPixelIsPaired | EyeAICore/metric_depth/src/utils.hpp:219-242 | every kept pixel is paired, right after the pairs of the pixels before it in row-major order |
| MetricDepthEvaluation.CollectPairs | EyeAICore/metric_depth/src/utils.hpp:219-242 | the two loops produce exactly the pairs of all input pixels in row-major order |
| MetricDepthEvaluation.CollectRowPairs | EyeAICore/metric_depth/src/utils.hpp:220-241 | the inner loop appends exactly the contributions of row y |
| MetricDepthEvaluation.Zeros | EyeAICore/metric_depth/src/utils.hpp:212 | the model's output buffer starts with one zero per input pixel |
| MetricDepthEvaluation.Evaluate | EyeAICore/metric_depth/src/utils.hpp:182-245 | a failed size check is returned with nothing touched; otherwise the depth model runs on the image; its error becomes ModelFailed, and on success the result is the pairs of its output with the dataset depth and mask |
| MetricDepthEvaluation.RaggedImageFailsInModel | EyeAICore/metric_depth/src/utils.hpp:188-194 | an image with one or two values past its last whole pixel passes the size checks and is then rejected by the model's normalisation as not a multiple of three |

## Left out

- JNI entry points and marshalling, the Kotlin app, the spatial-audio engine, the ONNX runtime wrappers and the Python scripts: these are platform glue or outside the native inference core.
- Profiling scopes and the telemetry profiler's callbacks: they depend on the wall clock. The older runtime's profiler entries are an opaque list that `run_inference` moves to its caller.
- IEEE-754 behaviour (rounding, NaN, infinities, overflow): every float is a `real`, so `0.6f` is taken as exactly 0.6.
- TfLiteUtils.QuantizeFloats: the conversion of `v / scale` to `uint8_t` is undefined in C++ outside 0..255 (and likewise below 0). The model therefore requires, through `QuantizeRequires`, that every truncated quotient fits once the checks pass. The same precondition applies to `LegacyTfLiteUtils.Quantize` and to every load that reaches quantize.
- TfLiteUtils.DequantizedAll: `q - zp` is computed on unbounded integers. An `int` overflow of that difference is not modelled.
- The wording of the codec and runtime error messages. `TfLiteUtils.cpp`, `TfLiteRuntime.cpp`, `TfLiteRuntime.hpp` and `YoloModel.cpp` return these errors as `std::string`s with literal text (such as "input tensor not yet created!", "failed to allocate tensors: {}", "failed to invoke interpreter: {}"). Only `TfLiteUtils.hpp` and `DepthModel.cpp` use typed error unions. The model uses the typed unions of `TfLiteUtils.hpp` in place of the strings. Each error alternative stands for one of the texts and carries the values formatted into it. The text itself is not modelled. This affects:
  - the TfLiteUtils members for load, read, quantize and dequantize (`LoadInputTensorWithFloats`, `LoadNonQuantizedInput`, `LoadQuantizedInput`, `ReadFloatsFromOutputTensor`, `ReadNonQuantizedOutput`, `ReadQuantizedOutput`, `QuantizeFloats`, `DequantizeToFloats` and their specification functions);
  - `TfLiteRuntimes.TfLiteRuntime.Create`, `TfLiteRuntimes.TfLiteRuntime.Invoke` and `TfLiteRuntimes.TfLiteRuntime.RunInference`;
  - `YoloModels.YoloModel.Create` and `YoloModels.YoloModel.Run`.
  The bitmap, operator, colour-map, status-exception, size-check and data-point texts are modelled.
- TfLiteUtils.ReadQuantizedSpec: an element type without a known size is reported as `DequantizeInvalidType` inside the read-quantized error. The header's union has no alternative of its own for that case.
- GPU-delegate construction (`create_gpu_delegate`, `TfLiteGpuDelegateV2Create`) is reduced to one answer: the `delegateCreated` parameter of `TfLiteRuntimes.TfLiteRuntime.Create` and its callers says whether it returned a delegate or null. The delegate's options are not modelled. Whether an interpreter can be created with a null delegate added is the engine's answer `withDelegate`.
- The engine's allocation, invoke and copy calls are status parameters, not modelled further.
  - In the core codec, a copy status of OK means the data was copied: the current load and read check the element count before they copy.
  - The older runtime in `legacy_tflite_runtime.dfy` copies without that count check. There the predicates `CopyFromFits` and `CopyToFits` are preconditions that state what the engine is taken to guarantee: a copy it reports as OK moved exactly the tensor's byte size.
- `create_with_raw_output` of the depth model: it is declared in the header, but its definition is not part of this model.
- The DepthColormap header declares an optional size-mismatch error, while the `.cpp` returns `tl::expected<void, std::string>`. The model follows the `.cpp`.
- Copy and move deletion of the runtimes: a Dafny object is shared by reference. The model neither restricts that nor models destruction order beyond `Release`. That includes `model_data` outliving the handles.
- The older `check_android_bitmap_result` and `check_tflite_status` log. Their lines are returned as a list of strings, and log levels are not modelled.
- The older `getInfo` leaves `AndroidBitmapInfo` uninitialised when it fails, and the conversion then reads it. The model reads the info the platform reported.
- The older runtime templates are fixed to `float` input and output, the only instantiation whose quantized paths exist (`quantize<float>` and `dequantize<float>`).
- In `metric_depth/src/utils.hpp`, the following are left out: `ThreadPool` (concurrency); file, image and npy loading and saving; `evaluate_set`; the recursive walk in `search_for_scans_in_dataset`; and the CLI drivers.
  - `search_for_images_in_scan` takes the directory's entries as a sequence in iteration order.
  - The "(Skipping …)" lines it prints are not modelled.
  - Neither is the unordered iteration over the maps, which only affects the order of those lines.
- Case-insensitive regular-expression matching folds ASCII letters only. Locale-dependent folding is not modelled.
- `std::hash<DataPoint>`: the Dafny maps use value equality, which is the field-wise `operator==`.
- MetricDepthEvaluation.Evaluate: the call `depth_model.run` returns `std::optional<TfLiteRunInferenceError>`. The source tests it with `has_value()` and calls `.error()`, which `std::optional` lacks. The evident intent, which the model follows, is to fail when `run` reports an error. The error is returned as `ModelFailed`; its conversion to a string is not modelled.
- MetricDepthEvaluation.Evaluate: it requires the codec's `LoadRequires` on the normalised image, the same quantize precondition as above.

## Findings

| source | as written | input that shows it | evidently intended | confidence | as-written member | corrected member |
|---|---|---|---|---|---|---|
| EyeAIApp/app/src/main/cpp/src/utils/ImageUtils.cpp:128-136 | each `jbyte` (signed) is promoted to `int` with its sign and passed to the unmasked `int` `color_argb`; a byte of 0x80 or more sets every higher bit, corrupting the channels above it | bytes 00 00 80 FF (red 0, green 0, blue 0x80, alpha 0xFF) pack to 0xFFFFFF80 instead of 0xFF000080 | each byte read as an unsigned channel, as the current `image_bytes_to_argb_int_array` does through `uint8_t` parameters | not executed | LegacyImageUtils.LegacyPackPixelsSignBug | AndroidImageUtils.PackPixels |
