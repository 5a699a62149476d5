/** The app's older runtime (EyeAIApp/app/src/main/cpp/src/tflite/
    TfLiteRuntime.hpp): run_inference loads the input tensor, invokes the
    interpreter and reads the output tensor, throwing on the first failure,
    and hands the profiler entries of the run to the caller.

    The templates are instantiated here with `float` input and output, the
    only instantiation whose quantized paths exist (quantize<float> and
    dequantize<float>). The engine's answers (the copy and invoke statuses)
    are parameters. */
module LegacyTfLiteRuntimes {
  import opened Wrappers
  import opened TfLiteApi
  import TfLiteUtils
  import opened LegacyTfLiteUtils

  /** One entry the telemetry profiler records during an invoke. */
  datatype ProfilerEntry = ProfilerEntry(name: string, durationMicros: int)

  const LOAD_CONTEXT: string := "failed to load input from tensor"
  const INVOKE_CONTEXT: string := "failed to invoke interpreter"
  const READ_CONTEXT: string := "failed to read output from tensor"

  /** The element type of the float buffers. */
  const FLOAT_TYPE: TfLiteType := TfLiteTypeFromType(CppFloat)

  // ---------------------------------------------------------------------------
  // Loading the input

  /** What the engine's TfLiteTensorCopyFromBuffer is taken to guarantee:
      it succeeds only when the caller's bytes fill the tensor. */
  predicate CopyFromFits(t: TensorState, values: seq<real>, copyStatus: TfLiteStatus) {
    copyStatus == Ok ==> 4 * |values| == t.byteSize
  }

  /** load_nonquantized_input: the tensor's type must be the buffer's type
      (reported with the tensor's type as the expected one and the buffer's
      as the provided one), then the copy status is thrown. */
  function LoadNonQuantizedSpec(t: TensorState, values: seq<real>, copyStatus: TfLiteStatus)
    : (Outcome<TfLiteException>, TensorState)
  {
    if t.elementType != FLOAT_TYPE then (Fail(WrongType(t.elementType, FLOAT_TYPE)), t)
    else if copyStatus != Ok then (Fail(TfLiteStatusException(copyStatus, LOAD_CONTEXT)), t)
    else (Pass, t.(floats := values))
  }

  /** load_quantized_input: a type with a size, then storage, then the
      element count of the storage; then quantize<float> over all of it. */
  function LoadQuantizedSpec(t: TensorState, q: AffineQuantization, values: seq<real>)
    : (Outcome<TfLiteException>, TensorState)
    requires TfLiteUtils.LoadQuantizedRequires(t, q, values)
  {
    var size := TfLiteUtils.TypeSize(t.elementType);
    if size.None? then (Fail(UnsupportedTypeQuantization(t.elementType)), t)
    else if t.data.None? then (Fail(TensorNotYetCreated), t)
    else if t.byteSize / size.value != |values| then (Fail(InvalidArgument("quantized_input_data_bytes")), t)
    else
      var checks := QuantizeChecksOf(|values|, |t.data.value|, t.elementType, q);
      if checks.Fail? then (checks, t)
      else (Pass, t.(data := Some(TfLiteUtils.QuantizedAll(values, q.scale[0], q.zeroPoint[0]))))
  }

  predicate LoadRequires(t: TensorState, values: seq<real>, copyStatus: TfLiteStatus) {
    if IsTensorQuantized(t.quantization) then TfLiteUtils.LoadQuantizedRequires(t, t.quantization.params, values)
    else CopyFromFits(t, values, copyStatus)
  }

  /** load_input: dispatch on is_tensor_quantized. A load that throws leaves
      the tensor as it was. */
  function LoadInputSpec(t: TensorState, values: seq<real>, copyStatus: TfLiteStatus)
    : (res: (Outcome<TfLiteException>, TensorState))
    requires LoadRequires(t, values, copyStatus)
    ensures res.0.Fail? ==> res.1 == t
    ensures res.1.elementType == t.elementType && res.1.quantization == t.quantization
    ensures res.1.byteSize == t.byteSize && res.1.data.Some? == t.data.Some?
    ensures TfLiteUtils.Consistent(t) ==> TfLiteUtils.Consistent(res.1)
  {
    if IsTensorQuantized(t.quantization) then LoadQuantizedSpec(t, t.quantization.params, values)
    else LoadNonQuantizedSpec(t, values, copyStatus)
  }

  /** The throws of the quantized load, each under its condition. Because
      the count check already equates the lengths for uint8, quantize<float>
      never throws its own invalid_argument there. */
  lemma LoadQuantizedOrder(t: TensorState, values: seq<real>, copyStatus: TfLiteStatus)
    requires t.quantization.Affine? && TfLiteUtils.Consistent(t) && LoadRequires(t, values, copyStatus)
    ensures var r := LoadInputSpec(t, values, copyStatus).0;
      && (TfLiteUtils.TypeSize(t.elementType).None? ==> r == Fail(UnsupportedTypeQuantization(t.elementType)))
      && (TfLiteUtils.TypeSize(t.elementType).Some? && t.data.None? ==> r == Fail(TensorNotYetCreated))
      && (TfLiteUtils.TypeSize(t.elementType).Some? && t.data.Some? && t.byteSize / TfLiteUtils.TypeSize(t.elementType).value != |values| ==>
            r == Fail(InvalidArgument("quantized_input_data_bytes")))
      && r != Fail(InvalidArgument("values and quantized_values"))
      && (r.Pass? <==> t.elementType == UInt8 && t.data.Some? && |values| == t.byteSize
                       && |t.quantization.params.scale| == 1 && |t.quantization.params.zeroPoint| == 1)
  {
  }

  /** Where both versions load successfully they leave the same tensor, and
      on a quantized tensor they succeed on the same inputs. (On a float
      tensor the legacy version leaves the storage and count checks to the
      engine's copy.) */
  lemma {:induction false} LoadAgreesWithCore(t: TensorState, values: seq<real>, copyStatus: TfLiteStatus)
    requires TfLiteUtils.Consistent(t) && LoadRequires(t, values, copyStatus) && TfLiteUtils.LoadRequires(t, values)
    ensures var (legacy, core) := (LoadInputSpec(t, values, copyStatus), TfLiteUtils.LoadInputSpec(t, values, copyStatus));
      && (legacy.0.Pass? && core.0.Pass? ==> legacy.1 == core.1)
      && (t.quantization.Affine? ==> (legacy.0.Pass? <==> core.0.Pass?))
  {
    if t.quantization.Affine? {
      LoadQuantizedOrder(t, values, copyStatus);
      TfLiteUtils.LoadQuantizedOrder(t, values, copyStatus);
    } else {
      TfLiteUtils.LoadNonQuantizedOrder(t, values, copyStatus);
    }
  }

  // ---------------------------------------------------------------------------
  // Reading the output

  /** What TfLiteTensorCopyToBuffer is taken to guarantee: it succeeds only
      when the caller's buffer has the tensor's byte size. */
  predicate CopyToFits(t: TensorState, outCount: nat, copyStatus: TfLiteStatus) {
    copyStatus == Ok ==> 4 * outCount == t.byteSize
  }

  /** read_nonquantized_output: the type check, then the copy status. */
  function ReadNonQuantizedSpec(t: TensorState, out: seq<real>, copyStatus: TfLiteStatus)
    : (Outcome<TfLiteException>, seq<real>)
  {
    if t.elementType != FLOAT_TYPE then (Fail(WrongType(t.elementType, FLOAT_TYPE)), out)
    else if copyStatus != Ok then (Fail(TfLiteStatusException(copyStatus, READ_CONTEXT)), out)
    else (Pass, t.floats)
  }

  /** read_quantized_output: the same three checks as the load, then
      dequantize<float> of the whole storage. */
  function ReadQuantizedSpec(t: TensorState, q: AffineQuantization, out: seq<real>)
    : (Outcome<TfLiteException>, seq<real>)
  {
    var size := TfLiteUtils.TypeSize(t.elementType);
    if size.None? then (Fail(UnsupportedTypeQuantization(t.elementType)), out)
    else if t.data.None? then (Fail(TensorNotYetCreated), out)
    else if t.byteSize / size.value != |out| then (Fail(InvalidArgument("quantized_output_data_bytes")), out)
    else
      var checks := DequantizeChecksOf(|t.data.value|, |out|, t.elementType, q);
      if checks.Fail? then (checks, out)
      else (Pass, TfLiteUtils.DequantizedAll(t.data.value, q.scale[0], q.zeroPoint[0]))
  }

  predicate ReadRequires(t: TensorState, outCount: nat, copyStatus: TfLiteStatus) {
    !IsTensorQuantized(t.quantization) ==> CopyToFits(t, outCount, copyStatus)
  }

  /** read_output: dispatch on is_tensor_quantized. A read that throws
      leaves the buffer as it was, and a successful one fills all of it. */
  function ReadOutputSpec(t: TensorState, out: seq<real>, copyStatus: TfLiteStatus)
    : (res: (Outcome<TfLiteException>, seq<real>))
    ensures res.0.Fail? ==> res.1 == out
    ensures TfLiteUtils.Consistent(t) && ReadRequires(t, |out|, copyStatus) ==> |res.1| == |out|
  {
    if IsTensorQuantized(t.quantization) then ReadQuantizedSpec(t, t.quantization.params, out)
    else ReadNonQuantizedSpec(t, out, copyStatus)
  }

  /** The throws of the quantized read, each under its condition;
      dequantize<float> never throws its invalid_argument there. */
  lemma ReadQuantizedOrder(t: TensorState, out: seq<real>, copyStatus: TfLiteStatus)
    requires t.quantization.Affine? && TfLiteUtils.Consistent(t)
    ensures var r := ReadOutputSpec(t, out, copyStatus).0;
      && (TfLiteUtils.TypeSize(t.elementType).None? ==> r == Fail(UnsupportedTypeQuantization(t.elementType)))
      && (TfLiteUtils.TypeSize(t.elementType).Some? && t.data.None? ==> r == Fail(TensorNotYetCreated))
      && (TfLiteUtils.TypeSize(t.elementType).Some? && t.data.Some? && t.byteSize / TfLiteUtils.TypeSize(t.elementType).value != |out| ==>
            r == Fail(InvalidArgument("quantized_output_data_bytes")))
      && r != Fail(InvalidArgument("real_values and quantized_values"))
      && (r.Pass? <==> t.elementType == UInt8 && t.data.Some? && |out| == t.byteSize
                       && |t.quantization.params.scale| == 1 && |t.quantization.params.zeroPoint| == 1)
  {
  }

  /** Floats loaded into a float tensor are read back unchanged. */
  lemma {:induction false} NonQuantizedLoadThenRead(t: TensorState, values: seq<real>, out: seq<real>)
    requires t.quantization == NoQuantization && CopyFromFits(t, values, Ok)
    requires LoadInputSpec(t, values, Ok).0.Pass?
    ensures ReadOutputSpec(LoadInputSpec(t, values, Ok).1, out, Ok) == (Pass, values)
  {
  }

  // ---------------------------------------------------------------------------
  // run_inference

  /** The outcome of run_inference and the state it leaves: the input
      tensor and the caller's output buffer. */
  datatype Run = Run(outcome: Outcome<TfLiteException>, input: TensorState, output: seq<real>)

  /** The part of run_inference after a successful load: the invoke,
      then the read. */
  function InvokeAndReadSpec(outT: TensorState, output: seq<real>, invokeStatus: TfLiteStatus, copyToStatus: TfLiteStatus)
    : (Outcome<TfLiteException>, seq<real>)
  {
    var invoked := ThrowOnTfLiteStatus(invokeStatus, INVOKE_CONTEXT);
    if invoked.Fail? then (invoked, output)
    else ReadOutputSpec(outT, output, copyToStatus)
  }

  /** run_inference: load, then invoke (throwing "failed to invoke
      interpreter" on a status other than kTfLiteOk), then read. The output
      tensor is the one the invoke left. */
  function RunInferenceSpec(
    inT: TensorState, outT: TensorState, input: seq<real>, output: seq<real>,
    copyFromStatus: TfLiteStatus, invokeStatus: TfLiteStatus, copyToStatus: TfLiteStatus): Run
    requires LoadRequires(inT, input, copyFromStatus)
  {
    var (loaded, inT') := LoadInputSpec(inT, input, copyFromStatus);
    if loaded.Fail? then Run(loaded, inT', output)
    else
      var (outcome, output') := InvokeAndReadSpec(outT, output, invokeStatus, copyToStatus);
      Run(outcome, inT', output')
  }

  /** A run succeeds exactly when all three stages do; the first failing
      stage's exception is the one thrown, and a failed run leaves the
      caller's buffer unchanged. */
  lemma {:induction false} RunInferenceStages(
    inT: TensorState, outT: TensorState, input: seq<real>, output: seq<real>,
    copyFromStatus: TfLiteStatus, invokeStatus: TfLiteStatus, copyToStatus: TfLiteStatus)
    requires LoadRequires(inT, input, copyFromStatus)
    ensures var run := RunInferenceSpec(inT, outT, input, output, copyFromStatus, invokeStatus, copyToStatus);
      var loaded := LoadInputSpec(inT, input, copyFromStatus).0;
      var read := ReadOutputSpec(outT, output, copyToStatus);
      && run.input == LoadInputSpec(inT, input, copyFromStatus).1
      && (run.outcome.Pass? <==> loaded.Pass? && invokeStatus == Ok && read.0.Pass?)
      && (loaded.Fail? ==> run.outcome == loaded)
      && (loaded.Pass? && invokeStatus != Ok ==> run.outcome == Fail(TfLiteStatusException(invokeStatus, INVOKE_CONTEXT)))
      && (loaded.Pass? && invokeStatus == Ok ==> run.outcome == read.0)
      && (run.outcome.Fail? ==> run.output == output)
      && (run.outcome.Pass? ==> run.output == read.1)
  {
  }

  /** The runtime object: the engine's interpreter and the entries the
      profiler has recorded since the last run handed them out. Copying and
      moving are deleted in the source; a Dafny object is only ever shared
      by reference, which the model does not restrict. */
  class TfLiteRuntime {
    const interpreter: Interpreter
    var currentInvokeProfilerEntries: seq<ProfilerEntry>

    ghost predicate Valid()
      reads this, interpreter, interpreter.inputTensor, interpreter.outputTensor
    {
      interpreter.Valid()
    }

    /** A runtime over an interpreter the engine has created and allocated,
        with no profiler entries yet. */
    constructor (interpreter: Interpreter)
      requires interpreter.Valid()
      ensures Valid() && this.interpreter == interpreter && currentInvokeProfilerEntries == []
    {
      this.interpreter := interpreter;
      currentInvokeProfilerEntries := [];
    }

    /** run_inference. `callerEntries` is what out_profiler_entries held
        before the call; `entries` is what it holds after. Only a run that
        gets through all three stages moves the recorded entries out and
        clears the runtime's list. */
    method RunInference(
      input: seq<real>, output: array<real>, callerEntries: seq<ProfilerEntry>,
      copyFromStatus: TfLiteStatus, invokeStatus: TfLiteStatus, copyToStatus: TfLiteStatus)
      returns (r: Outcome<TfLiteException>, entries: seq<ProfilerEntry>)
      requires Valid()
      requires LoadRequires(interpreter.inputTensor.State(), input, copyFromStatus)
      requires ReadRequires(interpreter.outputTensor.State(), output.Length, copyToStatus)
      modifies this, interpreter.inputTensor, interpreter.inputTensor.data, output
      ensures Valid()
      ensures Run(r, interpreter.inputTensor.State(), output[..]) ==
        RunInferenceSpec(old(interpreter.inputTensor.State()), interpreter.outputTensor.State(), input, old(output[..]),
                         copyFromStatus, invokeStatus, copyToStatus)
      ensures r.Pass? ==> entries == old(currentInvokeProfilerEntries) && currentInvokeProfilerEntries == []
      ensures r.Fail? ==> entries == callerEntries && currentInvokeProfilerEntries == old(currentInvokeProfilerEntries)
    {
      entries := callerEntries;
      r := LoadInvokeRead(interpreter, input, output, copyFromStatus, invokeStatus, copyToStatus);
      if r.Pass? {
        entries := currentInvokeProfilerEntries;
        currentInvokeProfilerEntries := [];
      }
    }
  }

  /** The three stages of run_inference on the engine's tensors. */
  method LoadInvokeRead(
    interpreter: Interpreter, input: seq<real>, output: array<real>,
    copyFromStatus: TfLiteStatus, invokeStatus: TfLiteStatus, copyToStatus: TfLiteStatus)
    returns (r: Outcome<TfLiteException>)
    requires interpreter.Valid()
    requires LoadRequires(interpreter.inputTensor.State(), input, copyFromStatus)
    requires ReadRequires(interpreter.outputTensor.State(), output.Length, copyToStatus)
    modifies interpreter.inputTensor, interpreter.inputTensor.data, output
    ensures interpreter.Valid()
    ensures Run(r, interpreter.inputTensor.State(), output[..]) ==
      RunInferenceSpec(old(interpreter.inputTensor.State()), interpreter.outputTensor.State(), input, old(output[..]),
                       copyFromStatus, invokeStatus, copyToStatus)
  {
    var inputTensor, outputTensor := interpreter.inputTensor, interpreter.outputTensor;
    ghost var original := inputTensor.State();
    ghost var outState := outputTensor.State();
    var loaded := LoadInput(inputTensor, input, copyFromStatus);
    assert outputTensor.State() == outState;
    r := AfterLoadStage(interpreter, loaded, input, output, copyFromStatus, invokeStatus, copyToStatus, original);
  }

  /** The part of run_inference after the load, which reported `loaded`
      and turned the input tensor from `original` into what it is now. */
  method AfterLoadStage(
    interpreter: Interpreter, loaded: Outcome<TfLiteException>, input: seq<real>, output: array<real>,
    copyFromStatus: TfLiteStatus, invokeStatus: TfLiteStatus, copyToStatus: TfLiteStatus,
    ghost original: TensorState)
    returns (r: Outcome<TfLiteException>)
    requires interpreter.Valid() && LoadRequires(original, input, copyFromStatus)
    requires (loaded, interpreter.inputTensor.State()) == LoadInputSpec(original, input, copyFromStatus)
    requires ReadRequires(interpreter.outputTensor.State(), output.Length, copyToStatus)
    modifies output
    ensures Run(r, interpreter.inputTensor.State(), output[..]) ==
      RunInferenceSpec(original, interpreter.outputTensor.State(), input, old(output[..]),
                       copyFromStatus, invokeStatus, copyToStatus)
  {
    if loaded.Fail? {
      r := loaded;
    } else {
      r := InvokeAndRead(interpreter.outputTensor, output, invokeStatus, copyToStatus);
    }
  }

  /** The part of run_inference after a successful load. */
  method InvokeAndRead(tensor: Tensor, output: array<real>, invokeStatus: TfLiteStatus, copyToStatus: TfLiteStatus)
    returns (r: Outcome<TfLiteException>)
    requires tensor.Valid() && ReadRequires(tensor.State(), output.Length, copyToStatus)
    modifies output
    ensures (r, output[..]) == InvokeAndReadSpec(tensor.State(), old(output[..]), invokeStatus, copyToStatus)
  {
    r := ThrowOnTfLiteStatus(invokeStatus, INVOKE_CONTEXT);
    if r.Pass? {
      r := ReadOutput(tensor, output, copyToStatus);
    }
  }

  /** load_input on the engine's input tensor. */
  method LoadInput(tensor: Tensor, values: seq<real>, copyStatus: TfLiteStatus)
    returns (r: Outcome<TfLiteException>)
    requires tensor.Valid() && LoadRequires(tensor.State(), values, copyStatus)
    modifies tensor, tensor.data
    ensures tensor.Valid()
    ensures (r, tensor.State()) == LoadInputSpec(old(tensor.State()), values, copyStatus)
  {
    if IsTensorQuantized(tensor.quantization) {
      r := LoadQuantizedInput(tensor, tensor.quantization.params, values);
    } else {
      r := LoadNonQuantizedInput(tensor, values, copyStatus);
    }
  }

  method LoadNonQuantizedInput(tensor: Tensor, values: seq<real>, copyStatus: TfLiteStatus)
    returns (r: Outcome<TfLiteException>)
    requires tensor.Valid() && CopyFromFits(tensor.State(), values, copyStatus)
    modifies tensor
    ensures tensor.Valid()
    ensures (r, tensor.State()) == LoadNonQuantizedSpec(old(tensor.State()), values, copyStatus)
  {
    if tensor.elementType != FLOAT_TYPE {
      return Fail(WrongType(tensor.elementType, FLOAT_TYPE));
    }
    r := ThrowOnTfLiteStatus(copyStatus, LOAD_CONTEXT);
    if r.Pass? {
      tensor.floats := values;
    }
  }

  method LoadQuantizedInput(tensor: Tensor, q: AffineQuantization, values: seq<real>)
    returns (r: Outcome<TfLiteException>)
    requires tensor.Valid() && TfLiteUtils.LoadQuantizedRequires(tensor.State(), q, values)
    modifies tensor.data
    ensures tensor.Valid()
    ensures (r, tensor.State()) == LoadQuantizedSpec(old(tensor.State()), q, values)
  {
    var size := TfLiteUtils.TypeSize(tensor.elementType);
    if size.None? {
      return Fail(UnsupportedTypeQuantization(tensor.elementType));
    }
    var data := tensor.data;
    if data == null {
      return Fail(TensorNotYetCreated);
    }
    if tensor.byteSize / size.value != |values| {
      return Fail(InvalidArgument("quantized_input_data_bytes"));
    }
    r := Quantize(values, data, tensor.elementType, q);
  }

  /** read_output from the engine's output tensor. */
  method ReadOutput(tensor: Tensor, output: array<real>, copyStatus: TfLiteStatus)
    returns (r: Outcome<TfLiteException>)
    requires tensor.Valid() && ReadRequires(tensor.State(), output.Length, copyStatus)
    modifies output
    ensures (r, output[..]) == ReadOutputSpec(tensor.State(), old(output[..]), copyStatus)
  {
    if IsTensorQuantized(tensor.quantization) {
      r := ReadQuantizedOutput(tensor, tensor.quantization.params, output);
    } else {
      r := ReadNonQuantizedOutput(tensor, output, copyStatus);
    }
  }

  method ReadNonQuantizedOutput(tensor: Tensor, output: array<real>, copyStatus: TfLiteStatus)
    returns (r: Outcome<TfLiteException>)
    requires tensor.Valid() && CopyToFits(tensor.State(), output.Length, copyStatus)
    modifies output
    ensures (r, output[..]) == ReadNonQuantizedSpec(tensor.State(), old(output[..]), copyStatus)
  {
    if tensor.elementType != FLOAT_TYPE {
      return Fail(WrongType(tensor.elementType, FLOAT_TYPE));
    }
    r := ThrowOnTfLiteStatus(copyStatus, READ_CONTEXT);
    if r.Pass? {
      var floats := tensor.floats;
      var i := 0;
      while i < output.Length
        invariant 0 <= i <= output.Length
        invariant forall k :: 0 <= k < i ==> output[k] == floats[k]
      {
        output[i] := floats[i];
        i := i + 1;
      }
      assert output[..] == floats;
    }
  }

  method ReadQuantizedOutput(tensor: Tensor, q: AffineQuantization, output: array<real>)
    returns (r: Outcome<TfLiteException>)
    requires tensor.Valid()
    modifies output
    ensures (r, output[..]) == ReadQuantizedSpec(tensor.State(), q, old(output[..]))
  {
    var size := TfLiteUtils.TypeSize(tensor.elementType);
    if size.None? {
      return Fail(UnsupportedTypeQuantization(tensor.elementType));
    }
    var data := tensor.data;
    if data == null {
      return Fail(TensorNotYetCreated);
    }
    if tensor.byteSize / size.value != output.Length {
      return Fail(InvalidArgument("quantized_output_data_bytes"));
    }
    assert tensor.State().data == Some(data[..]);
    r := Dequantize(data[..], output, tensor.elementType, q);
  }
}
