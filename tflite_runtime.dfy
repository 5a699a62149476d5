/** The TensorFlow Lite runtime (TfLiteRuntime.hpp / TfLiteRuntime.cpp): its
    creation with a GPU delegate and the fallback to the CPU, its teardown,
    the inference pipeline (input operators, load, invoke, read, output
    operators) and the builder that collects the operators.

    The engine is an oracle. Creating an interpreter is represented by the
    interpreter the engine hands back for each attempt (null when it fails),
    and every other engine call by the status it returns. The warning
    callback is represented by the list of warnings create emits. */
module TfLiteRuntimes {
  import opened Wrappers
  import opened TfLiteApi
  import opened TfLiteErrors
  import opened Operators
  import TfLiteUtils

  /** One byte of the model file (std::vector<int8_t>). */
  newtype Int8 = x: int | -128 <= x < 128

  /** The TfLiteModel that TfLiteModelCreate builds over the model bytes. */
  datatype Model = Model(modelData: seq<Int8>)

  /** The GPU delegate create_gpu_delegate builds; its fixed options are not modelled. */
  datatype GpuDelegate = GpuDelegate(serializationDir: string, modelToken: string)

  /** TfLiteInterpreterOptions: thread count, whether the error reporter is
      installed, and the delegate added to them. */
  datatype InterpreterOptions = InterpreterOptions(numThreads: nat, errorReporter: bool, delegate: Option<GpuDelegate>)

  const NUM_THREADS: nat := 4

  const GPU_FALLBACK_WARNING: string := "GPU Delegate is not supported, falling back to CPU only mode"

  /** The options without the delegate: four threads and the error reporter. */
  function BaseOptions(): (o: InterpreterOptions)
    ensures o.numThreads == 4 && o.errorReporter && o.delegate.None?
  {
    InterpreterOptions(NUM_THREADS, true, None)
  }

  /** A copy of the base options with the GPU delegate added. */
  function DelegateOptions(d: GpuDelegate): (o: InterpreterOptions)
    ensures o == BaseOptions().(delegate := Some(d))
  {
    BaseOptions().(delegate := Some(d))
  }

  /** The handles a runtime releases. */
  datatype Handle = InterpreterHandle | DelegateHandle | OptionsHandle | ModelHandle
                  | OutputOperatorsHandle | InputOperatorsHandle | ModelDataHandle

  predicate OperatorsValid(ops: seq<Operator>) {
    forall i :: 0 <= i < |ops| ==> ops[i].Valid()
  }

  // ---------------------------------------------------------------------------
  // Specification of create

  /** What create decides from the engine's answers: whether it keeps the
      delegate (true) or falls back to the CPU (false), or which error it
      reports. */
  function CreatePlan(delegateCreated: bool, fallbackCreated: bool, allocateStatus: TfLiteStatus)
    : Result<bool, CreateRuntimeError>
  {
    if !delegateCreated && !fallbackCreated then Failure(CreateRuntimeInterpreter(CreateInterpreterError))
    else if allocateStatus != Ok then Failure(CreateRuntimeAllocate(AllocateTensorsError(allocateStatus)))
    else Success(delegateCreated)
  }

  /** The warnings create emits: one, exactly when the delegate attempt fails. */
  function CreateWarnings(delegateCreated: bool): (w: seq<string>)
    ensures |w| <= 1
  {
    if delegateCreated then [] else [GPU_FALLBACK_WARNING]
  }

  lemma CreatePlanCases(delegateCreated: bool, fallbackCreated: bool, allocateStatus: TfLiteStatus)
    ensures var p := CreatePlan(delegateCreated, fallbackCreated, allocateStatus);
      && (p == Failure(CreateRuntimeInterpreter(CreateInterpreterError)) <==> !delegateCreated && !fallbackCreated)
      && (p.Failure? && p.error.CreateRuntimeAllocate? <==> (delegateCreated || fallbackCreated) && allocateStatus != Ok)
      && (p.Failure? && p.error.CreateRuntimeAllocate? ==> p.error.allocate.status == allocateStatus)
      && (p.Success? <==> (delegateCreated || fallbackCreated) && allocateStatus == Ok)
      && (p.Success? ==> (p.value <==> delegateCreated))
    ensures CreateWarnings(delegateCreated) == [GPU_FALLBACK_WARNING] <==> !delegateCreated
    ensures CreateWarnings(delegateCreated) == [] <==> delegateCreated
  {
  }

  // ---------------------------------------------------------------------------
  // Specification of run_inference

  /** The input or output operators executed in order, stopping at the first
      failure; the buffer keeps what the operators before it did. */
  function RunOperatorsSpec(ops: seq<Operator>, s: seq<real>): (res: (Outcome<OperatorError>, seq<real>))
    requires OperatorsValid(ops)
    ensures |res.1| == |s|
    decreases |ops|
  {
    if ops == [] then (Pass, s)
    else
      var (o, s') := RunOperatorsSpec(ops[..|ops| - 1], s);
      if o.Fail? then (o, s') else Apply(ops[|ops| - 1], s')
  }

  /** Running `a + b` is running `a`, then, unless it failed, `b`. */
  lemma {:induction false} RunOperatorsAppend(a: seq<Operator>, b: seq<Operator>, s: seq<real>)
    requires OperatorsValid(a) && OperatorsValid(b)
    ensures OperatorsValid(a + b)
    ensures RunOperatorsSpec(a + b, s) ==
      var (o, s') := RunOperatorsSpec(a, s);
      if o.Fail? then (o, s') else RunOperatorsSpec(b, s')
    decreases |b|
  {
    assert OperatorsValid(a + b) by {
      forall i | 0 <= i < |a + b| ensures (a + b)[i].Valid() {
        if i >= |a| { assert (a + b)[i] == b[i - |a|]; }
      }
    }
    if b == [] {
      assert a + b == a;
    } else {
      var b' := b[..|b| - 1];
      assert (a + b)[..|a + b| - 1] == a + b';
      assert (a + b)[|a + b| - 1] == b[|b| - 1];
      assert OperatorsValid(b');
      RunOperatorsAppend(a, b', s);
    }
  }

  /** The first failing operator decides the result: the ones after it are
      never applied, and the buffer keeps what the ones before it did. */
  lemma {:induction false} FirstOperatorFailureWins(ops: seq<Operator>, k: nat, s: seq<real>)
    requires OperatorsValid(ops) && k < |ops|
    requires RunOperatorsSpec(ops[..k], s).0.Pass?
    requires Apply(ops[k], RunOperatorsSpec(ops[..k], s).1).0.Fail?
    ensures RunOperatorsSpec(ops, s) == (Apply(ops[k], RunOperatorsSpec(ops[..k], s).1).0, RunOperatorsSpec(ops[..k], s).1)
  {
    var front, back := ops[..k + 1], ops[k + 1..];
    assert ops == front + back;
    assert front[..k] == ops[..k];
    assert OperatorsValid(front) && OperatorsValid(back);
    RunOperatorsAppend(front, back, s);
  }

  /** The effect of run_inference on the caller's buffers and the input
      tensor. */
  datatype Inference = Inference(
    outcome: Outcome<RunInferenceError>,
    input: seq<real>,
    output: seq<real>,
    inputTensor: TensorState)

  /** TfLiteRuntime::run_inference: input operators, then load (whose copy
      reports `copyFromStatus`), invoke (`invokeStatus`), read (whose copy
      reports `copyToStatus`) and the output operators; the first error wins.
      `outputTensor` is the output tensor as invoke leaves it. */
  function RunInferenceSpec(
    inputOperators: seq<Operator>, outputOperators: seq<Operator>,
    input: seq<real>, output: seq<real>, inputTensor: TensorState, outputTensor: TensorState,
    copyFromStatus: TfLiteStatus, invokeStatus: TfLiteStatus, copyToStatus: TfLiteStatus): (res: Inference)
    requires OperatorsValid(inputOperators) && OperatorsValid(outputOperators)
    requires TfLiteUtils.LoadRequires(inputTensor, RunOperatorsSpec(inputOperators, input).1)
    ensures |res.input| == |input|
    ensures res.outcome.Pass? ==> TfLiteUtils.Consistent(outputTensor) ==> |res.output| == |output|
  {
    var (preprocessed, in1) := RunOperatorsSpec(inputOperators, input);
    if preprocessed.Fail? then Inference(Fail(RunInferenceOperator(preprocessed.error)), in1, output, inputTensor)
    else AfterPreprocessing(outputOperators, in1, output, inputTensor, outputTensor, copyFromStatus, invokeStatus, copyToStatus)
  }

  /** The stages of run_inference after the input operators: load, invoke,
      read and the output operators. */
  function AfterPreprocessing(
    outputOperators: seq<Operator>, input: seq<real>, output: seq<real>,
    inputTensor: TensorState, outputTensor: TensorState,
    copyFromStatus: TfLiteStatus, invokeStatus: TfLiteStatus, copyToStatus: TfLiteStatus): (res: Inference)
    requires OperatorsValid(outputOperators) && TfLiteUtils.LoadRequires(inputTensor, input)
    ensures res.input == input
    ensures res.outcome.Pass? ==> TfLiteUtils.Consistent(outputTensor) ==> |res.output| == |output|
  {
    var (loaded, tensor1) := TfLiteUtils.LoadInputSpec(inputTensor, input, copyFromStatus);
    if loaded.Fail? then Inference(Fail(RunInferenceLoadInput(loaded.error)), input, output, tensor1)
    else
      var (o, out) := AfterLoad(outputOperators, output, outputTensor, invokeStatus, copyToStatus);
      Inference(o, input, out, tensor1)
  }

  /** The stages of run_inference after a successful load: invoke, read and
      the output operators. */
  function AfterLoad(
    outputOperators: seq<Operator>, output: seq<real>, outputTensor: TensorState,
    invokeStatus: TfLiteStatus, copyToStatus: TfLiteStatus): (res: (Outcome<RunInferenceError>, seq<real>))
    requires OperatorsValid(outputOperators)
    ensures res.0.Pass? ==> TfLiteUtils.Consistent(outputTensor) ==> |res.1| == |output|
  {
    if invokeStatus != Ok then (Fail(RunInferenceInvoke(InvokeInterpreterError(invokeStatus))), output)
    else
      var (read, out1) := TfLiteUtils.ReadOutputSpec(outputTensor, output, copyToStatus);
      if read.Fail? then (Fail(RunInferenceReadOutput(read.error)), out1)
      else
        var (postprocessed, out2) := RunOperatorsSpec(outputOperators, out1);
        (if postprocessed.Fail? then Fail(RunInferenceOperator(postprocessed.error)) else Pass, out2)
  }

  /** A failing input operator stops the pipeline: nothing is loaded, the
      engine is not invoked and the output buffer is untouched. */
  lemma InputOperatorFailureStopsPipeline(
    inOps: seq<Operator>, outOps: seq<Operator>, input: seq<real>, output: seq<real>,
    inT: TensorState, outT: TensorState, c1: TfLiteStatus, inv: TfLiteStatus, c2: TfLiteStatus)
    requires OperatorsValid(inOps) && OperatorsValid(outOps)
    requires TfLiteUtils.LoadRequires(inT, RunOperatorsSpec(inOps, input).1)
    requires RunOperatorsSpec(inOps, input).0.Fail?
    ensures var res := RunInferenceSpec(inOps, outOps, input, output, inT, outT, c1, inv, c2);
      && res.outcome == Fail(RunInferenceOperator(RunOperatorsSpec(inOps, input).0.error))
      && res.output == output && res.inputTensor == inT
  {
  }

  /** run_inference succeeds exactly when every stage does, and then the
      output buffer holds the output operators applied to what was read. */
  lemma RunInferenceSucceedsIff(
    inOps: seq<Operator>, outOps: seq<Operator>, input: seq<real>, output: seq<real>,
    inT: TensorState, outT: TensorState, c1: TfLiteStatus, inv: TfLiteStatus, c2: TfLiteStatus)
    requires OperatorsValid(inOps) && OperatorsValid(outOps)
    requires TfLiteUtils.LoadRequires(inT, RunOperatorsSpec(inOps, input).1)
    ensures var res := RunInferenceSpec(inOps, outOps, input, output, inT, outT, c1, inv, c2);
      var (o1, in1) := RunOperatorsSpec(inOps, input);
      var (o2, t1) := TfLiteUtils.LoadInputSpec(inT, in1, c1);
      var (o3, out1) := TfLiteUtils.ReadOutputSpec(outT, output, c2);
      && (res.outcome.Pass? <==>
            o1.Pass? && o2.Pass? && inv == Ok && o3.Pass? && RunOperatorsSpec(outOps, out1).0.Pass?)
      && (res.outcome.Pass? ==> res.input == in1 && res.inputTensor == t1 && res.output == RunOperatorsSpec(outOps, out1).1)
  {
    var (o1, in1) := RunOperatorsSpec(inOps, input);
    if o1.Pass? {
      assert RunInferenceSpec(inOps, outOps, input, output, inT, outT, c1, inv, c2)
          == AfterPreprocessing(outOps, in1, output, inT, outT, c1, inv, c2);
    }
  }

  /** A failing output operator leaves in the output buffer what was read and
      what the output operators before it did. */
  lemma OutputOperatorFailureKeepsEarlierChanges(
    inOps: seq<Operator>, outOps: seq<Operator>, input: seq<real>, output: seq<real>,
    inT: TensorState, outT: TensorState, c1: TfLiteStatus, c2: TfLiteStatus, k: nat)
    requires OperatorsValid(inOps) && OperatorsValid(outOps)
    requires TfLiteUtils.LoadRequires(inT, RunOperatorsSpec(inOps, input).1)
    requires RunOperatorsSpec(inOps, input).0.Pass?
    requires TfLiteUtils.LoadInputSpec(inT, RunOperatorsSpec(inOps, input).1, c1).0.Pass?
    requires TfLiteUtils.ReadOutputSpec(outT, output, c2).0.Pass?
    requires k < |outOps|
    requires var read := TfLiteUtils.ReadOutputSpec(outT, output, c2).1;
      RunOperatorsSpec(outOps[..k], read).0.Pass? && Apply(outOps[k], RunOperatorsSpec(outOps[..k], read).1).0.Fail?
    ensures var res := RunInferenceSpec(inOps, outOps, input, output, inT, outT, c1, Ok, c2);
      var read := TfLiteUtils.ReadOutputSpec(outT, output, c2).1;
      && res.outcome == Fail(RunInferenceOperator(Apply(outOps[k], RunOperatorsSpec(outOps[..k], read).1).0.error))
      && res.output == RunOperatorsSpec(outOps[..k], read).1
  {
    FirstOperatorFailureWins(outOps, k, TfLiteUtils.ReadOutputSpec(outT, output, c2).1);
  }

  // ---------------------------------------------------------------------------
  // Teardown

  /** The order in which a runtime's handles are released: the destructor
      resets interpreter, delegate, options and model (a null handle releases
      nothing); then the members are destroyed in reverse declaration order,
      the model bytes last. */
  function ReleaseOrder(hasInterpreter: bool, hasDelegate: bool, hasOptions: bool, hasModel: bool): seq<Handle> {
    (if hasInterpreter then [InterpreterHandle] else [])
    + (if hasDelegate then [DelegateHandle] else [])
    + (if hasOptions then [OptionsHandle] else [])
    + (if hasModel then [ModelHandle] else [])
    + [OutputOperatorsHandle, InputOperatorsHandle, ModelDataHandle]
  }

  /** For a runtime that create returned, the interpreter goes before the
      delegate it uses, the delegate before the options that refer to it,
      the model after the interpreter, and the model bytes last. */
  lemma ReleaseOrderOfCreatedRuntime(hasDelegate: bool)
    ensures var order := ReleaseOrder(true, hasDelegate, true, true);
      && order[0] == InterpreterHandle
      && order[|order| - 1] == ModelDataHandle
      && (hasDelegate ==> order[1] == DelegateHandle && order[2] == OptionsHandle && order[3] == ModelHandle)
      && (!hasDelegate ==> order[1] == OptionsHandle && order[2] == ModelHandle && DelegateHandle !in order)
  {
  }

  // ---------------------------------------------------------------------------
  // The runtime

  class TfLiteRuntime {
    const modelData: seq<Int8>
    const inputOperators: seq<Operator>
    const outputOperators: seq<Operator>
    var model: Option<Model>
    var interpreter: Interpreter?
    var interpreterOptions: Option<InterpreterOptions>
    /** Absent when the device does not support GPU delegates. */
    var gpuDelegate: Option<GpuDelegate>

    /** A runtime as create returns it: its model is built over its bytes,
        its interpreter exists, and its options are the base options plus
        exactly the delegate it keeps. */
    ghost predicate Valid()
      reads this, interpreter
      reads if interpreter != null then {interpreter.inputTensor, interpreter.outputTensor} else {}
    {
      && model == Some(Model(modelData))
      && interpreter != null && interpreter.Valid()
      && interpreterOptions == Some(BaseOptions().(delegate := gpuDelegate))
      && OperatorsValid(inputOperators) && OperatorsValid(outputOperators)
    }

    /** The private constructor: it takes the model bytes and both operator
        lists; every engine handle starts out null. */
    constructor (modelData: seq<Int8>, inputOperators: seq<Operator>, outputOperators: seq<Operator>)
      ensures this.modelData == modelData && this.inputOperators == inputOperators
      ensures this.outputOperators == outputOperators
      ensures model.None? && interpreter == null && interpreterOptions.None? && gpuDelegate.None?
    {
      this.modelData := modelData;
      this.inputOperators := inputOperators;
      this.outputOperators := outputOperators;
      model := None;
      interpreter := null;
      interpreterOptions := None;
      gpuDelegate := None;
    }

    /** TfLiteRuntime::create. `delegateCreated` is whether
        create_gpu_delegate returned a delegate (it returns null where the
        device has no GPU delegate support); `withDelegate` and
        `withoutDelegate` are what TfLiteInterpreterCreate returns for the
        options with and without the GPU delegate (null on failure);
        `allocateStatus` is what TfLiteInterpreterAllocateTensors returns. */
    static method Create(
      modelData: seq<Int8>, serializationDir: string, modelToken: string,
      inputOperators: seq<Operator>, outputOperators: seq<Operator>,
      delegateCreated: bool, withDelegate: Interpreter?, withoutDelegate: Interpreter?,
      allocateStatus: TfLiteStatus)
      returns (r: Result<TfLiteRuntime, CreateRuntimeError>, warnings: seq<string>)
      requires withDelegate != null ==> withDelegate.Valid()
      requires withoutDelegate != null ==> withoutDelegate.Valid()
      requires OperatorsValid(inputOperators) && OperatorsValid(outputOperators)
      ensures warnings == CreateWarnings(withDelegate != null)
      ensures Created(r, CreatePlan(withDelegate != null, withoutDelegate != null, allocateStatus),
                      modelData, serializationDir, modelToken, inputOperators, outputOperators,
                      delegateCreated, withDelegate, withoutDelegate)
      ensures r.Success? ==> fresh(r.value) && r.value.Valid()
    {
      warnings := [];
      var runtime := new TfLiteRuntime(modelData, inputOperators, outputOperators);
      runtime.model := Some(Model(modelData));
      var optionsWithoutDelegate := BaseOptions();
      runtime.gpuDelegate := if delegateCreated then Some(GpuDelegate(serializationDir, modelToken)) else None;
      var optionsWithDelegate := optionsWithoutDelegate.(delegate := runtime.gpuDelegate);
      runtime.interpreter := withDelegate;
      if runtime.interpreter == null {
        warnings := warnings + [GPU_FALLBACK_WARNING];
        runtime.interpreter := withoutDelegate;
        if runtime.interpreter == null {
          return Failure(CreateRuntimeInterpreter(CreateInterpreterError)), warnings;
        }
        runtime.interpreterOptions := Some(optionsWithoutDelegate);
        runtime.gpuDelegate := None;
      } else {
        runtime.interpreterOptions := Some(optionsWithDelegate);
      }
      if allocateStatus != Ok {
        return Failure(CreateRuntimeAllocate(AllocateTensorsError(allocateStatus))), warnings;
      }
      return Success(runtime), warnings;
    }

    /** TfLiteRuntime::~TfLiteRuntime: returns the handles in the order they
        are released. */
    method Release() returns (released: seq<Handle>)
      modifies this
      ensures released == ReleaseOrder(old(interpreter) != null, old(gpuDelegate).Some?,
                                       old(interpreterOptions).Some?, old(model).Some?)
      ensures interpreter == null && gpuDelegate.None? && interpreterOptions.None? && model.None?
    {
      released := [];
      if interpreter != null {
        released := released + [InterpreterHandle];
        interpreter := null;
      }
      if gpuDelegate.Some? {
        released := released + [DelegateHandle];
        gpuDelegate := None;
      }
      if interpreterOptions.Some? {
        released := released + [OptionsHandle];
        interpreterOptions := None;
      }
      if model.Some? {
        released := released + [ModelHandle];
        model := None;
      }
      released := released + [OutputOperatorsHandle, InputOperatorsHandle, ModelDataHandle];
    }

    /** TfLiteRuntime::invoke: `status` is what TfLiteInterpreterInvoke returns. */
    method Invoke(status: TfLiteStatus) returns (r: Outcome<InvokeInterpreterError>)
      ensures r.Pass? <==> status == Ok
      ensures r.Fail? ==> r.error.status == status
    {
      if status == Ok {
        return Pass;
      }
      return Fail(InvokeInterpreterError(status));
    }

    /** TfLiteRuntime::run_inference. The input buffer is changed in place by
        the input operators, as the header documents. */
    method RunInference(
      input: array<real>, output: array<real>,
      copyFromStatus: TfLiteStatus, invokeStatus: TfLiteStatus, copyToStatus: TfLiteStatus)
      returns (r: Outcome<RunInferenceError>)
      requires Valid() && input != output
      requires TfLiteUtils.LoadRequires(interpreter.inputTensor.State(), RunOperatorsSpec(inputOperators, input[..]).1)
      modifies input, output, interpreter.inputTensor, interpreter.inputTensor.data
      ensures Valid()
      ensures Inference(r, input[..], output[..], interpreter.inputTensor.State()) ==
        RunInferenceSpec(inputOperators, outputOperators, old(input[..]), old(output[..]),
                         old(interpreter.inputTensor.State()), interpreter.outputTensor.State(),
                         copyFromStatus, invokeStatus, copyToStatus)
    {
      ghost var original := input[..];
      var preprocessed := RunOperators(inputOperators, input);
      r := AfterInputOperators(preprocessed, input[..], output, copyFromStatus, invokeStatus, copyToStatus, original);
    }

    /** The part of run_inference after the input operators ran on `original`,
        giving `preprocessed` and `input`. */
    method AfterInputOperators(
      preprocessed: Outcome<OperatorError>, input: seq<real>, output: array<real>,
      copyFromStatus: TfLiteStatus, invokeStatus: TfLiteStatus, copyToStatus: TfLiteStatus, ghost original: seq<real>)
      returns (r: Outcome<RunInferenceError>)
      requires Valid()
      requires RunOperatorsSpec(inputOperators, original) == (preprocessed, input)
      requires TfLiteUtils.LoadRequires(interpreter.inputTensor.State(), input)
      modifies output, interpreter.inputTensor, interpreter.inputTensor.data
      ensures Valid()
      ensures Inference(r, input, output[..], interpreter.inputTensor.State()) ==
        RunInferenceSpec(inputOperators, outputOperators, original, old(output[..]),
                         old(interpreter.inputTensor.State()), interpreter.outputTensor.State(),
                         copyFromStatus, invokeStatus, copyToStatus)
    {
      if preprocessed.Fail? {
        r := Fail(RunInferenceOperator(preprocessed.error));
      } else {
        r := LoadInvokeRead(input, output, copyFromStatus, invokeStatus, copyToStatus);
      }
    }

    /** The part of run_inference after the input operators succeeded. */
    method LoadInvokeRead(
      input: seq<real>, output: array<real>,
      copyFromStatus: TfLiteStatus, invokeStatus: TfLiteStatus, copyToStatus: TfLiteStatus)
      returns (r: Outcome<RunInferenceError>)
      requires Valid()
      requires TfLiteUtils.LoadRequires(interpreter.inputTensor.State(), input)
      modifies output, interpreter.inputTensor, interpreter.inputTensor.data
      ensures Valid()
      ensures Inference(r, input, output[..], interpreter.inputTensor.State()) ==
        AfterPreprocessing(outputOperators, input, old(output[..]),
                           old(interpreter.inputTensor.State()), interpreter.outputTensor.State(),
                           copyFromStatus, invokeStatus, copyToStatus)
    {
      var inputTensor, outputTensor := interpreter.inputTensor, interpreter.outputTensor;
      ghost var outState := outputTensor.State();
      ghost var inState := inputTensor.State();
      var loaded := TfLiteUtils.LoadInputTensorWithFloats(inputTensor, input, copyFromStatus);
      assert outputTensor.State() == outState;
      assert model == Some(Model(modelData));
      assert interpreter != null;
      assert inputTensor.Valid();
      assert outputTensor.Valid();
      assert interpreter.Valid();
      assert Valid();
      r := AfterLoadStage(loaded, input, output, copyFromStatus, invokeStatus, copyToStatus, inState);
    }

    /** The part of run_inference after the load, which reported `loaded`
        and turned the input tensor from `original` into what it is now. */
    method AfterLoadStage(
      loaded: Outcome<LoadInputError>, input: seq<real>, output: array<real>,
      copyFromStatus: TfLiteStatus, invokeStatus: TfLiteStatus, copyToStatus: TfLiteStatus,
      ghost original: TensorState)
      returns (r: Outcome<RunInferenceError>)
      requires Valid() && TfLiteUtils.LoadRequires(original, input)
      requires (loaded, interpreter.inputTensor.State()) == TfLiteUtils.LoadInputSpec(original, input, copyFromStatus)
      modifies output
      ensures Inference(r, input, output[..], interpreter.inputTensor.State()) ==
        AfterPreprocessing(outputOperators, input, old(output[..]), original, interpreter.outputTensor.State(),
                           copyFromStatus, invokeStatus, copyToStatus)
    {
      if loaded.Fail? {
        r := Fail(RunInferenceLoadInput(loaded.error));
      } else {
        r := InvokeAndRead(output, invokeStatus, copyToStatus);
      }
    }

    /** The part of run_inference after a successful load. */
    method InvokeAndRead(output: array<real>, invokeStatus: TfLiteStatus, copyToStatus: TfLiteStatus)
      returns (r: Outcome<RunInferenceError>)
      requires Valid()
      modifies output
      ensures (r, output[..]) == AfterLoad(outputOperators, old(output[..]), interpreter.outputTensor.State(),
                                           invokeStatus, copyToStatus)
    {
      var invoked := Invoke(invokeStatus);
      if invoked.Fail? {
        return Fail(RunInferenceInvoke(invoked.error));
      }
      var read := TfLiteUtils.ReadFloatsFromOutputTensor(interpreter.outputTensor, output, copyToStatus);
      if read.Fail? {
        return Fail(RunInferenceReadOutput(read.error));
      }
      var postprocessed := RunOperators(outputOperators, output);
      if postprocessed.Fail? {
        return Fail(RunInferenceOperator(postprocessed.error));
      }
      return Pass;
    }
  }

  /** What create (or build) returns: the planned error, or a runtime that
      owns the bytes and operators, holds the interpreter of the attempt that
      succeeded and keeps the delegate only when create_gpu_delegate made one
      and that attempt used it. */
  ghost predicate Created(
    r: Result<TfLiteRuntime, CreateRuntimeError>, plan: Result<bool, CreateRuntimeError>,
    modelData: seq<Int8>, serializationDir: string, modelToken: string,
    inputOperators: seq<Operator>, outputOperators: seq<Operator>,
    delegateCreated: bool, withDelegate: Interpreter?, withoutDelegate: Interpreter?)
    reads if r.Success? then {r.value} else {}
  {
    && (r.Failure? <==> plan.Failure?)
    && (r.Failure? ==> r.error == plan.error)
    && (r.Success? ==>
          && r.value.modelData == modelData
          && r.value.inputOperators == inputOperators
          && r.value.outputOperators == outputOperators
          && r.value.interpreter == (if plan.value then withDelegate else withoutDelegate)
          && r.value.gpuDelegate == (if plan.value && delegateCreated then Some(GpuDelegate(serializationDir, modelToken)) else None))
  }

  /** A runtime that create returned holds a delegate only when
      create_gpu_delegate made one; when it returned null (or the fallback
      interpreter was taken) the destructor releases no delegate, and the
      interpreter, options and model still go in the destructor's order. */
  lemma CreatedWithoutDelegateReleasesNoDelegate(
    r: Result<TfLiteRuntime, CreateRuntimeError>, plan: Result<bool, CreateRuntimeError>,
    modelData: seq<Int8>, serializationDir: string, modelToken: string,
    inputOperators: seq<Operator>, outputOperators: seq<Operator>,
    delegateCreated: bool, withDelegate: Interpreter?, withoutDelegate: Interpreter?)
    requires Created(r, plan, modelData, serializationDir, modelToken, inputOperators, outputOperators,
                     delegateCreated, withDelegate, withoutDelegate)
    requires r.Success? && r.value.interpreter != null
    requires !delegateCreated || !plan.value
    ensures r.value.gpuDelegate.None?
    ensures ReleaseOrder(true, r.value.gpuDelegate.Some?, true, true)
            == [InterpreterHandle, OptionsHandle, ModelHandle,
                OutputOperatorsHandle, InputOperatorsHandle, ModelDataHandle]
    ensures DelegateHandle !in ReleaseOrder(true, r.value.gpuDelegate.Some?, true, true)
  {
    ReleaseOrderOfCreatedRuntime(false);
  }

  /** The loop of run_inference over one operator list. */
  method RunOperators(ops: seq<Operator>, values: array<real>) returns (r: Outcome<OperatorError>)
    requires OperatorsValid(ops)
    modifies values
    ensures (r, values[..]) == RunOperatorsSpec(ops, old(values[..]))
  {
    ghost var s := values[..];
    for k := 0 to |ops|
      invariant (Pass, values[..]) == RunOperatorsSpec(ops[..k], s)
    {
      assert ops[..k + 1][..k] == ops[..k];
      var result := Execute(ops[k], values);
      if result.Fail? {
        FirstOperatorFailureWins(ops, k, s);
        return result;
      }
    }
    assert ops[..|ops|] == ops;
    return Pass;
  }

  // ---------------------------------------------------------------------------
  // The builder

  class TfLiteRuntimeBuilder {
    const modelData: seq<Int8>
    const serializationDir: string
    const modelToken: string
    var inputOperators: seq<Operator>
    var outputOperators: seq<Operator>

    constructor (modelData: seq<Int8>, serializationDir: string, modelToken: string)
      ensures this.modelData == modelData && this.serializationDir == serializationDir
      ensures this.modelToken == modelToken
      ensures inputOperators == [] && outputOperators == []
    {
      this.modelData := modelData;
      this.serializationDir := serializationDir;
      this.modelToken := modelToken;
      inputOperators := [];
      outputOperators := [];
    }

    /** add_input_operator appends and returns the builder itself. */
    method AddInputOperator(op: Operator) returns (self: TfLiteRuntimeBuilder)
      modifies this
      ensures self == this
      ensures inputOperators == old(inputOperators) + [op] && outputOperators == old(outputOperators)
    {
      inputOperators := inputOperators + [op];
      return this;
    }

    /** add_output_operator appends and returns the builder itself. */
    method AddOutputOperator(op: Operator) returns (self: TfLiteRuntimeBuilder)
      modifies this
      ensures self == this
      ensures outputOperators == old(outputOperators) + [op] && inputOperators == old(inputOperators)
    {
      outputOperators := outputOperators + [op];
      return this;
    }

    /** build hands everything the builder collected to create. */
    method Build(delegateCreated: bool, withDelegate: Interpreter?, withoutDelegate: Interpreter?,
                 allocateStatus: TfLiteStatus)
      returns (r: Result<TfLiteRuntime, CreateRuntimeError>, warnings: seq<string>)
      requires withDelegate != null ==> withDelegate.Valid()
      requires withoutDelegate != null ==> withoutDelegate.Valid()
      requires OperatorsValid(inputOperators) && OperatorsValid(outputOperators)
      ensures warnings == CreateWarnings(withDelegate != null)
      ensures Created(r, CreatePlan(withDelegate != null, withoutDelegate != null, allocateStatus),
                      modelData, serializationDir, modelToken, inputOperators, outputOperators,
                      delegateCreated, withDelegate, withoutDelegate)
      ensures r.Success? ==> fresh(r.value) && r.value.Valid()
    {
      r, warnings := TfLiteRuntime.Create(modelData, serializationDir, modelToken,
                                          inputOperators, outputOperators,
                                          delegateCreated, withDelegate, withoutDelegate, allocateStatus);
    }
  }
}
