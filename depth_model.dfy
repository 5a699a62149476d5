/** The depth-estimation model (DepthModel.hpp / DepthModel.cpp): a runtime
    whose input is RGB-normalised with the default mean and standard
    deviation and whose output is min-max rescaled. */
module DepthModels {
  import opened Wrappers
  import opened TfLiteApi
  import opened TfLiteErrors
  import opened Operators
  import opened TfLiteRuntimes
  import TfLiteUtils

  /** The input operators DepthModel::create registers. */
  const DEPTH_INPUT_OPERATORS: seq<Operator> := [DEFAULT_RGB_NORMALIZE]

  /** The output operators DepthModel::create registers. */
  const DEPTH_OUTPUT_OPERATORS: seq<Operator> := [MinMaxOperator]

  lemma DepthOperatorsAreValid()
    ensures OperatorsValid(DEPTH_INPUT_OPERATORS) && OperatorsValid(DEPTH_OUTPUT_OPERATORS)
  {
    DefaultRgbNormalizeIsValid();
  }

  /** A one-operator list runs exactly that operator. */
  lemma RunSingleOperator(op: Operator, s: seq<real>)
    requires op.Valid()
    ensures OperatorsValid([op])
    ensures RunOperatorsSpec([op], s) == Apply(op, s)
  {
    assert [op][..0] == [];
  }

  /** The depth pipeline's input operator fails exactly on a buffer whose
      length is not a multiple of 3, and then run reports that operator
      error and writes neither the tensor nor the output buffer. Otherwise
      no operator error is ever reported (min-max rescaling cannot fail),
      and on success every output value lies in [0, 1]. */
  lemma {:induction false} DepthInferenceProperties(
    input: seq<real>, output: seq<real>, inT: TensorState, outT: TensorState,
    c1: TfLiteStatus, inv: TfLiteStatus, c2: TfLiteStatus)
    requires OperatorsValid(DEPTH_INPUT_OPERATORS) && OperatorsValid(DEPTH_OUTPUT_OPERATORS)
    requires TfLiteUtils.LoadRequires(inT, RunOperatorsSpec(DEPTH_INPUT_OPERATORS, input).1)
    ensures var res := RunInferenceSpec(DEPTH_INPUT_OPERATORS, DEPTH_OUTPUT_OPERATORS,
                                        input, output, inT, outT, c1, inv, c2);
      && (|input| % 3 != 0 ==>
            res == Inference(Fail(RunInferenceOperator(NotMultipleOfThreeError(|input|))), input, output, inT))
      && (|input| % 3 == 0 ==> !(res.outcome.Fail? && res.outcome.error.RunInferenceOperator?))
      && (res.outcome.Pass? ==> forall i :: 0 <= i < |res.output| ==> 0.0 <= res.output[i] <= 1.0)
  {
    DefaultRgbNormalizeIsValid();
    RunSingleOperator(DEFAULT_RGB_NORMALIZE, input);
    var (o1, in1) := RunOperatorsSpec(DEPTH_INPUT_OPERATORS, input);
    if o1.Pass? {
      var (o3, out1) := TfLiteUtils.ReadOutputSpec(outT, output, c2);
      RunSingleOperator(MinMaxOperator, out1);
      RunInferenceSucceedsIff(DEPTH_INPUT_OPERATORS, DEPTH_OUTPUT_OPERATORS, input, output, inT, outT, c1, inv, c2);
      MinMaxResultInUnitRange(out1);
      assert RunInferenceSpec(DEPTH_INPUT_OPERATORS, DEPTH_OUTPUT_OPERATORS, input, output, inT, outT, c1, inv, c2)
          == AfterPreprocessing(DEPTH_OUTPUT_OPERATORS, in1, output, inT, outT, c1, inv, c2);
    }
  }

  class DepthModel {
    const runtime: TfLiteRuntime

    /** A depth model over a runtime that create returned, configured with
        the depth pipeline's operators. */
    ghost predicate Valid()
      reads this, runtime, runtime.interpreter
      reads if runtime.interpreter != null then {runtime.interpreter.inputTensor, runtime.interpreter.outputTensor} else {}
    {
      && runtime.Valid()
      && runtime.inputOperators == DEPTH_INPUT_OPERATORS
      && runtime.outputOperators == DEPTH_OUTPUT_OPERATORS
    }

    /** The constructor takes ownership of the runtime. */
    constructor (runtime: TfLiteRuntime)
      ensures this.runtime == runtime
    {
      this.runtime := runtime;
    }

    /** DepthModel::create: builds a runtime with one input operator
        (RgbNormalize with its defaults) and one output operator (MinMax);
        a build error is returned unchanged. The engine's answers are as
        for TfLiteRuntime::create. */
    static method Create(
      modelData: seq<Int8>, serializationDir: string, modelToken: string,
      delegateCreated: bool, withDelegate: Interpreter?, withoutDelegate: Interpreter?,
      allocateStatus: TfLiteStatus)
      returns (r: Result<DepthModel, CreateRuntimeError>, warnings: seq<string>)
      requires withDelegate != null ==> withDelegate.Valid()
      requires withoutDelegate != null ==> withoutDelegate.Valid()
      ensures warnings == CreateWarnings(withDelegate != null)
      ensures var plan := CreatePlan(withDelegate != null, withoutDelegate != null, allocateStatus);
        && (r.Failure? <==> plan.Failure?)
        && (r.Failure? ==> r.error == plan.error)
      ensures r.Success? ==>
        && fresh(r.value) && fresh(r.value.runtime) && r.value.Valid()
        && r.value.runtime.modelData == modelData
        && r.value.runtime.interpreter == (if withDelegate != null then withDelegate else withoutDelegate)
        && (r.value.runtime.gpuDelegate.Some? <==> delegateCreated && withDelegate != null)
    {
      DepthOperatorsAreValid();
      var builder := new TfLiteRuntimeBuilder(modelData, serializationDir, modelToken);
      var withInput := builder.AddInputOperator(DEFAULT_RGB_NORMALIZE);
      var withOutput := withInput.AddOutputOperator(MinMaxOperator);
      assert withOutput.inputOperators == DEPTH_INPUT_OPERATORS;
      assert withOutput.outputOperators == DEPTH_OUTPUT_OPERATORS;
      var built;
      built, warnings := withOutput.Build(delegateCreated, withDelegate, withoutDelegate, allocateStatus);
      if built.Failure? {
        return Failure(built.error), warnings;
      }
      var model := new DepthModel(built.value);
      return Success(model), warnings;
    }

    /** DepthModel::run: forwards both buffers to run_inference and returns
        its result. */
    method Run(
      input: array<real>, output: array<real>,
      copyFromStatus: TfLiteStatus, invokeStatus: TfLiteStatus, copyToStatus: TfLiteStatus)
      returns (r: Outcome<RunInferenceError>)
      requires Valid() && input != output
      requires TfLiteUtils.LoadRequires(runtime.interpreter.inputTensor.State(),
                                        RunOperatorsSpec(DEPTH_INPUT_OPERATORS, input[..]).1)
      modifies input, output, runtime.interpreter.inputTensor, runtime.interpreter.inputTensor.data
      ensures Valid()
      ensures Inference(r, input[..], output[..], runtime.interpreter.inputTensor.State()) ==
        RunInferenceSpec(DEPTH_INPUT_OPERATORS, DEPTH_OUTPUT_OPERATORS, old(input[..]), old(output[..]),
                         old(runtime.interpreter.inputTensor.State()), runtime.interpreter.outputTensor.State(),
                         copyFromStatus, invokeStatus, copyToStatus)
    {
      r := runtime.RunInference(input, output, copyFromStatus, invokeStatus, copyToStatus);
    }
  }
}
