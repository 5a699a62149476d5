/** The object-detection model (YoloModel.hpp / YoloModel.cpp): an object
    that starts without a runtime, gets one from create, and runs inference
    through it. */
module YoloModels {
  import opened Wrappers
  import opened TfLiteApi
  import opened TfLiteErrors
  import opened Operators
  import opened TfLiteRuntimes
  import TfLiteUtils

  /** The operator lists YoloModel::create fills. */
  const YOLO_INPUT_OPERATORS: seq<Operator> := [DEFAULT_RGB_NORMALIZE]
  const YOLO_OUTPUT_OPERATORS: seq<Operator> := [MinMaxOperator]

  class YoloModel {
    var runtime: TfLiteRuntime?

    /** A model whose create has succeeded. */
    ghost predicate Valid()
      reads this, runtime
      reads if runtime != null then {runtime.interpreter} else {}
      reads if runtime != null && runtime.interpreter != null
            then {runtime.interpreter.inputTensor, runtime.interpreter.outputTensor} else {}
    {
      && runtime != null && runtime.Valid()
      && runtime.inputOperators == YOLO_INPUT_OPERATORS
      && runtime.outputOperators == YOLO_OUTPUT_OPERATORS
    }

    /** YoloModel::YoloModel: no runtime yet. */
    constructor ()
      ensures runtime == null
    {
      runtime := null;
    }

    /** YoloModel::create: creates a runtime with [RgbNormalize] as input
        operators and [MinMax] as output operators. On failure the error is
        returned unchanged and the model keeps the runtime it had; on
        success the new runtime is stored and true is returned. The engine's
        answers are as for TfLiteRuntime::create. */
    method Create(
      modelData: seq<Int8>, serializationDir: string, modelToken: string,
      delegateCreated: bool, withDelegate: Interpreter?, withoutDelegate: Interpreter?,
      allocateStatus: TfLiteStatus)
      returns (r: Result<bool, CreateRuntimeError>, warnings: seq<string>)
      requires withDelegate != null ==> withDelegate.Valid()
      requires withoutDelegate != null ==> withoutDelegate.Valid()
      modifies this
      ensures warnings == CreateWarnings(withDelegate != null)
      ensures var plan := CreatePlan(withDelegate != null, withoutDelegate != null, allocateStatus);
        && (r.Failure? <==> plan.Failure?)
        && (r.Failure? ==> r.error == plan.error && runtime == old(runtime))
      ensures r.Success? ==>
        && r.value
        && fresh(runtime) && Valid()
        && runtime.modelData == modelData
        && runtime.interpreter == (if withDelegate != null then withDelegate else withoutDelegate)
        && (runtime.gpuDelegate.Some? <==> delegateCreated && withDelegate != null)
    {
      DefaultRgbNormalizeIsValid();
      var inputOperators := [];
      inputOperators := inputOperators + [DEFAULT_RGB_NORMALIZE];
      var outputOperators := [];
      outputOperators := outputOperators + [MinMaxOperator];
      var created;
      created, warnings := TfLiteRuntime.Create(modelData, serializationDir, modelToken,
                                                inputOperators, outputOperators,
                                                delegateCreated, withDelegate, withoutDelegate,
                                                allocateStatus);
      if created.Failure? {
        return Failure(created.error), warnings;
      }
      runtime := created.value;
      return Success(true), warnings;
    }

    /** YoloModel::run: the stored runtime's run_inference result. */
    method Run(
      input: array<real>, output: array<real>,
      copyFromStatus: TfLiteStatus, invokeStatus: TfLiteStatus, copyToStatus: TfLiteStatus)
      returns (r: Outcome<RunInferenceError>)
      requires Valid() && input != output
      requires TfLiteUtils.LoadRequires(runtime.interpreter.inputTensor.State(),
                                        RunOperatorsSpec(YOLO_INPUT_OPERATORS, input[..]).1)
      modifies input, output, runtime.interpreter.inputTensor, runtime.interpreter.inputTensor.data
      ensures Valid()
      ensures Inference(r, input[..], output[..], runtime.interpreter.inputTensor.State()) ==
        RunInferenceSpec(YOLO_INPUT_OPERATORS, YOLO_OUTPUT_OPERATORS, old(input[..]), old(output[..]),
                         old(runtime.interpreter.inputTensor.State()), runtime.interpreter.outputTensor.State(),
                         copyFromStatus, invokeStatus, copyToStatus)
    {
      r := runtime.RunInference(input, output, copyFromStatus, invokeStatus, copyToStatus);
    }
  }
}
