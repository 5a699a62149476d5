/** The error taxonomy of the TensorFlow Lite runtime (TfLiteUtils.hpp):
    leaf error records and the COMBINED_ERROR unions built from them. A union
    holds exactly one of its alternatives; each alternative is a constructor
    wrapping the leaf record it names. */
module TfLiteErrors {
  import opened TfLiteApi
  import Operators

  /** The role of a tensor: exactly one of input or output (no default). */
  datatype TensorType = Input | Output

  // ---------------------------------------------------------------------------
  // Leaf errors

  datatype NonFloatTensorTypeError = NonFloatTensorTypeError(tensorType: TensorType, tensorElementType: TfLiteType)

  datatype TensorsNotCreatedError = TensorsNotCreatedError(tensorType: TensorType)

  datatype TensorElementCountMismatch =
    TensorElementCountMismatch(tensorType: TensorType, providedElements: nat, expectedElements: nat)

  datatype CopyFromInputTensorError = CopyFromInputTensorError(status: TfLiteStatus)

  datatype InvalidFloat32QuantizationTypeError = InvalidFloat32QuantizationTypeError(quantizedType: TfLiteType)

  datatype QuantizationElementsMismatch =
    QuantizationElementsMismatch(inputElements: nat, quantizedOutElements: nat)

  datatype AsymmetricQuantizationError = AsymmetricQuantizationError

  datatype InvalidQuantizedType = InvalidQuantizedType(quantizedType: TfLiteType)

  datatype CopyToOutputTensorError = CopyToOutputTensorError(status: TfLiteStatus)

  datatype CreateInterpreterError = CreateInterpreterError

  datatype AllocateTensorsError = AllocateTensorsError(status: TfLiteStatus)

  datatype InvokeInterpreterError = InvokeInterpreterError(status: TfLiteStatus)

  // ---------------------------------------------------------------------------
  // Combined errors of loading the input tensor

  datatype LoadNonQuantizedInputError =
    | LoadNonQuantizedNotCreated(notCreated: TensorsNotCreatedError)
    | LoadNonQuantizedNonFloat(nonFloat: NonFloatTensorTypeError)
    | LoadNonQuantizedCountMismatch(countMismatch: TensorElementCountMismatch)
    | LoadNonQuantizedCopyFrom(copyFrom: CopyFromInputTensorError)

  datatype QuantizeFloatError =
    | QuantizeInvalidType(invalidType: InvalidFloat32QuantizationTypeError)
    | QuantizeElementsMismatch(elementsMismatch: QuantizationElementsMismatch)
    | QuantizeAsymmetric(asymmetric: AsymmetricQuantizationError)

  datatype LoadQuantizedInputError =
    | LoadQuantizedNotCreated(notCreated: TensorsNotCreatedError)
    | LoadQuantizedCountMismatch(countMismatch: TensorElementCountMismatch)
    | LoadQuantizedInvalidType(invalidType: InvalidQuantizedType)
    | LoadQuantizedQuantize(quantize: QuantizeFloatError)

  datatype LoadInputError =
    | LoadNonQuantized(nonQuantized: LoadNonQuantizedInputError)
    | LoadQuantized(quantized: LoadQuantizedInputError)

  // ---------------------------------------------------------------------------
  // Combined errors of reading the output tensor. The non-quantized read has
  // no not-created alternative: that path never checks for missing data.

  datatype ReadNonQuantizedOutputError =
    | ReadNonQuantizedNonFloat(nonFloat: NonFloatTensorTypeError)
    | ReadNonQuantizedCountMismatch(countMismatch: TensorElementCountMismatch)
    | ReadNonQuantizedCopyTo(copyTo: CopyToOutputTensorError)

  datatype DequantizeFloatError =
    | DequantizeInvalidType(invalidType: InvalidFloat32QuantizationTypeError)
    | DequantizeElementsMismatch(elementsMismatch: QuantizationElementsMismatch)
    | DequantizeAsymmetric(asymmetric: AsymmetricQuantizationError)

  datatype ReadQuantizedOutputError =
    | ReadQuantizedNotCreated(notCreated: TensorsNotCreatedError)
    | ReadQuantizedCountMismatch(countMismatch: TensorElementCountMismatch)
    | ReadQuantizedDequantize(dequantize: DequantizeFloatError)

  datatype ReadOutputError =
    | ReadNonQuantized(nonQuantized: ReadNonQuantizedOutputError)
    | ReadQuantized(quantized: ReadQuantizedOutputError)

  // ---------------------------------------------------------------------------
  // Combined errors of the runtime

  datatype CreateRuntimeError =
    | CreateRuntimeInterpreter(createInterpreter: CreateInterpreterError)
    | CreateRuntimeAllocate(allocate: AllocateTensorsError)

  datatype RunInferenceError =
    | RunInferenceOperator(operatorError: Operators.OperatorError)
    | RunInferenceLoadInput(loadInput: LoadInputError)
    | RunInferenceInvoke(invoke: InvokeInterpreterError)
    | RunInferenceReadOutput(readOutput: ReadOutputError)
}
