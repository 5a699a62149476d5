/** The part of the TensorFlow Lite C API the runtime core talks to: element
    types, status codes, quantization parameters, and the engine-owned tensors
    and interpreter. The engine itself is an oracle: its objects are given to
    the model, and its calls appear as the statuses and handles they return. */
module TfLiteApi {
  import opened Wrappers

  /** One byte of tensor storage (std::byte / uint8_t). */
  newtype Byte = x: int | 0 <= x < 256

  /** TfLiteType. `Unlisted` stands for any tag outside the enumeration that
      the `default:` branches of the switches over it catch. */
  datatype TfLiteType =
    | NoType | Float32 | Int32 | UInt8 | Int64 | String | Bool | Int16
    | Complex64 | Int8 | Float16 | Float64 | Complex128 | UInt64 | Resource
    | Variant | UInt32 | UInt16 | Int4 | BFloat16
    | Unlisted(code: int)

  /** TfLiteStatus, with `Unlisted` for codes outside the enumeration. */
  datatype TfLiteStatus =
    | Ok | Error | DelegateError | ApplicationError | DelegateDataNotFound
    | DelegateDataWriteError | DelegateDataReadError | UnresolvedOps
    | Cancelled | OutputShapeNotKnown
    | UnlistedStatus(code: int)

  /** TfLiteAffineQuantization: one scale and one zero point per quantized
      dimension entry (the core only supports exactly one of each). */
  datatype AffineQuantization = AffineQuantization(scale: seq<real>, zeroPoint: seq<int>)

  /** TfLiteQuantization: its type tag (kTfLiteNoQuantization or
      kTfLiteAffineQuantization) together with the parameters the tag announces. */
  datatype Quantization = NoQuantization | Affine(params: AffineQuantization)

  /** A snapshot of a tensor, for stating what an operation does to it. */
  datatype TensorState = TensorState(
    elementType: TfLiteType,
    quantization: Quantization,
    byteSize: nat,
    data: Option<seq<Byte>>,
    floats: seq<real>)

  /** A TfLiteTensor owned by the engine. `data` is the storage that
      TfLiteTensorData returns (null while the tensor is not yet created) and
      `byteSize` is TfLiteTensorByteSize. `floats` is the float32 content that
      the engine's copy routines (TfLiteTensorCopyFromBuffer/CopyToBuffer)
      move between the storage and a caller's buffer; its IEEE-754 byte
      encoding is not modelled. */
  class Tensor {
    const elementType: TfLiteType
    const quantization: Quantization
    const byteSize: nat
    const data: array?<Byte>
    var floats: seq<real>

    ghost predicate Valid()
      reads this
    {
      (data != null ==> data.Length == byteSize) && |floats| == byteSize / 4
    }

    function State(): (s: TensorState)
      reads this, data
      ensures s.elementType == elementType && s.quantization == quantization && s.byteSize == byteSize
      ensures s.data.Some? <==> data != null
      ensures data != null ==> s.data.value == data[..]
      ensures s.floats == floats
    {
      TensorState(elementType, quantization, byteSize,
                  if data == null then None else Some(data[..]), floats)
    }

    /** The engine allocating a tensor. */
    constructor (elementType: TfLiteType, quantization: Quantization, byteSize: nat, created: bool)
      ensures Valid() && this.elementType == elementType && this.quantization == quantization
      ensures this.byteSize == byteSize && (data != null <==> created)
      ensures created ==> fresh(data)
    {
      this.elementType := elementType;
      this.quantization := quantization;
      this.byteSize := byteSize;
      if created {
        this.data := new Byte[byteSize];
      } else {
        this.data := null;
      }
      this.floats := seq(byteSize / 4, _ => 0.0);
    }
  }

  /** A TfLiteInterpreter with the single input tensor and single output
      tensor that TfLiteInterpreterGetInputTensor(…, 0) and
      TfLiteInterpreterGetOutputTensor(…, 0) return. */
  class Interpreter {
    const inputTensor: Tensor
    const outputTensor: Tensor

    ghost predicate Valid()
      reads this, inputTensor, outputTensor
    {
      && inputTensor != outputTensor
      && inputTensor.Valid() && outputTensor.Valid()
      && (inputTensor.data != null && outputTensor.data != null ==> inputTensor.data != outputTensor.data)
    }

    constructor (inputTensor: Tensor, outputTensor: Tensor)
      ensures this.inputTensor == inputTensor && this.outputTensor == outputTensor
    {
      this.inputTensor := inputTensor;
      this.outputTensor := outputTensor;
    }
  }
}
