/** The app's older tensor helpers (EyeAIApp/app/src/main/cpp/src/tflite/
    TfLiteUtils.hpp): the same tables and uint8 affine arithmetic as the
    core codec, but failures are C++ exceptions and statuses are either
    thrown or only logged. */
module LegacyTfLiteUtils {
  import opened Wrappers
  import opened TfLiteApi
  import opened TfLiteErrors
  import opened TfLiteUtils

  /** is_tensor_quantized: the quantization type is exactly
      kTfLiteAffineQuantization. */
  predicate IsTensorQuantized(q: Quantization) {
    q.Affine?
  }

  /** With the two quantization types of the engine, the legacy test
      (`== kTfLiteAffineQuantization`) and the core one
      (`!= kTfLiteNoQuantization`) decide alike. */
  lemma IsTensorQuantizedAgreesWithCore(q: Quantization)
    ensures IsTensorQuantized(q) <==> GetTensorQuantization(q).Some?
    ensures IsTensorQuantized(q) ==> GetTensorQuantization(q) == Some(q.params)
  {
  }

  // ---------------------------------------------------------------------------
  // Exceptions

  /** The exceptions the legacy runtime throws. */
  datatype TfLiteException =
    | TfLiteStatusException(status: TfLiteStatus, context: string)
    | UnsupportedTypeQuantization(unsupportedType: TfLiteType)
    | UnsupportedAsymmetricQuantization
    | TensorNotYetCreated
    | WrongType(expectedType: TfLiteType, providedType: TfLiteType)
    | InvalidArgument(argument: string)

  /** what() of each exception. */
  function What(e: TfLiteException): string {
    match e
    case TfLiteStatusException(status, context) => context + ": " + FormatTfLiteStatus(status)
    case UnsupportedTypeQuantization(t) => "unsupported quantization type: " + FormatTfLiteType(t)
    case UnsupportedAsymmetricQuantization => "asymmetric quantization unsupported"
    case TensorNotYetCreated => "tensor not yet created"
    case WrongType(expected, provided) =>
      "invalid type of " + FormatTfLiteType(provided) + ", expected " + FormatTfLiteType(expected)
    case InvalidArgument(argument) => argument
  }

  /** A status exception's message is its context, ": ", and a name from
      which the status can be read back (unless the status is outside the
      enumeration, which prints as "unknown"). */
  lemma StatusExceptionMessageNamesStatus(status: TfLiteStatus, context: string)
    ensures var m := What(TfLiteStatusException(status, context));
      && |m| >= |context| + 2
      && m[..|context| + 2] == context + ": "
      && StatusNamed(m[|context| + 2..]) == if status.UnlistedStatus? then None else Some(status)
  {
    var m := What(TfLiteStatusException(status, context));
    assert m[|context| + 2..] == FormatTfLiteStatus(status);
    FormatTfLiteStatusIsInvertible(status);
  }

  /** throw_on_tflite_status: a status exception exactly when the status is
      not kTfLiteOk. */
  function ThrowOnTfLiteStatus(status: TfLiteStatus, context: string): (r: Outcome<TfLiteException>)
    ensures r.Fail? <==> status != Ok
    ensures r.Fail? ==> r.error == TfLiteStatusException(status, context)
  {
    if status != Ok then Fail(TfLiteStatusException(status, context)) else Pass
  }

  /** check_tflite_status: never throws; one error line for a status that
      is not kTfLiteOk, nothing otherwise. */
  function CheckTfLiteStatus(status: TfLiteStatus, functionName: string): (log: seq<string>)
    ensures |log| <= 1
    ensures log == [] <==> status == Ok
  {
    if status == Ok then []
    else [functionName + " returned " + FormatTfLiteStatus(status) + " during"]
  }

  /** The line it logs names the function first and then the status. */
  lemma CheckTfLiteStatusLogsStatusName(status: TfLiteStatus, functionName: string)
    requires status != Ok
    ensures var line := CheckTfLiteStatus(status, functionName)[0];
      var k := |functionName| + |" returned "|;
      && |line| == k + |FormatTfLiteStatus(status)| + |" during"|
      && line[..|functionName|] == functionName
      && StatusNamed(line[k..k + |FormatTfLiteStatus(status)|]) == if status.UnlistedStatus? then None else Some(status)
  {
    var line := CheckTfLiteStatus(status, functionName)[0];
    var k := |functionName| + |" returned "|;
    assert line[k..k + |FormatTfLiteStatus(status)|] == FormatTfLiteStatus(status);
    assert line[..|functionName|] == functionName;
    FormatTfLiteStatusIsInvertible(status);
  }

  // ---------------------------------------------------------------------------
  // TFLITE_TYPE_FROM_TYPE

  /** The C++ element types the runtime templates can be instantiated with;
      `OtherCppType` is any type the table does not list. */
  datatype CppType =
    | CppFloat | CppInt32 | CppUInt8 | CppInt64 | CppBool | CppInt16 | CppInt8
    | CppFloat16 | CppDouble | CppUInt64 | CppUInt32 | CppUInt16 | CppBFloat16
    | OtherCppType(name: string)

  /** sizeof of a listed type. */
  function CppSize(c: CppType): (n: nat)
    requires !c.OtherCppType?
  {
    match c
    case CppFloat => 4
    case CppInt32 => 4
    case CppUInt8 => 1
    case CppInt64 => 8
    case CppBool => 1
    case CppInt16 => 2
    case CppInt8 => 1
    case CppFloat16 => 2
    case CppDouble => 8
    case CppUInt64 => 8
    case CppUInt32 => 4
    case CppUInt16 => 2
    case CppBFloat16 => 2
  }

  /** TFLITE_TYPE_FROM_TYPE: kTfLiteNoType for every unlisted type. */
  function TfLiteTypeFromType(c: CppType): (t: TfLiteType)
    ensures t == NoType <==> c.OtherCppType?
  {
    match c
    case CppFloat => Float32
    case CppInt32 => Int32
    case CppUInt8 => UInt8
    case CppInt64 => Int64
    case CppBool => Bool
    case CppInt16 => Int16
    case CppInt8 => Int8
    case CppFloat16 => Float16
    case CppDouble => Float64
    case CppUInt64 => UInt64
    case CppUInt32 => UInt32
    case CppUInt16 => UInt16
    case CppBFloat16 => BFloat16
    case OtherCppType(_) => NoType
  }

  /** The listed types get distinct tags, and get_tflite_type_size of that
      tag is the type's own size: the two tables agree. */
  lemma TfLiteTypeFromTypeMatchesSizes(c1: CppType, c2: CppType)
    requires !c1.OtherCppType? && !c2.OtherCppType?
    ensures TfLiteTypeFromType(c1) == TfLiteTypeFromType(c2) ==> c1 == c2
    ensures TypeSize(TfLiteTypeFromType(c1)) == Some(CppSize(c1))
  {
  }

  // ---------------------------------------------------------------------------
  // quantize<float> and dequantize<float>

  /** The core error of a failed quantize_floats check, as the legacy
      exception for the same check. */
  function QuantizeException(e: QuantizeFloatError): TfLiteException {
    match e
    case QuantizeInvalidType(invalid) => UnsupportedTypeQuantization(invalid.quantizedType)
    case QuantizeElementsMismatch(_) => InvalidArgument("values and quantized_values")
    case QuantizeAsymmetric(_) => UnsupportedAsymmetricQuantization
  }

  function DequantizeException(e: DequantizeFloatError): TfLiteException {
    match e
    case DequantizeInvalidType(invalid) => UnsupportedTypeQuantization(invalid.quantizedType)
    case DequantizeElementsMismatch(_) => InvalidArgument("real_values and quantized_values")
    case DequantizeAsymmetric(_) => UnsupportedAsymmetricQuantization
  }

  /** The checks of quantize<float>, in order: the type, the two lengths,
      the scale count, the zero-point count. */
  function QuantizeChecksOf(valueCount: nat, outCount: nat, quantizedType: TfLiteType, q: AffineQuantization)
    : Outcome<TfLiteException>
  {
    if quantizedType != UInt8 then Fail(UnsupportedTypeQuantization(quantizedType))
    else if valueCount != outCount then Fail(InvalidArgument("values and quantized_values"))
    else if |q.scale| != 1 then Fail(UnsupportedAsymmetricQuantization)
    else if |q.zeroPoint| != 1 then Fail(UnsupportedAsymmetricQuantization)
    else Pass
  }

  /** The checks of dequantize<float>, in the same order. */
  function DequantizeChecksOf(quantizedCount: nat, outCount: nat, quantizedType: TfLiteType, q: AffineQuantization)
    : Outcome<TfLiteException>
  {
    if quantizedType != UInt8 then Fail(UnsupportedTypeQuantization(quantizedType))
    else if quantizedCount != outCount then Fail(InvalidArgument("real_values and quantized_values"))
    else if |q.scale| != 1 then Fail(UnsupportedAsymmetricQuantization)
    else if |q.zeroPoint| != 1 then Fail(UnsupportedAsymmetricQuantization)
    else Pass
  }

  /** The legacy checks reject exactly what the core checks reject, in the
      same order, with the exception that stands for the same error. */
  lemma QuantizeChecksMatchCore(valueCount: nat, outCount: nat, t: TfLiteType, q: AffineQuantization)
    ensures var core := QuantizeChecks(valueCount, outCount, t, q);
      QuantizeChecksOf(valueCount, outCount, t, q) == if core.Pass? then Pass else Fail(QuantizeException(core.error))
  {
  }

  lemma DequantizeChecksMatchCore(quantizedCount: nat, outCount: nat, t: TfLiteType, q: AffineQuantization)
    ensures var core := DequantizeChecks(quantizedCount, outCount, t, q);
      DequantizeChecksOf(quantizedCount, outCount, t, q) == if core.Pass? then Pass else Fail(DequantizeException(core.error))
  {
  }

  /** quantize<float>: on a failed check nothing is written; otherwise byte
      i is `uint8(values[i] / scale) + zero_point` wrapped to a byte, the
      same formula as the core quantize_floats. */
  method Quantize(values: seq<real>, quantized: array<Byte>, quantizedType: TfLiteType, q: AffineQuantization)
    returns (r: Outcome<TfLiteException>)
    requires QuantizeRequires(values, quantized.Length, quantizedType, q)
    modifies quantized
    ensures r == QuantizeChecksOf(|values|, quantized.Length, quantizedType, q)
    ensures r.Fail? ==> quantized[..] == old(quantized[..])
    ensures r.Pass? ==> quantized[..] == QuantizedAll(values, q.scale[0], q.zeroPoint[0])
  {
    if quantizedType != UInt8 {
      return Fail(UnsupportedTypeQuantization(quantizedType));
    }
    if |values| != quantized.Length {
      return Fail(InvalidArgument("values and quantized_values"));
    }
    if |q.scale| != 1 {
      return Fail(UnsupportedAsymmetricQuantization);
    }
    var scale := q.scale[0];
    if |q.zeroPoint| != 1 {
      return Fail(UnsupportedAsymmetricQuantization);
    }
    var zeroPoint := q.zeroPoint[0];
    var i := 0;
    while i < |values|
      invariant 0 <= i <= |values|
      invariant forall k :: 0 <= k < i ==> quantized[k] == QuantizeByte(values[k], scale, zeroPoint)
    {
      quantized[i] := QuantizeByte(values[i], scale, zeroPoint);
      i := i + 1;
    }
    assert quantized[..] == QuantizedAll(values, scale, zeroPoint);
    return Pass;
  }

  /** dequantize<float>: on a failed check nothing is written; otherwise
      real value i is `scale * (quantized[i] - zero_point)`. */
  method Dequantize(quantized: seq<Byte>, realValues: array<real>, quantizedType: TfLiteType, q: AffineQuantization)
    returns (r: Outcome<TfLiteException>)
    modifies realValues
    ensures r == DequantizeChecksOf(|quantized|, realValues.Length, quantizedType, q)
    ensures r.Fail? ==> realValues[..] == old(realValues[..])
    ensures r.Pass? ==> realValues[..] == DequantizedAll(quantized, q.scale[0], q.zeroPoint[0])
  {
    if quantizedType != UInt8 {
      return Fail(UnsupportedTypeQuantization(quantizedType));
    }
    if |quantized| != realValues.Length {
      return Fail(InvalidArgument("real_values and quantized_values"));
    }
    if |q.scale| != 1 {
      return Fail(UnsupportedAsymmetricQuantization);
    }
    var scale := q.scale[0];
    if |q.zeroPoint| != 1 {
      return Fail(UnsupportedAsymmetricQuantization);
    }
    var zeroPoint := q.zeroPoint[0];
    var i := 0;
    while i < realValues.Length
      invariant 0 <= i <= realValues.Length
      invariant forall k :: 0 <= k < i ==> realValues[k] == DequantizeByte(quantized[k], scale, zeroPoint)
    {
      realValues[i] := DequantizeByte(quantized[i], scale, zeroPoint);
      i := i + 1;
    }
    assert realValues[..] == DequantizedAll(quantized, scale, zeroPoint);
    return Pass;
  }
}
