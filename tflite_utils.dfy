/** The tensor codec of the runtime (TfLiteUtils.cpp): the element-type and
    status tables, the quantized/non-quantized dispatch, and the loading of
    floats into the input tensor and reading of floats out of the output
    tensor, with uint8 affine (de)quantization.

    Every load and read path validates in a fixed order before anything is
    written. Each is specified by a function on `TensorState` snapshots and
    implemented by a method on the engine's `Tensor` object. */
module TfLiteUtils {
  import opened Wrappers
  import opened TfLiteApi
  import opened TfLiteErrors
  import Strings

  // ---------------------------------------------------------------------------
  // Tables

  /** format_tflite_type; any tag outside the enumeration is "unknown". */
  function FormatTfLiteType(t: TfLiteType): string {
    match t
    case NoType => "no type"
    case Float32 => "float32"
    case Int32 => "int32"
    case UInt8 => "uint8"
    case Int64 => "int64"
    case String => "string"
    case Bool => "bool"
    case Int16 => "int16"
    case Complex64 => "complex64"
    case Int8 => "int8"
    case Float16 => "float16"
    case Float64 => "float64"
    case Complex128 => "complex128"
    case UInt64 => "uint64"
    case Resource => "resource"
    case Variant => "variant"
    case UInt32 => "uint32"
    case UInt16 => "uint16"
    case Int4 => "int4"
    case BFloat16 => "bfloat16"
    case Unlisted(_) => "unknown"
  }

  /** The element type a name printed by FormatTfLiteType stands for. */
  function TypeNamed(name: string): Option<TfLiteType> {
    if name == "no type" then Some(NoType)
    else if name == "float32" then Some(Float32)
    else if name == "int32" then Some(Int32)
    else if name == "uint8" then Some(UInt8)
    else if name == "int64" then Some(Int64)
    else if name == "string" then Some(String)
    else if name == "bool" then Some(Bool)
    else if name == "int16" then Some(Int16)
    else if name == "complex64" then Some(Complex64)
    else if name == "int8" then Some(Int8)
    else if name == "float16" then Some(Float16)
    else if name == "float64" then Some(Float64)
    else if name == "complex128" then Some(Complex128)
    else if name == "uint64" then Some(UInt64)
    else if name == "resource" then Some(Resource)
    else if name == "variant" then Some(Variant)
    else if name == "uint32" then Some(UInt32)
    else if name == "uint16" then Some(UInt16)
    else if name == "int4" then Some(Int4)
    else if name == "bfloat16" then Some(BFloat16)
    else None
  }

  /** Every listed type has its own name, and "unknown" names none of them. */
  lemma FormatTfLiteTypeIsInvertible(t: TfLiteType)
    ensures TypeNamed(FormatTfLiteType(t)) == if t.Unlisted? then None else Some(t)
  {
  }

  /** format_tflite_status; any code outside the enumeration is "unknown". */
  function FormatTfLiteStatus(s: TfLiteStatus): string {
    match s
    case Ok => "ok"
    case Error => "general error"
    case DelegateError => "delegate error"
    case ApplicationError => "application error"
    case DelegateDataNotFound => "delegate data not found"
    case DelegateDataWriteError => "delegate data write error"
    case DelegateDataReadError => "delegate data read error"
    case UnresolvedOps => "unresolved Ops"
    case Cancelled => "canceled"
    case OutputShapeNotKnown => "output shape not known"
    case UnlistedStatus(_) => "unknown"
  }

  /** The status a name printed by FormatTfLiteStatus stands for. */
  function StatusNamed(name: string): Option<TfLiteStatus> {
    if name == "ok" then Some(Ok)
    else if name == "general error" then Some(Error)
    else if name == "delegate error" then Some(DelegateError)
    else if name == "application error" then Some(ApplicationError)
    else if name == "delegate data not found" then Some(DelegateDataNotFound)
    else if name == "delegate data write error" then Some(DelegateDataWriteError)
    else if name == "delegate data read error" then Some(DelegateDataReadError)
    else if name == "unresolved Ops" then Some(UnresolvedOps)
    else if name == "canceled" then Some(Cancelled)
    else if name == "output shape not known" then Some(OutputShapeNotKnown)
    else None
  }

  lemma FormatTfLiteStatusIsInvertible(s: TfLiteStatus)
    ensures StatusNamed(FormatTfLiteStatus(s)) == if s.UnlistedStatus? then None else Some(s)
  {
  }

  /** get_tflite_type_size: the size in bytes of one element, for the types
      with a fixed size. */
  function TypeSize(t: TfLiteType): (r: Option<nat>)
    ensures r.Some? ==> r.value in {1, 2, 4, 8}
  {
    match t
    case Float32 => Some(4)
    case Int32 => Some(4)
    case UInt8 => Some(1)
    case Int64 => Some(8)
    case Bool => Some(1)
    case Int16 => Some(2)
    case Int8 => Some(1)
    case Float16 => Some(2)
    case Float64 => Some(8)
    case UInt64 => Some(8)
    case UInt32 => Some(4)
    case UInt16 => Some(2)
    case BFloat16 => Some(2)
    case _ => None
  }

  lemma TypeSizeTable()
    ensures TypeSize(Float32) == Some(4) && TypeSize(UInt8) == Some(1) && TypeSize(Int8) == Some(1)
    ensures TypeSize(Float16) == Some(2) && TypeSize(BFloat16) == Some(2)
    ensures TypeSize(String).None? && TypeSize(Complex64).None? && TypeSize(Complex128).None?
    ensures TypeSize(Resource).None? && TypeSize(Variant).None? && TypeSize(Int4).None?
    ensures TypeSize(NoType).None? && forall code :: TypeSize(Unlisted(code)).None?
  {
  }

  // ---------------------------------------------------------------------------
  // Quantization test

  /** get_tensor_quantization: the affine parameters, or nothing for a tensor
      whose quantization type is kTfLiteNoQuantization. */
  function GetTensorQuantization(q: Quantization): (r: Option<AffineQuantization>)
    ensures r.Some? <==> q != NoQuantization
    ensures r.Some? ==> q == Affine(r.value)
  {
    match q
    case NoQuantization => None
    case Affine(params) => Some(params)
  }

  // ---------------------------------------------------------------------------
  // Element arithmetic

  /** Conversion of a float to an integer type: truncation toward zero. */
  function Trunc(x: real): (t: int)
    ensures -1.0 < x - t as real < 1.0
    ensures x >= 0.0 ==> t >= 0 && t as real <= x
    ensures x < 0.0 ==> t <= 0 && t as real >= x
  {
    if x >= 0.0 then x.Floor else -((-x).Floor)
  }

  /** `static_cast<uint8_t>(v / scale)` is defined only when the truncated
      quotient fits in 0..255, that is when the quotient lies in (-1, 256). */
  predicate QuantizableBy(v: real, scale: real) {
    scale != 0.0 && -1.0 < v / scale < 256.0
  }

  /** One quantized byte: `uint8(v / scale) + zp`, stored as a std::byte,
      which keeps the sum modulo 256. */
  function QuantizeByte(v: real, scale: real, zeroPoint: int): (b: Byte)
    requires QuantizableBy(v, scale)
    ensures b as int == (Trunc(v / scale) + zeroPoint) % 256
  {
    ((Trunc(v / scale) + zeroPoint) % 256) as Byte
  }

  /** One dequantized value: `scale * float(q - zp)`. */
  function DequantizeByte(q: Byte, scale: real, zeroPoint: int): real {
    scale * (q as int - zeroPoint) as real
  }

  lemma QuotientOfMultiple(s: real, k: real)
    requires s != 0.0
    ensures (s * k) / s == k
  {
    var d := (s * k) / s;
    assert d * s == s * k;
    assert (d - k) * s == 0.0;
  }

  /** Dequantizing a byte and quantizing the value again gives the byte back,
      for every byte whose offset from the zero point is in 0..255 (for any
      other, the quotient does not fit uint8 and the cast is undefined). */
  lemma {:induction false} QuantizeInvertsDequantize(q: Byte, scale: real, zeroPoint: int)
    requires scale != 0.0 && 0 <= q as int - zeroPoint < 256
    ensures QuantizableBy(DequantizeByte(q, scale, zeroPoint), scale)
    ensures QuantizeByte(DequantizeByte(q, scale, zeroPoint), scale, zeroPoint) == q
  {
    var k := q as int - zeroPoint;
    var d := DequantizeByte(q, scale, zeroPoint);
    assert d == scale * k as real;
    QuotientOfMultiple(scale, k as real);
    assert d / scale == k as real;
    assert Trunc(k as real) == k;
  }

  lemma ScaledDistance(scale: real, v: real, t: real)
    requires scale != 0.0 && -1.0 < v / scale - t < 1.0
    ensures -(if scale > 0.0 then scale else -scale) < scale * t - v < (if scale > 0.0 then scale else -scale)
  {
    var x := v / scale;
    assert x * scale == v;
    var u := t - x;
    assert -1.0 < u < 1.0;
    assert scale * t - v == scale * u;
    if scale > 0.0 {
      PositiveProduct(scale, 1.0 - u);
      assert scale * (1.0 - u) == scale - scale * u;
      PositiveProduct(scale, 1.0 + u);
      assert scale * (1.0 + u) == scale + scale * u;
    } else {
      var n := -scale;
      PositiveProduct(n, 1.0 - u);
      assert n * (1.0 - u) == scale * u - scale;
      PositiveProduct(n, 1.0 + u);
      assert n * (1.0 + u) == -scale - scale * u;
    }
  }

  lemma PositiveProduct(a: real, b: real)
    requires a > 0.0 && b > 0.0
    ensures a * b > 0.0
  {
  }

  /** Quantizing a value and dequantizing the byte again loses less than one
      quantization step, provided the sum `uint8(v / scale) + zp` did not wrap. */
  lemma {:induction false} DequantizeApproximatesQuantize(v: real, scale: real, zeroPoint: int)
    requires QuantizableBy(v, scale)
    requires 0 <= Trunc(v / scale) + zeroPoint < 256
    ensures var d := DequantizeByte(QuantizeByte(v, scale, zeroPoint), scale, zeroPoint) - v;
      -(if scale > 0.0 then scale else -scale) < d < (if scale > 0.0 then scale else -scale)
  {
    var t := Trunc(v / scale);
    assert QuantizeByte(v, scale, zeroPoint) as int - zeroPoint == t;
    ScaledDistance(scale, v, t as real);
  }

  // ---------------------------------------------------------------------------
  // quantize_floats and dequantize_to_floats

  /** The checks of quantize_floats, in their order. */
  function QuantizeChecks(valueCount: nat, outCount: nat, quantizedType: TfLiteType, q: AffineQuantization)
    : Outcome<QuantizeFloatError>
  {
    if quantizedType != UInt8 then Fail(QuantizeInvalidType(InvalidFloat32QuantizationTypeError(quantizedType)))
    else if valueCount != outCount then Fail(QuantizeElementsMismatch(QuantizationElementsMismatch(valueCount, outCount)))
    else if |q.scale| != 1 then Fail(QuantizeAsymmetric(AsymmetricQuantizationError))
    else if |q.zeroPoint| != 1 then Fail(QuantizeAsymmetric(AsymmetricQuantizationError))
    else Pass
  }

  /** What the caller of quantize_floats must guarantee: once the checks
      pass, every quotient `values[i] / scale` converts to uint8. */
  predicate QuantizeRequires(values: seq<real>, outCount: nat, quantizedType: TfLiteType, q: AffineQuantization) {
    QuantizeChecks(|values|, outCount, quantizedType, q).Pass? ==>
      forall i :: 0 <= i < |values| ==> QuantizableBy(values[i], q.scale[0])
  }

  /** Every value quantized with the same scale and zero point. */
  function QuantizedAll(values: seq<real>, scale: real, zeroPoint: int): (r: seq<Byte>)
    requires forall i :: 0 <= i < |values| ==> QuantizableBy(values[i], scale)
    ensures |r| == |values|
    ensures forall i :: 0 <= i < |values| ==> r[i] == QuantizeByte(values[i], scale, zeroPoint)
  {
    seq(|values|, i requires 0 <= i < |values| => QuantizeByte(values[i], scale, zeroPoint))
  }

  /** Every byte dequantized with the same scale and zero point. */
  function DequantizedAll(quantized: seq<Byte>, scale: real, zeroPoint: int): (r: seq<real>)
    ensures |r| == |quantized|
    ensures forall i :: 0 <= i < |quantized| ==> r[i] == DequantizeByte(quantized[i], scale, zeroPoint)
  {
    seq(|quantized|, i requires 0 <= i < |quantized| => DequantizeByte(quantized[i], scale, zeroPoint))
  }

  /** quantize_floats' result and the new contents of the output span: on
      any failed check nothing is written; otherwise byte i is the quantized
      values[i], for every i. */
  function QuantizeFloatsSpec(values: seq<real>, out: seq<Byte>, quantizedType: TfLiteType, q: AffineQuantization)
    : (res: (Outcome<QuantizeFloatError>, seq<Byte>))
    requires QuantizeRequires(values, |out|, quantizedType, q)
    ensures |res.1| == |out|
    ensures res.0 == QuantizeChecks(|values|, |out|, quantizedType, q)
    ensures res.0.Fail? ==> res.1 == out
  {
    var checks := QuantizeChecks(|values|, |out|, quantizedType, q);
    if checks.Fail? then (checks, out)
    else (Pass, QuantizedAll(values, q.scale[0], q.zeroPoint[0]))
  }

  /** The four rejections of quantize_floats, each exactly under its condition. */
  lemma QuantizeChecksOrder(valueCount: nat, outCount: nat, t: TfLiteType, q: AffineQuantization)
    ensures QuantizeChecks(valueCount, outCount, t, q).Pass? <==>
      t == UInt8 && valueCount == outCount && |q.scale| == 1 && |q.zeroPoint| == 1
    ensures QuantizeChecks(valueCount, outCount, t, q).Fail? ==>
      var e := QuantizeChecks(valueCount, outCount, t, q).error;
      && (e.QuantizeInvalidType? <==> t != UInt8)
      && (e.QuantizeElementsMismatch? <==> t == UInt8 && valueCount != outCount)
      && (e.QuantizeAsymmetric? <==> t == UInt8 && valueCount == outCount)
  {
  }

  method QuantizeFloats(values: seq<real>, out: array<Byte>, quantizedType: TfLiteType, q: AffineQuantization)
    returns (r: Outcome<QuantizeFloatError>)
    requires QuantizeRequires(values, out.Length, quantizedType, q)
    modifies out
    ensures (r, out[..]) == QuantizeFloatsSpec(values, old(out[..]), quantizedType, q)
  {
    if quantizedType != UInt8 {
      return Fail(QuantizeInvalidType(InvalidFloat32QuantizationTypeError(quantizedType)));
    }
    if |values| != out.Length {
      return Fail(QuantizeElementsMismatch(QuantizationElementsMismatch(|values|, out.Length)));
    }
    if |q.scale| != 1 {
      return Fail(QuantizeAsymmetric(AsymmetricQuantizationError));
    }
    var scale := q.scale[0];
    if |q.zeroPoint| != 1 {
      return Fail(QuantizeAsymmetric(AsymmetricQuantizationError));
    }
    var zeroPoint := q.zeroPoint[0];
    for i := 0 to |values|
      invariant forall k :: 0 <= k < i ==> out[k] == QuantizeByte(values[k], scale, zeroPoint)
    {
      out[i] := QuantizeByte(values[i], scale, zeroPoint);
    }
    assert out[..] == QuantizedAll(values, scale, zeroPoint);
    return Pass;
  }

  /** The checks of dequantize_to_floats, in their order. The mismatch
      records the float count first and the byte count second, as the
      message of the source does. */
  function DequantizeChecks(quantizedCount: nat, outCount: nat, quantizedType: TfLiteType, q: AffineQuantization)
    : Outcome<DequantizeFloatError>
  {
    if quantizedType != UInt8 then Fail(DequantizeInvalidType(InvalidFloat32QuantizationTypeError(quantizedType)))
    else if quantizedCount != outCount then Fail(DequantizeElementsMismatch(QuantizationElementsMismatch(outCount, quantizedCount)))
    else if |q.scale| != 1 then Fail(DequantizeAsymmetric(AsymmetricQuantizationError))
    else if |q.zeroPoint| != 1 then Fail(DequantizeAsymmetric(AsymmetricQuantizationError))
    else Pass
  }

  /** dequantize_to_floats' result and the new contents of the float span. */
  function DequantizeSpec(quantized: seq<Byte>, out: seq<real>, quantizedType: TfLiteType, q: AffineQuantization)
    : (res: (Outcome<DequantizeFloatError>, seq<real>))
    ensures |res.1| == |out|
    ensures res.0 == DequantizeChecks(|quantized|, |out|, quantizedType, q)
    ensures res.0.Fail? ==> res.1 == out
  {
    var checks := DequantizeChecks(|quantized|, |out|, quantizedType, q);
    if checks.Fail? then (checks, out)
    else (Pass, DequantizedAll(quantized, q.scale[0], q.zeroPoint[0]))
  }

  lemma DequantizeChecksOrder(quantizedCount: nat, outCount: nat, t: TfLiteType, q: AffineQuantization)
    ensures DequantizeChecks(quantizedCount, outCount, t, q).Pass? <==>
      t == UInt8 && quantizedCount == outCount && |q.scale| == 1 && |q.zeroPoint| == 1
    ensures DequantizeChecks(quantizedCount, outCount, t, q).Fail? ==>
      var e := DequantizeChecks(quantizedCount, outCount, t, q).error;
      && (e.DequantizeInvalidType? <==> t != UInt8)
      && (e.DequantizeElementsMismatch? <==> t == UInt8 && quantizedCount != outCount)
      && (e.DequantizeAsymmetric? <==> t == UInt8 && quantizedCount == outCount)
  {
  }

  method DequantizeToFloats(quantized: seq<Byte>, out: array<real>, quantizedType: TfLiteType, q: AffineQuantization)
    returns (r: Outcome<DequantizeFloatError>)
    modifies out
    ensures (r, out[..]) == DequantizeSpec(quantized, old(out[..]), quantizedType, q)
  {
    if quantizedType != UInt8 {
      return Fail(DequantizeInvalidType(InvalidFloat32QuantizationTypeError(quantizedType)));
    }
    if |quantized| != out.Length {
      return Fail(DequantizeElementsMismatch(QuantizationElementsMismatch(out.Length, |quantized|)));
    }
    if |q.scale| != 1 {
      return Fail(DequantizeAsymmetric(AsymmetricQuantizationError));
    }
    var scale := q.scale[0];
    if |q.zeroPoint| != 1 {
      return Fail(DequantizeAsymmetric(AsymmetricQuantizationError));
    }
    var zeroPoint := q.zeroPoint[0];
    for i := 0 to out.Length
      invariant forall k :: 0 <= k < i ==> out[k] == DequantizeByte(quantized[k], scale, zeroPoint)
    {
      out[i] := DequantizeByte(quantized[i], scale, zeroPoint);
    }
    assert out[..] == DequantizedAll(quantized, scale, zeroPoint);
    return Pass;
  }

  // ---------------------------------------------------------------------------
  // Loading the input tensor

  /** A snapshot as the engine keeps it: the storage, when present, has
      byteSize bytes, and the float view has byteSize / 4 elements. */
  predicate Consistent(t: TensorState) {
    (t.data.Some? ==> |t.data.value| == t.byteSize) && |t.floats| == t.byteSize / 4
  }

  /** load_nonquantized_input_tensor_with_floats: type, then storage, then
      count; only then is TfLiteTensorCopyFromBuffer called, whose status is
      `copyStatus`. On success the tensor holds the values. */
  function LoadNonQuantizedSpec(t: TensorState, values: seq<real>, copyStatus: TfLiteStatus)
    : (res: (Outcome<LoadNonQuantizedInputError>, TensorState))
  {
    if t.elementType != Float32 then (Fail(LoadNonQuantizedNonFloat(NonFloatTensorTypeError(Input, t.elementType))), t)
    else if t.data.None? then (Fail(LoadNonQuantizedNotCreated(TensorsNotCreatedError(Input))), t)
    else if |values| != t.byteSize / 4 then
      (Fail(LoadNonQuantizedCountMismatch(TensorElementCountMismatch(Input, |values|, t.byteSize / 4))), t)
    else if copyStatus != Ok then (Fail(LoadNonQuantizedCopyFrom(CopyFromInputTensorError(copyStatus))), t)
    else (Pass, t.(floats := values))
  }

  /** What the caller of the quantized load must guarantee: quantize_floats'
      precondition, whenever the load reaches it. */
  predicate LoadQuantizedRequires(t: TensorState, q: AffineQuantization, values: seq<real>) {
    TypeSize(t.elementType).Some? && t.data.Some? && |values| == t.byteSize / TypeSize(t.elementType).value ==>
      QuantizeRequires(values, |t.data.value|, t.elementType, q)
  }

  /** load_quantized_input_tensor_with_floats: a type with a known size,
      then storage, then count; then quantize_floats over the whole storage. */
  function LoadQuantizedSpec(t: TensorState, q: AffineQuantization, values: seq<real>)
    : (res: (Outcome<LoadQuantizedInputError>, TensorState))
    requires LoadQuantizedRequires(t, q, values)
  {
    var size := TypeSize(t.elementType);
    if size.None? then (Fail(LoadQuantizedInvalidType(InvalidQuantizedType(t.elementType))), t)
    else if t.data.None? then (Fail(LoadQuantizedNotCreated(TensorsNotCreatedError(Input))), t)
    else if |values| != t.byteSize / size.value then
      (Fail(LoadQuantizedCountMismatch(TensorElementCountMismatch(Input, |values|, t.byteSize / size.value))), t)
    else
      var (o, bytes) := QuantizeFloatsSpec(values, t.data.value, t.elementType, q);
      if o.Fail? then (Fail(LoadQuantizedQuantize(o.error)), t)
      else (Pass, t.(data := Some(bytes)))
  }

  predicate LoadRequires(t: TensorState, values: seq<real>) {
    t.quantization.Affine? ==> LoadQuantizedRequires(t, t.quantization.params, values)
  }

  /** load_input_tensor_with_floats: dispatch on the quantization test. A
      failed load leaves the tensor as it was; a successful one changes only
      the float view (non-quantized) or only the storage (quantized). */
  function LoadInputSpec(t: TensorState, values: seq<real>, copyStatus: TfLiteStatus)
    : (res: (Outcome<LoadInputError>, TensorState))
    requires LoadRequires(t, values)
    ensures res.0.Fail? ==> res.1 == t
    ensures res.0.Fail? ==> (res.0.error.LoadQuantized? <==> t.quantization != NoQuantization)
    ensures res.1.elementType == t.elementType && res.1.quantization == t.quantization
    ensures res.1.byteSize == t.byteSize && res.1.data.Some? == t.data.Some?
    ensures t.quantization == NoQuantization ==> res.1.data == t.data
    ensures t.quantization != NoQuantization ==> res.1.floats == t.floats
    ensures Consistent(t) && res.0.Pass? ==> Consistent(res.1)
  {
    match GetTensorQuantization(t.quantization)
    case Some(q) =>
      var (o, t') := LoadQuantizedSpec(t, q, values);
      (if o.Fail? then Fail(LoadQuantized(o.error)) else Pass, t')
    case None =>
      var (o, t') := LoadNonQuantizedSpec(t, values, copyStatus);
      (if o.Fail? then Fail(LoadNonQuantized(o.error)) else Pass, t')
  }

  /** The rejections of the non-quantized load, in order. */
  lemma LoadNonQuantizedOrder(t: TensorState, values: seq<real>, copyStatus: TfLiteStatus)
    requires t.quantization == NoQuantization
    ensures var r := LoadInputSpec(t, values, copyStatus).0;
      && (t.elementType != Float32 ==> r == Fail(LoadNonQuantized(LoadNonQuantizedNonFloat(NonFloatTensorTypeError(Input, t.elementType)))))
      && (t.elementType == Float32 && t.data.None? ==> r == Fail(LoadNonQuantized(LoadNonQuantizedNotCreated(TensorsNotCreatedError(Input)))))
      && (t.elementType == Float32 && t.data.Some? && |values| != t.byteSize / 4 ==>
            r == Fail(LoadNonQuantized(LoadNonQuantizedCountMismatch(TensorElementCountMismatch(Input, |values|, t.byteSize / 4)))))
      && (r.Pass? <==> t.elementType == Float32 && t.data.Some? && |values| == t.byteSize / 4 && copyStatus == Ok)
      && (r.Pass? ==> LoadInputSpec(t, values, copyStatus).1.floats == values)
  {
  }

  /** The rejections of the quantized load, in order. */
  lemma LoadQuantizedOrder(t: TensorState, values: seq<real>, copyStatus: TfLiteStatus)
    requires t.quantization.Affine? && LoadRequires(t, values) && Consistent(t)
    ensures var r := LoadInputSpec(t, values, copyStatus).0;
      && (TypeSize(t.elementType).None? ==> r == Fail(LoadQuantized(LoadQuantizedInvalidType(InvalidQuantizedType(t.elementType)))))
      && (TypeSize(t.elementType).Some? && t.data.None? ==> r == Fail(LoadQuantized(LoadQuantizedNotCreated(TensorsNotCreatedError(Input)))))
      && (TypeSize(t.elementType).Some? && t.data.Some? && |values| != t.byteSize / TypeSize(t.elementType).value ==>
            r.Fail? && r.error.LoadQuantized? && r.error.quantized.LoadQuantizedCountMismatch?)
      && (r.Pass? <==> t.elementType == UInt8 && t.data.Some? && |values| == t.byteSize
                       && |t.quantization.params.scale| == 1 && |t.quantization.params.zeroPoint| == 1)
  {
  }

  /** Through the load, quantize_floats never sees a length mismatch: the
      count check before it already equates the lengths for uint8. */
  lemma {:induction false} LoadNeverReportsQuantizationMismatch(t: TensorState, values: seq<real>, copyStatus: TfLiteStatus)
    requires Consistent(t) && LoadRequires(t, values)
    ensures var r := LoadInputSpec(t, values, copyStatus).0;
      !(r.Fail? && r.error.LoadQuantized? && r.error.quantized.LoadQuantizedQuantize?
        && r.error.quantized.quantize.QuantizeElementsMismatch?)
  {
    if t.quantization.Affine? && t.elementType == UInt8 && t.data.Some? && |values| == t.byteSize / 1 {
      assert |t.data.value| == t.byteSize;
    }
  }

  method LoadInputTensorWithFloats(tensor: Tensor, values: seq<real>, copyStatus: TfLiteStatus)
    returns (r: Outcome<LoadInputError>)
    requires tensor.Valid() && LoadRequires(tensor.State(), values)
    modifies tensor, tensor.data
    ensures tensor.Valid()
    ensures (r, tensor.State()) == LoadInputSpec(old(tensor.State()), values, copyStatus)
  {
    ghost var t := tensor.State();
    var quantization := GetTensorQuantization(tensor.quantization);
    if quantization.Some? {
      var o := LoadQuantizedInput(tensor, quantization.value, values);
      r := if o.Fail? then Fail(LoadQuantized(o.error)) else Pass;
    } else {
      var o := LoadNonQuantizedInput(tensor, values, copyStatus);
      r := if o.Fail? then Fail(LoadNonQuantized(o.error)) else Pass;
    }
  }

  method LoadNonQuantizedInput(tensor: Tensor, values: seq<real>, copyStatus: TfLiteStatus)
    returns (r: Outcome<LoadNonQuantizedInputError>)
    requires tensor.Valid()
    modifies tensor
    ensures tensor.Valid()
    ensures (r, tensor.State()) == LoadNonQuantizedSpec(old(tensor.State()), values, copyStatus)
  {
    if tensor.elementType != Float32 {
      return Fail(LoadNonQuantizedNonFloat(NonFloatTensorTypeError(Input, tensor.elementType)));
    }
    if tensor.data == null {
      return Fail(LoadNonQuantizedNotCreated(TensorsNotCreatedError(Input)));
    }
    var elements := tensor.byteSize / 4;
    if |values| != elements {
      return Fail(LoadNonQuantizedCountMismatch(TensorElementCountMismatch(Input, |values|, elements)));
    }
    if copyStatus == Ok {
      tensor.floats := values;
      return Pass;
    }
    return Fail(LoadNonQuantizedCopyFrom(CopyFromInputTensorError(copyStatus)));
  }

  method LoadQuantizedInput(tensor: Tensor, q: AffineQuantization, values: seq<real>)
    returns (r: Outcome<LoadQuantizedInputError>)
    requires tensor.Valid() && LoadQuantizedRequires(tensor.State(), q, values)
    modifies tensor.data
    ensures tensor.Valid()
    ensures (r, tensor.State()) == LoadQuantizedSpec(old(tensor.State()), q, values)
  {
    var size := TypeSize(tensor.elementType);
    if size.None? {
      return Fail(LoadQuantizedInvalidType(InvalidQuantizedType(tensor.elementType)));
    }
    var data := tensor.data;
    if data == null {
      return Fail(LoadQuantizedNotCreated(TensorsNotCreatedError(Input)));
    }
    var elements := tensor.byteSize / size.value;
    if |values| != elements {
      return Fail(LoadQuantizedCountMismatch(TensorElementCountMismatch(Input, |values|, elements)));
    }
    var o := QuantizeFloats(values, data, tensor.elementType, q);
    r := if o.Fail? then Fail(LoadQuantizedQuantize(o.error)) else Pass;
  }

  // ---------------------------------------------------------------------------
  // Reading the output tensor

  /** read_floats_from_nonquantized_output_tensor: type, then count (there
      is no storage check); then TfLiteTensorCopyToBuffer, whose status is
      `copyStatus`. On success the buffer holds the tensor's floats. */
  function ReadNonQuantizedSpec(t: TensorState, out: seq<real>, copyStatus: TfLiteStatus)
    : (res: (Outcome<ReadNonQuantizedOutputError>, seq<real>))
  {
    if t.elementType != Float32 then (Fail(ReadNonQuantizedNonFloat(NonFloatTensorTypeError(Output, t.elementType))), out)
    else if |out| != t.byteSize / 4 then
      (Fail(ReadNonQuantizedCountMismatch(TensorElementCountMismatch(Output, |out|, t.byteSize / 4))), out)
    else if copyStatus != Ok then (Fail(ReadNonQuantizedCopyTo(CopyToOutputTensorError(copyStatus))), out)
    else (Pass, t.floats)
  }

  /** read_floats_from_quantized_output_tensor: a type with a known size,
      then storage, then count; then dequantize_to_floats of the whole
      storage. The union of read-quantized errors has no invalid-type
      alternative of its own, so an element type without a size is reported
      as the dequantization's invalid type. */
  function ReadQuantizedSpec(t: TensorState, out: seq<real>, q: AffineQuantization)
    : (res: (Outcome<ReadQuantizedOutputError>, seq<real>))
  {
    var size := TypeSize(t.elementType);
    if size.None? then (Fail(ReadQuantizedDequantize(DequantizeInvalidType(InvalidFloat32QuantizationTypeError(t.elementType)))), out)
    else if t.data.None? then (Fail(ReadQuantizedNotCreated(TensorsNotCreatedError(Output))), out)
    else if t.byteSize / size.value != |out| then
      (Fail(ReadQuantizedCountMismatch(TensorElementCountMismatch(Output, |out|, t.byteSize / size.value))), out)
    else
      var (o, floats) := DequantizeSpec(t.data.value, out, t.elementType, q);
      (if o.Fail? then Fail(ReadQuantizedDequantize(o.error)) else Pass, floats)
  }

  /** read_floats_from_output_tensor: dispatch on the quantization test. A
      failed read leaves the buffer as it was; the tensor is never changed. */
  function ReadOutputSpec(t: TensorState, out: seq<real>, copyStatus: TfLiteStatus)
    : (res: (Outcome<ReadOutputError>, seq<real>))
    ensures res.0.Fail? ==> res.1 == out
    ensures res.0.Fail? ==> (res.0.error.ReadQuantized? <==> t.quantization != NoQuantization)
    ensures Consistent(t) ==> |res.1| == |out|
  {
    match GetTensorQuantization(t.quantization)
    case Some(q) =>
      var (o, out') := ReadQuantizedSpec(t, out, q);
      (if o.Fail? then Fail(ReadQuantized(o.error)) else Pass, out')
    case None =>
      var (o, out') := ReadNonQuantizedSpec(t, out, copyStatus);
      (if o.Fail? then Fail(ReadNonQuantized(o.error)) else Pass, out')
  }

  /** The rejections of the non-quantized read, in order; a missing storage
      is never reported on this path. */
  lemma ReadNonQuantizedOrder(t: TensorState, out: seq<real>, copyStatus: TfLiteStatus)
    requires t.quantization == NoQuantization
    ensures var r := ReadOutputSpec(t, out, copyStatus).0;
      && (t.elementType != Float32 ==> r == Fail(ReadNonQuantized(ReadNonQuantizedNonFloat(NonFloatTensorTypeError(Output, t.elementType)))))
      && (t.elementType == Float32 && |out| != t.byteSize / 4 ==>
            r == Fail(ReadNonQuantized(ReadNonQuantizedCountMismatch(TensorElementCountMismatch(Output, |out|, t.byteSize / 4)))))
      && (r.Pass? <==> t.elementType == Float32 && |out| == t.byteSize / 4 && copyStatus == Ok)
      && (r.Pass? ==> ReadOutputSpec(t, out, copyStatus).1 == t.floats)
  {
  }

  /** The rejections of the quantized read, in order. */
  lemma ReadQuantizedOrder(t: TensorState, out: seq<real>, copyStatus: TfLiteStatus)
    requires t.quantization.Affine? && Consistent(t)
    ensures var r := ReadOutputSpec(t, out, copyStatus).0;
      && (TypeSize(t.elementType).None? ==> r.Fail? && r.error.ReadQuantized? && r.error.quantized.ReadQuantizedDequantize?)
      && (TypeSize(t.elementType).Some? && t.data.None? ==> r == Fail(ReadQuantized(ReadQuantizedNotCreated(TensorsNotCreatedError(Output)))))
      && (TypeSize(t.elementType).Some? && t.data.Some? && |out| != t.byteSize / TypeSize(t.elementType).value ==>
            r.Fail? && r.error.ReadQuantized? && r.error.quantized.ReadQuantizedCountMismatch?)
      && (r.Pass? <==> t.elementType == UInt8 && t.data.Some? && |out| == t.byteSize
                       && |t.quantization.params.scale| == 1 && |t.quantization.params.zeroPoint| == 1)
  {
  }

  /** Through the read, dequantize_to_floats never sees a length mismatch. */
  lemma {:induction false} ReadNeverReportsQuantizationMismatch(t: TensorState, out: seq<real>, copyStatus: TfLiteStatus)
    requires Consistent(t)
    ensures var r := ReadOutputSpec(t, out, copyStatus).0;
      !(r.Fail? && r.error.ReadQuantized? && r.error.quantized.ReadQuantizedDequantize?
        && r.error.quantized.dequantize.DequantizeElementsMismatch?)
  {
    if t.quantization.Affine? && t.elementType == UInt8 && t.data.Some? && t.byteSize / 1 == |out| {
      assert |t.data.value| == t.byteSize;
    }
  }

  /** Loading floats into a float32 tensor and reading them back gives them
      back exactly. */
  lemma {:induction false} NonQuantizedLoadThenRead(t: TensorState, values: seq<real>, out: seq<real>)
    requires t.quantization == NoQuantization
    requires LoadInputSpec(t, values, Ok).0.Pass? && |out| == |values|
    ensures ReadOutputSpec(LoadInputSpec(t, values, Ok).1, out, Ok) == (Pass, values)
  {
    LoadNonQuantizedOrder(t, values, Ok);
  }

  /** Loading floats into a uint8 quantized tensor and reading them back
      gives each value back to within one quantization step, when no
      `uint8(v / scale) + zp` wraps around. */
  lemma {:induction false} QuantizedLoadThenRead(t: TensorState, values: seq<real>, out: seq<real>)
    requires t.quantization.Affine? && LoadRequires(t, values) && Consistent(t)
    requires LoadInputSpec(t, values, Ok).0.Pass? && |out| == |values|
    requires forall i :: 0 <= i < |values| ==>
      0 <= Trunc(values[i] / t.quantization.params.scale[0]) + t.quantization.params.zeroPoint[0] < 256
    ensures var (r, floats) := ReadOutputSpec(LoadInputSpec(t, values, Ok).1, out, Ok);
      var s := t.quantization.params.scale[0];
      && r.Pass? && |floats| == |values|
      && forall i :: 0 <= i < |values| ==>
           -(if s > 0.0 then s else -s) < floats[i] - values[i] < (if s > 0.0 then s else -s)
  {
    LoadQuantizedOrder(t, values, Ok);
    var q := t.quantization.params;
    var s, zp := q.scale[0], q.zeroPoint[0];
    var loaded := LoadInputSpec(t, values, Ok).1;
    var bytes := loaded.data.value;
    assert |bytes| == |values|;
    assert forall i :: 0 <= i < |values| ==> bytes[i] == QuantizeByte(values[i], s, zp);
    var (r, floats) := ReadOutputSpec(loaded, out, Ok);
    assert loaded.quantization == t.quantization && loaded.elementType == UInt8;
    assert r.Pass?;
    forall i | 0 <= i < |values|
      ensures -(if s > 0.0 then s else -s) < floats[i] - values[i] < (if s > 0.0 then s else -s)
    {
      assert floats[i] == DequantizeByte(bytes[i], s, zp);
      DequantizeApproximatesQuantize(values[i], s, zp);
    }
  }

  method ReadFloatsFromOutputTensor(tensor: Tensor, output: array<real>, copyStatus: TfLiteStatus)
    returns (r: Outcome<ReadOutputError>)
    requires tensor.Valid()
    modifies output
    ensures (r, output[..]) == ReadOutputSpec(tensor.State(), old(output[..]), copyStatus)
  {
    var quantization := GetTensorQuantization(tensor.quantization);
    if quantization.Some? {
      var o := ReadQuantizedOutput(tensor, output, quantization.value);
      r := if o.Fail? then Fail(ReadQuantized(o.error)) else Pass;
    } else {
      var o := ReadNonQuantizedOutput(tensor, output, copyStatus);
      r := if o.Fail? then Fail(ReadNonQuantized(o.error)) else Pass;
    }
  }

  method ReadNonQuantizedOutput(tensor: Tensor, output: array<real>, copyStatus: TfLiteStatus)
    returns (r: Outcome<ReadNonQuantizedOutputError>)
    requires tensor.Valid()
    modifies output
    ensures (r, output[..]) == ReadNonQuantizedSpec(tensor.State(), old(output[..]), copyStatus)
  {
    if tensor.elementType != Float32 {
      return Fail(ReadNonQuantizedNonFloat(NonFloatTensorTypeError(Output, tensor.elementType)));
    }
    var elements := tensor.byteSize / 4;
    if output.Length != elements {
      return Fail(ReadNonQuantizedCountMismatch(TensorElementCountMismatch(Output, output.Length, elements)));
    }
    if copyStatus == Ok {
      var floats := tensor.floats;
      for i := 0 to output.Length
        invariant forall k :: 0 <= k < i ==> output[k] == floats[k]
      {
        output[i] := floats[i];
      }
      assert output[..] == floats;
      return Pass;
    }
    return Fail(ReadNonQuantizedCopyTo(CopyToOutputTensorError(copyStatus)));
  }

  method ReadQuantizedOutput(tensor: Tensor, output: array<real>, q: AffineQuantization)
    returns (r: Outcome<ReadQuantizedOutputError>)
    requires tensor.Valid()
    modifies output
    ensures (r, output[..]) == ReadQuantizedSpec(tensor.State(), old(output[..]), q)
  {
    var size := TypeSize(tensor.elementType);
    if size.None? {
      return Fail(ReadQuantizedDequantize(DequantizeInvalidType(InvalidFloat32QuantizationTypeError(tensor.elementType))));
    }
    var data := tensor.data;
    if data == null {
      return Fail(ReadQuantizedNotCreated(TensorsNotCreatedError(Output)));
    }
    var elements := tensor.byteSize / size.value;
    if elements != output.Length {
      return Fail(ReadQuantizedCountMismatch(TensorElementCountMismatch(Output, output.Length, elements)));
    }
    assert tensor.State().data == Some(data[..]);
    var o := DequantizeToFloats(data[..], output, tensor.elementType, q);
    r := if o.Fail? then Fail(ReadQuantizedDequantize(o.error)) else Pass;
  }
}
