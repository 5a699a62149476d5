/** The app's pixel conversions (EyeAIApp/app/src/main/cpp/ImageUtils.cpp):
    Android bitmap status codes, RGBA_8888 bitmaps to float tensors in HWC
    and CHW layout, and camera bytes to packed ARGB pixels. The Android
    bitmap calls are modelled by an AndroidBitmap value that holds the
    platform's answers. */
module AndroidImageUtils {
  import opened Wrappers
  import opened Strings
  import opened ImageUtils

  /** Result codes and the pixel format of the NDK's android/bitmap.h. */
  const ANDROID_BITMAP_RESULT_SUCCESS: int := 0
  const ANDROID_BITMAP_RESULT_BAD_PARAMETER: int := -1
  const ANDROID_BITMAP_RESULT_JNI_EXCEPTION: int := -2
  const ANDROID_BITMAP_RESULT_ALLOCATION_FAILED: int := -3
  const ANDROID_BITMAP_FORMAT_RGBA_8888: int := 1

  const BITMAP_ERROR_PREFIX: string := "Android Bitmap error: "

  /** AndroidBitmapInfo: the fields the conversions read. */
  datatype BitmapInfo = BitmapInfo(width: nat, height: nat, format: int)

  /** What the platform answers for one bitmap: the status of getInfo and
      the info it fills, the status of lockPixels and the locked pixels
      (None for a null address), and the status of unlockPixels. */
  datatype AndroidBitmap = AndroidBitmap(
    infoResult: int, info: BitmapInfo,
    lockResult: int, pixels: Option<seq<Argb>>,
    unlockResult: int)
  {
    /** A locked buffer holds width * height pixels. */
    predicate PixelsFit() {
      pixels.Some? ==> |pixels.value| == info.width * info.height
    }
  }

  /** How a conversion fails: an error message it returns, or the
      std::invalid_argument it throws. */
  datatype ConversionError = Returned(message: string) | ThrowsInvalidArgument(what: string)

  /** check_android_bitmap_result: success, one of three fixed messages, or
      the unknown-code message with the code. */
  function CheckAndroidBitmapResult(result: int): (r: Outcome<string>)
    ensures r.Pass? <==> result == ANDROID_BITMAP_RESULT_SUCCESS
    ensures r.Fail? ==> BITMAP_ERROR_PREFIX <= r.error
  {
    if result == ANDROID_BITMAP_RESULT_SUCCESS then Pass
    else if result == ANDROID_BITMAP_RESULT_BAD_PARAMETER then Fail(BITMAP_ERROR_PREFIX + "Bad Parameter")
    else if result == ANDROID_BITMAP_RESULT_JNI_EXCEPTION then Fail(BITMAP_ERROR_PREFIX + "JNI Exception")
    else if result == ANDROID_BITMAP_RESULT_ALLOCATION_FAILED then Fail(BITMAP_ERROR_PREFIX + "Allocation failed")
    else Fail(BITMAP_ERROR_PREFIX + "Unknown code: " + IntToString(result))
  }

  /** The four failure messages of the known codes differ from each other
      and from every unknown-code message. */
  lemma KnownCodeMessagesAreDistinct(c1: int, c2: int)
    requires -3 <= c1 < 0 && c2 != c1 && c2 != ANDROID_BITMAP_RESULT_SUCCESS
    ensures CheckAndroidBitmapResult(c1) != CheckAndroidBitmapResult(c2)
  {
    var p := BITMAP_ERROR_PREFIX;
    var e1 := CheckAndroidBitmapResult(c1).error;
    var e2 := CheckAndroidBitmapResult(c2).error;
    assert e1[|p|] != 'U';
    if -3 <= c2 < 0 {
      assert e1[|p|] != e2[|p|];
    } else {
      assert e2[|p|] == 'U';
    }
  }

  function FormatMessage(format: int): string {
    "bitmap has format " + IntToString(format) + ", but RGBA_8888 was expected"
  }

  const LOCK_FAILED_MESSAGE: string := "failed to lock bitmap pixels"

  function Lift(o: Outcome<string>): (r: Outcome<ConversionError>)
    ensures r.Pass? <==> o.Pass?
    ensures r.Fail? ==> r.error == Returned(o.error)
  {
    if o.Pass? then Pass else Fail(Returned(o.error))
  }

  /** Every check both conversions make before touching the output, in
      their order: getInfo, the format, the output size (which throws),
      lockPixels and a null address. */
  function ConversionPrecheck(bitmap: AndroidBitmap, outLength: nat): Outcome<ConversionError> {
    if CheckAndroidBitmapResult(bitmap.infoResult).Fail? then Lift(CheckAndroidBitmapResult(bitmap.infoResult))
    else if bitmap.info.format != ANDROID_BITMAP_FORMAT_RGBA_8888 then Fail(Returned(FormatMessage(bitmap.info.format)))
    else if outLength != bitmap.info.width * bitmap.info.height * 3 then Fail(ThrowsInvalidArgument("out_float_array"))
    else if CheckAndroidBitmapResult(bitmap.lockResult).Fail? then Lift(CheckAndroidBitmapResult(bitmap.lockResult))
    else if bitmap.pixels.None? then Fail(Returned(LOCK_FAILED_MESSAGE))
    else Pass
  }

  /** The result of either conversion: the first failed check, or else the
      status of unlockPixels. */
  function ConversionResult(bitmap: AndroidBitmap, outLength: nat): Outcome<ConversionError> {
    if ConversionPrecheck(bitmap, outLength).Fail? then ConversionPrecheck(bitmap, outLength)
    else Lift(CheckAndroidBitmapResult(bitmap.unlockResult))
  }

  /** A conversion succeeds exactly when every platform call succeeds, the
      format is RGBA_8888, the output has three floats per pixel and the
      address is not null; it throws exactly when getInfo and the format
      are fine but the output has the wrong size; and it writes the output
      exactly when it gets past all checks, even if unlocking then fails. */
  lemma ConversionSucceedsIff(bitmap: AndroidBitmap, outLength: nat)
    ensures ConversionResult(bitmap, outLength).Pass? <==>
      && bitmap.infoResult == ANDROID_BITMAP_RESULT_SUCCESS
      && bitmap.info.format == ANDROID_BITMAP_FORMAT_RGBA_8888
      && outLength == bitmap.info.width * bitmap.info.height * 3
      && bitmap.lockResult == ANDROID_BITMAP_RESULT_SUCCESS
      && bitmap.pixels.Some?
      && bitmap.unlockResult == ANDROID_BITMAP_RESULT_SUCCESS
    ensures (ConversionResult(bitmap, outLength).Fail? && ConversionResult(bitmap, outLength).error.ThrowsInvalidArgument?) <==>
      && bitmap.infoResult == ANDROID_BITMAP_RESULT_SUCCESS
      && bitmap.info.format == ANDROID_BITMAP_FORMAT_RGBA_8888
      && outLength != bitmap.info.width * bitmap.info.height * 3
    ensures ConversionPrecheck(bitmap, outLength).Pass? <==>
      && bitmap.infoResult == ANDROID_BITMAP_RESULT_SUCCESS
      && bitmap.info.format == ANDROID_BITMAP_FORMAT_RGBA_8888
      && outLength == bitmap.info.width * bitmap.info.height * 3
      && bitmap.lockResult == ANDROID_BITMAP_RESULT_SUCCESS
      && bitmap.pixels.Some?
  {
  }

  /** Channel 0, 1 or 2 (red, green, blue) of a pixel. */
  function Channel(c: Argb, ch: nat): bv8
    requires ch < 3
  {
    if ch == 0 then RedChannel(c) else if ch == 1 then GreenChannel(c) else BlueChannel(c)
  }

  /** The float a channel byte becomes. */
  function ByteFloat(x: bv8): (f: real)
    ensures 0.0 <= f <= 255.0
  {
    x as int as real
  }

  /** The (height, width, channel) layout in 0..255: three floats per
      pixel, red first. */
  function HwcFloats(pixels: seq<Argb>): (out: seq<real>)
    ensures |out| == 3 * |pixels|
    ensures forall k :: 0 <= k < |out| ==> 0.0 <= out[k] <= 255.0
  {
    if pixels == [] then []
    else var c := pixels[0];
      [ByteFloat(RedChannel(c)), ByteFloat(GreenChannel(c)), ByteFloat(BlueChannel(c))] + HwcFloats(pixels[1..])
  }

  /** Floats 3i, 3i + 1 and 3i + 2 of the HWC layout are the red, green
      and blue channels of pixel i. */
  lemma {:induction false} HwcFloatsAt(pixels: seq<Argb>, i: nat)
    requires i < |pixels|
    ensures HwcFloats(pixels)[3 * i] == ByteFloat(RedChannel(pixels[i]))
    ensures HwcFloats(pixels)[3 * i + 1] == ByteFloat(GreenChannel(pixels[i]))
    ensures HwcFloats(pixels)[3 * i + 2] == ByteFloat(BlueChannel(pixels[i]))
  {
    if i > 0 {
      HwcFloatsAt(pixels[1..], i - 1);
    }
  }

  /** A channel byte scaled to [0, 1]. */
  function UnitFloat(x: bv8): real {
    ByteFloat(x) / 255.0
  }

  /** One colour plane of the CHW layout, scaled to [0, 1]. */
  function Plane(pixels: seq<Argb>, ch: nat): (plane: seq<real>)
    requires ch < 3
    ensures |plane| == |pixels|
    ensures forall i :: 0 <= i < |plane| ==> plane[i] == UnitFloat(Channel(pixels[i], ch))
  {
    seq(|pixels|, i requires 0 <= i < |pixels| => UnitFloat(Channel(pixels[i], ch)))
  }

  /** The (channel, height, width) layout in [0, 1]: the red plane, then
      the green plane, then the blue plane. */
  function ChwFloats(pixels: seq<Argb>): (out: seq<real>)
    ensures |out| == 3 * |pixels|
  {
    Plane(pixels, 0) + Plane(pixels, 1) + Plane(pixels, 2)
  }

  /** Float i of each plane's third of the CHW layout. */
  lemma ChwFloatsAt(pixels: seq<Argb>, i: nat)
    requires i < |pixels|
    ensures ChwFloats(pixels)[i] == Plane(pixels, 0)[i]
    ensures ChwFloats(pixels)[|pixels| + i] == Plane(pixels, 1)[i]
    ensures ChwFloats(pixels)[2 * |pixels| + i] == Plane(pixels, 2)[i]
  {
  }

  /** CHW is the HWC layout transposed and divided by 255: float c * n + i
      of CHW is float 3i + c of HWC over 255, for n pixels and channel c. */
  lemma ChwIsTransposedHwc(pixels: seq<Argb>, i: nat)
    requires i < |pixels|
    ensures ChwFloats(pixels)[i] == HwcFloats(pixels)[3 * i] / 255.0
    ensures ChwFloats(pixels)[|pixels| + i] == HwcFloats(pixels)[3 * i + 1] / 255.0
    ensures ChwFloats(pixels)[2 * |pixels| + i] == HwcFloats(pixels)[3 * i + 2] / 255.0
  {
    HwcFloatsAt(pixels, i);
    ChwFloatsAt(pixels, i);
  }

  /** Every CHW float lies in [0, 1]. */
  lemma ChwFloatsInUnitRange(pixels: seq<Argb>, k: nat)
    requires k < |ChwFloats(pixels)|
    ensures 0.0 <= ChwFloats(pixels)[k] <= 1.0
  {
    var n := |pixels|;
    if k < n {
      ChwFloatsAt(pixels, k);
    } else if k < 2 * n {
      ChwFloatsAt(pixels, k - n);
    } else {
      ChwFloatsAt(pixels, k - 2 * n);
    }
  }

  /** bitmap_to_rgb_hwc_255_float_array: the result of the checks and of
      unlocking, and once the checks pass the output holds the HWC floats
      of the locked pixels (otherwise it is untouched). */
  method BitmapToRgbHwc255FloatArray(bitmap: AndroidBitmap, out: array<real>) returns (r: Outcome<ConversionError>)
    requires bitmap.PixelsFit()
    modifies out
    ensures r == ConversionResult(bitmap, out.Length)
    ensures ConversionPrecheck(bitmap, out.Length).Pass? ==> out[..] == HwcFloats(bitmap.pixels.value)
    ensures ConversionPrecheck(bitmap, out.Length).Fail? ==> out[..] == old(out[..])
  {
    r := ConversionPrecheck(bitmap, out.Length);
    if r.Fail? {
      return;
    }
    WriteHwcFloats(bitmap.pixels.value, out);
    r := Lift(CheckAndroidBitmapResult(bitmap.unlockResult));
  }

  /** The HWC loop: i runs over the pixels and j over the floats, three
      per pixel. */
  method WriteHwcFloats(pixels: seq<Argb>, out: array<real>)
    requires out.Length == 3 * |pixels|
    modifies out
    ensures out[..] == HwcFloats(pixels)
  {
    var n := |pixels|;
    var i := 0;
    var j := 0;
    while i < n
      invariant 0 <= i <= n && j == 3 * i
      invariant forall k :: 0 <= k < j ==> out[k] == HwcFloats(pixels)[k]
    {
      HwcFloatsAt(pixels, i);
      var color := pixels[i];
      out[j] := ByteFloat(RedChannel(color));
      j := j + 1;
      out[j] := ByteFloat(GreenChannel(color));
      j := j + 1;
      out[j] := ByteFloat(BlueChannel(color));
      j := j + 1;
      i := i + 1;
    }
    assert out[..] == HwcFloats(pixels);
  }

  /** bitmap_to_rgb_chw_float_array: as the HWC conversion, with the CHW
      floats. */
  method BitmapToRgbChwFloatArray(bitmap: AndroidBitmap, out: array<real>) returns (r: Outcome<ConversionError>)
    requires bitmap.PixelsFit()
    modifies out
    ensures r == ConversionResult(bitmap, out.Length)
    ensures ConversionPrecheck(bitmap, out.Length).Pass? ==> out[..] == ChwFloats(bitmap.pixels.value)
    ensures ConversionPrecheck(bitmap, out.Length).Fail? ==> out[..] == old(out[..])
  {
    r := ConversionPrecheck(bitmap, out.Length);
    if r.Fail? {
      return;
    }
    WriteChwFloats(bitmap.pixels.value, out);
    r := Lift(CheckAndroidBitmapResult(bitmap.unlockResult));
  }

  /** The first i pixels of each plane are in place. */
  ghost predicate ChwPrefix(out: seq<real>, pixels: seq<Argb>, i: nat)
    requires |out| == 3 * |pixels| && i <= |pixels|
  {
    forall k :: 0 <= k < i ==>
      && out[k] == Plane(pixels, 0)[k]
      && out[|pixels| + k] == Plane(pixels, 1)[k]
      && out[2 * |pixels| + k] == Plane(pixels, 2)[k]
  }

  lemma ChwPrefixStep(out: seq<real>, pixels: seq<Argb>, i: nat)
    requires |out| == 3 * |pixels| && i < |pixels| && ChwPrefix(out, pixels, i)
    ensures ChwPrefix(out[i := Plane(pixels, 0)[i]][|pixels| + i := Plane(pixels, 1)[i]][2 * |pixels| + i := Plane(pixels, 2)[i]], pixels, i + 1)
  {
  }

  lemma ChwPrefixComplete(out: seq<real>, pixels: seq<Argb>)
    requires |out| == 3 * |pixels| && ChwPrefix(out, pixels, |pixels|)
    ensures out == ChwFloats(pixels)
  {
    var n := |pixels|;
    forall k | 0 <= k < 3 * n
      ensures out[k] == ChwFloats(pixels)[k]
    {
      if k < n {
        ChwFloatsAt(pixels, k);
      } else if k < 2 * n {
        ChwFloatsAt(pixels, k - n);
      } else {
        ChwFloatsAt(pixels, k - 2 * n);
      }
    }
  }

  /** The CHW loop: pixel i's red, green and blue go to floats i, n + i
      and 2n + i. */
  method WriteChwFloats(pixels: seq<Argb>, out: array<real>)
    requires out.Length == 3 * |pixels|
    modifies out
    ensures out[..] == ChwFloats(pixels)
  {
    var n := |pixels|;
    var redOffset := 0;
    var greenOffset := n;
    var blueOffset := 2 * n;
    for i := 0 to n
      invariant ChwPrefix(out[..], pixels, i)
    {
      ghost var before := out[..];
      var color := pixels[i];
      out[redOffset + i] := UnitFloat(RedChannel(color));
      out[greenOffset + i] := UnitFloat(GreenChannel(color));
      out[blueOffset + i] := UnitFloat(BlueChannel(color));
      assert out[..] == before[i := Plane(pixels, 0)[i]][n + i := Plane(pixels, 1)[i]][2 * n + i := Plane(pixels, 2)[i]];
      ChwPrefixStep(before, pixels, i);
    }
    ChwPrefixComplete(out[..], pixels);
  }

  /** Camera bytes to pixels: four bytes per pixel read as red, green, blue,
      alpha. A trailing group of fewer than four bytes is dropped. */
  function PackPixels(bytes: seq<bv8>): (pixels: seq<Argb>)
    ensures |pixels| == |bytes| / 4
  {
    if |bytes| < 4 then []
    else [ColorArgb(bytes[3], bytes[0], bytes[1], bytes[2])] + PackPixels(bytes[4..])
  }

  /** Pixel i is packed from bytes 4i..4i+3 in RGBA order. */
  lemma {:induction false} PackPixelsAt(bytes: seq<bv8>, i: nat)
    requires i < |bytes| / 4
    ensures PackPixels(bytes)[i] == ColorArgb(bytes[4 * i + 3], bytes[4 * i], bytes[4 * i + 1], bytes[4 * i + 2])
  {
    if i > 0 {
      PackPixelsAt(bytes[4..], i - 1);
    }
  }

  /** The inverse: each pixel back to its red, green, blue and alpha bytes. */
  function UnpackPixels(pixels: seq<Argb>): (bytes: seq<bv8>)
    ensures |bytes| == 4 * |pixels|
  {
    if pixels == [] then []
    else var c := pixels[0];
      [RedChannel(c), GreenChannel(c), BlueChannel(c), AlphaChannel(c)] + UnpackPixels(pixels[1..])
  }

  /** Packing loses nothing from a whole number of pixels. */
  lemma {:induction false} UnpackPackPixels(bytes: seq<bv8>)
    requires |bytes| % 4 == 0
    ensures UnpackPixels(PackPixels(bytes)) == bytes
  {
    if |bytes| >= 4 {
      ChannelsOfColorArgb(bytes[3], bytes[0], bytes[1], bytes[2]);
      UnpackPackPixels(bytes[4..]);
      assert PackPixels(bytes)[1..] == PackPixels(bytes[4..]);
      assert bytes == bytes[..4] + bytes[4..];
    }
  }

  /** ... and every pixel sequence is the packing of its bytes. */
  lemma {:induction false} PackUnpackPixels(pixels: seq<Argb>)
    ensures PackPixels(UnpackPixels(pixels)) == pixels
  {
    if pixels != [] {
      var c := pixels[0];
      ColorArgbOfChannels(c);
      PackUnpackPixels(pixels[1..]);
      assert UnpackPixels(pixels)[4..] == UnpackPixels(pixels[1..]);
      assert pixels == [c] + pixels[1..];
    }
  }

  function BytesMismatchMessage(byteCount: nat, pixelBytes: nat): string {
    "image_bytes has " + NatToString(byteCount) + " bytes, but out_pixels has "
      + NatToString(pixelBytes) + " bytes!"
  }

  /** image_bytes_to_argb_int_array: an error and no write unless there are
      exactly four bytes per output pixel (a jint has four bytes);
      otherwise the output holds the packed pixels. A jbyte becomes a
      uint8_t channel by keeping its bit pattern. */
  method ImageBytesToArgbIntArray(bytes: seq<bv8>, out: array<Argb>) returns (r: Outcome<string>)
    modifies out
    ensures r.Fail? <==> |bytes| != 4 * out.Length
    ensures r.Fail? ==> r.error == BytesMismatchMessage(|bytes|, 4 * out.Length) && out[..] == old(out[..])
    ensures r.Pass? ==> out[..] == PackPixels(bytes)
  {
    if |bytes| != 4 * out.Length {
      return Fail(BytesMismatchMessage(|bytes|, 4 * out.Length));
    }
    var i := 0;
    var j := 0;
    while i < out.Length
      invariant 0 <= i <= out.Length && j == 4 * i
      invariant forall k :: 0 <= k < i ==> out[k] == PackPixels(bytes)[k]
    {
      PackPixelsAt(bytes, i);
      var red := bytes[j];
      j := j + 1;
      var green := bytes[j];
      j := j + 1;
      var blue := bytes[j];
      j := j + 1;
      var alpha := bytes[j];
      j := j + 1;
      out[i] := ColorArgb(alpha, red, green, blue);
      i := i + 1;
    }
    assert out[..] == PackPixels(bytes);
    return Pass;
  }
}
