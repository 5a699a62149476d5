/** The app's older pixel utilities (EyeAIApp/app/src/main/cpp/src/utils/
    ImageUtils.hpp and ImageUtils.cpp): `int`-parameter colour packing,
    bitmap status codes that are only logged, and conversions that report
    failure by throwing. */
module LegacyImageUtils {
  import opened Wrappers
  import opened ImageUtils
  import opened AndroidImageUtils

  /** A jbyte (signed char) promoted to int: its bit pattern sign-extended
      to 32 bits. */
  function SignExtend(x: bv8): (i: bv32)
    ensures (i & 0xFF) as bv8 == x
    ensures x < 0x80 ==> i == x as bv32
    ensures x >= 0x80 ==> i >> 8 == 0xFF_FFFF
  {
    if x < 0x80 then x as bv32 else x as bv32 | 0xFFFF_FF00
  }

  /** The legacy color_argb: the same shifts and ors on four `int`s, with no
      masking, so bits of one argument outside 0..255 spill into the bytes
      of the others. A left shift of a negative int is taken modulo 2^32,
      as C++20 defines it. */
  function LegacyColorArgb(a: bv32, r: bv32, g: bv32, b: bv32): bv32 {
    (a << 24) | (r << 16) | (g << 8) | b
  }

  /** The legacy color_rgb: alpha 255, even for arguments outside 0..255,
      since whatever spills into the top byte is or-ed with all ones. */
  function LegacyColorRgb(r: bv32, g: bv32, b: bv32): (c: bv32)
    ensures c >> 24 == 0xFF
  {
    LegacyColorArgb(255, r, g, b)
  }

  /** The legacy extractors return an int, masked to 0..255. */
  function LegacyRedChannel(c: bv32): (x: int)
    ensures 0 <= x <= 255
  {
    ((c >> 16) & 255) as int
  }

  function LegacyGreenChannel(c: bv32): (x: int)
    ensures 0 <= x <= 255
  {
    ((c >> 8) & 255) as int
  }

  function LegacyBlueChannel(c: bv32): (x: int)
    ensures 0 <= x <= 255
  {
    (c & 255) as int
  }

  /** On arguments in 0..255 the legacy packing is the core one, and the
      legacy extractors give the channels back. */
  lemma LegacyColorArgbOnBytes(a: bv8, r: bv8, g: bv8, b: bv8)
    ensures LegacyColorArgb(a as bv32, r as bv32, g as bv32, b as bv32) == ColorArgb(a, r, g, b)
    ensures LegacyRedChannel(ColorArgb(a, r, g, b)) == r as int
    ensures LegacyGreenChannel(ColorArgb(a, r, g, b)) == g as int
    ensures LegacyBlueChannel(ColorArgb(a, r, g, b)) == b as int
  {
    ChannelsOfColorArgb(a, r, g, b);
  }

  /** Outside 0..255 the channels do not round-trip: a blue of -128 turns
      red and green to 255. */
  lemma LegacyChannelsNeedByteRange()
    ensures LegacyRedChannel(LegacyColorRgb(0, 0, SignExtend(0x80))) == 255
    ensures LegacyGreenChannel(LegacyColorRgb(0, 0, SignExtend(0x80))) == 255
  {
  }

  /** The legacy check_android_bitmap_result: nothing on success, otherwise
      one error log line; the caller always carries on. */
  function LegacyCheckAndroidBitmapResult(result: int): (log: seq<string>)
    ensures |log| <= 1
    ensures log == [] <==> result == ANDROID_BITMAP_RESULT_SUCCESS
  {
    var checked := CheckAndroidBitmapResult(result);
    if checked.Pass? then [] else [checked.error]
  }

  /** The line it logs is the message the newer version returns. */
  lemma LegacyCheckLogsCoreMessage(result: int)
    ensures CheckAndroidBitmapResult(result).Fail? ==>
      LegacyCheckAndroidBitmapResult(result) == [CheckAndroidBitmapResult(result).error]
  {
  }

  /** The exceptions the legacy conversions throw. */
  datatype LegacyException =
    | FormatNotRgba8888(actualFormat: int)
    | InvalidArgument(what: string)
    | FailedToLockPixels

  /** The checks before the output is written, in order, with what they log:
      getInfo (logged only), the format, the output size, lockPixels
      (logged only) and a null address. */
  function LegacyPrecheck(bitmap: AndroidBitmap, outLength: nat): (Outcome<LegacyException>, seq<string>) {
    var infoLog := LegacyCheckAndroidBitmapResult(bitmap.infoResult);
    if bitmap.info.format != ANDROID_BITMAP_FORMAT_RGBA_8888 then (Fail(FormatNotRgba8888(bitmap.info.format)), infoLog)
    else if outLength != bitmap.info.width * bitmap.info.height * 3 then (Fail(InvalidArgument("out_float_array")), infoLog)
    else
      var lockLog := infoLog + LegacyCheckAndroidBitmapResult(bitmap.lockResult);
      if bitmap.pixels.None? then (Fail(FailedToLockPixels), lockLog)
      else (Pass, lockLog)
  }

  /** The status codes never stop a legacy conversion: it throws exactly
      when the format, the output size or the address is wrong. When getInfo
      and lockPixels succeed it gets past its checks exactly when the newer
      version does. */
  lemma LegacyPrecheckIgnoresStatus(bitmap: AndroidBitmap, outLength: nat)
    ensures LegacyPrecheck(bitmap, outLength).0.Pass? <==>
      && bitmap.info.format == ANDROID_BITMAP_FORMAT_RGBA_8888
      && outLength == bitmap.info.width * bitmap.info.height * 3
      && bitmap.pixels.Some?
    ensures bitmap.infoResult == ANDROID_BITMAP_RESULT_SUCCESS && bitmap.lockResult == ANDROID_BITMAP_RESULT_SUCCESS ==>
      (LegacyPrecheck(bitmap, outLength).0.Pass? <==> ConversionPrecheck(bitmap, outLength).Pass?)
  {
    ConversionSucceedsIff(bitmap, outLength);
  }

  /** The legacy bitmap_to_rgb_hwc_255_float_array: the first exception, or
      else the HWC floats of the pixels and the unlock status logged. */
  method LegacyBitmapToRgbHwc255FloatArray(bitmap: AndroidBitmap, out: array<real>)
    returns (r: Outcome<LegacyException>, log: seq<string>)
    requires bitmap.PixelsFit()
    modifies out
    ensures var (check, checkLog) := LegacyPrecheck(bitmap, out.Length);
      && r == check
      && (r.Fail? ==> log == checkLog && out[..] == old(out[..]))
      && (r.Pass? ==> log == checkLog + LegacyCheckAndroidBitmapResult(bitmap.unlockResult)
                      && out[..] == HwcFloats(bitmap.pixels.value))
  {
    r, log := LegacyPrecheck(bitmap, out.Length).0, LegacyPrecheck(bitmap, out.Length).1;
    if r.Fail? {
      return;
    }
    WriteHwcFloats(bitmap.pixels.value, out);
    log := log + LegacyCheckAndroidBitmapResult(bitmap.unlockResult);
  }

  /** The legacy bitmap_to_rgb_chw_float_array: as above with the CHW
      floats. */
  method LegacyBitmapToRgbChwFloatArray(bitmap: AndroidBitmap, out: array<real>)
    returns (r: Outcome<LegacyException>, log: seq<string>)
    requires bitmap.PixelsFit()
    modifies out
    ensures var (check, checkLog) := LegacyPrecheck(bitmap, out.Length);
      && r == check
      && (r.Fail? ==> log == checkLog && out[..] == old(out[..]))
      && (r.Pass? ==> log == checkLog + LegacyCheckAndroidBitmapResult(bitmap.unlockResult)
                      && out[..] == ChwFloats(bitmap.pixels.value))
  {
    r, log := LegacyPrecheck(bitmap, out.Length).0, LegacyPrecheck(bitmap, out.Length).1;
    if r.Fail? {
      return;
    }
    WriteChwFloats(bitmap.pixels.value, out);
    log := log + LegacyCheckAndroidBitmapResult(bitmap.unlockResult);
  }

  /** The legacy byte packing as written: each jbyte is promoted to int with
      its sign before the legacy color_argb. */
  function LegacyPackPixels(bytes: seq<bv8>): (pixels: seq<bv32>)
    ensures |pixels| == |bytes| / 4
  {
    if |bytes| < 4 then []
    else
      var pixel := LegacyColorArgb(SignExtend(bytes[3]), SignExtend(bytes[0]), SignExtend(bytes[1]), SignExtend(bytes[2]));
      [pixel] + LegacyPackPixels(bytes[4..])
  }

  /** Pixel i of the legacy packing. */
  lemma {:induction false} LegacyPackPixelsAt(bytes: seq<bv8>, i: nat)
    requires i < |bytes| / 4
    ensures LegacyPackPixels(bytes)[i] ==
      LegacyColorArgb(SignExtend(bytes[4 * i + 3]), SignExtend(bytes[4 * i]),
                      SignExtend(bytes[4 * i + 1]), SignExtend(bytes[4 * i + 2]))
  {
    if i > 0 {
      LegacyPackPixelsAt(bytes[4..], i - 1);
    }
  }

  /** An opaque pixel whose blue byte is 0x80 (the jbyte -128) comes out as
      0xFFFFFF80, white-ish with blue 0x80, instead of 0xFF000080. */
  lemma LegacyPackPixelsSignBug()
    ensures LegacyPackPixels([0x00, 0x00, 0x80, 0xFF]) == [0xFFFF_FF80]
    ensures PackPixels([0x00, 0x00, 0x80, 0xFF]) == [0xFF00_0080]
  {
    var bytes: seq<bv8> := [0x00, 0x00, 0x80, 0xFF];
    assert bytes[4..] == [];
  }

  /** The two packings agree when no byte has its sign bit set. */
  lemma {:induction false} LegacyPackAgreesWithoutSignBits(bytes: seq<bv8>)
    requires forall k :: 0 <= k < |bytes| ==> bytes[k] < 0x80
    ensures LegacyPackPixels(bytes) == PackPixels(bytes)
  {
    if |bytes| >= 4 {
      LegacyColorArgbOnBytes(bytes[3], bytes[0], bytes[1], bytes[2]);
      LegacyPackAgreesWithoutSignBits(bytes[4..]);
    }
  }

  /** The legacy image_bytes_to_argb_int_array: std::invalid_argument
      unless there are four bytes per pixel, and otherwise the legacy
      packing. */
  method LegacyImageBytesToArgbIntArray(bytes: seq<bv8>, out: array<bv32>) returns (r: Outcome<LegacyException>)
    modifies out
    ensures r.Fail? <==> |bytes| != 4 * out.Length
    ensures r.Fail? ==> r.error == InvalidArgument("out_pixels") && out[..] == old(out[..])
    ensures r.Pass? ==> out[..] == LegacyPackPixels(bytes)
  {
    if |bytes| != 4 * out.Length {
      return Fail(InvalidArgument("out_pixels"));
    }
    var i := 0;
    var j := 0;
    while i < out.Length
      invariant 0 <= i <= out.Length && j == 4 * i
      invariant forall k :: 0 <= k < i ==> out[k] == LegacyPackPixels(bytes)[k]
    {
      LegacyPackPixelsAt(bytes, i);
      var red := SignExtend(bytes[j]);
      j := j + 1;
      var green := SignExtend(bytes[j]);
      j := j + 1;
      var blue := SignExtend(bytes[j]);
      j := j + 1;
      var alpha := SignExtend(bytes[j]);
      j := j + 1;
      out[i] := LegacyColorArgb(alpha, red, green, blue);
      i := i + 1;
    }
    assert out[..] == LegacyPackPixels(bytes);
    return Pass;
  }
}
