/** ARGB-8888 colour packing (EyeAICore/utils/ImageUtils.hpp). A C++ `int`
    colour is modelled as its 32-bit two's-complement bit pattern and a
    `uint8_t` channel as 8 bits. */
module ImageUtils {
  /** The bit pattern of a 32-bit `int` colour. */
  type Argb = bv32

  /** color_argb: alpha in bits 24..31, red in 16..23, green in 8..15 and
      blue in 0..7. The uint8_t arguments are promoted to int before the
      shifts, so each one lands in its own byte. */
  function ColorArgb(a: bv8, r: bv8, g: bv8, b: bv8): Argb {
    (a as bv32 << 24) | (r as bv32 << 16) | (g as bv32 << 8) | b as bv32
  }

  /** color_rgb: an opaque colour. */
  function ColorRgb(r: bv8, g: bv8, b: bv8): (c: Argb)
    ensures AlphaChannel(c) == 255
    ensures RedChannel(c) == r && GreenChannel(c) == g && BlueChannel(c) == b
  {
    ChannelsOfColorArgb(255, r, g, b);
    ColorArgb(255, r, g, b)
  }

  /** The alpha byte (used to state what color_argb stores; the header has
      no alpha extractor). */
  function AlphaChannel(c: Argb): bv8 {
    (c >> 24) as bv8
  }

  /** red_channel_from_argb_color: (color >> 16) & 255. The arithmetic shift
      of a negative `int` fills the high bits with ones, which the mask
      removes, so it agrees with the logical shift used here. */
  function RedChannel(c: Argb): bv8 {
    ((c >> 16) & 0xFF) as bv8
  }

  /** green_channel_from_argb_color: (color >> 8) & 255. */
  function GreenChannel(c: Argb): bv8 {
    ((c >> 8) & 0xFF) as bv8
  }

  /** blue_channel_from_argb_color: color & 255. */
  function BlueChannel(c: Argb): bv8 {
    (c & 0xFF) as bv8
  }

  /** The extractors give back the channels color_argb packed. */
  lemma ChannelsOfColorArgb(a: bv8, r: bv8, g: bv8, b: bv8)
    ensures AlphaChannel(ColorArgb(a, r, g, b)) == a
    ensures RedChannel(ColorArgb(a, r, g, b)) == r
    ensures GreenChannel(ColorArgb(a, r, g, b)) == g
    ensures BlueChannel(ColorArgb(a, r, g, b)) == b
  {
  }

  /** Every colour is the packing of its own four channels. */
  lemma ColorArgbOfChannels(c: Argb)
    ensures ColorArgb(AlphaChannel(c), RedChannel(c), GreenChannel(c), BlueChannel(c)) == c
  {
  }
}
