/** The inferno depth colour map (EyeAICore/utils/DepthColormap.cpp): each
    relative depth is clamped to [0, 1], scaled to an index into a 256-entry
    table and replaced by that entry's opaque colour. */
module DepthColormaps {
  import opened Wrappers
  import opened Strings
  import opened ImageUtils

  /** One table entry as the channels passed to color_rgb. */
  datatype Rgb = Rgb(r: bv8, g: bv8, b: bv8)

  const INFERNO_COLOR_COUNT: nat := 256

  /** The table's channels, entry k (darkest first). */
  function InfernoRgb(k: nat): Rgb
    requires k < INFERNO_COLOR_COUNT
  {
    match k
    case 0 => Rgb(0, 0, 4)
    case 1 => Rgb(1, 0, 5)
    case 2 => Rgb(1, 1, 6)
    case 3 => Rgb(1, 1, 8)
    case 4 => Rgb(2, 1, 10)
    case 5 => Rgb(2, 2, 12)
    case 6 => Rgb(2, 2, 14)
    case 7 => Rgb(3, 2, 16)
    case 8 => Rgb(4, 3, 18)
    case 9 => Rgb(4, 3, 20)
    case 10 => Rgb(5, 4, 23)
    case 11 => Rgb(6, 4, 25)
    case 12 => Rgb(7, 5, 27)
    case 13 => Rgb(8, 5, 29)
    case 14 => Rgb(9, 6, 31)
    case 15 => Rgb(10, 7, 34)
    case 16 => Rgb(11, 7, 36)
    case 17 => Rgb(12, 8, 38)
    case 18 => Rgb(13, 8, 41)
    case 19 => Rgb(14, 9, 43)
    case 20 => Rgb(16, 9, 45)
    case 21 => Rgb(17, 10, 48)
    case 22 => Rgb(18, 10, 50)
    case 23 => Rgb(20, 11, 52)
    case 24 => Rgb(21, 11, 55)
    case 25 => Rgb(22, 11, 57)
    case 26 => Rgb(24, 12, 60)
    case 27 => Rgb(25, 12, 62)
    case 28 => Rgb(27, 12, 65)
    case 29 => Rgb(28, 12, 67)
    case 30 => Rgb(30, 12, 69)
    case 31 => Rgb(31, 12, 72)
    case 32 => Rgb(33, 12, 74)
    case 33 => Rgb(35, 12, 76)
    case 34 => Rgb(36, 12, 79)
    case 35 => Rgb(38, 12, 81)
    case 36 => Rgb(40, 11, 83)
    case 37 => Rgb(41, 11, 85)
    case 38 => Rgb(43, 11, 87)
    case 39 => Rgb(45, 11, 89)
    case 40 => Rgb(47, 10, 91)
    case 41 => Rgb(49, 10, 92)
    case 42 => Rgb(50, 10, 94)
    case 43 => Rgb(52, 10, 95)
    case 44 => Rgb(54, 9, 97)
    case 45 => Rgb(56, 9, 98)
    case 46 => Rgb(57, 9, 99)
    case 47 => Rgb(59, 9, 100)
    case 48 => Rgb(61, 9, 101)
    case 49 => Rgb(62, 9, 102)
    case 50 => Rgb(64, 10, 103)
    case 51 => Rgb(66, 10, 104)
    case 52 => Rgb(68, 10, 104)
    case 53 => Rgb(69, 10, 105)
    case 54 => Rgb(71, 11, 106)
    case 55 => Rgb(73, 11, 106)
    case 56 => Rgb(74, 12, 107)
    case 57 => Rgb(76, 12, 107)
    case 58 => Rgb(77, 13, 108)
    case 59 => Rgb(79, 13, 108)
    case 60 => Rgb(81, 14, 108)
    case 61 => Rgb(82, 14, 109)
    case 62 => Rgb(84, 15, 109)
    case 63 => Rgb(85, 15, 109)
    case 64 => Rgb(87, 16, 110)
    case 65 => Rgb(89, 16, 110)
    case 66 => Rgb(90, 17, 110)
    case 67 => Rgb(92, 18, 110)
    case 68 => Rgb(93, 18, 110)
    case 69 => Rgb(95, 19, 110)
    case 70 => Rgb(97, 19, 110)
    case 71 => Rgb(98, 20, 110)
    case 72 => Rgb(100, 21, 110)
    case 73 => Rgb(101, 21, 110)
    case 74 => Rgb(103, 22, 110)
    case 75 => Rgb(105, 22, 110)
    case 76 => Rgb(106, 23, 110)
    case 77 => Rgb(108, 24, 110)
    case 78 => Rgb(109, 24, 110)
    case 79 => Rgb(111, 25, 110)
    case 80 => Rgb(113, 25, 110)
    case 81 => Rgb(114, 26, 110)
    case 82 => Rgb(116, 26, 110)
    case 83 => Rgb(117, 27, 110)
    case 84 => Rgb(119, 28, 109)
    case 85 => Rgb(120, 28, 109)
    case 86 => Rgb(122, 29, 109)
    case 87 => Rgb(124, 29, 109)
    case 88 => Rgb(125, 30, 109)
    case 89 => Rgb(127, 30, 108)
    case 90 => Rgb(128, 31, 108)
    case 91 => Rgb(130, 32, 108)
    case 92 => Rgb(132, 32, 107)
    case 93 => Rgb(133, 33, 107)
    case 94 => Rgb(135, 33, 107)
    case 95 => Rgb(136, 34, 106)
    case 96 => Rgb(138, 34, 106)
    case 97 => Rgb(140, 35, 105)
    case 98 => Rgb(141, 35, 105)
    case 99 => Rgb(143, 36, 105)
    case 100 => Rgb(144, 37, 104)
    case 101 => Rgb(146, 37, 104)
    case 102 => Rgb(147, 38, 103)
    case 103 => Rgb(149, 38, 103)
    case 104 => Rgb(151, 39, 102)
    case 105 => Rgb(152, 39, 102)
    case 106 => Rgb(154, 40, 101)
    case 107 => Rgb(155, 41, 100)
    case 108 => Rgb(157, 41, 100)
    case 109 => Rgb(159, 42, 99)
    case 110 => Rgb(160, 42, 99)
    case 111 => Rgb(162, 43, 98)
    case 112 => Rgb(163, 44, 97)
    case 113 => Rgb(165, 44, 96)
    case 114 => Rgb(166, 45, 96)
    case 115 => Rgb(168, 46, 95)
    case 116 => Rgb(169, 46, 94)
    case 117 => Rgb(171, 47, 94)
    case 118 => Rgb(173, 48, 93)
    case 119 => Rgb(174, 48, 92)
    case 120 => Rgb(176, 49, 91)
    case 121 => Rgb(177, 50, 90)
    case 122 => Rgb(179, 50, 90)
    case 123 => Rgb(180, 51, 89)
    case 124 => Rgb(182, 52, 88)
    case 125 => Rgb(183, 53, 87)
    case 126 => Rgb(185, 53, 86)
    case 127 => Rgb(186, 54, 85)
    case 128 => Rgb(188, 55, 84)
    case 129 => Rgb(189, 56, 83)
    case 130 => Rgb(191, 57, 82)
    case 131 => Rgb(192, 58, 81)
    case 132 => Rgb(193, 58, 80)
    case 133 => Rgb(195, 59, 79)
    case 134 => Rgb(196, 60, 78)
    case 135 => Rgb(198, 61, 77)
    case 136 => Rgb(199, 62, 76)
    case 137 => Rgb(200, 63, 75)
    case 138 => Rgb(202, 64, 74)
    case 139 => Rgb(203, 65, 73)
    case 140 => Rgb(204, 66, 72)
    case 141 => Rgb(206, 67, 71)
    case 142 => Rgb(207, 68, 70)
    case 143 => Rgb(208, 69, 69)
    case 144 => Rgb(210, 70, 68)
    case 145 => Rgb(211, 71, 67)
    case 146 => Rgb(212, 72, 66)
    case 147 => Rgb(213, 74, 65)
    case 148 => Rgb(215, 75, 63)
    case 149 => Rgb(216, 76, 62)
    case 150 => Rgb(217, 77, 61)
    case 151 => Rgb(218, 78, 60)
    case 152 => Rgb(219, 80, 59)
    case 153 => Rgb(221, 81, 58)
    case 154 => Rgb(222, 82, 56)
    case 155 => Rgb(223, 83, 55)
    case 156 => Rgb(224, 85, 54)
    case 157 => Rgb(225, 86, 53)
    case 158 => Rgb(226, 87, 52)
    case 159 => Rgb(227, 89, 51)
    case 160 => Rgb(228, 90, 49)
    case 161 => Rgb(229, 92, 48)
    case 162 => Rgb(230, 93, 47)
    case 163 => Rgb(231, 94, 46)
    case 164 => Rgb(232, 96, 45)
    case 165 => Rgb(233, 97, 43)
    case 166 => Rgb(234, 99, 42)
    case 167 => Rgb(235, 100, 41)
    case 168 => Rgb(235, 102, 40)
    case 169 => Rgb(236, 103, 38)
    case 170 => Rgb(237, 105, 37)
    case 171 => Rgb(238, 106, 36)
    case 172 => Rgb(239, 108, 35)
    case 173 => Rgb(239, 110, 33)
    case 174 => Rgb(240, 111, 32)
    case 175 => Rgb(241, 113, 31)
    case 176 => Rgb(241, 115, 29)
    case 177 => Rgb(242, 116, 28)
    case 178 => Rgb(243, 118, 27)
    case 179 => Rgb(243, 120, 25)
    case 180 => Rgb(244, 121, 24)
    case 181 => Rgb(245, 123, 23)
    case 182 => Rgb(245, 125, 21)
    case 183 => Rgb(246, 126, 20)
    case 184 => Rgb(246, 128, 19)
    case 185 => Rgb(247, 130, 18)
    case 186 => Rgb(247, 132, 16)
    case 187 => Rgb(248, 133, 15)
    case 188 => Rgb(248, 135, 14)
    case 189 => Rgb(248, 137, 12)
    case 190 => Rgb(249, 139, 11)
    case 191 => Rgb(249, 140, 10)
    case 192 => Rgb(249, 142, 9)
    case 193 => Rgb(250, 144, 8)
    case 194 => Rgb(250, 146, 7)
    case 195 => Rgb(250, 148, 7)
    case 196 => Rgb(251, 150, 6)
    case 197 => Rgb(251, 151, 6)
    case 198 => Rgb(251, 153, 6)
    case 199 => Rgb(251, 155, 6)
    case 200 => Rgb(251, 157, 7)
    case 201 => Rgb(252, 159, 7)
    case 202 => Rgb(252, 161, 8)
    case 203 => Rgb(252, 163, 9)
    case 204 => Rgb(252, 165, 10)
    case 205 => Rgb(252, 166, 12)
    case 206 => Rgb(252, 168, 13)
    case 207 => Rgb(252, 170, 15)
    case 208 => Rgb(252, 172, 17)
    case 209 => Rgb(252, 174, 18)
    case 210 => Rgb(252, 176, 20)
    case 211 => Rgb(252, 178, 22)
    case 212 => Rgb(252, 180, 24)
    case 213 => Rgb(251, 182, 26)
    case 214 => Rgb(251, 184, 29)
    case 215 => Rgb(251, 186, 31)
    case 216 => Rgb(251, 188, 33)
    case 217 => Rgb(251, 190, 35)
    case 218 => Rgb(250, 192, 38)
    case 219 => Rgb(250, 194, 40)
    case 220 => Rgb(250, 196, 42)
    case 221 => Rgb(250, 198, 45)
    case 222 => Rgb(249, 199, 47)
    case 223 => Rgb(249, 201, 50)
    case 224 => Rgb(249, 203, 53)
    case 225 => Rgb(248, 205, 55)
    case 226 => Rgb(248, 207, 58)
    case 227 => Rgb(247, 209, 61)
    case 228 => Rgb(247, 211, 64)
    case 229 => Rgb(246, 213, 67)
    case 230 => Rgb(246, 215, 70)
    case 231 => Rgb(245, 217, 73)
    case 232 => Rgb(245, 219, 76)
    case 233 => Rgb(244, 221, 79)
    case 234 => Rgb(244, 223, 83)
    case 235 => Rgb(244, 225, 86)
    case 236 => Rgb(243, 227, 90)
    case 237 => Rgb(243, 229, 93)
    case 238 => Rgb(242, 230, 97)
    case 239 => Rgb(242, 232, 101)
    case 240 => Rgb(242, 234, 105)
    case 241 => Rgb(241, 236, 109)
    case 242 => Rgb(241, 237, 113)
    case 243 => Rgb(241, 239, 117)
    case 244 => Rgb(241, 241, 121)
    case 245 => Rgb(242, 242, 125)
    case 246 => Rgb(242, 244, 130)
    case 247 => Rgb(243, 245, 134)
    case 248 => Rgb(243, 246, 138)
    case 249 => Rgb(244, 248, 142)
    case 250 => Rgb(245, 249, 146)
    case 251 => Rgb(246, 250, 150)
    case 252 => Rgb(248, 251, 154)
    case 253 => Rgb(249, 252, 157)
    case 254 => Rgb(250, 253, 161)
    case _ => Rgb(252, 255, 164) // entry 255
  }

  /** INFERNO_COLORS[k]: color_rgb of entry k. */
  function InfernoColor(k: nat): (c: Argb)
    requires k < INFERNO_COLOR_COUNT
    ensures AlphaChannel(c) == 255
  {
    ColorRgb(InfernoRgb(k).r, InfernoRgb(k).g, InfernoRgb(k).b)
  }

  /** std::clamp(d, 0, 1). */
  function Clamp(d: real): (c: real)
    ensures 0.0 <= c <= 1.0
    ensures d <= 0.0 ==> c == 0.0
    ensures d >= 1.0 ==> c == 1.0
    ensures 0.0 <= d <= 1.0 ==> c == d
  {
    if d < 0.0 then 0.0 else if d > 1.0 then 1.0 else d
  }

  /** The table index: the clamped depth times (INFERNO_COLOR_COUNT - 1),
      truncated by the cast to size_t (the product is never negative, so
      truncation is the floor). */
  function InfernoIndex(d: real): (k: nat)
    ensures k < INFERNO_COLOR_COUNT
  {
    var x := Clamp(d) * (INFERNO_COLOR_COUNT - 1) as real;
    assert 0.0 <= x <= 255.0;
    x.Floor
  }

  /** inferno_depth_colormap: the table colour at the depth's index. */
  function InfernoDepthColormap(d: real): (c: Argb)
    ensures AlphaChannel(c) == 255
  {
    InfernoColor(InfernoIndex(d))
  }

  /** A deeper value never gets an earlier table entry. */
  lemma InfernoIndexIsMonotone(d1: real, d2: real)
    requires d1 <= d2
    ensures InfernoIndex(d1) <= InfernoIndex(d2)
  {
    assert Clamp(d1) * 255.0 <= Clamp(d2) * 255.0;
  }

  /** The depth k / 255 selects entry k exactly, so every entry is used. */
  lemma InfernoIndexOfStep(k: nat)
    requires k < INFERNO_COLOR_COUNT
    ensures InfernoIndex(k as real / 255.0) == k
  {
    assert Clamp(k as real / 255.0) == k as real / 255.0;
    assert k as real / 255.0 * 255.0 == k as real;
  }

  /** Only a depth of at least 1 reaches the last entry, and only a depth
      below 1/255 stays at the first. */
  lemma InfernoIndexExtremes(d: real)
    ensures InfernoIndex(d) == INFERNO_COLOR_COUNT - 1 <==> d >= 1.0
    ensures InfernoIndex(d) == 0 <==> d < 1.0 / 255.0
  {
    if d < 1.0 {
      assert Clamp(d) * 255.0 < 255.0;
    }
    if d >= 1.0 / 255.0 {
      assert Clamp(d) * 255.0 >= 1.0;
    }
  }

  /** Depths at or below 0 get the first entry, at or above 1 the last. */
  lemma InfernoEndpoints(d: real)
    ensures d <= 0.0 ==> InfernoDepthColormap(d) == ColorRgb(0, 0, 4)
    ensures d >= 1.0 ==> InfernoDepthColormap(d) == ColorRgb(252, 255, 164)
  {
    assert InfernoRgb(0) == Rgb(0, 0, 4);
    assert InfernoRgb(255) == Rgb(252, 255, 164);
  }

  /** The colour map of a whole buffer, element by element. */
  function Colormapped(depth: seq<real>): (pixels: seq<Argb>)
    ensures |pixels| == |depth|
    ensures forall i :: 0 <= i < |depth| ==> AlphaChannel(pixels[i]) == 255
  {
    seq(|depth|, i requires 0 <= i < |depth| => InfernoDepthColormap(depth[i]))
  }

  /** Elementwise: pixel i depends on depth value i alone. */
  lemma ColormappedAt(depth: seq<real>, i: nat)
    requires i < |depth|
    ensures Colormapped(depth)[i] == InfernoDepthColormap(depth[i])
    ensures Colormapped(depth)[i] == InfernoColor(InfernoIndex(depth[i]))
  {
  }

  /** The error message of a length mismatch. */
  function SizeMismatchMessage(depthSize: nat, pixelsSize: nat): string {
    "depth_values (" + NatToString(depthSize) + ") does not match colormapped_pixels ("
      + NatToString(pixelsSize) + ")"
  }

  /** depth_colormap: when the two buffers differ in length, the error
      message and nothing is written; otherwise every pixel is replaced by
      the colour of the depth at the same index. */
  method DepthColormap(depth: seq<real>, pixels: array<Argb>) returns (r: Outcome<string>)
    modifies pixels
    ensures r.Fail? <==> |depth| != pixels.Length
    ensures r.Fail? ==> r.error == SizeMismatchMessage(|depth|, pixels.Length) && pixels[..] == old(pixels[..])
    ensures r.Pass? ==> pixels[..] == Colormapped(depth)
  {
    if |depth| != pixels.Length {
      return Fail(SizeMismatchMessage(|depth|, pixels.Length));
    }
    for i := 0 to |depth|
      invariant forall j :: 0 <= j < i ==> pixels[j] == Colormapped(depth)[j]
    {
      pixels[i] := InfernoDepthColormap(depth[i]);
    }
    assert pixels[..] == Colormapped(depth);
    return Pass;
  }
}
