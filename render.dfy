/**
 * The pure pieces of the renderer (src/render/render.ts): the colour of a
 * block type, the three shades drawn on a block's faces, and the maps
 * between data-model block positions (z up) and render block positions
 * (y down, z towards the viewer).
 */
module Render {
  import opened Common

  /** A thrown `Error`, or a value. */
  datatype Outcome<T> = Ok(value: T) | Thrown(message: string)

  /** `renderChunkHeight`, which is `Chunk.HEIGHT`. */
  const RenderChunkHeight: int := ChunkHeight

  /** `colorMapper`: the colour of each block type that has one. */
  const ColorMapper: map<string, string> := map[
    "stone" := "#808080",
    "sand" := "#f0e68c",
    "water" := "#0000ff",
    "grass" := "#00ff00",
    "dirt" := "#8b4513",
    "snow" := "#ffffff"
  ]

  /** The colour a block of type `blockType` is drawn with: its mapped colour, black otherwise. */
  function ColorOf(blockType: string): (color: string)
    ensures blockType in ColorMapper ==> color == ColorMapper[blockType]
    ensures blockType !in ColorMapper ==> color == "#000000"
  {
    if blockType in ColorMapper then ColorMapper[blockType] else "#000000"
  }

  /** Every mapped colour, and the default, is a valid hex colour. */
  lemma ColorOfIsHexColor(blockType: string)
    ensures IsHexColor(ColorOf(blockType))
  {
    var c := ColorOf(blockType);
    assert forall i :: 1 <= i < 7 ==> IsHexDigit(c[i]);
  }

  /** `[\dA-Fa-f]`. */
  predicate IsHexDigit(c: char)
  {
    ('0' <= c <= '9') || ('a' <= c <= 'f') || ('A' <= c <= 'F')
  }

  /** `/^#[\dA-Fa-f]{6}$/`: `#` followed by exactly six hex digits. */
  predicate IsHexColor(s: string)
  {
    |s| == 7 && s[0] == '#' && forall i :: 1 <= i < 7 ==> IsHexDigit(s[i])
  }

  /** The value of a hex digit, either case. */
  function DigitValue(c: char): (n: nat)
    requires IsHexDigit(c)
    ensures n < 16
  {
    if '0' <= c <= '9' then c as int - '0' as int
    else if 'a' <= c <= 'f' then c as int - 'a' as int + 10
    else c as int - 'A' as int + 10
  }

  /** `Number.parseInt(s, 16)` of a string of two hex digits. */
  function ParseHex2(s: string): (n: nat)
    requires |s| == 2 && IsHexDigit(s[0]) && IsHexDigit(s[1])
    ensures n < 256
  {
    DigitValue(s[0]) * 16 + DigitValue(s[1])
  }

  /** The lower-case digit `toString(16)` writes for `n`. */
  function Digit(n: nat): (c: char)
    requires n < 16
    ensures IsHexDigit(c) && DigitValue(c) == n
    ensures !('A' <= c <= 'F')
  {
    if n < 10 then ('0' as int + n) as char else ('a' as int + n - 10) as char
  }

  /** `n.toString(16)`: base-16 digits, lower case, no leading zeros. */
  function HexString(n: nat): (s: string)
    ensures |s| >= 1
    ensures n < 16 ==> s == [Digit(n)]
  {
    if n < 16 then [Digit(n)] else HexString(n / 16) + [Digit(n % 16)]
  }

  /** `s.padStart(2, "0")`. */
  function PadStart2(s: string): string
  {
    if |s| >= 2 then s else Repeat('0', 2 - |s|) + s
  }

  /** A channel value written as two lower-case hex digits. */
  function Channel(n: nat): string
    requires n < 256
  {
    PadStart2(HexString(n))
  }

  /**
   * A channel in 0..255 is written as exactly two lower-case hex digits,
   * and reading them back gives the channel.
   */
  lemma ChannelRoundTrip(n: nat)
    requires n < 256
    ensures |Channel(n)| == 2 && IsHexDigit(Channel(n)[0]) && IsHexDigit(Channel(n)[1])
    ensures !('A' <= Channel(n)[0] <= 'F') && !('A' <= Channel(n)[1] <= 'F')
    ensures ParseHex2(Channel(n)) == n
  {
    if n < 16 {
      assert Channel(n) == ['0', Digit(n)];
    } else {
      assert HexString(n / 16) == [Digit(n / 16)];
      assert Channel(n) == [Digit(n / 16), Digit(n % 16)];
    }
  }

  /** The three channels of a valid hex colour. */
  function Channels(color: string): (rgb: (nat, nat, nat))
    requires IsHexColor(color)
    ensures rgb.0 < 256 && rgb.1 < 256 && rgb.2 < 256
  {
    (ParseHex2(color[1..3]), ParseHex2(color[3..5]), ParseHex2(color[5..7]))
  }

  /** The three two-digit slices of a valid hex colour are hex pairs. */
  lemma HexColorSlices(color: string)
    requires IsHexColor(color)
    ensures |color[1..3]| == 2 && IsHexDigit(color[1..3][0]) && IsHexDigit(color[1..3][1])
    ensures |color[3..5]| == 2 && IsHexDigit(color[3..5][0]) && IsHexDigit(color[3..5][1])
    ensures |color[5..7]| == 2 && IsHexDigit(color[5..7][0]) && IsHexDigit(color[5..7][1])
  {
    assert IsHexDigit(color[1]) && IsHexDigit(color[2]) && IsHexDigit(color[3]);
    assert IsHexDigit(color[4]) && IsHexDigit(color[5]) && IsHexDigit(color[6]);
  }

  /** A channel darkened by `30 * (i + 1)`, not below 0. */
  function Darken(c: nat, i: nat): (d: nat)
    requires c < 256
    ensures d < 256
    ensures d == Max(0, c - 30 * (i + 1))
  {
    if c >= 30 * (i + 1) then c - 30 * (i + 1) else 0
  }

  /** Variant `i` of the colour with channels `rgb`. */
  function Variant(rgb: (nat, nat, nat), i: nat): string
    requires rgb.0 < 256 && rgb.1 < 256 && rgb.2 < 256
  {
    "#" + Channel(Darken(rgb.0, i)) + Channel(Darken(rgb.1, i)) + Channel(Darken(rgb.2, i))
  }

  /**
   * `colorVariants(color)`: throws "Invalid hex color format" unless the
   * input is `#` and six hex digits; otherwise the colour itself followed by
   * two darker shades, each channel lowered by 60 and then 90.
   */
  method ColorVariants(color: string) returns (result: Outcome<seq<string>>)
    ensures result.Thrown? <==> !IsHexColor(color)
    ensures result.Thrown? ==> result.message == "Invalid hex color format"
    ensures result.Ok? ==> (|result.value| == 3 && result.value[0] == color
      && result.value[1] == Variant(Channels(color), 1) && result.value[2] == Variant(Channels(color), 2))
  {
    if !IsHexColor(color) {
      return Thrown("Invalid hex color format");
    }
    HexColorSlices(color);
    var r: int := ParseHex2(color[1..3]);
    var g: int := ParseHex2(color[3..5]);
    var b: int := ParseHex2(color[5..7]);
    ghost var rgb := Channels(color);
    assert rgb == (r, g, b);
    var variants := [color];
    var i := 1;
    while i <= 2
      invariant 1 <= i <= 3
      invariant |variants| == i && variants[0] == color
      invariant i > 1 ==> variants[1] == Variant(rgb, 1)
      invariant i > 2 ==> variants[2] == Variant(rgb, 2)
    {
      var shade := Shade(r, g, b, i);
      variants := variants + [shade];
      i := i + 1;
    }
    return Ok(variants);
  }

  /** One pass of the loop of `colorVariants`: each channel lowered by `30 * (i + 1)`, clamped at 0, written back. */
  method Shade(r: int, g: int, b: int, i: nat) returns (shade: string)
    requires 0 <= r < 256 && 0 <= g < 256 && 0 <= b < 256
    ensures shade == Variant((r, g, b), i)
  {
    var cr, cg, cb := Max(0, r - 30 * (i + 1)), Max(0, g - 30 * (i + 1)), Max(0, b - 30 * (i + 1));
    assert cr == Darken(r, i);
    assert cg == Darken(g, i);
    assert cb == Darken(b, i);
    var newR := Channel(cr);
    var newG := Channel(cg);
    var newB := Channel(cb);
    shade := "#" + newR + newG + newB;
  }

  /**
   * Each shade is itself a lower-case hex colour whose channels are the
   * original channels lowered by `30 * (i + 1)` and clamped at 0.
   */
  lemma VariantChannels(rgb: (nat, nat, nat), i: nat)
    requires rgb.0 < 256 && rgb.1 < 256 && rgb.2 < 256
    ensures IsHexColor(Variant(rgb, i))
    ensures forall k :: 1 <= k < 7 ==> !('A' <= Variant(rgb, i)[k] <= 'F')
    ensures Channels(Variant(rgb, i)) == (Darken(rgb.0, i), Darken(rgb.1, i), Darken(rgb.2, i))
  {
    var cr, cg, cb := Channel(Darken(rgb.0, i)), Channel(Darken(rgb.1, i)), Channel(Darken(rgb.2, i));
    ChannelRoundTrip(Darken(rgb.0, i));
    ChannelRoundTrip(Darken(rgb.1, i));
    ChannelRoundTrip(Darken(rgb.2, i));
    HexJoin(cr, cg, cb);
  }

  /** Two lower-case hex digits. */
  predicate IsLowerHexPair(c: string)
  {
    |c| == 2 && IsHexDigit(c[0]) && IsHexDigit(c[1]) && !('A' <= c[0] <= 'F') && !('A' <= c[1] <= 'F')
  }

  /** `#` and three lower-case hex pairs make a lower-case hex colour whose channels are the pairs' values. */
  lemma HexJoin(cr: string, cg: string, cb: string)
    requires IsLowerHexPair(cr) && IsLowerHexPair(cg) && IsLowerHexPair(cb)
    ensures IsHexColor("#" + cr + cg + cb)
    ensures forall k :: 1 <= k < 7 ==> !('A' <= ("#" + cr + cg + cb)[k] <= 'F')
    ensures Channels("#" + cr + cg + cb) == (ParseHex2(cr), ParseHex2(cg), ParseHex2(cb))
  {
    var v := "#" + cr + cg + cb;
    assert v[1..3] == cr && v[3..5] == cg && v[5..7] == cb;
    assert v[1] == cr[0] && v[2] == cr[1] && v[3] == cg[0] && v[4] == cg[1] && v[5] == cb[0] && v[6] == cb[1];
  }

  /** Stone, `#808080`: the shades are `#444444` and `#262626`. */
  lemma StoneVariants()
    ensures Channels("#808080") == (128, 128, 128)
    ensures Variant(Channels("#808080"), 1) == "#444444"
    ensures Variant(Channels("#808080"), 2) == "#262626"
  {
    assert "#808080"[1..3] == "80";
    assert "#808080"[3..5] == "80";
    assert "#808080"[5..7] == "80";
    assert HexString(68) == HexString(4) + [Digit(4)];
    assert HexString(38) == HexString(2) + [Digit(6)];
  }

  /** A block position of the renderer: `y` grows downwards, `z` towards the viewer. */
  datatype RenderBlockPos = RenderBlockPos(x: int, y: int, z: int)

  /**
   * `convertBlockPosToRenderBlockPos`: the data model's height becomes the
   * render row counted from the top of the chunk, and its `y` the render
   * depth. It is one-to-one, and a block inside the chunk's height lands
   * inside it.
   */
  function ToRenderBlockPos(p: BlockPos): (r: RenderBlockPos)
    ensures r.x == p.x && r.z == p.y
    ensures 0 <= p.z < RenderChunkHeight <==> 0 <= r.y < RenderChunkHeight
    ensures p.z < RenderChunkHeight - 1 ==> r.y > 0
  {
    RenderBlockPos(p.x, RenderChunkHeight - 1 - p.z, p.y)
  }

  /**
   * `convertRenderBlockPosToBlockPos` as written: the same shape as the
   * forward map, which is also the formula the renderer's doc comment gives
   * for this direction. Nothing in the source calls it.
   */
  function FromRenderBlockPos(r: RenderBlockPos): (p: BlockPos)
    ensures p.x == r.x && p.z == r.y
  {
    BlockPos(r.x, RenderChunkHeight - 1 - r.z, r.y)
  }

  /**
   * Converting to render coordinates and back, as written, mirrors both `y`
   * and `z` instead of giving the position back; since `HEIGHT - 1` is odd,
   * no position comes back unchanged, and the origin comes back as
   * `(0, 15, 15)`.
   */
  lemma RenderRoundTripAsWritten(p: BlockPos)
    ensures FromRenderBlockPos(ToRenderBlockPos(p)) ==
      BlockPos(p.x, RenderChunkHeight - 1 - p.y, RenderChunkHeight - 1 - p.z)
    ensures FromRenderBlockPos(ToRenderBlockPos(BlockPos(0, 0, 0))) == BlockPos(0, 15, 15)
    ensures FromRenderBlockPos(ToRenderBlockPos(p)) != p
  {
  }

  /** The inverse of `ToRenderBlockPos`: the render depth is the data model's `y`, the row gives the height. */
  function FromRenderBlockPosInverse(r: RenderBlockPos): (p: BlockPos)
    ensures p.x == r.x && p.y == r.z
    ensures 0 <= r.y < RenderChunkHeight <==> 0 <= p.z < RenderChunkHeight
  {
    BlockPos(r.x, r.z, RenderChunkHeight - 1 - r.y)
  }

  /** The corrected back-conversion undoes the forward map and is undone by it. */
  lemma RenderRoundTrip(p: BlockPos, r: RenderBlockPos)
    ensures FromRenderBlockPosInverse(ToRenderBlockPos(p)) == p
    ensures ToRenderBlockPos(FromRenderBlockPosInverse(r)) == r
  {
  }
}
