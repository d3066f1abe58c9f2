/**
 * Colour tokens: the escape sequence printed in front of every character,
 * chosen by the colour depth of the terminal. True colour uses the
 * `38;2;r;g;b` extension, the 256-colour palette the `38;5;n` extension
 * (n from `Ansi256`), the basic palette the ECMA-48 foreground codes
 * 30-37 and their bright variants 90-97 after a bold (`1`) parameter
 * (n from `Ansi16`).
 *
 * Every `Math.round` in these encoders is applied to an exact rational n/d,
 * so `Round` computes it on integers.
 */
module Encoders {
  import opened Strings
  import opened Sgr

  /** A colour channel as the gradient delivers it: rounded to an integer in 0..255. */
  type Channel = x: int | 0 <= x <= 255

  datatype Rgb = Rgb(r: Channel, g: Channel, b: Channel)

  /** `Math.round(n / d)` for a positive `d`: the integer nearest to n/d, halves going up. */
  function Round(n: int, d: int): (k: int)
    requires d > 0
    ensures d * (2 * k - 1) <= 2 * n < d * (2 * k + 1)
  {
    (2 * n + d) / (2 * d)
  }

  /** The cube level of a channel: `Math.round(x / 255 * 5)`. */
  function CubeLevel(x: Channel): (k: int)
    ensures 0 <= k <= 5
  {
    Round(5 * x, 255)
  }

  /** `ansi256(r, g, b)`: a grey-ramp entry when all channels share their top four bits, a 6x6x6 cube entry otherwise. */
  function Ansi256(c: Rgb): (code: int)
    ensures 16 <= code <= 255
  {
    if c.r / 16 == c.g / 16 && c.g / 16 == c.b / 16 then
      if c.r < 8 then 16
      else if c.r > 248 then 231
      else Round(24 * (c.r - 8), 247) + 232
    else 16 + 36 * CubeLevel(c.r) + 6 * CubeLevel(c.g) + CubeLevel(c.b)
  }

  /** Channels that agree in their top four bits (`x >> 4`) are rendered on the grey ramp or its two ends. */
  lemma Ansi256Grey(c: Rgb)
    requires c.r / 16 == c.g / 16 == c.b / 16
    ensures c.r < 8 ==> Ansi256(c) == 16
    ensures c.r > 248 ==> Ansi256(c) == 231
    ensures 8 <= c.r <= 248 ==> 232 <= Ansi256(c) <= 255
  {
  }

  /** Other colours are a cube entry whose three base-6 digits are the channels' cube levels. */
  lemma Ansi256CubeDecode(c: Rgb)
    requires !(c.r / 16 == c.g / 16 == c.b / 16)
    ensures (Ansi256(c) - 16) / 36 == CubeLevel(c.r)
    ensures (Ansi256(c) - 16) / 6 % 6 == CubeLevel(c.g)
    ensures (Ansi256(c) - 16) % 6 == CubeLevel(c.b)
  {
    Base6Digits(CubeLevel(c.r), CubeLevel(c.g), CubeLevel(c.b));
  }

  /** The three base-6 digits of a cube index. */
  lemma Base6Digits(a: int, b: int, d: int)
    requires 0 <= a <= 5 && 0 <= b <= 5 && 0 <= d <= 5
    ensures (36 * a + 6 * b + d) / 36 == a
    ensures (36 * a + 6 * b + d) / 6 % 6 == b
    ensures (36 * a + 6 * b + d) % 6 == d
  {
    var x := 36 * a + 6 * b + d;
    assert x / 6 == 6 * a + b;
  }

  /** The cube level is the level whose intensity (0, 51, ..., 255) lies nearest to the channel. */
  lemma CubeLevelNearest(x: Channel, level: int)
    requires 0 <= level <= 5
    ensures var k := CubeLevel(x);
      (if 51 * k >= x then 51 * k - x else x - 51 * k) <= (if 51 * level >= x then 51 * level - x else x - 51 * level)
  {
  }

  /** `Math.round(x / 255)`: whether a channel counts as on in the basic palette. */
  function Bit(x: Channel): (k: int)
    ensures k == if x >= 128 then 1 else 0
  {
    Round(x, 255)
  }

  /**
   * `ansi16(r, g, b)`, with the rounded brightness band as a parameter: black
   * for band 0; otherwise 30 plus blue, green and red as bits 2, 1 and 0
   * (the `<<` and `|` of the source add, as each term is 0 or 1), moved
   * to the bright codes for band 2.
   */
  function Ansi16(c: Rgb, band: int): (code: int)
    ensures band == 0 ==> code == 30
    ensures 30 <= code <= 37 || 90 <= code <= 97
    ensures band != 0 ==> code == 30 + 4 * Bit(c.b) + 2 * Bit(c.g) + Bit(c.r) + (if band == 2 then 60 else 0)
  {
    if band == 0 then 30
    else
      var ansi := 30 + (4 * Bit(c.b) + 2 * Bit(c.g) + Bit(c.r));
      if band == 2 then ansi + 60 else ansi
  }

  /** The eight colours of ECMA-48, section 8.3.117. */
  datatype Colour = Black | Red | Green | Yellow | Blue | Magenta | Cyan | White

  /** The SGR parameter that selects a colour for the foreground (ECMA-48, section 8.3.117). */
  function ForegroundParam(colour: Colour): int {
    match colour
    case Black => 30
    case Red => 31
    case Green => 32
    case Yellow => 33
    case Blue => 34
    case Magenta => 35
    case Cyan => 36
    case White => 37
  }

  /** The colour that mixing the lit primaries gives. */
  function Mixture(red: bool, green: bool, blue: bool): Colour {
    if blue then
      if green then (if red then White else Cyan) else (if red then Magenta else Blue)
    else
      if green then (if red then Yellow else Green) else (if red then Red else Black)
  }

  /** Outside band 0 the basic code names the mixture of the channels that are on, bright in band 2. */
  lemma Ansi16Names(c: Rgb, band: int)
    requires band != 0
    ensures Ansi16(c, band) == ForegroundParam(Mixture(c.r >= 128, c.g >= 128, c.b >= 128)) + (if band == 2 then 60 else 0)
  {
  }

  function Max3(c: Rgb): Channel {
    if c.r >= c.g && c.r >= c.b then c.r else if c.g >= c.b then c.g else c.b
  }

  /**
   * The band as the source computes it: `Math.round(v / 50)` where `v` is
   * the HSV value of the colour, max(r, g, b) / 255, which lies in [0, 1].
   */
  function ValueBandAsWritten(c: Rgb): int {
    Round(Max3(c), 255 * 50)
  }

  /** As written, every colour falls in band 0, so the basic palette prints every character black. */
  lemma ValueBandAsWrittenIsZero(c: Rgb)
    ensures ValueBandAsWritten(c) == 0
    ensures Ansi16(c, ValueBandAsWritten(c)) == 30
  {
  }

  /** White, as written: code 30 (black) instead of 97 (bright white). */
  lemma WhiteAsWritten()
    ensures Ansi16(Rgb(255, 255, 255), ValueBandAsWritten(Rgb(255, 255, 255))) == 30
  {
    ValueBandAsWrittenIsZero(Rgb(255, 255, 255));
  }

  /** The band with the value on the 0..100 scale that the division by 50 presumes. */
  function ValueBand(c: Rgb): (band: int)
    ensures 0 <= band <= 2
    ensures band == 0 <==> Max3(c) < 64
    ensures band == 2 <==> Max3(c) >= 192
  {
    Round(100 * Max3(c), 255 * 50)
  }

  /** With the corrected band, white is bright white and black is black. */
  lemma WhiteAndBlack()
    ensures Ansi16(Rgb(255, 255, 255), ValueBand(Rgb(255, 255, 255))) == 97
    ensures Ansi16(Rgb(0, 0, 0), ValueBand(Rgb(0, 0, 0))) == 30
  {
  }

  /** The colour depth the renderer writes. */
  datatype Tier = TrueColor | Palette256 | Basic | NoColor

  /** How many colours a tier uses. */
  function PaletteSize(tier: Tier): nat {
    match tier
    case TrueColor => 0x100_0000
    case Palette256 => 256
    case Basic => 16
    case NoColor => 0
  }

  /**
   * `getTokenGenerator(force)`, with the terminal's colour count as a
   * parameter: `hasColors(n)` holds when `n <= colours`, and without an
   * argument it asks for 16.
   */
  function SelectTier(force: bool, colours: nat): (tier: Tier)
    ensures tier == TrueColor <==> force || colours >= 0x100_0000
    ensures tier == NoColor <==> !force && colours < 16
  {
    if force || colours >= 0x100_0000 then TrueColor
    else if colours >= 256 then Palette256
    else if colours >= 16 then Basic
    else NoColor
  }

  /** Forcing selects true colour whatever the terminal reports. */
  lemma SelectTierForced(colours: nat)
    ensures SelectTier(true, colours) == TrueColor
  {
  }

  /** Unforced, the selected tier is the richest one whose palette the terminal can show. */
  lemma SelectTierRichestFitting(colours: nat, other: Tier)
    ensures PaletteSize(SelectTier(false, colours)) <= colours
    ensures PaletteSize(other) <= colours ==> PaletteSize(other) <= PaletteSize(SelectTier(false, colours))
  {
  }

  /**
   * The token that precedes a character of colour `c`: an SGR control for
   * every tier but the colourless one. The basic tier uses the corrected
   * band `ValueBand`; `TokenAsWritten` is the token the program writes.
   */
  function Token(tier: Tier, c: Rgb): (t: string)
    ensures t == [] <==> tier == NoColor
    ensures t != [] ==> |t| >= 3 && t[0] == Esc && t[1] == '[' && t[|t| - 1] == 'm'
  {
    match tier
    case TrueColor => SgrSequence([38, 2, c.r, c.g, c.b])
    case Palette256 => SgrSequence([38, 5, Ansi256(c)])
    case Basic => SgrSequence([1, Ansi16(c, ValueBand(c))])
    case NoColor => []
  }

  /** The token as the program writes it: the basic tier takes its band from `ValueBandAsWritten`. */
  function TokenAsWritten(tier: Tier, c: Rgb): string {
    if tier == Basic then SgrSequence([1, Ansi16(c, ValueBandAsWritten(c))]) else Token(tier, c)
  }

  /**
   * As written, every basic token is `ESC [ 1 ; 30 m` (bold black), whatever
   * the colour, so it differs from the corrected token for white; the other
   * tiers agree with `Token`.
   */
  lemma TokenAsWrittenDecode(tier: Tier, c: Rgb)
    ensures tier == Basic ==> ParseSgr(TokenAsWritten(tier, c)) == Some([1, 30])
    ensures tier != Basic ==> TokenAsWritten(tier, c) == Token(tier, c)
    ensures TokenAsWritten(Basic, Rgb(255, 255, 255)) != Token(Basic, Rgb(255, 255, 255))
  {
    ValueBandAsWrittenIsZero(c);
    SgrRoundTrip([1, 30]);
    var white := Rgb(255, 255, 255);
    ValueBandAsWrittenIsZero(white);
    WhiteAndBlack();
    SgrRoundTrip([1, 97]);
    assert ParseSgr(TokenAsWritten(Basic, white)) != ParseSgr(Token(Basic, white));
  }

  /** Each coloured token is one SGR sequence carrying exactly the parameters of its tier; the colourless token is empty. */
  lemma TokenDecode(tier: Tier, c: Rgb)
    ensures tier == TrueColor ==> ParseSgr(Token(tier, c)) == Some([38, 2, c.r, c.g, c.b])
    ensures tier == Palette256 ==> ParseSgr(Token(tier, c)) == Some([38, 5, Ansi256(c)])
    ensures tier == Basic ==> ParseSgr(Token(tier, c)) == Some([1, Ansi16(c, ValueBand(c))])
    ensures tier == NoColor ==> Token(tier, c) == []
  {
    match tier
    case TrueColor => SgrRoundTrip([38, 2, c.r, c.g, c.b]);
    case Palette256 => SgrRoundTrip([38, 5, Ansi256(c)]);
    case Basic => SgrRoundTrip([1, Ansi16(c, ValueBand(c))]);
    case NoColor =>
  }

  /** A token shows nothing on the terminal. */
  lemma EraseToken(tier: Tier, c: Rgb, rest: string)
    ensures Erase(Token(tier, c) + rest) == Erase(rest)
  {
    match tier
    case TrueColor => EraseSgr([38, 2, c.r, c.g, c.b], rest);
    case Palette256 => EraseSgr([38, 5, Ansi256(c)], rest);
    case Basic => EraseSgr([1, Ansi16(c, ValueBand(c))], rest);
    case NoColor => assert Token(tier, c) + rest == rest;
  }
}
