# kekcat colour engine, modelled in Dafny

kekcat colours terminal text with a moving rainbow gradient, in the style of
lolcat. `src/index.ts` holds the whole colour engine, and this project models it:

- `crc32` with its 256-entry table turns a seed string into a 32-bit word
  (module `Crc32`, file `crc32.dfy`).
- `random`, a one-shot mulberry32 mixer, turns that word into a phase in
  [0, 1) (module `Prng`, file `prng.dfy`).
- `position` is a triangle wave that walks the gradient back and forth
  (module `Wave`, file `wave.dfy`).
- `ansi256`, `ansi16` and `getTokenGenerator` choose the escape sequence
  written in front of every character: a true-colour sequence, a 256-palette
  sequence, a 16-colour sequence, or nothing (module `Encoders`, file
  `encoders.dfy`). The sequences are SELECT GRAPHIC RENDITION controls of
  ECMA-48 (section 8.3.117), built and read back by module `Sgr`
  (`sgr.dfy`). The `split`, `join` and decimal rendering they use are in
  module `Strings` (`strings.dfy`).
- `getFrameColorizer` resolves the options into settings. It returns a
  colouriser that owns a frame counter. Each call colours every character of
  every line at the wave point
  `position(totalSteps, start + (line + frame) * stagger + column)`,
  then advances the counter. The function is module `Colorizer`, file
  `colorizer.dfy`; the stateful closure is the class
  `Colorizer.FrameColorizer`.

The imperative parts are methods:

- the table-building loop (`Crc32.BuildTable`, over an `array`);
- the checksum's byte loop (`Crc32.UpdateLoop`, `Crc32.Crc32`);
- the word-by-word reassignment of `random` (`Prng.Random`);
- the closure with its mutable `frame` (`FrameColorizer.Colorize`).

Each method is proved equal to a specification function (`Crc32.Crc`,
`Prng.Draw`, `Colorizer.Render`), and the properties are lemmas about those
functions.

These external inputs become parameters:

- The chroma-js colour scale becomes the `gradient` parameter: from the stops
  and the mode it yields a function from a wave point to integer RGB channels.
- The terminal's colour count stands for `process.stdout.hasColors`.
- A caller-supplied 32-bit word stands for `Math.random()`.
- A seed string is given by its UTF-8 bytes.

## Model

| member | source | states |
|---|---|---|
| `Crc32.TableEntry` | src/index.ts:4-9 | entry `n` is the byte pushed through eight bit steps; it is 0 exactly for `n == 0` |
| `Crc32.BuildTable` | src/index.ts:4-9 | returns a fresh 256-entry table whose entry `n` is `n` after eight reflected shift steps with polynomial 0xEDB88320 |
| `Crc32.CheckEntries` | src/index.ts:4-9 | eight table entries equal the standard CRC-32 table values (for example entry 0x01 is 0x77073096) |
| `Crc32.UpdateLoop` | src/index.ts:14-16 | the byte loop leaves the register equal to `Update(start, data)`, one table step per byte in order |
| `Crc32.Crc32` | src/index.ts:11-18 | the checksum equals `Crc(data, crc)`: complement on entry, the table steps, complement on exit |
| `Crc32.Crc` | src/index.ts:11-18 | the checksum continuing from `crc`: complement, table steps, complement; no bytes return the incoming checksum, so a fresh checksum of no bytes is 0 |
| `Crc32.UpdateAppend` | src/index.ts:14-16 | the register after `a ++ b` is the register after `b` started from the register after `a` |
| `Crc32.CrcChain` | src/index.ts:11-18 | `crc32(a ++ b) == crc32(b, crc32(a))`: the `crc` parameter continues an earlier checksum |
| `Crc32.CheckValue` | src/index.ts:11-18 | the CRC-32 of the ASCII digits "123456789" is the standard check value 0xCBF43926 |
| `Prng.Mix` | src/index.ts:56-59 | the 32-bit mixer: additive constant, two multiply-xorshift rounds, final xorshift; seed 0 mixes to 0x4434B462 and 0xCBF43926 to 0xE0EF493E |
| `Prng.Fraction` | src/index.ts:59 | the word divided by 2^32 lies in [0, 1), and multiplying it by 2^32 gives the word back |
| `Prng.Draw` | src/index.ts:55-60 | the mixed seed word as a phase lies in [0, 1) |
| `Prng.Random` | src/index.ts:55-60 | the step-by-step reassignment of `t` (add, two multiply-xorshift rounds, final xorshift, all modulo 2^32) yields `Draw(x)` |
| `Wave.Position` | src/index.ts:62-66 | the wave value lies in [0, 1] for any non-zero half period |
| `Wave.PositionOfPhase` | src/index.ts:62-66 | the wave is the fractional part of `offset / steps`, mirrored when the whole part is odd |
| `Wave.PositionIsEvenDistance` | src/index.ts:62-66 | the wave is no larger than the distance from `offset / steps` to any even integer |
| `Wave.NearestEven` | src/index.ts:62-66 | some even integer lies at exactly the wave's distance from `offset / steps`, so the wave is the distance to the nearest even integer |
| `Wave.PositionAtZero` | src/index.ts:62-66 | `position(s, 0) == 0` |
| `Wave.PositionAtMultiple` | src/index.ts:62-66 | `position(s, k * s)` is 0 for even `k` and 1 for odd `k` |
| `Wave.PositionFlip` | src/index.ts:62-66 | one half period later the wave is mirrored: `position(s, o + s) == 1 - position(s, o)` |
| `Wave.PositionPeriodic` | src/index.ts:62-66 | the wave repeats after any whole number of full periods `2 * s` |
| `Wave.PositionLipschitz` | src/index.ts:62-66 | the wave changes by at most the change of `offset / steps` |
| `Wave.PhaseStep` | src/index.ts:63 | one more unit of offset moves `offset / steps` by exactly `1 / abs(steps)` |
| `Strings.Split` | src/index.ts:92 | `split` yields at least one piece and no piece holds the separator |
| `Strings.JoinSplit` | src/index.ts:92-98 | joining the pieces of a split with the same separator gives the string back |
| `Strings.SplitJoin` | src/index.ts:92-98 | splitting a join of separator-free pieces gives the pieces back |
| `Strings.Decimal` | src/index.ts:45-51 | a template-literal numeral is non-empty, all digits and without a leading zero |
| `Strings.ParseDecimalOfDecimal` | src/index.ts:45-51 | reading a numeral back gives the number |
| `Sgr.SgrSequence` | src/index.ts:45-49 | a token is CSI (`ESC [`), then only digits and `;`, then the final byte `m` |
| `Sgr.SgrRoundTrip` | src/index.ts:45-51 | an `ESC [ params m` sequence with at least one parameter decodes to exactly its parameters |
| `Sgr.EraseSgr` | src/index.ts:45-51 | a complete SGR sequence shows nothing: removing it leaves what follows |
| `Sgr.EraseAppendPlain` | src/index.ts:96 | text without ESC in front of anything shows as itself, followed by what the rest shows |
| `Encoders.Round` | src/index.ts:24 | `Math.round(n / d)` is the integer within half a unit of `n / d`, halves rounding up |
| `Encoders.CubeLevel` | src/index.ts:28-30 | a channel's cube level lies in 0..5 |
| `Encoders.CubeLevelNearest` | src/index.ts:28-30 | the cube level's intensity (0, 51, ..., 255) is the one nearest to the channel |
| `Encoders.Ansi256` | src/index.ts:20-31 | the 256-palette index lies in 16..255 for every colour |
| `Encoders.Ansi256Grey` | src/index.ts:21-25 | channels with the same top four bits give 16 below 8, 231 above 248, and a grey-ramp index in 232..255 otherwise |
| `Encoders.Ansi256CubeDecode` | src/index.ts:28-30 | other colours give the cube index whose base-6 digits are the red, green and blue cube levels |
| `Encoders.Bit` | src/index.ts:37-39 | `Math.round(x / 255)` is 1 exactly when the channel is at least 128 |
| `Encoders.Ansi16` | src/index.ts:33-41 | the code is 30 in band 0; otherwise 30 plus blue, green and red bits as 4, 2 and 1, plus 60 in band 2; always in 30..37 or 90..97 |
| `Encoders.Ansi16Names` | src/index.ts:36-40 | outside band 0 the code is the ECMA-48 foreground parameter of the mixture of the lit channels, bright in band 2 |
| `Encoders.ValueBandAsWrittenIsZero` | src/index.ts:34 | with the HSV value in [0, 1], `Math.round(value / 50)` is 0 for every colour, so the 16-colour code is always 30 |
| `Encoders.WhiteAsWritten` | src/index.ts:33-41 | as written, white gets code 30 (black) |
| `Encoders.ValueBand` | src/index.ts:34 | the corrected band lies in 0..2: 0 exactly when the brightest channel is below 64, 2 exactly when it is 192 or more |
| `Encoders.WhiteAndBlack` | src/index.ts:33-41 | with the corrected band, white gets 97 (bright white) and black gets 30 |
| `Encoders.SelectTier` | src/index.ts:43-53 | true colour exactly when forced or the terminal shows 2^24 colours; no colour exactly when unforced and the terminal shows fewer than 16 |
| `Encoders.SelectTierForced` | src/index.ts:43-44 | forcing true colour selects it whatever the terminal reports |
| `Encoders.SelectTierRichestFitting` | src/index.ts:43-53 | unforced, the tier chosen is the richest whose palette the terminal can show |
| `Encoders.Token` | src/index.ts:45-51 | the token is empty exactly in the colourless tier, and otherwise starts with `ESC [` and ends with `m`; the basic tier uses the corrected band |
| `Encoders.TokenAsWrittenDecode` | src/index.ts:33-51 | as written, every basic-tier token decodes to `1;30` whatever the colour, which differs from the corrected token for white; the other tiers agree with `Token` |
| `Encoders.TokenDecode` | src/index.ts:43-53 | each token is one SGR sequence carrying `38;2;r;g;b`, `38;5;ansi256` or `1;ansi16` for its tier, and the colourless token is empty |
| `Encoders.EraseToken` | src/index.ts:43-53 | every token shows nothing on the terminal |
| `Colorizer.TotalSteps` | src/index.ts:85 | `Math.floor(1 / (step / 10))` is the floor of `10 / step` |
| `Colorizer.DefaultTotalSteps` | src/index.ts:79-85 | the default step 0.3 gives a half period of 33 characters |
| `Colorizer.Scale` | src/index.ts:86 | a phase in [0, 1) times the half period lies between 0 and the half period |
| `Colorizer.SeedWord` | src/index.ts:81 | there is no seed word exactly for a null seed; an absent seed uses the random word; the empty seed string hashes to 0 |
| `Colorizer.StartPhase` | src/index.ts:86 | the start is 0 without a seed word, and otherwise lies inside the first half period |
| `Colorizer.Resolve` | src/index.ts:77-88 | the resolved half period is never 0 for an admitted step; a null seed starts at 0 and any other seed inside the first half period; forcing selects true colour, otherwise the terminal's colour count decides |
| `Colorizer.ResolveDefaults` | src/index.ts:78-86 | with no options the settings are mode "lrgb", the six default stops, half period 33, stagger 1 and a start `random(word) * 33` in [0, 33); with a null seed and no other option the start is 0 |
| `Colorizer.ResolveReproducible` | src/index.ts:81-86 | a configured seed, string or null, makes the settings independent of the random word |
| `Colorizer.NullSeedStartsAtZero` | src/index.ts:86-95 | with a null seed the first character of the first line of the first call is sampled at wave point 0 |
| `Colorizer.LineOffset` | src/index.ts:93 | line 0 of call 0 starts at `start`, and with stagger 0 every line of every call does |
| `Colorizer.SamplePoint` | src/index.ts:95 | every character is sampled at a wave point in [0, 1] |
| `Colorizer.Tokens` | src/index.ts:94-96 | every character of a line gets a token; a token is empty exactly in the colourless tier, and otherwise starts with ESC and ends with `m` |
| `Colorizer.RenderLine` | src/index.ts:94-97 | a line is its characters, each after its token; without colour it is the line itself |
| `Colorizer.Render` | src/index.ts:92-98 | one call's output always ends with a newline |
| `Colorizer.RenderLineScrolls` | src/index.ts:93-99 | the next call colours line `l` exactly as this call colours line `l + 1` |
| `Colorizer.SamplePeriodic` | src/index.ts:93-95 | along a line the colours repeat every two half periods |
| `Colorizer.SampleSmooth` | src/index.ts:93-95 | neighbouring characters are sampled at most `1 / abs(totalSteps)` apart |
| `Colorizer.TokenSilent` | src/index.ts:96 | the token in front of a character shows nothing, whatever follows it |
| `Colorizer.EraseInterleavedFrom` | src/index.ts:94-97 | characters interleaved with silent tokens show as the characters, from any column on |
| `Colorizer.EraseLine` | src/index.ts:94-97 | a coloured line shows as the line itself |
| `Colorizer.EraseJoinFrom` | src/index.ts:92-98 | coloured lines joined with newlines show as the lines joined with newlines |
| `Colorizer.RenderShowsText` | src/index.ts:92-98 | taking the tokens out of one call's output leaves exactly the input plus one newline |
| `Colorizer.RenderNoColor` | src/index.ts:51-98 | without colour the output is literally the input plus a newline |
| `Colorizer.RenderEmpty` | src/index.ts:92-98 | the empty input renders as a lone newline |
| `Colorizer.HashSeed` | src/index.ts:81 | the seed word is the random word, none for a null seed, or the table-driven CRC-32 of the seed's bytes |
| `Colorizer.DrawStart` | src/index.ts:86 | the start computed with `random` equals `StartPhase` of the seed word |
| `Colorizer.FrameColorizer.constructor` | src/index.ts:77-90 | the colouriser holds the resolved settings, the gradient of its stops and mode, and frame 0 |
| `Colorizer.FrameColorizer.Colorize` | src/index.ts:91-101 | a call returns `Render` of the text at the current frame and advances the frame by exactly one; nothing else changes |
| `Colorizer.Replay` | src/index.ts:81-101 | two colourisers with the same configured seed print the same output for the same texts, call for call, whatever random words they get |

## Left out

- `src/cli.ts` is not part of this model. It covers option parsing,
  validation with `process.exit`, and the animation loop with screen
  clearing and sleeps; all of it is I/O and process lifecycle.
- `KekStream` and `createStream` (src/index.ts:104-125) are not modelled. They
  are Node stream event plumbing around the colouriser.
- The chroma-js scale and its `.rgb(true)` become the `gradient` parameter,
  which yields integer channels in 0..255.
- chroma's HSV conversion at src/index.ts:34 is modelled as its value
  channel, max(r, g, b) / 255.
- `process.stdout.hasColors` becomes a colour count.
- `Math.random()` becomes a 32-bit word passed to the constructor.
- `TextEncoder` is not modelled: a seed string is given as its UTF-8 bytes.
- Floating point is idealised. Offsets, `start`, `position` and
  `Math.floor(1 / (step / 10))` are exact rationals here; the program computes
  them in IEEE doubles, whose rounding the model does not capture.
- `Colorizer.Resolve`, `Colorizer.FrameColorizer.constructor`,
  `Colorizer.Replay`, `Colorizer.ResolveReproducible` and
  `Colorizer.NullSeedStartsAtZero`: require a step whose half period is non-zero. For a
  step of 0 or a step larger than 10, the program computes an infinite or
  zero half period and every wave point is NaN; the model does not follow it
  there.
- `Colorizer.TotalSteps`: requires a non-zero step; the program's `1 / 0` is Infinity.
- `Wave.Position`: requires `steps != 0`, for the same reason.
- `Colorizer.FrameColorizer.constructor`: builds the CRC table when a seed
  string is hashed, where the program builds it once when the module loads.
  The table is the same, and the model proves nothing about sharing it.
- `Crc32.Crc32`: the model proves it equal to the table-driven definition
  `Crc`, pins eight table entries, and checks the standard check value. It
  does not prove the table-driven form equal to a bit-at-a-time reference
  over all inputs.
- `Colorizer.RenderShowsText`: stated only for input without ESC. The
  restriction matters only in the colourless tier, where an ESC in the input
  could combine with the characters after it into a sequence the terminal
  does not show (`Colorizer.RenderNoColor` gives that output literally). In
  the coloured tiers every input character is followed by a token or a
  newline, so an input ESC never begins a sequence; the model does not prove
  that case.
- `Sgr.SgrRoundTrip`: stated for sequences with at least one parameter, which
  every token has.
- `Encoders.Token`: the basic tier renders the corrected band `ValueBand`
  (see Findings), so `Colorizer.Render`, `FrameColorizer.Colorize` and
  `Encoders.TokenDecode` show the intended 16-colour output. The program as
  written emits `ESC[1;30m` for every colour in that tier; that token is
  `Encoders.TokenAsWritten`, and `Encoders.TokenAsWrittenDecode` states it.

## Findings

| source | as written | input that shows it | evidently intended | confidence | as-written member | corrected member |
|---|---|---|---|---|---|---|
| src/index.ts:34 | `Math.round(chroma.rgb(r, g, b).hsv()[2] / 50)`, where chroma's HSV value lies in [0, 1], so the band is always 0 and every 16-colour token is `ESC[1;30m` (black) | white, (255, 255, 255): code 30 instead of 97 | the value on a 0..100 scale, as the division by 50 into bands 0, 1 and 2 presumes | not executed; rests on chroma-js reporting the value in [0, 1] | `Encoders.ValueBandAsWrittenIsZero` | `Encoders.ValueBand` |
