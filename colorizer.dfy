/**
 * The frame colouriser: it resolves a configuration into rendering
 * settings, then colours text one call at a time. Every character gets the
 * token for the gradient colour at a point of the triangle wave; the point
 * moves one unit per character, `stagger` units per line and `stagger`
 * units per call, so repeated calls scroll the pattern.
 *
 * The gradient (a colour scale through the stops in the interpolation mode,
 * rounded to integer channels) comes from a colour library and is a
 * parameter here, as are the terminal's colour count and the random word
 * drawn when no seed is configured.
 */
module Colorizer {
  import opened Strings
  import opened Sgr
  import opened Encoders
  import Crc32
  import Prng
  import Wave

  /** The `seed` option: absent, `null`, or a string given by its UTF-8 bytes. */
  datatype SeedSetting = Unset | NoSeed | Phrase(utf8: seq<bv8>)

  /** The options; `None` is an absent (or null) option. */
  datatype Config = Config(
    mode: Option<string>,
    step: Option<real>,
    stagger: Option<real>,
    seed: SeedSetting,
    stops: Option<seq<string>>,
    forceTrueRGB: Option<bool>)

  /** The settings every call of the colouriser uses. */
  datatype Settings = Settings(
    mode: string,
    stops: seq<string>,
    totalSteps: int,
    start: real,
    stagger: real,
    tier: Tier)

  /** A colour scale: a position in [0, 1] to a colour. */
  type Gradient = real -> Rgb

  const DefaultMode: string := "lrgb"
  const DefaultStep: real := 0.3
  const DefaultStagger: real := 1.0
  const DefaultStops: seq<string> := ["f00", "f0f", "00f", "0ff", "0f0", "ff0"]

  /** `option ?? fallback`. */
  function OrElse<T>(option: Option<T>, fallback: T): T {
    match option
    case Some(v) => v
    case None => fallback
  }

  /** `Math.floor(1 / (step / 10))`: the half period of the wave, in characters. */
  function TotalSteps(step: real): (total: int)
    requires step != 0.0
    ensures total as real <= 10.0 / step < total as real + 1.0
  {
    assert 1.0 / (step / 10.0) == 10.0 / step;
    (1.0 / (step / 10.0)).Floor
  }

  /** A step the wave can run on: the half period is not 0. */
  predicate ValidStep(step: real) {
    step != 0.0 && TotalSteps(step) != 0
  }

  /** The default step gives a half period of 33 characters. */
  lemma DefaultTotalSteps()
    ensures TotalSteps(DefaultStep) == 33
  {
    assert 10.0 / DefaultStep == 100.0 / 3.0;
  }

  /** The word the start phase is drawn from: the caller's random word, none, or the CRC-32 of the seed string. */
  function SeedWord(seed: SeedSetting, entropy: bv32): (word: Option<bv32>)
    ensures word.None? <==> seed == NoSeed
    ensures seed == Unset ==> word == Some(entropy)
    ensures seed == Phrase([]) ==> word == Some(0)
  {
    match seed
    case Unset => Some(entropy)
    case NoSeed => None
    case Phrase(utf8) => Some(Crc32.Crc(utf8, 0))
  }

  /** A fraction `r` of an amount `t` lies between 0 and the amount. */
  lemma FractionOf(f: real, t: real, r: real)
    requires 0.0 <= f < 1.0
    requires r == f * t
    ensures t > 0.0 ==> 0.0 <= r < t
    ensures t < 0.0 ==> t < r <= 0.0
  {
    if t > 0.0 {
      assert t - r == (1.0 - f) * t;
    } else if t < 0.0 {
      assert r - t == (1.0 - f) * -t;
    }
  }

  /** `random(seed) * totalSteps`: a phase in [0, 1) scaled by `n` lies between 0 and `n`. */
  function Scale(f: real, n: int): (r: real)
    requires 0.0 <= f < 1.0
    ensures n > 0 ==> 0.0 <= r < n as real
    ensures n < 0 ==> n as real < r <= 0.0
  {
    var r := f * n as real;
    FractionOf(f, n as real, r);
    r
  }

  /** `start`: 0 without a seed word, otherwise the mixed word's phase scaled to the half period. */
  function StartPhase(word: Option<bv32>, totalSteps: int): (start: real)
    ensures word.None? ==> start == 0.0
    ensures word.Some? && totalSteps > 0 ==> 0.0 <= start < totalSteps as real
    ensures word.Some? && totalSteps < 0 ==> totalSteps as real < start <= 0.0
  {
    match word
    case None => 0.0
    case Some(w) => Scale(Prng.Draw(w), totalSteps)
  }

  /** The settings `getFrameColorizer(config)` fixes before its first call. */
  function Resolve(config: Config, entropy: bv32, colours: nat): (s: Settings)
    requires ValidStep(OrElse(config.step, DefaultStep))
    ensures s.totalSteps != 0
    ensures config.seed == NoSeed ==> s.start == 0.0
    ensures config.seed != NoSeed && s.totalSteps > 0 ==> 0.0 <= s.start < s.totalSteps as real
    ensures config.forceTrueRGB == Some(true) ==> s.tier == TrueColor
    ensures config.forceTrueRGB != Some(true) ==> s.tier == SelectTier(false, colours)
  {
    var total := TotalSteps(OrElse(config.step, DefaultStep));
    Settings(
      OrElse(config.mode, DefaultMode),
      OrElse(config.stops, DefaultStops),
      total,
      StartPhase(SeedWord(config.seed, entropy), total),
      OrElse(config.stagger, DefaultStagger),
      SelectTier(OrElse(config.forceTrueRGB, false), colours))
  }

  /**
   * With no options at all: the documented defaults, and a start drawn from
   * the random word inside the first half period. With a null seed and no
   * other option (what the command line passes when no seed is given) the
   * gradient starts at its first stop.
   */
  lemma ResolveDefaults(entropy: bv32, colours: nat)
    ensures var s := Resolve(Config(None, None, None, Unset, None, None), entropy, colours);
      s == Settings("lrgb", ["f00", "f0f", "00f", "0ff", "0f0", "ff0"], 33, StartPhase(Some(entropy), 33), 1.0, SelectTier(false, colours))
      && 0.0 <= s.start < 33.0
    ensures Resolve(Config(None, None, None, NoSeed, None, None), entropy, colours)
      == Settings("lrgb", ["f00", "f0f", "00f", "0ff", "0f0", "ff0"], 33, 0.0, 1.0, SelectTier(false, colours))
  {
    DefaultTotalSteps();
  }

  /** A configured seed (string or null) makes the settings independent of the random word. */
  lemma ResolveReproducible(config: Config, e1: bv32, e2: bv32, colours: nat)
    requires ValidStep(OrElse(config.step, DefaultStep))
    requires !config.seed.Unset?
    ensures Resolve(config, e1, colours) == Resolve(config, e2, colours)
  {
  }

  /** `offset`: where line `l` starts on the wave in call number `frame`. */
  function LineOffset(s: Settings, frame: nat, l: nat): (offset: real)
    ensures l + frame == 0 ==> offset == s.start
    ensures s.stagger == 0.0 ==> offset == s.start
  {
    s.start + (l + frame) as real * s.stagger
  }

  /** The wave point that colours character `c` of line `l` in call number `frame`. */
  function SamplePoint(s: Settings, frame: nat, l: nat, c: nat): (p: real)
    requires s.totalSteps != 0
    ensures 0.0 <= p <= 1.0
  {
    Wave.Position(s.totalSteps, LineOffset(s, frame, l) + c as real)
  }

  /** The tokens of the first `n` characters of line `l` in call number `frame`. */
  function Tokens(s: Settings, scale: Gradient, frame: nat, l: nat, n: nat): (ts: seq<string>)
    requires s.totalSteps != 0
    ensures |ts| == n
    ensures forall c :: 0 <= c < n ==> ts[c] == Token(s.tier, scale(SamplePoint(s, frame, l, c)))
    ensures forall c :: 0 <= c < n ==> (ts[c] == [] <==> s.tier == NoColor)
    ensures forall c :: 0 <= c < n && ts[c] != [] ==> |ts[c]| >= 3 && ts[c][0] == Esc && ts[c][|ts[c]| - 1] == 'm'
  {
    seq(n, c requires 0 <= c < n => Token(s.tier, scale(SamplePoint(s, frame, l, c))))
  }

  /** Every character preceded by its token. */
  function Interleave(tokens: seq<string>, line: string): seq<string>
    requires |tokens| == |line|
  {
    seq(|line|, c requires 0 <= c < |line| => tokens[c] + [line[c]])
  }

  /** One line: its characters, each after the token of its colour, back to back. */
  function RenderLine(s: Settings, scale: Gradient, frame: nat, l: nat, line: string): (r: string)
    requires s.totalSteps != 0
    ensures s.tier == NoColor ==> r == line
  {
    var pieces := Interleave(Tokens(s, scale, frame, l, |line|), line);
    if s.tier == NoColor then
      InterleaveEmpty(Tokens(s, scale, frame, l, |line|), line, 0);
      assert pieces[0..] == pieces && line[0..] == line;
      Concat(pieces)
    else
      Concat(pieces)
  }

  /** The rendered lines of a text. */
  function RenderLines(s: Settings, scale: Gradient, frame: nat, lines: seq<string>): seq<string>
    requires s.totalSteps != 0
  {
    seq(|lines|, l requires 0 <= l < |lines| => RenderLine(s, scale, frame, l, lines[l]))
  }

  /** One call of the colouriser: split into lines, colour each, join them again, end with a newline. */
  function Render(s: Settings, scale: Gradient, frame: nat, text: string): (r: string)
    requires s.totalSteps != 0
    ensures |r| >= 1 && r[|r| - 1] == '\n'
  {
    Join(RenderLines(s, scale, frame, Split(text, '\n')), '\n') + "\n"
  }

  /** The null seed starts the wave at 0: the first character of the first call is sampled at position 0. */
  lemma NullSeedStartsAtZero(config: Config, entropy: bv32, colours: nat)
    requires ValidStep(OrElse(config.step, DefaultStep))
    requires config.seed == NoSeed
    ensures Resolve(config, entropy, colours).start == 0.0
    ensures SamplePoint(Resolve(config, entropy, colours), 0, 0, 0) == 0.0
  {
    var s := Resolve(config, entropy, colours);
    assert LineOffset(s, 0, 0) + 0 as real == 0.0;
    Wave.PositionAtZero(s.totalSteps);
  }

  /** The next call colours line `l` as this call colours line `l + 1`: the pattern scrolls by one line per call. */
  lemma RenderLineScrolls(s: Settings, scale: Gradient, frame: nat, l: nat, line: string)
    requires s.totalSteps != 0
    ensures RenderLine(s, scale, frame + 1, l, line) == RenderLine(s, scale, frame, l + 1, line)
  {
    assert LineOffset(s, frame + 1, l) == LineOffset(s, frame, l + 1);
    assert Tokens(s, scale, frame + 1, l, |line|) == Tokens(s, scale, frame, l + 1, |line|);
  }

  /** Along a line the colours repeat every two half periods. */
  lemma SamplePeriodic(s: Settings, frame: nat, l: nat, c: nat)
    requires s.totalSteps > 0
    ensures SamplePoint(s, frame, l, c + 2 * s.totalSteps) == SamplePoint(s, frame, l, c)
  {
    var o := LineOffset(s, frame, l) + c as real;
    Wave.PositionPeriodic(s.totalSteps, o, 1);
    assert o + (2 * 1) as real * s.totalSteps as real == LineOffset(s, frame, l) + (c + 2 * s.totalSteps) as real;
  }

  /** Neighbouring characters are sampled at most 1/|totalSteps| apart: the gradient is walked smoothly. */
  lemma SampleSmooth(s: Settings, frame: nat, l: nat, c: nat)
    requires s.totalSteps != 0
    ensures Wave.Abs(SamplePoint(s, frame, l, c + 1) - SamplePoint(s, frame, l, c)) <= 1.0 / Wave.Abs(s.totalSteps as real)
  {
    var o := LineOffset(s, frame, l) + c as real;
    assert o + 1.0 == LineOffset(s, frame, l) + (c + 1) as real;
    Wave.PositionLipschitz(s.totalSteps, o + 1.0, o);
    Wave.PhaseStep(s.totalSteps, o);
  }

  /** `t` shows on the terminal as `shown`, whatever follows it. */
  ghost predicate ShowsAs(t: string, shown: string) {
    forall x :: Erase(t + x) == shown + Erase(x)
  }

  /** `t` shows nothing on the terminal, whatever follows it. */
  ghost predicate Silent(t: string) {
    forall x :: Erase(t + x) == Erase(x)
  }

  /** A token shows nothing. */
  lemma TokenSilent(tier: Tier, colour: Rgb)
    ensures Silent(Token(tier, colour))
  {
    forall x
      ensures Erase(Token(tier, colour) + x) == Erase(x)
    {
      EraseToken(tier, colour, x);
    }
  }

  /** Characters interleaved with silent tokens show as the characters, from any position on. */
  lemma {:induction false} EraseInterleavedFrom(tokens: seq<string>, line: string, k: nat, rest: string)
    requires |tokens| == |line| && k <= |line|
    requires Esc !in line
    requires forall i :: 0 <= i < |tokens| ==> Silent(tokens[i])
    ensures Erase(Concat(Interleave(tokens, line)[k..]) + rest) == line[k..] + Erase(rest)
    decreases |line| - k
  {
    var pieces := Interleave(tokens, line);
    if k == |line| {
      assert pieces[k..] == [];
      assert Concat(pieces[k..]) + rest == rest;
      assert line[k..] == [];
    } else {
      var tail := Concat(pieces[k + 1..]) + rest;
      InterleaveStep(tokens, line, k, rest);
      assert Silent(tokens[k]);
      assert line[k] in line;
      EraseInterleavedFrom(tokens, line, k + 1, rest);
      ErasePiece(tokens[k], line[k], tail, line[k + 1..], rest);
      assert [line[k]] + line[k + 1..] == line[k..];
    }
  }

  /** A silent token followed by a character other than ESC shows as that character. */
  lemma ErasePiece(token: string, ch: char, tail: string, later: string, rest: string)
    requires ch != Esc
    requires Erase(token + ([ch] + tail)) == Erase([ch] + tail)
    requires Erase(tail) == later + Erase(rest)
    ensures Erase(token + ([ch] + tail)) == ([ch] + later) + Erase(rest)
  {
    ErasePlain(ch, tail);
  }

  /** The pieces from character `k` on: its token, the character, then the pieces from `k + 1` on. */
  lemma InterleaveStep(tokens: seq<string>, line: string, k: nat, rest: string)
    requires |tokens| == |line| && k < |line|
    ensures var pieces := Interleave(tokens, line);
      Concat(pieces[k..]) + rest == tokens[k] + ([line[k]] + (Concat(pieces[k + 1..]) + rest))
  {
    var pieces := Interleave(tokens, line);
    assert pieces[k..][1..] == pieces[k + 1..];
  }

  /** A coloured line shows as the line itself. */
  lemma EraseLine(s: Settings, scale: Gradient, frame: nat, l: nat, line: string)
    requires s.totalSteps != 0
    requires Esc !in line
    ensures ShowsAs(RenderLine(s, scale, frame, l, line), line)
  {
    var tokens := Tokens(s, scale, frame, l, |line|);
    forall i | 0 <= i < |tokens|
      ensures Silent(tokens[i])
    {
      TokenSilent(s.tier, scale(SamplePoint(s, frame, l, i)));
    }
    forall x
      ensures Erase(RenderLine(s, scale, frame, l, line) + x) == line + Erase(x)
    {
      EraseInterleavedFrom(tokens, line, 0, x);
      assert Interleave(tokens, line)[0..] == Interleave(tokens, line);
      assert line[0..] == line;
    }
  }

  /** Lines joined with newlines, each showing as a line of text: the joined text, from line `k` on. */
  lemma {:induction false} EraseJoinFrom(rs: seq<string>, lines: seq<string>, k: nat, rest: string)
    requires |rs| == |lines| && k < |lines|
    requires forall l :: 0 <= l < |lines| ==> ShowsAs(rs[l], lines[l])
    ensures Erase(Join(rs[k..], '\n') + rest) == Join(lines[k..], '\n') + Erase(rest)
    decreases |lines| - k
  {
    assert ShowsAs(rs[k], lines[k]);
    if k == |lines| - 1 {
      assert rs[k..] == [rs[k]];
      assert lines[k..] == [lines[k]];
    } else {
      EraseJoinFrom(rs, lines, k + 1, rest);
      var tail := Join(rs[k + 1..], '\n') + rest;
      JoinStep(rs, k, rest);
      assert Erase(rs[k] + (['\n'] + tail)) == lines[k] + Erase(['\n'] + tail);
      ErasePlain('\n', tail);
      JoinStep(lines, k, Erase(rest));
    }
  }

  /** A join from line `k` on is line `k`, a newline and the join from line `k + 1` on. */
  lemma JoinStep(lines: seq<string>, k: nat, rest: string)
    requires k + 1 < |lines|
    ensures Join(lines[k..], '\n') + rest == lines[k] + (['\n'] + (Join(lines[k + 1..], '\n') + rest))
  {
    assert lines[k..] == [lines[k]] + lines[k + 1..];
    JoinCons(lines[k], lines[k + 1..], '\n');
  }

  /**
   * Taking the tokens out of the output leaves exactly the input followed by
   * one newline (for a text that holds no ESC of its own).
   */
  lemma RenderShowsText(s: Settings, scale: Gradient, frame: nat, text: string)
    requires s.totalSteps != 0
    requires Esc !in text
    ensures Erase(Render(s, scale, frame, text)) == text + "\n"
  {
    var lines := Split(text, '\n');
    var rs := RenderLines(s, scale, frame, lines);
    JoinSplit(text, '\n');
    forall l | 0 <= l < |lines|
      ensures Esc !in lines[l]
    {
      JoinHasParts(lines, '\n', l);
    }
    forall l | 0 <= l < |lines|
      ensures ShowsAs(rs[l], lines[l])
    {
      EraseLine(s, scale, frame, l, lines[l]);
    }
    EraseJoinFrom(rs, lines, 0, "\n");
    assert rs[0..] == rs;
    assert lines[0..] == lines;
    EraseNoEsc("\n");
  }

  /** Every piece of a join occurs in it. */
  lemma {:induction false} JoinHasParts(parts: seq<string>, sep: char, l: nat)
    requires l < |parts|
    ensures forall i :: 0 <= i < |parts[l]| ==> parts[l][i] in Join(parts, sep)
  {
    if |parts| > 1 {
      JoinCons(parts[0], parts[1..], sep);
      assert [parts[0]] + parts[1..] == parts;
      if l > 0 {
        JoinHasParts(parts[1..], sep, l - 1);
      }
    }
  }

  /** Characters interleaved with empty tokens are the characters, from any position on. */
  lemma {:induction false} InterleaveEmpty(tokens: seq<string>, line: string, k: nat)
    requires |tokens| == |line| && k <= |line|
    requires forall i :: 0 <= i < |tokens| ==> tokens[i] == []
    ensures Concat(Interleave(tokens, line)[k..]) == line[k..]
    decreases |line| - k
  {
    var pieces := Interleave(tokens, line);
    if k < |line| {
      InterleaveEmpty(tokens, line, k + 1);
      assert pieces[k..][1..] == pieces[k + 1..];
      assert pieces[k] == [line[k]];
      assert [line[k]] + line[k + 1..] == line[k..];
    } else {
      assert pieces[k..] == [];
    }
  }

  /** Without colour the output is the input plus a newline, character for character. */
  lemma RenderNoColor(s: Settings, scale: Gradient, frame: nat, text: string)
    requires s.totalSteps != 0
    requires s.tier == NoColor
    ensures Render(s, scale, frame, text) == text + "\n"
  {
    var lines := Split(text, '\n');
    var rs := RenderLines(s, scale, frame, lines);
    assert rs == lines;
    JoinSplit(text, '\n');
  }

  /** The empty text renders as a lone newline. */
  lemma RenderEmpty(s: Settings, scale: Gradient, frame: nat)
    requires s.totalSteps != 0
    ensures Render(s, scale, frame, "") == "\n"
  {
    assert Split("", '\n') == [""];
    var rs := RenderLines(s, scale, frame, [""]);
    assert rs[0] == RenderLine(s, scale, frame, 0, "") == [];
  }

  /** The seed word as the program computes it: the random word, none, or the table-driven CRC-32 of the seed bytes. */
  method HashSeed(seed: SeedSetting, entropy: bv32) returns (word: Option<bv32>)
    ensures word == SeedWord(seed, entropy)
  {
    match seed {
      case Unset =>
        word := Some(entropy);
      case NoSeed =>
        word := None;
      case Phrase(utf8) =>
        var table := Crc32.BuildTable();
        var crc := Crc32.Crc32(table, utf8, 0);
        word := Some(crc);
    }
  }

  /** The start phase as the program computes it: 0, or the mixer's draw times the half period. */
  method DrawStart(word: Option<bv32>, total: int) returns (start: real)
    ensures start == StartPhase(word, total)
  {
    start := 0.0;
    if word.Some? {
      var phase := Prng.Random(word.value);
      start := Scale(phase, total);
    }
  }

  /** The closure `getFrameColorizer` returns: resolved settings, a gradient and the mutable frame counter. */
  class FrameColorizer {
    const settings: Settings
    const scale: Gradient
    var frame: nat

    /**
     * `getFrameColorizer(config)`: resolves the options, hashes a seed string
     * with the table-driven CRC-32 and draws the start phase from the mixer.
     * `gradient` stands for the colour library building a scale from stops
     * and mode.
     */
    constructor (config: Config, entropy: bv32, colours: nat, gradient: (seq<string>, string) -> Gradient)
      requires ValidStep(OrElse(config.step, DefaultStep))
      ensures settings == Resolve(config, entropy, colours)
      ensures scale == gradient(settings.stops, settings.mode)
      ensures frame == 0
    {
      var total := TotalSteps(OrElse(config.step, DefaultStep));
      var word := HashSeed(config.seed, entropy);
      var start := DrawStart(word, total);
      var mode := OrElse(config.mode, DefaultMode);
      var stops := OrElse(config.stops, DefaultStops);
      settings := Settings(mode, stops, total, start,
        OrElse(config.stagger, DefaultStagger),
        SelectTier(OrElse(config.forceTrueRGB, false), colours));
      scale := gradient(stops, mode);
      frame := 0;
    }

    /** One call: renders with the current frame number, then advances it by one. */
    method Colorize(text: string) returns (output: string)
      requires settings.totalSteps != 0
      modifies this
      ensures output == Render(settings, scale, old(frame), text)
      ensures frame == old(frame) + 1
    {
      output := Render(settings, scale, frame, text);
      frame := frame + 1;
    }
  }

  /**
   * Two colourisers built from the same configuration with a seed (string
   * or null), whatever random words they are handed, print the same output
   * for the same sequence of texts, call for call.
   */
  method Replay(config: Config, e1: bv32, e2: bv32, colours: nat, gradient: (seq<string>, string) -> Gradient, texts: seq<string>)
    returns (outputs1: seq<string>, outputs2: seq<string>)
    requires ValidStep(OrElse(config.step, DefaultStep))
    requires !config.seed.Unset?
    ensures |outputs1| == |texts| && outputs1 == outputs2
  {
    ResolveReproducible(config, e1, e2, colours);
    var a := new FrameColorizer(config, e1, colours, gradient);
    var b := new FrameColorizer(config, e2, colours, gradient);
    outputs1, outputs2 := [], [];
    for i := 0 to |texts|
      invariant a.settings == b.settings && a.scale == b.scale && a.settings.totalSteps != 0
      invariant a.frame == b.frame == i
      invariant |outputs1| == i && outputs1 == outputs2
    {
      var x := a.Colorize(texts[i]);
      var y := b.Colorize(texts[i]);
      outputs1, outputs2 := outputs1 + [x], outputs2 + [y];
    }
  }
}
