/**
 * SELECT GRAPHIC RENDITION control sequences (ECMA-48, section 8.3.117):
 * CSI, the parameters as decimal numerals separated by `;`, then the final
 * byte `m`. CSI is written in its 7-bit form ESC `[` (ECMA-48, section 5.4).
 * `Erase` is what remains of a text once every complete SGR sequence is
 * taken out of it, that is, the graphic characters a terminal shows.
 */
module Sgr {
  import opened Strings

  const Esc: char := '\U{1B}'

  /** The parameter string: the numerals joined with `;`. */
  function Params(ps: seq<nat>): string {
    Join(Numerals(ps), ';')
  }

  function Numerals(ps: seq<nat>): seq<string> {
    seq(|ps|, i requires 0 <= i < |ps| => Decimal(ps[i]))
  }

  /** The control sequence selecting the renditions `ps`: CSI, then only digits and separators, then the final byte. */
  function SgrSequence(ps: seq<nat>): (r: string)
    ensures |r| >= 3 && r[0] == Esc && r[1] == '[' && r[|r| - 1] == 'm'
    ensures forall i :: 2 <= i < |r| - 1 ==> IsParamChar(r[i])
  {
    ParamsAreParamChars(ps);
    [Esc, '['] + Params(ps) + ['m']
  }

  predicate IsParamChar(c: char) {
    IsDigit(c) || c == ';'
  }

  /** The length of the longest prefix of `s` made of parameter characters. */
  function ParamRun(s: string): (n: nat)
    ensures n <= |s|
    ensures forall i :: 0 <= i < n ==> IsParamChar(s[i])
    ensures n < |s| ==> !IsParamChar(s[n])
  {
    if s == [] || !IsParamChar(s[0]) then 0 else 1 + ParamRun(s[1..])
  }

  /** Every value of a list of pieces as a numeral, or `None` if some piece is not one. */
  function ParseAll(pieces: seq<string>): Option<seq<nat>> {
    if pieces == [] then Some([])
    else match (ParseDecimal(pieces[0]), ParseAll(pieces[1..]))
      case (Some(v), Some(vs)) => Some([v] + vs)
      case _ => None
  }

  /** Reads a whole SGR sequence back into its parameter values. */
  function ParseSgr(s: string): Option<seq<nat>> {
    if |s| >= 3 && s[0] == Esc && s[1] == '[' && s[|s| - 1] == 'm' then
      ParseAll(Split(s[2..|s| - 1], ';'))
    else None
  }

  lemma {:induction false} ParseAllNumerals(ps: seq<nat>)
    ensures ParseAll(Numerals(ps)) == Some(ps)
  {
    if ps != [] {
      ParseDecimalOfDecimal(ps[0]);
      ParseAllNumerals(ps[1..]);
      assert Numerals(ps)[1..] == Numerals(ps[1..]);
      assert [ps[0]] + ps[1..] == ps;
    }
  }

  /** The parameter string holds digits and separators only. */
  lemma {:induction false} ParamsAreParamChars(ps: seq<nat>)
    ensures forall i :: 0 <= i < |Params(ps)| ==> IsParamChar(Params(ps)[i])
  {
    var ns := Numerals(ps);
    if |ns| >= 2 {
      ParamsAreParamChars(ps[1..]);
      assert ns[1..] == Numerals(ps[1..]);
      assert Params(ps) == ns[0] + [';'] + Params(ps[1..]);
    }
  }

  /** A sequence with at least one parameter decodes to exactly its parameters. */
  lemma SgrRoundTrip(ps: seq<nat>)
    requires |ps| >= 1
    ensures ParseSgr(SgrSequence(ps)) == Some(ps)
  {
    var s := SgrSequence(ps);
    var ns := Numerals(ps);
    assert s[2..|s| - 1] == Params(ps);
    forall i | 0 <= i < |ns|
      ensures ';' !in ns[i]
    {
      assert forall j :: 0 <= j < |ns[i]| ==> IsDigit(ns[i][j]);
    }
    SplitJoin(ns, ';');
    ParseAllNumerals(ps);
  }

  /** The text with every complete SGR sequence removed. */
  function Erase(s: string): string
    decreases |s|
  {
    if s == [] then []
    else if |s| >= 2 && s[0] == Esc && s[1] == '[' && 2 + ParamRun(s[2..]) < |s| && s[2 + ParamRun(s[2..])] == 'm' then
      Erase(s[3 + ParamRun(s[2..])..])
    else [s[0]] + Erase(s[1..])
  }

  /** An SGR sequence shows nothing. */
  lemma EraseSgr(ps: seq<nat>, rest: string)
    ensures Erase(SgrSequence(ps) + rest) == Erase(rest)
  {
    var p := Params(ps);
    var s := SgrSequence(ps) + rest;
    ParamsAreParamChars(ps);
    assert s[2..] == p + (['m'] + rest);
    assert ParamRun(s[2..]) == |p| by {
      ParamRunPrefix(p, ['m'] + rest);
    }
    assert s[3 + |p|..] == rest;
  }

  lemma {:induction false} ParamRunPrefix(p: string, t: string)
    requires forall i :: 0 <= i < |p| ==> IsParamChar(p[i])
    requires t != [] && !IsParamChar(t[0])
    ensures ParamRun(p + t) == |p|
  {
    if p != [] {
      assert (p + t)[1..] == p[1..] + t;
      ParamRunPrefix(p[1..], t);
    } else {
      assert p + t == t;
    }
  }

  /** A character other than ESC is shown as it is. */
  lemma ErasePlain(c: char, rest: string)
    requires c != Esc
    ensures Erase([c] + rest) == [c] + Erase(rest)
  {
    assert ([c] + rest)[1..] == rest;
  }

  /** A text without ESC is shown unchanged. */
  lemma {:induction false} EraseNoEsc(s: string)
    requires Esc !in s
    ensures Erase(s) == s
  {
    if s != [] {
      EraseNoEsc(s[1..]);
      ErasePlain(s[0], s[1..]);
      assert [s[0]] + s[1..] == s;
    }
  }

  /** Showing a concatenation of pieces with no ESC in the first one: the first piece, then the rest shown. */
  lemma {:induction false} EraseAppendPlain(a: string, b: string)
    requires Esc !in a
    ensures Erase(a + b) == a + Erase(b)
  {
    if a != [] {
      EraseAppendPlain(a[1..], b);
      assert a + b == [a[0]] + (a[1..] + b);
      ErasePlain(a[0], a[1..] + b);
      assert [a[0]] + (a[1..] + Erase(b)) == a + Erase(b);
    } else {
      assert a + b == b;
    }
  }
}
