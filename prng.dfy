/**
 * The one-shot integer mixer (the output function of mulberry32) that turns
 * the 32-bit seed word into a phase in [0, 1). Every JavaScript operation it
 * uses (`+`, `Math.imul`, `^`, `>>>`, `|`) works on the value reduced modulo
 * 2^32, so the whole computation is `bv32` arithmetic; only the final
 * division leaves the integers.
 */
module Prng {

  /** 2^32, the number of distinct seed words. */
  const Two32: int := 0x1_0000_0000

  /** The first multiply-xorshift round. */
  function Round1(t: bv32): bv32 {
    (t ^ (t >> 15)) * (t | 1)
  }

  /** The second round, which xors the word with its own mixed sum. */
  function Round2(t: bv32): bv32 {
    t ^ (t + (t ^ (t >> 7)) * (t | 61))
  }

  /** The final xorshift. */
  function Finish(t: bv32): bv32 {
    t ^ (t >> 14)
  }

  /**
   * The mixed word: additive constant, then the two rounds, then the final
   * xorshift. The two reference outputs (seed 0, and the CRC-32 of
   * "123456789") are those of mulberry32's first draw.
   */
  function Mix(x: bv32): (r: bv32)
    ensures x == 0 ==> r == 0x4434_B462
    ensures x == 0xCBF4_3926 ==> r == 0xE0EF_493E
  {
    Finish(Round2(Round1(x + 0x6D2B_79F5)))
  }

  /** The phase a mixed word stands for: the word divided by 2^32. */
  function Fraction(k: bv32): (r: real)
    ensures 0.0 <= r < 1.0
    ensures r * Two32 as real == k as int as real
  {
    k as int as real / Two32 as real
  }

  /** The phase `random` draws for a seed word. */
  function Draw(x: bv32): (r: real)
    ensures 0.0 <= r < 1.0
  {
    Fraction(Mix(x))
  }

  /** `random(x)`: reassigns one 32-bit variable round by round, then scales the word into [0, 1). */
  method Random(x: bv32) returns (r: real)
    ensures r == Draw(x)
  {
    var t := x + 0x6D2B_79F5;
    t := Round1(t);
    t := Round2(t);
    t := Finish(t);
    r := Fraction(t);
  }
}
