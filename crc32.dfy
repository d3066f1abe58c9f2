/**
 * CRC-32 (ISO/IEC 3309, IEEE 802.3 clause 3.2.9): reflected generator
 * polynomial 0xEDB88320, register preset to all ones and complemented on
 * output. The colouriser uses it once, to turn a textual seed (its UTF-8
 * bytes) into a 32-bit seed word. All arithmetic is on `bv32`, which is the
 * modulo-2^32 behaviour of the JavaScript bit operators involved.
 *
 * The solver copes with bit-vector identities on their own but poorly while
 * it is also unfolding function definitions, so the table index and the
 * complement are named functions and the proofs that chain definitions never
 * have to reason about bits.
 */
module Crc32 {

  /** One bit step of the division: shift right, folding in the reflected polynomial when the low bit was set. */
  function Shift1(c: bv32): bv32 {
    ((c & 1) * 0xEDB8_8320) ^ (c >> 1)
  }

  /** `c` after `k` bit steps. */
  function Shifted(c: bv32, k: nat): bv32 {
    if k == 0 then c else Shift1(Shifted(c, k - 1))
  }

  /** Entry `n` of the lookup table: the byte `n` pushed through eight bit steps. */
  function TableEntry(n: bv8): (r: bv32)
    ensures r == 0 <==> n == 0
  {
    EightShifts(n as bv32);
    Shifted(n as bv32, 8)
  }

  /** Eight bit steps never clear a non-zero byte: the polynomial's top bit is set. */
  lemma EightShifts(c: bv32)
    requires c < 0x100
    ensures Shifted(c, 8) == 0 <==> c == 0
  {
    var c1 := Shift1(c);
    var c2 := Shift1(c1);
    var c3 := Shift1(c2);
    var c4 := Shift1(c3);
    var c5 := Shift1(c4);
    var c6 := Shift1(c5);
    var c7 := Shift1(c6);
    assert Shifted(c, 1) == c1 && Shifted(c, 2) == c2 && Shifted(c, 3) == c3 && Shifted(c, 4) == c4;
    assert Shifted(c, 5) == c5 && Shifted(c, 6) == c6 && Shifted(c, 7) == c7;
    assert Shifted(c, 8) == Shift1(c7);
  }

  /** `table` holds the 256 entries of the lookup table. */
  ghost predicate IsCrcTable(table: array<bv32>)
    reads table
  {
    table.Length == 256 && forall n: bv8 :: table[n as int] == TableEntry(n)
  }

  /** Builds the lookup table: for every index, eight bit steps on a local register. */
  method BuildTable() returns (table: array<bv32>)
    ensures fresh(table) && IsCrcTable(table)
  {
    table := new bv32[256];
    for n := 0 to 256
      invariant forall m :: 0 <= m < n ==> table[m] == TableEntry(m as bv8)
    {
      var c: bv32 := n as bv32;
      for k := 0 to 8
        invariant c == Shifted(n as bv32, k)
      {
        c := ((c & 1) * 0xEDB8_8320) ^ (c >> 1);
      }
      table[n] := c;
    }
    forall m: bv8
      ensures table[m as int] == TableEntry(m)
    {
      assert 0 <= m as int < 256;
    }
  }

  /** The table slot selected by the next byte: the low byte of the register xor the data byte. */
  function Index(reg: bv32, b: bv8): bv8 {
    ((reg ^ b as bv32) & 0xFF) as bv8
  }

  /** One table-driven byte step of the register. */
  function TableStep(reg: bv32, b: bv8): bv32 {
    (reg >> 8) ^ TableEntry(Index(reg, b))
  }

  /** The register after feeding `data` into it, byte by byte. */
  function Update(reg: bv32, data: seq<bv8>): bv32 {
    if data == [] then reg
    else TableStep(Update(reg, data[..|data| - 1]), data[|data| - 1])
  }

  /** Complement of the register, written as the xor with all ones. */
  function Invert(x: bv32): bv32 {
    x ^ 0xFFFF_FFFF
  }

  lemma InvertInvert(x: bv32)
    ensures Invert(Invert(x)) == x
  {
  }

  /** The CRC-32 of `data`, continuing from the earlier checksum `crc` (0 for a fresh one). */
  function Crc(data: seq<bv8>, crc: bv32): (r: bv32)
    ensures data == [] ==> r == crc
  {
    InvertInvert(crc);
    Invert(Update(Invert(crc), data))
  }

  lemma UpdateSnoc(reg: bv32, data: seq<bv8>, i: nat)
    requires i < |data|
    ensures Update(reg, data[..i + 1]) == TableStep(Update(reg, data[..i]), data[i])
  {
    assert data[..i + 1][..i] == data[..i];
  }

  /** The byte loop of the checksum: one table step per byte. */
  method UpdateLoop(table: array<bv32>, start: bv32, data: seq<bv8>) returns (reg: bv32)
    requires IsCrcTable(table)
    ensures reg == Update(start, data)
  {
    reg := start;
    for i := 0 to |data|
      invariant reg == Update(start, data[..i])
    {
      var index := Index(reg, data[i]);
      UpdateSnoc(start, data, i);
      reg := (reg >> 8) ^ table[index as int];
    }
    assert data[..|data|] == data;
  }

  /** The checksum: complement, the byte loop, complement. */
  method Crc32(table: array<bv32>, data: seq<bv8>, crc: bv32) returns (r: bv32)
    requires IsCrcTable(table)
    ensures r == Crc(data, crc)
  {
    var reg := UpdateLoop(table, crc ^ 0xFFFF_FFFF, data);
    r := reg ^ 0xFFFF_FFFF;
  }

  lemma {:induction false} UpdateAppend(reg: bv32, a: seq<bv8>, b: seq<bv8>)
    ensures Update(reg, a + b) == Update(Update(reg, a), b)
  {
    if b == [] {
      assert a + b == a;
    } else {
      var ab := a + b;
      assert ab[..|ab| - 1] == a + b[..|b| - 1];
      assert ab[|ab| - 1] == b[|b| - 1];
      UpdateAppend(reg, a, b[..|b| - 1]);
    }
  }

  /** Checksumming `a ++ b` is checksumming `b` starting from the checksum of `a`. */
  lemma CrcChain(a: seq<bv8>, b: seq<bv8>, crc: bv32)
    ensures Crc(a + b, crc) == Crc(b, Crc(a, crc))
  {
    InvertInvert(Update(Invert(crc), a));
    UpdateAppend(Invert(crc), a, b);
  }

  lemma CheckEntries()
    ensures TableEntry(0xCE) == 0x7CDC_EFB7 && TableEntry(0x7A) == 0xB0D0_9822
    ensures TableEntry(0x01) == 0x7707_3096 && TableEntry(0x19) == 0x646B_A8C0
    ensures TableEntry(0x69) == 0x346E_D9FC && TableEntry(0xD5) == 0xF6B9_265B
    ensures TableEntry(0xA9) == 0xAF0A_1B4C && TableEntry(0x58) == 0x65B0_D9C6
  {
    assert Shifted(0xCE, 8) == 0x7CDC_EFB7;
    assert Shifted(0x7A, 8) == 0xB0D0_9822;
    assert Shifted(0x01, 8) == 0x7707_3096;
    assert Shifted(0x19, 8) == 0x646B_A8C0;
    assert Shifted(0x69, 8) == 0x346E_D9FC;
    assert Shifted(0xD5, 8) == 0xF6B9_265B;
    assert Shifted(0xA9, 8) == 0xAF0A_1B4C;
    assert Shifted(0x58, 8) == 0x65B0_D9C6;
  }

  lemma CheckSteps()
    ensures TableStep(0xFFFF_FFFF, 0x31) == 0x7C23_1048
    ensures TableStep(0x7C23_1048, 0x32) == 0xB0AC_BB32
    ensures TableStep(0xB0AC_BB32, 0x33) == 0x77B7_9C2D
    ensures TableStep(0x77B7_9C2D, 0x34) == 0x641C_1F5C
    ensures TableStep(0x641C_1F5C, 0x35) == 0x340A_C5E3
    ensures TableStep(0x340A_C5E3, 0x36) == 0xF68D_2C9E
    ensures TableStep(0xF68D_2C9E, 0x37) == 0xAFFC_9660
    ensures TableStep(0xAFFC_9660, 0x38) == 0x651F_2550
    ensures TableStep(0x651F_2550, 0x39) == 0x340B_C6D9
  {
    CheckEntries();
  }

  /** The ASCII digits "123456789" and the register after each of them. */
  const CheckData: seq<bv8> := [0x31, 0x32, 0x33, 0x34, 0x35, 0x36, 0x37, 0x38, 0x39]
  const CheckRegisters: seq<bv32> := [0xFFFF_FFFF, 0x7C23_1048, 0xB0AC_BB32, 0x77B7_9C2D, 0x641C_1F5C,
                                      0x340A_C5E3, 0xF68D_2C9E, 0xAFFC_9660, 0x651F_2550, 0x340B_C6D9]

  lemma CheckStep(i: nat)
    requires i < 9
    ensures TableStep(CheckRegisters[i], CheckData[i]) == CheckRegisters[i + 1]
  {
    CheckSteps();
  }

  /** The standard check value: CRC-32 of the ASCII digits "123456789" is 0xCBF43926. */
  lemma CheckValue()
    ensures Crc(CheckData, 0) == 0xCBF4_3926
  {
    for i := 0 to 9
      invariant Update(0xFFFF_FFFF, CheckData[..i]) == CheckRegisters[i]
    {
      CheckStep(i);
      UpdateSnoc(0xFFFF_FFFF, CheckData, i);
    }
    assert CheckData[..9] == CheckData;
    assert Invert(0) == 0xFFFF_FFFF;
    assert Invert(0x340B_C6D9) == 0xCBF4_3926;
  }
}
