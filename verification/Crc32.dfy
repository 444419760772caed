/** The CRC that ends a PNG chunk (section 3.4 of RFC 2083): its bit-at-a-time definition, and the
    table-driven form that computes it. */
module Crc32 {
  import opened BigEndian

  type Word = bv32

  const POLYNOMIAL: Word := 0xEDB88320

  // ---- the definition ----

  function Xor(a: Word, b: Word): Word {
    a ^ b
  }

  /** One step of the reflected shift register. */
  function Shift(c: Word): Word {
    if c & 1 != 0 then Xor(POLYNOMIAL, c >> 1) else c >> 1
  }

  function Shifts(c: Word, k: nat): Word {
    if k == 0 then c else Shift(Shifts(c, k - 1))
  }

  /** Bit `i` of a byte, the least significant first. */
  function Bit(b: Byte, i: nat): Word
    requires i < 8
  {
    (if i == 0 then b & 1
     else if i == 1 then (b >> 1) & 1
     else if i == 2 then (b >> 2) & 1
     else if i == 3 then (b >> 3) & 1
     else if i == 4 then (b >> 4) & 1
     else if i == 5 then (b >> 5) & 1
     else if i == 6 then (b >> 6) & 1
     else (b >> 7) & 1) as Word
  }

  /** The register after the first `k` bits of a byte have been shifted in. */
  function BitsIn(c: Word, b: Byte, k: nat): Word
    requires k <= 8
  {
    if k == 0 then c else Shift(Xor(BitsIn(c, b, k - 1), Bit(b, k - 1)))
  }

  function Register(c: Word, data: Bytes): Word {
    if data == [] then c else BitsIn(Register(c, data[..|data| - 1]), data[|data| - 1], 8)
  }

  /** The CRC of a byte string, one bit at a time. */
  function Crc(data: Bytes): Word {
    Xor(Register(0xFFFF_FFFF, data), 0xFFFF_FFFF)
  }

  // ---- linearity ----

  lemma BothEven(a: Word, b: Word)
    requires a & 1 == 0 && b & 1 == 0
    ensures (a ^ b) & 1 == 0 && (a ^ b) >> 1 == (a >> 1) ^ (b >> 1)
  {
  }

  lemma SecondOdd(p: Word, a: Word, b: Word)
    requires a & 1 == 0 && b & 1 == 1
    ensures (a ^ b) & 1 == 1 && p ^ ((a ^ b) >> 1) == (a >> 1) ^ (p ^ (b >> 1))
  {
  }

  lemma FirstOdd(p: Word, a: Word, b: Word)
    requires a & 1 == 1 && b & 1 == 0
    ensures (a ^ b) & 1 == 1 && p ^ ((a ^ b) >> 1) == (p ^ (a >> 1)) ^ (b >> 1)
  {
  }

  lemma BothOdd(p: Word, a: Word, b: Word)
    requires a & 1 == 1 && b & 1 == 1
    ensures (a ^ b) & 1 == 0 && (a ^ b) >> 1 == (p ^ (a >> 1)) ^ (p ^ (b >> 1))
  {
  }

  lemma LowBit(a: Word)
    ensures a & 1 == 0 || a & 1 == 1
  {
  }

  lemma ShiftLinear(a: Word, b: Word)
    ensures Shift(Xor(a, b)) == Xor(Shift(a), Shift(b))
  {
    LowBit(a);
    LowBit(b);
    if a & 1 == 0 {
      if b & 1 == 0 { BothEven(a, b); } else { SecondOdd(POLYNOMIAL, a, b); }
    } else {
      if b & 1 == 0 { FirstOdd(POLYNOMIAL, a, b); } else { BothOdd(POLYNOMIAL, a, b); }
    }
  }

  lemma {:induction false} ShiftsLinear(a: Word, b: Word, k: nat)
    ensures Shifts(Xor(a, b), k) == Xor(Shifts(a, k), Shifts(b, k))
  {
    hide Shift, Xor;
    if k > 0 {
      ShiftsLinear(a, b, k - 1);
      ShiftLinear(Shifts(a, k - 1), Shifts(b, k - 1));
    }
  }

  // ---- bits that only move down ----

  /** `g << k` for the few shifts needed. */
  function Up(g: Word, k: nat): Word
    requires k <= 8
  {
    if k == 0 then g else if k == 1 then g << 1 else if k == 2 then g << 2
    else if k == 3 then g << 3 else if k == 4 then g << 4 else if k == 5 then g << 5
    else if k == 6 then g << 6 else if k == 7 then g << 7 else g << 8
  }

  lemma UpStep1(g: Word)
    ensures Up(g, 1) == Up(g, 0) << 1
  {
  }

  lemma UpStep2(g: Word)
    ensures Up(g, 2) == Up(g, 1) << 1
  {
  }

  lemma UpStep3(g: Word)
    ensures Up(g, 3) == Up(g, 2) << 1
  {
  }

  lemma UpStep4(g: Word)
    ensures Up(g, 4) == Up(g, 3) << 1
  {
  }

  lemma UpStep5(g: Word)
    ensures Up(g, 5) == Up(g, 4) << 1
  {
  }

  lemma UpStep6(g: Word)
    ensures Up(g, 6) == Up(g, 5) << 1
  {
  }

  lemma UpStep7(g: Word)
    ensures Up(g, 7) == Up(g, 6) << 1
  {
  }

  lemma UpStep8(g: Word)
    ensures Up(g, 8) == Up(g, 7) << 1
  {
  }

  lemma UpStep(g: Word, k: nat)
    requires 1 <= k <= 8
    ensures Up(g, k) == Up(g, k - 1) << 1
  {
    hide Up;
    if k == 1 { UpStep1(g); } else if k == 2 { UpStep2(g); } else if k == 3 { UpStep3(g); }
    else if k == 4 { UpStep4(g); } else if k == 5 { UpStep5(g); } else if k == 6 { UpStep6(g); }
    else if k == 7 { UpStep7(g); } else { UpStep8(g); }
  }

  lemma UpBound(g: Word, k: nat)
    requires g < 0x100_0000 && k < 8
    ensures Up(g, k) < 0x8000_0000
  {
  }

  lemma ShiftUndoesDouble(g: Word)
    requires g < 0x8000_0000
    ensures Shift(g << 1) == g
  {
  }

  lemma {:induction false} FirstShift(c: Word, k: nat)
    ensures Shifts(c, k + 1) == Shifts(Shift(c), k)
  {
    hide Shift;
    if k > 0 { FirstShift(c, k - 1); }
  }

  lemma {:induction false} UpThenShifts(g: Word, k: nat)
    requires g < 0x100_0000 && k <= 8
    ensures Shifts(Up(g, k), k) == g
  {
    if k > 0 {
      UpBound(g, k - 1);
      UpStep(g, k);
      ShiftUndoesDouble(Up(g, k - 1));
      FirstShift(Up(g, k), k - 1);
      hide Shift, Up;
      UpThenShifts(g, k - 1);
    }
  }

  /** A register whose low byte is clear only moves down in eight steps. */
  lemma HighBytesMoveDown(c: Word)
    ensures Shifts(High(c), 8) == Down(c)
  {
    var g := c >> 8;
    DownAndUp(c, g);
    UpThenShifts(g, 8);
  }

  lemma DownAndUp(c: Word, g: Word)
    requires g == c >> 8
    ensures g < 0x100_0000 && g << 8 == c & 0xFFFF_FF00
  {
  }

  // ---- a byte at a time ----

  function Mask(k: nat): Byte
    requires k <= 8
  {
    if k == 0 then 0 else if k == 1 then 1 else if k == 2 then 3 else if k == 3 then 7
    else if k == 4 then 15 else if k == 5 then 31 else if k == 6 then 63 else if k == 7 then 127 else 255
  }

  /** The low `k` bits of a byte. */
  function LowBits(b: Byte, k: nat): Word
    requires k <= 8
  {
    (b & Mask(k)) as Word
  }

  lemma OneMoreBit1(b: Byte)
    ensures LowBits(b, 1) == Xor(LowBits(b, 0), Up(Bit(b, 0), 0))
  {
  }

  lemma OneMoreBit2(b: Byte)
    ensures LowBits(b, 2) == Xor(LowBits(b, 1), Up(Bit(b, 1), 1))
  {
  }

  lemma OneMoreBit3(b: Byte)
    ensures LowBits(b, 3) == Xor(LowBits(b, 2), Up(Bit(b, 2), 2))
  {
  }

  lemma OneMoreBit4(b: Byte)
    ensures LowBits(b, 4) == Xor(LowBits(b, 3), Up(Bit(b, 3), 3))
  {
  }

  lemma OneMoreBit5(b: Byte)
    ensures LowBits(b, 5) == Xor(LowBits(b, 4), Up(Bit(b, 4), 4))
  {
  }

  lemma OneMoreBit6(b: Byte)
    ensures LowBits(b, 6) == Xor(LowBits(b, 5), Up(Bit(b, 5), 5))
  {
  }

  lemma OneMoreBit7(b: Byte)
    ensures LowBits(b, 7) == Xor(LowBits(b, 6), Up(Bit(b, 6), 6))
  {
  }

  lemma OneMoreBit8(b: Byte)
    ensures LowBits(b, 8) == Xor(LowBits(b, 7), Up(Bit(b, 7), 7))
  {
  }

  lemma OneMoreBit(b: Byte, k: nat)
    requires 1 <= k <= 8
    ensures LowBits(b, k) == Xor(LowBits(b, k - 1), Up(Bit(b, k - 1), k - 1))
  {
    hide LowBits, Xor, Up, Bit;
    if k == 1 { OneMoreBit1(b); } else if k == 2 { OneMoreBit2(b); } else if k == 3 { OneMoreBit3(b); }
    else if k == 4 { OneMoreBit4(b); } else if k == 5 { OneMoreBit5(b); } else if k == 6 { OneMoreBit6(b); }
    else if k == 7 { OneMoreBit7(b); } else { OneMoreBit8(b); }
  }

  lemma EndBits(b: Byte)
    ensures LowBits(b, 0) == 0 && LowBits(b, 8) == b as Word
  {
  }

  lemma BitIsSmall(b: Byte, i: nat)
    requires i < 8
    ensures Bit(b, i) < 0x100_0000
  {
  }

  lemma XorAssociates(a: Word, b: Word, c: Word)
    ensures Xor(Xor(a, b), c) == Xor(a, Xor(b, c))
    ensures Xor(a, 0) == a
  {
  }

  /** Shifting bits in one by one is mixing them all in and then shifting. */
  lemma {:induction false} BitsAtOnce(c: Word, b: Byte, k: nat)
    requires k <= 8
    ensures BitsIn(c, b, k) == Shifts(Xor(c, LowBits(b, k)), k)
  {
    hide Shift, Xor, Bit;
    if k == 0 {
      XorAssociates(c, 0, 0);
    } else {
      var lo, bit := LowBits(b, k - 1), Bit(b, k - 1);
      BitsAtOnce(c, b, k - 1);
      BitIsSmall(b, k - 1);
      OneMoreBit(b, k);
      hide LowBits;
      UpThenShifts(bit, k - 1);
      ShiftsLinear(Xor(c, lo), Up(bit, k - 1), k - 1);
      XorAssociates(c, lo, Up(bit, k - 1));
    }
  }

  lemma ByteAtOnce(c: Word, b: Byte)
    ensures BitsIn(c, b, 8) == Shifts(Xor(c, b as Word), 8)
  {
    BitsAtOnce(c, b, 8);
    EndBits(b);
  }

  /** What the table holds at one byte value. */
  function Entry(n: nat): Word
    requires n < 256
  {
    Shifts(n as Byte as Word, 8)
  }

  lemma ByteIndex(b: Byte)
    ensures 0 <= b as nat < 256 && Entry(b as nat) == Shifts(b as Word, 8)
  {
    ByteThere(b);
    hide Shifts;
  }

  lemma ByteThere(b: Byte)
    ensures 0 <= b as nat < 256 && (b as nat) as Byte == b
  {
  }

  /** The table index of a register and an input byte. */
  function Index(c: Word, b: Byte): Byte {
    ((c ^ b as Word) & 0xFF) as Byte
  }

  function Low(x: Word): Word { x & 0xFF }
  function High(x: Word): Word { x & 0xFFFF_FF00 }
  function Down(x: Word): Word { x >> 8 }

  lemma LowHigh(x: Word)
    ensures x == (x & 0xFF) ^ (x & 0xFFFF_FF00)
  {
  }

  lemma ByteStaysLow(c: Word, b: Byte)
    ensures (c ^ b as Word) >> 8 == c >> 8
  {
  }

  lemma IndexIsLow(c: Word, b: Byte)
    ensures Index(c, b) as Word == (c ^ b as Word) & 0xFF
  {
  }

  lemma SplitWord(c: Word, b: Byte)
    ensures var x := Xor(c, b as Word);
            x == Xor(Low(x), High(x)) && Down(x) == Down(c) && Index(c, b) as Word == Low(x)
  {
    LowHigh(c ^ b as Word);
    ByteStaysLow(c, b);
    IndexIsLow(c, b);
    hide Index;
  }

  /** One byte of input through the table is eight shifts of the register. */
  lemma TableStep(c: Word, b: Byte)
    ensures BitsIn(c, b, 8) == Xor(Entry(Index(c, b) as nat), Down(c))
  {
    var x := Xor(c, b as Word);
    HighBytesMoveDown(x);
    hide Xor, Shifts, BitsIn, Entry, Index, Low, High, Down;
    ByteAtOnce(c, b);
    SplitWord(c, b);
    ByteIndex(Index(c, b));
    ShiftsLinear(Low(x), High(x), 8);
  }

  // ---- the table-driven form ----

  method BuildCrcTable() returns (t: array<Word>)
    ensures fresh(t) && t.Length == 256
    ensures forall n :: 0 <= n < 256 ==> t[n] == Entry(n)
  {
    t := new Word[256];
    for n := 0 to 256
      invariant forall m :: 0 <= m < n ==> t[m] == Entry(m)
    {
      var c := EightShifts(n);
      t[n] := c;
    }
  }

  /** The inner loop, over the bits of one table index. */
  method EightShifts(n: nat) returns (c: Word)
    requires n < 256
    ensures c == Entry(n)
  {
    hide Shift;
    c := n as Byte as Word;
    ghost var first := c;
    for k := 0 to 8
      invariant c == Shifts(first, k)
    {
      c := OneShift(c);
    }
  }

  method OneShift(c: Word) returns (d: Word)
    ensures d == Shift(c)
  {
    d := if c & 1 != 0 then POLYNOMIAL ^ (c >> 1) else c >> 1;
  }

  /** The body of the checksum loop. */
  method OneByte(t: array<Word>, c: Word, b: Byte) returns (d: Word)
    requires t.Length == 256 && forall n :: 0 <= n < 256 ==> t[n] == Entry(n)
    ensures d == BitsIn(c, b, 8)
  {
    hide Entry, BitsIn, Xor, Down, Index;
    TableStep(c, b);
    var i := Index(c, b);
    ByteIndex(i);
    d := Xor(t[i as nat], Down(c));
  }

  /** The checksum, with the table it builds on first use and keeps. */
  class Checksum {
    var crcTable: array?<Word>

    ghost predicate Valid()
      reads this, crcTable
    {
      crcTable != null ==>
        crcTable.Length == 256 && forall n :: 0 <= n < 256 ==> crcTable[n] == Entry(n)
    }

    constructor ()
      ensures Valid()
    {
      crcTable := null;
    }

    method Crc32(buf: Bytes) returns (crc: Word)
      requires Valid()
      modifies this
      ensures Valid() && crcTable != null && (old(crcTable) != null ==> crcTable == old(crcTable))
      ensures crc == Crc(buf)
    {
      if crcTable == null {
        crcTable := BuildCrcTable();
      }
      hide Entry, BitsIn, Xor;
      var c: Word := 0xFFFF_FFFF;
      for i := 0 to |buf|
        invariant crcTable != null && (old(crcTable) != null ==> crcTable == old(crcTable)) && Valid()
        invariant c == Register(0xFFFF_FFFF, buf[..i])
      {
        assert buf[..i + 1][..i] == buf[..i];
        c := OneByte(crcTable, c, buf[i]);
      }
      assert buf[..|buf|] == buf;
      crc := Xor(c, 0xFFFF_FFFF);
    }
  }

  // ---- what the checksum catches ----

  lemma ShiftInjective(a: Word, b: Word)
    ensures Shift(a) == Shift(b) ==> a == b
  {
  }

  lemma {:induction false} ShiftsInjective(a: Word, b: Word, k: nat)
    ensures Shifts(a, k) == Shifts(b, k) ==> a == b
  {
    hide Shift;
    if k > 0 {
      ShiftsInjective(a, b, k - 1);
      ShiftInjective(Shifts(a, k - 1), Shifts(b, k - 1));
    }
  }

  lemma XorInjective(a: Word, b: Word, c: Word)
    ensures Xor(a, c) == Xor(b, c) ==> a == b
    ensures Xor(c, a) == Xor(c, b) ==> a == b
  {
  }

  lemma BytesDiffer(x: Byte, y: Byte)
    ensures x as Word == y as Word ==> x == y
  {
  }

  lemma {:induction false} RegisterInjective(a: Word, b: Word, data: Bytes)
    ensures Register(a, data) == Register(b, data) ==> a == b
  {
    hide Xor, Shifts, BitsIn;
    if data != [] {
      var n := |data| - 1;
      var ra, rb, w := Register(a, data[..n]), Register(b, data[..n]), data[n] as Word;
      ByteAtOnce(ra, data[n]);
      ByteAtOnce(rb, data[n]);
      ShiftsInjective(Xor(ra, w), Xor(rb, w), 8);
      XorInjective(ra, rb, w);
      RegisterInjective(a, b, data[..n]);
    }
  }

  lemma {:induction false} RegisterConcat(c: Word, a: Bytes, b: Bytes)
    ensures Register(c, a + b) == Register(Register(c, a), b)
  {
    hide BitsIn;
    if b == [] {
      assert a + b == a;
    } else {
      assert (a + b)[..|a + b| - 1] == a + b[..|b| - 1];
      RegisterConcat(c, a, b[..|b| - 1]);
    }
  }

  /** Changing any one byte of a message, wherever it stands, changes its CRC. */
  lemma OneByteChangeIsCaught(before: Bytes, x: Byte, y: Byte, after: Bytes)
    requires x != y
    ensures Crc(before + [x] + after) != Crc(before + [y] + after)
  {
    var r := Register(0xFFFF_FFFF, before);
    assert before + [x] + after == before + ([x] + after) && before + [y] + after == before + ([y] + after);
    RegisterConcat(0xFFFF_FFFF, before, [x] + after);
    RegisterConcat(0xFFFF_FFFF, before, [y] + after);
    RegisterConcat(r, [x], after);
    RegisterConcat(r, [y], after);
    assert [x][..0] == [] && [y][..0] == [];
    hide Xor, Shifts, BitsIn;
    ByteAtOnce(r, x);
    ByteAtOnce(r, y);
    BytesDiffer(x, y);
    XorInjective(x as Word, y as Word, r);
    ShiftsInjective(Xor(r, x as Word), Xor(r, y as Word), 8);
    RegisterInjective(Register(r, [x]), Register(r, [y]), after);
    XorInjective(Register(0xFFFF_FFFF, before + [x] + after), Register(0xFFFF_FFFF, before + [y] + after), 0xFFFF_FFFF);
  }

  // ---- a known checksum ----

  lemma EightSteps(c: Word, b: Byte)
    ensures BitsIn(c, b, 8) ==
      var c1 := Shift(Xor(c, Bit(b, 0)));
      var c2 := Shift(Xor(c1, Bit(b, 1)));
      var c3 := Shift(Xor(c2, Bit(b, 2)));
      var c4 := Shift(Xor(c3, Bit(b, 3)));
      var c5 := Shift(Xor(c4, Bit(b, 4)));
      var c6 := Shift(Xor(c5, Bit(b, 5)));
      var c7 := Shift(Xor(c6, Bit(b, 6)));
      Shift(Xor(c7, Bit(b, 7)))
  {
    hide Shift, Xor, Bit;
    assert BitsIn(c, b, 2) == Shift(Xor(BitsIn(c, b, 1), Bit(b, 1)));
    assert BitsIn(c, b, 4) == Shift(Xor(BitsIn(c, b, 3), Bit(b, 3)));
    assert BitsIn(c, b, 6) == Shift(Xor(BitsIn(c, b, 5), Bit(b, 5)));
  }

  lemma FirstByte()
    ensures BitsIn(0xFFFF_FFFF, 0x49, 8) == 0x22FD_E946
  {
    EightSteps(0xFFFF_FFFF, 0x49);
  }

  lemma SecondByte()
    ensures BitsIn(0x22FD_E946, 0x45, 8) == 0x992B_AC53
  {
    EightSteps(0x22FD_E946, 0x45);
  }

  lemma ThirdByte()
    ensures BitsIn(0x992B_AC53, 0x4E, 8) == 0x639F_4775
  {
    EightSteps(0x992B_AC53, 0x4E);
  }

  lemma FourthByte()
    ensures BitsIn(0x639F_4775, 0x44, 8) == 0x51BD_9F7D
  {
    EightSteps(0x639F_4775, 0x44);
  }

  /** The checksum every PNG file ends with: that of the four letters IEND. */
  lemma IendChecksum()
    ensures Crc([0x49, 0x45, 0x4E, 0x44]) == 0xAE42_6082
  {
    var data: Bytes := [0x49, 0x45, 0x4E, 0x44];
    hide BitsIn;
    FirstByte();
    SecondByte();
    ThirdByte();
    FourthByte();
    RegisterOneMore(0xFFFF_FFFF, [], 0x49);
    RegisterOneMore(0xFFFF_FFFF, [0x49], 0x45);
    RegisterOneMore(0xFFFF_FFFF, [0x49, 0x45], 0x4E);
    RegisterOneMore(0xFFFF_FFFF, [0x49, 0x45, 0x4E], 0x44);
    hide Register;
    assert [0x49, 0x45, 0x4E] + [0x44] == data && [0x49, 0x45] + [0x4E] == [0x49, 0x45, 0x4E as Byte];
    assert [0x49] + [0x45] == [0x49, 0x45 as Byte] && [] + [0x49] == [0x49 as Byte];
  }

  lemma RegisterOneMore(c: Word, front: Bytes, b: Byte)
    ensures Register(c, front + [b]) == BitsIn(Register(c, front), b, 8)
    ensures Register(c, []) == c
  {
    hide BitsIn;
    assert (front + [b])[..|front|] == front;
  }
}
