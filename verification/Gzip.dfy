// The gzip member the upload path builds by hand: the CRC-32 table, the
// table-driven checksum, and the ten-byte header and eight-byte trailer around
// a DEFLATE body. DEFLATE itself is the platform's and enters as a parameter.
module Gzip {
  import opened Options

  type Byte = bv8

  const POLYNOMIAL: bv32 := 0xEDB8_8320
  const ALL_ONES: bv32 := 0xFFFF_FFFF
  const HEADER: seq<Byte> := [0x1f, 0x8b, 0x08, 0x00, 0, 0, 0, 0, 0x00, 0xff]

  // ---------------------------------------------------------------------------
  // Words of 32 bits. The operators are named so that a proof can keep the
  // solver away from their bits and argue from the laws below instead.
  // ---------------------------------------------------------------------------

  function Xor(a: bv32, b: bv32): bv32 { a ^ b }

  function Half(a: bv32): bv32 { a >> 1 }

  predicate Odd(a: bv32) { a & 1 != 0 }

  function Low(a: bv32): bv32 { a & 0xFF }

  function High(a: bv32): bv32 { a >> 8 }

  function Up(a: bv32): bv32 { a << 8 }

  lemma XorAssociative(a: bv32, b: bv32, c: bv32)
    ensures Xor(Xor(a, b), c) == Xor(a, Xor(b, c))
  {
  }

  lemma XorCommutative(a: bv32, b: bv32)
    ensures Xor(a, b) == Xor(b, a)
  {
  }

  lemma XorCancels(a: bv32, b: bv32)
    ensures Xor(a, Xor(a, b)) == b
  {
  }

  lemma XorZero(a: bv32)
    ensures Xor(a, 0) == a
  {
  }

  lemma HalfOfXor(a: bv32, b: bv32)
    ensures Half(Xor(a, b)) == Xor(Half(a), Half(b))
  {
  }

  lemma OddXor(a: bv32, b: bv32)
    ensures Odd(Xor(a, b)) <==> (Odd(a) != Odd(b))
  {
  }

  lemma SplitLowByte(x: bv32)
    ensures x == Xor(Low(x), x & 0xFFFF_FF00)
    ensures Low(x & 0xFFFF_FF00) == 0
    ensures High(x & 0xFFFF_FF00) == High(x)
  {
  }

  lemma XorByteKeepsHigh(c: bv32, b: bv32)
    requires b < 256
    ensures High(Xor(c, b)) == High(c)
  {
  }

  lemma ClearByteHalves(y: bv32)
    requires Low(y) == 0
    ensures !Odd(y) && !Odd(Half(y)) && !Odd(Half(Half(y))) && !Odd(Half(Half(Half(y))))
  {
  }

  lemma ClearByteHalvesFurther(y: bv32)
    requires Low(y) == 0
    ensures var z := Half(Half(Half(Half(y))));
      !Odd(z) && !Odd(Half(z)) && !Odd(Half(Half(z))) && !Odd(Half(Half(Half(z))))
  {
  }

  lemma EightHalves(y: bv32)
    ensures Half(Half(Half(Half(Half(Half(Half(Half(y)))))))) == High(y)
  {
  }

  lemma ByteHasNoHigh(b: bv32)
    requires b < 256
    ensures High(b) == 0
  {
  }

  // ---------------------------------------------------------------------------
  // The reference: a 32-bit feedback register fed one message bit at a time
  // ---------------------------------------------------------------------------

  // Shift one message bit into the register; the feedback tap is the bit that
  // falls out, compared with the incoming one.
  function FeedBit(register: bv32, bit: bool): bv32 {
    if Odd(register) != bit then Xor(POLYNOMIAL, Half(register)) else Half(register)
  }

  // Feed the n low bits of a word, least significant first.
  function FeedBits(register: bv32, word: bv32, n: nat): bv32
    decreases n
  {
    if n == 0 then register else FeedBits(FeedBit(register, Odd(word)), Half(word), n - 1)
  }

  function Register(data: seq<Byte>, register: bv32): bv32 {
    if data == [] then register else Register(data[1..], FeedBits(register, data[0] as bv32, 8))
  }

  // The checksum section 8 of RFC 1952 asks for: start from all ones, complement at the end.
  function BitwiseCrc(data: seq<Byte>): bv32 {
    Xor(Register(data, ALL_ONES), ALL_ONES)
  }

  // ---------------------------------------------------------------------------
  // Algebra of the register
  // ---------------------------------------------------------------------------

  function Step(c: bv32): bv32 {
    if Odd(c) then Xor(POLYNOMIAL, Half(c)) else Half(c)
  }

  function Steps(c: bv32, n: nat): bv32
    decreases n
  {
    if n == 0 then c else Steps(Step(c), n - 1)
  }

  function Halves(word: bv32, n: nat): bv32
    decreases n
  {
    if n == 0 then word else Halves(Half(word), n - 1)
  }

  lemma PolynomialMoves(a: bv32, b: bv32)
    ensures Xor(Xor(POLYNOMIAL, a), b) == Xor(POLYNOMIAL, Xor(a, b))
    ensures Xor(a, Xor(POLYNOMIAL, b)) == Xor(POLYNOMIAL, Xor(a, b))
    ensures Xor(Xor(POLYNOMIAL, a), Xor(POLYNOMIAL, b)) == Xor(a, b)
  {
    hide Xor;
    XorAssociative(POLYNOMIAL, a, b);
    XorAssociative(a, POLYNOMIAL, b);
    XorCommutative(a, POLYNOMIAL);
    XorAssociative(POLYNOMIAL, a, Xor(POLYNOMIAL, b));
    XorAssociative(a, POLYNOMIAL, b);
    XorCancels(POLYNOMIAL, Xor(a, b));
  }

  lemma StepIsLinear(x: bv32, y: bv32)
    ensures Step(Xor(x, y)) == Xor(Step(x), Step(y))
  {
    hide Xor, Half, Odd;
    HalfOfXor(x, y);
    OddXor(x, y);
    PolynomialMoves(Half(x), Half(y));
  }

  lemma {:induction false} StepsIsLinear(x: bv32, y: bv32, n: nat)
    ensures Steps(Xor(x, y), n) == Xor(Steps(x, n), Steps(y, n))
    decreases n
  {
    hide Xor, Step;
    if n > 0 {
      StepIsLinear(x, y);
      StepsIsLinear(Step(x), Step(y), n - 1);
    }
  }

  // The top bit of the polynomial records which way the shift went, so no two
  // register values are ever folded together.
  lemma StepIsInjective(x: bv32, y: bv32)
    requires Step(x) == Step(y)
    ensures x == y
  {
  }

  lemma {:induction false} StepsIsInjective(x: bv32, y: bv32, n: nat)
    requires Steps(x, n) == Steps(y, n)
    ensures x == y
    decreases n
  {
    hide Step;
    if n > 0 {
      StepsIsInjective(Step(x), Step(y), n - 1);
      StepIsInjective(x, y);
    }
  }

  lemma {:induction false} StepsAdd(c: bv32, m: nat, n: nat)
    ensures Steps(Steps(c, m), n) == Steps(c, m + n)
    decreases m
  {
    hide Step;
    if m > 0 {
      StepsAdd(Step(c), m - 1, n);
    }
  }

  // A word whose low byte is clear is merely shifted by eight steps.
  lemma ClearLowByte(y: bv32)
    requires Low(y) == 0
    ensures Steps(y, 8) == High(y)
  {
    hide Xor, Half, Odd, Low, High;
    ClearByteHalves(y);
    ClearByteHalvesFurther(y);
    EightHalves(y);
    var z := Half(Half(Half(Half(y))));
    assert Steps(y, 8) == Steps(Half(y), 7) == Steps(Half(Half(y)), 6) == Steps(Half(Half(Half(y))), 5);
    assert Steps(Half(Half(Half(y))), 5) == Steps(z, 4) == Steps(Half(z), 3);
    assert Steps(Half(z), 3) == Steps(Half(Half(z)), 2) == Steps(Half(Half(Half(z))), 1);
    assert Steps(Half(Half(Half(z))), 1) == Steps(Half(Half(Half(Half(z)))), 0);
  }

  // One table lookup does the work of eight steps.
  lemma LookupIsEightSteps(c: bv32, b: bv32)
    requires b < 256
    ensures Xor(Steps(Low(Xor(c, b)), 8), High(c)) == Steps(Xor(c, b), 8)
  {
    hide Xor, Step, Steps, Low, High;
    var x := Xor(c, b);
    SplitLowByte(x);
    StepsIsLinear(Low(x), x & 0xFFFF_FF00, 8);
    ClearLowByte(x & 0xFFFF_FF00);
    XorByteKeepsHigh(c, b);
  }

  // Feeding one bit is a step of the register with the bit folded in.
  lemma FeedBitIsStep(c: bv32, word: bv32)
    ensures Step(Xor(c, word)) == Xor(FeedBit(c, Odd(word)), Half(word))
  {
    hide Xor, Half, Odd;
    HalfOfXor(c, word);
    OddXor(c, word);
    PolynomialMoves(Half(c), Half(word));
  }

  lemma {:induction false} FeedBitsIsSteps(c: bv32, word: bv32, n: nat)
    ensures Steps(Xor(c, word), n) == Xor(FeedBits(c, word, n), Halves(word, n))
    decreases n
  {
    hide Xor, Half, Odd, Step, FeedBit;
    if n > 0 {
      FeedBitIsStep(c, word);
      FeedBitsIsSteps(FeedBit(c, Odd(word)), Half(word), n - 1);
    }
  }

  lemma ByteIsUsedUp(word: bv32)
    requires word < 256
    ensures Halves(word, 8) == 0
  {
    hide Half, High;
    var z := Half(Half(Half(Half(word))));
    assert Halves(word, 8) == Halves(Half(word), 7) == Halves(Half(Half(word)), 6) == Halves(Half(Half(Half(word))), 5);
    assert Halves(Half(Half(Half(word))), 5) == Halves(z, 4) == Halves(Half(z), 3) == Halves(Half(Half(z)), 2);
    assert Halves(Half(Half(z)), 2) == Halves(Half(Half(Half(z))), 1) == Halves(Half(Half(Half(Half(z)))), 0);
    EightHalves(word);
    ByteHasNoHigh(word);
  }

  lemma FeedByteIsSteps(c: bv32, b: Byte)
    ensures FeedBits(c, b as bv32, 8) == Steps(Xor(c, b as bv32), 8)
  {
    hide Xor, Half, Step, Steps, FeedBit, FeedBits, Halves;
    var word := b as bv32;
    assert word < 256;
    FeedBitsIsSteps(c, word, 8);
    ByteIsUsedUp(word);
    XorZero(FeedBits(c, word, 8));
  }

  // ---------------------------------------------------------------------------
  // The table and the checksum loop
  // ---------------------------------------------------------------------------

  predicate IsTable(table: seq<bv32>) {
    |table| == 256 && forall i :: 0 <= i < 256 ==> table[i] == Steps(i as bv32, 8)
  }

  method TableEntry(index: bv32) returns (value: bv32)
    ensures value == Steps(index, 8)
  {
    hide Steps;
    value := index;
    for round := 0 to 8
      invariant Steps(value, 8 - round) == Steps(index, 8)
    {
      StepsUnfold(value, 8 - round);
      value := if value & 1 != 0 then POLYNOMIAL ^ (value >> 1) else value >> 1;
    }
    StepsDone(value);
  }

  method BuildTable() returns (table: array<bv32>)
    ensures fresh(table) && IsTable(table[..])
  {
    hide Steps;
    table := new bv32[256];
    for index := 0 to 256
      invariant forall i :: 0 <= i < index ==> table[i] == Steps(i as bv32, 8)
    {
      var value := TableEntry(index as bv32);
      table[index] := value;
    }
  }

  lemma LowIsIndex(x: bv32)
    ensures Low(x) < 256 && 0 <= Low(x) as int < 256 && (Low(x) as int) as bv32 == Low(x)
  {
    assert Low(x) < 256;
  }

  // The loop body: one lookup absorbs one byte.
  function Absorb(table: seq<bv32>, crc: bv32, b: Byte): bv32
    requires |table| == 256
  {
    LowIsIndex(Xor(crc, b as bv32));
    Xor(table[Low(Xor(crc, b as bv32)) as int], High(crc))
  }

  lemma EntryIsSteps(table: seq<bv32>, x: bv32)
    requires IsTable(table) && x < 256 && 0 <= x as int < 256 && (x as int) as bv32 == x
    ensures table[x as int] == Steps(x, 8)
  {
    hide Steps;
  }

  lemma AbsorbIsFeedByte(table: seq<bv32>, crc: bv32, b: Byte)
    requires IsTable(table)
    ensures Absorb(table, crc, b) == FeedBits(crc, b as bv32, 8)
  {
    hide Xor, Low, High, Steps, FeedBits;
    var word := b as bv32;
    var x := Low(Xor(crc, word));
    LowIsIndex(Xor(crc, word));
    EntryIsSteps(table, x);
    LookupIsEightSteps(crc, word);
    FeedByteIsSteps(crc, b);
  }

  lemma StepsUnfold(c: bv32, n: nat)
    requires n > 0
    ensures Steps(c, n) == Steps(if c & 1 != 0 then POLYNOMIAL ^ (c >> 1) else c >> 1, n - 1)
  {
  }

  lemma StepsDone(c: bv32)
    ensures Steps(c, 0) == c
  {
  }

  lemma RegisterEmpty(c: bv32)
    ensures Register([], c) == c
  {
  }

  lemma RegisterOfOne(b: Byte, c: bv32)
    ensures Register([b], c) == FeedBits(c, b as bv32, 8)
  {
    hide FeedBits;
  }

  lemma {:induction false} RegisterAppend(data: seq<Byte>, more: seq<Byte>, c: bv32)
    ensures Register(data + more, c) == Register(more, Register(data, c))
  {
    hide FeedBits;
    if data == [] {
      assert data + more == more;
    } else {
      assert (data + more)[1..] == data[1..] + more;
      RegisterAppend(data[1..], more, FeedBits(c, data[0] as bv32, 8));
    }
  }

  // For every byte string the table-driven loop is the bit-at-a-time checksum.
  method Crc32(table: array<bv32>, data: seq<Byte>) returns (r: bv32)
    requires IsTable(table[..])
    ensures r == BitwiseCrc(data)
  {
    hide Register, FeedBits, Steps, Absorb;
    var crc := ALL_ONES;
    RegisterEmpty(ALL_ONES);
    assert data[..0] == [];
    for n := 0 to |data|
      invariant crc == Register(data[..n], ALL_ONES)
    {
      AbsorbIsFeedByte(table[..], crc, data[n]);
      assert data[..n + 1] == data[..n] + [data[n]];
      RegisterAppend(data[..n], [data[n]], ALL_ONES);
      RegisterOfOne(data[n], crc);
      crc := Absorb(table[..], crc, data[n]);
    }
    assert data[..|data|] == data;
    r := crc ^ ALL_ONES;
  }

  // ---------------------------------------------------------------------------
  // What the checksum is for: no burst of up to four damaged bytes goes unseen
  // ---------------------------------------------------------------------------

  lemma {:induction false} RegisterIsInjective(data: seq<Byte>, c: bv32, d: bv32)
    requires Register(data, c) == Register(data, d)
    ensures c == d
  {
    hide FeedBits, Steps, Xor;
    if data != [] {
      var b := data[0] as bv32;
      RegisterIsInjective(data[1..], FeedBits(c, b, 8), FeedBits(d, b, 8));
      FeedByteIsSteps(c, data[0]);
      FeedByteIsSteps(d, data[0]);
      StepsIsInjective(Xor(c, b), Xor(d, b), 8);
      XorCommutative(c, b);
      XorCommutative(d, b);
      XorCancels(b, c);
      XorCancels(b, d);
    }
  }

  // Up to four bytes as one little-endian word.
  function Word(u: seq<Byte>): bv32
    requires |u| <= 4
  {
    if u == [] then 0 else Xor(u[0] as bv32, Up(Word(u[1..])))
  }

  predicate Fits(word: bv32, n: nat) {
    && (n == 0 ==> word == 0)
    && (n == 1 ==> word < 0x100)
    && (n == 2 ==> word < 0x1_0000)
    && (n == 3 ==> word < 0x100_0000)
  }

  lemma UpThenHigh(w: bv32)
    requires w < 0x100_0000
    ensures Low(Up(w)) == 0 && High(Up(w)) == w
  {
  }

  lemma BytesOfWord(w: bv32, b: bv32)
    requires w < 0x100_0000 && b < 256
    ensures Low(Xor(b, Up(w))) == b
    ensures High(Xor(b, Up(w))) == w
  {
    ByteHasNoHigh(b);
  }

  lemma FitsUp(w: bv32, b: bv32, n: nat)
    requires n < 4 && Fits(w, n) && b < 256
    ensures Fits(Xor(b, Up(w)), n + 1)
  {
  }

  lemma {:induction false} WordFits(u: seq<Byte>)
    requires |u| <= 4
    ensures Fits(Word(u), |u|)
  {
    hide Xor, Up;
    if u == [] {
      hide Fits;
      FitsZero();
    } else {
      hide Fits;
      WordFits(u[1..]);
      FitsUp(Word(u[1..]), u[0] as bv32, |u| - 1);
    }
  }

  lemma FitsZero()
    ensures Fits(0, 0)
  {
  }

  lemma FitsThree(w: bv32, n: nat)
    requires n < 4 && Fits(w, n)
    ensures w < 0x100_0000
  {
  }

  lemma ByteIsItsWord(b: Byte, c: Byte)
    requires b as bv32 == c as bv32
    ensures b == c
  {
  }

  lemma WordTakesApart(u: seq<Byte>)
    requires 1 <= |u| <= 4
    ensures Low(Word(u)) == u[0] as bv32 && High(Word(u)) == Word(u[1..])
  {
    WordFits(u[1..]);
    FitsThree(Word(u[1..]), |u| - 1);
    hide Xor, Up, Low, High, Fits;
    BytesOfWord(Word(u[1..]), u[0] as bv32);
  }

  lemma {:induction false} WordIsInjective(u: seq<Byte>, v: seq<Byte>)
    requires |u| == |v| <= 4 && Word(u) == Word(v)
    ensures u == v
  {
    hide Word, Low, High;
    if u != [] {
      WordTakesApart(u);
      WordTakesApart(v);
      WordIsInjective(u[1..], v[1..]);
      ByteIsItsWord(u[0], v[0]);
      assert u == [u[0]] + u[1..] && v == [v[0]] + v[1..];
    }
  }

  lemma {:induction false} RegisterOfWord(u: seq<Byte>, c: bv32)
    requires |u| <= 4
    ensures Register(u, c) == Steps(Xor(c, Word(u)), 8 * |u|)
  {
    hide Xor, Up, Low, High, Fits, FeedBits, Step;
    if u == [] {
      XorZero(c);
    } else {
      hide Steps;
      var b, w := u[0] as bv32, Word(u[1..]);
      WordFits(u[1..]);
      FitsThree(w, |u| - 1);
      UpThenHigh(w);
      FeedByteIsSteps(c, u[0]);
      RegisterOfWord(u[1..], Steps(Xor(c, b), 8));
      ClearLowByte(Up(w));
      StepsIsLinear(Xor(c, b), Up(w), 8);
      XorAssociative(c, b, Up(w));
      StepsAdd(Xor(c, Word(u)), 8, 8 * |u[1..]|);
    }
  }

  // Two payloads that differ only inside a window of up to four bytes never
  // share a checksum.
  lemma BurstChangesCrc(before: seq<Byte>, u: seq<Byte>, v: seq<Byte>, after: seq<Byte>)
    requires |u| == |v| <= 4 && u != v
    ensures BitwiseCrc(before + u + after) != BitwiseCrc(before + v + after)
  {
    hide Xor, Register, Steps, Word;
    var c := Register(before, ALL_ONES);
    RegisterAppend(before + u, after, ALL_ONES);
    RegisterAppend(before + v, after, ALL_ONES);
    RegisterAppend(before, u, ALL_ONES);
    RegisterAppend(before, v, ALL_ONES);
    var x, y := Register(before + u + after, ALL_ONES), Register(before + v + after, ALL_ONES);
    if Xor(x, ALL_ONES) == Xor(y, ALL_ONES) {
      XorCommutative(x, ALL_ONES);
      XorCommutative(y, ALL_ONES);
      XorCancels(ALL_ONES, x);
      XorCancels(ALL_ONES, y);
      RegisterIsInjective(after, Register(u, c), Register(v, c));
      RegisterOfWord(u, c);
      RegisterOfWord(v, c);
      StepsIsInjective(Xor(c, Word(u)), Xor(c, Word(v)), 8 * |u|);
      XorCancels(c, Word(u));
      XorCancels(c, Word(v));
      WordIsInjective(u, v);
    }
  }

  // ---------------------------------------------------------------------------
  // The framed member (section 2.3 of RFC 1952)
  // ---------------------------------------------------------------------------

  function LittleEndian(value: bv32): seq<Byte> {
    [(value & 0xFF) as Byte, ((value >> 8) & 0xFF) as Byte,
     ((value >> 16) & 0xFF) as Byte, ((value >> 24) & 0xFF) as Byte]
  }

  function FromLittleEndian(b: seq<Byte>): bv32
    requires |b| == 4
  {
    (b[0] as bv32) | ((b[1] as bv32) << 8) | ((b[2] as bv32) << 16) | ((b[3] as bv32) << 24)
  }

  lemma LittleEndianRoundTrip(value: bv32)
    ensures FromLittleEndian(LittleEndian(value)) == value
  {
    var b := LittleEndian(value);
    assert b[0] as bv32 == value & 0xFF;
    assert b[1] as bv32 == (value >> 8) & 0xFF;
    assert b[2] as bv32 == (value >> 16) & 0xFF;
    assert b[3] as bv32 == (value >> 24) & 0xFF;
    FourBytes(value);
  }

  lemma FourBytes(value: bv32)
    ensures (value & 0xFF) | (((value >> 8) & 0xFF) << 8) | (((value >> 16) & 0xFF) << 16)
         | (((value >> 24) & 0xFF) << 24) == value
  {
  }

  // ---------------------------------------------------------------------------
  // The residue: what pins the polynomial, the two complements and the byte order
  // ---------------------------------------------------------------------------

  lemma StepsFromAllOnes()
    ensures Steps(0xFFFF_FFFF, 32) == 0xDEBB_20E3
  {
    assert Steps(0xFFFF_FFFF, 8) == 0x2DFD_1072;
    assert Steps(0x2DFD_1072, 8) == 0xBE26_ED00;
    assert Steps(0xBE26_ED00, 8) == 0x00BE_26ED;
    assert Steps(0x00BE_26ED, 8) == 0xDEBB_20E3;
    hide Steps;
    StepsAdd(0xFFFF_FFFF, 8, 8);
    StepsAdd(0xFFFF_FFFF, 16, 8);
    StepsAdd(0xFFFF_FFFF, 24, 8);
  }

  lemma WordUnfold(b: Byte, rest: seq<Byte>)
    requires |rest| < 4
    ensures Word([b] + rest) == Xor(b as bv32, Up(Word(rest))) && Word([]) == 0
  {
    hide Xor, Up;
    assert ([b] + rest)[1..] == rest;
  }

  lemma WordOfFour(a: Byte, b: Byte, c: Byte, d: Byte)
    ensures Word([a, b, c, d]) == Xor(a as bv32, Up(Xor(b as bv32, Up(Xor(c as bv32, Up(Xor(d as bv32, Up(0))))))))
  {
    hide Word, Xor, Up;
    WordUnfold(d, []);
    WordUnfold(c, [d]);
    WordUnfold(b, [c, d]);
    WordUnfold(a, [b, c, d]);
    assert [d] + [] == [d] && [c] + [d] == [c, d] && [b] + [c, d] == [b, c, d] && [a] + [b, c, d] == [a, b, c, d];
  }

  lemma BytesPutTogether(value: bv32)
    ensures Xor(value & 0xFF, Up(Xor((value >> 8) & 0xFF, Up(Xor((value >> 16) & 0xFF, Up(Xor((value >> 24) & 0xFF, Up(0)))))))) == value
  {
  }

  lemma WordOfLittleEndian(value: bv32)
    ensures |LittleEndian(value)| == 4 && Word(LittleEndian(value)) == value
  {
    hide Word, Xor, Up;
    var b := LittleEndian(value);
    assert b[0] as bv32 == value & 0xFF;
    assert b[1] as bv32 == (value >> 8) & 0xFF;
    assert b[2] as bv32 == (value >> 16) & 0xFF;
    assert b[3] as bv32 == (value >> 24) & 0xFF;
    WordOfFour(b[0], b[1], b[2], b[3]);
    BytesPutTogether(value);
  }

  // Whatever the payload, the checksum of the payload followed by its own
  // checksum is one constant, the residue of the CRC-32 of RFC 1952.
  lemma OwnChecksumLeavesTheResidue(payload: seq<Byte>)
    ensures BitwiseCrc(payload + LittleEndian(BitwiseCrc(payload))) == 0x2144_DF1C
  {
    hide Xor, Register, Steps, Word, LittleEndian;
    var r := Register(payload, ALL_ONES);
    var crc := Xor(r, ALL_ONES);
    RegisterAppend(payload, LittleEndian(crc), ALL_ONES);
    WordOfLittleEndian(crc);
    RegisterOfWord(LittleEndian(crc), r);
    XorCancels(r, ALL_ONES);
    StepsFromAllOnes();
    Complement();
  }

  lemma Complement()
    ensures Xor(0xDEBB_20E3, 0xFFFF_FFFF) == 0x2144_DF1C
  {
  }

  // The truncating conversion of a length to 32 bits.
  function Size32(n: nat): bv32 {
    (n % 0x1_0000_0000) as bv32
  }

  datatype Member = Member(body: seq<Byte>, crc: bv32, isize: bv32)

  // What a receiver reads off the wire: magic number, method, no flags, then
  // the body and the two trailer words.
  function Unframe(bytes: seq<Byte>): Option<Member> {
    if |bytes| < 18 || bytes[..4] != [0x1f, 0x8b, 0x08, 0x00] then None
    else
      var n := |bytes|;
      Some(Member(bytes[10..n - 8], FromLittleEndian(bytes[n - 8..n - 4]), FromLittleEndian(bytes[n - 4..])))
  }

  // The receiver's verdict once its inflater has produced a payload.
  predicate Accepts(member: Member, payload: seq<Byte>) {
    member.crc == BitwiseCrc(payload) && member.isize == Size32(|payload|)
  }

  // What the platform's compressor may answer: nothing, or at least one byte
  // and no more than the input, which is the room it was given.
  predicate PossibleDeflate(data: seq<Byte>, deflated: Option<seq<Byte>>) {
    deflated.Some? ==> 0 < |deflated.value| <= |data|
  }

  method Compress(table: array<bv32>, data: seq<Byte>, deflated: Option<seq<Byte>>) returns (out: Option<seq<Byte>>)
    requires IsTable(table[..]) && PossibleDeflate(data, deflated)
    ensures out.Some? <==> data != [] && deflated.Some? && |deflated.value| + 18 < |data|
    ensures out.Some? ==>
      && |out.value| < |data|
      && out.value == [0x1f, 0x8b, 0x08, 0x00, 0, 0, 0, 0, 0x00, 0xff] + deflated.value
                      + LittleEndian(BitwiseCrc(data)) + LittleEndian(Size32(|data|))
      && Unframe(out.value) == Some(Member(deflated.value, BitwiseCrc(data), Size32(|data|)))
  {
    if data == [] || deflated.None? {
      return None;
    }
    var crc := Crc32(table, data);
    var bytes := HEADER;
    bytes := bytes + deflated.value;
    bytes := bytes + LittleEndian(crc);
    bytes := bytes + LittleEndian(Size32(|data|));
    UnframeOfFrame(deflated.value, crc, Size32(|data|));
    out := if |bytes| < |data| then Some(bytes) else None;
  }

  lemma UnframeOfFrame(body: seq<Byte>, crc: bv32, isize: bv32)
    ensures Unframe(HEADER + body + LittleEndian(crc) + LittleEndian(isize)) == Some(Member(body, crc, isize))
  {
    var bytes := HEADER + body + LittleEndian(crc) + LittleEndian(isize);
    var n := |bytes|;
    assert bytes[..4] == HEADER[..4];
    assert bytes[10..n - 8] == body;
    assert bytes[n - 8..n - 4] == LittleEndian(crc);
    assert bytes[n - 4..] == LittleEndian(isize);
    LittleEndianRoundTrip(crc);
    LittleEndianRoundTrip(isize);
  }

  // A receiver accepts the payload that was sent and refuses every payload that
  // a burst of up to four damaged bytes could have turned it into.
  lemma ReceiverTellsPayloadsApart(before: seq<Byte>, u: seq<Byte>, v: seq<Byte>, after: seq<Byte>, member: Member)
    requires |u| == |v| <= 4
    requires Accepts(member, before + u + after)
    ensures Accepts(member, before + v + after) <==> u == v
  {
    if u != v {
      BurstChangesCrc(before, u, v, after);
    }
  }
}
