// The point identity: a 26-character ULID, ten Crockford digits of time and
// sixteen of entropy. Shifts and masks of the source are written as the
// arithmetic they are: x >> k is x / 2^k, x & 0x1F is x % 32, and the 32-bit
// accumulator wraps at 2^32. The random generator is a parameter.
module Ulid {

  type Byte = b: int | 0 <= b < 256

  const ALPHABET: string := "0123456789ABCDEFGHJKMNPQRSTVWXYZ"
  const TIME_CHARS := 10
  const RANDOM_CHARS := 16
  const WORD: nat := 0x1_0000_0000
  // 2^80, the number of entropy values, and 2^50, the times ten digits can tell apart.
  const ENTROPY_LIMIT: nat := 0x1_0000_0000_0000_0000_0000
  const TIME_LIMIT: nat := 0x4_0000_0000_0000

  function Pow(base: nat, n: nat): (p: nat)
    requires base > 0
    ensures p > 0
  {
    if n == 0 then 1 else base * Pow(base, n - 1)
  }

  // ---------------------------------------------------------------------------
  // The reference: positional digits and the text they spell
  // ---------------------------------------------------------------------------

  // The n low base-32 digits of v, most significant first.
  function Digits(v: nat, n: nat): (d: seq<int>)
    ensures |d| == n && forall i :: 0 <= i < n ==> 0 <= d[i] < 32
  {
    if n == 0 then [] else Digits(v / 32, n - 1) + [v % 32]
  }

  function Spell(digits: seq<int>): string
    requires forall i :: 0 <= i < |digits| ==> 0 <= digits[i] < 32
  {
    seq(|digits|, i requires 0 <= i < |digits| => ALPHABET[digits[i]])
  }

  // The big-endian number held in a byte string.
  function Value(bytes: seq<Byte>): nat {
    if bytes == [] then 0 else Value(bytes[..|bytes| - 1]) * 256 + bytes[|bytes| - 1]
  }

  // The identity a time and an entropy value stand for.
  function Encode(millis: nat, entropy: nat): string {
    Spell(Digits(millis, TIME_CHARS) + Digits(entropy, RANDOM_CHARS))
  }

  // Byte-wise order, as SQLite and the server compare ids.
  predicate Before(a: string, b: string) {
    if a == [] || b == [] then a == [] && b != []
    else a[0] < b[0] || (a[0] == b[0] && Before(a[1..], b[1..]))
  }

  // ---------------------------------------------------------------------------
  // String order is numeric order
  // ---------------------------------------------------------------------------

  predicate DigitsBefore(a: seq<int>, b: seq<int>) {
    if a == [] || b == [] then a == [] && b != []
    else a[0] < b[0] || (a[0] == b[0] && DigitsBefore(a[1..], b[1..]))
  }

  lemma AlphabetAscends(i: int, j: int)
    requires 0 <= i < j < 32
    ensures ALPHABET[i] < ALPHABET[j]
    decreases j - i
  {
    if j == i + 1 {
      NeighboursAscend(i);
    } else {
      NeighboursAscend(i);
      AlphabetAscends(i + 1, j);
    }
  }

  lemma NeighboursAscend(i: int)
    requires 0 <= i < 31
    ensures ALPHABET[i] < ALPHABET[i + 1]
  {
  }

  lemma {:induction false} SpellKeepsOrder(a: seq<int>, b: seq<int>)
    requires forall i :: 0 <= i < |a| ==> 0 <= a[i] < 32
    requires forall i :: 0 <= i < |b| ==> 0 <= b[i] < 32
    ensures Before(Spell(a), Spell(b)) <==> DigitsBefore(a, b)
    ensures Spell(a) == Spell(b) ==> a == b
  {
    if a != [] && b != [] {
      assert Spell(a)[1..] == Spell(a[1..]) && Spell(b)[1..] == Spell(b[1..]);
      SpellKeepsOrder(a[1..], b[1..]);
      if a[0] < b[0] {
        AlphabetAscends(a[0], b[0]);
      } else if b[0] < a[0] {
        AlphabetAscends(b[0], a[0]);
      }
      assert a == [a[0]] + a[1..] && b == [b[0]] + b[1..];
    } else {
      assert |Spell(a)| == |a| && |Spell(b)| == |b|;
    }
  }

  lemma {:induction false} DigitsBeforeAppend(a: seq<int>, x: int, b: seq<int>, y: int)
    requires |a| == |b|
    ensures DigitsBefore(a + [x], b + [y]) <==> DigitsBefore(a, b) || (a == b && x < y)
  {
    if a == [] {
      assert a + [x] == [x] && b + [y] == [y];
    } else {
      assert (a + [x])[1..] == a[1..] + [x] && (b + [y])[1..] == b[1..] + [y];
      DigitsBeforeAppend(a[1..], x, b[1..], y);
      assert a == [a[0]] + a[1..] && b == [b[0]] + b[1..];
    }
  }

  // On n digits the order of the digit strings is the order of the numbers.
  lemma {:induction false} DigitsKeepOrder(v: nat, w: nat, n: nat)
    requires v < Pow(32, n) && w < Pow(32, n)
    ensures DigitsBefore(Digits(v, n), Digits(w, n)) <==> v < w
    ensures Digits(v, n) == Digits(w, n) <==> v == w
  {
    if n > 0 {
      DigitsKeepOrder(v / 32, w / 32, n - 1);
      DigitsBeforeAppend(Digits(v / 32, n - 1), v % 32, Digits(w / 32, n - 1), w % 32);
      var dv, dw := Digits(v, n), Digits(w, n);
      assert dv[..n - 1] == Digits(v / 32, n - 1) && dw[..n - 1] == Digits(w / 32, n - 1);
      assert dv[n - 1] == v % 32 && dw[n - 1] == w % 32;
    }
  }

  lemma DivisionOfSum(t: nat, e: nat, p: nat)
    requires p > 0
    ensures (t * (32 * p) + e) / 32 == t * p + e / 32
    ensures (t * (32 * p) + e) % 32 == e % 32
  {
    assert t * (32 * p) + e == 32 * (t * p + e / 32) + e % 32;
  }

  // Digits of the time followed by digits of the entropy are the digits of one number.
  lemma {:induction false} DigitsConcat(t: nat, m: nat, e: nat, n: nat)
    requires e < Pow(32, n)
    ensures Digits(t, m) + Digits(e, n) == Digits(t * Pow(32, n) + e, m + n)
  {
    if n > 0 {
      var p := Pow(32, n - 1);
      DigitsConcat(t, m, e / 32, n - 1);
      DivisionOfSum(t, e, p);
      assert Digits(t, m) + Digits(e, n) == (Digits(t, m) + Digits(e / 32, n - 1)) + [e % 32];
    }
  }

  lemma PowersAreLimits()
    ensures Pow(32, RANDOM_CHARS) == ENTROPY_LIMIT
    ensures Pow(32, TIME_CHARS) == TIME_LIMIT
    ensures Pow(32, TIME_CHARS + RANDOM_CHARS) == TIME_LIMIT * ENTROPY_LIMIT
  {
    assert Pow(32, 5) == 0x200_0000;
    assert Pow(32, 10) == TIME_LIMIT;
    assert Pow(32, 13) == 0x2_0000_0000_0000_0000;
    assert Pow(32, 16) == ENTROPY_LIMIT;
    assert Pow(32, 20) == ENTROPY_LIMIT * 0x10_0000;
    assert Pow(32, 23) == ENTROPY_LIMIT * 0x8_0000_0000;
    assert Pow(32, 26) == ENTROPY_LIMIT * TIME_LIMIT;
  }

  // An id is the digits of the single number time * 2^80 + entropy.
  lemma EncodeIsOneNumber(t: nat, e: nat)
    requires t < TIME_LIMIT && e < ENTROPY_LIMIT
    ensures var v := t * ENTROPY_LIMIT + e;
      v < Pow(32, TIME_CHARS + RANDOM_CHARS) && Encode(t, e) == Spell(Digits(v, TIME_CHARS + RANDOM_CHARS))
  {
    hide Digits, Spell;
    PowersAreLimits();
    DigitsConcat(t, TIME_CHARS, e, RANDOM_CHARS);
  }

  // For times below 2^50 ms, ids sort as (time, entropy) does, and no two pairs share one.
  lemma EncodeKeepsOrder(t: nat, e: nat, u: nat, f: nat)
    requires t < TIME_LIMIT && u < TIME_LIMIT && e < ENTROPY_LIMIT && f < ENTROPY_LIMIT
    ensures Before(Encode(t, e), Encode(u, f)) <==> t < u || (t == u && e < f)
    ensures Encode(t, e) == Encode(u, f) <==> t == u && e == f
  {
    hide Digits, Spell, Encode, Before, DigitsBefore, Pow;
    EncodeIsOneNumber(t, e);
    EncodeIsOneNumber(u, f);
    var v, w := t * ENTROPY_LIMIT + e, u * ENTROPY_LIMIT + f;
    DigitsKeepOrder(v, w, TIME_CHARS + RANDOM_CHARS);
    SpellKeepsOrder(Digits(v, TIME_CHARS + RANDOM_CHARS), Digits(w, TIME_CHARS + RANDOM_CHARS));
  }

  lemma QuotientAndRemainder(t: nat, w: nat)
    requires w > 0
    ensures t == (t / w) * w + t % w
  {
  }

  lemma WrapOfSum(q: nat, r: nat, p: nat)
    requires p > 0
    ensures (q * (32 * p) + r) / 32 % p == r / 32 % p
    ensures (q * (32 * p) + r) % 32 == r % 32
  {
    DivisionOfSum(q, r, p);
    ModOfMultiple(q, r / 32, p);
  }

  lemma WrapOfNumber(t: nat, q: nat, r: nat, p: nat, w: nat)
    requires p > 0 && w == 32 * p && t == q * w + r
    ensures t / 32 % p == r / 32 % p && t % 32 == r % 32
  {
    WrapOfSum(q, r, p);
  }

  lemma DigitsUnfold(v: nat, n: nat)
    requires n > 0
    ensures Digits(v, n) == Digits(v / 32, n - 1) + [v % 32]
  {
  }

  // What n digits can hold of a number.
  function Wrapped(t: nat, n: nat): nat {
    t % Pow(32, n)
  }

  lemma WhatIsWrapped(t: nat, n: nat) returns (q: nat)
    ensures t == q * Pow(32, n) + Wrapped(t, n)
  {
    q := t / Pow(32, n);
    QuotientAndRemainder(t, Pow(32, n));
  }

  lemma WrappedUnfold(t: nat, n: nat)
    requires n > 0
    ensures Wrapped(t / 32, n - 1) == Wrapped(Wrapped(t, n) / 32, n - 1)
    ensures t % 32 == Wrapped(t, n) % 32
  {
    hide Wrapped;
    var q := WhatIsWrapped(t, n);
    WrapOfNumber(t, q, Wrapped(t, n), Pow(32, n - 1), Pow(32, n));
    WrappedIs(t / 32, n - 1, Pow(32, n - 1));
    WrappedIs(Wrapped(t, n) / 32, n - 1, Pow(32, n - 1));
  }

  lemma WrappedIs(x: nat, n: nat, p: nat)
    requires p > 0 && p == Pow(32, n)
    ensures Wrapped(x, n) == x % p
  {
  }

  // Ten digits hold fifty bits: from 2^50 on, the time wraps in the id.
  lemma {:induction false} TimeWraps(t: nat, n: nat)
    ensures Digits(t, n) == Digits(Wrapped(t, n), n)
    decreases n
  {
    if n > 0 {
      hide Digits, Wrapped;
      WrappedUnfold(t, n);
      TimeWraps(t / 32, n - 1);
      TimeWraps(Wrapped(t, n) / 32, n - 1);
      DigitsUnfold(t, n);
      DigitsUnfold(Wrapped(t, n), n);
    }
  }

  lemma ModOfMultiple(q: nat, x: nat, p: nat)
    requires p > 0
    ensures (q * p + x) % p == x % p
  {
    var k := x / p;
    assert q * p + x == (q + k) * p + x % p;
    UniqueRemainder((q + k), x % p, p);
  }

  lemma NoOtherQuotient(q: nat, k: nat, m: nat, r: nat, p: nat)
    requires m < p && r < p && q * p + m == k * p + r
    ensures q <= k
  {
    if q > k {
      Distribute(q, k, p);
      AtLeastOnce(q - k, p);
    }
  }

  lemma Distribute(q: int, k: int, p: int)
    ensures (q - k) * p == q * p - k * p
  {
  }

  lemma AtLeastOnce(d: nat, p: nat)
    requires d >= 1
    ensures d * p >= p
  {
  }

  lemma UniqueRemainder(k: nat, r: nat, p: nat)
    requires r < p
    ensures (k * p + r) % p == r && (k * p + r) / p == k
  {
    var n := k * p + r;
    var q, m := n / p, n % p;
    assert q * p + m == k * p + r;
    NoOtherQuotient(q, k, m, r, p);
    NoOtherQuotient(k, q, r, m, p);
  }

  // ---------------------------------------------------------------------------
  // The emission loop over the entropy bytes
  // ---------------------------------------------------------------------------

  lemma {:induction false} ValueBound(bytes: seq<Byte>)
    ensures Value(bytes) < Pow(256, |bytes|)
  {
    if bytes != [] {
      ValueBound(bytes[..|bytes| - 1]);
    }
  }

  function Two(n: nat): (p: nat)
    ensures p > 0
  {
    Pow(2, n)
  }

  lemma TwoValues()
    ensures Two(0) == 1 && Two(1) == 2 && Two(2) == 4 && Two(3) == 8 && Two(4) == 16
    ensures Two(5) == 32 && Two(6) == 64 && Two(7) == 128
    ensures Two(8) == 256 && Two(9) == 512 && Two(10) == 1024 && Two(11) == 2048 && Two(12) == 4096
  {
    assert Two(3) == 8;
    assert Two(6) == 64;
    assert Two(9) == 512;
  }

  // Reading five bits above a seam of at most seven survives the 32-bit wrap.
  lemma WrapKeepsLowBits(p: nat, h: nat)
    requires h <= 7
    ensures ((p % WORD) / Two(h)) % 32 == (p / Two(h)) % 32
  {
    TwoValues();
    var d := Two(h);
    var k := WORD / (32 * d);
    assert k * (32 * d) == WORD;
    var q, r := p / WORD, p % WORD;
    assert p == q * WORD + r;
    assert q * WORD == (q * k) * (32 * d);
    assert p / d == 32 * (q * k) + r / d by {
      assert p == d * (32 * (q * k)) + r;
      QuotientOfMultiple(32 * (q * k), r, d);
    }
    ModOfMultiple(q * k, r / d, 32);
  }

  lemma QuotientOfMultiple(q: nat, r: nat, d: nat)
    requires d > 0
    ensures (d * q + r) / d == q + r / d
  {
    assert d * q + r == (q + r / d) * d + r % d;
    UniqueRemainder(q + r / d, r % d, d);
  }

  lemma SeamDown(p: nat, h: nat)
    requires h <= 7
    ensures (p / Two(h)) / 32 == p / Two(h + 5)
  {
    TwoValues();
  }

  lemma SeamByte(p: nat, b: Byte, h: nat)
    requires h <= 4
    ensures Above(p * 256 + b, h + 8) == Above(p, h)
  {
    TwoValues();
  }

  // ---------------------------------------------------------------------------
  // The generator
  // ---------------------------------------------------------------------------

  class ULIDGenerator {
    var lastMillis: int
    var entropy: array<Byte>

    ghost predicate Valid()
      reads this, entropy
    {
      entropy.Length == 10 && lastMillis >= -1
    }

    ghost function Entropy(): nat
      reads this, entropy
    {
      Value(entropy[..])
    }

    constructor ()
      ensures Valid() && fresh(entropy) && lastMillis == -1
    {
      lastMillis := -1;
      entropy := new Byte[10](_ => 0);
    }

    // `stamp` is the fix's time in whole milliseconds and `draw` what the
    // system's generator would hand out if it is asked.
    method Generate(stamp: int, draw: seq<Byte>) returns (out: string)
      requires Valid() && |draw| == 10
      modifies this`lastMillis, entropy
      ensures Valid()
      ensures lastMillis == Clamp(stamp)
      ensures Entropy() == NextEntropy(old(lastMillis), old(Entropy()), Clamp(stamp), Value(draw))
      ensures out == Encode(Clamp(stamp), Entropy())
      // A new millisecond takes the draw as it is; the same one takes the next number,
      // or the draw again once all eighty bits are ones.
      ensures var millis := if stamp > 0 then stamp else 0;
        if millis != old(lastMillis) then Entropy() == Value(draw)
        else if old(Entropy()) == 0xFFFF_FFFF_FFFF_FFFF_FFFF then Entropy() == Value(draw)
        else Entropy() == old(Entropy()) + 1
      // Read back digit by digit, the text is that time and those bits.
      ensures Clamp(stamp) < 0x4_0000_0000_0000 ==>
        && |out| == 26 && ReadBase32(out[..10]) == (if stamp > 0 then stamp else 0)
        && ReadBase32(out[10..]) == Entropy()
    {
      hide Value, Encode, ReadBase32;
      var millis := if stamp > 0 then stamp else 0;
      ValueBound(entropy[..]);
      assert Pow(256, 10) == ENTROPY_LIMIT by { BytesFillEntropy(); }
      if millis == lastMillis {
        IncrementEntropy(draw);
      } else {
        RedrawEntropy(draw);
        lastMillis := millis;
      }
      var time := EmitTime(millis);
      var random := EmitEntropy(entropy[..]);
      out := time + random;
      assert out == Encode(millis, Entropy()) by {
        EncodeIsTwoParts(millis, Entropy());
      }
      ValueBound(entropy[..]);
      if millis < TIME_LIMIT {
        EncodeReadsBack(millis, Entropy());
      }
    }

    method IncrementEntropy(draw: seq<Byte>)
      requires Valid() && |draw| == 10
      modifies entropy
      ensures Valid()
      ensures Entropy() == if old(Entropy()) + 1 == ENTROPY_LIMIT then Value(draw) else old(Entropy()) + 1
    {
      ghost var was := entropy[..];
      var index := entropy.Length - 1;
      while index >= 0
        invariant -1 <= index < 10
        invariant entropy[..index + 1] == was[..index + 1]
        invariant forall k :: index < k < 10 ==> was[k] == 255 && entropy[k] == 0
      {
        if entropy[index] == 255 {
          entropy[index] := 0;
        } else {
          entropy[index] := entropy[index] + 1;
          CarryStops(was, entropy[..], index);
          return;
        }
        index := index - 1;
      }
      AllOnes(was);
      RedrawEntropy(draw);
    }

    method RedrawEntropy(draw: seq<Byte>)
      requires Valid() && |draw| == 10
      modifies entropy
      ensures Valid() && entropy[..] == draw
    {
      for index := 0 to entropy.Length
        invariant entropy[..index] == draw[..index]
      {
        entropy[index] := draw[index];
      }
    }
  }

  // Peeling the last digit off what remains.
  lemma TimeDigit(all: seq<int>, remaining: nat, index: nat)
    requires index < |all| && Digits(remaining, index + 1) == all[..index + 1]
    ensures all[index] == remaining % 32
    ensures Digits(remaining / 32, index) == all[..index]
  {
    assert all[..index + 1] == all[..index] + [all[index]];
  }

  lemma SpelledOut(digits: seq<int>, text: string)
    requires forall i :: 0 <= i < |digits| ==> 0 <= digits[i] < 32
    requires |text| == |digits| && forall i :: 0 <= i < |digits| ==> text[i] == ALPHABET[digits[i]]
    ensures text == Spell(digits)
  {
  }

  method EmitTime(millis: nat) returns (out: string)
    ensures out == Spell(Digits(millis, TIME_CHARS))
  {
    hide Digits, Spell;
    var remaining := millis;
    ghost var all := Digits(millis, TIME_CHARS);
    var timeDigits := new char[TIME_CHARS](_ => '0');
    var index := TIME_CHARS - 1;
    while index >= 0
      invariant -1 <= index < TIME_CHARS
      invariant Digits(remaining, index + 1) == all[..index + 1]
      invariant forall k :: index < k < TIME_CHARS ==> timeDigits[k] == ALPHABET[all[k]]
    {
      TimeDigit(all, remaining, index);
      timeDigits[index] := ALPHABET[remaining % 32];
      remaining := remaining / 32;
      index := index - 1;
    }
    out := timeDigits[..];
    SpelledOut(all, out);
  }

  // The five bits above a seam.
  function FiveBits(bits: nat, held: nat): (d: int)
    ensures 0 <= d < 32
  {
    (bits / Two(held)) % 32
  }

  // What lies above the seam.
  function Above(p: nat, held: nat): nat {
    p / Two(held)
  }

  // Emitting the next digit below a seam that moves down by five bits.
  lemma EmitDigit(p: nat, bits: nat, held: nat, emitted: nat)
    requires held <= 7 && bits == p % WORD
    ensures Spell(Digits(Above(p, held), emitted + 1))
         == Spell(Digits(Above(p, held + 5), emitted)) + [ALPHABET[FiveBits(bits, held)]]
  {
    hide Two;
    WrapKeepsLowBits(p, held);
    SeamDown(p, held);
    var digit := (bits / Two(held)) % 32;
    assert Digits(p / Two(held), emitted + 1) == Digits(p / Two(held + 5), emitted) + [digit];
  }

  // The nested loop: a byte in, one or two five-bit digits out.
  method EmitEntropy(entropy: seq<Byte>) returns (out: string)
    requires |entropy| == 10
    ensures out == Spell(Digits(Value(entropy), RANDOM_CHARS))
  {
    hide Spell, Digits, Above, Value, FiveBits;
    out := "";
    var bits := 0;
    var held := 0;
    var emitted := 0;
    StartEmitting();
    assert entropy[..0] == [];
    for n := 0 to |entropy|
      invariant 0 <= held < 5 && 8 * n == 5 * emitted + held
      invariant bits == Value(entropy[..n]) % WORD
      invariant out == Spell(Digits(Above(Value(entropy[..n]), held), emitted))
    {
      ghost var p := Value(entropy[..n + 1]);
      ValueAppend(entropy[..n], entropy[n]);
      assert entropy[..n + 1] == entropy[..n] + [entropy[n]];
      SeamByte(Value(entropy[..n]), entropy[n], held);
      ShiftInByte(Value(entropy[..n]), entropy[n]);
      bits := (bits * 256 + entropy[n]) % WORD;
      held := held + 8;
      while held >= 5 && emitted < RANDOM_CHARS
        invariant 0 <= held <= 12 && 8 * (n + 1) == 5 * emitted + held
        invariant out == Spell(Digits(Above(p, held), emitted))
      {
        held := held - 5;
        EmitDigit(p, bits, held, emitted);
        out := out + [ALPHABET[FiveBits(bits, held)]];
        emitted := emitted + 1;
      }
    }
    assert entropy[..10] == entropy;
    NothingHeld(Value(entropy));
  }

  lemma ValueAppend(bytes: seq<Byte>, b: Byte)
    ensures Value(bytes + [b]) == Value(bytes) * 256 + b
  {
    assert (bytes + [b])[..|bytes|] == bytes;
  }

  lemma StartEmitting()
    ensures Value([]) == 0 && "" == Spell(Digits(Above(0, 0), 0))
  {
  }

  lemma NothingHeld(p: nat)
    ensures Above(p, 0) == p
  {
    TwoValues();
  }

  lemma ShiftInByte(p: nat, b: Byte)
    ensures ((p % WORD) * 256 + b) % WORD == (p * 256 + b) % WORD
  {
    var q, r := p / WORD, p % WORD;
    assert p * 256 + b == (q * 256) * WORD + (r * 256 + b);
    ModOfMultiple(q * 256, r * 256 + b, WORD);
  }

  lemma BytesFillEntropy()
    ensures Pow(256, 10) == ENTROPY_LIMIT
  {
    assert Pow(256, 5) == 0x100_0000_0000;
    assert Pow(256, 8) == 0x1_0000_0000_0000_0000;
  }

  lemma {:induction false} ValueOfZeros(s: seq<Byte>, k: nat)
    requires k <= |s| && forall i :: k <= i < |s| ==> s[i] == 0
    ensures Value(s) == Value(s[..k]) * Pow(256, |s| - k)
  {
    if k < |s| {
      var t := s[..|s| - 1];
      ValueOfZeros(t, k);
      assert t[..k] == s[..k];
      MoveFactor(Value(s[..k]), Pow(256, |t| - k));
    } else {
      assert s[..k] == s;
    }
  }

  lemma {:induction false} ValueOfOnes(s: seq<Byte>, k: nat)
    requires k <= |s| && forall i :: k <= i < |s| ==> s[i] == 255
    ensures Value(s) + 1 == (Value(s[..k]) + 1) * Pow(256, |s| - k)
  {
    if k < |s| {
      var t := s[..|s| - 1];
      ValueOfOnes(t, k);
      assert t[..k] == s[..k];
      MoveFactor(Value(s[..k]) + 1, Pow(256, |t| - k));
    } else {
      assert s[..k] == s;
    }
  }

  lemma MoveFactor(a: nat, p: nat)
    ensures a * (256 * p) == (a * p) * 256
  {
  }

  // The carry ran through a tail of 0xFF and stopped at `index`: the number rose by one.
  lemma CarryStops(was: seq<Byte>, now: seq<Byte>, index: nat)
    requires |was| == |now| == 10 && index < 10
    requires now[..index] == was[..index] && was[index] < 255 && now[index] == was[index] + 1
    requires forall k :: index < k < 10 ==> was[k] == 255 && now[k] == 0
    ensures Value(now) == Value(was) + 1 < ENTROPY_LIMIT
  {
    hide Pow, Value;
    ValueOfOnes(was, index + 1);
    ValueOfZeros(now, index + 1);
    assert was[..index + 1] == was[..index] + [was[index]] && now[..index + 1] == now[..index] + [now[index]];
    ValueAppend(was[..index], was[index]);
    ValueAppend(now[..index], now[index]);
    assert Value(now[..index + 1]) == Value(was[..index + 1]) + 1;
    ValueBound(now);
    BytesFillEntropy();
  }

  lemma AllOnes(was: seq<Byte>)
    requires |was| == 10 && forall k :: 0 <= k < 10 ==> was[k] == 255
    ensures Value(was) + 1 == ENTROPY_LIMIT
  {
    ValueOfOnes(was, 0);
    assert was[..0] == [];
    BytesFillEntropy();
  }

  // ---------------------------------------------------------------------------
  // Reading an id back
  // ---------------------------------------------------------------------------

  // Crockford's base 32 leaves out I, L, O and U.
  function Place(c: char): int {
    if c <= '9' then c as int - '0' as int
    else if c <= 'H' then 10 + (c as int - 'A' as int)
    else if c <= 'K' then 18 + (c as int - 'J' as int)
    else if c <= 'N' then 20 + (c as int - 'M' as int)
    else if c <= 'T' then 22 + (c as int - 'P' as int)
    else 27 + (c as int - 'V' as int)
  }

  function ReadBase32(text: string): int {
    if text == [] then 0 else ReadBase32(text[..|text| - 1]) * 32 + Place(text[|text| - 1])
  }

  lemma PlaceOfDigit(d: nat)
    requires d < 32
    ensures Place(ALPHABET[d]) == d
  {
  }

  lemma {:induction false} DigitsReadBack(v: nat, n: nat)
    requires v < Pow(32, n)
    ensures |Spell(Digits(v, n))| == n && ReadBase32(Spell(Digits(v, n))) == v
    decreases n
  {
    hide Place;
    if n > 0 {
      var higher := Spell(Digits(v / 32, n - 1));
      assert v / 32 < Pow(32, n - 1);
      DigitsReadBack(v / 32, n - 1);
      PlaceOfDigit(v % 32);
      assert Spell(Digits(v, n)) == higher + [ALPHABET[v % 32]];
      assert (higher + [ALPHABET[v % 32]])[..n - 1] == higher;
    }
  }

  lemma EncodeIsTwoParts(millis: nat, entropy: nat)
    ensures Encode(millis, entropy) == Spell(Digits(millis, TIME_CHARS)) + Spell(Digits(entropy, RANDOM_CHARS))
  {
    hide Digits;
  }

  // The first ten characters are the time, the other sixteen the entropy.
  lemma EncodeReadsBack(millis: nat, entropy: nat)
    requires millis < TIME_LIMIT && entropy < ENTROPY_LIMIT
    ensures var id := Encode(millis, entropy);
      |id| == 26 && ReadBase32(id[..10]) == millis && ReadBase32(id[10..]) == entropy
  {
    hide Digits, ReadBase32;
    PowersAreLimits();
    DigitsReadBack(millis, TIME_CHARS);
    DigitsReadBack(entropy, RANDOM_CHARS);
    var id := Encode(millis, entropy);
    assert id[..10] == Spell(Digits(millis, TIME_CHARS));
    assert id[10..] == Spell(Digits(entropy, RANDOM_CHARS));
  }

  // ---------------------------------------------------------------------------
  // What the generator promises over calls
  // ---------------------------------------------------------------------------

  function Clamp(stamp: int): nat { if stamp > 0 then stamp else 0 }

  // Same millisecond: one more than last time, unless all eighty bits carry
  // out; another millisecond: a fresh draw.
  function NextEntropy(lastMillis: int, entropy: nat, millis: nat, draw: nat): nat {
    if millis == lastMillis && entropy + 1 != ENTROPY_LIMIT then entropy + 1 else draw
  }

  datatype Call = Call(stamp: int, draw: nat)

  // The entropy after the last of the calls, the first of which found a fresh generator.
  function EntropyAfter(calls: seq<Call>): nat
    requires calls != []
  {
    var n := |calls| - 1;
    var call := calls[n];
    if n == 0 then call.draw
    else NextEntropy(Clamp(calls[n - 1].stamp), EntropyAfter(calls[..n]), Clamp(call.stamp), call.draw)
  }

  function IdOf(calls: seq<Call>): string
    requires calls != []
  {
    Encode(Clamp(calls[|calls| - 1].stamp), EntropyAfter(calls))
  }

  predicate Drawn(calls: seq<Call>) {
    forall i :: 0 <= i < |calls| ==> calls[i].draw < ENTROPY_LIMIT && Clamp(calls[i].stamp) < TIME_LIMIT
  }

  lemma {:induction false} EntropyStaysBelow(calls: seq<Call>)
    requires calls != [] && Drawn(calls)
    ensures EntropyAfter(calls) < ENTROPY_LIMIT
  {
    var n := |calls| - 1;
    if n > 0 {
      EntropyStaysBelow(calls[..n]);
    }
  }

  lemma OneMoreCall(calls: seq<Call>, next: Call)
    requires calls != []
    ensures EntropyAfter(calls + [next])
         == NextEntropy(Clamp(calls[|calls| - 1].stamp), EntropyAfter(calls), Clamp(next.stamp), next.draw)
  {
    assert (calls + [next])[..|calls|] == calls;
  }

  lemma DrawnPrefix(calls: seq<Call>, next: Call)
    requires Drawn(calls + [next])
    ensures Drawn(calls) && next.draw < ENTROPY_LIMIT && Clamp(next.stamp) < TIME_LIMIT
  {
    var all := calls + [next];
    assert all[|calls|] == next;
    assert forall i :: 0 <= i < |calls| ==> calls[i] == all[i];
  }

  // One more call yields a later id exactly when the clock moved on, or it
  // stood still and the eighty bits had room for one more.
  lemma NextIdIsLater(calls: seq<Call>, next: Call)
    requires calls != [] && Drawn(calls + [next])
    ensures var last := Clamp(calls[|calls| - 1].stamp);
      Before(IdOf(calls), IdOf(calls + [next])) <==>
      Clamp(next.stamp) > last || (Clamp(next.stamp) == last && EntropyAfter(calls) + 1 < ENTROPY_LIMIT)
  {
    hide Encode, Before, EntropyAfter;
    DrawnPrefix(calls, next);
    EntropyStaysBelow(calls);
    EntropyStaysBelow(calls + [next]);
    OneMoreCall(calls, next);
    EncodeKeepsOrder(Clamp(calls[|calls| - 1].stamp), EntropyAfter(calls), Clamp(next.stamp), EntropyAfter(calls + [next]));
  }

  // The clock never runs back and no millisecond uses up its eighty bits.
  predicate Orderly(calls: seq<Call>) {
    forall n :: 0 < n < |calls| ==>
      var last := Clamp(calls[n - 1].stamp);
      Clamp(calls[n].stamp) > last
      || (Clamp(calls[n].stamp) == last && EntropyAfter(calls[..n]) + 1 < ENTROPY_LIMIT)
  }

  lemma {:induction false} BeforeIsTransitive(a: string, b: string, c: string)
    requires Before(a, b) && Before(b, c)
    ensures Before(a, c)
  {
    if a != [] && b != [] && c != [] && a[0] == b[0] == c[0] {
      BeforeIsTransitive(a[1..], b[1..], c[1..]);
    }
  }

  // In an orderly run every id sorts after every earlier one, so none repeats.
  lemma {:induction false} OrderlyIdsAscend(calls: seq<Call>, i: nat, j: nat)
    requires Drawn(calls) && Orderly(calls) && 0 < i < j <= |calls|
    ensures Before(IdOf(calls[..i]), IdOf(calls[..j]))
    decreases j
  {
    var m := j - 1;
    assert calls[..j] == calls[..m] + [calls[m]];
    assert Drawn(calls[..j]) by {
      assert forall k :: 0 <= k < j ==> calls[..j][k] == calls[k];
    }
    NextIdIsLater(calls[..m], calls[m]);
    assert Before(IdOf(calls[..m]), IdOf(calls[..j]));
    if i < m {
      OrderlyIdsAscend(calls, i, m);
      BeforeIsTransitive(IdOf(calls[..i]), IdOf(calls[..m]), IdOf(calls[..j]));
    }
  }
}
