/**
 * CRC-32 as section 8 of RFC 1952 defines it: a left fold over the bytes of the message,
 * with the register inverted before and after. The ROM routine crc32_le takes the previous result
 * as its first argument, which is what lets a download be checksummed chunk by chunk.
 */
module Crc32 {
  import opened Basics

  function Invert(c: bv32): bv32 {
    !c
  }

  const POLYNOMIAL: bv32 := 0xEDB88320

  function BitStep(c: bv32): bv32 {
    if c & 1 == 1 then POLYNOMIAL ^ (c >> 1) else c >> 1
  }

  function BitSteps(c: bv32, n: nat): bv32 {
    if n == 0 then c else BitStep(BitSteps(c, n - 1))
  }

  function Mix(c: bv32, b: byte): bv32 {
    c ^ (b as bv32)
  }

  function ByteStep(c: bv32, b: byte): bv32 {
    BitSteps(Mix(c, b), 8)
  }

  /** Left fold over a message. The state type is a parameter so that its laws need no bit arithmetic. */
  function Fold<S, B>(step: (S, B) -> S, s: S, data: seq<B>): S {
    if data == [] then s else step(Fold(step, s, data[..|data| - 1]), data[|data| - 1])
  }

  /** crc32_le(crc, data): continue the checksum crc over data. */
  function Update(crc: bv32, data: seq<byte>): bv32 {
    Invert(Fold(ByteStep, Invert(crc), data))
  }

  /** The checksum of a whole message. */
  function Crc(data: seq<byte>): bv32 {
    Update(0, data)
  }

  lemma {:induction false} FoldConcat<S, B>(step: (S, B) -> S, s: S, a: seq<B>, b: seq<B>)
    ensures Fold(step, s, a + b) == Fold(step, Fold(step, s, a), b)
  {
    if b == [] {
      assert a + b == a;
    } else {
      var init := b[..|b| - 1];
      FoldConcat(step, s, a, init);
      assert (a + b)[..|a + b| - 1] == a + init;
    }
  }

  lemma {:induction false} FoldInjective<S(!new), B(!new)>(step: (S, B) -> S, s: S, t: S, data: seq<B>)
    requires forall u, v, x :: step(u, x) == step(v, x) ==> u == v
    requires Fold(step, s, data) == Fold(step, t, data)
    ensures s == t
  {
    if data != [] {
      FoldInjective(step, s, t, data[..|data| - 1]);
    }
  }

  lemma InvertTwice(c: bv32)
    ensures Invert(Invert(c)) == c
  {}

  /** The chaining law: checksumming piece by piece is checksumming the whole. */
  lemma UpdateConcat(crc: bv32, a: seq<byte>, b: seq<byte>)
    ensures Update(Update(crc, a), b) == Update(crc, a + b)
  {
    hide Fold, ByteStep, Invert;
    FoldConcat(ByteStep, Invert(crc), a, b);
    InvertTwice(Fold(ByteStep, Invert(crc), a));
  }

  lemma UpdateNothing(crc: bv32)
    ensures Update(crc, []) == crc
  {
    InvertTwice(crc);
  }

  lemma BitStepInjective(c: bv32, d: bv32)
    requires BitStep(c) == BitStep(d)
    ensures c == d
  {}

  lemma {:induction false} BitStepsInjective(c: bv32, d: bv32, n: nat)
    requires BitSteps(c, n) == BitSteps(d, n)
    ensures c == d
  {
    hide BitStep;
    if n > 0 {
      BitStepInjective(BitSteps(c, n - 1), BitSteps(d, n - 1));
      BitStepsInjective(c, d, n - 1);
    }
  }

  lemma MixInjective(c: bv32, d: bv32, x: byte, y: byte)
    ensures Mix(c, x) == Mix(d, x) ==> c == d
    ensures Mix(c, x) == Mix(c, y) ==> x == y
  {}

  /** One byte of the message moves the register one-to-one, both in the register and in the byte. */
  lemma ByteStepInjective(c: bv32, d: bv32, x: byte, y: byte)
    ensures ByteStep(c, x) == ByteStep(d, x) ==> c == d
    ensures ByteStep(c, x) == ByteStep(c, y) ==> x == y
  {
    hide BitSteps, Mix;
    MixInjective(c, d, x, y);
    if ByteStep(c, x) == ByteStep(d, x) { BitStepsInjective(Mix(c, x), Mix(d, x), 8); }
    if ByteStep(c, x) == ByteStep(c, y) { BitStepsInjective(Mix(c, x), Mix(c, y), 8); }
  }

  /** A message and a copy of it with one byte changed never have the same checksum. */
  lemma SingleByteErrorDetected(before: seq<byte>, a: byte, b: byte, after: seq<byte>)
    requires a != b
    ensures Crc(before + [a] + after) != Crc(before + [b] + after)
  {
    hide ByteStep, Invert;
    var init := Invert(0);
    var left, right := before + [a], before + [b];
    FoldConcat(ByteStep, init, left, after);
    FoldConcat(ByteStep, init, right, after);
    InvertTwice(Fold(ByteStep, init, left + after));
    InvertTwice(Fold(ByteStep, init, right + after));
    assert left[..|before|] == before && right[..|before|] == before;
    ByteStepInjective(Fold(ByteStep, init, before), 0, a, b);
    forall u, v, x | ByteStep(u, x) == ByteStep(v, x) ensures u == v { ByteStepInjective(u, v, x, x); }
    if Crc(left + after) == Crc(right + after) {
      FoldInjective(ByteStep, Fold(ByteStep, init, left), Fold(ByteStep, init, right), after);
    }
  }

  // ---- The step, table by table ----------------------------------------------------------------------

  function Xor(c: bv32, d: bv32): bv32 {
    c ^ d
  }

  function Half(c: bv32): bv32 {
    c >> 1
  }

  predicate IsOdd(c: bv32) {
    c & 1 == 1
  }

  lemma BitStepCases(c: bv32)
    ensures BitStep(c) == if IsOdd(c) then Xor(POLYNOMIAL, Half(c)) else Half(c)
  {}

  lemma XorHalves(c: bv32, d: bv32)
    ensures Half(Xor(c, d)) == Xor(Half(c), Half(d))
    ensures IsOdd(Xor(c, d)) <==> IsOdd(c) != IsOdd(d)
  {}

  lemma XorAssociative(x: bv32, y: bv32, z: bv32)
    ensures Xor(Xor(x, y), z) == Xor(x, Xor(y, z))
  {}

  lemma XorCommutative(x: bv32, y: bv32)
    ensures Xor(x, y) == Xor(y, x)
  {}

  lemma XorCancels(p: bv32, x: bv32)
    ensures Xor(p, Xor(p, x)) == x
  {}

  lemma XorLaws(p: bv32, x: bv32, y: bv32)
    ensures Xor(Xor(p, x), Xor(p, y)) == Xor(x, y)
    ensures Xor(Xor(p, x), y) == Xor(p, Xor(x, y)) && Xor(x, Xor(p, y)) == Xor(p, Xor(x, y))
  {
    hide Xor;
    XorAssociative(p, x, y);
    XorAssociative(x, p, y);
    XorCommutative(x, p);
    XorAssociative(p, x, Xor(p, y));
    XorCancels(p, Xor(x, y));
  }

  lemma BitStepLinear(c: bv32, d: bv32)
    ensures BitStep(Xor(c, d)) == Xor(BitStep(c), BitStep(d))
  {
    hide BitStep, Xor, Half, IsOdd;
    BitStepCases(c);
    BitStepCases(d);
    BitStepCases(Xor(c, d));
    XorHalves(c, d);
    XorLaws(POLYNOMIAL, Half(c), Half(d));
  }

  lemma {:induction false} BitStepsLinear(c: bv32, d: bv32, n: nat)
    ensures BitSteps(Xor(c, d), n) == Xor(BitSteps(c, n), BitSteps(d, n))
  {
    hide BitStep, Xor;
    if n > 0 {
      BitStepsLinear(c, d, n - 1);
      BitStepLinear(BitSteps(c, n - 1), BitSteps(d, n - 1));
    }
  }

  lemma EightSteps(c: bv32)
    ensures BitSteps(c, 8) == BitStep(BitStep(BitStep(BitStep(BitStep(BitStep(BitStep(BitStep(c))))))))
  {
    hide BitStep;
    assert BitSteps(c, 0) == c;
    assert BitSteps(c, 1) == BitStep(BitSteps(c, 0));
    assert BitSteps(c, 2) == BitStep(BitSteps(c, 1));
    assert BitSteps(c, 3) == BitStep(BitSteps(c, 2));
    assert BitSteps(c, 4) == BitStep(BitSteps(c, 3));
    assert BitSteps(c, 5) == BitStep(BitSteps(c, 4));
    assert BitSteps(c, 6) == BitStep(BitSteps(c, 5));
    assert BitSteps(c, 7) == BitStep(BitSteps(c, 6));
    assert BitSteps(c, 8) == BitStep(BitSteps(c, 7));
  }

  function ShiftByte(c: bv32): bv32 {
    c >> 8
  }

  predicate IsLowByteZero(c: bv32) {
    c & 0xFF == 0
  }

  /** Eight halvings of a register whose low byte is zero. */
  lemma Halvings(c: bv32)
    requires IsLowByteZero(c)
    ensures var c1 := Half(c);
            var c2 := Half(c1);
            var c3 := Half(c2);
            var c4 := Half(c3);
            var c5 := Half(c4);
            var c6 := Half(c5);
            var c7 := Half(c6);
            && !IsOdd(c) && !IsOdd(c1) && !IsOdd(c2) && !IsOdd(c3)
            && !IsOdd(c4) && !IsOdd(c5) && !IsOdd(c6) && !IsOdd(c7) && Half(c7) == ShiftByte(c)
  {}

  lemma ShiftedOut(c: bv32)
    requires IsLowByteZero(c)
    ensures BitSteps(c, 8) == ShiftByte(c)
  {
    hide BitStep, BitSteps, Half, IsOdd, IsLowByteZero, ShiftByte;
    Halvings(c);
    EightSteps(c);
    var c1 := Half(c);
    var c2 := Half(c1);
    var c3 := Half(c2);
    var c4 := Half(c3);
    var c5 := Half(c4);
    var c6 := Half(c5);
    BitStepCases(c);
    BitStepCases(c1);
    BitStepCases(c2);
    BitStepCases(c3);
    BitStepCases(c4);
    BitStepCases(c5);
    BitStepCases(c6);
    BitStepCases(Half(c6));
  }

  /** The index into the table: the low byte of register and message byte. */
  function Index(c: bv32, b: byte): bv32 {
    (c ^ (b as bv32)) & 0xFF
  }

  function HighBytes(c: bv32): bv32 {
    c & 0xFFFFFF00
  }

  lemma LowByte(c: bv32, b: byte)
    ensures Mix(c, b) == Xor(Index(c, b), HighBytes(c))
    ensures IsLowByteZero(HighBytes(c)) && ShiftByte(HighBytes(c)) == ShiftByte(c)
  {}

  /** The step of section 8 of RFC 1952, which looks the low byte up in a table and shifts the rest. */
  lemma TableStep(c: bv32, b: byte)
    ensures ByteStep(c, b) == Xor(BitSteps(Index(c, b), 8), ShiftByte(c))
  {
    hide BitSteps, Mix, Index, HighBytes, ShiftByte, Xor, IsLowByteZero;
    LowByte(c, b);
    BitStepsLinear(Index(c, b), HighBytes(c), 8);
    ShiftedOut(HighBytes(c));
  }

  /** The entries of that table from which all others follow: those of the single bits. */
  lemma TableOfBits()
    ensures BitSteps(0x01, 8) == 0x77073096 && BitSteps(0x02, 8) == 0xEE0E612C && BitSteps(0x04, 8) == 0x076DC419
    ensures BitSteps(0x08, 8) == 0x0EDB8832 && BitSteps(0x10, 8) == 0x1DB71064 && BitSteps(0x20, 8) == 0x3B6E20C8
    ensures BitSteps(0x40, 8) == 0x76DC4190 && BitSteps(0x80, 8) == 0xEDB88320
  {
    EightSteps(0x01);
    EightSteps(0x02);
    EightSteps(0x04);
    EightSteps(0x08);
    EightSteps(0x10);
    EightSteps(0x20);
    EightSteps(0x40);
    EightSteps(0x80);
  }

  lemma OneByte(c: bv32, b: byte)
    ensures ByteStep(c, b) ==
            BitStep(BitStep(BitStep(BitStep(BitStep(BitStep(BitStep(BitStep(c ^ (b as bv32)))))))))
  {
    EightSteps(Mix(c, b));
  }

  /** A known value: the checksum of one letter. */
  lemma CheckValue()
    ensures Crc([0x61]) == 0xE8B7BE43
  {
    var data: seq<byte> := [0x61];
    OneByte(0xFFFFFFFF, 0x61);
    assert data[..0] == [];
    assert Fold(ByteStep, 0xFFFFFFFF, data) == ByteStep(0xFFFFFFFF, 0x61);
  }

  // ---- The byte order --------------------------------------------------------------------------------

  /** The value of the register as a number. */
  function AsNumber(x: bv32): (n: nat)
    ensures n < UINT32
  {
    x as nat
  }

  /** The 32-bit number with its four bytes in reverse order. */
  function Reversed(n: nat): nat {
    n % 0x100 * 0x1000000 + n / 0x100 % 0x100 * 0x10000 + n / 0x10000 % 0x100 * 0x100 + n / 0x1000000
  }

  /** The byte order swap of _otaupdate_checksum_verification, shift by shift. */
  function SwapBytes(x: bv32): bv32 {
    var a := (x & 0xFF000000) >> 24;
    var b := (x & 0x00FF0000) >> 16;
    var c := (x & 0x0000FF00) >> 8;
    var d := x & 0x000000FF;
    (d << 24) | (c << 16) | (b << 8) | a
  }

  lemma SwapBytesInvolution(x: bv32)
    ensures SwapBytes(SwapBytes(x)) == x
  {}

  function Widen(b: byte): bv32 {
    b as bv32
  }

  function ByteValue(b: byte): (n: nat)
    ensures n < 256
  {
    b as nat
  }

  function Low(x: bv32): byte
    requires x <= 0xFF
  {
    x as byte
  }

  lemma LowIs(x: bv32)
    requires x <= 0xFF
    ensures Widen(Low(x)) == x
  {}

  function Join(a: bv32, b: bv32, c: bv32, d: bv32): bv32 {
    (a << 24) | (b << 16) | (c << 8) | d
  }

  /** The word with these bytes, from the most to the least significant. */
  function Word(a: byte, b: byte, c: byte, d: byte): bv32 {
    Join(Widen(a), Widen(b), Widen(c), Widen(d))
  }

  lemma JoinValue(a: byte, b: byte, c: byte, d: byte)
    ensures (((a as bv32) << 24) | ((b as bv32) << 16) | ((c as bv32) << 8) | (d as bv32)) as nat ==
            (a as nat) * 0x1000000 + (b as nat) * 0x10000 + (c as nat) * 0x100 + (d as nat)
  {}

  lemma WordValue(a: byte, b: byte, c: byte, d: byte)
    ensures AsNumber(Word(a, b, c, d)) ==
            ByteValue(a) * 0x1000000 + ByteValue(b) * 0x10000 + ByteValue(c) * 0x100 + ByteValue(d)
  {
    JoinValue(a, b, c, d);
  }

  lemma Parts(x: bv32)
    ensures x >> 24 <= 0xFF && (x >> 16) & 0xFF <= 0xFF && (x >> 8) & 0xFF <= 0xFF && x & 0xFF <= 0xFF
    ensures x == Join(x >> 24, (x >> 16) & 0xFF, (x >> 8) & 0xFF, x & 0xFF)
    ensures SwapBytes(x) == Join(x & 0xFF, (x >> 8) & 0xFF, (x >> 16) & 0xFF, x >> 24)
  {}

  lemma BytesOf(x: bv32) returns (a: byte, b: byte, c: byte, d: byte)
    ensures x == Word(a, b, c, d) && SwapBytes(x) == Word(d, c, b, a)
  {
    hide SwapBytes, Low, Widen, Join;
    Parts(x);
    a, b, c, d := Low(x >> 24), Low((x >> 16) & 0xFF), Low((x >> 8) & 0xFF), Low(x & 0xFF);
    LowIs(x >> 24);
    LowIs((x >> 16) & 0xFF);
    LowIs((x >> 8) & 0xFF);
    LowIs(x & 0xFF);
  }

  /** What the swap computes: the four bytes of the number change their weights. */
  lemma SwapBytesValue(x: bv32)
    ensures var n := AsNumber(x);
            AsNumber(SwapBytes(x)) ==
            n % 256 * 0x1000000 + n / 0x100 % 256 * 0x10000 + n / 0x10000 % 256 * 0x100 + n / 0x1000000
    ensures AsNumber(SwapBytes(x)) == Reversed(AsNumber(x))
  {
    hide SwapBytes, AsNumber, Word, ByteValue;
    var a, b, c, d := BytesOf(x);
    WordValue(a, b, c, d);
    WordValue(d, c, b, a);
    Weights(ByteValue(a), ByteValue(b), ByteValue(c), ByteValue(d));
  }

  lemma Weights(a: nat, b: nat, c: nat, d: nat)
    requires a < 256 && b < 256 && c < 256 && d < 256
    ensures var n := a * 0x1000000 + b * 0x10000 + c * 0x100 + d;
            n % 256 == d && n / 0x100 % 256 == c && n / 0x10000 % 256 == b && n / 0x1000000 == a
  {
    var n := a * 0x1000000 + b * 0x10000 + c * 0x100 + d;
    assert n / 0x100 == a * 0x10000 + b * 0x100 + c;
    assert n / 0x10000 == a * 0x100 + b;
  }
}
