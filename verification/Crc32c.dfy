/**
 CRC-32C: the table-driven checksum of records and frames, its definition as a shift
 register fed one bit at a time (section 12.1 of RFC 3720), and the damage it always detects.

 Registers are 32-bit unsigned numbers: a shift right is a division by two, a mask with 0xFF
 a remainder by 256, and exclusive or is defined digit by digit below.
 */
module Crc32c {
  import opened Bytes

  // ---- exclusive or on numbers ------------------------------------------------

  function Xor(a: nat, b: nat): nat {
    if a == 0 && b == 0 then 0 else 2 * Xor(a / 2, b / 2) + (a % 2 + b % 2) % 2
  }

  lemma {:induction false} XorZero(a: nat)
    ensures Xor(a, 0) == a
  {
    if a > 0 {
      XorZero(a / 2);
    }
  }

  lemma {:induction false} XorSwap(a: nat, b: nat)
    ensures Xor(a, b) == Xor(b, a)
  {
    if a > 0 || b > 0 {
      XorSwap(a / 2, b / 2);
    }
  }

  lemma {:induction false} XorAssoc(a: nat, b: nat, c: nat)
    ensures Xor(Xor(a, b), c) == Xor(a, Xor(b, c))
    decreases a + b + c
  {
    if a > 0 || b > 0 || c > 0 {
      XorAssoc(a / 2, b / 2, c / 2);
      XorDigit(a, b);
      XorDigit(b, c);
      XorDigit(Xor(a, b), c);
      XorDigit(a, Xor(b, c));
      ParityAssoc(a % 2, b % 2, c % 2);
      SameNumber(Xor(Xor(a, b), c), Xor(a, Xor(b, c)));
    }
  }

  lemma XorDigit(a: nat, b: nat)
    ensures Xor(a, b) / 2 == Xor(a / 2, b / 2) && Xor(a, b) % 2 == (a % 2 + b % 2) % 2
  {
  }

  lemma ParityAssoc(p: nat, q: nat, r: nat)
    requires p < 2 && q < 2 && r < 2
    ensures ((p + q) % 2 + r) % 2 == (p + (q + r) % 2) % 2
  {
  }

  lemma SameNumber(x: nat, y: nat)
    requires x / 2 == y / 2 && x % 2 == y % 2
    ensures x == y
  {
  }

  lemma {:induction false} XorSelf(a: nat)
    ensures Xor(a, a) == 0
  {
    if a > 0 {
      XorSelf(a / 2);
    }
  }

  /** Mixing in the same number twice undoes it. */
  lemma XorCancel(a: nat, b: nat)
    ensures Xor(Xor(a, b), b) == a
    ensures Xor(b, Xor(b, a)) == a
  {
    XorAssoc(a, b, b);
    XorAssoc(b, b, a);
    XorSelf(b);
    XorZero(a);
    XorSwap(0, a);
  }

  function Pow2(n: nat): (p: nat)
    ensures p >= 1
  {
    if n == 0 then 1 else 2 * Pow2(n - 1)
  }

  lemma Powers()
    ensures Pow2(8) == 256 && Pow2(31) == 0x8000_0000 && Pow2(32) == 0x1_0000_0000
  {
    assert Pow2(8) == 256 by { assert Pow2(4) == 16; }
    assert Pow2(16) == 0x1_0000 by { assert Pow2(12) == 4096; }
    assert Pow2(24) == 0x100_0000 by { assert Pow2(20) == 0x10_0000; }
    assert Pow2(31) == 0x8000_0000 by { assert Pow2(28) == 0x1000_0000; }
  }

  lemma {:induction false} XorBound(a: nat, b: nat, n: nat)
    requires a < Pow2(n) && b < Pow2(n)
    ensures Xor(a, b) < Pow2(n)
  {
    if n > 0 {
      XorBound(a / 2, b / 2, n - 1);
    }
  }

  lemma {:induction false} XorTop(a: nat, b: nat, n: nat)
    requires a < Pow2(n) <= b
    ensures Xor(a, b) >= Pow2(n)
  {
    if n == 0 {
      XorSwap(a, b);
      XorZero(b);
    } else {
      XorTop(a / 2, b / 2, n - 1);
    }
  }

  // ---- the reference: one message bit at a time -------------------------------

  /** The Castagnoli polynomial in reflected bit order. */
  const POLY: nat := 0x82F6_3B78
  const SEED: nat := 0xFFFF_FFFF

  function Shift(x: nat): nat {
    if x % 2 == 1 then Xor(x / 2, POLY) else x / 2
  }

  function Down(x: nat, n: nat): nat {
    if n == 0 then x else Down(x, n - 1) / 2
  }

  /** Feeds the n lowest bits of b, least significant first. */
  function FeedBits(state: nat, b: nat, n: nat): nat {
    if n == 0 then state else Shift(Xor(FeedBits(state, b, n - 1), Down(b, n - 1) % 2))
  }

  function FeedSerially(state: nat, bytes: seq<byte>): nat
    decreases |bytes|
  {
    if bytes == [] then state else FeedSerially(FeedBits(state, bytes[0], 8), bytes[1..])
  }

  /** The checksum the record and frame formats store: the complement of the register. */
  function Crc(bytes: seq<byte>): u32 {
    FeedBound(SEED, bytes);
    0xFFFF_FFFF - FeedSerially(SEED, bytes)
  }

  lemma ShiftBound(x: nat)
    requires x < 0x1_0000_0000
    ensures Shift(x) < 0x1_0000_0000
  {
    Powers();
    XorBound(x / 2, POLY, 32);
  }

  lemma {:induction false} FeedBitsBound(state: nat, b: nat, n: nat)
    requires state < 0x1_0000_0000
    ensures FeedBits(state, b, n) < 0x1_0000_0000
  {
    if n > 0 {
      FeedBitsBound(state, b, n - 1);
      Powers();
      XorBound(FeedBits(state, b, n - 1), Down(b, n - 1) % 2, 32);
      ShiftBound(Xor(FeedBits(state, b, n - 1), Down(b, n - 1) % 2));
    }
  }

  lemma {:induction false} FeedBound(state: nat, bytes: seq<byte>)
    requires state < 0x1_0000_0000
    ensures FeedSerially(state, bytes) < 0x1_0000_0000
    decreases |bytes|
  {
    if bytes != [] {
      FeedBitsBound(state, bytes[0], 8);
      FeedBound(FeedBits(state, bytes[0], 8), bytes[1..]);
    }
  }

  // ---- several shifts at once -------------------------------------------------

  function Shifts(x: nat, n: nat): nat {
    if n == 0 then x else Shift(Shifts(x, n - 1))
  }

  function Up(z: nat, n: nat): nat
    decreases n
  {
    if n == 0 then z else Up(2 * z, n - 1)
  }

  lemma EightUp(z: nat)
    ensures Up(z, 8) == 256 * z && Down(z, 8) == z / 256
  {
    assert Up(z, 8) == Up(2 * z, 7) == Up(4 * z, 6) == Up(8 * z, 5) == Up(16 * z, 4);
    assert Up(16 * z, 4) == Up(32 * z, 3) == Up(64 * z, 2) == Up(128 * z, 1) == Up(256 * z, 0);
    assert Down(z, 2) == z / 4 by { assert Down(z, 1) == z / 2; }
    assert Down(z, 4) == z / 16 by { assert Down(z, 3) == z / 8; }
    assert Down(z, 6) == z / 64 by { assert Down(z, 5) == z / 32; }
    assert Down(z, 8) == z / 256 by { assert Down(z, 7) == z / 128; }
  }

  /** An even number mixed in before a shift arrives halved after it. */
  lemma ShiftLinear(x: nat, z: nat)
    ensures Shift(Xor(x, 2 * z)) == Xor(Shift(x), z)
  {
    assert Xor(x, 2 * z) / 2 == Xor(x / 2, z) && Xor(x, 2 * z) % 2 == x % 2;
    XorAssoc(x / 2, z, POLY);
    XorSwap(z, POLY);
    XorAssoc(x / 2, POLY, z);
  }

  lemma {:induction false} ShiftsLinear(x: nat, z: nat, n: nat)
    ensures Shifts(Xor(x, Up(z, n)), n) == Xor(Shifts(x, n), z)
    decreases n
  {
    if n > 0 {
      ShiftsLinear(x, 2 * z, n - 1);
      ShiftLinear(Shifts(x, n - 1), z);
    }
  }

  /** The top bit of the shifted register tells whether the polynomial was mixed in. */
  lemma ShiftInjective(x: nat, y: nat)
    requires x < 0x1_0000_0000 && y < 0x1_0000_0000 && Shift(x) == Shift(y)
    ensures x == y
  {
    Powers();
    XorTop(x / 2, POLY, 31);
    XorTop(y / 2, POLY, 31);
    XorCancel(x / 2, POLY);
    XorCancel(y / 2, POLY);
  }

  lemma {:induction false} ShiftsInjective(x: nat, y: nat, n: nat)
    requires x < 0x1_0000_0000 && y < 0x1_0000_0000 && Shifts(x, n) == Shifts(y, n)
    ensures x == y
  {
    if n > 0 {
      ShiftsBound(x, n - 1);
      ShiftsBound(y, n - 1);
      ShiftInjective(Shifts(x, n - 1), Shifts(y, n - 1));
      ShiftsInjective(x, y, n - 1);
    }
  }

  lemma {:induction false} ShiftsBound(x: nat, n: nat)
    requires x < 0x1_0000_0000
    ensures Shifts(x, n) < 0x1_0000_0000
  {
    if n > 0 {
      ShiftsBound(x, n - 1);
      ShiftBound(Shifts(x, n - 1));
    }
  }

  /** Feeding bits one by one equals mixing them in together and then shifting. */
  lemma {:induction false} FeedIsShift(state: nat, b: nat, n: nat)
    ensures Xor(FeedBits(state, b, n), Down(b, n)) == Shifts(Xor(state, b), n)
  {
    if n > 0 {
      FeedIsShift(state, b, n - 1);
      var f, d := FeedBits(state, b, n - 1), Down(b, n - 1);
      SplitOff(d);
      XorAssoc(f, d % 2, 2 * (d / 2));
      ShiftLinear(Xor(f, d % 2), d / 2);
    }
  }

  lemma SplitOff(d: nat)
    ensures Xor(d % 2, 2 * (d / 2)) == d
  {
    XorSwap(0, d / 2);
    XorZero(d / 2);
    assert Xor(d % 2, 2 * (d / 2)) == 2 * Xor(0, d / 2) + d % 2;
  }

  lemma FeedByte(state: nat, b: byte)
    ensures FeedBits(state, b, 8) == Shifts(Xor(state, b), 8)
  {
    FeedIsShift(state, b, 8);
    EightUp(b);
    XorZero(FeedBits(state, b, 8));
  }

  /** A byte below and a number above do not overlap. */
  lemma {:induction false} XorDisjoint(low: nat, high: nat, n: nat)
    requires low < Pow2(n)
    ensures Xor(low, Up(high, n)) == low + Up(high, n)
  {
    if n == 0 {
      XorSwap(0, high);
      XorZero(high);
    } else {
      UpDoubles(high, n - 1);
      XorDisjoint(low / 2, high, n - 1);
    }
  }

  lemma {:induction false} UpDoubles(z: nat, n: nat)
    ensures Up(2 * z, n) == 2 * Up(z, n)
    decreases n
  {
    if n > 0 {
      UpDoubles(2 * z, n - 1);
    }
  }

  lemma ByteAndRest(low: byte, high: nat)
    ensures Xor(low, 256 * high) == low + 256 * high
  {
    Powers();
    EightUp(high);
    XorDisjoint(low, high, 8);
  }

  // ---- the table --------------------------------------------------------------

  ghost predicate IsTable(t: seq<nat>) {
    |t| == 256 && forall i: byte :: t[i] == Shifts(i, 8)
  }

  /** One table step replaces eight shifts. */
  lemma TableStep(t: seq<nat>, state: nat, b: byte)
    requires IsTable(t)
    ensures Xor(t[Xor(state, b) % 256], state / 256) == FeedBits(state, b, 8)
  {
    var m := Xor(state, b);
    ByteAndRest(m % 256, m / 256);
    EightUp(m / 256);
    ShiftsLinear(m % 256, m / 256, 8);
    FeedByte(state, b);
    XorHigh(state, b);
  }

  lemma XorHigh(a: nat, b: byte)
    ensures Xor(a, b) / 256 == a / 256
  {
    DownXor(a, b, 8);
    EightUp(Xor(a, b));
    EightUp(a);
    EightUp(b);
    XorZero(a / 256);
  }

  lemma {:induction false} DownXor(a: nat, b: nat, n: nat)
    ensures Down(Xor(a, b), n) == Xor(Down(a, n), Down(b, n))
  {
    if n > 0 {
      DownXor(a, b, n - 1);
    }
  }

  method BuildTable() returns (t: seq<nat>)
    ensures IsTable(t)
  {
    t := [];
    var i := 0;
    while i < 256
      invariant 0 <= i <= 256 && |t| == i
      invariant forall j: byte :: j < i ==> t[j] == Shifts(j, 8)
    {
      var crc: nat := i;
      var bit := 0;
      while bit < 8
        invariant 0 <= bit <= 8
        invariant crc == Shifts(i, bit)
      {
        crc := if crc % 2 == 1 then Xor(crc / 2, POLY) else crc / 2;
        bit := bit + 1;
      }
      t := t + [crc];
      i := i + 1;
    }
  }

  class Crc32C {
    const table: seq<nat>
    var state: nat

    ghost predicate Valid() { IsTable(table) }

    constructor ()
      ensures Valid() && state == SEED
    {
      var entries := BuildTable();
      table := entries;
      state := SEED;
    }

    /** Table-driven; equal to feeding every bit of every byte through the shift register. */
    method Update(bytes: seq<byte>)
      requires Valid()
      modifies this
      ensures state == FeedSerially(old(state), bytes)
    {
      var crc := state;
      var i := 0;
      while i < |bytes|
        invariant 0 <= i <= |bytes|
        invariant FeedSerially(crc, bytes[i..]) == FeedSerially(old(state), bytes)
      {
        TableStep(table, crc, bytes[i]);
        assert bytes[i..][1..] == bytes[i + 1..];
        crc := Xor(table[Xor(crc, bytes[i]) % 256], crc / 256);
        i := i + 1;
      }
      state := crc;
    }
  }

  /** The checksum of several pieces fed in turn, with the table. */
  method Compute(pieces: seq<seq<byte>>) returns (v: u32)
    ensures v == Crc(Flat(pieces))
  {
    var crc := new Crc32C();
    var i := 0;
    while i < |pieces|
      invariant 0 <= i <= |pieces| && crc.Valid() && fresh(crc)
      invariant FeedSerially(crc.state, Flat(pieces[i..])) == FeedSerially(SEED, Flat(pieces))
    {
      FeedConcat(crc.state, pieces[i], Flat(pieces[i + 1..]));
      assert pieces[i..][1..] == pieces[i + 1..];
      crc.Update(pieces[i]);
      i := i + 1;
    }
    FeedBound(SEED, Flat(pieces));
    v := 0xFFFF_FFFF - crc.state;
  }

  function Flat(pieces: seq<seq<byte>>): seq<byte> {
    if pieces == [] then [] else pieces[0] + Flat(pieces[1..])
  }

  lemma {:induction false} FeedConcat(state: nat, a: seq<byte>, b: seq<byte>)
    ensures FeedSerially(state, a + b) == FeedSerially(FeedSerially(state, a), b)
    decreases |a|
  {
    if a == [] {
      assert a + b == b;
    } else {
      FeedConcat(FeedBits(state, a[0], 8), a[1..], b);
      assert (a + b)[1..] == a[1..] + b;
    }
  }

  // ---- what damage is always detected -----------------------------------------

  lemma {:induction false} FeedInjective(s1: nat, s2: nat, bytes: seq<byte>)
    requires s1 < 0x1_0000_0000 && s2 < 0x1_0000_0000
    requires FeedSerially(s1, bytes) == FeedSerially(s2, bytes)
    ensures s1 == s2
    decreases |bytes|
  {
    if bytes != [] {
      var b := bytes[0];
      FeedBitsBound(s1, b, 8);
      FeedBitsBound(s2, b, 8);
      FeedInjective(FeedBits(s1, b, 8), FeedBits(s2, b, 8), bytes[1..]);
      FeedByte(s1, b);
      FeedByte(s2, b);
      Powers();
      XorBound(s1, b, 32);
      XorBound(s2, b, 32);
      ShiftsInjective(Xor(s1, b), Xor(s2, b), 8);
      XorCancel(s1, b);
      XorCancel(s2, b);
    }
  }

  /** Equal registers after two words mean equal registers once each word is mixed in whole. */
  lemma {:induction false} FeedWord(s1: nat, w1: seq<byte>, s2: nat, w2: seq<byte>)
    requires s1 < 0x1_0000_0000 && s2 < 0x1_0000_0000
    requires |w1| == |w2| <= 4
    requires FeedSerially(s1, w1) == FeedSerially(s2, w2)
    ensures Xor(s1, FromLE(w1)) == Xor(s2, FromLE(w2))
    decreases |w1|
  {
    if w1 == [] {
      XorZero(s1);
      XorZero(s2);
    } else {
      FeedBitsBound(s1, w1[0], 8);
      FeedBitsBound(s2, w2[0], 8);
      FeedWord(FeedBits(s1, w1[0], 8), w1[1..], FeedBits(s2, w2[0], 8), w2[1..]);
      Lift(s1, w1);
      Lift(s2, w2);
      ShiftsInjective(Xor(s1, FromLE(w1)), Xor(s2, FromLE(w2)), 8);
    }
  }

  /** Mixing in the rest of a word after its first byte equals mixing the word in before it. */
  lemma Lift(s: nat, w: seq<byte>)
    requires s < 0x1_0000_0000 && 1 <= |w| <= 4
    ensures Xor(s, FromLE(w)) < 0x1_0000_0000
    ensures Xor(FeedBits(s, w[0], 8), FromLE(w[1..])) == Shifts(Xor(s, FromLE(w)), 8)
  {
    var b, h := w[0], FromLE(w[1..]);
    FeedByte(s, b);
    ByteAndRest(b, h);
    XorAssoc(s, b, 256 * h);
    EightUp(h);
    ShiftsLinear(Xor(s, b), h, 8);
    WordBound(w);
    Powers();
    XorBound(s, FromLE(w), 32);
  }

  lemma WordBound(w: seq<byte>)
    requires |w| <= 4
    ensures FromLE(w) < 0x1_0000_0000
  {
    LEInvertsFromLE(w);
    Widths();
    assert Pow256(0) == 1 && Pow256(3) == 0x100_0000;
  }

  /** Any damage confined to four consecutive bytes changes the checksum. */
  lemma BurstDetected(before: seq<byte>, w1: seq<byte>, w2: seq<byte>, after: seq<byte>)
    requires |w1| == |w2| <= 4 && w1 != w2
    ensures Crc(before + w1 + after) != Crc(before + w2 + after)
  {
    var s := FeedSerially(SEED, before);
    var t1, t2 := FeedSerially(s, w1), FeedSerially(s, w2);
    FeedBound(SEED, before);
    FeedBound(s, w1);
    FeedBound(s, w2);
    FeedConcat(SEED, before + w1, after);
    FeedConcat(SEED, before, w1);
    FeedConcat(SEED, before + w2, after);
    FeedConcat(SEED, before, w2);
    if Crc(before + w1 + after) == Crc(before + w2 + after) {
      FeedInjective(t1, t2, after);
      FeedWord(s, w1, s, w2);
      XorCancel(FromLE(w1), s);
      XorCancel(FromLE(w2), s);
      LEInvertsFromLE(w1);
      LEInvertsFromLE(w2);
    }
  }
}
