/** Explicit little-endian byte encoding: the primitives of ByteWriter and ByteReader. */
module Bytes {

  type byte = x: int | 0 <= x < 0x100
  type u8 = x: int | 0 <= x < 0x100
  type u16 = x: int | 0 <= x < 0x1_0000
  type u32 = x: int | 0 <= x < 0x1_0000_0000
  type u64 = x: int | 0 <= x < 0x1_0000_0000_0000_0000
  type i64 = x: int | -0x8000_0000_0000_0000 <= x < 0x8000_0000_0000_0000

  const U64_LIMIT := 0x1_0000_0000_0000_0000

  datatype Option<+T> = None | Some(value: T)

  /** What a bounded read yields: nothing, or a value and the bytes not yet consumed. */
  datatype Parsed<+T> = Short | Got(value: T, rest: seq<byte>)

  // ---- little-endian digits -------------------------------------------------

  function Pow256(n: nat): (p: nat)
    ensures p >= 1
  {
    if n == 0 then 1 else 256 * Pow256(n - 1)
  }

  lemma Widths()
    ensures Pow256(1) == 0x100
    ensures Pow256(2) == 0x1_0000
    ensures Pow256(4) == 0x1_0000_0000
    ensures Pow256(8) == 0x1_0000_0000_0000_0000
  {
    assert Pow256(3) == 0x100_0000;
    assert Pow256(4) == 0x1_0000_0000;
    assert Pow256(5) == 0x100_0000_0000;
    assert Pow256(6) == 0x1_0000_0000_0000;
    assert Pow256(7) == 0x100_0000_0000_0000;
  }

  /** The n low base-256 digits of v, least significant first. */
  function LE(v: nat, n: nat): (b: seq<byte>)
    ensures |b| == n
  {
    if n == 0 then [] else [v % 256] + LE(v / 256, n - 1)
  }

  function FromLE(b: seq<byte>): nat {
    if b == [] then 0 else b[0] + 256 * FromLE(b[1..])
  }

  lemma {:induction false} FromLEInvertsLE(v: nat, n: nat)
    requires v < Pow256(n)
    ensures FromLE(LE(v, n)) == v
  {
    if n > 0 {
      FromLEInvertsLE(v / 256, n - 1);
      assert LE(v, n)[1..] == LE(v / 256, n - 1);
    }
  }

  lemma {:induction false} LEInvertsFromLE(b: seq<byte>)
    ensures FromLE(b) < Pow256(|b|)
    ensures LE(FromLE(b), |b|) == b
  {
    if b != [] {
      LEInvertsFromLE(b[1..]);
      assert FromLE(b) / 256 == FromLE(b[1..]) && FromLE(b) % 256 == b[0];
    }
  }

  // ---- two's complement -----------------------------------------------------

  /** Writing a count keeps its 32 low bits. */
  lemma LowCount(n: nat)
    ensures LE(n % 0x1_0000_0000, 4) == LE(n, 4)
  {
    LowDigits(n, 4);
    Widths();
  }

  lemma {:induction false} LowDigits(n: nat, w: nat)
    ensures LE(n % Pow256(w), w) == LE(n, w)
  {
    if w > 0 {
      var p := Pow256(w - 1);
      LowDigits(n / 256, w - 1);
      ModParts(n, p);
    }
  }

  lemma ModParts(n: nat, p: nat)
    requires p > 0
    ensures n % (256 * p) % 256 == n % 256 && n % (256 * p) / 256 == n / 256 % p
  {
    var q, r := n / 256, n % 256;
    var a, b := q / p, q % p;
    assert n == 256 * (p * a + b) + r;
    assert n == (256 * p) * a + (256 * b + r);
    assert 256 * b + r < 256 * p;
    DivModUnique(n, 256 * p, a, 256 * b + r);
  }

  lemma DivModUnique(n: nat, d: nat, q: nat, r: nat)
    requires n == d * q + r && r < d
    ensures n % d == r
  {
    var q', r' := n / d, n % d;
    assert n == d * q' + r';
    if q' < q {
      Scaled(d, q' + 1, q);
    } else if q' > q {
      Scaled(d, q + 1, q');
    }
  }

  lemma Scaled(d: nat, a: nat, b: nat)
    requires a <= b
    ensures d * a <= d * b && d * (a - 1) == d * a - d
  {
    assert d * b == d * a + d * (b - a);
  }

  /** Reading back a number written at a width gives its low digits. */
  lemma LowDigitsBack(v: nat, n: nat)
    ensures FromLE(LE(v, n)) == v % Pow256(n)
  {
    LowDigits(v, n);
    FromLEInvertsLE(v % Pow256(n), n);
  }

  /** The conversion of a signed 64-bit value to its unsigned bit pattern. */
  function I64Bits(v: i64): u64 {
    if v < 0 then v + U64_LIMIT else v
  }

  function I64Of(v: u64): i64 {
    if v >= 0x8000_0000_0000_0000 then v - U64_LIMIT else v
  }

  // ---- bounded reads as functions on the unread bytes -----------------------

  function ReadU8(s: seq<byte>): (p: Parsed<u8>) {
    if s == [] then Short else Got(s[0], s[1..])
  }

  function ReadU16(s: seq<byte>): (p: Parsed<u16>) {
    if |s| < 2 then Short else LEInvertsFromLE(s[..2]); Widths(); Got(FromLE(s[..2]), s[2..])
  }

  function ReadU32(s: seq<byte>): (p: Parsed<u32>) {
    if |s| < 4 then Short else LEInvertsFromLE(s[..4]); Widths(); Got(FromLE(s[..4]), s[4..])
  }

  function ReadU64(s: seq<byte>): (p: Parsed<u64>) {
    if |s| < 8 then Short else LEInvertsFromLE(s[..8]); Widths(); Got(FromLE(s[..8]), s[8..])
  }

  /** A length-prefixed string no longer than maxLength. */
  function ReadString(s: seq<byte>, maxLength: nat): Parsed<seq<byte>> {
    match ReadU32(s)
    case Short => Short
    case Got(n, rest) => if n > maxLength || |rest| < n then Short else Got(rest[..n], rest[n..])
  }

  function PutString(v: seq<byte>): seq<byte>
    requires |v| < 0x1_0000_0000
  {
    LE(|v|, 4) + v
  }

  lemma ReadU16Back(v: u16, rest: seq<byte>)
    ensures ReadU16(LE(v, 2) + rest) == Got(v, rest)
  {
    Widths();
    FromLEInvertsLE(v, 2);
    assert (LE(v, 2) + rest)[..2] == LE(v, 2) && (LE(v, 2) + rest)[2..] == rest;
  }

  lemma ReadU32Back(v: u32, rest: seq<byte>)
    ensures ReadU32(LE(v, 4) + rest) == Got(v, rest)
  {
    Widths();
    FromLEInvertsLE(v, 4);
    assert (LE(v, 4) + rest)[..4] == LE(v, 4) && (LE(v, 4) + rest)[4..] == rest;
  }

  lemma ReadU64Back(v: u64, rest: seq<byte>)
    ensures ReadU64(LE(v, 8) + rest) == Got(v, rest)
  {
    Widths();
    FromLEInvertsLE(v, 8);
    assert (LE(v, 8) + rest)[..8] == LE(v, 8) && (LE(v, 8) + rest)[8..] == rest;
  }

  lemma ReadStringBack(v: seq<byte>, maxLength: nat, rest: seq<byte>)
    requires |v| <= maxLength && |v| < 0x1_0000_0000
    ensures ReadString(PutString(v) + rest, maxLength) == Got(v, rest)
  {
    assert PutString(v) + rest == LE(|v|, 4) + (v + rest);
    ReadU32Back(|v|, v + rest);
    assert (v + rest)[..|v|] == v && (v + rest)[|v|..] == rest;
  }

  // ---- runs of 64-bit fields ------------------------------------------------

  function PutU64s(vs: seq<u64>): (b: seq<byte>)
    ensures |b| == 8 * |vs|
  {
    if vs == [] then [] else LE(vs[0], 8) + PutU64s(vs[1..])
  }

  function ReadU64s(s: seq<byte>, n: nat): (p: Parsed<seq<u64>>)
    ensures p.Got? <==> |s| >= 8 * n
    ensures p.Got? ==> |p.value| == n && p.rest == s[8 * n..]
  {
    if n == 0 then Got([], s)
    else match ReadU64(s)
      case Short => Short
      case Got(v, rest) =>
        match ReadU64s(rest, n - 1)
        case Short => Short
        case Got(vs, rest') => Got([v] + vs, rest')
  }

  lemma {:induction false} ReadU64sBack(vs: seq<u64>, rest: seq<byte>)
    ensures ReadU64s(PutU64s(vs) + rest, |vs|) == Got(vs, rest)
  {
    if vs == [] {
      assert PutU64s(vs) + rest == rest;
    } else {
      var tail := PutU64s(vs[1..]) + rest;
      assert PutU64s(vs) + rest == LE(vs[0], 8) + tail;
      ReadU64Back(vs[0], tail);
      ReadU64sBack(vs[1..], rest);
      assert [vs[0]] + vs[1..] == vs;
    }
  }

  lemma {:induction false} PutU64sAppend(a: seq<u64>, b: seq<u64>)
    ensures PutU64s(a + b) == PutU64s(a) + PutU64s(b)
  {
    if a == [] {
      assert a + b == b;
      assert PutU64s(a) + PutU64s(b) == PutU64s(b);
    } else {
      PutU64sAppend(a[1..], b);
      assert (a + b)[1..] == a[1..] + b && (a + b)[0] == a[0];
      var head := LE(a[0], 8);
      assert PutU64s(a + b) == head + (PutU64s(a[1..]) + PutU64s(b));
      assert head + (PutU64s(a[1..]) + PutU64s(b)) == (head + PutU64s(a[1..])) + PutU64s(b);
    }
  }

  // ---- the writer and the reader --------------------------------------------

  class ByteWriter {
    var data: seq<byte>

    constructor ()
      ensures data == []
    {
      data := [];
    }

    /** Pushes the low byte of v shifted right by 8 * i, for i = 0 .. n-1. */
    method Digits(v: nat, n: nat)
      modifies this
      ensures data == old(data) + LE(v, n)
    {
      var x := v;
      var i := 0;
      while i < n
        invariant 0 <= i <= n
        invariant old(data) + LE(v, n) == data + LE(x, n - i)
      {
        assert LE(x, n - i) == [x % 256] + LE(x / 256, n - i - 1);
        data := data + [x % 256];
        x := x / 256;
        i := i + 1;
      }
      assert data + [] == data;
    }

    method U8(v: u8)
      modifies this
      ensures data == old(data) + [v]
    {
      data := data + [v];
    }

    method U16(v: u16)
      modifies this
      ensures data == old(data) + LE(v, 2)
    {
      data := data + [v % 256];
      data := data + [v / 256 % 256];
      assert LE(v, 2) == [v % 256] + LE(v / 256, 1);
      assert LE(v / 256, 1) == [v / 256 % 256] + LE(v / 256 / 256, 0);
    }

    method U32(v: u32)
      modifies this
      ensures data == old(data) + LE(v, 4)
    {
      Digits(v, 4);
    }

    method U64(v: u64)
      modifies this
      ensures data == old(data) + LE(v, 8)
    {
      Digits(v, 8);
    }

    method I64(v: i64)
      modifies this
      ensures data == old(data) + LE(I64Bits(v), 8)
    {
      U64(I64Bits(v));
    }

    /** A run of consecutive 64-bit writes. */
    method U64s(vs: seq<u64>)
      modifies this
      ensures data == old(data) + PutU64s(vs)
    {
      var i := 0;
      while i < |vs|
        invariant 0 <= i <= |vs|
        invariant old(data) + PutU64s(vs) == data + PutU64s(vs[i..])
      {
        assert PutU64s(vs[i..]) == LE(vs[i], 8) + PutU64s(vs[i + 1..]);
        U64(vs[i]);
        i := i + 1;
      }
    }

    method Raw(v: seq<byte>)
      modifies this
      ensures data == old(data) + v
    {
      data := data + v;
    }

    method String(v: seq<byte>)
      requires |v| < 0x1_0000_0000
      modifies this
      ensures data == old(data) + PutString(v)
    {
      U32(|v|);
      Raw(v);
      assert data == old(data) + (LE(|v|, 4) + v);
    }
  }

  lemma SliceOfRest(s: seq<byte>, i: nat, n: nat)
    requires i + n <= |s|
    ensures s[i..i + n] == s[i..][..n] && s[i..][n..] == s[i + n..]
  {
  }

  class ByteReader {
    const data: seq<byte>
    var offset: nat

    ghost predicate Valid() reads this { offset <= |data| }

    /** The bytes not yet consumed. */
    ghost function Rest(): seq<byte> reads this requires Valid() { data[offset..] }

    constructor (data: seq<byte>)
      ensures Valid() && this.data == data && Rest() == data
    {
      this.data := data;
      offset := 0;
    }

    method U8() returns (ok: bool, v: u8)
      requires Valid()
      modifies this
      ensures Valid() && ok == ReadU8(old(Rest())).Got?
      ensures if ok then ReadU8(old(Rest())) == Got(v, Rest()) else Rest() == old(Rest())
    {
      ok, v := false, 0;
      if |data| - offset >= 1 {
        ok, v := true, data[offset];
        offset := offset + 1;
      }
    }

    /** Accumulates data[offset + i] << (8 * i) and advances by n. */
    method Digits(n: nat) returns (ok: bool, v: nat)
      requires Valid()
      modifies this
      ensures Valid() && ok == (|old(Rest())| >= n)
      ensures if ok then v == FromLE(old(Rest())[..n]) && Rest() == old(Rest())[n..] else Rest() == old(Rest())
    {
      ok, v := false, 0;
      if |data| - offset < n { return; }
      ok := true;
      var i := 0;
      var scale: nat := 1;
      while i < n
        invariant 0 <= i <= n && offset == old(offset) && scale == Pow256(i)
        invariant v == FromLE(data[offset..offset + i])
      {
        FromLESnoc(data[offset..offset + i], data[offset + i]);
        assert data[offset..offset + i + 1] == data[offset..offset + i] + [data[offset + i]];
        v := v + data[offset + i] * scale;
        scale := scale * 256;
        i := i + 1;
      }
      SliceOfRest(data, offset, n);
      offset := offset + n;
    }

    method U16() returns (ok: bool, v: u16)
      requires Valid()
      modifies this
      ensures Valid() && ok == ReadU16(old(Rest())).Got?
      ensures if ok then ReadU16(old(Rest())) == Got(v, Rest()) else Rest() == old(Rest())
    {
      var raw;
      ok, raw := Digits(2);
      v := 0;
      if ok { Narrow(old(Rest())[..2]); v := raw; }
    }

    method U32() returns (ok: bool, v: u32)
      requires Valid()
      modifies this
      ensures Valid() && ok == ReadU32(old(Rest())).Got?
      ensures if ok then ReadU32(old(Rest())) == Got(v, Rest()) else Rest() == old(Rest())
    {
      var raw;
      ok, raw := Digits(4);
      v := 0;
      if ok { Narrow(old(Rest())[..4]); v := raw; }
    }

    method U64() returns (ok: bool, v: u64)
      requires Valid()
      modifies this
      ensures Valid() && ok == ReadU64(old(Rest())).Got?
      ensures if ok then ReadU64(old(Rest())) == Got(v, Rest()) else Rest() == old(Rest())
    {
      var raw;
      ok, raw := Digits(8);
      v := 0;
      if ok { Narrow(old(Rest())[..8]); v := raw; }
    }

    /** A run of consecutive 64-bit reads; the offset is where the first failing read left it. */
    method U64s(n: nat) returns (ok: bool, vs: seq<u64>)
      requires Valid()
      modifies this
      ensures Valid() && ok == ReadU64s(old(Rest()), n).Got?
      ensures ok ==> ReadU64s(old(Rest()), n) == Got(vs, Rest())
    {
      ok, vs := true, [];
      var i := 0;
      assert forall ws: seq<u64> :: vs + ws == ws;
      while i < n
        invariant 0 <= i <= n && Valid() && |vs| == i
        invariant match ReadU64s(Rest(), n - i)
                  case Short => ReadU64s(old(Rest()), n).Short?
                  case Got(ws, rest) => ReadU64s(old(Rest()), n) == Got(vs + ws, rest)
      {
        var v;
        ok, v := U64();
        if !ok { return; }
        ghost var before := vs;
        vs := vs + [v];
        i := i + 1;
        assert forall ws: seq<u64> :: before + ([v] + ws) == vs + ws;
      }
      assert vs + [] == vs;
    }

    method String(maxLength: nat) returns (ok: bool, v: seq<byte>)
      requires Valid()
      modifies this
      ensures Valid() && ok == ReadString(old(Rest()), maxLength).Got?
      ensures ok ==> ReadString(old(Rest()), maxLength) == Got(v, Rest())
    {
      var n;
      v := [];
      ok, n := U32();
      if !ok { return; }
      if n > maxLength || |data| - offset < n { ok := false; return; }
      v := data[offset..offset + n];
      assert v == Rest()[..n];
      offset := offset + n;
    }
  }

  lemma {:induction false} FromLESnoc(b: seq<byte>, d: byte)
    ensures FromLE(b + [d]) == FromLE(b) + d * Pow256(|b|)
  {
    if b == [] {
      assert [] + [d] == [d];
    } else {
      FromLESnoc(b[1..], d);
      assert (b + [d])[1..] == b[1..] + [d];
      assert 256 * (d * Pow256(|b| - 1)) == d * Pow256(|b|);
    }
  }

  lemma Narrow(b: seq<byte>)
    ensures FromLE(b) < Pow256(|b|)
    ensures |b| == 2 ==> FromLE(b) < 0x1_0000
    ensures |b| == 4 ==> FromLE(b) < 0x1_0000_0000
    ensures |b| == 8 ==> FromLE(b) < U64_LIMIT
  {
    LEInvertsFromLE(b);
    Widths();
  }
}
