/** Byte formats that compose: a writer, the reader that undoes it, and the values that fit. */
module Formats {
  import opened Bytes
  import opened Records

  const WIRE_MALFORMED: StatusCode := 133

  datatype Reading<+T> = Failed(code: StatusCode) | Read(value: T, rest: seq<byte>)

  datatype Format<!T> = Format(write: T -> seq<byte>, read: seq<byte> -> Reading<T>, fits: T -> bool)

  /** Reading undoes writing, whatever follows. */
  ghost predicate Inverts<T(!new)>(f: Format<T>) {
    forall v, rest :: f.fits(v) ==> f.read(f.write(v) + rest) == Read(v, rest)
  }

  /** What has been read does not change when more bytes arrive. */
  ghost predicate Settles<T(!new)>(f: Format<T>) {
    forall s, more :: f.read(s).Read? ==> f.read(s + more) == Read(f.read(s).value, f.read(s).rest + more)
  }

  ghost predicate Lawful<T(!new)>(f: Format<T>) {
    Inverts(f) && Settles(f)
  }

  // ---- primitives -----------------------------------------------------------------------------------

  /** A count the format can write and the reader admits. */
  predicate CountFits(n: nat, limit: nat) { n <= limit && n < 0x1_0000_0000 }

  function FromParsed<T>(p: Parsed<T>, code: StatusCode): Reading<T> {
    match p case Short => Failed(code) case Got(v, rest) => Read(v, rest)
  }

  function U8(code: StatusCode): Format<u8> {
    Format((v: u8) => [v], s => FromParsed(ReadU8(s), code), _ => true)
  }

  function U16(code: StatusCode): Format<u16> {
    Format((v: u16) => LE(v, 2), s => FromParsed(ReadU16(s), code), _ => true)
  }

  function U32(code: StatusCode): Format<u32> {
    Format((v: u32) => LE(v, 4), s => FromParsed(ReadU32(s), code), _ => true)
  }

  function U64(code: StatusCode): Format<u64> {
    Format((v: u64) => LE(v, 8), s => FromParsed(ReadU64(s), code), _ => true)
  }

  /** A string of at most max bytes. */
  function Text(max: nat, code: StatusCode): Format<seq<byte>> {
    Format((v: seq<byte>) => LE(|v|, 4) + v, s => FromParsed(ReadString(s, max), code), v => |v| <= max && |v| < 0x1_0000_0000)
  }

  /** Exactly n consecutive 64-bit fields. */
  function Fields(n: nat, code: StatusCode): Format<seq<u64>> {
    Format((v: seq<u64>) => PutU64s(v), s => FromParsed(ReadU64s(s, n), code), v => |v| == n)
  }

  // ---- combinators ------------------------------------------------------------------------------------

  function Both<A, B>(f: Format<A>, g: Format<B>): Format<(A, B)> {
    Format((v: (A, B)) => f.write(v.0) + g.write(v.1),
           s => match f.read(s)
                case Failed(code) => Failed(code)
                case Read(a, rest) =>
                  (match g.read(rest) case Failed(code) => Failed(code) case Read(b, rest') => Read((a, b), rest')),
           (v: (A, B)) => f.fits(v.0) && g.fits(v.1))
  }

  /** The same bytes, as another type. */
  function As<A, B(==)>(f: Format<A>, to: A -> B, from: B -> A): Format<B> {
    Format((v: B) => f.write(from(v)),
           s => match f.read(s) case Failed(code) => Failed(code) case Read(a, rest) => Read(to(a), rest),
           v => f.fits(from(v)) && to(from(v)) == v)
  }

  /** Only values that satisfy p are accepted. */
  function Where<A>(f: Format<A>, p: A -> bool, code: StatusCode): Format<A> {
    Format(f.write,
           s => match f.read(s) case Failed(c) => Failed(c) case Read(a, rest) => if p(a) then Read(a, rest) else Failed(code),
           v => f.fits(v) && p(v))
  }

  function WriteAll<T>(f: Format<T>, vs: seq<T>): seq<byte> {
    if vs == [] then [] else f.write(vs[0]) + WriteAll(f, vs[1..])
  }

  function ReadAll<T>(f: Format<T>, s: seq<byte>, n: nat): Reading<seq<T>>
    decreases n
  {
    if n == 0 then Read([], s)
    else match f.read(s)
      case Failed(code) => Failed(code)
      case Read(v, rest) =>
        match ReadAll(f, rest, n - 1)
        case Failed(code) => Failed(code)
        case Read(vs, rest') => Read([v] + vs, rest')
  }

  /** A counted list of at most limit elements. */
  function List<T>(f: Format<T>, limit: nat, short: StatusCode, over: StatusCode): Format<seq<T>> {
    Format((vs: seq<T>) => LE(|vs|, 4) + WriteAll(f, vs),
           s => match ReadU32(s)
                case Short => Failed(short)
                case Got(n, rest) => if n > limit then Failed(over) else ReadAll(f, rest, n),
           vs => |vs| <= limit && |vs| < 0x1_0000_0000 && forall i :: 0 <= i < |vs| ==> f.fits(vs[i]))
  }

  function ReadOptional<T>(f: Format<T>, code: StatusCode, s: seq<byte>): Reading<Option<T>> {
    if s == [] || s[0] > 1 then Failed(code)
    else if s[0] == 0 then Read(None, s[1..])
    else match f.read(s[1..]) case Failed(c) => Failed(c) case Read(a, rest) => Read(Some(a), rest)
  }

  /** A flag, then the value when the flag is set. */
  function Optional<T>(f: Format<T>, code: StatusCode): Format<Option<T>> {
    Format((v: Option<T>) => if v.None? then [0] else [1] + f.write(v.value),
           s => ReadOptional(f, code, s),
           (v: Option<T>) => v.Some? ==> f.fits(v.value))
  }

  /** An optional identity: zero stands for none, also behind a set flag. */
  function OptionalId(code: StatusCode): Format<Option<u64>> {
    As(Optional(U64(code), code), (v: Option<u64>) => if v == Some(0) then None else v, (v: Option<u64>) => v)
  }

  function Enum(max: u8, code: StatusCode): Format<u8> {
    Where(U8(code), (v: u8) => v <= max, code)
  }

  function Flag(code: StatusCode): Format<bool> {
    As(Enum(1, code), (v: u8) => v != 0, (b: bool) => if b then 1 else 0)
  }

  // ---- they are lawful --------------------------------------------------------------------------------

  lemma U8Settles(s: seq<byte>, more: seq<byte>)
    requires ReadU8(s).Got?
    ensures ReadU8(s + more) == Got(ReadU8(s).value, ReadU8(s).rest + more)
  {
    assert (s + more)[0] == s[0] && (s + more)[1..] == s[1..] + more;
  }

  lemma U8Back(v: u8, rest: seq<byte>)
    ensures ReadU8([v] + rest) == Got(v, rest)
  {
    assert ([v] + rest)[1..] == rest;
  }

  lemma U8Lawful(code: StatusCode)
    ensures Lawful(U8(code))
  {
    hide ReadU8;
    var f := U8(code);
    forall v: u8, rest: seq<byte> ensures f.read(f.write(v) + rest) == Read(v, rest) { U8Back(v, rest); }
    forall s, more | f.read(s).Read? ensures f.read(s + more) == Read(f.read(s).value, f.read(s).rest + more) {
      U8Settles(s, more);
    }
  }

  lemma U16Lawful(code: StatusCode)
    ensures Lawful(U16(code))
  {
    hide LE, FromLE;
    var f := U16(code);
    forall v: u16, rest: seq<byte> ensures f.read(f.write(v) + rest) == Read(v, rest) { ReadU16Back(v, rest); }
    forall s, more | f.read(s).Read? ensures f.read(s + more) == Read(f.read(s).value, f.read(s).rest + more) {
      assert (s + more)[..2] == s[..2] && (s + more)[2..] == s[2..] + more;
    }
  }

  lemma U32Settles(s: seq<byte>, more: seq<byte>)
    requires ReadU32(s).Got?
    ensures ReadU32(s + more) == Got(ReadU32(s).value, ReadU32(s).rest + more)
  {
    hide FromLE;
    assert (s + more)[..4] == s[..4] && (s + more)[4..] == s[4..] + more;
  }

  lemma U32Lawful(code: StatusCode)
    ensures Lawful(U32(code))
  {
    hide LE, FromLE, ReadU32;
    var f := U32(code);
    forall v: u32, rest: seq<byte> ensures f.read(f.write(v) + rest) == Read(v, rest) { ReadU32Back(v, rest); }
    forall s, more | f.read(s).Read? ensures f.read(s + more) == Read(f.read(s).value, f.read(s).rest + more) {
      U32Settles(s, more);
    }
  }

  lemma U64Lawful(code: StatusCode)
    ensures Lawful(U64(code))
  {
    hide LE, FromLE;
    var f := U64(code);
    forall v: u64, rest: seq<byte> ensures f.read(f.write(v) + rest) == Read(v, rest) { ReadU64Back(v, rest); }
    forall s, more | f.read(s).Read? ensures f.read(s + more) == Read(f.read(s).value, f.read(s).rest + more) {
      assert (s + more)[..8] == s[..8] && (s + more)[8..] == s[8..] + more;
    }
  }

  lemma TextSettles(s: seq<byte>, max: nat, more: seq<byte>)
    requires ReadString(s, max).Got?
    ensures ReadString(s + more, max) == Got(ReadString(s, max).value, ReadString(s, max).rest + more)
  {
    hide ReadU32;
    U32Settles(s, more);
    var n, rest := ReadU32(s).value, ReadU32(s).rest;
    assert (rest + more)[..n] == rest[..n] && (rest + more)[n..] == rest[n..] + more;
  }

  lemma TextLawful(max: nat, code: StatusCode)
    ensures Lawful(Text(max, code))
  {
    hide LE, ReadString;
    var f := Text(max, code);
    forall v: seq<byte>, rest: seq<byte> | f.fits(v) ensures f.read(f.write(v) + rest) == Read(v, rest) {
      ReadStringBack(v, max, rest);
    }
    forall s, more | f.read(s).Read? ensures f.read(s + more) == Read(f.read(s).value, f.read(s).rest + more) {
      TextSettles(s, max, more);
    }
  }

  lemma {:induction false} U64sSettles(s: seq<byte>, n: nat, more: seq<byte>)
    requires ReadU64s(s, n).Got?
    ensures ReadU64s(s + more, n) == Got(ReadU64s(s, n).value, ReadU64s(s, n).rest + more)
    decreases n
  {
    hide FromLE;
    if n > 0 {
      assert (s + more)[..8] == s[..8] && (s + more)[8..] == s[8..] + more;
      U64sSettles(s[8..], n - 1, more);
    }
  }

  lemma FieldsLawful(n: nat, code: StatusCode)
    ensures Lawful(Fields(n, code))
  {
    hide PutU64s, ReadU64s;
    var f := Fields(n, code);
    forall v: seq<u64>, rest: seq<byte> | f.fits(v) ensures f.read(f.write(v) + rest) == Read(v, rest) { ReadU64sBack(v, rest); }
    forall s, more | f.read(s).Read? ensures f.read(s + more) == Read(f.read(s).value, f.read(s).rest + more) {
      U64sSettles(s, n, more);
    }
  }

  lemma BothInverts<A(!new), B(!new)>(f: Format<A>, g: Format<B>)
    requires Lawful(f) && Lawful(g)
    ensures Inverts(Both(f, g))
  {
    hide Settles;
    var h := Both(f, g);
    forall v: (A, B), rest: seq<byte> | h.fits(v) ensures h.read(h.write(v) + rest) == Read(v, rest) {
      assert h.write(v) + rest == f.write(v.0) + (g.write(v.1) + rest);
      assert f.read(f.write(v.0) + (g.write(v.1) + rest)) == Read(v.0, g.write(v.1) + rest);
    }
  }

  lemma BothSettles<A(!new), B(!new)>(f: Format<A>, g: Format<B>)
    requires Lawful(f) && Lawful(g)
    ensures Settles(Both(f, g))
  {
    hide Inverts;
    var h := Both(f, g);
    forall s, more | h.read(s).Read? ensures h.read(s + more) == Read(h.read(s).value, h.read(s).rest + more) {
      assert f.read(s + more) == Read(f.read(s).value, f.read(s).rest + more);
    }
  }

  lemma BothLawful<A(!new), B(!new)>(f: Format<A>, g: Format<B>)
    requires Lawful(f) && Lawful(g)
    ensures Lawful(Both(f, g))
  {
    BothInverts(f, g);
    BothSettles(f, g);
    hide Inverts, Settles, Both;
  }

  lemma AsLawful<A(!new), B(!new)>(f: Format<A>, to: A -> B, from: B -> A)
    requires Lawful(f)
    ensures Lawful(As(f, to, from))
  {
    var h := As(f, to, from);
    forall v: B, rest: seq<byte> | h.fits(v) ensures h.read(h.write(v) + rest) == Read(v, rest) {
      assert f.read(f.write(from(v)) + rest) == Read(from(v), rest);
    }
    forall s, more | h.read(s).Read? ensures h.read(s + more) == Read(h.read(s).value, h.read(s).rest + more) {
      assert f.read(s).Read?;
    }
  }

  lemma WhereLawful<A(!new)>(f: Format<A>, p: A -> bool, code: StatusCode)
    requires Lawful(f)
    ensures Lawful(Where(f, p, code))
  {
    var h := Where(f, p, code);
    forall v: A, rest: seq<byte> | h.fits(v) ensures h.read(h.write(v) + rest) == Read(v, rest) {
      assert f.read(f.write(v) + rest) == Read(v, rest);
    }
    forall s, more | h.read(s).Read? ensures h.read(s + more) == Read(h.read(s).value, h.read(s).rest + more) {
      assert f.read(s).Read?;
    }
  }

  lemma {:induction false} ReadAllBack<T(!new)>(f: Format<T>, vs: seq<T>, rest: seq<byte>)
    requires Lawful(f) && forall i :: 0 <= i < |vs| ==> f.fits(vs[i])
    ensures ReadAll(f, WriteAll(f, vs) + rest, |vs|) == Read(vs, rest)
    decreases |vs|
  {
    if vs == [] {
      assert WriteAll(f, vs) + rest == rest;
    } else {
      assert WriteAll(f, vs) + rest == f.write(vs[0]) + (WriteAll(f, vs[1..]) + rest);
      ReadAllBack(f, vs[1..], rest);
      assert [vs[0]] + vs[1..] == vs;
    }
  }

  lemma {:induction false} ReadAllSettles<T(!new)>(f: Format<T>, s: seq<byte>, n: nat, more: seq<byte>)
    requires Lawful(f) && ReadAll(f, s, n).Read?
    ensures ReadAll(f, s + more, n) == Read(ReadAll(f, s, n).value, ReadAll(f, s, n).rest + more)
    decreases n
  {
    if n > 0 {
      assert f.read(s + more) == Read(f.read(s).value, f.read(s).rest + more);
      ReadAllSettles(f, f.read(s).rest, n - 1, more);
    }
  }

  lemma ListLawful<T(!new)>(f: Format<T>, limit: nat, short: StatusCode, over: StatusCode)
    requires Lawful(f)
    ensures Lawful(List(f, limit, short, over))
  {
    hide LE, ReadU32, WriteAll, ReadAll, Lawful;
    var h := List(f, limit, short, over);
    forall vs: seq<T>, rest: seq<byte> | h.fits(vs) ensures h.read(h.write(vs) + rest) == Read(vs, rest) {
      assert h.write(vs) + rest == LE(|vs|, 4) + (WriteAll(f, vs) + rest);
      ReadU32Back(|vs|, WriteAll(f, vs) + rest);
      ReadAllBack(f, vs, rest);
    }
    forall s, more | h.read(s).Read? ensures h.read(s + more) == Read(h.read(s).value, h.read(s).rest + more) {
      U32Settles(s, more);
      ReadAllSettles(f, ReadU32(s).rest, ReadU32(s).value, more);
    }
    assert Inverts(h) && Settles(h);
    LawfulIf(h);
  }

  lemma LawfulIf<T(!new)>(f: Format<T>)
    requires Inverts(f) && Settles(f)
    ensures Lawful(f)
  {
  }

  lemma OptionalBack<T(!new)>(f: Format<T>, code: StatusCode, v: Option<T>, rest: seq<byte>)
    requires Lawful(f) && (v.Some? ==> f.fits(v.value))
    ensures ReadOptional(f, code, (if v.None? then [0] else [1] + f.write(v.value)) + rest) == Read(v, rest)
  {
    var tail := if v.None? then rest else f.write(v.value) + rest;
    var all := (if v.None? then [0] else [1] + f.write(v.value)) + rest;
    assert all == [if v.None? then 0 else 1] + tail;
    assert all[1..] == tail;
  }

  lemma OptionalSettles<T(!new)>(f: Format<T>, code: StatusCode, s: seq<byte>, more: seq<byte>)
    requires Lawful(f) && ReadOptional(f, code, s).Read?
    ensures ReadOptional(f, code, s + more) == Read(ReadOptional(f, code, s).value, ReadOptional(f, code, s).rest + more)
  {
    assert (s + more)[1..] == s[1..] + more;
    Extend(f, s[1..], more);
  }

  lemma OptionalLawful<T(!new)>(f: Format<T>, code: StatusCode)
    requires Lawful(f)
    ensures Lawful(Optional(f, code))
  {
    hide ReadOptional, Lawful;
    var h := Optional(f, code);
    forall v: Option<T>, rest: seq<byte> | h.fits(v) ensures h.read(h.write(v) + rest) == Read(v, rest) {
      OptionalBack(f, code, v, rest);
    }
    forall s, more | h.read(s).Read? ensures h.read(s + more) == Read(h.read(s).value, h.read(s).rest + more) {
      OptionalSettles(f, code, s, more);
    }
    LawfulIf(h);
  }

  lemma OptionalIdLawful(code: StatusCode)
    ensures Lawful(OptionalId(code))
  {
    U64Lawful(code);
    OptionalLawful(U64(code), code);
    hide Lawful;
    AsLawful(Optional(U64(code), code), (v: Option<u64>) => if v == Some(0) then None else v, (v: Option<u64>) => v);
  }

  lemma EnumLawful(max: u8, code: StatusCode)
    ensures Lawful(Enum(max, code))
  {
    U8Lawful(code);
    hide Lawful;
    WhereLawful(U8(code), (v: u8) => v <= max, code);
  }

  lemma FlagLawful(code: StatusCode)
    ensures Lawful(Flag(code))
  {
    EnumLawful(1, code);
    hide Lawful;
    AsLawful(Enum(1, code), (v: u8) => v != 0, (b: bool) => if b then 1 else 0);
  }

  /** A list fits when its count and its elements do. */
  lemma ListFits<T(!new)>(f: Format<T>, limit: nat, short: StatusCode, over: StatusCode, vs: seq<T>, ok: T -> bool)
    requires forall v :: f.fits(v) <==> ok(v)
    ensures List(f, limit, short, over).fits(vs) <==> |vs| <= limit && |vs| < 0x1_0000_0000 && forall v <- vs :: ok(v)
  {
    assert (forall v <- vs :: ok(v)) <==> forall i :: 0 <= i < |vs| ==> f.fits(vs[i]);
  }

  lemma {:induction false} WriteAllSame<T(!new)>(f: Format<T>, g: Format<T>, vs: seq<T>)
    requires forall v :: f.write(v) == g.write(v)
    ensures WriteAll(f, vs) == WriteAll(g, vs)
    decreases |vs|
  {
    if vs != [] { WriteAllSame(f, g, vs[1..]); }
  }

  // ---- whole payloads ---------------------------------------------------------------------------------

  /** Reads one value and refuses bytes after it. */
  function Decode<T>(f: Format<T>, s: seq<byte>): Reading<T> {
    match f.read(s)
    case Failed(code) => Failed(code)
    case Read(v, rest) => if rest != [] then Failed(WIRE_MALFORMED) else Read(v, rest)
  }

  lemma Extend<T(!new)>(f: Format<T>, s: seq<byte>, more: seq<byte>)
    requires Lawful(f)
    ensures f.read(s).Read? ==> f.read(s + more) == Read(f.read(s).value, f.read(s).rest + more)
  {
  }

  /**
   Decoding an encoding answers the value; decoding any strict prefix of it or any extension of it fails.
   */
  lemma DecodeExactly<T(!new)>(f: Format<T>, v: T)
    requires Lawful(f) && f.fits(v)
    ensures Decode(f, f.write(v)) == Read(v, [])
    ensures forall n :: 0 <= n < |f.write(v)| ==> Decode(f, f.write(v)[..n]).Failed?
    ensures forall more :: more != [] ==> Decode(f, f.write(v) + more) == Failed(WIRE_MALFORMED)
  {
    var b := f.write(v);
    assert b + [] == b;
    assert f.read(b + []) == Read(v, []);
    forall n | 0 <= n < |b| ensures Decode(f, b[..n]).Failed? {
      assert b[..n] + b[n..] == b;
      Extend(f, b[..n], b[n..]);
    }
    forall more: seq<byte> | more != [] ensures Decode(f, b + more) == Failed(WIRE_MALFORMED) {
      assert f.read(b + more) == Read(v, more);
    }
  }
}
