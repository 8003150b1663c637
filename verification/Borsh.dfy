/** Borsh primitives: little-endian integers, fixed byte arrays, length-prefixed byte strings. */
module Borsh {
  import opened Types

  datatype ParseError =
    | UnexpectedEof
    | InvalidUtf8
    | InvalidAccountId
    | BadKeyTag(tag: byte)
    | BadSignatureTag(tag: byte)
    | NestedDelegate
    | UnsupportedAction(tag: byte)
    | NotAllBytesRead

  // A parse either yields a value and the unread input, or stops with an error.
  datatype Parsed<+T> = Ok(value: T, rest: Bytes) | Err(error: ParseError)

  function Pow256(n: nat): (r: nat)
    ensures r >= 1
  {
    if n == 0 then 1 else 256 * Pow256(n - 1)
  }

  function Le(x: nat, n: nat): (r: Bytes)
    requires x < Pow256(n)
    ensures |r| == n
  {
    if n == 0 then [] else [x % 256] + Le(x / 256, n - 1)
  }

  function FromLe(b: Bytes): (x: nat)
    ensures x < Pow256(|b|)
  {
    if |b| == 0 then 0 else b[0] + 256 * FromLe(b[1..])
  }

  lemma {:induction false} LeInverse(x: nat, n: nat)
    requires x < Pow256(n)
    ensures FromLe(Le(x, n)) == x
  {
    if n > 0 {
      LeInverse(x / 256, n - 1);
      assert Le(x, n)[1..] == Le(x / 256, n - 1);
    }
  }

  lemma {:induction false} FromLeInverse(b: Bytes)
    ensures Le(FromLe(b), |b|) == b
  {
    if |b| > 0 {
      FromLeInverse(b[1..]);
      var x := FromLe(b);
      assert x % 256 == b[0] && x / 256 == FromLe(b[1..]);
      assert b == [b[0]] + b[1..];
    }
  }

  lemma Widths()
    ensures Pow256(4) == U32_LIMIT
    ensures Pow256(8) == U64_LIMIT
    ensures Pow256(16) == U128_LIMIT
  {
  }

  function ReadExact(b: Bytes, n: nat): Parsed<Bytes> {
    if |b| < n then Err(UnexpectedEof) else Ok(b[..n], b[n..])
  }

  function SerU8(x: byte): Bytes { [x] }

  function SerU32(x: u32): Bytes { Widths(); Le(x, 4) }

  function SerU64(x: u64): Bytes { Widths(); Le(x, 8) }

  function SerU128(x: u128): Bytes { Widths(); Le(x, 16) }

  function ParseU8(b: Bytes): Parsed<byte> {
    if |b| < 1 then Err(UnexpectedEof) else Ok(b[0], b[1..])
  }

  function ParseU32(b: Bytes): Parsed<u32> {
    Widths();
    if |b| < 4 then Err(UnexpectedEof) else Ok(FromLe(b[..4]), b[4..])
  }

  function ParseU64(b: Bytes): Parsed<u64> {
    Widths();
    if |b| < 8 then Err(UnexpectedEof) else Ok(FromLe(b[..8]), b[8..])
  }

  function ParseU128(b: Bytes): Parsed<u128> {
    Widths();
    if |b| < 16 then Err(UnexpectedEof) else Ok(FromLe(b[..16]), b[16..])
  }

  function SerBytes(s: Str): Bytes { SerU32(|s|) + s }

  function ParseBytes(b: Bytes): Parsed<Str> {
    match ParseU32(b)
    case Err(e) => Err(e)
    case Ok(n, rest) => if |rest| < n then Err(UnexpectedEof) else Ok(rest[..n], rest[n..])
  }

  function ParseString(host: Host, b: Bytes): Parsed<Str> {
    match ParseBytes(b)
    case Err(e) => Err(e)
    case Ok(s, rest) => if host.validUtf8(s) then Ok(s, rest) else Err(InvalidUtf8)
  }

  function ParseAccountId(host: Host, b: Bytes): Parsed<AccountId> {
    match ParseString(host, b)
    case Err(e) => Err(e)
    case Ok(s, rest) => if host.validAccountId(s) then Ok(s, rest) else Err(InvalidAccountId)
  }

  // Each printer is undone by its parser, whatever follows it ...

  lemma IntsInverse(a: u32, b: u64, c: u128, rest: Bytes)
    ensures ParseU32(SerU32(a) + rest) == Ok(a, rest)
    ensures ParseU64(SerU64(b) + rest) == Ok(b, rest)
    ensures ParseU128(SerU128(c) + rest) == Ok(c, rest)
  {
    Widths();
    LeInverse(a, 4);
    LeInverse(b, 8);
    LeInverse(c, 16);
    assert (Le(a, 4) + rest)[..4] == Le(a, 4) && (Le(a, 4) + rest)[4..] == rest;
    assert (Le(b, 8) + rest)[..8] == Le(b, 8) && (Le(b, 8) + rest)[8..] == rest;
    assert (Le(c, 16) + rest)[..16] == Le(c, 16) && (Le(c, 16) + rest)[16..] == rest;
  }

  lemma BytesInverse(s: Str, rest: Bytes)
    ensures ParseBytes(SerBytes(s) + rest) == Ok(s, rest)
  {
    IntsInverse(|s|, 0, 0, s + rest);
    assert SerBytes(s) + rest == SerU32(|s|) + (s + rest);
    assert (s + rest)[..|s|] == s && (s + rest)[|s|..] == rest;
  }

  // ... and whatever a parser accepts is exactly what the printer prints.

  lemma IntsCanonical(b: Bytes)
    ensures ParseU32(b).Ok? ==> b == SerU32(ParseU32(b).value) + ParseU32(b).rest
    ensures ParseU64(b).Ok? ==> b == SerU64(ParseU64(b).value) + ParseU64(b).rest
    ensures ParseU128(b).Ok? ==> b == SerU128(ParseU128(b).value) + ParseU128(b).rest
  {
    Widths();
    if |b| >= 4 { FromLeInverse(b[..4]); assert b == b[..4] + b[4..]; }
    if |b| >= 8 { FromLeInverse(b[..8]); assert b == b[..8] + b[8..]; }
    if |b| >= 16 { FromLeInverse(b[..16]); assert b == b[..16] + b[16..]; }
  }

  lemma BytesCanonical(b: Bytes)
    ensures ParseBytes(b).Ok? ==> b == SerBytes(ParseBytes(b).value) + ParseBytes(b).rest
  {
    IntsCanonical(b);
    if ParseBytes(b).Ok? {
      var rest := ParseU32(b).rest;
      var n := ParseU32(b).value;
      assert rest == rest[..n] + rest[n..];
    }
  }

  // ---- vectors of any element type, given its printer and its parser ----

  function SerVec<T>(ser: T -> Bytes, s: seq<T>): Bytes {
    if |s| == 0 then [] else ser(s[0]) + SerVec(ser, s[1..])
  }

  function ParseVec<T>(parse: Bytes -> Parsed<T>, count: nat, b: Bytes): (r: Parsed<seq<T>>)
    ensures r.Ok? ==> |r.value| == count
  {
    if count == 0 then Ok([], b) else
    match parse(b)
    case Err(e) => Err(e)
    case Ok(x, rest) =>
      match ParseVec(parse, count - 1, rest)
      case Err(e) => Err(e)
      case Ok(s, rest') => Ok([x] + s, rest')
  }

  lemma {:induction false} VecInverse<T(!new)>(ser: T -> Bytes, parse: Bytes -> Parsed<T>, s: seq<T>, rest: Bytes)
    requires forall k, more :: 0 <= k < |s| ==> parse(ser(s[k]) + more) == Ok(s[k], more)
    ensures ParseVec(parse, |s|, SerVec(ser, s) + rest) == Ok(s, rest)
  {
    if |s| == 0 {
      assert SerVec(ser, s) + rest == rest;
    } else {
      assert SerVec(ser, s) + rest == ser(s[0]) + (SerVec(ser, s[1..]) + rest);
      forall k, more | 0 <= k < |s[1..]| ensures parse(ser(s[1..][k]) + more) == Ok(s[1..][k], more) {
        assert s[1..][k] == s[k + 1];
      }
      VecInverse(ser, parse, s[1..], rest);
      assert [s[0]] + s[1..] == s;
    }
  }

  lemma {:induction false} VecCanonical<T(!new)>(
      ser: T -> Bytes, parse: Bytes -> Parsed<T>, valid: T -> bool, count: nat, b: Bytes)
    requires forall b :: parse(b).Ok? ==> b == ser(parse(b).value) + parse(b).rest && valid(parse(b).value)
    requires ParseVec(parse, count, b).Ok?
    ensures b == SerVec(ser, ParseVec(parse, count, b).value) + ParseVec(parse, count, b).rest
    ensures forall x :: x in ParseVec(parse, count, b).value ==> valid(x)
  {
    if count == 0 {
      assert SerVec(ser, []) + b == b;
    } else {
      var Ok(x, tail) := parse(b);
      VecCanonical(ser, parse, valid, count - 1, tail);
      var s := ParseVec(parse, count - 1, tail).value;
      var rest := ParseVec(parse, count, b).rest;
      assert ([x] + s)[1..] == s;
      assert b == ser(x) + (SerVec(ser, s) + rest);
      assert b == SerVec(ser, [x] + s) + rest;
    }
  }
}
