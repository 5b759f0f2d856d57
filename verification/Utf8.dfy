/** UTF-8 as Python's strict codec reads and writes it (RFC 3629, section 4). */
module Utf8 {
  import opened Wrappers

  type Byte = n: int | 0 <= n < 256

  function CodeBytes(n: int): (r: seq<Byte>)
    requires 0 <= n < 0x110000
    ensures 1 <= |r| <= 4
  {
    if n < 0x80 then [n]
    else if n < 0x800 then [0xC0 + n / 64, 0x80 + n % 64]
    else if n < 0x10000 then [0xE0 + n / 4096, 0x80 + n / 64 % 64, 0x80 + n % 64]
    else [0xF0 + n / 262144, 0x80 + n / 4096 % 64, 0x80 + n / 64 % 64, 0x80 + n % 64]
  }

  function Encode(s: string): seq<Byte> {
    if s == [] then [] else CodeBytes(s[0] as int) + Encode(s[1..])
  }

  predicate IsTail(b: Byte) {
    0x80 <= b < 0xC0
  }

  /** What a byte that follows the first one adds. */
  function Payload(b: Byte): (r: int)
    requires IsTail(b)
    ensures 0 <= r < 64
  {
    b - 0x80
  }

  /** The first code point of `b` and the number of bytes it takes; overlong forms and surrogates are refused. */
  function FirstCode(b: seq<Byte>): (r: Option<(char, nat)>)
    requires b != []
    ensures r.Some? ==> 1 <= r.value.1 <= |b|
  {
    var x: int := b[0];
    if x < 0x80 then Some((x as char, 1))
    else if 0xC2 <= x < 0xE0 && |b| >= 2 && IsTail(b[1]) then
      Some((((x - 0xC0) * 64 + Payload(b[1])) as char, 2))
    else if 0xE0 <= x < 0xF0 && |b| >= 3 && IsTail(b[1]) && IsTail(b[2]) then
      var n := (x - 0xE0) * 4096 + Payload(b[1]) * 64 + Payload(b[2]);
      if n < 0x800 || 0xD800 <= n < 0xE000 then None else Some((n as char, 3))
    else if 0xF0 <= x < 0xF5 && |b| >= 4 && IsTail(b[1]) && IsTail(b[2]) && IsTail(b[3]) then
      var n := (x - 0xF0) * 262144 + Payload(b[1]) * 4096 + Payload(b[2]) * 64 + Payload(b[3]);
      if n < 0x10000 || 0x110000 <= n then None else Some((n as char, 4))
    else None
  }

  function Decode(b: seq<Byte>): Option<string> {
    if b == [] then Some("") else
    match FirstCode(b)
    case None => None
    case Some((c, n)) =>
      match Decode(b[n..])
      case None => None
      case Some(rest) => Some([c] + rest)
  }

  lemma Digits64(a: int, b: int, c: int, d: int)
    requires 0 <= a && 0 <= b < 64 && 0 <= c < 64 && 0 <= d < 64
    ensures var n := a * 262144 + b * 4096 + c * 64 + d;
      n / 262144 == a && n / 4096 % 64 == b && n / 64 % 64 == c && n % 64 == d
  {
    var n := a * 262144 + b * 4096 + c * 64 + d;
    assert n / 64 == a * 4096 + b * 64 + c;
    assert n / 4096 == a * 64 + b;
  }

  lemma ThreeParts(a: int, b: int, c: int)
    requires 0 <= a < 16 && 0 <= b < 64 && 0 <= c < 64 && 0x800 <= a * 4096 + b * 64 + c
    ensures CodeBytes(a * 4096 + b * 64 + c) == [0xE0 + a, 0x80 + b, 0x80 + c]
  {
    Digits64(0, a, b, c);
  }

  lemma FourParts(a: int, b: int, c: int, d: int)
    requires 0 <= a < 5 && 0 <= b < 64 && 0 <= c < 64 && 0 <= d < 64
    requires 0x10000 <= a * 262144 + b * 4096 + c * 64 + d < 0x110000
    ensures CodeBytes(a * 262144 + b * 4096 + c * 64 + d) == [0xF0 + a, 0x80 + b, 0x80 + c, 0x80 + d]
  {
    Digits64(a, b, c, d);
  }

  lemma FirstCodeIsEncoded(b: seq<Byte>)
    requires b != [] && FirstCode(b).Some?
    ensures b[..FirstCode(b).value.1] == CodeBytes(FirstCode(b).value.0 as int)
  {
    var x: int := b[0];
    var n := FirstCode(b).value.1;
    if n == 3 {
      ThreeParts(x - 0xE0, Payload(b[1]), Payload(b[2]));
      assert b[..3] == [0xE0 + (x - 0xE0), 0x80 + Payload(b[1]), 0x80 + Payload(b[2])];
      hide CodeBytes;
    } else if n == 4 {
      FourParts(x - 0xF0, Payload(b[1]), Payload(b[2]), Payload(b[3]));
      assert b[..4] == [0xF0 + (x - 0xF0), 0x80 + Payload(b[1]), 0x80 + Payload(b[2]), 0x80 + Payload(b[3])];
      hide CodeBytes;
    }
  }

  lemma FirstCodeOfEncoded(c: char, rest: seq<Byte>)
    ensures FirstCode(CodeBytes(c as int) + rest) == Some((c, |CodeBytes(c as int)|))
  {
    var n := c as int;
    var b := CodeBytes(n) + rest;
    assert forall k | 0 <= k < |CodeBytes(n)| :: b[k] == CodeBytes(n)[k];
    if 0x800 <= n < 0x10000 {
      ThreeBytes(c, b);
    } else if 0x10000 <= n {
      FourBytes(c, b);
    }
  }

  lemma Recombine(n: int)
    requires 0 <= n
    ensures n == n / 4096 * 4096 + n / 64 % 64 * 64 + n % 64
    ensures n == n / 262144 * 262144 + n / 4096 % 64 * 4096 + n / 64 % 64 * 64 + n % 64
  {
    assert n / 262144 == n / 64 / 64 / 64 && n / 4096 == n / 64 / 64;
  }

  lemma ThreeBytes(c: char, b: seq<Byte>)
    requires 0x800 <= c as int < 0x10000 && |b| >= 3
    requires b[0] == 0xE0 + c as int / 4096 && b[1] == 0x80 + c as int / 64 % 64 && b[2] == 0x80 + c as int % 64
    ensures FirstCode(b) == Some((c, 3))
  {
    Recombine(c as int);
  }

  lemma FourBytes(c: char, b: seq<Byte>)
    requires 0x10000 <= c as int && |b| >= 4
    requires b[0] == 0xF0 + c as int / 262144 && b[1] == 0x80 + c as int / 4096 % 64
    requires b[2] == 0x80 + c as int / 64 % 64 && b[3] == 0x80 + c as int % 64
    ensures FirstCode(b) == Some((c, 4))
  {
    Recombine(c as int);
  }

  /** Decoding undoes encoding, for every string. */
  lemma {:induction false} DecodeOfEncode(s: string)
    ensures Decode(Encode(s)) == Some(s)
  {
    if s != [] {
      FirstCodeOfEncoded(s[0], Encode(s[1..]));
      var b := Encode(s);
      assert b[|CodeBytes(s[0] as int)|..] == Encode(s[1..]);
      DecodeOfEncode(s[1..]);
      assert s == [s[0]] + s[1..];
    }
  }

  /** The decoder accepts nothing but encoded strings. */
  lemma {:induction false} OnlyEncodedDecodes(b: seq<Byte>, s: string)
    requires Decode(b) == Some(s)
    ensures b == Encode(s)
    decreases |b|
  {
    hide FirstCode, CodeBytes;
    if b != [] {
      var (c, n) := FirstCode(b).value;
      FirstCodeIsEncoded(b);
      OnlyEncodedDecodes(b[n..], s[1..]);
      assert b == b[..n] + b[n..];
    }
  }
}
