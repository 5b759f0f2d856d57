/**
 * base64url (section 5 of RFC 4648) as Python's `base64` module encodes and decodes it: the decoder
 * is the lenient one, which skips characters outside the alphabet and stops at complete padding.
 */
module Base64Url {
  import opened Wrappers
  import opened Utf8

  /** The six bits of a character, in either alphabet. */
  function SixBits(c: char): (r: Option<int>)
    ensures r.Some? ==> 0 <= r.value < 64
  {
    if 'A' <= c <= 'Z' then Some(c as int - 'A' as int)
    else if 'a' <= c <= 'z' then Some(c as int - 'a' as int + 26)
    else if '0' <= c <= '9' then Some(c as int - '0' as int + 52)
    else if c == '-' || c == '+' then Some(62)
    else if c == '_' || c == '/' then Some(63)
    else None
  }

  function Symbol(n: int): (c: char)
    requires 0 <= n < 64
    ensures SixBits(c) == Some(n) && c != '=' && c as int < 128
    ensures c in "-_" || 'A' <= c <= 'Z' || 'a' <= c <= 'z' || '0' <= c <= '9'
  {
    if n < 26 then ('A' as int + n) as char
    else if n < 52 then ('a' as int + n - 26) as char
    else if n < 62 then ('0' as int + n - 52) as char
    else if n == 62 then '-' else '_'
  }

  /** The characters for up to three bytes, without padding. */
  function GroupOf(b: seq<Byte>): (r: string)
    requires 1 <= |b| <= 3
    ensures |r| == |b| + 1
  {
    var x: int := b[0];
    var y: int := if |b| > 1 then b[1] else 0;
    var z: int := if |b| > 2 then b[2] else 0;
    [Symbol(x / 4), Symbol(x % 4 * 16 + y / 16)]
    + (if |b| > 1 then [Symbol(y % 16 * 4 + z / 64)] else [])
    + (if |b| > 2 then [Symbol(z % 64)] else [])
  }

  /** `urlsafe_b64encode`: groups of three bytes, the last one padded with "=". */
  function Encode(b: seq<Byte>): string {
    if b == [] then ""
    else if |b| == 1 then GroupOf(b) + "=="
    else if |b| == 2 then GroupOf(b) + "="
    else GroupOf(b[..3]) + Encode(b[3..])
  }

  /** Python's `rstrip("=")`. */
  function Unpadded(s: string): string {
    if s != [] && s[|s| - 1] == '=' then Unpadded(s[..|s| - 1]) else s
  }

  /** The decoder between two characters: the bytes so far, the position in a group of four, the bits left over and the padding read. */
  datatype Reader = Reader(out: seq<Byte>, position: int, left: int, pads: int, done: bool) {
    predicate Valid() {
      0 <= position < 4 && 0 <= left < (if position == 1 then 64 else if position == 2 then 16 else if position == 3 then 4 else 1)
    }
  }

  function Read(r: Reader, c: char): (n: Reader)
    requires r.Valid()
    ensures n.Valid()
  {
    if r.done then r
    else if c == '=' then
      (if r.position < 2 then r else
       var pads := r.pads + 1;
       r.(pads := pads, done := r.position + pads >= 4))
    else
      match SixBits(c)
      case None => r
      case Some(v) =>
        if r.position == 0 then Reader(r.out, 1, v, 0, false)
        else if r.position == 1 then Reader(r.out + [r.left * 4 + v / 16], 2, v % 16, 0, false)
        else if r.position == 2 then Reader(r.out + [r.left * 16 + v / 4], 3, v % 4, 0, false)
        else Reader(r.out + [r.left * 64 + v], 0, 0, 0, false)
  }

  function ReadAll(r: Reader, s: string): (n: Reader)
    requires r.Valid()
    ensures n.Valid()
    decreases |s|
  {
    if s == [] then r else ReadAll(Read(r, s[0]), s[1..])
  }

  predicate IsAscii(s: string) {
    forall k | 0 <= k < |s| :: s[k] as int < 128
  }

  /** `urlsafe_b64decode` of a string: None stands for its errors. */
  function Decode(s: string): Option<seq<Byte>> {
    if !IsAscii(s) then None else
    var r := ReadAll(Reader([], 0, 0, 0, false), s);
    if r.done || r.position == 0 then Some(r.out) else None
  }

  /** The padding the parser adds back: up to the next multiple of four. */
  function Padding(n: nat): string {
    if n % 4 == 1 then "===" else if n % 4 == 2 then "==" else if n % 4 == 3 then "=" else ""
  }

  // ---- decoding undoes encoding ----

  /** The encoded characters without padding. */
  function Symbols(b: seq<Byte>): string {
    if b == [] then "" else if |b| <= 3 then GroupOf(b) else GroupOf(b[..3]) + Symbols(b[3..])
  }

  predicate HasNoPad(s: string) {
    forall k | 0 <= k < |s| :: s[k] != '=' && s[k] as int < 128
  }

  lemma {:induction false} SymbolsHaveNoPad(b: seq<Byte>)
    ensures HasNoPad(Symbols(b))
    decreases |b|
  {
    if |b| > 3 {
      SymbolsHaveNoPad(b[3..]);
    }
  }

  lemma {:induction false} EncodeIsPaddedSymbols(b: seq<Byte>)
    ensures Encode(b) == Symbols(b) + Padding(|Symbols(b)|)
    ensures |Symbols(b)| % 4 != 1
    decreases |b|
  {
    hide GroupOf;
    if |b| >= 3 {
      var first, rest := b[..3], b[3..];
      EncodeIsPaddedSymbols(rest);
      SymbolsOfGroup(b);
      assert Padding(|Symbols(b)|) == Padding(|Symbols(rest)|);
      assert GroupOf(first) + (Symbols(rest) + Padding(|Symbols(rest)|)) == Symbols(b) + Padding(|Symbols(b)|);
    }
  }

  lemma {:induction false} SymbolsOfGroup(b: seq<Byte>)
    requires |b| >= 3
    ensures Symbols(b) == GroupOf(b[..3]) + Symbols(b[3..])
    ensures |Symbols(b)| % 4 == |Symbols(b[3..])| % 4
  {
    hide GroupOf;
    var first, rest := b[..3], b[3..];
    if |b| == 3 {
      assert first == b && rest == [];
      assert GroupOf(b) + "" == GroupOf(b);
    }
    assert Symbols(b) == GroupOf(first) + Symbols(rest);
    assert |Symbols(b)| == 4 + |Symbols(rest)|;
  }

  lemma UnpaddedPadding(s: string, n: nat)
    requires HasNoPad(s)
    ensures Unpadded(s + Padding(n)) == s
  {
    assert Unpadded(s) == s;
    var one, two := s + "=", s + "==";
    assert one[..|s|] == s && two[..|s| + 1] == one && (s + "===")[..|s| + 2] == two;
    assert Unpadded(one) == s;
    assert Unpadded(two) == s;
    assert s + "" == s;
  }

  /** What is printed without padding is exactly the symbols. */
  lemma UnpaddedEncode(b: seq<Byte>)
    ensures Unpadded(Encode(b)) == Symbols(b)
  {
    EncodeIsPaddedSymbols(b);
    SymbolsHaveNoPad(b);
    UnpaddedPadding(Symbols(b), |Symbols(b)|);
  }

  lemma {:induction false} ReadConcat(r: Reader, s: string, t: string)
    requires r.Valid()
    ensures ReadAll(r, s + t) == ReadAll(ReadAll(r, s), t)
    decreases |s|
  {
    if s == [] {
      assert s + t == t;
    } else {
      assert (s + t)[0] == s[0] && (s + t)[1..] == s[1..] + t;
      ReadConcat(Read(r, s[0]), s[1..], t);
    }
  }

  /** A full group is read as its three bytes. */
  lemma ReadGroup(r: Reader, b: seq<Byte>)
    requires r.Valid() && r.position == 0 && !r.done && |b| == 3
    ensures ReadAll(r, GroupOf(b)) == Reader(r.out + b, 0, 0, 0, false)
  {
    var g := GroupOf(b);
    var x: int, y: int, z: int := b[0], b[1], b[2];
    var r1 := Read(r, g[0]);
    var r2 := Read(r1, g[1]);
    var r3 := Read(r2, g[2]);
    var r4 := Read(r3, g[3]);
    assert r2 == Reader(r.out + [b[0]], 2, y / 16, 0, false);
    assert r3 == Reader(r.out + [b[0]] + [b[1]], 3, z / 64, 0, false);
    assert r4.out == r.out + b;
    ReadFour(r, g);
  }

  lemma ReadFour(r: Reader, g: string)
    requires r.Valid() && |g| == 4
    ensures ReadAll(r, g) == Read(Read(Read(Read(r, g[0]), g[1]), g[2]), g[3])
  {
    var r1 := Read(r, g[0]);
    var r2 := Read(r1, g[1]);
    var r3 := Read(r2, g[2]);
    assert g[1..][0] == g[1] && g[1..][1..][0] == g[2] && g[1..][1..][1..][0] == g[3];
    hide Read;
    assert ReadAll(Read(r3, g[3]), g[1..][1..][1..][1..]) == Read(r3, g[3]);
    assert ReadAll(r3, g[1..][1..][1..]) == Read(r3, g[3]);
    assert ReadAll(r2, g[1..][1..]) == Read(r3, g[3]);
  }

  /** A last group of one or two bytes is read up to its padding. */
  lemma ReadLast(r: Reader, b: seq<Byte>)
    requires r.Valid() && r.position == 0 && !r.done && 1 <= |b| <= 2
    ensures ReadAll(r, GroupOf(b) + Padding(|b| + 1)).done && ReadAll(r, GroupOf(b) + Padding(|b| + 1)).out == r.out + b
  {
    var g := GroupOf(b) + Padding(|b| + 1);
    var x: int := b[0];
    var y: int := if |b| > 1 then b[1] else 0;
    var r1 := Read(r, g[0]);
    var r2 := Read(r1, g[1]);
    assert r2 == Reader(r.out + [b[0]], 2, y / 16, 0, false);
    ReadFour(r, g);
  }

  lemma {:induction false} ReadSymbols(r: Reader, b: seq<Byte>)
    requires r.Valid() && r.position == 0 && !r.done
    ensures var n := ReadAll(r, Symbols(b) + Padding(|Symbols(b)|)); n.out == r.out + b && (n.done || n.position == 0)
    decreases |b|
  {
    hide GroupOf, ReadAll;
    if |b| == 0 {
      ReadNothing(r);
      assert Symbols(b) + Padding(0) == "";
    } else if |b| <= 2 {
      ReadLast(r, b);
    } else {
      var first, rest := b[..3], b[3..];
      var tail := Symbols(rest) + Padding(|Symbols(rest)|);
      SymbolsOfGroup(b);
      ReadGroup(r, first);
      ReadSymbols(Reader(r.out + first, 0, 0, 0, false), rest);
      hide Symbols, Padding;
      SamePadding(|Symbols(b)|, |Symbols(rest)|);
      assert Symbols(b) + Padding(|Symbols(b)|) == GroupOf(first) + tail;
      ReadConcat(r, GroupOf(first), tail);
      assert r.out + first + rest == r.out + b;
    }
  }

  lemma SamePadding(m: nat, n: nat)
    requires m % 4 == n % 4
    ensures Padding(m) == Padding(n)
  {}

  lemma ReadNothing(r: Reader)
    requires r.Valid()
    ensures ReadAll(r, "") == r
  {}

  /** Printing without padding and decoding with the padding put back gives the bytes again, for all byte strings. */
  lemma DecodeOfUnpadded(b: seq<Byte>)
    ensures var s := Unpadded(Encode(b)); Decode(s + Padding(|s|)) == Some(b)
  {
    hide Symbols, ReadAll, Unpadded, Encode;
    UnpaddedEncode(b);
    SymbolsHaveNoPad(b);
    ReadSymbols(Reader([], 0, 0, 0, false), b);
    assert [] + b == b;
  }

  lemma SomeSymbols()
    ensures Symbol(25) == 'Z' && Symbol(24) == 'Y' && Symbol(5) == 'F' && Symbol(32) == 'g' && Symbol(38) == 'm'
    ensures Symbol(60) == '8' && Symbol(61) == '9' && Symbol(47) == 'v' && Symbol(50) == 'y' && Symbol(62) == '-' && Symbol(63) == '_'
  {}

  lemma ShortGroups()
    ensures GroupOf([102]) == ['Z', 'g'] && GroupOf([102, 111]) == ['Z', 'm', '8']
  {
    SomeSymbols();
    hide Symbol;
  }

  lemma FullGroup()
    ensures GroupOf([102, 111, 111]) == ['Z', 'm', '9', 'v']
  {
    SomeSymbols();
    hide Symbol;
  }

  lemma SecondGroup()
    ensures GroupOf([98, 97, 114]) == ['Y', 'm', 'F', 'y']
  {
    SomeSymbols();
    hide Symbol;
  }

  lemma UrlGroup()
    ensures GroupOf([251, 255]) == ['-', '_', '8']
  {
    SomeSymbols();
    hide Symbol;
  }

  /** The test vectors of section 10 of RFC 4648 with one to three and with six bytes, and one with the characters of the URL-safe alphabet. */
  lemma RfcVectors()
    ensures Encode([]) == "" && Encode([102]) == ['Z', 'g'] + "==" && Encode([102, 111]) == ['Z', 'm', '8'] + "="
    ensures Encode([102, 111, 111]) == ['Z', 'm', '9', 'v']
    ensures Encode([102, 111, 111] + [98, 97, 114]) == ['Z', 'm', '9', 'v'] + ['Y', 'm', 'F', 'y']
    ensures Encode([251, 255]) == ['-', '_', '8'] + "="
  {
    ShortGroups();
    FullGroup();
    SecondGroup();
    UrlGroup();
    hide GroupOf, Encode;
    LastGroups([102], [102, 111], [102, 111, 111]);
    LastGroups([102], [251, 255], [98, 97, 114]);
    GroupFirst([102, 111, 111], [98, 97, 114]);
  }

  lemma LastGroups(a: seq<Byte>, b: seq<Byte>, c: seq<Byte>)
    requires |a| == 1 && |b| == 2 && |c| == 3
    ensures Encode([]) == "" && Encode(a) == GroupOf(a) + "==" && Encode(b) == GroupOf(b) + "=" && Encode(c) == GroupOf(c)
  {
    hide GroupOf;
    assert c[..3] == c && c[3..] == [] && GroupOf(c) + "" == GroupOf(c);
  }

  lemma GroupFirst(a: seq<Byte>, rest: seq<Byte>)
    requires |a| == 3
    ensures Encode(a + rest) == GroupOf(a) + Encode(rest)
  {
    assert (a + rest)[..3] == a && (a + rest)[3..] == rest;
    if rest == [] { assert a + rest == a && GroupOf(a) + "" == GroupOf(a); }
  }
}
