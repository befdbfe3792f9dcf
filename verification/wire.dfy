/** Big-endian integers, UTF-8 and the identifier alphabets of the wire formats. */
module Wire {
  import opened Tables

  function U16(n: nat): (s: seq<byte>)
    requires n < 0x10000
    ensures |s| == 2 && s[0] as nat * 256 + s[1] as nat == n
  {
    [(n / 256) as byte, (n % 256) as byte]
  }

  function U32(n: nat): (s: seq<byte>)
    requires n < 0x1_0000_0000
    ensures |s| == 4 && ((s[0] as nat * 256 + s[1] as nat) * 256 + s[2] as nat) * 256 + s[3] as nat == n
  {
    U16(n / 0x10000) + U16(n % 0x10000)
  }

  function ReadU16(s: seq<byte>, at: nat): (n: nat)
    requires at + 2 <= |s|
    ensures n < 0x10000
  {
    s[at] as nat * 256 + s[at + 1] as nat
  }

  function ReadU32(s: seq<byte>, at: nat): (n: nat)
    requires at + 4 <= |s|
    ensures n < 0x1_0000_0000
  {
    ReadU16(s, at) * 0x10000 + ReadU16(s, at + 2)
  }

  lemma ReadsU16(s: seq<byte>, at: nat, n: nat)
    requires at + 2 <= |s| && n < 0x10000
    ensures s[at..at + 2] == U16(n) <==> ReadU16(s, at) == n
  {
    assert s[at..at + 2] == [s[at], s[at + 1]];
  }

  lemma ReadsU32(s: seq<byte>, at: nat, n: nat)
    requires at + 4 <= |s| && n < 0x1_0000_0000
    ensures s[at..at + 4] == U32(n) <==> ReadU32(s, at) == n
  {
    ReadsU16(s, at, n / 0x10000);
    ReadsU16(s, at + 2, n % 0x10000);
    var hi, lo := ReadU16(s, at), ReadU16(s, at + 2);
    assert hi * 0x10000 + lo == n <==> hi == n / 0x10000 && lo == n % 0x10000;
    Splits(s[at..at + 4], U16(n / 0x10000), U16(n % 0x10000));
    assert s[at..at + 4][..2] == s[at..at + 2] && s[at..at + 4][2..] == s[at + 2..at + 4];
  }

  lemma Splits(s: seq<byte>, a: seq<byte>, b: seq<byte>)
    requires |s| == |a| + |b|
    ensures s == a + b <==> s[..|a|] == a && s[|a|..] == b
  {
    assert s == s[..|a|] + s[|a|..];
    assert (a + b)[..|a|] == a && (a + b)[|a|..] == b;
  }

  lemma SplitsAt(body: seq<byte>, from: nat, to: nat, a: seq<byte>, b: seq<byte>)
    requires from <= to <= |body| && to - from == |a| + |b|
    ensures body[from..to] == a + b <==> body[from..from + |a|] == a && body[from + |a|..to] == b
  {
    Splits(body[from..to], a, b);
    assert body[from..to][..|a|] == body[from..from + |a|] && body[from..to][|a|..] == body[from + |a|..to];
  }

  predicate AsciiDigit(b: byte) { 0x30 <= b <= 0x39 }
  predicate AsciiLetter(b: byte) { 0x41 <= b <= 0x5A || 0x61 <= b <= 0x7A }

  /** The unreserved characters of section 2.3 of RFC 3986. */
  predicate Unreserved(b: byte) {
    AsciiLetter(b) || AsciiDigit(b) || b == 0x2D || b == 0x2E || b == 0x5F || b == 0x7E
  }

  predicate ValidMutationId(id: seq<byte>) {
    1 <= |id| <= 128 && forall i | 0 <= i < |id| :: Unreserved(id[i])
  }

  predicate HexByte(b: byte) { AsciiDigit(b) || 0x61 <= b <= 0x66 || 0x41 <= b <= 0x46 }

  predicate ValidUuidBytes(s: seq<byte>) {
    |s| == 36 && forall i | 0 <= i < |s| :: if i in {8, 13, 18, 23} then s[i] == 0x2D else HexByte(s[i])
  }

  predicate Continuation(b: byte) { 0x80 <= b <= 0xBF }

  /** Well-formed UTF-8: shortest forms, no surrogates, nothing above U+10FFFF. */
  predicate Utf8Valid(s: seq<byte>) {
    if s == [] then true
    else if s[0] < 0x80 then Utf8Valid(s[1..])
    else if 0xC2 <= s[0] <= 0xDF then |s| >= 2 && Continuation(s[1]) && Utf8Valid(s[2..])
    else if 0xE0 <= s[0] <= 0xEF then
      |s| >= 3 && Continuation(s[1]) && Continuation(s[2]) &&
      (s[0] == 0xE0 ==> s[1] >= 0xA0) && (s[0] == 0xED ==> s[1] <= 0x9F) && Utf8Valid(s[3..])
    else if 0xF0 <= s[0] <= 0xF4 then
      |s| >= 4 && Continuation(s[1]) && Continuation(s[2]) && Continuation(s[3]) &&
      (s[0] == 0xF0 ==> s[1] >= 0x90) && (s[0] == 0xF4 ==> s[1] <= 0x8F) && Utf8Valid(s[4..])
    else false
  }

  lemma {:induction false} AsciiIsUtf8(s: seq<byte>)
    requires forall i | 0 <= i < |s| :: s[i] < 0x80
    ensures Utf8Valid(s)
  {
    if s != [] { AsciiIsUtf8(s[1..]); }
  }
}
