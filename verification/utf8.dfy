/** What the UTF-8 check accepts: exactly the encodings of sequences of Unicode
    scalar values, as in section 3 of RFC 3629. */
module Utf8 {
  import opened Tables
  import opened Wire

  /** A code point that is no surrogate. */
  type Scalar = c: nat | c < 0xD800 || 0xE000 <= c < 0x110000

  function Trail(n: nat): (b: byte)
    ensures Continuation(b) && b as nat == 0x80 + n % 0x40
  {
    (0x80 + n % 0x40) as byte
  }

  /** One scalar in as few bytes as it takes. */
  function EncodeScalar(c: Scalar): (s: seq<byte>)
    ensures 1 <= |s| <= 4
  {
    if c < 0x80 then [c as byte]
    else if c < 0x800 then [(0xC0 + c / 0x40) as byte, Trail(c)]
    else if c < 0x10000 then [(0xE0 + c / 0x1000) as byte, Trail(c / 0x40), Trail(c)]
    else [(0xF0 + c / 0x40000) as byte, Trail(c / 0x1000), Trail(c / 0x40), Trail(c)]
  }

  function EncodeText(cs: seq<Scalar>): seq<byte> {
    if cs == [] then [] else EncodeScalar(cs[0]) + EncodeText(cs[1..])
  }

  lemma ScalarIsValid(c: Scalar, rest: seq<byte>)
    requires Utf8Valid(rest)
    ensures Utf8Valid(EncodeScalar(c) + rest)
  {
    var s := EncodeScalar(c) + rest;
    assert s[|EncodeScalar(c)|..] == rest;
    if c >= 0x80 { LeadBytes(c); }
  }

  predicate LeadsThree(s: seq<byte>) {
    |s| >= 2 && 0xE0 <= s[0] <= 0xEF && (s[0] == 0xE0 ==> s[1] >= 0xA0) && (s[0] == 0xED ==> s[1] <= 0x9F)
  }

  predicate LeadsFour(s: seq<byte>) {
    |s| >= 2 && 0xF0 <= s[0] <= 0xF4 && (s[0] == 0xF0 ==> s[1] >= 0x90) && (s[0] == 0xF4 ==> s[1] <= 0x8F)
  }

  /** The leading byte tells the length and excludes longer forms than needed. */
  lemma LeadBytes(c: Scalar)
    requires c >= 0x80
    ensures c < 0x800 ==> 0xC2 <= EncodeScalar(c)[0] <= 0xDF
    ensures 0x800 <= c < 0x10000 ==> LeadsThree(EncodeScalar(c))
    ensures c >= 0x10000 ==> LeadsFour(EncodeScalar(c))
  {
    assert c / 0x40 == 0x40 * (c / 0x1000) + c / 0x40 % 0x40;
    assert c / 0x1000 == 0x40 * (c / 0x40000) + c / 0x1000 % 0x40;
  }

  lemma {:induction false} EncodedIsValid(cs: seq<Scalar>)
    ensures Utf8Valid(EncodeText(cs))
  {
    if cs != [] {
      EncodedIsValid(cs[1..]);
      ScalarIsValid(cs[0], EncodeText(cs[1..]));
    }
  }

  lemma {:induction false} ValidIsEncoded(s: seq<byte>) returns (cs: seq<Scalar>)
    requires Utf8Valid(s)
    ensures EncodeText(cs) == s
  {
    if s == [] {
      cs := [];
    } else {
      var c, n := FirstScalar(s);
      var tail := ValidIsEncoded(s[n..]);
      cs := [c] + tail;
      assert cs[1..] == tail && s == s[..n] + s[n..];
    }
  }

  lemma FirstScalar(s: seq<byte>) returns (c: Scalar, n: nat)
    requires s != [] && Utf8Valid(s)
    ensures 1 <= n <= |s| && s[..n] == EncodeScalar(c) && Utf8Valid(s[n..])
  {
    var a := s[0] as nat;
    if a < 0x80 {
      c, n := a, 1;
    } else if a <= 0xDF {
      c, n := (a - 0xC0) * 0x40 + (s[1] as nat - 0x80), 2;
    } else if a <= 0xEF {
      c := ThreeBytes(s);
      n := 3;
    } else {
      c := FourBytes(s);
      n := 4;
    }
  }

  lemma ThreeBytes(s: seq<byte>) returns (c: Scalar)
    requires |s| >= 3 && 0xE0 <= s[0] <= 0xEF && Continuation(s[1]) && Continuation(s[2])
    requires (s[0] == 0xE0 ==> s[1] >= 0xA0) && (s[0] == 0xED ==> s[1] <= 0x9F)
    ensures s[..3] == EncodeScalar(c)
  {
    var x, y, z := s[0] as nat - 0xE0, s[1] as nat - 0x80, s[2] as nat - 0x80;
    c := x * 0x1000 + y * 0x40 + z;
    assert c / 0x40 == x * 0x40 + y && c / 0x1000 == x;
  }

  lemma FourBytes(s: seq<byte>) returns (c: Scalar)
    requires |s| >= 4 && 0xF0 <= s[0] <= 0xF4 && Continuation(s[1]) && Continuation(s[2]) && Continuation(s[3])
    requires (s[0] == 0xF0 ==> s[1] >= 0x90) && (s[0] == 0xF4 ==> s[1] <= 0x8F)
    ensures s[..4] == EncodeScalar(c)
  {
    var w, x, y, z := s[0] as nat - 0xF0, s[1] as nat - 0x80, s[2] as nat - 0x80, s[3] as nat - 0x80;
    c := w * 0x40000 + x * 0x1000 + y * 0x40 + z;
    assert c / 0x40 == w * 0x1000 + x * 0x40 + y && c / 0x1000 == w * 0x40 + x && c / 0x40000 == w;
  }

  /** The check accepts exactly the encodings of Unicode text. */
  lemma ValidExactly(s: seq<byte>)
    ensures Utf8Valid(s) <==> exists cs :: EncodeText(cs) == s
  {
    if Utf8Valid(s) { var cs := ValidIsEncoded(s); }
    if cs :| EncodeText(cs) == s { EncodedIsValid(cs); }
  }
}
