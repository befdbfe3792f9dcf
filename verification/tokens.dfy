/** The revision token of a vault key: its instant as RFC 3339 text with
    nanoseconds. Different instants have different tokens. */
module Tokens {
  import opened Tables
  import opened Pages
  import opened Timestamps

  const NANOS_PER_SECOND := 1_000_000_000

  // ---- The token ---------------------------------------------------------------------

  /** Instants that can be stored and read back: years 0 to 9999. */
  predicate Writable(t: Instant) { Dated(MillisOf(t)) && YearOf(MillisOf(t)) < 10_000 }

  function ToSecond(t: Instant): Instant { t / NANOS_PER_SECOND * NANOS_PER_SECOND }

  function TrimZeros(s: string): (r: string)
    ensures |r| <= |s|
  {
    if s != "" && s[|s| - 1] == '0' then TrimZeros(s[..|s| - 1]) else s
  }

  /** Nanoseconds as a fraction of a second, without trailing zeros. */
  function Fraction(nanos: nat): string {
    if nanos == 0 then "" else "." + TrimZeros(Pad(nanos, 9))
  }

  /** The RFC 3339 rendering with nanoseconds of section 5.6: date and time to
      the second, the fraction if there is one, and Z. */
  function Token(t: Instant): string
    requires Writable(t)
  {
    SecondIsWritable(t);
    var whole := Timestamp(ToSecond(t));
    StampLength(ToSecond(t));
    whole[..19] + Fraction(t % NANOS_PER_SECOND) + "Z"
  }

  lemma SecondIsWritable(t: Instant)
    requires Writable(t)
    ensures Writable(ToSecond(t))
    ensures MillisOf(ToSecond(t)) == MillisOf(t) / 1000 * 1000
  {
    var s := MillisOf(t);
    assert MillisOf(ToSecond(t)) == s / 1000 * 1000 by {
      assert ToSecond(t) / NANOS_PER_MILLI == t / NANOS_PER_SECOND * 1000;
      assert t / NANOS_PER_SECOND == s / 1000;
    }
    assert (s / 1000 * 1000) / MILLIS_PER_DAY == s / MILLIS_PER_DAY;
  }

  lemma {:induction false} RenderLength(fs: seq<Field>)
    ensures |Render(fs)| == Widths(fs)
  {
    if fs != [] { RenderLength(fs[1..]); }
  }

  function Widths(fs: seq<Field>): nat {
    if fs == [] then 0 else fs[0].width + 1 + Widths(fs[1..])
  }

  lemma ClockWidths(rest: nat)
    requires rest < MILLIS_PER_DAY
    ensures Widths(ClockFields(rest)) == 13
  {
    var c := ClockFields(rest);
    WidthsCons(c);
    WidthsCons(c[1..]);
    WidthsCons(c[2..]);
    WidthsCons(c[3..]);
    assert c[0].width == 2 && c[1].width == 2 && c[2].width == 2 && c[3].width == 3;
    hide Widths, ClockFields;
    assert c[1..][1..] == c[2..] && c[2..][1..] == c[3..] && c[3..][1..] == [];
    assert Widths([]) == 0 by { NoWidth(); }
  }

  lemma NoWidth()
    ensures Widths([]) == 0
  {
  }

  lemma WidthsCons(fs: seq<Field>)
    requires fs != []
    ensures Widths(fs) == fs[0].width + 1 + Widths(fs[1..])
  {
  }

  lemma DateWidths(day: nat, rest: seq<Field>)
    requires YearFrom(day, 0).0 < 10_000
    ensures Widths(DateFields(day) + rest) == 11 + Widths(rest)
  {
    var d := DateFields(day);
    assert (d + rest)[1..] == d[1..] + rest && (d[1..] + rest)[1..] == d[2..] + rest && (d[2..] + rest)[1..] == rest;
    assert Widths(d[2..] + rest) == 3 + Widths(rest) && Widths(d[1..] + rest) == 6 + Widths(rest);
  }

  lemma StampLength(t: Instant)
    requires Writable(t)
    ensures |Timestamp(t)| == 24
  {
    RenderLength(Fields(MillisOf(t)));
    ClockWidths(MillisOf(t) % MILLIS_PER_DAY);
    DateWidths(DayOf(MillisOf(t)), ClockFields(MillisOf(t) % MILLIS_PER_DAY));
  }

  // ---- Different instants, different tokens ------------------------------------------

  lemma {:induction false} RenderSplit(a: seq<Field>, b: seq<Field>)
    ensures Render(a + b) == Render(a) + Render(b)
  {
    if a == [] {
      assert a + b == b;
    } else {
      assert (a + b)[1..] == a[1..] + b;
      RenderSplit(a[1..], b);
    }
  }

  lemma LastTwo(fs: seq<Field>)
    requires |fs| == 7 && fs[5].width == 2 && fs[5].mark == '.' && fs[6] == Field(0, 3, 'Z')
    ensures Render(fs) == Render(fs[..5]) + Pad(fs[5].value, 2) + "." + Pad(0, 3) + "Z"
  {
    hide Pad;
    assert fs == fs[..5] + [fs[5], fs[6]];
    RenderSplit(fs[..5], [fs[5], fs[6]]);
    assert [fs[5], fs[6]][1..] == [fs[6]] && [fs[6]][1..] == [];
    assert Render([fs[6]]) == Pad(0, 3) + "Z";
    assert Render([fs[5], fs[6]]) == Pad(fs[5].value, 2) + "." + Render([fs[6]]);
  }

  /** At a whole second the text ends in ".000Z", after the nineteen characters the token keeps. */
  lemma WholeSecond(t: Instant)
    requires Writable(t) && MillisOf(t) % 1000 == 0
    ensures |Timestamp(t)| == 24 && Timestamp(t)[19..] == "." + Pad(0, 3) + "Z"
  {
    hide Timestamp, Render, Fields, Pad, YearFrom;
    StampLength(t);
    LastFields(t);
    LastTwo(Fields(MillisOf(t)));
    TimestampIsRender(t);
    var head := Render(Fields(MillisOf(t))[..5]) + Pad(Fields(MillisOf(t))[5].value, 2);
    assert Timestamp(t) == head + ("." + Pad(0, 3) + "Z");
  }

  lemma TimestampIsRender(t: Instant)
    requires Writable(t)
    ensures Dated(MillisOf(t)) && Timestamp(t) == Render(Fields(MillisOf(t)))
  {
  }

  lemma LastFields(t: Instant)
    requires Writable(t) && MillisOf(t) % 1000 == 0
    ensures var fs := Fields(MillisOf(t));
            |fs| == 7 && fs[5].width == 2 && fs[5].mark == '.' && fs[6] == Field(0, 3, 'Z')
  {
  }

  lemma {:induction false} TrimmedTail(s: string)
    ensures s[..|TrimZeros(s)|] == TrimZeros(s) && forall i | |TrimZeros(s)| <= i < |s| :: s[i] == '0'
  {
    if s != "" && s[|s| - 1] == '0' { TrimmedTail(s[..|s| - 1]); }
  }

  lemma TrimInjective(s: string, t: string)
    requires |s| == |t| && TrimZeros(s) == TrimZeros(t)
    ensures s == t
  {
    TrimmedTail(s);
    TrimmedTail(t);
    var n := |TrimZeros(s)|;
    forall i | 0 <= i < |s| ensures s[i] == t[i] {
      if i < n { assert s[i] == s[..n][i] && t[i] == t[..n][i]; }
    }
  }

  lemma FractionInjective(a: nat, b: nat)
    requires a < NANOS_PER_SECOND && b < NANOS_PER_SECOND && Fraction(a) == Fraction(b)
    ensures a == b
  {
    NinePlaces();
    if a != 0 && b != 0 {
      assert Fraction(a)[1..] == TrimZeros(Pad(a, 9)) && Fraction(b)[1..] == TrimZeros(Pad(b, 9));
      TrimInjective(Pad(a, 9), Pad(b, 9));
      PadOrder(a, b, 9);
    }
  }

  lemma NinePlaces()
    ensures Pow10(9) == NANOS_PER_SECOND
  {
    assert Pow10(3) == 1000 && Pow10(6) == 1000 * Pow10(3) && Pow10(9) == 1000 * Pow10(6);
  }

  lemma SameSecond(s: Instant, t: Instant)
    requires Writable(s) && Writable(t) && s % NANOS_PER_SECOND == 0 && t % NANOS_PER_SECOND == 0
    requires |Timestamp(s)| >= 19 && |Timestamp(t)| >= 19 && Timestamp(s)[..19] == Timestamp(t)[..19]
    ensures s == t
  {
    WholeMillis(s);
    WholeMillis(t);
    hide Timestamp, Pad, YearFrom, YearWidth, Dated, Fields, MillisOf;
    WholeSecond(s);
    WholeSecond(t);
    assert Timestamp(s) == Timestamp(s)[..19] + Timestamp(s)[19..] &&
      Timestamp(t) == Timestamp(t)[..19] + Timestamp(t)[19..];
    YearsAreShort(s);
    YearsAreShort(t);
    TextOrderIsTimeOrder(s, t);
  }

  lemma WholeMillis(t: Instant)
    requires t % NANOS_PER_SECOND == 0
    ensures t == MillisOf(t) * NANOS_PER_MILLI && MillisOf(t) % 1000 == 0
  {
    assert t == t / NANOS_PER_SECOND * 1000 * NANOS_PER_MILLI;
  }

  lemma YearsAreShort(t: Instant)
    requires Writable(t)
    ensures YearWidth(YearOf(MillisOf(t))) == 4
  {
  }

  lemma TokenParts(t: Instant)
    requires Writable(t)
    ensures Writable(ToSecond(t)) && |Timestamp(ToSecond(t))| == 24 && |Token(t)| >= 19
    ensures Token(t)[..19] == Timestamp(ToSecond(t))[..19] && Token(t)[19..] == Fraction(t % NANOS_PER_SECOND) + "Z"
  {
    SecondIsWritable(t);
    StampLength(ToSecond(t));
  }

  /** So a token names one revision. */
  lemma {:induction false} TokenInjective(a: Instant, b: Instant)
    requires Writable(a) && Writable(b) && Token(a) == Token(b)
    ensures a == b
  {
    hide Token, Timestamp, Fraction, Writable;
    TokenParts(a);
    TokenParts(b);
    var x, y := Fraction(a % NANOS_PER_SECOND), Fraction(b % NANOS_PER_SECOND);
    assert x == (x + "Z")[..|x|] && y == (y + "Z")[..|y|];
    FractionInjective(a % NANOS_PER_SECOND, b % NANOS_PER_SECOND);
    SameSecond(ToSecond(a), ToSecond(b));
  }

  /** The token is date and time to the second, the nanoseconds as a fraction without
      trailing zeros if there are any, and Z. */
  lemma TokenText(t: Instant)
    requires Writable(t)
    ensures Writable(ToSecond(t)) && |Timestamp(ToSecond(t))| == 24
    ensures var second, nanos, token := Timestamp(ToSecond(t))[..19], t % NANOS_PER_SECOND, Token(t);
            if nanos == 0 then token == second + "Z"
            else
              |token| > 21 && token[..20] == second + "." && token[|token| - 1..] == "Z" &&
              var digits := token[20..|token| - 1];
              |digits| <= 9 && digits[|digits| - 1] != '0' && Pad(nanos, 9)[..|digits|] == digits &&
              forall i | |digits| <= i < 9 :: Pad(nanos, 9)[i] == '0'
  {
    TokenParts(t);
    var nanos := t % NANOS_PER_SECOND;
    hide Timestamp, Writable, Pad, Token, ToSecond, Fraction;
    assert Token(t) == Timestamp(ToSecond(t))[..19] + Token(t)[19..];
    if nanos == 0 {
      assert Fraction(0) == "" by { NoFraction(); }
    } else {
      FractionText(nanos);
      Spliced(Timestamp(ToSecond(t))[..19], TrimZeros(Pad(nanos, 9)), Token(t));
    }
  }

  lemma NoFraction()
    ensures Fraction(0) == ""
  {
  }

  lemma FractionText(nanos: nat)
    requires 0 < nanos < NANOS_PER_SECOND
    ensures var digits := TrimZeros(Pad(nanos, 9));
            Fraction(nanos) == "." + digits && 0 < |digits| <= 9 && digits[|digits| - 1] != '0' &&
            Pad(nanos, 9)[..|digits|] == digits && forall i | |digits| <= i < 9 :: Pad(nanos, 9)[i] == '0'
  {
    TrimmedTail(Pad(nanos, 9));
    SomeDigit(nanos);
  }

  lemma Spliced(second: string, digits: string, token: string)
    requires |second| == 19 && digits != "" && token == second + ("." + digits + "Z")
    ensures |token| > 21 && token[..20] == second + "." && token[|token| - 1..] == "Z" &&
            token[20..|token| - 1] == digits
  {
  }

  lemma SomeDigit(n: nat)
    requires 0 < n < NANOS_PER_SECOND
    ensures var digits := TrimZeros(Pad(n, 9)); digits != "" && digits[|digits| - 1] != '0'
  {
    NinePlaces();
    NotAllZeros(n, 9);
    TrimmedTail(Pad(n, 9));
    LastKept(Pad(n, 9));
  }

  lemma {:induction false} LastKept(s: string)
    ensures TrimZeros(s) != "" ==> TrimZeros(s)[|TrimZeros(s)| - 1] != '0'
  {
    if s != "" && s[|s| - 1] == '0' { LastKept(s[..|s| - 1]); }
  }

  lemma {:induction false} NotAllZeros(n: nat, w: nat)
    requires 0 < n < Pow10(w)
    ensures exists i :: 0 <= i < w && Pad(n, w)[i] != '0'
  {
    if n % 10 != 0 {
      assert Pad(n, w)[w - 1] == Digit(n % 10);
    } else {
      NotAllZeros(n / 10, w - 1);
      var i :| 0 <= i < w - 1 && Pad(n / 10, w - 1)[i] != '0';
      assert Pad(n, w)[i] == Pad(n / 10, w - 1)[i];
    }
  }
}
