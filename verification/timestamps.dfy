/** The text form of instants, as in section 5.1 of RFC 3339: the SQL of the
    jobs compares created_at and state_changed_at as text, and what is stored is
    read back from it. Instants count nanoseconds since the epoch, dates from
    the year 0 on. */
module Timestamps {
  import opened Tables
  import opened Pages

  type Instant = int

  const NANOS_PER_MILLI := 1_000_000
  const MILLIS_PER_DAY := 86_400_000
  /** From 0000-01-01 to 1970-01-01. */
  const EPOCH_DAY := 719_528

  function MillisOf(t: Instant): int { t / NANOS_PER_MILLI }

  // ---- The calendar -----------------------------------------------------------------

  predicate Leap(y: nat) { y % 4 == 0 && (y % 100 != 0 || y % 400 == 0) }

  function YearLength(y: nat): nat { if Leap(y) then 366 else 365 }

  function MonthLength(leap: bool, m: nat): nat {
    if m == 2 then (if leap then 29 else 28) else if m in {4, 6, 9, 11} then 30 else 31
  }

  /** The year and the day in it, this many days after the first of January of year y. */
  function YearFrom(day: nat, y: nat): (r: (nat, nat))
    ensures r.0 >= y && r.1 < YearLength(r.0)
    decreases day
  {
    if day < YearLength(y) then (y, day) else YearFrom(day - YearLength(y), y + 1)
  }

  /** The month and the day in it, this many days after the first of month m. */
  function MonthFrom(leap: bool, day: nat, m: nat): (r: (nat, nat))
    requires 1 <= m <= 12
    ensures m <= r.0 <= 12
    decreases day
  {
    if m == 12 || day < MonthLength(leap, m) then (m, day) else MonthFrom(leap, day - MonthLength(leap, m), m + 1)
  }

  // ---- Text of fixed width ----------------------------------------------------------

  function Pow10(w: nat): (p: nat)
    ensures p >= 1
  {
    if w == 0 then 1 else 10 * Pow10(w - 1)
  }

  function Digit(n: nat): (c: char)
    requires n < 10
  {
    (n as char) + '0'
  }

  function Pad(n: nat, w: nat): (s: string)
    ensures |s| == w && forall i | 0 <= i < w :: '0' <= s[i] <= '9'
  {
    if w == 0 then "" else Pad(n / 10, w - 1) + [Digit(n % 10)]
  }

  /** A number of fixed width and the character after it. */
  datatype Field = Field(value: nat, width: nat, mark: char)

  predicate Fits(f: Field) { f.value < Pow10(f.width) }

  function Render(fs: seq<Field>): string {
    if fs == [] then "" else Pad(fs[0].value, fs[0].width) + [fs[0].mark] + Render(fs[1..])
  }

  predicate Alike(a: seq<Field>, b: seq<Field>) {
    |a| == |b| && forall i | 0 <= i < |a| ::
      Fits(a[i]) && Fits(b[i]) && a[i].width == b[i].width && a[i].mark == b[i].mark
  }

  predicate FieldsBefore(a: seq<Field>, b: seq<Field>)
    requires |a| == |b|
  {
    a != [] && (a[0].value < b[0].value || (a[0].value == b[0].value && FieldsBefore(a[1..], b[1..])))
  }

  lemma {:induction false} BeforePrefix(a: string, b: string, s: string, t: string)
    requires |a| == |b|
    ensures TextBefore(a + s, b + t) <==> TextBefore(a, b) || (a == b && TextBefore(s, t))
  {
    if a == "" {
      assert a + s == s && b + t == t;
    } else {
      BeforePrefix(a[1..], b[1..], s, t);
      assert (a + s)[1..] == a[1..] + s && (b + t)[1..] == b[1..] + t;
      assert a == [a[0]] + a[1..] && b == [b[0]] + b[1..];
    }
  }

  lemma {:induction false} PadOrder(a: nat, b: nat, w: nat)
    requires a < Pow10(w) && b < Pow10(w)
    ensures TextBefore(Pad(a, w), Pad(b, w)) <==> a < b
    ensures Pad(a, w) == Pad(b, w) <==> a == b
  {
    if w > 0 {
      var x, y := [Digit(a % 10)], [Digit(b % 10)];
      PadOrder(a / 10, b / 10, w - 1);
      BeforePrefix(Pad(a / 10, w - 1), Pad(b / 10, w - 1), x, y);
      assert TextBefore(x, y) <==> a % 10 < b % 10;
      assert Pad(a, w)[..w - 1] == Pad(a / 10, w - 1) && Pad(b, w)[..w - 1] == Pad(b / 10, w - 1);
      assert Pad(a, w)[w - 1] == x[0] && Pad(b, w)[w - 1] == y[0];
    }
  }

  lemma FieldThen(f: Field, g: Field, s: string, t: string)
    requires Fits(f) && Fits(g) && f.width == g.width && f.mark == g.mark
    ensures TextBefore(Pad(f.value, f.width) + [f.mark] + s, Pad(g.value, g.width) + [g.mark] + t) <==>
            f.value < g.value || (f.value == g.value && TextBefore(s, t))
  {
    var p, q := Pad(f.value, f.width), Pad(g.value, g.width);
    PadOrder(f.value, g.value, f.width);
    BeforePrefix([f.mark], [g.mark], s, t);
    assert !TextBefore([f.mark], [g.mark]);
    hide TextBefore, Pad;
    BeforePrefix(p, q, [f.mark] + s, [g.mark] + t);
    assert p + [f.mark] + s == p + ([f.mark] + s) && q + [g.mark] + t == q + ([g.mark] + t);
  }

  lemma {:induction false} RenderOrder(a: seq<Field>, b: seq<Field>)
    requires Alike(a, b)
    ensures TextBefore(Render(a), Render(b)) <==> FieldsBefore(a, b)
  {
    hide TextBefore, Pad;
    if a == [] {
      TextIrreflexive("");
    } else {
      FieldThen(a[0], b[0], Render(a[1..]), Render(b[1..]));
      RenderOrder(a[1..], b[1..]);
    }
  }

  // ---- The format -----------------------------------------------------------------

  /** Four digits, more from the year 10000 on. */
  function YearWidth(y: nat): (w: nat)
    ensures w >= 4 && y < Pow10(w)
  {
    assert Pow10(4) == 10 * Pow10(3) && Pow10(3) == 10 * Pow10(2) && Pow10(2) == 10 * Pow10(1);
    if y < 10_000 then 4 else 1 + YearWidth(y / 10)
  }

  /** Instants of the year 0 or later. */
  predicate Dated(millis: int) { millis / MILLIS_PER_DAY + EPOCH_DAY >= 0 }

  function DayOf(millis: int): nat
    requires Dated(millis)
  {
    millis / MILLIS_PER_DAY + EPOCH_DAY
  }

  function YearOf(millis: int): nat
    requires Dated(millis)
  {
    YearFrom(DayOf(millis), 0).0
  }

  function DateFields(day: nat): (fs: seq<Field>)
    ensures |fs| == 3
  {
    var (y, dayOfYear) := YearFrom(day, 0);
    var (m, d) := MonthFrom(Leap(y), dayOfYear, 1);
    [Field(y, YearWidth(y), '-'), Field(m, 2, '-'), Field(d + 1, 2, 'T')]
  }

  function ClockFields(rest: nat): (fs: seq<Field>)
    requires rest < MILLIS_PER_DAY
    ensures |fs| == 4
  {
    [Field(rest / 3_600_000, 2, ':'), Field(rest / 60_000 % 60, 2, ':'), Field(rest / 1000 % 60, 2, '.'),
      Field(rest % 1000, 3, 'Z')]
  }

  function Fields(millis: int): (fs: seq<Field>)
    requires Dated(millis)
    ensures |fs| == 7
  {
    DateFields(DayOf(millis)) + ClockFields(millis % MILLIS_PER_DAY)
  }

  /** Timestamp, which drops what is below a millisecond. */
  function Timestamp(t: Instant): string
    requires Dated(MillisOf(t))
  {
    Render(Fields(MillisOf(t)))
  }

  // ---- Later instants have later fields --------------------------------------------

  lemma {:induction false} YearFromOrder(a: nat, b: nat, y: nat)
    requires a < b
    ensures var (p, q) := (YearFrom(a, y), YearFrom(b, y)); p.0 < q.0 || (p.0 == q.0 && p.1 < q.1)
    decreases a
  {
    if a >= YearLength(y) { YearFromOrder(a - YearLength(y), b - YearLength(y), y + 1); }
  }

  lemma {:induction false} MonthFromOrder(leap: bool, a: nat, b: nat, m: nat)
    requires a < b && 1 <= m <= 12
    ensures var (p, q) := (MonthFrom(leap, a, m), MonthFrom(leap, b, m)); p.0 < q.0 || (p.0 == q.0 && p.1 < q.1)
    decreases a
  {
    if m < 12 && a >= MonthLength(leap, m) {
      MonthFromOrder(leap, a - MonthLength(leap, m), b - MonthLength(leap, m), m + 1);
    }
  }

  lemma {:induction false} MonthFromFits(leap: bool, day: nat, m: nat)
    requires 1 <= m <= 12 && day < DaysFrom(leap, m)
    ensures var r := MonthFrom(leap, day, m); r.1 < MonthLength(leap, r.0)
    decreases day
  {
    if m < 12 && day >= MonthLength(leap, m) { MonthFromFits(leap, day - MonthLength(leap, m), m + 1); }
  }

  /** From the first of month m to the end of the year. */
  function DaysFrom(leap: bool, m: nat): nat
    requires 1 <= m <= 13
    decreases 13 - m
  {
    if m == 13 then 0 else MonthLength(leap, m) + DaysFrom(leap, m + 1)
  }

  lemma YearIsItsMonths(y: nat)
    ensures DaysFrom(Leap(y), 1) == YearLength(y)
  {
    var leap := Leap(y);
    assert DaysFrom(leap, 9) == 30 + DaysFrom(leap, 10) && DaysFrom(leap, 10) == 31 + DaysFrom(leap, 11);
    assert DaysFrom(leap, 11) == 30 + 31;
    assert DaysFrom(leap, 5) == 31 + DaysFrom(leap, 6) && DaysFrom(leap, 6) == 30 + DaysFrom(leap, 7) &&
      DaysFrom(leap, 7) == 31 + DaysFrom(leap, 8);
  }

  lemma FieldsFit(millis: int)
    requires Dated(millis)
    ensures Alike(Fields(millis), Fields(millis))
  {
    var (y, dayOfYear) := YearFrom(DayOf(millis), 0);
    YearIsItsMonths(y);
    MonthFromFits(Leap(y), dayOfYear, 1);
    assert Pow10(3) == 10 * Pow10(2) && Pow10(2) == 10 * Pow10(1) && Pow10(1) == 10;
  }

  lemma {:induction false} FirstDifference(s: seq<Field>, t: seq<Field>, k: nat)
    requires |s| == |t| && k < |s| && (forall i | 0 <= i < k :: s[i].value == t[i].value) && s[k].value < t[k].value
    ensures FieldsBefore(s, t)
  {
    if k > 0 { FirstDifference(s[1..], t[1..], k - 1); }
  }

  lemma DateOrder(a: nat, b: nat, s: seq<Field>, t: seq<Field>)
    requires a < b && |s| == |t|
    ensures FieldsBefore(DateFields(a) + s, DateFields(b) + t)
  {
    YearFromOrder(a, b, 0);
    var (p, q) := (YearFrom(a, 0), YearFrom(b, 0));
    if p.0 == q.0 { MonthFromOrder(Leap(p.0), p.1, q.1, 1); }
    var x, y := DateFields(a), DateFields(b);
    FirstDifference(x + s, y + t, if x[0].value < y[0].value then 0 else if x[1].value < y[1].value then 1 else 2);
  }

  lemma ClockBack(rest: nat)
    requires rest < MILLIS_PER_DAY
    ensures var c := ClockFields(rest);
            c[0].value < 24 && c[1].value < 60 && c[2].value < 60 && c[3].value < 1000 &&
            c[0].value * 3_600_000 + c[1].value * 60_000 + c[2].value * 1000 + c[3].value == rest
  {
    assert rest / 60_000 == 60 * (rest / 3_600_000) + rest / 60_000 % 60;
    assert rest / 1000 == 60 * (rest / 60_000) + rest / 1000 % 60;
  }

  /** The first clock field to differ is the smaller one of the earlier time. */
  lemma ClockDifference(a: nat, b: nat) returns (k: nat)
    requires a < b < MILLIS_PER_DAY
    ensures var x, y := ClockFields(a), ClockFields(b);
            k < 4 && (forall i | 0 <= i < k :: x[i].value == y[i].value) && x[k].value < y[k].value
  {
    ClockBack(a);
    ClockBack(b);
    var x, y := ClockFields(a), ClockFields(b);
    hide ClockFields;
    k := if x[0].value != y[0].value then 0 else if x[1].value != y[1].value then 1
      else if x[2].value != y[2].value then 2 else 3;
  }

  lemma ClockOrder(a: nat, b: nat)
    requires a < b < MILLIS_PER_DAY
    ensures FieldsBefore(ClockFields(a), ClockFields(b))
  {
    var k := ClockDifference(a, b);
    FirstDifference(ClockFields(a), ClockFields(b), k);
  }

  lemma {:induction false} SamePrefix(p: seq<Field>, s: seq<Field>, t: seq<Field>)
    requires |s| == |t|
    ensures FieldsBefore(p + s, p + t) <==> FieldsBefore(s, t)
  {
    if p == [] {
      assert p + s == s && p + t == t;
    } else {
      SamePrefix(p[1..], s, t);
      assert (p + s)[1..] == p[1..] + s && (p + t)[1..] == p[1..] + t;
    }
  }

  lemma FieldsOrder(a: int, b: int)
    requires Dated(a) && Dated(b) && a < b
    ensures FieldsBefore(Fields(a), Fields(b))
  {
    var da, db := DayOf(a), DayOf(b);
    if da < db {
      DateOrder(da, db, ClockFields(a % MILLIS_PER_DAY), ClockFields(b % MILLIS_PER_DAY));
    } else {
      ClockOrder(a % MILLIS_PER_DAY, b % MILLIS_PER_DAY);
      SamePrefix(DateFields(da), ClockFields(a % MILLIS_PER_DAY), ClockFields(b % MILLIS_PER_DAY));
    }
  }

  lemma {:induction false} FieldsAsymmetric(a: seq<Field>, b: seq<Field>)
    requires |a| == |b| && FieldsBefore(a, b)
    ensures !FieldsBefore(b, a) && a != b
  {
    if a[0].value == b[0].value { FieldsAsymmetric(a[1..], b[1..]); }
  }

  // ---- Text order is time order ----------------------------------------------------

  /** The years whose text has as many digits. */
  lemma TextOrderIsTimeOrder(a: Instant, b: Instant)
    requires Dated(MillisOf(a)) && Dated(MillisOf(b))
    requires YearWidth(YearOf(MillisOf(a))) == YearWidth(YearOf(MillisOf(b)))
    ensures TextBefore(Timestamp(a), Timestamp(b)) <==> MillisOf(a) < MillisOf(b)
    ensures Timestamp(a) == Timestamp(b) <==> MillisOf(a) == MillisOf(b)
  {
    var x, y := MillisOf(a), MillisOf(b);
    FieldsFit(x);
    FieldsFit(y);
    RenderOrder(Fields(x), Fields(y));
    if x < y {
      FieldsOrder(x, y);
      TextIrreflexive(Timestamp(a));
    } else if y < x {
      FieldsOrder(y, x);
      FieldsAsymmetric(Fields(y), Fields(x));
      RenderOrder(Fields(y), Fields(x));
      TextIrreflexive(Timestamp(a));
    } else {
      TextIrreflexive(Timestamp(a));
    }
  }

  /** The first digits of a year. */
  function Leading(y: nat, w: nat): nat
    decreases y
  {
    if YearWidth(y) <= w || y < 10_000 then y else Leading(y / 10, w)
  }

  lemma {:induction false} LongerYear(y: nat, w: nat)
    requires 4 <= w < YearWidth(y)
    ensures Leading(y, w) < Pow10(w) && Pad(y, YearWidth(y))[..w] == Pad(Leading(y, w), w) 
    decreases y
  {
    var v := YearWidth(y / 10);
    assert YearWidth(y) == v + 1 && Pad(y, v + 1)[..v] == Pad(y / 10, v);
    if v > w {
      LongerYear(y / 10, w);
      assert Pad(y, v + 1)[..w] == Pad(y / 10, v)[..w];
    } else {
      assert Leading(y, w) == Leading(y / 10, w) == y / 10;
    }
  }

  lemma LongerYearText(y: nat, z: nat, r: string, q: string)
    requires YearWidth(y) < YearWidth(z)
    ensures TextBefore(Pad(y, YearWidth(y)) + ['-'] + r, Pad(z, YearWidth(z)) + ['-'] + q) <==>
            y <= Leading(z, YearWidth(y))
  {
    var w, v := YearWidth(y), YearWidth(z);
    LongerYear(z, w);
    PadOrder(y, Leading(z, w), w);
    var s, t := ['-'] + r, Pad(z, v)[w..] + ['-'] + q;
    assert s[0] == '-' && t[0] == Pad(z, v)[w] && TextBefore(s, t);
    hide TextBefore, Pad, YearWidth, Leading;
    BeforePrefix(Pad(y, w), Pad(z, v)[..w], s, t);
    assert Pad(y, w) + ['-'] + r == Pad(y, w) + s;
    assert Pad(z, v) + ['-'] + q == Pad(z, v)[..w] + t;
  }

  /** Years of different lengths: the mark after the shorter sorts before the
      digits that the longer goes on with. */
  lemma LengthsDiffer(a: Instant, b: Instant)
    requires Dated(MillisOf(a)) && Dated(MillisOf(b))
    requires YearWidth(YearOf(MillisOf(a))) < YearWidth(YearOf(MillisOf(b)))
    ensures TextBefore(Timestamp(a), Timestamp(b)) <==>
            YearOf(MillisOf(a)) <= Leading(YearOf(MillisOf(b)), YearWidth(YearOf(MillisOf(a))))
  {
    hide TextBefore, Pad, YearWidth, YearFrom, Leading;
    LongerYearText(YearOf(MillisOf(a)), YearOf(MillisOf(b)), Render(Fields(MillisOf(a))[1..]),
      Render(Fields(MillisOf(b))[1..]));
  }

  /** So for instants in order, text order is right exactly when the years have
      as many digits or the first digits of the later year are no less. */
  lemma TextOrderExactly(a: Instant, b: Instant)
    requires Dated(MillisOf(a)) && Dated(MillisOf(b)) && MillisOf(a) < MillisOf(b)
    ensures var y, z := YearOf(MillisOf(a)), YearOf(MillisOf(b));
            TextBefore(Timestamp(a), Timestamp(b)) <==> YearWidth(y) == YearWidth(z) || y <= Leading(z, YearWidth(y))
  {
    var y, z := YearOf(MillisOf(a)), YearOf(MillisOf(b));
    if YearWidth(y) == YearWidth(z) {
      TextOrderIsTimeOrder(a, b);
    } else {
      YearFromLater(MillisOf(a), MillisOf(b));
      WidthGrows(y, z);
      LengthsDiffer(a, b);
    }
  }

  lemma YearFromLater(a: int, b: int)
    requires Dated(a) && Dated(b) && a < b
    ensures YearOf(a) <= YearOf(b)
  {
    if DayOf(a) < DayOf(b) { YearFromOrder(DayOf(a), DayOf(b), 0); }
  }

  lemma {:induction false} WidthGrows(y: nat, z: nat)
    requires y <= z
    ensures YearWidth(y) <= YearWidth(z)
  {
    if y >= 10_000 { WidthGrows(y / 10, z / 10); }
  }
}
