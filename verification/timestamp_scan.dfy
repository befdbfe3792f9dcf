/** Reading stored timestamps back: what Time.Scan makes of the text. */
module TimestampScan {
  import opened Tables
  import opened Timestamps

  // ---- Numbers of fixed width -------------------------------------------------------

  predicate AllDigits(s: string) { forall i | 0 <= i < |s| :: '0' <= s[i] <= '9' }

  function Number(s: string): nat
    requires AllDigits(s)
  {
    if s == "" then 0 else 10 * Number(s[..|s| - 1]) + (s[|s| - 1] - '0') as nat
  }

  lemma {:induction false} NumberOfPad(n: nat, w: nat)
    requires n < Pow10(w)
    ensures Number(Pad(n, w)) == n
  {
    if w > 0 {
      NumberOfPad(n / 10, w - 1);
      assert Pad(n, w)[..w - 1] == Pad(n / 10, w - 1);
    }
  }

  /** Numbers of these widths, each before its mark, and nothing else. */
  function ReadFields(text: string, shape: seq<(nat, char)>): Option<seq<nat>> {
    if shape == [] then (if text == "" then Some([]) else None)
    else
      var (w, mark) := shape[0];
      if |text| <= w || !AllDigits(text[..w]) || text[w] != mark then None
      else
        match ReadFields(text[w + 1..], shape[1..])
        case None => None
        case Some(rest) => Some([Number(text[..w])] + rest)
  }

  predicate HasShape(fs: seq<Field>, shape: seq<(nat, char)>) {
    |fs| == |shape| && forall i | 0 <= i < |fs| :: Fits(fs[i]) && (fs[i].width, fs[i].mark) == shape[i]
  }

  function Values(fs: seq<Field>): (vs: seq<nat>)
    ensures |vs| == |fs| && forall i | 0 <= i < |fs| :: vs[i] == fs[i].value
  {
    if fs == [] then [] else [fs[0].value] + Values(fs[1..])
  }

  lemma {:induction false} ReadsRendered(fs: seq<Field>, shape: seq<(nat, char)>)
    requires HasShape(fs, shape)
    ensures ReadFields(Render(fs), shape) == Some(Values(fs))
  {
    if fs != [] {
      var p := Pad(fs[0].value, fs[0].width);
      NumberOfPad(fs[0].value, fs[0].width);
      var text := Render(fs);
      assert text[..fs[0].width] == p && text[fs[0].width] == fs[0].mark && text[fs[0].width + 1..] == Render(fs[1..]);
      ReadsRendered(fs[1..], shape[1..]);
    }
  }

  // ---- Dates back to days ------------------------------------------------------------

  function YearStart(y: nat): nat { if y == 0 then 0 else YearStart(y - 1) + YearLength(y - 1) }

  function MonthStart(leap: bool, m: nat): nat
    requires 1 <= m
  {
    if m == 1 then 0 else MonthStart(leap, m - 1) + MonthLength(leap, m - 1)
  }

  lemma {:induction false} YearStarts(day: nat, y: nat)
    ensures var r := YearFrom(day, y); YearStart(r.0) + r.1 == YearStart(y) + day
    decreases day
  {
    if day >= YearLength(y) { YearStarts(day - YearLength(y), y + 1); }
  }

  lemma {:induction false} MonthStarts(leap: bool, day: nat, m: nat)
    requires 1 <= m <= 12
    ensures var r := MonthFrom(leap, day, m); MonthStart(leap, r.0) + r.1 == MonthStart(leap, m) + day
    decreases day
  {
    if m < 12 && day >= MonthLength(leap, m) { MonthStarts(leap, day - MonthLength(leap, m), m + 1); }
  }

  lemma {:induction false} YearStartClosed(y: nat)
    ensures YearStart(y) == 365 * y + (y + 3) / 4 - (y + 99) / 100 + (y + 399) / 400
  {
    if y > 0 {
      YearStartClosed(y - 1);
      LeapCounts(y - 1);
    }
  }

  lemma LeapCounts(y: nat)
    ensures (y + 4) / 4 - (y + 3) / 4 == (if y % 4 == 0 then 1 else 0)
    ensures (y + 100) / 100 - (y + 99) / 100 == (if y % 100 == 0 then 1 else 0)
    ensures (y + 400) / 400 - (y + 399) / 400 == (if y % 400 == 0 then 1 else 0)
    ensures YearLength(y) == 365 + (if y % 4 == 0 then 1 else 0) - (if y % 100 == 0 then 1
            else 0) + (if y % 400 == 0 then 1 else 0)
  {
    assert y == 100 * (y / 100) + y % 100;
    assert y == 400 * (y / 400) + y % 400;
    assert y % 100 == 0 ==> y % 4 == 0;
    assert y % 400 == 0 ==> y % 100 == 0;
  }

  // ---- Scan -------------------------------------------------------------------------

  const SHAPE: seq<(nat, char)> := [(4, '-'), (2, '-'), (2, 'T'), (2, ':'), (2, ':'), (2, '.'), (3, 'Z')]

  predicate InRange(v: seq<nat>)
    requires |v| == 7
  {
    1 <= v[1] <= 12 && 1 <= v[2] <= MonthLength(Leap(v[0]), v[1]) && v[3] < 24 && v[4] < 60 && v[5] < 60 && v[6] < 1000
  }

  function FromFields(v: seq<nat>): int
    requires |v| == 7 && InRange(v)
  {
    (YearStart(v[0]) + MonthStart(Leap(v[0]), v[1]) + v[2] - 1 - EPOCH_DAY) * MILLIS_PER_DAY
    + v[3] * 3_600_000 + v[4] * 60_000 + v[5] * 1000 + v[6]
  }

  lemma {:induction false} ReadLength(text: string, shape: seq<(nat, char)>)
    requires ReadFields(text, shape).Some?
    ensures |ReadFields(text, shape).value| == |shape|
  {
    if shape != [] { ReadLength(text[shape[0].0 + 1..], shape[1..]); }
  }

  /** The milliseconds this text stands for, or None where it does not parse. */
  function Scan(text: string): Option<int> {
    match ReadFields(text, SHAPE)
    case None => None
    case Some(v) =>
      ReadLength(text, SHAPE);
      if InRange(v) then Some(FromFields(v)) else None
  }

  lemma DateBack(day: nat)
    ensures var d := DateFields(day);
            1 <= d[1].value <= 12 && 1 <= d[2].value <= MonthLength(Leap(d[0].value), d[1].value) &&
            YearStart(d[0].value) + MonthStart(Leap(d[0].value), d[1].value) + d[2].value - 1 == day
  {
    var (y, dayOfYear) := YearFrom(day, 0);
    YearStarts(day, 0);
    YearIsItsMonths(y);
    MonthFromFits(Leap(y), dayOfYear, 1);
    MonthStarts(Leap(y), dayOfYear, 1);
  }

  lemma FieldsBack(millis: int)
    requires Dated(millis)
    ensures InRange(Values(Fields(millis))) && FromFields(Values(Fields(millis))) == millis
  {
    hide YearFrom, MonthFrom, YearStart, MonthStart, DateFields, ClockFields, Leap, MonthLength;
    var day, rest := DayOf(millis), millis % MILLIS_PER_DAY;
    var f, v := Fields(millis), Values(Fields(millis));
    assert v[0] == DateFields(day)[0].value && v[1] == DateFields(day)[1].value && v[2] == DateFields(day)[2].value;
    assert v[3] == ClockFields(rest)[0].value && v[4] == ClockFields(rest)[1].value &&
      v[5] == ClockFields(rest)[2].value && v[6] == ClockFields(rest)[3].value;
    DateBack(day);
    ClockBack(rest);
  }

  /** What was written is read back, to the millisecond, up to the year 9999;
      past that it cannot be read. */
  lemma ScanOfTimestamp(t: Instant)
    requires Dated(MillisOf(t))
    ensures Scan(Timestamp(t)) == if YearOf(MillisOf(t)) < 10_000 then Some(MillisOf(t)) else None
  {
    var fs := Fields(MillisOf(t));
    FieldsFit(MillisOf(t));
    if YearOf(MillisOf(t)) < 10_000 {
      ShapeOfFields(MillisOf(t));
      ReadsRendered(fs, SHAPE);
      FieldsBack(MillisOf(t));
    } else {
      FifthDigit(fs);
    }
  }

  lemma ShapeOfFields(millis: int)
    requires Dated(millis) && YearOf(millis) < 10_000
    ensures HasShape(Fields(millis), SHAPE)
  {
    FieldsFit(millis);
    var fs := Fields(millis);
    assert fs[0].width == 4 && fs[0].mark == '-';
  }

  lemma {:induction false} FifthDigit(fs: seq<Field>)
    requires fs != [] && fs[0].width > 4
    ensures ReadFields(Render(fs), SHAPE).None?
  {
    assert Render(fs)[4] == Pad(fs[0].value, fs[0].width)[4];
  }

  lemma {:induction false} LaterYearStarts(y: nat, z: nat)
    requires y < z
    ensures YearStart(y) + YearLength(y) <= YearStart(z)
  {
    if y + 1 < z { LaterYearStarts(y, z - 1); }
  }

  lemma FirstDay(z: nat)
    ensures YearFrom(YearStart(z), 0) == (z, 0)
  {
    var (y, day) := YearFrom(YearStart(z), 0);
    YearStarts(YearStart(z), 0);
    if y < z { LaterYearStarts(y, z); } else if y > z { LaterYearStarts(z, y); }
  }

  lemma EpochYear(z: nat)
    requires z == 1970
    ensures YearFrom(EPOCH_DAY, 0) == (z, 0)
  {
    hide YearStart, YearFrom;
    FirstDay(z);
    YearStartClosed(z);
  }

  lemma EpochParts()
    ensures Pad(1970, 4) == "1970" && Pad(1, 2) == "01" && Pad(0, 2) == "00" && Pad(0, 3) == "000"
  {
    assert Pad(0, 1) == "0" && Pad(1, 1) == "1" && Pad(19, 2) == "19" && Pad(197, 3) == "197";
  }

  lemma RenderCons(f: Field, rest: seq<Field>)
    ensures Render([f] + rest) == Pad(f.value, f.width) + [f.mark] + Render(rest)
  {
    assert ([f] + rest)[1..] == rest;
  }

  lemma EpochClock()
    ensures Render(ClockFields(0)) == "00:00:00.000Z"
  {
    hide Render, Pad;
    EpochParts();
    assert Render([]) == "" by { EmptyText(); }
    var z, dot, colon := Field(0, 3, 'Z'), Field(0, 2, '.'), Field(0, 2, ':');
    RenderCons(z, []);
    RenderCons(dot, [z] + []);
    RenderCons(colon, [dot] + ([z] + []));
    RenderCons(colon, [colon] + ([dot] + ([z] + [])));
    assert ClockFields(0) == [colon] + ([colon] + ([dot] + ([z] + [])));
  }

  lemma EmptyText()
    ensures Render([]) == ""
  {
  }

  lemma EpochDate(clock: seq<Field>)
    ensures Render(DateFields(EPOCH_DAY) + clock) == "1970-01-01T" + Render(clock)
  {
    hide YearFrom, Pad, Render;
    EpochYear(1970);
    EpochParts();
    assert !Leap(1970) && MonthFrom(false, 0, 1) == (1, 0);
    RenderCons(Field(1, 2, 'T'), clock);
    RenderCons(Field(1, 2, '-'), [Field(1, 2, 'T')] + clock);
    RenderCons(Field(1970, 4, '-'), [Field(1, 2, '-')] + ([Field(1, 2, 'T')] + clock));
    assert DateFields(EPOCH_DAY) + clock == [Field(1970, 4, '-')] + ([Field(1, 2, '-')] + ([Field(1, 2, 'T')] + clock));
  }

  /** The calendar is anchored where Unix time is. */
  lemma EpochText()
    ensures MillisOf(0) == 0 && Dated(0) && Timestamp(0) == "1970-01-01T00:00:00.000Z"
  {
    hide DateFields, ClockFields, Render;
    EpochClock();
    EpochDate(ClockFields(0));
  }
}
