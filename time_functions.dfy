/** UTC time arithmetic of lib/time-functions.cpp: `my_timegm` (broken-down UTC
    time to seconds since the Unix epoch) and `str_to_tm` (the two fixed text
    formats the readers parse), with the calendar they implement. */
module TimeFunctions {
  import opened Numerics
  import opened Decimal
  import opened Wrappers

  /** The fields of C's `struct tm` that the code reads or writes. */
  datatype Tm = Tm(tmSec: int, tmMin: int, tmHour: int, tmMday: int, tmMon: int, tmYear: int, tmIsdst: int)

  /** `std::tm t = {}`: every field zero. */
  const ZeroTm: Tm := Tm(0, 0, 0, 0, 0, 0, 0)


  /** Days before each month in a common year (`cumdays`). */
  const CumDays: seq<int> := [0, 31, 59, 90, 120, 151, 181, 212, 243, 273, 304, 334]

  /** Gregorian leap-year rule. `x % n == 0` is the same test under C's and Dafny's `%`. */
  predicate IsLeap(y: int)
  {
    y % 4 == 0 && (y % 100 != 0 || y % 400 == 0)
  }

  /** The year my_timegm computes with, after whole years are carried out of `tm_mon`. */
  function CarriedYear(t: Tm): int
  {
    1900 + t.tmYear + CDiv(t.tmMon, 12)
  }

  /** `cumdays[tm_mon % 12]` is inside the table (false only for some negative `tm_mon`). */
  predicate MonthIndexDefined(t: Tm)
  {
    CMod(t.tmMon, 12) >= 0
  }

  // ---------------------------------------------------------------------
  // An independent reference calendar: days counted year by year and month by month.

  function YearLength(y: int): int
  {
    if IsLeap(y) then 366 else 365
  }

  function MonthLength(y: int, m: int): int
    requires 0 <= m < 12
  {
    if m == 1 then (if IsLeap(y) then 29 else 28)
    else if m == 3 || m == 5 || m == 8 || m == 10 then 30
    else 31
  }

  /** Days from 1970-01-01 to the first of January of `y` (negative before 1970). */
  function DaysBeforeYear(y: int): int
  {
    if y >= 1970 then DaysAfterEpoch((y - 1970) as nat) else -DaysBeforeEpoch((1970 - y) as nat)
  }

  /** Days in the `n` years from 1970 on. */
  function DaysAfterEpoch(n: nat): int
  {
    if n == 0 then 0 else DaysAfterEpoch(n - 1) + YearLength(1970 + n - 1)
  }

  /** Days in the `n` years before 1970. */
  function DaysBeforeEpoch(n: nat): int
  {
    if n == 0 then 0 else DaysBeforeEpoch(n - 1) + YearLength(1970 - n)
  }

  /** Consecutive years differ by the length of the earlier one. */
  lemma DaysBeforeYearStep(y: int)
    ensures DaysBeforeYear(y + 1) == DaysBeforeYear(y) + YearLength(y)
  {
    if y < 1969 {
      assert DaysBeforeEpoch((1970 - y) as nat) == DaysBeforeEpoch((1970 - (y + 1)) as nat) + YearLength(y);
    } else if y == 1969 {
      assert DaysBeforeEpoch(1) == YearLength(1969);
    } else {
      assert DaysAfterEpoch((y + 1 - 1970) as nat) == DaysAfterEpoch((y - 1970) as nat) + YearLength(y);
    }
  }

  /** Days of year `y` before month `m` (0 = January). */
  function DaysBeforeMonth(y: int, m: int): int
    requires 0 <= m <= 12
  {
    if m == 0 then 0 else DaysBeforeMonth(y, m - 1) + MonthLength(y, m - 1)
  }

  /** Seconds since 1970-01-01T00:00:00 UTC of a UTC date and time, `month0` counted from 0. */
  function UtcSeconds(year: int, month0: int, mday: int, hour: int, minute: int, second: int): int
    requires 0 <= month0 < 12
  {
    (DaysBeforeYear(year) + DaysBeforeMonth(year, month0) + mday - 1) * 86400
      + hour * 3600 + minute * 60 + second
  }

  // ---------------------------------------------------------------------
  // my_timegm

  /** The leap days my_timegm adds: `(year-1968)/4 - (year-1900)/100 + (year-1600)/400` in C division. */
  function LeapTerm(year: int): int
  {
    CDiv(year - 1968, 4) - CDiv(year - 1900, 100) + CDiv(year - 1600, 400)
  }

  /** my_timegm's closed-form day count from the epoch to the first of month
      `mon` (0 = January) of `year`. */
  function YearMonthDays(year: int, mon: int): int
    requires 0 <= mon < 12
  {
    (year - 1970) * 365 + CumDays[mon] + LeapTerm(year) - (if IsLeap(year) && mon < 2 then 1 else 0)
  }

  /** The same count for the `tm_year` and `tm_mon` fields, whole years carried
      out of the month first. */
  function MonthStartDays(tmYear: int, tmMon: int): int
    requires CMod(tmMon, 12) >= 0
  {
    YearMonthDays(1900 + tmYear + CDiv(tmMon, 12), CMod(tmMon, 12))
  }

  /** The day count my_timegm builds before converting to seconds. */
  function TimegmDays(t: Tm): int
    requires MonthIndexDefined(t)
  {
    MonthStartDays(t.tmYear, t.tmMon) + t.tmMday - 1
  }

  /** `my_timegm(t)`: seconds since the epoch of a broken-down UTC time, one
      hour less when `tm_isdst == 1`. MyTimegmAgrees relates it to the calendar. */
  function MyTimegm(t: Tm): int
    requires MonthIndexDefined(t)
  {
    var result := ((TimegmDays(t) * 24 + t.tmHour) * 60 + t.tmMin) * 60 + t.tmSec;
    if t.tmIsdst == 1 then result - 3600 else result
  }

  /** From 1968 on, my_timegm is the calendar second of the carried year and
      month (less an hour under `tm_isdst == 1`); C's truncating division makes
      the leap-day terms wrong before (Timegm1967OneDayLate). */
  lemma MyTimegmAgrees(t: Tm)
    requires MonthIndexDefined(t) && CarriedYear(t) >= 1968
    ensures MyTimegm(t) == UtcSeconds(CarriedYear(t), CMod(t.tmMon, 12), t.tmMday, t.tmHour, t.tmMin, t.tmSec)
                           - (if t.tmIsdst == 1 then 3600 else 0)
  {
    CalendarAgreement(t.tmYear, t.tmMon);
  }

  /** The closed-form day count of my_timegm equals the reference calendar's from 1968 on. */
  lemma CalendarAgreement(tmYear: int, tmMon: int)
    requires CMod(tmMon, 12) >= 0
    requires 1900 + tmYear + CDiv(tmMon, 12) >= 1968
    ensures MonthStartDays(tmYear, tmMon)
            == DaysBeforeYear(1900 + tmYear + CDiv(tmMon, 12)) + DaysBeforeMonth(1900 + tmYear + CDiv(tmMon, 12), CMod(tmMon, 12))
  {
    var year := 1900 + tmYear + CDiv(tmMon, 12);
    LeapDays(year);
    CumDaysAgree(year, CMod(tmMon, 12));
  }

  /** One more than a non-negative `a`: the quotient grows exactly when `b` divides `a + 1`. */
  lemma QuotientStep(a: int, b: int)
    requires a >= 0 && (b == 4 || b == 100 || b == 400)
    ensures CDiv(a + 1, b) == CDiv(a, b) + (if (a + 1) % b == 0 then 1 else 0)
  {
    CDivNonNegative(a, b);
    CDivNonNegative(a + 1, b);
    DivStep(a, b);
  }

  lemma DivStep(a: int, b: int)
    requires a >= 0 && (b == 4 || b == 100 || b == 400)
    ensures (a + 1) / b == a / b + (if (a + 1) % b == 0 then 1 else 0)
  {
  }

  /** Shifting by a multiple of the divisor keeps divisibility. */
  lemma DivisibleShift(y: int)
    ensures (y - 1968) % 4 == 0 <==> y % 4 == 0
    ensures (y - 1900) % 100 == 0 <==> y % 100 == 0
    ensures (y - 1600) % 400 == 0 <==> y % 400 == 0
  {
  }

  /** Each year adds the leap day of that year to the leap term. */
  lemma LeapTermStep(y: int)
    requires y >= 1969
    ensures LeapTerm(y) == LeapTerm(y - 1) + (if IsLeap(y) then 1 else 0)
  {
    var d4 := if y % 4 == 0 then 1 else 0;
    var d100 := if y % 100 == 0 then 1 else 0;
    var d400 := if y % 400 == 0 then 1 else 0;
    assert CDiv(y - 1968, 4) == CDiv(y - 1969, 4) + d4 by {
      QuotientStep(y - 1969, 4);
      DivisibleShift(y);
    }
    assert CDiv(y - 1900, 100) == CDiv(y - 1901, 100) + d100 by {
      QuotientStep(y - 1901, 100);
      DivisibleShift(y);
    }
    assert CDiv(y - 1600, 400) == CDiv(y - 1601, 400) + d400 by {
      QuotientStep(y - 1601, 400);
      DivisibleShift(y);
    }
    assert (if IsLeap(y) then 1 else 0) == d4 - d100 + d400 by {
      LeapCases(y);
    }
  }

  /** The leap rule as a count: divisible by 4, less divisible by 100, plus divisible by 400. */
  lemma LeapCases(y: int)
    ensures y % 100 == 0 ==> y % 4 == 0
    ensures y % 400 == 0 ==> y % 100 == 0
  {
  }

  /** The year part of the closed form counts the days before the year plus that year's leap day. */
  lemma {:induction false} LeapDays(y: int)
    requires y >= 1968
    ensures (y - 1970) * 365 + LeapTerm(y) == DaysBeforeYear(y) + (if IsLeap(y) then 1 else 0)
    decreases y - 1968
  {
    if y == 1968 {
      assert LeapTerm(1968) == 0;
      assert DaysBeforeYear(1968) == -731 by {
        assert DaysBeforeEpoch(1) == 365;
      }
    } else {
      LeapDays(y - 1);
      LeapTermStep(y);
      DaysBeforeYearStep(y - 1);
    }
  }

  /** The `cumdays` table plus the leap day after February counts the days before a month. */
  lemma CumDaysAgree(y: int, m: int)
    requires 0 <= m < 12
    ensures CumDays[m] + (if IsLeap(y) && m >= 2 then 1 else 0) == DaysBeforeMonth(y, m)
  {
    var l := if IsLeap(y) then 1 else 0;
    assert DaysBeforeMonth(y, 1) == 31;
    assert DaysBeforeMonth(y, 2) == 59 + l;
    assert DaysBeforeMonth(y, 3) == 90 + l;
    assert DaysBeforeMonth(y, 4) == 120 + l;
    assert DaysBeforeMonth(y, 5) == 151 + l;
    assert DaysBeforeMonth(y, 6) == 181 + l;
    assert DaysBeforeMonth(y, 7) == 212 + l;
    assert DaysBeforeMonth(y, 8) == 243 + l;
    assert DaysBeforeMonth(y, 9) == 273 + l;
    assert DaysBeforeMonth(y, 10) == 304 + l;
    assert DaysBeforeMonth(y, 11) == 334 + l;
  }

  /** 1970-01-01 00:00:00 is second 0. */
  lemma EpochIsZero(isdst: int)
    requires isdst != 1
    ensures MyTimegm(Tm(0, 0, 0, 1, 0, 70, isdst)) == 0
  {
    assert CDiv(0, 12) == 0 && CMod(0, 12) == 0;
    assert LeapTerm(1970) == 0;
    assert MonthStartDays(70, 0) == 0;
  }

  /** Before 1968 the truncating divisions miscount: 1967-01-01 comes out one day late. */
  lemma Timegm1967OneDayLate()
    ensures MyTimegm(Tm(0, 0, 0, 1, 0, 67, 0)) == UtcSeconds(1967, 0, 1, 0, 0, 0) + 86400
  {
    assert CDiv(0, 12) == 0 && CMod(0, 12) == 0;
    assert LeapTerm(1967) == 0;
    assert MonthStartDays(67, 0) == -1095;
    assert DaysBeforeEpoch(1) == 365;
    assert DaysBeforeEpoch(2) == 731;
    assert DaysBeforeYear(1967) == -1096;
  }

  /** The result is linear in the second, the minute and the hour. */
  lemma TimegmClockLinear(t: Tm, k: int)
    requires MonthIndexDefined(t)
    ensures MyTimegm(t.(tmSec := t.tmSec + k)) == MyTimegm(t) + k
    ensures MyTimegm(t.(tmMin := t.tmMin + k)) == MyTimegm(t) + 60 * k
    ensures MyTimegm(t.(tmHour := t.tmHour + k)) == MyTimegm(t) + 3600 * k
  {
  }

  /** The result is linear in the day of the month. */
  lemma TimegmDayLinear(t: Tm, k: int)
    requires MonthIndexDefined(t)
    ensures MyTimegm(t.(tmMday := t.tmMday + k)) == MyTimegm(t) + 86400 * k
  {
  }

  /** `tm_isdst == 1` subtracts exactly one hour; any other value subtracts nothing. */
  lemma TimegmDst(t: Tm)
    requires MonthIndexDefined(t)
    ensures MyTimegm(t.(tmIsdst := 1)) == MyTimegm(t.(tmIsdst := 0)) - 3600
    ensures t.tmIsdst != 1 ==> MyTimegm(t) == MyTimegm(t.(tmIsdst := 0))
  {
  }

  /** Twelve months more and one year less name the same instant (month carry), for `tm_mon >= 0`. */
  lemma TimegmMonthCarry(t: Tm)
    requires t.tmMon >= 0
    ensures MonthIndexDefined(t) && MonthIndexDefined(t.(tmMon := t.tmMon + 12, tmYear := t.tmYear - 1))
    ensures MyTimegm(t.(tmMon := t.tmMon + 12, tmYear := t.tmYear - 1)) == MyTimegm(t)
  {
    CDivNonNegative(t.tmMon, 12);
    CDivNonNegative(t.tmMon + 12, 12);
    assert CDiv(t.tmMon + 12, 12) == CDiv(t.tmMon, 12) + 1;
    assert CMod(t.tmMon + 12, 12) == CMod(t.tmMon, 12);
    assert 1900 + (t.tmYear - 1) + CDiv(t.tmMon + 12, 12) == 1900 + t.tmYear + CDiv(t.tmMon, 12);
  }

  // ---------------------------------------------------------------------
  // str_to_tm

  /** One element of an sscanf format: a `%d` conversion or a literal character. */
  datatype Directive = Conv | Lit(c: char)

  /** The values sscanf stores before its first matching failure; their number
      is what sscanf returns (input failure before the first conversion also
      gives a count other than 6). */
  function Scanf(s: string, fmt: seq<Directive>): (vals: seq<int>)
    ensures |vals| <= |fmt|
    decreases |fmt|
  {
    if fmt == [] then []
    else match fmt[0]
      case Lit(c) => if s != [] && s[0] == c then Scanf(s[1..], fmt[1..]) else []
      case Conv =>
        match ScanInt(s)
        case None => []
        case Some(p) => [p.0] + Scanf(p.1, fmt[1..])
  }

  /** `"%d/%d/%d-%d:%d:%d"` (flag 1: month/day/year-hour:minute:second). */
  const UsFormat: seq<Directive> :=
    [Conv, Lit('/'), Conv, Lit('/'), Conv, Lit('-'), Conv, Lit(':'), Conv, Lit(':'), Conv]

  /** `"%d-%d-%dT%d:%d:%dZ"` (flag 2: ISO 8601 UTC). */
  const IsoFormat: seq<Directive> :=
    [Conv, Lit('-'), Conv, Lit('-'), Conv, Lit('T'), Conv, Lit(':'), Conv, Lit(':'), Conv, Lit('Z')]

  /** The i-th stored value, or the zero `std::tm t = {}` left in an unassigned field. */
  function Field(vals: seq<int>, i: nat): int
  {
    if i < |vals| then vals[i] else 0
  }

  /** What a full match does: years since 1900, months from 0, DST unknown. */
  function Adjust(t: Tm): Tm
  {
    t.(tmYear := t.tmYear - 1900, tmMon := t.tmMon - 1, tmIsdst := -1)
  }

  /** `str_to_tm(datestr, tflag)`; a partial match returns the fields read so far unadjusted. */
  function StrToTm(datestr: string, tflag: int): (t: Tm)
    ensures t.tmIsdst != 1
  {
    if tflag == 1 then
      var v := Scanf(datestr, UsFormat);
      var t := Tm(Field(v, 5), Field(v, 4), Field(v, 3), Field(v, 1), Field(v, 0), Field(v, 2), 0);
      if |v| != 6 then t else Adjust(t)
    else if tflag == 2 then
      var v := Scanf(datestr, IsoFormat);
      var t := Tm(Field(v, 5), Field(v, 4), Field(v, 3), Field(v, 2), Field(v, 1), Field(v, 0), 0);
      if |v| != 6 then t else Adjust(t)
    else
      Adjust(ZeroTm)
  }

  /** A parsed time never triggers my_timegm's one-hour DST correction. */
  lemma ParsedTimeHasNoDst(datestr: string, tflag: int)
    requires MonthIndexDefined(StrToTm(datestr, tflag))
    ensures MyTimegm(StrToTm(datestr, tflag)) == MyTimegm(StrToTm(datestr, tflag).(tmIsdst := 0))
  {
    TimegmDst(StrToTm(datestr, tflag));
  }

  // ---------------------------------------------------------------------
  // The writer's format and the round trip

  /** A broken-down UTC time as gmtime produces it, in the range where every
      field prints in its fixed width. */
  predicate IsPrintableUtc(t: Tm)
  {
    && 68 <= t.tmYear <= 8099 && 0 <= t.tmMon < 12 && 1 <= t.tmMday <= 31
    && 0 <= t.tmHour < 24 && 0 <= t.tmMin < 60 && 0 <= t.tmSec <= 60 && t.tmIsdst == 0
  }

  /** `t` is what gmtime gives for the instant `secs`. */
  predicate IsGmtimeOf(t: Tm, secs: int)
  {
    IsPrintableUtc(t) && UtcSeconds(t.tmYear + 1900, t.tmMon, t.tmMday, t.tmHour, t.tmMin, t.tmSec) == secs
  }

  /** One printed field: its value, its zero-padded width and the character after it. */
  datatype FieldText = FieldText(value: nat, width: nat, sep: char)

  /** A decimal field printed in width `w` followed by a separator and the rest of the text. */
  function Item(n: nat, w: nat, sep: char, rest: string): string
  {
    PaddedDigits(n, w) + ([sep] + rest)
  }

  /** The fields printed one after the other. */
  function Render(fs: seq<FieldText>): string
  {
    if fs == [] then [] else Item(fs[0].value, fs[0].width, fs[0].sep, Render(fs[1..]))
  }

  /** The sscanf format that reads the fields back: a conversion and a literal per field. */
  function FormatOf(seps: string): (fmt: seq<Directive>)
    ensures |fmt| == 2 * |seps|
  {
    if seps == [] then [] else [Conv, Lit(seps[0])] + FormatOf(seps[1..])
  }

  /** What strftime with `"%Y-%m-%dT%H:%M:%S"` prints, followed by the writer's `Z`. */
  function IsoFields(t: Tm): seq<FieldText>
    requires IsPrintableUtc(t)
  {
    [FieldText(t.tmYear + 1900, 4, '-'), FieldText(t.tmMon + 1, 2, '-'), FieldText(t.tmMday, 2, 'T'),
     FieldText(t.tmHour, 2, ':'), FieldText(t.tmMin, 2, ':'), FieldText(t.tmSec, 2, 'Z')]
  }

  function IsoText(t: Tm): string
    requires IsPrintableUtc(t)
  {
    Render(IsoFields(t))
  }

  lemma ScanfConv(s: string, fmt: seq<Directive>, v: int, rest: string)
    requires fmt != [] && fmt[0] == Conv && ScanInt(s) == Some((v, rest))
    ensures Scanf(s, fmt) == [v] + Scanf(rest, fmt[1..])
  {
  }

  lemma ScanfLit(s: string, fmt: seq<Directive>)
    requires fmt != [] && fmt[0].Lit? && s != [] && s[0] == fmt[0].c
    ensures Scanf(s, fmt) == Scanf(s[1..], fmt[1..])
  {
  }

  lemma ScanfConvLit(n: nat, w: nat, c: char, rest: string, fmt: seq<Directive>)
    requires w >= 1 && !IsDigit(c)
    ensures Scanf(Item(n, w, c, rest), [Conv, Lit(c)] + fmt) == [n] + Scanf(rest, fmt)
  {
    var tail := [c] + rest;
    var s := PaddedDigits(n, w) + tail;
    ScanPaddedDigits(n, w, tail);
    var f := [Conv, Lit(c)] + fmt;
    assert f[0] == Conv && f[1..] == [Lit(c)] + fmt;
    ScanfConv(s, f, n, tail);
    assert tail[0] == c && tail[1..] == rest;
    ScanfLit(tail, [Lit(c)] + fmt);
    assert ([Lit(c)] + fmt)[1..] == fmt;
  }

  /** Six values from the ISO format: what str_to_tm with flag 2 returns. */
  lemma StrToTmIsoFull(s: string, v: seq<int>)
    requires Scanf(s, IsoFormat) == v && |v| == 6
    ensures StrToTm(s, 2) == Tm(v[5], v[4], v[3], v[2], v[1] - 1, v[0] - 1900, -1)
  {
  }

  function Separators(fs: seq<FieldText>): string
  {
    if fs == [] then [] else [fs[0].sep] + Separators(fs[1..])
  }

  function Values(fs: seq<FieldText>): seq<int>
  {
    if fs == [] then [] else [fs[0].value as int] + Values(fs[1..])
  }

  /** Fields printed with a non-digit after each one scan back to their values. */
  lemma {:induction false} ScanRendered(fs: seq<FieldText>)
    requires forall i :: 0 <= i < |fs| ==> fs[i].width >= 1 && !IsDigit(fs[i].sep)
    ensures Scanf(Render(fs), FormatOf(Separators(fs))) == Values(fs)
  {
    if fs != [] {
      var fmt := FormatOf(Separators(fs[1..]));
      var rest := Render(fs[1..]);
      assert Scanf(rest, fmt) == Values(fs[1..]) by {
        ScanRendered(fs[1..]);
      }
      ScanfConvLit(fs[0].value, fs[0].width, fs[0].sep, rest, fmt);
    }
  }

  /** Separators and values of a field list, one field at a time. */
  lemma SeparatorsValuesCons(f: FieldText, fs: seq<FieldText>)
    ensures Separators([f] + fs) == [f.sep] + Separators(fs)
    ensures Values([f] + fs) == [f.value as int] + Values(fs)
  {
    assert ([f] + fs)[1..] == fs;
  }

  lemma IsoFieldsShape(t: Tm)
    requires IsPrintableUtc(t)
    ensures Separators(IsoFields(t)) == "--T::Z"
    ensures Values(IsoFields(t)) == [t.tmYear + 1900, t.tmMon + 1, t.tmMday, t.tmHour, t.tmMin, t.tmSec]
  {
    var fs := IsoFields(t);
    var f5 := [fs[5]] + [];
    var f4 := [fs[4]] + f5;
    var f3 := [fs[3]] + f4;
    var f2 := [fs[2]] + f3;
    var f1 := [fs[1]] + f2;
    var f0 := [fs[0]] + f1;
    assert fs == f0;
    SeparatorsValuesCons(fs[5], []);
    SeparatorsValuesCons(fs[4], f5);
    SeparatorsValuesCons(fs[3], f4);
    SeparatorsValuesCons(fs[2], f3);
    SeparatorsValuesCons(fs[1], f2);
    SeparatorsValuesCons(fs[0], f1);
  }

  lemma IsoFormatOf()
    ensures FormatOf("--T::Z") == IsoFormat
  {
  }

  /** The fields of the written text as flag 2's scan sees them. */
  lemma ScanIsoText(t: Tm)
    requires IsPrintableUtc(t)
    ensures Scanf(IsoText(t), IsoFormat) == [t.tmYear + 1900, t.tmMon + 1, t.tmMday, t.tmHour, t.tmMin, t.tmSec]
  {
    ScanRendered(IsoFields(t));
    IsoFieldsShape(t);
    IsoFormatOf();
  }

  /** Parsing the written ISO text with flag 2 gives back the broken-down time. */
  lemma IsoTextParses(t: Tm)
    requires IsPrintableUtc(t)
    ensures StrToTm(IsoText(t), 2) == t.(tmIsdst := -1)
  {
    ScanIsoText(t);
    StrToTmIsoFull(IsoText(t), [t.tmYear + 1900, t.tmMon + 1, t.tmMday, t.tmHour, t.tmMin, t.tmSec]);
  }

  /** my_timegm of a printable UTC time with DST unknown is its calendar second. */
  lemma TimegmOfUtc(t: Tm)
    requires IsPrintableUtc(t)
    ensures MonthIndexDefined(t.(tmIsdst := -1))
    ensures MyTimegm(t.(tmIsdst := -1)) == UtcSeconds(t.tmYear + 1900, t.tmMon, t.tmMday, t.tmHour, t.tmMin, t.tmSec)
  {
    CDivNonNegative(t.tmMon, 12);
    MyTimegmAgrees(t.(tmIsdst := -1));
  }

  /** Round trip of the persisted timestamps: an instant written by the tie
      writer (gmtime, then strftime plus `Z`) and read back by the tie reader
      (flag 2, then my_timegm) is the same instant. */
  lemma TimestampRoundTrip(secs: int, t: Tm)
    requires IsGmtimeOf(t, secs)
    ensures MonthIndexDefined(StrToTm(IsoText(t), 2))
    ensures MyTimegm(StrToTm(IsoText(t), 2)) == secs
  {
    IsoTextParses(t);
    TimegmOfUtc(t);
  }
}
