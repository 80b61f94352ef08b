/**
 * The TEXT timestamps "2006-01-02 15:04:05" every table stores and every handler compares as strings.
 * Seconds are counted from 0000-01-01 00:00:00 UTC in the proleptic Gregorian calendar.
 */
module Timestamps {
  import opened Basics
  import opened Text

  const SECONDS_PER_DAY: nat := 86400
  const DAYS_TO_Y10K: nat := 3652425
  const SECONDS_TO_Y10K: nat := 315_569_520_000
  const NANOS: nat := 1_000_000_000

  const MINUTE: nat := 60_000_000_000
  const HOUR: nat := 3_600_000_000_000
  const DAY: nat := 86_400_000_000_000

  /** sessionDuration */
  const SESSION: nat := 2_592_000_000_000_000

  /** Nanoseconds to the year 10000. */
  const Y10K: nat := 315_569_520_000_000_000_000

  /** A clock reading in nanoseconds; any expiry computed from it still falls in a four-digit year. */
  type Instant = t: nat | t < 315_566_928_000_000_000_000

  // ------------------------------------------------------------------ calendar

  predicate IsLeap(y: nat) {
    y % 4 == 0 && (y % 100 != 0 || y % 400 == 0)
  }

  function YearLength(y: nat): nat {
    if IsLeap(y) then 366 else 365
  }

  function MonthLength(y: nat, m: nat): nat
    requires 1 <= m <= 12
  {
    if m == 2 then (if IsLeap(y) then 29 else 28)
    else if m == 4 || m == 6 || m == 9 || m == 11 then 30
    else 31
  }

  /** (year, day of the year) of the day `d` days after 1 January of year `y`. */
  function WalkYears(d: nat, y: nat): (nat, nat)
    decreases d
  {
    if d < YearLength(y) then (y, d) else WalkYears(d - YearLength(y), y + 1)
  }

  function DaysLeft(y: nat, m: nat): nat
    requires 1 <= m <= 12
    decreases 12 - m
  {
    MonthLength(y, m) + if m == 12 then 0 else DaysLeft(y, m + 1)
  }

  /** (month, day of the month) of the day `d` days after the first of month `m`. */
  function WalkMonths(d: nat, y: nat, m: nat): (nat, nat)
    requires 1 <= m <= 12 && d < DaysLeft(y, m)
    decreases 12 - m
  {
    if d < MonthLength(y, m) then (m, d + 1) else WalkMonths(d - MonthLength(y, m), y, m + 1)
  }

  lemma MonthsFillTheYear(y: nat)
    ensures DaysLeft(y, 1) == YearLength(y)
  {
    assert DaysLeft(y, 12) == 31 && DaysLeft(y, 11) == 61 && DaysLeft(y, 10) == 92 && DaysLeft(y, 9) == 122;
    assert DaysLeft(y, 8) == 153 && DaysLeft(y, 7) == 184 && DaysLeft(y, 6) == 214 && DaysLeft(y, 5) == 245;
    assert DaysLeft(y, 4) == 275 && DaysLeft(y, 3) == 306;
  }

  lemma {:induction false} WalkYearsStays(d: nat, y: nat)
    ensures WalkYears(d, y).1 < YearLength(WalkYears(d, y).0)
    ensures WalkYears(d, y).0 >= y
    decreases d
  {
    if d >= YearLength(y) {
      WalkYearsStays(d - YearLength(y), y + 1);
    }
  }

  lemma {:induction false} WalkMonthsStays(d: nat, y: nat, m: nat)
    requires 1 <= m <= 12 && d < DaysLeft(y, m)
    ensures m <= WalkMonths(d, y, m).0 <= 12
    ensures 1 <= WalkMonths(d, y, m).1 <= MonthLength(y, WalkMonths(d, y, m).0)
    decreases 12 - m
  {
    if d >= MonthLength(y, m) {
      WalkMonthsStays(d - MonthLength(y, m), y, m + 1);
    }
  }

  /** (year, month, day) */
  function Civil(d: nat): (nat, nat, nat)
  {
    var (y, doy) := WalkYears(d, 0);
    WalkYearsStays(d, 0);
    MonthsFillTheYear(y);
    var (m, dom) := WalkMonths(doy, y, 1);
    (y, m, dom)
  }

  /** The Gregorian day count in closed form: days before 1 January of year `y`. */
  function DaysBefore(y: nat): nat {
    365 * y + (y + 3) / 4 - (y + 99) / 100 + (y + 399) / 400
  }

  lemma DaysBeforeNext(y: nat)
    ensures DaysBefore(y + 1) == DaysBefore(y) + YearLength(y)
  {
    assert (y + 4) / 4 == (y + 3) / 4 + if y % 4 == 0 then 1 else 0;
    assert (y + 100) / 100 == (y + 99) / 100 + if y % 100 == 0 then 1 else 0;
    assert (y + 400) / 400 == (y + 399) / 400 + if y % 400 == 0 then 1 else 0;
  }

  lemma {:induction false} WalkYearsCounts(d: nat, y: nat)
    ensures var (z, doy) := WalkYears(d, y); DaysBefore(z) + doy == DaysBefore(y) + d
    decreases d
  {
    if d >= YearLength(y) {
      DaysBeforeNext(y);
      WalkYearsCounts(d - YearLength(y), y + 1);
    }
  }

  /** Days before the first of month `m`, within the year. */
  function DaysBeforeMonth(y: nat, m: nat): nat
    requires 1 <= m <= 12
  {
    if m == 1 then 0 else DaysBeforeMonth(y, m - 1) + MonthLength(y, m - 1)
  }

  lemma {:induction false} WalkMonthsCounts(d: nat, y: nat, m: nat)
    requires 1 <= m <= 12 && d < DaysLeft(y, m)
    ensures var (k, dom) := WalkMonths(d, y, m);
            1 <= k <= 12 && DaysBeforeMonth(y, k) + dom - 1 == DaysBeforeMonth(y, m) + d
    decreases 12 - m
  {
    if d >= MonthLength(y, m) {
      WalkMonthsCounts(d - MonthLength(y, m), y, m + 1);
    }
  }

  /**
   * The calendar is the Gregorian one: every day number is the closed-form day count of the
   * date it renders as, and that date exists.
   */
  lemma CivilIsGregorian(d: nat)
    ensures var (y, m, dom) := Civil(d);
            && 1 <= m <= 12 && 1 <= dom <= MonthLength(y, m)
            && DaysBefore(y) + DaysBeforeMonth(y, m) + dom - 1 == d
  {
    var (y, doy) := WalkYears(d, 0);
    WalkYearsStays(d, 0);
    WalkYearsCounts(d, 0);
    MonthsFillTheYear(y);
    WalkMonthsStays(doy, y, 1);
    WalkMonthsCounts(doy, y, 1);
  }

  lemma {:induction false} DaysBeforeMonotone(y: nat, z: nat)
    requires y <= z
    ensures DaysBefore(y) <= DaysBefore(z)
    decreases z - y
  {
    if y < z {
      DaysBeforeNext(y);
      DaysBeforeMonotone(y + 1, z);
    }
  }

  lemma FourDigitYear(d: nat)
    requires d < DAYS_TO_Y10K
    ensures Civil(d).0 < 10000
  {
    CivilIsGregorian(d);
    if Civil(d).0 >= 10000 {
      DaysBeforeMonotone(10000, Civil(d).0);
    }
  }

  // ----------------------------------------------------------------- rendering

  /** One zero-padded number and the separator that follows it. */
  datatype Field = Field(value: nat, width: nat, sep: string)

  function Render(fs: seq<Field>): string {
    if fs == [] then []
    else Padded(fs[0].value, fs[0].width) + (fs[0].sep + Render(fs[1..]))
  }

  function Fields(s: nat): seq<Field> {
    var (y, m, d) := Civil(s / SECONDS_PER_DAY);
    var tod := s % SECONDS_PER_DAY;
    [Field(y, 4, "-"), Field(m, 2, "-"), Field(d, 2, " "),
     Field(tod / 3600, 2, ":"), Field(tod / 60 % 60, 2, ":"), Field(tod % 60, 2, "")]
  }

  /** time.Unix(...).UTC().Format("2006-01-02 15:04:05") */
  function Format(s: nat): string
    requires s < SECONDS_TO_Y10K
  {
    Render(Fields(s))
  }

  /** The text a handler (or SQLite's datetime('now')) writes for an instant: sub-second digits are dropped. */
  function Stamp(t: nat): string
    requires t < Y10K
  {
    Format(t / NANOS)
  }

  lemma {:induction false} NumberOfPadded(n: nat, w: nat)
    requires n < Pow10(w)
    ensures Number(Padded(n, w)) == Some(n)
    decreases w
  {
    if w > 0 {
      NumberOfPadded(n / 10, w - 1);
      assert Padded(n, w)[..w - 1] == Padded(n / 10, w - 1);
    }
  }

  /** The two digits at `k` are a number below `limit`. */
  predicate TwoDigits(text: string, k: nat, limit: nat, n: nat) {
    k + 2 <= |text| && n < limit && Number(text[k..k + 2]) == Some(n)
  }

  /**
   * The text reads as "2006-01-02 15:04:05" does: a date of the Gregorian calendar and a time of day which
   * together are that many seconds.
   */
  ghost predicate Reads(text: string, s: nat) {
    && |text| == 19 && text[4] == '-' && text[7] == '-' && text[10] == ' ' && text[13] == ':' && text[16] == ':'
    && exists y: nat, m: nat, d: nat, hour: nat, minute: nat, second: nat ::
         && Number(text[..4]) == Some(y) && TwoDigits(text, 5, 13, m) && TwoDigits(text, 8, 32, d)
         && TwoDigits(text, 11, 24, hour) && TwoDigits(text, 14, 60, minute) && TwoDigits(text, 17, 60, second)
         && 1 <= m && 1 <= d <= MonthLength(y, m)
         && s == 86400 * (DaysBefore(y) + DaysBeforeMonth(y, m) + d - 1) + 3600 * hour + 60 * minute + second
  }

  lemma TextPieces(a: string, b: string, c: string, d: string, e: string, f: string)
    requires |a| == 4 && |b| == 2 && |c| == 2 && |d| == 2 && |e| == 2 && |f| == 2
    ensures var t := a + ("-" + (b + ("-" + (c + (" " + (d + (":" + (e + (":" + (f + ("" + "")))))))))));
            && |t| == 19 && t[4] == '-' && t[7] == '-' && t[10] == ' ' && t[13] == ':' && t[16] == ':'
            && t[..4] == a && t[5..7] == b && t[8..10] == c && t[11..13] == d && t[14..16] == e && t[17..19] == f
  {
    var fromF := f + ("" + "");
    var fromE := e + (":" + fromF);
    var fromD := d + (":" + fromE);
    var fromC := c + (" " + fromD);
    var fromB := b + ("-" + fromC);
    var t := a + ("-" + fromB);
    assert t[0..] == t;
    PieceAt(t, 0, a, "-" + fromB);
    PieceAt(t, 4, "-", fromB);
    PieceAt(t, 5, b, "-" + fromC);
    PieceAt(t, 7, "-", fromC);
    PieceAt(t, 8, c, " " + fromD);
    PieceAt(t, 10, " ", fromD);
    PieceAt(t, 11, d, ":" + fromE);
    PieceAt(t, 13, ":", fromE);
    PieceAt(t, 14, e, ":" + fromF);
    PieceAt(t, 16, ":", fromF);
    PieceAt(t, 17, f, "" + "");
  }

  lemma PieceAt(text: string, k: nat, piece: string, rest: string)
    requires k <= |text| && text[k..] == piece + rest
    ensures k + |piece| <= |text| && text[k..k + |piece|] == piece && text[k + |piece|..] == rest
    ensures |piece| == 1 ==> text[k] == piece[0]
  {
    assert text[k..][..|piece|] == text[k..k + |piece|] && text[k..][|piece|..] == text[k + |piece|..];
    assert (piece + rest)[..|piece|] == piece && (piece + rest)[|piece|..] == rest;
    assert |piece| == 1 ==> text[k..][0] == text[k];
  }

  lemma TwoDigitsAt(text: string, k: nat, limit: nat, n: nat)
    requires k + 2 <= |text| && n < limit <= 100 && text[k..k + 2] == Padded(n, 2)
    ensures TwoDigits(text, k, limit, n)
  {
    hide Padded, Number;
    assert Pow10(0) == 1 && Pow10(1) == 10 && Pow10(2) == 100;
    NumberOfPadded(n, 2);
  }

  lemma PiecesRead(text: string, y: nat, m: nat, d: nat, hour: nat, minute: nat, second: nat)
    requires |text| == 19 && text[4] == '-' && text[7] == '-' && text[10] == ' ' && text[13] == ':' && text[16] == ':'
    requires text[..4] == Padded(y, 4) && text[5..7] == Padded(m, 2) && text[8..10] == Padded(d, 2)
    requires text[11..13] == Padded(hour, 2) && text[14..16] == Padded(minute, 2) && text[17..19] == Padded(second, 2)
    requires y < 10000 && 1 <= m <= 12 && 1 <= d <= MonthLength(y, m) && hour < 24 && minute < 60 && second < 60
    ensures Reads(text, 86400 * (DaysBefore(y) + DaysBeforeMonth(y, m) + d - 1) + 3600 * hour + 60 * minute + second)
  {
    hide Padded, Number, TwoDigits, DaysBefore, DaysBeforeMonth, MonthLength, Reads;
    MonthsAreShort(y, m);
    assert Pow10(4) == 10000 by {
      assert Pow10(0) == 1 && Pow10(1) == 10 && Pow10(2) == 100 && Pow10(3) == 1000;
    }
    NumberOfPadded(y, 4);
    TwoDigitsAt(text, 5, 13, m);
    TwoDigitsAt(text, 8, 32, d);
    TwoDigitsAt(text, 11, 24, hour);
    TwoDigitsAt(text, 14, 60, minute);
    TwoDigitsAt(text, 17, 60, second);
    ReadsPieces(text, y, m, d, hour, minute, second);
  }

  lemma ReadsPieces(text: string, y: nat, m: nat, d: nat, hour: nat, minute: nat, second: nat)
    requires |text| == 19 && text[4] == '-' && text[7] == '-' && text[10] == ' ' && text[13] == ':' && text[16] == ':'
    requires Number(text[..4]) == Some(y) && TwoDigits(text, 5, 13, m) && TwoDigits(text, 8, 32, d)
    requires TwoDigits(text, 11, 24, hour) && TwoDigits(text, 14, 60, minute) && TwoDigits(text, 17, 60, second)
    requires 1 <= m <= 12 && 1 <= d <= MonthLength(y, m)
    ensures Reads(text, 86400 * (DaysBefore(y) + DaysBeforeMonth(y, m) + d - 1) + 3600 * hour + 60 * minute + second)
  {
    hide Number, TwoDigits, DaysBefore, DaysBeforeMonth, MonthLength;
  }

  /** Every rendered second reads as itself. */
  lemma FormatReads(s: nat)
    requires s < SECONDS_TO_Y10K
    ensures Reads(Format(s), s)
  {
    hide Civil, Reads, Padded, Format, DaysBefore, DaysBeforeMonth, MonthLength;
    var (y, m, d) := Civil(s / SECONDS_PER_DAY);
    var tod := s % SECONDS_PER_DAY;
    CivilIsGregorian(s / SECONDS_PER_DAY);
    FourDigitYear(s / SECONDS_PER_DAY);
    FormatPieces(s);
    TextPieces(Padded(y, 4), Padded(m, 2), Padded(d, 2), Padded(tod / 3600, 2), Padded(tod / 60 % 60, 2), Padded(tod % 60, 2));
    PiecesRead(Format(s), y, m, d, tod / 3600, tod / 60 % 60, tod % 60);
  }

  lemma FormatPieces(s: nat)
    requires s < SECONDS_TO_Y10K
    ensures var (y, m, d) := Civil(s / SECONDS_PER_DAY);
            var tod := s % SECONDS_PER_DAY;
            Format(s) == Padded(y, 4) + ("-" + (Padded(m, 2) + ("-" + (Padded(d, 2) + (" " + (Padded(tod / 3600, 2) + (":" +
                         (Padded(tod / 60 % 60, 2) + (":" + (Padded(tod % 60, 2) + ("" + "")))))))))))
  {
    hide Civil, Padded;
    var f := Fields(s);
    assert f[1..][1..] == f[2..] && f[2..][1..] == f[3..] && f[3..][1..] == f[4..] && f[4..][1..] == f[5..] && f[5..][1..] == [];
    assert Render([]) == "";
    assert Render(f[5..]) == Padded(f[5].value, f[5].width) + (f[5].sep + Render(f[5..][1..]));
    assert Render(f[4..]) == Padded(f[4].value, f[4].width) + (f[4].sep + Render(f[5..]));
    assert Render(f[3..]) == Padded(f[3].value, f[3].width) + (f[3].sep + Render(f[4..]));
    assert Render(f[2..]) == Padded(f[2].value, f[2].width) + (f[2].sep + Render(f[3..]));
    assert Render(f[1..]) == Padded(f[1].value, f[1].width) + (f[1].sep + Render(f[2..]));
  }

  lemma MonthsAreShort(y: nat, m: nat)
    requires 1 <= m <= 12
    ensures MonthLength(y, m) <= 31
  {
  }

  ghost predicate SameShape(a: seq<Field>, b: seq<Field>) {
    |a| == |b| && forall i :: 0 <= i < |a| ==> a[i].width == b[i].width && a[i].sep == b[i].sep
  }

  ghost predicate Fits(a: seq<Field>) {
    forall i :: 0 <= i < |a| ==> a[i].value < Pow10(a[i].width)
  }

  ghost predicate LexLess(a: seq<Field>, b: seq<Field>)
    requires |a| == |b|
  {
    a != [] && (a[0].value < b[0].value || (a[0].value == b[0].value && LexLess(a[1..], b[1..])))
  }

  lemma {:induction false} RenderOrder(a: seq<Field>, b: seq<Field>)
    requires SameShape(a, b) && Fits(a) && Fits(b)
    ensures Before(Render(a), Render(b)) <==> LexLess(a, b)
  {
    if a != [] {
      var p, q := Padded(a[0].value, a[0].width), Padded(b[0].value, b[0].width);
      var x, y := Render(a[1..]), Render(b[1..]);
      PaddedOrder(a[0].value, b[0].value, a[0].width);
      BeforeConcat(p, a[0].sep + x, q, b[0].sep + y);
      BeforeConcat(a[0].sep, x, b[0].sep, y);
      BeforeIrreflexive(a[0].sep);
      RenderOrder(a[1..], b[1..]);
    }
  }

  // --------------------------------------------------------------------- order

  ghost predicate DateLess(a: (nat, nat, nat), b: (nat, nat, nat)) {
    a.0 < b.0 || (a.0 == b.0 && (a.1 < b.1 || (a.1 == b.1 && a.2 < b.2)))
  }

  lemma {:induction false} WalkYearsOrder(d: nat, e: nat, y: nat)
    requires d < e
    ensures var (a, i) := WalkYears(d, y); var (b, j) := WalkYears(e, y); a < b || (a == b && i < j)
    decreases d
  {
    if d >= YearLength(y) {
      WalkYearsOrder(d - YearLength(y), e - YearLength(y), y + 1);
    } else if e >= YearLength(y) {
      WalkYearsStays(e - YearLength(y), y + 1);
    }
  }

  lemma {:induction false} WalkMonthsOrder(d: nat, e: nat, y: nat, m: nat)
    requires 1 <= m <= 12 && d < e < DaysLeft(y, m)
    ensures var (a, i) := WalkMonths(d, y, m); var (b, j) := WalkMonths(e, y, m); a < b || (a == b && i < j)
    decreases 12 - m
  {
    hide MonthLength;
    if d >= MonthLength(y, m) {
      WalkMonthsOrder(d - MonthLength(y, m), e - MonthLength(y, m), y, m + 1);
    } else if e >= MonthLength(y, m) {
      WalkMonthsStays(e - MonthLength(y, m), y, m + 1);
    }
  }

  lemma CivilOrder(d: nat, e: nat)
    requires d < e
    ensures DateLess(Civil(d), Civil(e))
  {
    WalkYearsOrder(d, e, 0);
    WalkYearsStays(d, 0);
    WalkYearsStays(e, 0);
    var (y, i) := WalkYears(d, 0);
    var (z, j) := WalkYears(e, 0);
    if y == z {
      MonthsFillTheYear(y);
      WalkMonthsOrder(i, j, y, 1);
    }
  }

  lemma FieldsFit(s: nat)
    requires s < SECONDS_TO_Y10K
    ensures Fits(Fields(s))
  {
    var d := s / SECONDS_PER_DAY;
    FourDigitYear(d);
    CivilIsGregorian(d);
    assert Pow10(0) == 1 && Pow10(1) == 10 && Pow10(2) == 100 && Pow10(3) == 1000 && Pow10(4) == 10000;
  }

  /** The fields of a later second are lexicographically greater. */
  lemma FieldsOrder(s: nat, t: nat)
    requires s < t
    ensures LexLess(Fields(s), Fields(t))
  {
    var d, e := s / SECONDS_PER_DAY, t / SECONDS_PER_DAY;
    var p, q := s % SECONDS_PER_DAY, t % SECONDS_PER_DAY;
    if d < e {
      CivilOrder(d, e);
    } else {
      assert d == e && p < q;
      ClockOrder(p, q);
    }
    LexLessUnrolled(Fields(s), Fields(t));
  }

  lemma ClockOrder(p: nat, q: nat)
    requires p < q < SECONDS_PER_DAY
    ensures p / 3600 < q / 3600
         || (p / 3600 == q / 3600 && (p / 60 % 60 < q / 60 % 60 || (p / 60 % 60 == q / 60 % 60 && p % 60 < q % 60)))
  {
    var a, b := p / 60, q / 60;
    assert p == 60 * a + p % 60 && q == 60 * b + q % 60;
    assert p / 3600 == a / 60 && q / 3600 == b / 60;
    assert a == 60 * (a / 60) + a % 60 && b == 60 * (b / 60) + b % 60;
  }

  lemma LexLessUnrolled(a: seq<Field>, b: seq<Field>)
    requires |a| == |b| == 6
    ensures LexLess(a, b) <==>
              || a[0].value < b[0].value
              || (a[0].value == b[0].value &&
                  (|| a[1].value < b[1].value
                   || (a[1].value == b[1].value &&
                       (|| a[2].value < b[2].value
                        || (a[2].value == b[2].value &&
                            (|| a[3].value < b[3].value
                             || (a[3].value == b[3].value &&
                                 (|| a[4].value < b[4].value
                                  || (a[4].value == b[4].value && a[5].value < b[5].value)))))))))
  {
    assert a[5..][1..] == [] && b[5..][1..] == [];
    assert a[4..][1..] == a[5..] && b[4..][1..] == b[5..];
    assert a[3..][1..] == a[4..] && b[3..][1..] == b[4..];
    assert a[2..][1..] == a[3..] && b[2..][1..] == b[3..];
    assert a[1..][1..] == a[2..] && b[1..][1..] == b[2..];
    assert LexLess(a[5..], b[5..]) <==> a[5].value < b[5].value;
    assert LexLess(a[4..], b[4..]) <==> a[4].value < b[4].value || (a[4].value == b[4].value && LexLess(a[5..], b[5..]));
    assert LexLess(a[3..], b[3..]) <==> a[3].value < b[3].value || (a[3].value == b[3].value && LexLess(a[4..], b[4..]));
    assert LexLess(a[2..], b[2..]) <==> a[2].value < b[2].value || (a[2].value == b[2].value && LexLess(a[3..], b[3..]));
    assert LexLess(a[1..], b[1..]) <==> a[1].value < b[1].value || (a[1].value == b[1].value && LexLess(a[2..], b[2..]));
  }

  /**
   * String order on the stored text is time order, for every two seconds in four-digit years:
   * so `expires_at > now` on TEXT columns is exactly the comparison of whole seconds.
   */
  lemma FormatOrder(s: nat, t: nat)
    requires s < SECONDS_TO_Y10K && t < SECONDS_TO_Y10K
    ensures Before(Format(s), Format(t)) <==> s < t
    ensures Format(s) == Format(t) <==> s == t
  {
    FieldsFit(s);
    FieldsFit(t);
    RenderOrder(Fields(s), Fields(t));
    BeforeIrreflexive(Format(s));
    if s < t {
      FieldsOrder(s, t);
    } else if t < s {
      FieldsOrder(t, s);
      RenderOrder(Fields(t), Fields(s));
      LexLessUnrolled(Fields(s), Fields(t));
      LexLessUnrolled(Fields(t), Fields(s));
    }
  }

  lemma StampOrder(a: nat, b: nat)
    requires a < Y10K && b < Y10K
    ensures Before(Stamp(a), Stamp(b)) <==> a / NANOS < b / NANOS
  {
    FormatOrder(a / NANOS, b / NANOS);
  }

  /**
   * How long an `expires_at` written at `t0` for a whole number of seconds keeps answering "not expired":
   * exactly while the clock is before floor(t0) + lifetime, which is more than lifetime - 1 s
   * and at most lifetime after t0.
   */
  lemma Lifetime(t0: nat, lifetime: nat, now: nat)
    requires lifetime % NANOS == 0
    requires t0 + lifetime < Y10K && now < Y10K
    ensures Before(Stamp(now), Stamp(t0 + lifetime)) <==> now < t0 / NANOS * NANOS + lifetime
    ensures now <= t0 + lifetime - NANOS ==> Before(Stamp(now), Stamp(t0 + lifetime))
    ensures now >= t0 + lifetime ==> !Before(Stamp(now), Stamp(t0 + lifetime))
  {
    StampOrder(now, t0 + lifetime);
    assert t0 + lifetime == NANOS * (t0 / NANOS + lifetime / NANOS) + t0 % NANOS;
    assert (t0 + lifetime) / NANOS == t0 / NANOS + lifetime / NANOS;
  }
}
