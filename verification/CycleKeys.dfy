/** Cycle keys `YYMMDD_HHMMSS`: a slot start written as a UTC calendar date with
    a two-digit year, and read back. Writing walks the calendar year by year and
    month by month; reading uses the closed count of days. */
module CycleKeys {
  import opened Base
  import opened Protocol
  import opened SlotClock

  predicate IsLeap(y: int) { y % 4 == 0 && (y % 100 != 0 || y % 400 == 0) }

  function YearLength(y: int): nat { if IsLeap(y) then 366 else 365 }

  function MonthLength(y: int, m: int): nat {
    if m == 2 then (if IsLeap(y) then 29 else 28)
    else if m == 4 || m == 6 || m == 9 || m == 11 then 30 else 31
  }

  /** Days from 1 January 1970 to 1 January of year y. */
  function DaysTo(y: int): int
    decreases y
  {
    if y <= 1969 then -365 else DaysTo(y - 1) + YearLength(y - 1)
  }

  const DAYS_BEFORE_MONTH: seq<int> := [0, 0, 31, 59, 90, 120, 151, 181, 212, 243, 273, 304, 334]

  function DaysBeforeMonth(y: int, m: int): int
    requires 1 <= m <= 12
  {
    DAYS_BEFORE_MONTH[m] + (if m > 2 && IsLeap(y) then 1 else 0)
  }

  /** `calendar.timegm`, from 1969 on. */
  function TimeGm(y: int, m: int, d: int, hh: int, mm: int, ss: int): int
    requires 1 <= m <= 12
  {
    var days := DaysTo(y) + DaysBeforeMonth(y, m) + d - 1;
    ((days * 24 + hh) * 60 + mm) * 60 + ss
  }

  datatype Civil = Civil(year: int, month: int, day: int)

  /** The month and day of the n-th day of year y, counted from month m. */
  function WalkMonths(y: int, m: int, n: int): (c: Civil)
    requires 1 <= m <= 12 && 0 <= n < YearLength(y) - DaysBeforeMonth(y, m)
    ensures c.year == y && m <= c.month <= 12 && 1 <= c.day <= MonthLength(y, c.month)
    ensures DaysBeforeMonth(y, c.month) + c.day - 1 == DaysBeforeMonth(y, m) + n
    decreases 12 - m
  {
    if n < MonthLength(y, m) then Civil(y, m, n + 1)
    else
      assert m < 12;
      WalkMonths(y, m + 1, n - MonthLength(y, m))
  }

  /** The calendar date n days after 1 January of year y. */
  function WalkYears(y: int, n: int): (c: Civil)
    requires y >= 1970 && n >= 0
    ensures c.year >= y && 1 <= c.month <= 12 && 1 <= c.day <= MonthLength(c.year, c.month)
    ensures DaysTo(c.year) + DaysBeforeMonth(c.year, c.month) + c.day - 1 == DaysTo(y) + n
    decreases n
  {
    if n < YearLength(y) then WalkMonths(y, 1, n)
    else
      assert DaysTo(y + 1) == DaysTo(y) + YearLength(y);
      WalkYears(y + 1, n - YearLength(y))
  }

  function TwoDigits(n: int): string
    requires 0 <= n < 100
  {
    [DigitChar(n / 10), DigitChar(n % 10)]
  }

  /** `time.strftime("%y%m%d_%H%M%S", time.gmtime(s))` for a time not before 1970. */
  function FormatKey(s: int): (k: string)
    requires s >= 0
  {
    var c := WalkYears(1970, s / 86400);
    var r := s % 86400;
    TwoDigits(c.year % 100) + TwoDigits(c.month) + TwoDigits(c.day) + "_"
    + TwoDigits(r / 3600) + TwoDigits(r / 60 % 60) + TwoDigits(r % 60)
  }

  function CycleKeyAt(t: real): string
    requires t >= 0.0
  {
    var whole := t.Floor;
    FormatKey(whole - whole % 15)
  }

  /** Value of the two digits at position i, or -1. */
  function ReadTwo(k: string, i: nat): int
    requires i + 1 < |k|
  {
    if IsDigit(k[i]) && IsDigit(k[i + 1]) then 10 * DigitValue(k[i]) + DigitValue(k[i + 1]) else -1
  }

  /** Two-digit years are read as 1969 to 2068. */
  function FullYear(yy: int): int { if yy <= 68 then 2000 + yy else 1900 + yy }

  /** The time named by six fields, if they are in range. */
  function FromFields(yy: int, mo: int, d: int, hh: int, mm: int, ss: int): Option<int> {
    if yy < 0 || !(1 <= mo <= 12) || !(1 <= d <= MonthLength(FullYear(yy), mo))
       || !(0 <= hh <= 23) || !(0 <= mm <= 59) || !(0 <= ss <= 61) then None
    else Some(TimeGm(FullYear(yy), mo, d, hh, mm, ss))
  }

  function ReadKey(k: string): Option<int> {
    if |k| != 13 || k[6] != '_' then None
    else FromFields(ReadTwo(k, 0), ReadTwo(k, 2), ReadTwo(k, 4), ReadTwo(k, 7), ReadTwo(k, 9), ReadTwo(k, 11))
  }

  function CycleStartOf(cycle: string): Option<int> { ReadKey(Strip(cycle)) }

  /** The period a decode was heard in; `now` is what the library clock says of a bad key. */
  function PeriodFromCycle(cycle: string, now: int): int {
    match CycleStartOf(cycle)
    case Some(t) => PeriodAt(t as real)
    case None => now
  }

  // ------------------------------------------------------------ round trip

  /** Days before 1 January of year y, counted from year 1 in closed form. */
  function DaysBeforeYear(y: int): int {
    (y - 1) * 365 + (y - 1) / 4 - (y - 1) / 100 + (y - 1) / 400
  }

  lemma NextYear(y: int)
    ensures DaysBeforeYear(y + 1) == DaysBeforeYear(y) + YearLength(y)
  {
    assert y / 4 == (y - 1) / 4 + (if y % 4 == 0 then 1 else 0);
    assert y / 100 == (y - 1) / 100 + (if y % 100 == 0 then 1 else 0);
    assert y / 400 == (y - 1) / 400 + (if y % 400 == 0 then 1 else 0);
    Centuries(y);
  }

  lemma Centuries(y: int)
    ensures y % 100 == 0 ==> y % 4 == 0
    ensures y % 400 == 0 ==> y % 100 == 0
  {
    if y % 100 == 0 { assert y == 4 * (25 * (y / 100)); }
    if y % 400 == 0 { assert y == 100 * (4 * (y / 400)); }
  }

  /** Counting year by year agrees with the closed form the reader computes. */
  lemma {:induction false} DaysToClosed(y: int)
    requires y >= 1969
    ensures DaysTo(y) == DaysBeforeYear(y) - DaysBeforeYear(1970)
  {
    if y > 1969 {
      DaysToClosed(y - 1);
      NextYear(y - 1);
    }
  }

  lemma {:induction false} YearsGrow(a: int, b: int)
    requires 1969 <= a <= b
    ensures DaysTo(b) >= DaysTo(a) + 365 * (b - a)
    decreases b - a
  {
    if a < b { YearsGrow(a, b - 1); }
  }

  /** First second of 2069, where the two-digit year wraps. */
  const WRAP: int := 36160 * 86400

  lemma WrapDay()
    ensures DaysTo(2069) == 36160
  {
    DaysToClosed(2069);
  }

  /** Where six two-character fields stand in a key. */
  lemma Fields(a: string, b: string, c: string, d: string, e: string, f: string)
    requires |a| == |b| == |c| == |d| == |e| == |f| == 2
    ensures var k := a + b + c + "_" + d + e + f;
            && |k| == 13 && k[6] == '_'
            && k[0..2] == a && k[2..4] == b && k[4..6] == c && k[7..9] == d && k[9..11] == e && k[11..13] == f
  {}

  lemma ReadTwoDigits(k: string, i: nat, n: int)
    requires i + 2 <= |k| && 0 <= n < 100 && k[i..i + 2] == TwoDigits(n)
    ensures ReadTwo(k, i) == n && IsDigit(k[i]) && IsDigit(k[i + 1])
  {
    assert k[i] == k[i..i + 2][0] && k[i + 1] == k[i..i + 2][1];
  }

  lemma KeyFields(s: int)
    requires s >= 0
    ensures var k := FormatKey(s);
            var c := WalkYears(1970, s / 86400);
            && |k| == 13 && k[6] == '_'
            && ReadTwo(k, 0) == c.year % 100 && ReadTwo(k, 2) == c.month && ReadTwo(k, 4) == c.day
            && ReadTwo(k, 7) == s % 86400 / 3600
            && ReadTwo(k, 9) == s % 86400 / 60 % 60
            && ReadTwo(k, 11) == s % 86400 % 60
            && IsDigit(k[0]) && IsDigit(k[12])
  {
    var k, c, r := FormatKey(s), WalkYears(1970, s / 86400), s % 86400;
    Fields(TwoDigits(c.year % 100), TwoDigits(c.month), TwoDigits(c.day),
           TwoDigits(r / 3600), TwoDigits(r / 60 % 60), TwoDigits(r % 60));
    ReadTwoDigits(k, 0, c.year % 100);
    ReadTwoDigits(k, 2, c.month);
    ReadTwoDigits(k, 4, c.day);
    ReadTwoDigits(k, 7, r / 3600);
    ReadTwoDigits(k, 9, r / 60 % 60);
    ReadTwoDigits(k, 11, r % 60);
  }

  /** The date lies in the year it names. */
  lemma InsideYear(c: Civil)
    requires c.year >= 1969 && 1 <= c.month <= 12 && 1 <= c.day <= MonthLength(c.year, c.month)
    ensures DaysTo(c.year) <= DaysTo(c.year) + DaysBeforeMonth(c.year, c.month) + c.day - 1 < DaysTo(c.year + 1)
  {
    assert DaysTo(c.year + 1) == DaysTo(c.year) + YearLength(c.year);
  }

  lemma YearRange(s: int)
    requires s >= 0
    ensures WalkYears(1970, s / 86400).year <= 2068 <==> s < WRAP
  {
    var c := WalkYears(1970, s / 86400);
    InsideYear(c);
    WrapDay();
    assert DaysTo(1970) == 0;
    if c.year <= 2068 { YearsGrow(c.year + 1, 2069); } else { YearsGrow(2069, c.year); }
  }

  lemma Clock(s: int)
    ensures var r := s % 86400;
            s == ((s / 86400 * 24 + r / 3600) * 60 + r / 60 % 60) * 60 + r % 60
  {
    var r := s % 86400;
    assert r / 60 / 60 == r / 3600;
    assert r / 60 == r / 3600 * 60 + r / 60 % 60;
  }

  /** What the reader makes of a formatted time. */
  lemma ReadFormatted(s: int)
    requires s >= 0
    ensures var c, r := WalkYears(1970, s / 86400), s % 86400;
            ReadKey(FormatKey(s)) == FromFields(c.year % 100, c.month, c.day, r / 3600, r / 60 % 60, r % 60)
  {
    KeyFields(s);
  }

  /** Years up to 2068 are read back as written; later ones as a year a century or more before. */
  lemma YearReadBack(year: int)
    requires year >= 1970
    ensures 1969 <= FullYear(year % 100) <= 2068
    ensures FullYear(year % 100) == year <==> year <= 2068
  {}

  lemma ClockReadBack(r: int)
    requires 0 <= r < 86400
    ensures 0 <= r / 3600 <= 23 && 0 <= r / 60 % 60 <= 59 && 0 <= r % 60 <= 59
    ensures (r / 3600 * 60 + r / 60 % 60) * 60 + r % 60 == r
  {
    Clock(r);
  }

  /** The fields of a date and a second of the day give that second of that date. */
  lemma FieldsReadBack(c: Civil, r: int)
    requires c.year >= 1970 && 1 <= c.month <= 12 && 0 <= r < 86400
    ensures var y := FullYear(c.year % 100);
            FromFields(c.year % 100, c.month, c.day, r / 3600, r / 60 % 60, r % 60)
            == if 1 <= c.day <= MonthLength(y, c.month)
               then Some((DaysTo(y) + DaysBeforeMonth(y, c.month) + c.day - 1) * 86400 + r) else None
  {
    ClockReadBack(r);
  }

  lemma BeforeWrap(c: Civil)
    requires 1969 <= c.year <= 2068 && 1 <= c.month <= 12 && 1 <= c.day <= MonthLength(c.year, c.month)
    ensures DaysTo(c.year) + DaysBeforeMonth(c.year, c.month) + c.day - 1 < 36160
  {
    InsideYear(c);
    YearsGrow(c.year + 1, 2069);
    WrapDay();
  }

  /** A formatted time reads back as itself exactly up to the end of 2068. */
  lemma KeyRoundTrip(s: int)
    requires s >= 0
    ensures ReadKey(FormatKey(s)) == Some(s) <==> s < WRAP
  {
    var c, r := WalkYears(1970, s / 86400), s % 86400;
    var y := FullYear(c.year % 100);
    assert ReadKey(FormatKey(s))
        == if 1 <= c.day <= MonthLength(y, c.month)
           then Some((DaysTo(y) + DaysBeforeMonth(y, c.month) + c.day - 1) * 86400 + r) else None by {
      ReadFormatted(s);
      FieldsReadBack(c, r);
    }
    assert DaysTo(1970) == 0;
    assert 1969 <= y <= 2068 && (y == c.year <==> s < WRAP) by { YearReadBack(c.year); YearRange(s); }
    if s >= WRAP && 1 <= c.day <= MonthLength(y, c.month) { BeforeWrap(Civil(y, c.month, c.day)); }
  }

  /** The same through the reader's trimming of the text. */
  lemma StartRoundTrip(s: int)
    requires s >= 0
    ensures CycleStartOf(FormatKey(s)) == Some(s) <==> s < WRAP
  {
    assert Strip(FormatKey(s)) == FormatKey(s) by { KeyFields(s); }
    KeyRoundTrip(s);
  }

  lemma AlignedSecond(t: real)
    requires t >= 0.0
    ensures t.Floor - t.Floor % 15 == 15 * SlotIndex(t) >= 0
  {
    var n := t.Floor;
    SlotIndexUnique(t, n / 15);
  }

  lemma KeyNamesStart(t: real)
    requires t >= 0.0
    ensures CycleStart(t) >= 0 && CycleKeyAt(t) == FormatKey(CycleStart(t))
  {
    AlignedSecond(t);
  }

  /** Decoding the key of any time gives the start of its slot, from 1970 up to
      the end of 2068 and not beyond. */
  lemma CycleKeyRoundTrip(t: real)
    requires t >= 0.0
    ensures CycleStartOf(CycleKeyAt(t)) == Some(CycleStart(t)) <==> CycleStart(t) < WRAP
  {
    KeyNamesStart(t);
    StartRoundTrip(CycleStart(t));
  }

  /** A leap year is read back as a leap year, so every date stays a date. */
  lemma LeapReadBack(year: int)
    requires year >= 1970 && IsLeap(year)
    ensures IsLeap(FullYear(year % 100))
  {
    assert year % 4 == 0 && year % 100 % 4 == 0;
  }

  /** Whatever the year, the reader finds a time, the same second of some day. */
  lemma KeyReadsSecond(s: int) returns (day: int)
    requires s >= 0
    ensures ReadKey(FormatKey(s)) == Some(86400 * day + s % 86400)
  {
    var c, r := WalkYears(1970, s / 86400), s % 86400;
    var y := FullYear(c.year % 100);
    ReadFormatted(s);
    FieldsReadBack(c, r);
    if IsLeap(c.year) { LeapReadBack(c.year); }
    day := DaysTo(y) + DaysBeforeMonth(y, c.month) + c.day - 1;
  }

  lemma StartReadsSecond(s: int) returns (day: int)
    requires s >= 0
    ensures CycleStartOf(FormatKey(s)) == Some(86400 * day + s % 86400)
  {
    assert Strip(FormatKey(s)) == FormatKey(s) by { KeyFields(s); }
    day := KeyReadsSecond(s);
  }

  /** A day holds an even number of slots, so the parity of a slot is that of its
      place in the day. */
  lemma PeriodInDay(day: int, r: int)
    requires 0 <= r < 86400 && r % 15 == 0
    ensures PeriodAt((86400 * day + r) as real) == r / 15 % 2
  {
    SlotIndexUnique((86400 * day + r) as real, 5760 * day + r / 15);
    assert (5760 * day + r / 15) % 2 == r / 15 % 2;
  }

  lemma DaySplit(s: int)
    requires s >= 0 && s % 15 == 0
    ensures s == 86400 * (s / 86400) + s % 86400 && s % 86400 % 15 == 0
  {
    assert s % 86400 == s - 15 * (5760 * (s / 86400));
  }

  lemma PeriodReadBack(s: int, now: int)
    requires s >= 0 && s % 15 == 0
    ensures PeriodFromCycle(FormatKey(s), now) == PeriodAt(s as real)
  {
    var day := StartReadsSecond(s);
    DaySplit(s);
    PeriodInDay(day, s % 86400);
    PeriodInDay(s / 86400, s % 86400);
  }

  lemma StartPeriod(t: real)
    requires t >= 0.0
    ensures CycleStart(t) % 15 == 0 && PeriodAt(CycleStart(t) as real) == PeriodAt(t)
  {
    SlotIndexUnique(CycleStart(t) as real, SlotIndex(t));
  }

  /** A decode labelled with the key of its slot is attributed to that slot's
      period, for every time from 1970 on: where the year is misread, the day has
      changed by whole days only. */
  lemma PeriodRoundTrip(t: real, now: int)
    requires t >= 0.0
    ensures PeriodFromCycle(CycleKeyAt(t), now) == PeriodAt(t)
  {
    KeyNamesStart(t);
    StartPeriod(t);
    PeriodReadBack(CycleStart(t), now);
  }

  /** Within those years two times have the same key exactly when they share a slot. */
  lemma KeysNameSlots(t: real, u: real)
    requires 0.0 <= t && CycleStart(t) < WRAP
    requires 0.0 <= u && CycleStart(u) < WRAP
    ensures CycleKeyAt(t) == CycleKeyAt(u) <==> SlotIndex(t) == SlotIndex(u)
  {
    KeyNamesStart(t);
    KeyNamesStart(u);
    StartRoundTrip(CycleStart(t));
    StartRoundTrip(CycleStart(u));
  }
}
