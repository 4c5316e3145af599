/**
 * Day normalisation and record identifiers: `epoch_ms_day_to_iso_utc` and
 * the identifier f-strings of src/aggregate.py.
 */
module Dates {

  /** Milliseconds in a UTC day. */
  const DayMs: int := 24 * 60 * 60 * 1000

  /** A proleptic Gregorian calendar date. */
  datatype Civil = Civil(year: int, month: int, day: int)

  /** The UTC day number (days since 1970-01-01) of an instant in ms. */
  function DayNumber(ms: int): int {
    ms / DayMs
  }

  /** Years divisible by 4 are leap years, except centuries not divisible by 400. */
  predicate IsLeap(y: int) {
    y % 4 == 0 && (y % 100 != 0 || y % 400 == 0)
  }

  /** The length of month `m` (1 = January) in a leap or a common year. */
  function MonthLength(m: int, leap: bool): int {
    if m == 2 then (if leap then 29 else 28)
    else if m == 4 || m == 6 || m == 9 || m == 11 then 30
    else 31
  }

  function DaysInMonth(y: int, m: int): int {
    MonthLength(m, IsLeap(y))
  }

  /** A date that exists in the proleptic Gregorian calendar. */
  predicate ValidDate(c: Civil) {
    1 <= c.month <= 12 && 1 <= c.day <= DaysInMonth(c.year, c.month)
  }

  // Within an era, years run from 1 March to the end of February, so the
  // leap day, when there is one, is the last day of its year of the era.

  /** The year of the era (0 to 399) of day `doe` of an era. */
  function YearOfEra(doe: int): int {
    (doe - doe / 1460 + doe / 36524 - doe / 146096) / 365
  }

  /** The day of the era on which year `yoe` of the era starts. */
  function YearStart(yoe: int): int {
    365 * yoe + yoe / 4 - yoe / 100
  }

  /** The day of its year (0 is 1 March) of day `doe` of an era. */
  function DayOfYear(doe: int): int {
    doe - YearStart(YearOfEra(doe))
  }

  /** Year `yoe` of the era ends with a leap day: the calendar year `yoe + 1` of the era is a leap year. */
  predicate LeapInEra(yoe: int) {
    yoe % 4 == 3 && (yoe % 100 != 99 || yoe == 399)
  }

  /** Months counted from March: 0 is March, 11 is February. */
  function ShiftedMonth(m: int): int {
    if m > 2 then m - 3 else m + 9
  }

  function MonthOfShifted(mp: int): int {
    if mp < 10 then mp + 3 else mp - 9
  }

  /** The day of the year on which shifted month `mp` starts. */
  function MonthStart(mp: int): int {
    (153 * mp + 2) / 5
  }

  /**
   * The calendar date of a day number, by the era decomposition: eras of
   * 400 years (146097 days) starting on 0000-03-01.
   */
  function CivilFromDays(z: int): (c: Civil)
    ensures 1 <= c.month <= 12 && 1 <= c.day <= 31
  {
    var z := z + 719468;
    var era := z / 146097;
    CivilOfEraDay(era, z - era * 146097)
  }

  /** The date of day `doe` (0 is 1 March of the era's first year) of era `era`. */
  function CivilOfEraDay(era: int, doe: int): (c: Civil)
    requires 0 <= doe < 146097
    ensures 1 <= c.month <= 12 && 1 <= c.day <= 31
  {
    YearOfEraBounds(doe);
    var yoe := (doe - doe / 1460 + doe / 36524 - doe / 146096) / 365;
    var doy := doe - (365 * yoe + yoe / 4 - yoe / 100);
    MonthOfDayOfYear(doy);
    var mp := (5 * doy + 2) / 153;
    var m := if mp < 10 then mp + 3 else mp - 9;
    var y := yoe + era * 400;
    Civil(if m <= 2 then y + 1 else y, m, doy - (153 * mp + 2) / 5 + 1)
  }

  /** The date of a day of an era is valid: its day is within its month's length. */
  lemma CivilOfEraDayValid(era: int, doe: int)
    requires 0 <= doe < 146097
    ensures ValidDate(CivilOfEraDay(era, doe))
  {
    YearOfEraBounds(doe);
    MonthOfDayOfYear(DayOfYear(doe));
    LeapInEraIff(YearOfEra(doe), era);
  }

  /** Every day number is the day of a valid date, 29 February only in leap years. */
  lemma CivilFromDaysValid(z: int)
    ensures ValidDate(CivilFromDays(z))
  {
    var era := (z + 719468) / 146097;
    CivilOfEraDayValid(era, z + 719468 - era * 146097);
  }

  /**
   * The quotients by the lengths of a four-year block, a century and an era
   * of a day of an era written as century `c`, four-year block `k` of the
   * century and day `s` of the block.
   */
  lemma EraQuotients(c: int, k: int, s: int)
    requires 0 <= c <= 3 && 0 <= k <= 24 && 0 <= s <= 1460 && 1461 * k + s < 36524
    ensures var doe := 36524 * c + 1461 * k + s;
      && doe / 36524 == c && doe / 146096 == 0
      && doe / 1460 == 25 * c + k + if s >= 1460 - 24 * c - k then 1 else 0
  {
    var doe := 36524 * c + 1461 * k + s;
    var delta := if s >= 1460 - 24 * c - k then 1 else 0;
    assert doe == 36524 * c + (1461 * k + s);
    assert doe == 1460 * (25 * c + k + delta) + (24 * c + k + s - 1460 * delta);
  }

  /** The year of the era and the day of the year of such a day. */
  lemma EraParts(c: int, k: int, s: int)
    requires 0 <= c <= 3 && 0 <= k <= 24 && 0 <= s <= 1460 && 1461 * k + s < 36524
    ensures var doe := 36524 * c + 1461 * k + s;
      var j := (s - if s >= 1460 - 24 * c - k then 1 else 0) / 365;
      && 0 <= j <= 3
      && YearOfEra(doe) == 100 * c + 4 * k + j
      && DayOfYear(doe) == s - 365 * j
  {
    EraQuotients(c, k, s);
    var delta := if s >= 1460 - 24 * c - k then 1 else 0;
    var n := 36500 * c + 1460 * k + s - delta;
    var j := (s - delta) / 365;
    assert 0 <= j <= 3;
    assert n / 365 == 100 * c + 4 * k + j by {
      assert n == 365 * (100 * c + 4 * k + j) + (s - delta - 365 * j);
    }
    var yoe := n / 365;
    assert yoe / 4 == 25 * c + k;
    assert yoe / 100 == c;
  }

  /**
   * Within an era, the year of the era is in range, the day of the year is
   * at most 365, and it is 365 only on the leap day.
   */
  lemma YearOfEraBounds(doe: int)
    requires 0 <= doe < 146097
    ensures 0 <= YearOfEra(doe) < 400
    ensures 0 <= DayOfYear(doe) <= 365
    ensures DayOfYear(doe) == 365 ==> LeapInEra(YearOfEra(doe))
  {
    if doe == 146096 {
      assert YearOfEra(doe) == 399;
    } else {
      var c := doe / 36524;
      var r := doe - 36524 * c;
      var k := r / 1461;
      var s := r - 1461 * k;
      assert 0 <= c <= 3 && 0 <= r < 36524;
      assert 0 <= k <= 24 && 0 <= s <= 1460;
      EraParts(c, k, s);
    }
  }

  /** A year of the era and a day of it within the year's length give back both. */
  lemma YearStartRoundTrip(yoe: int, doy: int)
    requires 0 <= yoe < 400 && 0 <= doy <= 365
    requires doy == 365 ==> LeapInEra(yoe)
    ensures 0 <= YearStart(yoe) + doy < 146097
    ensures YearOfEra(YearStart(yoe) + doy) == yoe && DayOfYear(YearStart(yoe) + doy) == doy
  {
    if yoe == 399 && doy == 365 {
      assert YearStart(yoe) + doy == 146096;
    } else {
      var c, k, j := yoe / 100, yoe % 100 / 4, yoe % 4;
      assert yoe == 100 * c + 4 * k + j;
      assert yoe / 4 == 25 * c + k && yoe / 100 == c;
      var s := 365 * j + doy;
      assert YearStart(yoe) + doy == 36524 * c + 1461 * k + s;
      EraParts(c, k, s);
    }
  }

  /** Adding whole 400-year cycles keeps the remainder modulo 4. */
  lemma CycleRemainder4(a: int, era: int)
    ensures (a + era * 400) % 4 == a % 4
  {
    assert a + era * 400 == 4 * (a / 4 + 100 * era) + a % 4;
  }

  /** Adding whole 400-year cycles keeps the remainder modulo 100. */
  lemma CycleRemainder100(a: int, era: int)
    ensures (a + era * 400) % 100 == a % 100
  {
    assert a + era * 400 == 100 * (a / 100 + 4 * era) + a % 100;
  }

  /** Adding whole 400-year cycles keeps the remainder modulo 400. */
  lemma CycleRemainder400(a: int, era: int)
    ensures (a + era * 400) % 400 == a % 400
  {
    assert a + era * 400 == 400 * (a / 400 + era) + a % 400;
  }

  /** Whether a year of the era ends with a leap day depends only on the calendar year. */
  lemma LeapInEraIff(yoe: int, era: int)
    requires 0 <= yoe < 400
    ensures LeapInEra(yoe) <==> IsLeap(yoe + 1 + era * 400)
  {
    CycleRemainder4(yoe + 1, era);
    CycleRemainder100(yoe + 1, era);
    CycleRemainder400(yoe + 1, era);
    assert (yoe + 1) % 4 == 0 <==> yoe % 4 == 3;
    assert (yoe + 1) % 100 == 0 <==> yoe % 100 == 99;
  }

  /** The month of a day of the year, and the day of that month, within the month's length. */
  lemma MonthOfDayOfYear(doy: int)
    requires 0 <= doy <= 365
    ensures var mp := (5 * doy + 2) / 153;
      && 0 <= mp <= 11
      && 1 <= doy - MonthStart(mp) + 1 <= MonthLength(MonthOfShifted(mp), doy == 365)
  {
  }

  /** The day of the year of a day of a month, from which the month is recovered. */
  lemma DayOfYearOfMonth(m: int, day: int, leap: bool)
    requires 1 <= m <= 12 && 1 <= day <= MonthLength(m, leap)
    ensures var doy := MonthStart(ShiftedMonth(m)) + day - 1;
      && 0 <= doy <= 365
      && (doy == 365 ==> leap && m == 2)
      && (5 * doy + 2) / 153 == ShiftedMonth(m)
  {
  }

  /** The day number of a calendar date: the inverse of `CivilFromDays`. */
  function DaysFromCivil(c: Civil): int {
    var y := if c.month <= 2 then c.year - 1 else c.year;
    var era := y / 400;
    var yoe := y - era * 400;
    era * 146097 + YearStart(yoe) + MonthStart(ShiftedMonth(c.month)) + c.day - 1 - 719468
  }

  /** Converting a day number to a date and back gives the day number. */
  lemma CivilRoundTrip(z: int)
    ensures DaysFromCivil(CivilFromDays(z)) == z
  {
    var z' := z + 719468;
    var era := z' / 146097;
    EraDayRoundTrip(era, z' - era * 146097);
  }

  /** Within an era, `DaysFromCivil` undoes `CivilOfEraDay`. */
  lemma EraDayRoundTrip(era: int, doe: int)
    requires 0 <= doe < 146097
    ensures DaysFromCivil(CivilOfEraDay(era, doe)) == era * 146097 + doe - 719468
  {
    YearOfEraBounds(doe);
    var yoe := YearOfEra(doe);
    var doy := DayOfYear(doe);
    MonthOfDayOfYear(doy);
    YearOfEraQuotient(yoe, era);
    var c := CivilOfEraDay(era, doe);
    var mp := (5 * doy + 2) / 153;
    assert ShiftedMonth(c.month) == mp;
    assert (if c.month <= 2 then c.year - 1 else c.year) == yoe + era * 400;
    assert MonthStart(mp) + c.day - 1 == doy;
  }

  /** The date of a day number given by its era and day of the era. */
  lemma CivilFromEraDay(era: int, doe: int)
    requires 0 <= doe < 146097
    ensures CivilFromDays(era * 146097 + doe - 719468) == CivilOfEraDay(era, doe)
  {
    assert (era * 146097 + doe) / 146097 == era;
  }

  /** The date of day `doy` of year `yoe` of era `era`. */
  lemma CivilOfYearDay(era: int, yoe: int, doy: int)
    requires 0 <= yoe < 400 && 0 <= doy <= 365
    requires doy == 365 ==> LeapInEra(yoe)
    ensures 0 <= YearStart(yoe) + doy < 146097
    ensures var mp := (5 * doy + 2) / 153;
      var c := CivilOfEraDay(era, YearStart(yoe) + doy);
      && c.month == MonthOfShifted(mp)
      && c.day == doy - MonthStart(mp) + 1
      && c.year == if c.month <= 2 then yoe + era * 400 + 1 else yoe + era * 400
  {
    YearStartRoundTrip(yoe, doy);
  }

  /**
   * The day of the year of a valid date is within its year of the era, and
   * it is the leap day only in a year of the era that has one.
   */
  lemma DayOfYearOfDate(c: Civil, era: int, yoe: int)
    requires ValidDate(c) && 0 <= yoe < 400
    requires yoe + era * 400 == if c.month <= 2 then c.year - 1 else c.year
    ensures var doy := MonthStart(ShiftedMonth(c.month)) + c.day - 1;
      && 0 <= doy <= 365 && (doy == 365 ==> LeapInEra(yoe))
      && (5 * doy + 2) / 153 == ShiftedMonth(c.month)
  {
    DayOfYearOfMonth(c.month, c.day, IsLeap(c.year));
    LeapInEraIff(yoe, era);
  }

  /** `DaysFromCivil` counts the days of the eras before, of the years of the era before, and of the year. */
  lemma DaysFromCivilOfEra(c: Civil, era: int, yoe: int)
    requires 0 <= yoe < 400
    requires yoe + era * 400 == if c.month <= 2 then c.year - 1 else c.year
    ensures DaysFromCivil(c) == era * 146097 + YearStart(yoe) + MonthStart(ShiftedMonth(c.month)) + c.day - 1 - 719468
  {
    YearOfEraQuotient(yoe, era);
  }

  /** The date of a day of the era given by its year of the era, its month and its day of the month. */
  lemma CivilOfMonthDay(era: int, yoe: int, m: int, day: int)
    requires 0 <= yoe < 400 && 1 <= m <= 12
    requires var doy := MonthStart(ShiftedMonth(m)) + day - 1;
      && 0 <= doy <= 365 && (doy == 365 ==> LeapInEra(yoe))
      && (5 * doy + 2) / 153 == ShiftedMonth(m)
    ensures var doe := YearStart(yoe) + MonthStart(ShiftedMonth(m)) + day - 1;
      && 0 <= doe < 146097
      && CivilOfEraDay(era, doe) == Civil(if m <= 2 then yoe + era * 400 + 1 else yoe + era * 400, m, day)
  {
    var doy := MonthStart(ShiftedMonth(m)) + day - 1;
    CivilOfYearDay(era, yoe, doy);
    assert MonthOfShifted(ShiftedMonth(m)) == m;
  }

  /** A valid date is the date of its day of the era. */
  lemma DateOfEraDay(c: Civil, era: int, yoe: int)
    requires ValidDate(c) && 0 <= yoe < 400
    requires yoe + era * 400 == if c.month <= 2 then c.year - 1 else c.year
    ensures var doe := YearStart(yoe) + MonthStart(ShiftedMonth(c.month)) + c.day - 1;
      && 0 <= doe < 146097
      && CivilOfEraDay(era, doe) == c
  {
    DayOfYearOfDate(c, era, yoe);
    CivilOfMonthDay(era, yoe, c.month, c.day);
    var y := if c.month <= 2 then yoe + era * 400 + 1 else yoe + era * 400;
    assert y == c.year;
  }

  /** Converting a valid date to its day number and back gives the date. */
  lemma DateRoundTrip(c: Civil)
    requires ValidDate(c)
    ensures CivilFromDays(DaysFromCivil(c)) == c
  {
    var y := if c.month <= 2 then c.year - 1 else c.year;
    var era := y / 400;
    var yoe := y - era * 400;
    var doe := YearStart(yoe) + MonthStart(ShiftedMonth(c.month)) + c.day - 1;
    DateOfEraDay(c, era, yoe);
    DaysFromCivilOfEra(c, era, yoe);
    CivilFromEraDay(era, doe);
  }

  /** Distinct valid dates have distinct day numbers. */
  lemma DaysFromCivilInjective(c1: Civil, c2: Civil)
    requires ValidDate(c1) && ValidDate(c2) && DaysFromCivil(c1) == DaysFromCivil(c2)
    ensures c1 == c2
  {
    DateRoundTrip(c1);
    DateRoundTrip(c2);
  }

  /** The year of the era and the era are recovered from the year. */
  lemma YearOfEraQuotient(yoe: int, era: int)
    requires 0 <= yoe < 400
    ensures (yoe + era * 400) / 400 == era
  {
  }

  function Digit(n: int): char
    requires 0 <= n < 10
  {
    ('0' as int + n) as char
  }

  function DigitValue(ch: char): int {
    ch as int - '0' as int
  }

  /** `n` in two decimal digits, zero-padded. */
  function Pad2(n: int): string
    requires 0 <= n < 100
  {
    [Digit(n / 10), Digit(n % 10)]
  }

  /** `n` in four decimal digits, zero-padded. */
  function Pad4(n: int): string
    requires 0 <= n < 10000
  {
    [Digit(n / 1000), Digit(n / 100 % 10), Digit(n / 10 % 10), Digit(n % 10)]
  }

  /** Python's `datetime` only represents the years 1 to 9999. */
  predicate InDatetimeRange(ms: int) {
    1 <= CivilFromDays(DayNumber(ms)).year <= 9999
  }

  /** `YYYY-MM-DD`. */
  function FormatDate(c: Civil): string
    requires 0 <= c.year < 10000 && 1 <= c.month <= 12 && 1 <= c.day <= 31
  {
    Pad4(c.year) + "-" + Pad2(c.month) + "-" + Pad2(c.day)
  }

  /** Reads the date back from the first ten characters of `s`. */
  function ParseDate(s: string): Civil
    requires |s| >= 10
  {
    Civil(
      1000 * DigitValue(s[0]) + 100 * DigitValue(s[1]) + 10 * DigitValue(s[2]) + DigitValue(s[3]),
      10 * DigitValue(s[5]) + DigitValue(s[6]),
      10 * DigitValue(s[8]) + DigitValue(s[9]))
  }

  /**
   * `epoch_ms_day_to_iso_utc`: the UTC calendar date of the instant, as
   * `YYYY-MM-DD` followed by `T00:00:00Z` (the date-time form of section 5.6
   * of RFC 3339).
   */
  function EpochMsDayToIsoUtc(ms: int): (s: string)
    requires InDatetimeRange(ms)
    ensures |s| == 20 && s[4] == '-' && s[7] == '-' && s[10..] == "T00:00:00Z"
    ensures forall i :: 0 <= i < 10 && i != 4 && i != 7 ==> '0' <= s[i] <= '9'
  {
    FormatDate(CivilFromDays(DayNumber(ms))) + "T00:00:00Z"
  }

  lemma DigitRoundTrip(k: int)
    requires 0 <= k < 10
    ensures DigitValue(Digit(k)) == k
  {
  }

  lemma PadRoundTrip(n: int, m: int)
    requires 0 <= n < 10000 && 0 <= m < 100
    ensures var p := Pad4(n);
      1000 * DigitValue(p[0]) + 100 * DigitValue(p[1]) + 10 * DigitValue(p[2]) + DigitValue(p[3]) == n
    ensures var q := Pad2(m); 10 * DigitValue(q[0]) + DigitValue(q[1]) == m
  {
    var a, b, c, d := n / 1000, n / 100 % 10, n / 10 % 10, n % 10;
    DigitRoundTrip(a);
    DigitRoundTrip(b);
    DigitRoundTrip(c);
    DigitRoundTrip(d);
    assert n / 100 == 10 * a + b;
    assert n / 10 == 10 * (n / 100) + c;
    assert n == 10 * (n / 10) + d;
    DigitRoundTrip(m / 10);
    DigitRoundTrip(m % 10);
  }

  /**
   * The string names the UTC day of the instant: it reads back as the date
   * of that day, whose day number is the instant's day.
   */
  lemma IsoDayRoundTrip(ms: int)
    requires InDatetimeRange(ms)
    ensures ParseDate(EpochMsDayToIsoUtc(ms)) == CivilFromDays(DayNumber(ms))
    ensures DaysFromCivil(ParseDate(EpochMsDayToIsoUtc(ms))) == DayNumber(ms)
  {
    var c := CivilFromDays(DayNumber(ms));
    var s := EpochMsDayToIsoUtc(ms);
    var y, m, d := Pad4(c.year), Pad2(c.month), Pad2(c.day);
    assert s == y + "-" + m + "-" + d + "T00:00:00Z";
    assert s[0] == y[0] && s[1] == y[1] && s[2] == y[2] && s[3] == y[3];
    assert s[5] == m[0] && s[6] == m[1] && s[8] == d[0] && s[9] == d[1];
    PadRoundTrip(c.year, c.month);
    PadRoundTrip(0, c.day);
    assert ParseDate(s) == c;
    CivilRoundTrip(DayNumber(ms));
  }

  /** The date in the string is a valid date. */
  lemma IsoDayValid(ms: int)
    requires InDatetimeRange(ms)
    ensures ValidDate(ParseDate(EpochMsDayToIsoUtc(ms)))
  {
    IsoDayRoundTrip(ms);
    CivilFromDaysValid(DayNumber(ms));
  }

  /** The date in the string is the only valid date of the instant's UTC day. */
  lemma IsoDayUnique(ms: int, c: Civil)
    requires InDatetimeRange(ms)
    requires ValidDate(c) && DaysFromCivil(c) == DayNumber(ms)
    ensures c == ParseDate(EpochMsDayToIsoUtc(ms))
  {
    IsoDayRoundTrip(ms);
    IsoDayValid(ms);
    var parsed := ParseDate(EpochMsDayToIsoUtc(ms));
    DaysFromCivilInjective(c, parsed);
  }

  /** Two instants give the same string exactly when they fall on the same UTC day. */
  lemma SameIsoDayIff(ms1: int, ms2: int)
    requires InDatetimeRange(ms1) && InDatetimeRange(ms2)
    ensures EpochMsDayToIsoUtc(ms1) == EpochMsDayToIsoUtc(ms2) <==> DayNumber(ms1) == DayNumber(ms2)
  {
    IsoDayRoundTrip(ms1);
    IsoDayRoundTrip(ms2);
  }

  /** The namespaces of the identifiers. */
  const CursorNs := "cursor"
  const AiCommitsNs := "cursor-ai-commits"
  const AiChangesNs := "cursor-ai-changes"

  /** `date_iso[:10]`: the `YYYY-MM-DD` part. */
  function DayKey(ms: int): (k: string)
    requires InDatetimeRange(ms)
    ensures |k| == 10
  {
    EpochMsDayToIsoUtc(ms)[..10]
  }

  /** `f"cursor:{org}:{date_iso[:10]}"`. */
  function OrgIdentifier(org: string, ms: int): string
    requires InDatetimeRange(ms)
  {
    CursorNs + ":" + org + ":" + DayKey(ms)
  }

  /** `f"{namespace}:{org}:{key}:{date_iso[:10]}"`, key an e-mail or a team. */
  function KeyedIdentifier(namespace: string, org: string, key: string, ms: int): string
    requires InDatetimeRange(ms)
  {
    namespace + ":" + org + ":" + key + ":" + DayKey(ms)
  }

  /**
   * An identifier is its namespace, the organisation and the key, each
   * followed by `:`, then the day: so it depends on nothing else, and for a
   * fixed namespace, organisation and key two identifiers coincide exactly
   * when their instants fall on the same UTC day.
   */
  lemma KeyedIdentifierShape(namespace: string, org: string, key: string, ms1: int, ms2: int)
    requires InDatetimeRange(ms1) && InDatetimeRange(ms2)
    ensures var id := KeyedIdentifier(namespace, org, key, ms1);
      && id[..|id| - 10] == namespace + ":" + org + ":" + key + ":"
      && id[|id| - 10..] == EpochMsDayToIsoUtc(ms1)[..10]
    ensures KeyedIdentifier(namespace, org, key, ms1) == KeyedIdentifier(namespace, org, key, ms2)
      <==> DayNumber(ms1) == DayNumber(ms2)
  {
    var p := namespace + ":" + org + ":" + key + ":";
    var id1, id2 := KeyedIdentifier(namespace, org, key, ms1), KeyedIdentifier(namespace, org, key, ms2);
    assert id1 == p + DayKey(ms1) && id2 == p + DayKey(ms2);
    assert id1[|p|..] == DayKey(ms1) && id2[|p|..] == DayKey(ms2);
    DayKeyIff(ms1, ms2);
  }

  /** The same for the organisation identifier, which has no key. */
  lemma OrgIdentifierShape(org: string, ms1: int, ms2: int)
    requires InDatetimeRange(ms1) && InDatetimeRange(ms2)
    ensures var id := OrgIdentifier(org, ms1);
      && id[..|id| - 10] == CursorNs + ":" + org + ":"
      && id[|id| - 10..] == EpochMsDayToIsoUtc(ms1)[..10]
    ensures OrgIdentifier(org, ms1) == OrgIdentifier(org, ms2) <==> DayNumber(ms1) == DayNumber(ms2)
  {
    var p := CursorNs + ":" + org + ":";
    var id1, id2 := OrgIdentifier(org, ms1), OrgIdentifier(org, ms2);
    assert id1 == p + DayKey(ms1) && id2 == p + DayKey(ms2);
    assert id1[|p|..] == DayKey(ms1) && id2[|p|..] == DayKey(ms2);
    DayKeyIff(ms1, ms2);
  }

  lemma DayKeyIff(ms1: int, ms2: int)
    requires InDatetimeRange(ms1) && InDatetimeRange(ms2)
    ensures DayKey(ms1) == DayKey(ms2) <==> DayNumber(ms1) == DayNumber(ms2)
  {
    IsoDayRoundTrip(ms1);
    IsoDayRoundTrip(ms2);
    var s1, s2 := EpochMsDayToIsoUtc(ms1), EpochMsDayToIsoUtc(ms2);
    if DayKey(ms1) == DayKey(ms2) {
      assert ParseDate(s1) == ParseDate(s2) by {
        assert forall i :: 0 <= i < 10 ==> s1[i] == DayKey(ms1)[i] && s2[i] == DayKey(ms2)[i];
      }
    }
  }
}
