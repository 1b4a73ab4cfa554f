/**
 * Calendar dates and instants in local time, the JavaScript `Date` constructor
 * as the month windows use it, and the `YYYY-MM-DD` date part of an ISO string.
 * Local time and UTC are taken to coincide (no time-zone offset).
 */
module Calendar {
  import opened JsText

  /** A calendar day: month 1..12, day 1..31. */
  datatype Date = Date(year: int, month: int, day: int)

  /** A moment: a calendar day and the milliseconds elapsed since its midnight. */
  datatype Instant = Instant(date: Date, ms: nat)

  const MsPerDay: nat := 86_400_000

  /** Gregorian leap years (proleptic, as JavaScript dates are). */
  predicate IsLeapYear(y: int) {
    (y % 4 == 0 && y % 100 != 0) || y % 400 == 0
  }

  function DaysInMonth(y: int, m: int): (n: int)
    requires 1 <= m <= 12
    ensures 28 <= n <= 31
  {
    if m == 2 then (if IsLeapYear(y) then 29 else 28)
    else if m == 4 || m == 6 || m == 9 || m == 11 then 30
    else 31
  }

  predicate ValidDate(d: Date) {
    1 <= d.month <= 12 && 1 <= d.day <= DaysInMonth(d.year, d.month)
  }

  predicate ValidInstant(t: Instant) {
    ValidDate(t.date) && t.ms < MsPerDay
  }

  /** Chronological order of days. */
  predicate DateBefore(a: Date, b: Date) {
    a.year < b.year || (a.year == b.year && (a.month < b.month || (a.month == b.month && a.day < b.day)))
  }

  /** Chronological order of instants: `a < b` on JavaScript dates. */
  predicate Earlier(a: Instant, b: Instant) {
    DateBefore(a.date, b.date) || (a.date == b.date && a.ms < b.ms)
  }

  /** `a <= b` on JavaScript dates. */
  predicate NotLater(a: Instant, b: Instant) {
    a == b || Earlier(a, b)
  }

  function Midnight(d: Date): Instant {
    Instant(d, 0)
  }

  /** A date range as a query states it: `$gte`/`$lt` (half open) or `$gte`/`$lte` (closed). */
  datatype Window = HalfOpen(from: Instant, before: Instant) | Closed(from: Instant, upTo: Instant)

  predicate InWindow(t: Instant, w: Window) {
    match w
    case HalfOpen(f, b) => NotLater(f, t) && Earlier(t, b)
    case Closed(f, u) => NotLater(f, t) && NotLater(t, u)
  }

  /** The Date constructor reads a year 0..99 as 1900..1999. */
  function JsYear(y: int): int {
    if 0 <= y <= 99 then 1900 + y else y
  }

  /**
   * `new Date(y, monthIndex, day)` for day 1 or 0: the zero-based month index
   * may lie outside 0..11 and carries into the year; day 0 is the day before the first.
   */
  function LocalDate(y: int, monthIndex: int, day: int): (d: Date)
    requires day == 0 || day == 1
    ensures ValidDate(d)
  {
    var year := JsYear(y) + monthIndex / 12;
    var month := monthIndex % 12 + 1;
    if day == 1 then Date(year, month, 1)
    else if month == 1 then Date(year - 1, 12, 31)
    else Date(year, month - 1, DaysInMonth(year, month - 1))
  }

  /** The day after the last day of month `m` of year `y`. */
  function FirstOfNextMonth(y: int, m: int): Date {
    if m == 12 then Date(y + 1, 1, 1) else Date(y, m + 1, 1)
  }

  /** For a month 1..12 the constructor gives the first of that month, and the first of the next for `m`. */
  lemma LocalDateOfMonth(y: int, m: int)
    requires 1 <= m <= 12
    ensures LocalDate(y, m - 1, 1) == Date(JsYear(y), m, 1)
    ensures LocalDate(y, m, 1) == FirstOfNextMonth(JsYear(y), m)
    ensures LocalDate(y, m, 0) == Date(JsYear(y), m, DaysInMonth(JsYear(y), m))
  {
  }

  /**
   * A half-open window from the first of a month to the first of the next
   * holds exactly the instants of that month.
   */
  lemma MonthSpanMembership(t: Instant, y: int, m: int)
    requires ValidInstant(t) && 1 <= m <= 12
    ensures InWindow(t, HalfOpen(Midnight(Date(y, m, 1)), Midnight(FirstOfNextMonth(y, m))))
            <==> t.date.year == y && t.date.month == m
  {
  }

  function Pad2(n: nat): string {
    PadZeros(NatToString(n), 2)
  }

  /** The year part of an ISO string: four digits for 0..9999, else a sign and six digits. */
  function IsoYear(y: int): string {
    if 0 <= y <= 9999 then PadZeros(NatToString(y), 4)
    else if y > 9999 then "+" + PadZeros(NatToString(y), 6)
    else "-" + PadZeros(NatToString(-y), 6)
  }

  /** The date part of an ISO string: `YYYY-MM-DD`. */
  function IsoDate(d: Date): (s: string)
    ensures ',' !in s && '\n' !in s && 'T' !in s
  {
    DigitsHaveNoPunctuation(PadZeros(NatToString(if d.year < 0 then -d.year else d.year), if 0 <= d.year <= 9999 then 4 else 6));
    DigitsHaveNoPunctuation(Pad2(if d.month < 0 then 0 else d.month));
    DigitsHaveNoPunctuation(Pad2(if d.day < 0 then 0 else d.day));
    IsoYear(d.year) + "-" + Pad2(if d.month < 0 then 0 else d.month) + "-" + Pad2(if d.day < 0 then 0 else d.day)
  }

  /** The time part of an ISO string for a time of day in milliseconds: `HH:mm:ss.sssZ`. */
  function IsoTime(ms: nat): (s: string)
    ensures 'T' !in s
  {
    var hh, mi, ss, mmm := Pad2(ms / 3_600_000), Pad2(ms / 60_000 % 60), Pad2(ms / 1000 % 60), PadZeros(NatToString(ms % 1000), 3);
    DigitsHaveNoPunctuation(hh);
    DigitsHaveNoPunctuation(mi);
    DigitsHaveNoPunctuation(ss);
    DigitsHaveNoPunctuation(mmm);
    hh + ":" + mi + ":" + ss + "." + mmm + "Z"
  }

  /** `t.toISOString()`. */
  function IsoString(t: Instant): (s: string)
    ensures IsoDate(t.date) + "T" <= s
  {
    IsoDate(t.date) + "T" + IsoTime(t.ms)
  }

  /** `t.toISOString().split('T')[0]`: the first piece is the date part. */
  function DatePart(t: Instant): (s: string)
    ensures s == IsoDate(t.date)
  {
    var parts := [IsoDate(t.date), IsoTime(t.ms)];
    assert Join(parts, 'T') == IsoString(t) by {
      assert parts[1..] == [IsoTime(t.ms)];
    }
    SplitJoin(parts, 'T');
    Split(IsoString(t), 'T')[0]
  }

  /** Different valid days of years 0..9999 have different ISO date strings, so grouping by the string groups by day. */
  lemma IsoDateInjective(a: Date, b: Date)
    requires ValidDate(a) && ValidDate(b)
    requires 0 <= a.year <= 9999 && 0 <= b.year <= 9999
    requires IsoDate(a) == IsoDate(b)
    ensures a == b
  {
    IsoDateParts(a);
    IsoDateParts(b);
  }

  /** The fields of an ISO date string read back to the date's year, month and day. */
  lemma IsoDateParts(d: Date)
    requires ValidDate(d) && 0 <= d.year <= 9999
    ensures |IsoDate(d)| == 10
    ensures AllDigits(IsoDate(d)[..4]) && DigitsValue(IsoDate(d)[..4]) == d.year
    ensures AllDigits(IsoDate(d)[5..7]) && DigitsValue(IsoDate(d)[5..7]) == d.month
    ensures AllDigits(IsoDate(d)[8..]) && DigitsValue(IsoDate(d)[8..]) == d.day
  {
    PaddedField(d.year, 4);
    PaddedField(d.month, 2);
    PaddedField(d.day, 2);
    var y, m, dd := IsoYear(d.year), Pad2(d.month), Pad2(d.day);
    var s := IsoDate(d);
    assert s == y + "-" + m + "-" + dd;
    assert s[..4] == y;
    assert s[5..7] == m;
    assert s[8..] == dd;
  }

  /** A number below `10^width`, zero-padded to `width`, has exactly `width` digits and reads back. */
  lemma PaddedField(n: nat, width: nat)
    requires 1 <= width && n < Pow10(width)
    ensures |PadZeros(NatToString(n), width)| == width
    ensures AllDigits(PadZeros(NatToString(n), width)) && DigitsValue(PadZeros(NatToString(n), width)) == n
  {
    NatToStringShort(n, width);
    PadZerosValue(NatToString(n), width);
    NatToStringRoundTrip(n);
  }
}
