/**
 * Turning the `month` query parameter (`YYYY-MM`) into a date window, and the
 * read queries the handlers issue. The database is a parameter
 * `find: Query -> seq<Expense>` standing for the query's result; a handler that
 * rejects its input never consults it.
 */
module MonthQuery {
  import opened Wrappers
  import opened JsText
  import opened Calendar
  import opened ExpenseModel

  /** The order a query asks the database for: none (an aggregation without a sort stage), or by date. */
  datatype Order = Unordered | DateAscending | DateDescending

  /** A read query: the owner filter (if any), the date window (if any) and the requested order. */
  datatype Query = Query(owner: Option<string>, window: Option<Window>, order: Order)

  /** `const [year, monthNum] = month.split('-').map(Number)`: a missing part is undefined, so NaN. */
  function MonthParts(month: string): (r: (Option<nat>, Option<nat>))
    ensures '-' !in month ==> r == (JsNumber(Some(month)), None)
    ensures r.1.Some? ==> '-' in month
  {
    var parts := Split(month, '-');
    (JsNumber(Some(parts[0])), JsNumber(if |parts| >= 2 then Some(parts[1]) else None))
  }

  // ---- controllers/expenseController.js: validated month ----

  /**
   * The controller's check `!year || !monthNum || monthNum < 1 || monthNum > 12`:
   * the first part must be a nonzero number and the second a number in 1..12.
   */
  function ParseMonth(month: string): (r: Option<(nat, nat)>)
    ensures r.Some? ==> r.value.0 >= 1 && 1 <= r.value.1 <= 12
    ensures r.Some? ==>
      && |Split(month, '-')| >= 2
      && AllDigits(Split(month, '-')[0]) && DigitsValue(Split(month, '-')[0]) == r.value.0
      && AllDigits(Split(month, '-')[1]) && DigitsValue(Split(month, '-')[1]) == r.value.1
    ensures '-' !in month ==> r.None?
    ensures && |Split(month, '-')| >= 2
            && AllDigits(Split(month, '-')[0]) && AllDigits(Split(month, '-')[1])
            && DigitsValue(Split(month, '-')[0]) >= 1 && 1 <= DigitsValue(Split(month, '-')[1]) <= 12
            ==> r.Some?
  {
    var (year, monthNum) := MonthParts(month);
    if year.None? || year.value == 0 || monthNum.None? || monthNum.value < 1 || monthNum.value > 12 then None
    else Some((year.value, monthNum.value))
  }

  /** A month as `YYYY-MM` (the year without padding). */
  function FormatMonth(y: nat, m: nat): string {
    NatToString(y) + "-" + Pad2(m)
  }

  /** Parsing a formatted month gives back the year and the month. */
  lemma ParseFormatMonth(y: nat, m: nat)
    requires y >= 1 && 1 <= m <= 12
    ensures ParseMonth(FormatMonth(y, m)) == Some((y, m))
  {
    var ys, ms := NatToString(y), Pad2(m);
    DigitsHaveNoPunctuation(ys);
    PadZerosValue(NatToString(m), 2);
    DigitsHaveNoPunctuation(ms);
    NatToStringRoundTrip(y);
    NatToStringRoundTrip(m);
    assert [ys, ms][1..] == [ms];
    assert Join([ys, ms], '-') == FormatMonth(y, m);
    SplitJoin([ys, ms], '-');
  }

  /** `[new Date(year, monthNum - 1, 1), new Date(year, monthNum, 1))`. */
  function MonthWindow(year: int, monthNum: int): (r: Window)
    ensures r.HalfOpen? && r.from.ms == 0 && r.before.ms == 0
    ensures ValidDate(r.from.date) && ValidDate(r.before.date)
  {
    HalfOpen(Midnight(LocalDate(year, monthNum - 1, 1)), Midnight(LocalDate(year, monthNum, 1)))
  }

  /**
   * For a month 1..12 the window runs from the first of the month to the first of
   * the next (December rolls over to January of the next year), and holds
   * exactly the instants of that month. A year 1..99 is read as 1901..1999.
   */
  lemma {:induction false} MonthWindowSpan(year: int, monthNum: int, t: Instant)
    requires 1 <= monthNum <= 12 && ValidInstant(t)
    ensures MonthWindow(year, monthNum)
            == HalfOpen(Midnight(Date(JsYear(year), monthNum, 1)), Midnight(FirstOfNextMonth(JsYear(year), monthNum)))
    ensures InWindow(t, MonthWindow(year, monthNum)) <==> t.date.year == JsYear(year) && t.date.month == monthNum
  {
    LocalDateOfMonth(year, monthNum);
    MonthSpanMembership(t, JsYear(year), monthNum);
  }

  /** The controller's answer to any exception it catches. */
  const InternalError := "Internal Server error"
  const MissingUserId := "Missing userId"
  const InvalidMonthFormat := "Invalid month format. Use YYYY-MM"

  /** The query `getExpenses` runs: by owner, and by month window when a month is given. */
  function GetExpensesQuery(month: Option<string>, userId: Option<string>): (r: Result<Query, string>)
    ensures !Truthy(userId) ==> r == Failure(MissingUserId)
    ensures Truthy(userId) && Truthy(month) && ParseMonth(month.value).None? ==> r == Failure(InvalidMonthFormat)
    ensures Truthy(userId) && (!Truthy(month) || ParseMonth(month.value).Some?) ==> r.Success?
    ensures r.Success? ==> Truthy(userId) && r.value.owner == userId && r.value.order == Unordered
    ensures r.Success? ==> (r.value.window.Some? <==> Truthy(month))
    ensures r.Success? && Truthy(month) ==>
      ParseMonth(month.value).Some? &&
      r.value.window == Some(MonthWindow(ParseMonth(month.value).value.0, ParseMonth(month.value).value.1))
  {
    if !Truthy(userId) then Failure(MissingUserId)
    else if !Truthy(month) then Success(Query(userId, None, Unordered))
    else match ParseMonth(month.value)
      case None => Failure(InvalidMonthFormat)
      case Some((y, m)) => Success(Query(userId, Some(MonthWindow(y, m)), Unordered))
  }

  /** `getExpenses`: 400 without a user id or with a bad month, otherwise the query's result. */
  function GetExpenses(month: Option<string>, userId: Option<string>, find: Query -> seq<Expense>): (r: Response<seq<Expense>>)
    ensures GetExpensesQuery(month, userId).Failure? ==> r == Fail(400, GetExpensesQuery(month, userId).error)
    ensures GetExpensesQuery(month, userId).Success? ==> r == Ok(200, find(GetExpensesQuery(month, userId).value))
  {
    match GetExpensesQuery(month, userId)
    case Failure(msg) => Fail(400, msg)
    case Success(q) => Ok(200, find(q))
  }

  // ---- unchecked month (routes/expenses.js list and summary, the controller's CSV export) ----

  /**
   * `[new Date(year, monthNum - 1, 1), new Date(year, monthNum, 1))` from the raw
   * parts, with no range check; None when a part is NaN (an Invalid Date).
   */
  function UncheckedWindow(month: string): (r: Option<Window>)
    ensures r.Some? <==> MonthParts(month).0.Some? && MonthParts(month).1.Some?
    ensures r.Some? ==> r.value == MonthWindow(MonthParts(month).0.value, MonthParts(month).1.value)
  {
    match MonthParts(month)
    case (Some(y), Some(m)) => Some(MonthWindow(y, m))
    case _ => None
  }

  /** Casting an Invalid Date in a query fails; the text of the cast error is not modelled. */
  const CastToDateFailed := "Cast to date failed"

  /** The query of the route's list (and summary): by month only, never by owner. */
  function RouteListQuery(month: Option<string>): (r: Result<Query, string>)
    ensures r.Success? ==> r.value.owner.None? && r.value.order == DateDescending
    ensures !Truthy(month) ==> r == Success(Query(None, None, DateDescending))
    ensures Truthy(month) ==> (r.Success? <==> UncheckedWindow(month.value).Some?)
    ensures Truthy(month) && r.Success? ==> r.value.window == UncheckedWindow(month.value)
  {
    if !Truthy(month) then Success(Query(None, None, DateDescending))
    else match UncheckedWindow(month.value)
      case None => Failure(CastToDateFailed)
      case Some(w) => Success(Query(None, Some(w), DateDescending))
  }

  /** The route's list: every record in the window, of every user; a NaN part makes the query fail with 500. */
  function RouteList(month: Option<string>, find: Query -> seq<Expense>): (r: Response<seq<Expense>>)
    ensures RouteListQuery(month).Failure? ==> r == Fail(500, CastToDateFailed)
    ensures RouteListQuery(month).Success? ==> r == Ok(200, find(RouteListQuery(month).value))
  {
    match RouteListQuery(month)
    case Failure(msg) => Fail(500, msg)
    case Success(q) => Ok(200, find(q))
  }

  /** The route's list does not range-check the month: "YYYY-13" lists January of the next year. */
  lemma RouteListMonth13(y: nat, t: Instant)
    requires y >= 100 && ValidInstant(t)
    ensures RouteListQuery(Some(NatToString(y) + "-13")).Success?
    ensures InWindow(t, RouteListQuery(Some(NatToString(y) + "-13")).value.window.value)
            <==> t.date.year == y + 1 && t.date.month == 1
  {
    var s := NatToString(y) + "-13";
    Month13Parts(y);
    LocalDateOfMonth(y, 12);
    assert LocalDate(y, 12, 1) == Date(y + 1, 1, 1);
    assert LocalDate(y, 13, 1) == Date(y + 1, 2, 1);
    MonthSpanMembership(t, y + 1, 1);
  }

  lemma Month13Parts(y: nat)
    ensures MonthParts(NatToString(y) + "-13") == (Some(y), Some(13))
  {
    var ys := NatToString(y);
    DigitsHaveNoPunctuation(ys);
    NatToStringRoundTrip(y);
    assert [ys, "13"][1..] == ["13"];
    assert Join([ys, "13"], '-') == ys + "-13";
    SplitJoin([ys, "13"], '-');
    assert "13"[..1] == "1";
    assert DigitsValue("1") == 1 by { assert "1"[..0] == ""; }
  }

  // ---- routes/expenses.js export: pattern-checked month, closed window ----

  /** `/^\d{4}-\d{2}$/`. */
  predicate MatchesMonthPattern(s: string): (r: bool)
    ensures r ==> |s| == 7 && s[4] == '-' && JsNumber(Some(s[..4])).Some? && JsNumber(Some(s[5..])).Some?
  {
    |s| == 7 && AllDigits(s[..4]) && s[4] == '-' && AllDigits(s[5..])
  }

  /** `[new Date(year, monthNum - 1, 1), new Date(year, monthNum, 0)]`, compared with `$gte` and `$lte`. */
  function ExportWindow(month: string): (r: Option<Window>)
    ensures r.Some? ==> r.value.Closed?
  {
    match MonthParts(month)
    case (Some(y), Some(m)) => Some(Closed(Midnight(LocalDate(y, m - 1, 1)), Midnight(LocalDate(y, m, 0))))
    case _ => None
  }

  /** A month matching the pattern splits into its four-digit year and two-digit month. */
  lemma PatternParts(s: string)
    requires MatchesMonthPattern(s)
    ensures MonthParts(s) == (Some(DigitsValue(s[..4])), Some(DigitsValue(s[5..])))
  {
    DigitsHaveNoPunctuation(s[..4]);
    DigitsHaveNoPunctuation(s[5..]);
    assert [s[..4], s[5..]][1..] == [s[5..]];
    assert Join([s[..4], s[5..]], '-') == s;
    SplitJoin([s[..4], s[5..]], '-');
  }

  /**
   * For a month 01..12 the export window is closed: from midnight of the first
   * to midnight (not the end) of the last day of the month.
   */
  lemma ExportWindowOfMonth(s: string)
    requires MatchesMonthPattern(s) && 1 <= DigitsValue(s[5..]) <= 12
    ensures var y, m := JsYear(DigitsValue(s[..4])), DigitsValue(s[5..]);
      ExportWindow(s) == Some(Closed(Midnight(Date(y, m, 1)), Midnight(Date(y, m, DaysInMonth(y, m)))))
  {
    PatternParts(s);
    LocalDateOfMonth(DigitsValue(s[..4]), DigitsValue(s[5..]));
  }

  /**
   * As written, the export window misses the last day of the month after
   * midnight: one millisecond past 00:00 on the last day is outside it.
   */
  lemma ExportWindowDropsLastDay(s: string)
    requires MatchesMonthPattern(s) && 1 <= DigitsValue(s[5..]) <= 12
    ensures var y, m := JsYear(DigitsValue(s[..4])), DigitsValue(s[5..]);
      var t := Instant(Date(y, m, DaysInMonth(y, m)), 1);
      ValidInstant(t) && t.date.month == m && ExportWindow(s).Some? && !InWindow(t, ExportWindow(s).value)
  {
    ExportWindowOfMonth(s);
  }

  /** As written, the pattern lets month 13 through: the export covers January of the next year. */
  lemma ExportWindowMonth13(s: string)
    requires MatchesMonthPattern(s) && s[5..] == "13"
    ensures var y := JsYear(DigitsValue(s[..4]));
      ExportWindow(s) == Some(Closed(Midnight(Date(y + 1, 1, 1)), Midnight(Date(y + 1, 1, 31))))
  {
    PatternParts(s);
    assert "13"[..1] == "1";
    assert DigitsValue("1") == 1 by { assert "1"[..0] == ""; }
  }

  /** As written, the pattern lets month 00 through: the export covers December of the previous year. */
  lemma ExportWindowMonth00(s: string)
    requires MatchesMonthPattern(s) && s[5..] == "00"
    ensures var y := JsYear(DigitsValue(s[..4]));
      ExportWindow(s) == Some(Closed(Midnight(Date(y - 1, 12, 1)), Midnight(Date(y - 1, 12, 31))))
  {
    PatternParts(s);
    assert "00"[..1] == "0";
    assert DigitsValue("0") == 0 by { assert "0"[..0] == ""; }
  }

  /**
   * The export window as evidently intended: the pattern, a month 01..12 and a
   * nonzero year, then the half-open window of the whole month.
   */
  function CorrectedExportWindow(month: string): (r: Option<Window>)
    ensures r.Some? <==> MatchesMonthPattern(month) && ParseMonth(month).Some?
  {
    if !MatchesMonthPattern(month) then None
    else match ParseMonth(month)
      case None => None
      case Some((y, m)) => Some(MonthWindow(y, m))
  }

  /** The corrected window holds exactly the instants of the named month, the last day included. */
  lemma CorrectedExportWindowCoversMonth(s: string, t: Instant)
    requires CorrectedExportWindow(s).Some? && ValidInstant(t)
    ensures 1 <= DigitsValue(s[5..]) <= 12
    ensures InWindow(t, CorrectedExportWindow(s).value)
            <==> t.date.year == JsYear(DigitsValue(s[..4])) && t.date.month == DigitsValue(s[5..])
  {
    PatternParts(s);
    var (y, m) := ParseMonth(s).value;
    MonthWindowSpan(y, m, t);
  }

  /** The corrected window accepts every matching month 01..12 of a nonzero year. */
  lemma CorrectedExportWindowAcceptsMonth(s: string)
    requires MatchesMonthPattern(s) && DigitsValue(s[..4]) >= 1 && 1 <= DigitsValue(s[5..]) <= 12
    ensures CorrectedExportWindow(s).Some?
    ensures CorrectedExportWindow(s).value == MonthWindow(DigitsValue(s[..4]), DigitsValue(s[5..]))
  {
    PatternParts(s);
  }

  /** The corrected window refuses a month outside 01..12. */
  lemma CorrectedExportWindowRejectsBadMonth(s: string)
    requires MatchesMonthPattern(s) && (DigitsValue(s[5..]) == 0 || DigitsValue(s[5..]) > 12)
    ensures CorrectedExportWindow(s).None?
  {
    PatternParts(s);
  }
}
