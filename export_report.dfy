/**
 * The route's monthly export: the pattern-checked month, the closed window
 * query, and the single `forEach` pass that accumulates the expense and income
 * totals, the per-category totals of the expense records and the per-day
 * breakdown with its list of transactions.
 */
module ExportReport {
  import opened Wrappers
  import opened JsText
  import opened Calendar
  import opened Dict
  import opened ExpenseModel
  import opened Folds
  import opened MonthQuery
  import opened MonthlySummary

  /** A record as a day's transaction list shows it. */
  datatype Brief = Brief(id: nat, kind: string, category: string, amount: int, currency: Currency, description: string)

  function BriefOf(e: Expense): Brief {
    Brief(e.id, e.kind, e.category, e.amount, e.currency, e.description)
  }

  function Briefs(xs: seq<Expense>): (bs: seq<Brief>)
    ensures |bs| == |xs| && forall i :: 0 <= i < |xs| ==> bs[i] == BriefOf(xs[i])
  {
    if xs == [] then [] else Briefs(xs[..|xs| - 1]) + [BriefOf(xs[|xs| - 1])]
  }

  /** One entry of `dailyBreakdown`. */
  datatype Day = Day(expenses: int, income: int, transactions: seq<Brief>)

  /** The entry a day gets when its first record is met. */
  const NoDay := Day(0, 0, [])

  /** The key of a record's day: `expense.date.toISOString().split('T')[0]`, which is its ISO date (`DatePart`). */
  function DayKey(e: Expense): string {
    IsoDate(e.date.date)
  }

  /** The day keys of the records, in list order. */
  function DayKeys(xs: seq<Expense>): (ks: seq<string>)
    ensures |ks| == |xs| && forall i :: 0 <= i < |xs| ==> ks[i] == DayKey(xs[i])
  {
    if xs == [] then [] else DayKeys(xs[..|xs| - 1]) + [DayKey(xs[|xs| - 1])]
  }

  /** What one record adds to its day: its amount to `expenses` or (any other type) to `income`, and its transaction. */
  function Record(day: Day, e: Expense): Day {
    var counted := if e.kind == ExpenseType then day.(expenses := day.expenses + e.amount)
                   else day.(income := day.income + e.amount);
    counted.(transactions := counted.transactions + [BriefOf(e)])
  }

  /** The daily breakdown after one more record. */
  function DayStep(daily: Dict<Day>, e: Expense): Dict<Day> {
    Put(daily, DayKey(e), Record(GetOr(daily, DayKey(e), NoDay), e))
  }

  /** The daily breakdown of a list of records. */
  function Daily(xs: seq<Expense>): (r: Dict<Day>)
    ensures |r| <= |xs|
  {
    if xs == [] then []
    else
      var init, e := Daily(xs[..|xs| - 1]), xs[|xs| - 1];
      PutKeys(init, DayKey(e), Record(GetOr(init, DayKey(e), NoDay), e));
      DayStep(init, e)
  }

  /** The records of one day. */
  function OnDay(xs: seq<Expense>, key: string): (r: seq<Expense>)
    ensures |r| <= |xs|
  {
    if xs == [] then []
    else
      var init := OnDay(xs[..|xs| - 1], key);
      if DayKey(xs[|xs| - 1]) == key then init + [xs[|xs| - 1]] else init
  }

  /** A day's records are exactly the records with that day key. */
  lemma {:induction false} OnDayMembers(xs: seq<Expense>, key: string)
    ensures forall e :: e in OnDay(xs, key) <==> e in xs && DayKey(e) == key
    decreases |xs|
  {
    if xs != [] {
      var init, last := xs[..|xs| - 1], xs[|xs| - 1];
      assert xs == init + [last];
      OnDayMembers(init, key);
    }
  }

  /** The day entry a list of records of one day adds up to. */
  function DayOf(xs: seq<Expense>): Day {
    Day(Total(OfKind(xs, ExpenseType)), Total(Excluding(xs, ExpenseType)), Briefs(xs))
  }

  /** The `summary` object of the response. */
  datatype ExportSummary = ExportSummary(
    totalExpenses: int,
    totalIncome: int,
    categoryBreakdown: Dict<int>,
    dailyBreakdown: Dict<Day>,
    currency: Currency)

  /**
   * What the pass over the fetched records computes: the expense records'
   * total, the total of every other record (counted as income whatever its
   * type), the expense records' category totals and the daily breakdown.
   */
  function Expected(xs: seq<Expense>, currency: Currency): (r: ExportSummary)
    ensures |r.dailyBreakdown| <= |xs|
    ensures r.currency == currency
  {
    ExportSummary(Total(OfKind(xs, ExpenseType)), Total(Excluding(xs, ExpenseType)),
                  Tally(OfKind(xs, ExpenseType)), Daily(xs), currency)
  }

  /** The `expenses.forEach` pass, updating the accumulators in place. */
  method Accumulate(expenses: seq<Expense>, currency: Currency) returns (summary: ExportSummary)
    ensures summary.totalExpenses == Total(OfKind(expenses, ExpenseType))
    ensures summary.totalIncome == Total(Excluding(expenses, ExpenseType))
    ensures summary.categoryBreakdown == Tally(OfKind(expenses, ExpenseType))
    ensures summary.dailyBreakdown == Daily(expenses)
    ensures summary.currency == currency
  {
    var totalExpenses, totalIncome := 0, 0;
    var categoryBreakdown: Dict<int> := [];
    var dailyBreakdown: Dict<Day> := [];
    for i := 0 to |expenses|
      invariant totalExpenses == Total(OfKind(expenses[..i], ExpenseType))
      invariant totalIncome == Total(Excluding(expenses[..i], ExpenseType))
      invariant categoryBreakdown == Tally(OfKind(expenses[..i], ExpenseType))
      invariant dailyBreakdown == Daily(expenses[..i])
    {
      PrefixStep(expenses, i);
      totalExpenses, totalIncome, categoryBreakdown, dailyBreakdown :=
        Visit(totalExpenses, totalIncome, categoryBreakdown, dailyBreakdown, expenses[i]);
    }
    assert expenses[..|expenses|] == expenses;
    summary := ExportSummary(totalExpenses, totalIncome, categoryBreakdown, dailyBreakdown, currency);
  }

  /** The body of the `forEach` callback: one record's updates of the four accumulators. */
  method Visit(totalExpenses: int, totalIncome: int, categoryBreakdown: Dict<int>, dailyBreakdown: Dict<Day>, expense: Expense)
    returns (totalExpenses': int, totalIncome': int, categoryBreakdown': Dict<int>, dailyBreakdown': Dict<Day>)
    ensures totalExpenses' == totalExpenses + (if expense.kind == ExpenseType then expense.amount else 0)
    ensures totalIncome' == totalIncome + (if expense.kind == ExpenseType then 0 else expense.amount)
    ensures categoryBreakdown' == if expense.kind == ExpenseType then Bump(categoryBreakdown, expense) else categoryBreakdown
    ensures dailyBreakdown' == DayStep(dailyBreakdown, expense)
  {
    totalExpenses', totalIncome', categoryBreakdown' := totalExpenses, totalIncome, categoryBreakdown;
    if expense.kind == ExpenseType {
      totalExpenses' := totalExpenses + expense.amount;
      categoryBreakdown' := Bump(categoryBreakdown, expense);
    } else {
      totalIncome' := totalIncome + expense.amount;
    }
    dailyBreakdown' := AddToDay(dailyBreakdown, expense);
  }

  /**
   * The daily part of one iteration: create the day's entry when it is
   * missing, add the amount to `expenses` or `income`, push the transaction.
   */
  method AddToDay(dailyBreakdown: Dict<Day>, expense: Expense) returns (updated: Dict<Day>)
    ensures updated == DayStep(dailyBreakdown, expense)
  {
    var dateStr := DatePart(expense.date);
    assert dateStr == DayKey(expense);
    updated := dailyBreakdown;
    if Get(updated, dateStr).None? {
      updated := Put(updated, dateStr, NoDay);
    }
    PutGet(dailyBreakdown, dateStr, NoDay);
    var day := GetOr(updated, dateStr, NoDay);
    assert day == GetOr(dailyBreakdown, dateStr, NoDay);
    if expense.kind == ExpenseType {
      day := day.(expenses := day.expenses + expense.amount);
    } else {
      day := day.(income := day.income + expense.amount);
    }
    day := day.(transactions := day.transactions + [BriefOf(expense)]);
    assert day == Record(GetOr(dailyBreakdown, dateStr, NoDay), expense);
    PutTwice(dailyBreakdown, dateStr, NoDay, day);
    updated := Put(updated, dateStr, day);
  }

  /** Each fold over `xs[..i + 1]` is its fold over `xs[..i]` followed by one step on `xs[i]`. */
  lemma PrefixStep(xs: seq<Expense>, i: nat)
    requires i < |xs|
    ensures Total(OfKind(xs[..i + 1], ExpenseType))
            == Total(OfKind(xs[..i], ExpenseType)) + (if xs[i].kind == ExpenseType then xs[i].amount else 0)
    ensures Total(Excluding(xs[..i + 1], ExpenseType))
            == Total(Excluding(xs[..i], ExpenseType)) + (if xs[i].kind == ExpenseType then 0 else xs[i].amount)
    ensures Tally(OfKind(xs[..i + 1], ExpenseType))
            == if xs[i].kind == ExpenseType then Bump(Tally(OfKind(xs[..i], ExpenseType)), xs[i]) else Tally(OfKind(xs[..i], ExpenseType))
    ensures Daily(xs[..i + 1]) == DayStep(Daily(xs[..i]), xs[i])
  {
    var p, e, q := xs[..i], xs[i], xs[..i + 1];
    assert q == p + [e];
    assert q[..|q| - 1] == p && q[|q| - 1] == e;
    assert Daily(q) == DayStep(Daily(p), e);
    OfKindSnoc(p, e, ExpenseType);
    ExcludingSnoc(p, e, ExpenseType);
    TotalSnoc(OfKind(p, ExpenseType), e);
    TotalSnoc(Excluding(p, ExpenseType), e);
    TallySnoc(OfKind(p, ExpenseType), e);
  }

  // ---- what the pass computes ----

  /** Every fetched amount is counted once: `totalExpenses + totalIncome` is the sum of all amounts. */
  lemma TotalsConserved(xs: seq<Expense>, currency: Currency)
    ensures Expected(xs, currency).totalExpenses + Expected(xs, currency).totalIncome == Total(xs)
  {
    TotalSplits(xs, ExpenseType);
  }

  /**
   * The category map has one entry per distinct category of the expense
   * records, in order of first appearance, and its totals sum to `totalExpenses`.
   */
  lemma CategoryBreakdownLaws(xs: seq<Expense>, currency: Currency)
    ensures var s := Expected(xs, currency);
      && SumValues(s.categoryBreakdown) == s.totalExpenses
      && Keys(s.categoryBreakdown) == Dedup(Categories(OfKind(xs, ExpenseType)))
      && (forall k :: GetOr(s.categoryBreakdown, k, 0) == Total(OfCategory(OfKind(xs, ExpenseType), k)))
  {
    TallyLaws(OfKind(xs, ExpenseType));
  }

  /**
   * When every record's type is `expense` or `income`, the export's totals and
   * category map agree with the controller's monthly summary of the same records.
   */
  lemma AgreesWithMonthlySummary(xs: seq<Expense>, currency: Currency)
    requires forall i :: 0 <= i < |xs| ==> xs[i].kind in TypeValues
    ensures Expected(xs, currency).totalExpenses == Summarize(xs).totalExpenses
    ensures Expected(xs, currency).totalIncome == Summarize(xs).totalIncome
    ensures Expected(xs, currency).categoryBreakdown == Summarize(xs).categoryBreakdown
  {
    ExcludingExpenseIsIncome(xs);
  }

  /**
   * A record of a type other than `expense` or `income`, appended to any list,
   * adds its amount to the export's income and changes nothing in the
   * controller's summary.
   */
  lemma UnknownTypeCountsAsIncome(xs: seq<Expense>, e: Expense, currency: Currency)
    requires e.kind !in TypeValues
    ensures Expected(xs + [e], currency).totalIncome == Expected(xs, currency).totalIncome + e.amount
    ensures Expected(xs + [e], currency).totalExpenses == Expected(xs, currency).totalExpenses
    ensures Expected(xs + [e], currency).categoryBreakdown == Expected(xs, currency).categoryBreakdown
    ensures Summarize(xs + [e]) == Summarize(xs)
  {
    OfKindSnoc(xs, e, ExpenseType);
    OfKindSnoc(xs, e, IncomeType);
    ExcludingSnoc(xs, e, ExpenseType);
    TotalSnoc(Excluding(xs, ExpenseType), e);
  }

  /** The daily map has one entry per distinct day of the records, in order of first appearance. */
  lemma {:induction false} DailyKeys(xs: seq<Expense>)
    ensures Keys(Daily(xs)) == Dedup(DayKeys(xs))
    ensures Distinct(Keys(Daily(xs)))
    decreases |xs|
  {
    if xs != [] {
      var init, e := xs[..|xs| - 1], xs[|xs| - 1];
      DailyKeys(init);
      PutKeys(Daily(init), DayKey(e), Record(GetOr(Daily(init), DayKey(e), NoDay), e));
      assert DayKeys(xs)[..|xs| - 1] == DayKeys(init);
    }
  }

  /**
   * Each day's entry holds that day's expense total, the total of its other
   * records, and its records' transactions in fetch order.
   */
  lemma {:induction false} DailyDays(xs: seq<Expense>)
    ensures forall k :: GetOr(Daily(xs), k, NoDay) == DayOf(OnDay(xs, k))
    decreases |xs|
  {
    if xs != [] {
      var init, e := xs[..|xs| - 1], xs[|xs| - 1];
      assert xs == init + [e];
      DailyDays(init);
      forall k ensures GetOr(Daily(xs), k, NoDay) == DayOf(OnDay(xs, k)) {
        PutGet(Daily(init), DayKey(e), Record(GetOr(Daily(init), DayKey(e), NoDay), e));
        OnDaySnoc(init, e, k);
        if k == DayKey(e) {
          DayOfSnoc(OnDay(init, k), e);
        }
      }
    }
  }

  lemma OnDaySnoc(xs: seq<Expense>, e: Expense, key: string)
    ensures OnDay(xs + [e], key) == if DayKey(e) == key then OnDay(xs, key) + [e] else OnDay(xs, key)
  {
    assert (xs + [e])[..|xs|] == xs;
  }

  /** Adding a record to a day's list adds it to the day's entry as `Record` does. */
  lemma DayOfSnoc(xs: seq<Expense>, e: Expense)
    ensures DayOf(xs + [e]) == Record(DayOf(xs), e)
  {
    var ys := xs + [e];
    var te, ti := Total(OfKind(xs, ExpenseType)), Total(Excluding(xs, ExpenseType));
    BriefsSnoc(xs, e);
    OfKindSnoc(xs, e, ExpenseType);
    ExcludingSnoc(xs, e, ExpenseType);
    if e.kind == ExpenseType {
      TotalSnoc(OfKind(xs, ExpenseType), e);
      assert DayOf(ys) == Day(te + e.amount, ti, Briefs(xs) + [BriefOf(e)]);
    } else {
      TotalSnoc(Excluding(xs, ExpenseType), e);
      assert DayOf(ys) == Day(te, ti + e.amount, Briefs(xs) + [BriefOf(e)]);
    }
  }

  lemma BriefsSnoc(xs: seq<Expense>, e: Expense)
    ensures Briefs(xs + [e]) == Briefs(xs) + [BriefOf(e)]
  {
    assert (xs + [e])[..|xs|] == xs;
  }

  /** Each day's `expenses + income` is the sum of that day's amounts. */
  lemma DayConserved(xs: seq<Expense>, k: string)
    ensures GetOr(Daily(xs), k, NoDay).expenses + GetOr(Daily(xs), k, NoDay).income == Total(OnDay(xs, k))
  {
    DailyDays(xs);
    TotalSplits(OnDay(xs, k), ExpenseType);
  }

  /** The transactions of all days, day by day in key order. */
  function Transactions(daily: Dict<Day>): seq<Brief> {
    if daily == [] then [] else Transactions(daily[..|daily| - 1]) + daily[|daily| - 1].value.transactions
  }

  /** The days' transaction lists together hold exactly the fetched records, each once. */
  lemma {:induction false} DailyTransactions(xs: seq<Expense>)
    ensures multiset(Transactions(Daily(xs))) == multiset(Briefs(xs))
    decreases |xs|
  {
    if xs != [] {
      var init, e := xs[..|xs| - 1], xs[|xs| - 1];
      DailyTransactions(init);
      DayStepTransactions(Daily(init), e);
    }
  }

  /** One step adds exactly the record's transaction to the days' lists. */
  lemma DayStepTransactions(d: Dict<Day>, e: Expense)
    ensures multiset(Transactions(DayStep(d, e))) == multiset(Transactions(d)) + multiset{BriefOf(e)}
  {
    PutTransactions(d, DayKey(e), Record(GetOr(d, DayKey(e), NoDay), e), BriefOf(e));
  }

  /** Writing a day whose list is the old list plus one transaction adds that transaction to the whole. */
  lemma PutTransactions(d: Dict<Day>, k: string, day: Day, b: Brief)
    requires day.transactions == GetOr(d, k, NoDay).transactions + [b]
    ensures multiset(Transactions(Put(d, k, day))) == multiset(Transactions(d)) + multiset{b}
  {
    PutShape(d, k, day);
    GetOrShape(d, k, NoDay);
    if Find(d, k).Some? {
      var i := Find(d, k).value;
      TransactionsUpdate(d, i, Entry(k, day));
      MultisetCancel(multiset(Transactions(Put(d, k, day))), multiset(d[i].value.transactions),
                     multiset(Transactions(d)), multiset{b});
    } else {
      TransactionsSnoc(d, Entry(k, day));
    }
  }

  lemma TransactionsSnoc(d: Dict<Day>, x: Entry<Day>)
    ensures Transactions(d + [x]) == Transactions(d) + x.value.transactions
  {
    assert (d + [x])[..|d|] == d;
  }

  /** Replacing one day's entry replaces its transactions in the whole. */
  lemma {:induction false} TransactionsUpdate(d: Dict<Day>, i: nat, x: Entry<Day>)
    requires i < |d|
    ensures multiset(Transactions(d[i := x])) + multiset(d[i].value.transactions)
            == multiset(Transactions(d)) + multiset(x.value.transactions)
    decreases |d|
  {
    if i < |d| - 1 {
      var init, last := d[..|d| - 1], d[|d| - 1];
      UpdateBeforeLast(d, i, x);
      TransactionsUpdate(init, i, x);
      MultisetShift(multiset(Transactions(init[i := x])), multiset(last.value.transactions), multiset(d[i].value.transactions),
                    multiset(Transactions(init)), multiset(x.value.transactions));
    } else {
      assert d[i := x][..|d| - 1] == d[..|d| - 1];
    }
  }

  /** Replacing an entry before the last one leaves the last entry's transactions at the end. */
  lemma UpdateBeforeLast(d: Dict<Day>, i: nat, x: Entry<Day>)
    requires i < |d| - 1
    ensures Transactions(d[i := x]) == Transactions(d[..|d| - 1][i := x]) + d[|d| - 1].value.transactions
    ensures d[..|d| - 1][i] == d[i]
  {
    assert d[i := x][..|d| - 1] == d[..|d| - 1][i := x];
  }

  lemma MultisetCancel<T>(a: multiset<T>, c: multiset<T>, p: multiset<T>, q: multiset<T>)
    requires a + c == p + (c + q)
    ensures a == p + q
  {
    forall x ensures a[x] == (p + q)[x] {
      assert (a + c)[x] == (p + (c + q))[x];
    }
  }

  lemma MultisetShift<T>(a: multiset<T>, b: multiset<T>, c: multiset<T>, p: multiset<T>, q: multiset<T>)
    requires a + c == p + q
    ensures a + b + c == p + b + q
  {
    calc {
      a + b + c;
      (a + c) + b;
      (p + q) + b;
      p + b + q;
    }
  }

  // ---- the handler ----

  const MonthRequired := "Month parameter is required (YYYY-MM)"

  /** A record as the response's `expenses` list shows it, with its dates as ISO strings. */
  datatype Exported = Exported(
    id: nat,
    kind: string,
    category: string,
    amount: int,
    currency: Currency,
    description: string,
    date: string,
    createdAt: string)

  function ExportedOf(e: Expense): (r: Exported)
    ensures r.id == e.id && r.kind == e.kind && r.category == e.category && r.amount == e.amount
    ensures r.currency == e.currency && r.description == e.description
    ensures IsoDate(e.date.date) + "T" <= r.date && IsoDate(e.createdAt.date) + "T" <= r.createdAt
  {
    Exported(e.id, e.kind, e.category, e.amount, e.currency, e.description, IsoString(e.date), IsoString(e.createdAt))
  }

  /** `expenses.map(...)`. */
  function ExportedList(xs: seq<Expense>): (r: seq<Exported>)
    ensures |r| == |xs| && forall i :: 0 <= i < |xs| ==> r[i] == ExportedOf(xs[i])
  {
    seq(|xs|, i requires 0 <= i < |xs| => ExportedOf(xs[i]))
  }

  datatype Report = Report(month: string, summary: ExportSummary, expenses: seq<Exported>)

  /** The export's query: the closed window only (no owner filter), newest first. */
  function ExportQuery(month: string): (q: Query)
    requires MatchesMonthPattern(month)
    ensures q.owner.None? && q.order == DateDescending && q.window.Some? && q.window.value.Closed?
    ensures q.window == ExportWindow(month)
  {
    PatternParts(month);
    Query(None, ExportWindow(month), DateDescending)
  }

  /**
   * `GET /export`: 400 when the month is missing or does not match
   * `YYYY-MM`; otherwise the summary of every record in the closed window,
   * with the requester's currency, and the records themselves.
   */
  method ExportMonthly(month: Option<string>, currency: Currency, find: Query -> seq<Expense>) returns (r: Response<Report>)
    ensures !Truthy(month) ==> r == Fail(400, MonthRequired)
    ensures Truthy(month) && !MatchesMonthPattern(month.value) ==> r == Fail(400, InvalidMonthFormat)
    ensures Truthy(month) && MatchesMonthPattern(month.value) ==>
      var xs := find(ExportQuery(month.value));
      r == Ok(200, Report(month.value, Expected(xs, currency), ExportedList(xs)))
  {
    if !Truthy(month) {
      return Fail(400, MonthRequired);
    }
    if !MatchesMonthPattern(month.value) {
      return Fail(400, InvalidMonthFormat);
    }
    var expenses := find(ExportQuery(month.value));
    var summary := Accumulate(expenses, currency);
    r := Ok(200, Report(month.value, summary, ExportedList(expenses)));
  }
}
