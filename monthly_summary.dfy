/**
 * The controller's monthly summary: income total, expense total, balance and
 * the per-category totals of the expense records, in order of first appearance.
 */
module MonthlySummary {
  import opened Wrappers
  import opened JsText
  import opened Dict
  import opened ExpenseModel
  import opened Folds
  import opened MonthQuery

  /**
   * `xs.reduce((acc, exp) => { acc[exp.category] = (acc[exp.category] || 0) + exp.amount; return acc }, {})`.
   */
  function Tally(xs: seq<Expense>): (r: Dict<int>)
    ensures |r| <= |xs|
  {
    if xs == [] then []
    else
      var init, e := Tally(xs[..|xs| - 1]), xs[|xs| - 1];
      BumpKeys(init, e);
      Bump(init, e)
  }

  /** One step of the reduction: add the record's amount to its category's entry. */
  function Bump(acc: Dict<int>, e: Expense): Dict<int> {
    Put(acc, e.category, GetOr(acc, e.category, 0) + e.amount)
  }

  /**
   * The tally has one entry per distinct category, in order of first
   * appearance; each entry totals the amounts of its category; the entries
   * together total all the amounts.
   */
  lemma TallyLaws(xs: seq<Expense>)
    ensures Keys(Tally(xs)) == Dedup(Categories(xs))
    ensures Distinct(Keys(Tally(xs)))
    ensures forall k :: GetOr(Tally(xs), k, 0) == Total(OfCategory(xs, k))
    ensures SumValues(Tally(xs)) == Total(xs)
  {
    TallyKeys(xs);
    TallyTotals(xs);
    TallySum(xs);
  }

  lemma {:induction false} TallyKeys(xs: seq<Expense>)
    ensures Keys(Tally(xs)) == Dedup(Categories(xs))
    ensures Distinct(Keys(Tally(xs)))
    decreases |xs|
  {
    if xs != [] {
      var init, e := xs[..|xs| - 1], xs[|xs| - 1];
      TallyKeys(init);
      BumpKeys(Tally(init), e);
      assert Categories(xs)[..|xs| - 1] == Categories(init);
    }
  }

  lemma {:induction false} TallyTotals(xs: seq<Expense>)
    ensures forall k :: GetOr(Tally(xs), k, 0) == Total(OfCategory(xs, k))
    decreases |xs|
  {
    if xs != [] {
      var init, e := xs[..|xs| - 1], xs[|xs| - 1];
      assert xs == init + [e];
      TallyTotals(init);
      TallySnoc(init, e);
      forall k ensures GetOr(Tally(xs), k, 0) == Total(OfCategory(xs, k)) {
        TallyTotalStep(init, e, k);
      }
    }
  }

  lemma TallyTotalStep(init: seq<Expense>, e: Expense, k: string)
    requires GetOr(Tally(init), k, 0) == Total(OfCategory(init, k))
    ensures GetOr(Bump(Tally(init), e), k, 0) == Total(OfCategory(init + [e], k))
  {
    BumpGet(Tally(init), e, k);
    OfCategorySnoc(init, e, k);
    if k == e.category {
      TotalSnoc(OfCategory(init, k), e);
    }
  }

  lemma {:induction false} TallySum(xs: seq<Expense>)
    ensures SumValues(Tally(xs)) == Total(xs)
    decreases |xs|
  {
    if xs != [] {
      var init, e := xs[..|xs| - 1], xs[|xs| - 1];
      TallySum(init);
      BumpSum(Tally(init), e);
    }
  }

  /** The tally of one more record is one more step. */
  lemma TallySnoc(xs: seq<Expense>, e: Expense)
    ensures Tally(xs + [e]) == Bump(Tally(xs), e)
  {
    assert (xs + [e])[..|xs|] == xs;
  }

  /** A step adds the record's category after the others when it is new, and keeps the keys distinct. */
  lemma BumpKeys(acc: Dict<int>, e: Expense)
    ensures Keys(Bump(acc, e)) == if e.category in Keys(acc) then Keys(acc) else Keys(acc) + [e.category]
    ensures Distinct(Keys(acc)) ==> Distinct(Keys(Bump(acc, e)))
  {
    PutKeys(acc, e.category, GetOr(acc, e.category, 0) + e.amount);
  }

  /** A step adds the record's amount to its own category's total and to no other. */
  lemma BumpGet(acc: Dict<int>, e: Expense, k: string)
    ensures GetOr(Bump(acc, e), k, 0) == GetOr(acc, k, 0) + (if k == e.category then e.amount else 0)
  {
    PutGet(acc, e.category, GetOr(acc, e.category, 0) + e.amount);
  }

  /** A step adds the record's amount to the sum of the totals. */
  lemma BumpSum(acc: Dict<int>, e: Expense)
    ensures SumValues(Bump(acc, e)) == SumValues(acc) + e.amount
  {
    SumValuesAdd(acc, e.category, e.amount);
  }

  /** The summary's JSON body; `categoryBreakdown` lists `{category, total}` pairs. */
  datatype Summary = Summary(totalIncome: int, totalExpenses: int, balance: int, categoryBreakdown: Dict<int>)

  /** The aggregation over the fetched records. */
  function Summarize(xs: seq<Expense>): (r: Summary)
    ensures r.balance == r.totalIncome - r.totalExpenses
  {
    var totalIncome := Total(OfKind(xs, IncomeType));
    var totalExpenses := Total(OfKind(xs, ExpenseType));
    Summary(totalIncome, totalExpenses, totalIncome - totalExpenses, Tally(OfKind(xs, ExpenseType)))
  }

  /**
   * Balance is income minus expenses; the breakdown totals sum to the expense
   * total; it has one entry per distinct category of the expense records, in
   * order of first appearance, each totalling that category's expense
   * amounts. Records of any other type count in no total.
   */
  lemma SummaryLaws(xs: seq<Expense>)
    ensures var s := Summarize(xs);
      && s.balance == s.totalIncome - s.totalExpenses
      && SumValues(s.categoryBreakdown) == s.totalExpenses
      && Keys(s.categoryBreakdown) == Dedup(Categories(OfKind(xs, ExpenseType)))
      && Distinct(Keys(s.categoryBreakdown))
      && (forall k :: GetOr(s.categoryBreakdown, k, 0) == Total(OfCategory(OfKind(xs, ExpenseType), k)))
  {
    TallyLaws(OfKind(xs, ExpenseType));
  }

  /** The breakdown names exactly the categories that some expense record has. */
  lemma BreakdownCategories(xs: seq<Expense>)
    ensures forall k :: k in Keys(Summarize(xs).categoryBreakdown) <==> exists e :: e in xs && e.kind == ExpenseType && e.category == k
  {
    var ys := OfKind(xs, ExpenseType);
    TallyKeys(ys);
    OfKindMembers(xs, ExpenseType);
    forall k ensures k in Dedup(Categories(ys)) <==> exists e :: e in xs && e.kind == ExpenseType && e.category == k {
      CategoryPresent(ys, k);
    }
  }

  lemma CategoryPresent(ys: seq<Expense>, k: string)
    ensures k in Categories(ys) <==> exists e :: e in ys && e.category == k
  {
    if k in Categories(ys) {
      var i :| 0 <= i < |ys| && Categories(ys)[i] == k;
      assert ys[i] in ys;
    }
    if exists e :: e in ys && e.category == k {
      var e :| e in ys && e.category == k;
      var i :| 0 <= i < |ys| && ys[i] == e;
      assert Categories(ys)[i] == k;
    }
  }

  const MissingMonthOrUser := "Missing 'month' or 'userId' query parameter."
  const InvalidMonthQuoted := "Invalid 'month' format. Use 'YYYY-MM'."

  /** The query `getMonthlySummary` runs: by owner and by the month's half-open window, both mandatory. */
  function SummaryQuery(month: Option<string>, userId: Option<string>): (r: Result<Query, string>)
    ensures !Truthy(month) || !Truthy(userId) ==> r == Failure(MissingMonthOrUser)
    ensures Truthy(month) && Truthy(userId) && ParseMonth(month.value).None? ==> r == Failure(InvalidMonthQuoted)
    ensures r.Success? <==> Truthy(month) && Truthy(userId) && ParseMonth(month.value).Some?
    ensures r.Success? ==>
      && r.value.owner == userId
      && r.value.window == Some(MonthWindow(ParseMonth(month.value).value.0, ParseMonth(month.value).value.1))
  {
    if !Truthy(month) || !Truthy(userId) then Failure(MissingMonthOrUser)
    else match ParseMonth(month.value)
      case None => Failure(InvalidMonthQuoted)
      case Some((y, m)) => Success(Query(userId, Some(MonthWindow(y, m)), Unordered))
  }

  /** `getMonthlySummary`: 400 on a missing or bad parameter, otherwise the summary of the query's result. */
  function GetMonthlySummary(month: Option<string>, userId: Option<string>, find: Query -> seq<Expense>): (r: Response<Summary>)
    ensures SummaryQuery(month, userId).Failure? ==> r == Fail(400, SummaryQuery(month, userId).error)
    ensures SummaryQuery(month, userId).Success? ==> r == Ok(200, Summarize(find(SummaryQuery(month, userId).value)))
  {
    match SummaryQuery(month, userId)
    case Failure(msg) => Fail(400, msg)
    case Success(q) => Ok(200, Summarize(find(q)))
  }
}
