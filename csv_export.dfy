/**
 * The controller's CSV export: the owner's records of the month, oldest
 * first, rendered as a header line and one line per record, fields joined
 * by ',' and lines by '\n', with no quoting or escaping.
 */
module CsvExport {
  import opened Wrappers
  import opened JsText
  import opened Calendar
  import opened ExpenseModel
  import opened MonthQuery

  const Header: seq<string> := ["Date", "Description", "Category", "Type", "Amount"]

  /** A record's row: its ISO date part, description, category, type and amount. */
  function Fields(e: Expense): (fs: seq<string>)
    ensures |fs| == 5
    ensures fs[0] == IsoDate(e.date.date) && fs[1] == e.description && fs[2] == e.category
    ensures fs[3] == e.kind && fs[4] == IntToString(e.amount)
  {
    [DatePart(e.date), e.description, e.category, e.kind, IntToString(e.amount)]
  }

  /** `row.join(',')`. */
  function Line(row: seq<string>): string {
    Join(row, ',')
  }

  /** The header row, then each record's row in list order. */
  function Table(xs: seq<Expense>): (t: seq<seq<string>>)
    ensures |t| == |xs| + 1
    ensures t[0] == Header
    ensures forall i :: 0 <= i < |xs| ==> t[i + 1] == Fields(xs[i])
  {
    var rows := seq(|xs|, i requires 0 <= i < |xs| => Fields(xs[i]));
    assert forall i :: 0 <= i < |xs| ==> ([Header] + rows)[i + 1] == rows[i];
    [Header] + rows
  }

  /** `.map(row => row.join(','))`. */
  function Lines(xs: seq<Expense>): (ls: seq<string>)
    ensures |ls| == |xs| + 1
  {
    var t := Table(xs);
    seq(|t|, i requires 0 <= i < |t| => Line(t[i]))
  }

  /** The header comes first, and line `i + 1` renders record `i`. */
  lemma LinesLayout(xs: seq<Expense>)
    ensures Lines(xs)[0] == Line(Header)
    ensures forall i :: 0 <= i < |xs| ==> Lines(xs)[i + 1] == Line(Fields(xs[i]))
  {
    HeaderFirst(xs);
    forall i | 0 <= i < |xs| ensures Lines(xs)[i + 1] == Line(Fields(xs[i])) {
      RowAt(xs, i);
    }
  }

  lemma HeaderFirst(xs: seq<Expense>)
    ensures Lines(xs)[0] == Line(Header)
  {
    assert Table(xs)[0] == Header;
  }

  lemma RowAt(xs: seq<Expense>, i: nat)
    requires i < |xs|
    ensures Lines(xs)[i + 1] == Line(Fields(xs[i]))
  {
    assert Table(xs)[i + 1] == Fields(xs[i]);
  }

  /** `csvContent`. */
  function Csv(xs: seq<Expense>): (c: string)
    ensures Occurrences(c, '\n') >= |xs|
  {
    OccurrencesJoin(Lines(xs), '\n');
    Join(Lines(xs), '\n')
  }

  /** No field that the record supplies holds a line break. */
  predicate SingleLine(e: Expense) {
    '\n' !in e.description && '\n' !in e.category && '\n' !in e.kind
  }

  /** No field that the record supplies holds a comma. */
  predicate CommaFree(e: Expense) {
    ',' !in e.description && ',' !in e.category && ',' !in e.kind
  }

  /** A record whose text fields hold no line break renders to a line without one. */
  lemma LineBreakFree(e: Expense)
    requires SingleLine(e)
    ensures '\n' !in Line(Fields(e))
  {
    var fs := Fields(e);
    assert forall i :: 0 <= i < |fs| ==> '\n' !in fs[i];
    JoinExcludes(fs, ',', '\n');
  }

  /**
   * When no text field holds a line break, splitting the CSV on '\n' gives
   * back the header line followed by each record's line, in the fetched order.
   */
  lemma CsvLines(xs: seq<Expense>)
    requires forall i :: 0 <= i < |xs| ==> SingleLine(xs[i])
    ensures Split(Csv(xs), '\n') == Lines(xs)
  {
    var ls := Lines(xs);
    LinesLayout(xs);
    HeaderLineBreakFree();
    forall i | 1 <= i < |ls| ensures '\n' !in ls[i] {
      LineBreakFree(xs[i - 1]);
    }
    SplitJoin(ls, '\n');
  }

  lemma HeaderLineBreakFree()
    ensures '\n' !in Line(Header)
  {
    assert forall j :: 0 <= j < |Header| ==> '\n' !in Header[j];
    JoinExcludes(Header, ',', '\n');
  }

  /** When no text field holds a comma, a record's line splits back into its five fields. */
  lemma LineFields(e: Expense)
    requires CommaFree(e)
    ensures Split(Line(Fields(e)), ',') == Fields(e)
  {
    var fs := Fields(e);
    assert forall i :: 0 <= i < |fs| ==> ',' !in fs[i];
    SplitJoin(fs, ',');
  }

  /** Fields are not escaped: every comma inside a text field adds a column to the line. */
  lemma LineColumns(e: Expense)
    ensures |Split(Line(Fields(e)), ',')|
            == 5 + Occurrences(e.description, ',') + Occurrences(e.category, ',') + Occurrences(e.kind, ',')
  {
    var fs := Fields(e);
    SplitCount(Line(fs), ',');
    OccurrencesJoin(fs, ',');
    OccurrencesAbsent(fs[0], ',');
    OccurrencesAbsent(fs[4], ',');
    var t := fs[1..][1..][1..][1..];
    assert t[1..] == [];
    assert OccurrencesIn(t, ',') == Occurrences(fs[4], ',');
    assert OccurrencesIn(fs[1..][1..][1..], ',') == Occurrences(e.kind, ',');
    assert OccurrencesIn(fs[1..][1..], ',') == Occurrences(e.category, ',') + Occurrences(e.kind, ',');
  }

  /** The query of the CSV export: the requester's records in the unchecked month window, oldest first. */
  function CsvQuery(month: Option<string>, requester: string): (r: Option<Query>)
    ensures r.Some? <==> month.Some? && UncheckedWindow(month.value).Some?
    ensures r.Some? ==> r.value == Query(Some(requester), UncheckedWindow(month.value), DateAscending)
  {
    if month.None? then None
    else match UncheckedWindow(month.value)
      case None => None
      case Some(w) => Some(Query(Some(requester), Some(w), DateAscending))
  }

  /**
   * `exportExpenses`: no month (the split of undefined throws) or a month with
   * a non-numeric part (an Invalid Date the query cannot cast) gives 500;
   * otherwise the CSV of the query's result.
   */
  function ExportExpenses(month: Option<string>, requester: string, find: Query -> seq<Expense>): (r: Response<string>)
    ensures CsvQuery(month, requester).None? ==> r == Fail(500, InternalError)
    ensures CsvQuery(month, requester).Some? ==> r == Ok(200, Csv(find(CsvQuery(month, requester).value)))
  {
    match CsvQuery(month, requester)
    case None => Fail(500, InternalError)
    case Some(q) => Ok(200, Csv(find(q)))
  }

  /** The month is not range-checked: "YYYY-13" exports January of the next year. */
  lemma CsvMonth13(y: nat)
    requires y >= 100
    ensures CsvQuery(Some(NatToString(y) + "-13"), "u").Some?
    ensures CsvQuery(Some(NatToString(y) + "-13"), "u").value.window
            == Some(HalfOpen(Midnight(Date(y + 1, 1, 1)), Midnight(Date(y + 1, 2, 1))))
  {
    var s := NatToString(y) + "-13";
    Month13Parts(y);
    assert UncheckedWindow(s) == Some(MonthWindow(y, 13));
    assert LocalDate(y, 12, 1) == Date(y + 1, 1, 1);
    assert LocalDate(y, 13, 1) == Date(y + 1, 2, 1);
  }
}
