/**
 * The Expense schema: the stored record, the currency and type enumerations,
 * the defaults filled in on creation and the validators run on save.
 * The schema has no owner path, so an owner id handed to the constructor is
 * not stored.
 */
module ExpenseModel {
  import opened Wrappers
  import opened Calendar

  datatype Currency = USD | EUR | GBP | JPY | INR | AUD | CAD

  /** The seven currency codes, in the order the schema lists them. */
  const CurrencyCodes: seq<string> := ["USD", "EUR", "GBP", "JPY", "INR", "AUD", "CAD"]

  function Code(c: Currency): string {
    match c
    case USD => "USD"
    case EUR => "EUR"
    case GBP => "GBP"
    case JPY => "JPY"
    case INR => "INR"
    case AUD => "AUD"
    case CAD => "CAD"
  }

  /** The enum check: a string names a currency exactly when it is one of the seven codes. */
  function ParseCurrency(s: string): (r: Option<Currency>)
    ensures r.Some? <==> s in CurrencyCodes
    ensures r.Some? ==> Code(r.value) == s
  {
    if s == "USD" then Some(USD)
    else if s == "EUR" then Some(EUR)
    else if s == "GBP" then Some(GBP)
    else if s == "JPY" then Some(JPY)
    else if s == "INR" then Some(INR)
    else if s == "AUD" then Some(AUD)
    else if s == "CAD" then Some(CAD)
    else None
  }

  const ExpenseType := "expense"
  const IncomeType := "income"
  const TypeValues: seq<string> := [ExpenseType, IncomeType]

  /**
   * A stored record. `kind` is the `type` path; it is a string because an
   * update that skips the validators can store any string there.
   */
  datatype Expense = Expense(
    id: nat,
    amount: int,
    currency: Currency,
    category: string,
    date: Instant,
    description: string,
    kind: string,
    createdAt: Instant)

  /** What the schema's validators accept of a stored record. */
  predicate Conforms(e: Expense) {
    e.amount >= 0 && e.category != "" && e.description != "" && e.kind in TypeValues
  }

  /** A document before validation: each path may be undefined (None). */
  datatype Draft = Draft(
    amount: Option<int>,
    currency: Option<string>,
    category: Option<string>,
    date: Option<Instant>,
    description: Option<string>,
    kind: Option<string>)

  /** The defaults: `currency` becomes 'USD' and `date` the current time, each only where undefined. */
  function WithDefaults(d: Draft, now: Instant): (r: Draft)
    ensures r.currency.Some? && r.date.Some?
    ensures d.currency.None? ==> r.currency == Some("USD")
    ensures d.date.None? ==> r.date == Some(now)
    ensures d.currency.Some? ==> r.currency == d.currency
    ensures d.date.Some? ==> r.date == d.date
    ensures r.(currency := d.currency, date := d.date) == d
    ensures d.currency.Some? && d.date.Some? ==> r == d
  {
    d.(currency := Some(d.currency.GetOr("USD")), date := Some(d.date.GetOr(now)))
  }

  /** A required string path rejects undefined and the empty string. */
  predicate RequiredString(o: Option<string>) {
    o.Some? && o.value != ""
  }

  /**
   * The validators run on save: amount required and at least 0, currency
   * required and in the enum, category and description required, date
   * required, type required and in the enum. A draft that passes becomes a
   * record with the given id and creation time.
   */
  function Validate(d: Draft, id: nat, createdAt: Instant): (r: Option<Expense>)
    ensures r.Some? <==>
      && d.amount.Some? && d.amount.value >= 0
      && d.currency.Some? && d.currency.value in CurrencyCodes
      && RequiredString(d.category)
      && d.date.Some?
      && RequiredString(d.description)
      && d.kind.Some? && d.kind.value in TypeValues
    ensures r.Some? ==> Conforms(r.value) && DraftOf(r.value) == d
    ensures r.Some? ==> r.value.id == id && r.value.createdAt == createdAt
  {
    if && d.amount.Some? && d.amount.value >= 0
       && d.currency.Some? && ParseCurrency(d.currency.value).Some?
       && RequiredString(d.category)
       && d.date.Some?
       && RequiredString(d.description)
       && d.kind.Some? && d.kind.value in TypeValues
    then
      Some(Expense(id, d.amount.value, ParseCurrency(d.currency.value).value, d.category.value,
                   d.date.value, d.description.value, d.kind.value, createdAt))
    else None
  }

  /** The record's paths as a document. */
  function DraftOf(e: Expense): Draft {
    Draft(Some(e.amount), Some(Code(e.currency)), Some(e.category), Some(e.date), Some(e.description), Some(e.kind))
  }

  /** A record that conforms passes validation again unchanged. */
  lemma ValidateConforming(e: Expense)
    requires Conforms(e)
    ensures Validate(DraftOf(e), e.id, e.createdAt) == Some(e)
  {
    assert ParseCurrency(Code(e.currency)) == Some(e.currency) by {
      match e.currency
      case USD =>
      case EUR =>
      case GBP =>
      case JPY =>
      case INR =>
      case AUD =>
      case CAD =>
    }
  }
}
