/**
 * The store of expense records and the two sets of handlers that change it:
 * the controller's (a 404 for an absent id, fields merged by truthiness,
 * validators run on save) and the router's (currency forced to the
 * requester's, updates that skip the validators, success whatever the id).
 * The database is a map from id to record.
 */
module LedgerStore {
  import opened Wrappers
  import opened JsText
  import opened Calendar
  import opened ExpenseModel
  import opened MonthQuery

  /** The fields of a request body; None is a field the body does not carry. */
  datatype Body = Body(
    description: Option<string>,
    amount: Option<int>,
    category: Option<string>,
    date: Option<Instant>,
    kind: Option<string>,
    currency: Option<string>)

  const NoFields := Body(None, None, None, None, None, None)

  // ---- the controller ----

  /**
   * The document `addExpense` builds: the five destructured fields, the date
   * falling back to the current time; the body's currency is not read, so
   * the schema default applies.
   */
  function ControllerDraft(b: Body, now: Instant): (d: Draft)
    ensures d.currency.None?
    ensures d.date == Some(if b.date.Some? then b.date.value else now)
    ensures d.amount == b.amount && d.category == b.category && d.description == b.description && d.kind == b.kind
  {
    Draft(b.amount, None, b.category, Some(b.date.GetOr(now)), b.description, b.kind)
  }

  /** What `addExpense` saves: the draft with the defaults, validated. */
  function ControllerCreated(b: Body, id: nat, now: Instant): (r: Option<Expense>)
    ensures r.Some? ==> Conforms(r.value) && r.value.id == id && r.value.createdAt == now
    ensures r.Some? ==> r.value.currency == USD
  {
    Validate(WithDefaults(ControllerDraft(b, now), now), id, now)
  }

  /**
   * The record `addExpense` saves is stored in US dollars whatever the body
   * says, dated by the body or else by the time of the request, and is saved
   * exactly when the five fields pass the validators.
   */
  lemma ControllerCreatedLaws(b: Body, id: nat, now: Instant)
    ensures ControllerCreated(b, id, now).Some? <==>
      && b.amount.Some? && b.amount.value >= 0
      && RequiredString(b.category) && RequiredString(b.description)
      && b.kind.Some? && b.kind.value in TypeValues
    ensures ControllerCreated(b, id, now).Some? ==>
      var e := ControllerCreated(b, id, now).value;
      && e.currency == USD && e.date == b.date.GetOr(now) && e.createdAt == now && e.id == id
      && e.amount == b.amount.value && e.category == b.category.value
      && e.description == b.description.value && e.kind == b.kind.value
  {
    var d := WithDefaults(ControllerDraft(b, now), now);
    assert d.currency == Some("USD");
    if ControllerCreated(b, id, now).Some? {
      var e := ControllerCreated(b, id, now).value;
      assert Code(e.currency) == "USD";
      assert ParseCurrency("USD") == Some(USD);
    }
  }

  /**
   * `expense.x = x || expense.x` for the five fields: a field changes only to
   * a truthy new value, so an amount of 0 or an empty string keeps the stored
   * value; currency, id and creation time are kept.
   */
  function TruthyMerge(stored: Expense, b: Body): (m: Expense)
    ensures m.id == stored.id && m.currency == stored.currency && m.createdAt == stored.createdAt
    ensures m.amount != stored.amount ==> TruthyNumber(b.amount) && m.amount == b.amount.value
    ensures b.amount == Some(0) ==> m.amount == stored.amount
    ensures m.description != stored.description ==> Truthy(b.description) && m.description == b.description.value
    ensures b.description == Some("") ==> m.description == stored.description
    ensures m.category != stored.category ==> Truthy(b.category) && m.category == b.category.value
    ensures m.kind != stored.kind ==> Truthy(b.kind) && m.kind == b.kind.value
    ensures m.date != stored.date ==> b.date.Some? && m.date == b.date.value
    ensures TruthyNumber(b.amount) ==> m.amount == b.amount.value
    ensures Truthy(b.description) ==> m.description == b.description.value
    ensures Truthy(b.category) ==> m.category == b.category.value
    ensures Truthy(b.kind) ==> m.kind == b.kind.value
    ensures b.date.Some? ==> m.date == b.date.value
  {
    stored.(
      description := if Truthy(b.description) then b.description.value else stored.description,
      amount := if TruthyNumber(b.amount) then b.amount.value else stored.amount,
      category := if Truthy(b.category) then b.category.value else stored.category,
      date := if b.date.Some? then b.date.value else stored.date,
      kind := if Truthy(b.kind) then b.kind.value else stored.kind)
  }

  /** Merging the same body twice leaves what merging it once leaves; an empty body changes nothing. */
  lemma TruthyMergeIdempotent(stored: Expense, b: Body)
    ensures TruthyMerge(TruthyMerge(stored, b), b) == TruthyMerge(stored, b)
    ensures TruthyMerge(stored, NoFields) == stored
  {
  }

  /**
   * For a stored record that conforms, the save after the merge fails
   * exactly when a truthy new amount is negative or a truthy new type is
   * neither `expense` nor `income`: an empty description or category can
   * never make it fail, because it is not taken.
   */
  lemma TruthyMergeAccepted(stored: Expense, b: Body)
    requires Conforms(stored)
    ensures Validate(DraftOf(TruthyMerge(stored, b)), stored.id, stored.createdAt).Some? <==>
      && (TruthyNumber(b.amount) ==> b.amount.value >= 0)
      && (Truthy(b.kind) ==> b.kind.value in TypeValues)
  {
    var m := TruthyMerge(stored, b);
    assert Code(m.currency) in CurrencyCodes by {
      match m.currency
      case USD =>
      case EUR =>
      case GBP =>
      case JPY =>
      case INR =>
      case AUD =>
      case CAD =>
    }
  }

  // ---- the router ----

  /** `new Expense({...req.body, currency: req.user.currency})`: every body field, the currency overridden. */
  function RouteDraft(b: Body, currency: Currency): (d: Draft)
    ensures d.currency == Some(Code(currency))
    ensures d.amount == b.amount && d.category == b.category && d.date == b.date
    ensures d.description == b.description && d.kind == b.kind
  {
    Draft(b.amount, Some(Code(currency)), b.category, b.date, b.description, b.kind)
  }

  /** What the route's create saves: the draft with the defaults, validated. */
  function RouteCreated(b: Body, currency: Currency, id: nat, now: Instant): (r: Option<Expense>)
    ensures r.Some? ==> Conforms(r.value) && r.value.id == id && r.value.createdAt == now
  {
    Validate(WithDefaults(RouteDraft(b, currency), now), id, now)
  }

  /** The record the route creates carries the requester's currency, whatever the body says. */
  lemma RouteCreatedCurrency(b: Body, currency: Currency, id: nat, now: Instant)
    ensures RouteCreated(b, currency, id, now).Some? <==>
      && b.amount.Some? && b.amount.value >= 0
      && RequiredString(b.category) && RequiredString(b.description)
      && b.kind.Some? && b.kind.value in TypeValues
    ensures RouteCreated(b, currency, id, now).Some? ==>
      && RouteCreated(b, currency, id, now).value.currency == currency
      && RouteCreated(b, currency, id, now).value.date == b.date.GetOr(now)
    ensures RouteCreated(b.(currency := None), currency, id, now) == RouteCreated(b, currency, id, now)
  {
    var d := WithDefaults(RouteDraft(b, currency), now);
    assert d == RouteDraft(b, currency).(date := Some(b.date.GetOr(now)));
    CodeInCodes(currency);
    if RouteCreated(b, currency, id, now).Some? {
      CodeParses(currency);
    }
  }

  lemma CodeInCodes(c: Currency)
    ensures Code(c) in CurrencyCodes
  {
    match c
    case USD =>
    case EUR =>
    case GBP =>
    case JPY =>
    case INR =>
    case AUD =>
    case CAD =>
  }

  lemma CodeParses(c: Currency)
    ensures ParseCurrency(Code(c)) == Some(c)
  {
    match c
    case USD =>
    case EUR =>
    case GBP =>
    case JPY =>
    case INR =>
    case AUD =>
    case CAD =>
  }

  /**
   * `findByIdAndUpdate(id, {...req.body, currency})`: each field the body
   * carries replaces the stored one, empty or not, and the currency becomes
   * the requester's whatever the body says; id and creation time are kept.
   * No validator runs.
   */
  function RouteMerge(stored: Expense, b: Body, currency: Currency): (m: Expense)
    ensures m.currency == currency && m.id == stored.id && m.createdAt == stored.createdAt
    ensures b.amount.Some? ==> m.amount == b.amount.value
    ensures b.description.Some? ==> m.description == b.description.value
    ensures b.category.Some? ==> m.category == b.category.value
    ensures b.kind.Some? ==> m.kind == b.kind.value
    ensures b.date.Some? ==> m.date == b.date.value
    ensures b.amount.None? ==> m.amount == stored.amount
    ensures b.description.None? ==> m.description == stored.description
    ensures b.category.None? ==> m.category == stored.category
    ensures b.kind.None? ==> m.kind == stored.kind
    ensures b.date.None? ==> m.date == stored.date
  {
    stored.(
      description := b.description.GetOr(stored.description),
      amount := b.amount.GetOr(stored.amount),
      category := b.category.GetOr(stored.category),
      date := b.date.GetOr(stored.date),
      kind := b.kind.GetOr(stored.kind),
      currency := currency)
  }

  /**
   * The route's update ignores the body's currency and is idempotent; an
   * empty body changes the currency only.
   */
  lemma RouteMergeLaws(stored: Expense, b: Body, currency: Currency)
    ensures RouteMerge(RouteMerge(stored, b, currency), b, currency) == RouteMerge(stored, b, currency)
    ensures RouteMerge(stored, b.(currency := None), currency) == RouteMerge(stored, b, currency)
    ensures RouteMerge(stored, NoFields, currency) == stored.(currency := currency)
  {
  }

  /** Without validators the route's update stores what the schema forbids: a negative amount, an empty description, an unknown type. */
  lemma RouteMergeSkipsValidation(stored: Expense, currency: Currency)
    ensures !Conforms(RouteMerge(stored, NoFields.(amount := Some(-5)), currency))
    ensures !Conforms(RouteMerge(stored, NoFields.(description := Some("")), currency))
    ensures !Conforms(RouteMerge(stored, NoFields.(kind := Some("refund")), currency))
  {
  }

  const ExpenseNotFound := "Expense not found"
  const ExpenseDeletedSuccessfully := "Expense deleted successfully"
  const ExpenseDeleted := "Expense deleted"
  /** A validation error from a save; its full text is not modelled. */
  const ValidationFailed := "Expense validation failed"

  /**
   * The expense collection. `records` maps each id to its record; `nextId`
   * is above every id in use, so a new record never replaces one.
   */
  class Ledger {
    var records: map<nat, Expense>
    var nextId: nat

    predicate Valid()
      reads this
    {
      forall id :: id in records ==> id < nextId && records[id].id == id
    }

    constructor()
      ensures Valid() && records == map[] && nextId == 0
    {
      records := map[];
      nextId := 0;
    }

    /** Stores a new record under a fresh id. */
    method Insert(e: Expense)
      requires Valid() && e.id == nextId
      modifies this
      ensures Valid()
      ensures records == old(records)[e.id := e] && e.id !in old(records)
      ensures nextId == old(nextId) + 1
    {
      records := records[e.id := e];
      nextId := nextId + 1;
    }

    /** `addExpense`: 201 with the saved record, or 500 when validation fails and nothing is stored. */
    method AddExpense(b: Body, now: Instant) returns (r: Response<Expense>)
      requires Valid()
      modifies this
      ensures Valid()
      ensures ControllerCreated(b, old(nextId), now).None? ==>
        r == Fail(500, InternalError) && records == old(records) && nextId == old(nextId)
      ensures ControllerCreated(b, old(nextId), now).Some? ==>
        var e := ControllerCreated(b, old(nextId), now).value;
        && r == Ok(201, e) && e.id !in old(records) && records == old(records)[e.id := e]
    {
      match ControllerCreated(b, nextId, now)
      case None =>
        r := Fail(500, InternalError);
      case Some(e) =>
        Insert(e);
        r := Ok(201, e);
    }

    /**
     * `updateExpense`: 404 and nothing changed when the id is absent; 500 and
     * nothing changed when the merged record fails validation; otherwise the
     * merged record replaces that one record and no other.
     */
    method UpdateExpense(id: nat, b: Body) returns (r: Response<Expense>)
      requires Valid()
      modifies this
      ensures Valid() && nextId == old(nextId)
      ensures id !in old(records) ==> r == Fail(404, ExpenseNotFound) && records == old(records)
      ensures id in old(records) ==>
        var m := TruthyMerge(old(records)[id], b);
        if Validate(DraftOf(m), id, m.createdAt).Some?
        then r == Ok(200, m) && records == old(records)[id := m]
        else r == Fail(500, InternalError) && records == old(records)
    {
      if id !in records {
        return Fail(404, ExpenseNotFound);
      }
      var m := TruthyMerge(records[id], b);
      if Validate(DraftOf(m), id, m.createdAt).Some? {
        records := records[id := m];
        r := Ok(200, m);
      } else {
        r := Fail(500, InternalError);
      }
    }

    /** `deleteExpense`: 404 when the id is absent; otherwise exactly that record is removed. */
    method DeleteExpense(id: nat) returns (r: Response<string>)
      requires Valid()
      modifies this
      ensures Valid() && nextId == old(nextId)
      ensures id !in old(records) ==> r == Fail(404, ExpenseNotFound) && records == old(records)
      ensures id in old(records) ==> r == Ok(200, ExpenseDeletedSuccessfully) && records == old(records) - {id}
    {
      if id !in records {
        return Fail(404, ExpenseNotFound);
      }
      records := records - {id};
      r := Ok(200, ExpenseDeletedSuccessfully);
    }

    /** The route's create: 201 with a record in the requester's currency, or 400 and nothing stored. */
    method Create(b: Body, currency: Currency, now: Instant) returns (r: Response<Expense>)
      requires Valid()
      modifies this
      ensures Valid()
      ensures RouteCreated(b, currency, old(nextId), now).None? ==>
        r == Fail(400, ValidationFailed) && records == old(records) && nextId == old(nextId)
      ensures RouteCreated(b, currency, old(nextId), now).Some? ==>
        var e := RouteCreated(b, currency, old(nextId), now).value;
        && r == Ok(201, e) && e.id !in old(records) && records == old(records)[e.id := e]
    {
      match RouteCreated(b, currency, nextId, now)
      case None =>
        r := Fail(400, ValidationFailed);
      case Some(e) =>
        Insert(e);
        r := Ok(201, e);
    }

    /**
     * The route's update: an absent id answers 200 with null and changes
     * nothing; otherwise the merged record, unvalidated, replaces that one.
     */
    method Update(id: nat, b: Body, currency: Currency) returns (r: Response<Option<Expense>>)
      requires Valid()
      modifies this
      ensures Valid() && nextId == old(nextId)
      ensures id !in old(records) ==> r == Ok(200, None) && records == old(records)
      ensures id in old(records) ==>
        var m := RouteMerge(old(records)[id], b, currency);
        r == Ok(200, Some(m)) && records == old(records)[id := m]
    {
      if id !in records {
        return Ok(200, None);
      }
      var m := RouteMerge(records[id], b, currency);
      records := records[id := m];
      r := Ok(200, Some(m));
    }

    /** The route's delete: removes the record if there is one, and reports success either way. */
    method Delete(id: nat) returns (r: Response<string>)
      requires Valid()
      modifies this
      ensures Valid() && nextId == old(nextId)
      ensures r == Ok(200, ExpenseDeleted) && records == old(records) - {id}
    {
      records := records - {id};
      r := Ok(200, ExpenseDeleted);
    }
  }
}
