/**
 * Left-to-right folds over a fetched list of records: the `filter` and
 * `reduce((sum, exp) => sum + exp.amount, 0)` steps the summaries are built from.
 */
module Folds {
  import opened ExpenseModel

  /** The sum of the amounts. */
  function Total(xs: seq<Expense>): int {
    if xs == [] then 0 else Total(xs[..|xs| - 1]) + xs[|xs| - 1].amount
  }

  /** `xs.filter(exp => exp.type === kind)`. */
  function OfKind(xs: seq<Expense>, kind: string): (r: seq<Expense>)
    ensures |r| <= |xs|
  {
    if xs == [] then []
    else
      var init := OfKind(xs[..|xs| - 1], kind);
      if xs[|xs| - 1].kind == kind then init + [xs[|xs| - 1]] else init
  }

  /** The records whose type is not `kind`. */
  function Excluding(xs: seq<Expense>, kind: string): (r: seq<Expense>)
    ensures |r| <= |xs|
  {
    if xs == [] then []
    else
      var init := Excluding(xs[..|xs| - 1], kind);
      if xs[|xs| - 1].kind != kind then init + [xs[|xs| - 1]] else init
  }

  /** The records of one category. */
  function OfCategory(xs: seq<Expense>, category: string): (r: seq<Expense>)
    ensures |r| <= |xs|
  {
    if xs == [] then []
    else
      var init := OfCategory(xs[..|xs| - 1], category);
      if xs[|xs| - 1].category == category then init + [xs[|xs| - 1]] else init
  }

  /** The filter keeps exactly the records of type `kind`. */
  lemma {:induction false} OfKindMembers(xs: seq<Expense>, kind: string)
    ensures forall e :: e in OfKind(xs, kind) <==> e in xs && e.kind == kind
    decreases |xs|
  {
    if xs != [] {
      var init, last := xs[..|xs| - 1], xs[|xs| - 1];
      assert xs == init + [last];
      OfKindMembers(init, kind);
    }
  }

  /** The complement keeps exactly the records of any other type. */
  lemma {:induction false} ExcludingMembers(xs: seq<Expense>, kind: string)
    ensures forall e :: e in Excluding(xs, kind) <==> e in xs && e.kind != kind
    decreases |xs|
  {
    if xs != [] {
      var init, last := xs[..|xs| - 1], xs[|xs| - 1];
      assert xs == init + [last];
      ExcludingMembers(init, kind);
    }
  }

  /** The category filter keeps exactly the records of that category. */
  lemma {:induction false} OfCategoryMembers(xs: seq<Expense>, category: string)
    ensures forall e :: e in OfCategory(xs, category) <==> e in xs && e.category == category
    decreases |xs|
  {
    if xs != [] {
      var init, last := xs[..|xs| - 1], xs[|xs| - 1];
      assert xs == init + [last];
      OfCategoryMembers(init, category);
    }
  }

  /** The category of each record, in list order. */
  function Categories(xs: seq<Expense>): (cs: seq<string>)
    ensures |cs| == |xs| && forall i :: 0 <= i < |xs| ==> cs[i] == xs[i].category
  {
    if xs == [] then [] else Categories(xs[..|xs| - 1]) + [xs[|xs| - 1].category]
  }

  /** Each record's amount is counted once: in the records of `kind` or in the others. */
  lemma {:induction false} TotalSplits(xs: seq<Expense>, kind: string)
    ensures Total(xs) == Total(OfKind(xs, kind)) + Total(Excluding(xs, kind))
    decreases |xs|
  {
    if xs != [] {
      var init, last := xs[..|xs| - 1], xs[|xs| - 1];
      TotalSplits(init, kind);
      TotalSnoc(OfKind(init, kind), last);
      TotalSnoc(Excluding(init, kind), last);
    }
  }

  lemma TotalSnoc(xs: seq<Expense>, x: Expense)
    ensures Total(xs + [x]) == Total(xs) + x.amount
  {
    assert (xs + [x])[..|xs|] == xs;
  }

  lemma OfKindSnoc(xs: seq<Expense>, x: Expense, kind: string)
    ensures OfKind(xs + [x], kind) == if x.kind == kind then OfKind(xs, kind) + [x] else OfKind(xs, kind)
  {
    assert (xs + [x])[..|xs|] == xs;
  }

  lemma ExcludingSnoc(xs: seq<Expense>, x: Expense, kind: string)
    ensures Excluding(xs + [x], kind) == if x.kind != kind then Excluding(xs, kind) + [x] else Excluding(xs, kind)
  {
    assert (xs + [x])[..|xs|] == xs;
  }

  lemma OfCategorySnoc(xs: seq<Expense>, x: Expense, category: string)
    ensures OfCategory(xs + [x], category) == if x.category == category then OfCategory(xs, category) + [x] else OfCategory(xs, category)
  {
    assert (xs + [x])[..|xs|] == xs;
  }

  /** When every type is `expense` or `income`, the records that are not `expense` are exactly the `income` ones. */
  lemma {:induction false} ExcludingExpenseIsIncome(xs: seq<Expense>)
    requires forall i :: 0 <= i < |xs| ==> xs[i].kind in TypeValues
    ensures Excluding(xs, ExpenseType) == OfKind(xs, IncomeType)
    decreases |xs|
  {
    if xs != [] {
      ExcludingExpenseIsIncome(xs[..|xs| - 1]);
    }
  }
}
