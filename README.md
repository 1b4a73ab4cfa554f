# Expense tracker ledger core, in Dafny

This project models the ledger core of the Expense-Tracker-Server backend:
- the expense schema with its defaults and validators;
- how the `month` query parameter (`YYYY-MM`) becomes a date window, in the controller (checked, half-open) and in the router (unchecked, or pattern-checked and closed);
- the read handlers and the queries they issue;
- the controller's monthly summary, a `filter`/`reduce` fold;
- the router's monthly export, a `forEach` loop that updates its accumulators in place, modelled as a method with loop invariants and proved against a fold;
- the controller's CSV export;
- the add, update and delete handlers of both the controller and the router, over a store of records;
- the account handlers: register, login, profile update and currency update.

The database is a map from id to record inside a class (`LedgerStore.Ledger`, `UserTable.Users`). A read query's result is a parameter `find: Query -> seq<Expense>`, where a `Query` names:
- the owner filter;
- the date window;
- the requested order.

A JavaScript plain object used as a dictionary is an insertion-ordered list of entries (`Dict`). JavaScript's `split`, `join`, `Number` and `toISOString` are written out in `JsText` and `Calendar`.

Modules, one file each:
- `wrappers.dfy`: `Option`, `Result`, `Response`;
- `js_text.dfy`;
- `calendar.dfy`;
- `expense_model.dfy`;
- `dict.dfy`;
- `folds.dfy`;
- `month_query.dfy`;
- `monthly_summary.dfy`;
- `export_report.dfy`;
- `csv_export.dfy`;
- `ledger_store.dfy`;
- `user_table.dfy`.

Points of the code's behaviour that the model keeps as they are:
- `addExpense` answers 500 when validation fails.
- `register` does no field validation and answers 400 for a taken email.
- `updateProfile` changes only the name; it has no password change.
- The router's list and summary filter by month only, not by owner.

## Model

| member | source | states |
|---|---|---|
| Calendar.DaysInMonth | routes/expenses.js:77 | a month has 28 to 31 days, so the day before the first of the next month is a real day of this one |
| Calendar.LocalDate | controllers/expenseController.js:25-26 | `new Date(y, monthIndex, 1 or 0)` is always a real calendar date, the month index carrying into the year |
| Calendar.LocalDateOfMonth | routes/expenses.js:76-77 | for a month 1..12: index `m - 1` day 1 is the first of the month, index `m` day 1 the first of the next (December rolls to January of the next year), index `m` day 0 the last day of the month; years 0..99 read as 1900..1999 |
| Calendar.MonthSpanMembership | controllers/expenseController.js:28-31 | an instant lies in [first of the month, first of the next month) exactly when its date is in that month |
| Calendar.IsoDate | routes/expenses.js:105 | the `YYYY-MM-DD` text holds no comma, line break or `T` |
| Calendar.IsoTime | routes/expenses.js:134 | the time part of `toISOString` holds no `T` |
| Calendar.IsoString | routes/expenses.js:134 | `toISOString` starts with the ISO date of the instant's day followed by `T` |
| Calendar.DatePart | routes/expenses.js:105 | `toISOString().split('T')[0]` is exactly the ISO date of the instant's day |
| Calendar.IsoDateInjective | routes/expenses.js:105 | two days of years 0..9999 with the same date key are the same day |
| Calendar.IsoDateParts | routes/expenses.js:105 | the date key has 10 characters whose digit fields read back the year, month and day |
| JsText.Split | controllers/expenseController.js:19 | `split` yields at least one piece and no piece holds the separator |
| JsText.JoinSplit | controllers/expenseController.js:196 | joining the pieces of a split gives back the string |
| JsText.SplitJoin | controllers/expenseController.js:196 | splitting a join of separator-free pieces gives back the pieces |
| JsText.SplitCount | controllers/expenseController.js:196 | a split yields one piece more than there are separators |
| JsText.OccurrencesJoin | controllers/expenseController.js:196 | a join holds one separator between each two pieces, plus those inside the pieces |
| JsText.JoinExcludes | controllers/expenseController.js:196 | a character other than the separator is in a join only if it is in a piece |
| JsText.IntToString | controllers/expenseController.js:193 | a rendered amount holds no comma and no line break |
| JsText.JsNumber | controllers/expenseController.js:19 | `Number` of a piece is defined exactly when the piece is all decimal digits, and is then their value; the empty piece reads 0 |
| JsText.NatToStringRoundTrip | controllers/expenseController.js:19 | `Number` of a rendered natural number gives the number back |
| ExpenseModel.ParseCurrency | models/Expense.js:9-14 | a string names a currency exactly when it is one of the seven codes, and that currency's code is the string |
| ExpenseModel.WithDefaults | models/Expense.js:9-23 | currency becomes `USD` and date the current time, each only where undefined; a given currency or date is kept; no other path changes |
| ExpenseModel.Validate | models/Expense.js:3-35 | a document passes exactly when amount is present and at least 0, currency is one of the codes, category and description are non-empty, date is present and type is `expense` or `income`; what passes conforms and reads back as the same document |
| ExpenseModel.ValidateConforming | models/Expense.js:3-35 | a record that conforms passes validation again unchanged |
| Dict.GetDefined | controllers/expenseController.js:83 | `acc[k]` is defined exactly when `k` is one of the object's keys |
| Dict.PutKeys | controllers/expenseController.js:83 | after `acc[k] = v` an existing key keeps its place, a new key goes last, and the keys stay distinct |
| Dict.PutGet | controllers/expenseController.js:83 | after `acc[k] = v`, `acc[k]` reads `v` and every other key reads what it read before |
| Dict.PutTwice | routes/expenses.js:106-114 | writing a key twice leaves what writing it once with the second value leaves |
| Dict.SumValuesAdd | controllers/expenseController.js:83 | adding `a` to a key's value (0 when it is undefined) adds exactly `a` to the sum of the values |
| Dict.Dedup | controllers/expenseController.js:87-90 | the first occurrences of a list of keys are distinct and are exactly the keys of the list |
| Folds.OfKindMembers | controllers/expenseController.js:73 | `filter(exp => exp.type === kind)` keeps exactly the records of that type |
| Folds.ExcludingMembers | routes/expenses.js:100-101 | the export's else branch takes exactly the records of any other type |
| Folds.OfCategoryMembers | controllers/expenseController.js:83-84 | a category's records are exactly the records with that category |
| Folds.TotalSplits | routes/expenses.js:97-102 | every amount is counted once, among the records of a type or among the others |
| Folds.ExcludingExpenseIsIncome | routes/expenses.js:97-102 | when every type is `expense` or `income`, the records that are not `expense` are exactly the `income` ones |
| MonthQuery.MonthParts | controllers/expenseController.js:19 | `split('-').map(Number)`: a month without `-` gives only a year; a second number exists only when there is a `-` |
| MonthQuery.ParseMonth | controllers/expenseController.js:19-23 | a month is accepted exactly when the first two `-` pieces are numeric, the year is nonzero and the month is 1..12, and then it reads those numbers; a string without `-` is refused |
| MonthQuery.ParseFormatMonth | controllers/expenseController.js:19-23 | every `Y-MM` with a year of at least 1 and a month 1..12 is accepted, with that year and month |
| MonthQuery.MonthWindow | controllers/expenseController.js:25-26 | the window is half-open between midnights of two real calendar days |
| MonthQuery.MonthWindowSpan | controllers/expenseController.js:25-31 | the window of a valid month is half-open from the first of the month to the first of the next, and holds exactly the instants of that month |
| MonthQuery.GetExpensesQuery | controllers/expenseController.js:10-31 | no user id gives 400 `Missing userId`; a bad month gives 400; a user id with no month or an accepted month always gives a query, which filters by that owner, and by the month's window exactly when a month is given |
| MonthQuery.GetExpenses | controllers/expenseController.js:8-38 | a rejected request never reaches the database; otherwise the reply is the query's result |
| MonthQuery.UncheckedWindow | routes/expenses.js:12-17 | the router's window exists exactly when both `-` pieces are numbers, and it is the month window of those numbers |
| MonthQuery.RouteListQuery | routes/expenses.js:10-20 | the router's list query never filters by owner and sorts newest first; it has a window exactly when a month is given |
| MonthQuery.RouteList | routes/expenses.js:7-25 | the list is the query's result, or 500 when a piece of the month is not a number |
| MonthQuery.RouteListMonth13 | routes/expenses.js:13-16 | month 13 is not refused: it lists January of the next year |
| MonthQuery.ExportWindow | routes/expenses.js:75-85 | the export window is closed (`$gte` and `$lte`) |
| MonthQuery.MatchesMonthPattern | routes/expenses.js:69-70 | a month matching `^\d{4}-\d{2}$` has seven characters, a `-` at index 4, and two pieces that `Number` reads |
| MonthQuery.PatternParts | routes/expenses.js:69-75 | a month that matches `^\d{4}-\d{2}$` splits into its four-digit year and two-digit month |
| MonthQuery.ExportWindowOfMonth | routes/expenses.js:75-85 | for a month 01..12 the export window runs from midnight of the first to midnight of the last day |
| MonthQuery.ExportWindowDropsLastDay | routes/expenses.js:77-84 | as written, an instant just after midnight on the last day of the month is outside the export window |
| MonthQuery.ExportWindowMonth13 | routes/expenses.js:69-77 | as written, month 13 passes the pattern and exports January of the next year |
| MonthQuery.ExportWindowMonth00 | routes/expenses.js:69-77 | as written, month 00 passes the pattern and exports December of the previous year |
| MonthQuery.CorrectedExportWindow | routes/expenses.js:69-85 | the intended window exists exactly when the month matches the pattern and is accepted: a nonzero year and a month 01..12 |
| MonthQuery.CorrectedExportWindowAcceptsMonth | routes/expenses.js:69-85 | every month that matches the pattern, with a nonzero year and a month 01..12, gets the intended window: the half-open window of that month |
| MonthQuery.CorrectedExportWindowCoversMonth | routes/expenses.js:75-85 | the intended window holds exactly the instants of the named month, its last day included |
| MonthQuery.CorrectedExportWindowRejectsBadMonth | routes/expenses.js:69-72 | the intended window refuses months 00 and 13..99 |
| MonthlySummary.Tally | controllers/expenseController.js:80-85 | the reduction has at most one entry per record |
| MonthlySummary.TallyLaws | controllers/expenseController.js:80-85 | the category reduction has one entry per distinct category, in order of first appearance; each entry totals that category's amounts; the entries sum to the total amount |
| MonthlySummary.TallyKeys | controllers/expenseController.js:80-85 | the reduction's keys are the categories in order of first appearance, without repeats |
| MonthlySummary.TallyTotals | controllers/expenseController.js:80-85 | each category's entry is the total of that category's amounts, and an absent category reads 0 |
| MonthlySummary.TallySum | controllers/expenseController.js:80-85 | the entries sum to the total of all the amounts |
| MonthlySummary.Summarize | controllers/expenseController.js:72-97 | the reply's balance is its income total minus its expense total |
| MonthlySummary.SummaryLaws | controllers/expenseController.js:72-97 | balance is income minus expenses; the breakdown totals sum to the expense total; it has one entry per distinct expense category, in order of first appearance, each totalling that category's expense amounts |
| MonthlySummary.BreakdownCategories | controllers/expenseController.js:80-90 | the breakdown names a category exactly when some `expense` record has it; income records never appear |
| MonthlySummary.SummaryQuery | controllers/expenseController.js:50-70 | a missing month or user id gives 400; a bad month gives 400; there is a query exactly when both are given and the month is accepted, and it filters by that owner and the month's half-open window |
| MonthlySummary.GetMonthlySummary | controllers/expenseController.js:47-98 | a rejected request never reaches the database; otherwise the reply is the summary of the query's result |
| ExportReport.Daily | routes/expenses.js:104-121 | the daily breakdown has at most one entry per record |
| ExportReport.Expected | routes/expenses.js:96-122 | the summary the export promises carries the requester's currency and at most one day entry per record |
| ExportReport.OnDayMembers | routes/expenses.js:105-106 | a day's records are exactly the records whose date key is that day |
| ExportReport.Accumulate | routes/expenses.js:96-122 | the loop ends with the expense total, the total of every other record, the category totals of the expense records and the daily breakdown of the whole list |
| ExportReport.Visit | routes/expenses.js:96-121 | one iteration adds the record's amount to the expense total when its type is `expense` and to the income total otherwise; only an expense record changes the category totals; the daily breakdown takes one `DayStep` |
| ExportReport.AddToDay | routes/expenses.js:104-121 | one record's update of the daily breakdown creates the day's entry when it is missing and adds the amount and the transaction to it |
| ExportReport.PrefixStep | routes/expenses.js:96-122 | each iteration extends every accumulator by exactly the next record |
| ExportReport.TotalsConserved | routes/expenses.js:97-102 | expense total plus income total is the sum of all fetched amounts |
| ExportReport.CategoryBreakdownLaws | routes/expenses.js:99 | the category totals sum to the expense total; one entry per distinct expense category in order of first appearance, each its category's total |
| ExportReport.AgreesWithMonthlySummary | routes/expenses.js:96-102 | when every type is `expense` or `income`, the export's totals and breakdown equal the controller summary's |
| ExportReport.UnknownTypeCountsAsIncome | routes/expenses.js:97-102 | appending a record of any other type to any list adds its amount to the export's income and leaves the export's expense total and category totals, and the whole controller summary, unchanged |
| ExportReport.DailyKeys | routes/expenses.js:105-112 | the daily breakdown has one distinct entry per date key, in order of first appearance |
| ExportReport.DailyDays | routes/expenses.js:104-121 | each day's entry holds the expense total, the income total and the transactions, in fetch order, of exactly that day's records |
| ExportReport.DayConserved | routes/expenses.js:113 | each day's expenses plus income is the sum of that day's amounts |
| ExportReport.DailyTransactions | routes/expenses.js:114-121 | the days' transaction lists together hold exactly the fetched records, each once |
| ExportReport.ExportQuery | routes/expenses.js:80-85 | the export query has no owner filter, a closed window and sorts newest first |
| ExportReport.ExportedOf | routes/expenses.js:127-136 | an exported record carries the record's id, type, category, amount, currency and description, and its date and creation time as ISO strings starting with their days |
| ExportReport.ExportedList | routes/expenses.js:127-136 | the response's list has one exported record per fetched record, in fetch order |
| ExportReport.ExportMonthly | routes/expenses.js:60-137 | no month gives 400; a month that does not match the pattern gives 400; otherwise the month, the summary of every record in the window with the requester's currency, and the records |
| CsvExport.Fields | controllers/expenseController.js:188-194 | a record's row has five fields, in order: the ISO date of its day, description, category, type, and amount as text |
| CsvExport.Table | controllers/expenseController.js:186-194 | the rows are the header and then one per record, row `i + 1` holding record `i`'s fields |
| CsvExport.Lines | controllers/expenseController.js:196 | there is one line per row |
| CsvExport.Csv | controllers/expenseController.js:187-196 | the CSV text holds at least one line break per record: one between each two lines |
| CsvExport.LinesLayout | controllers/expenseController.js:186-196 | the header line comes first and line `i + 1` renders record `i` |
| CsvExport.LineBreakFree | controllers/expenseController.js:196 | a record whose text fields hold no line break renders to a line without one |
| CsvExport.CsvLines | controllers/expenseController.js:196 | when no text field holds a line break, splitting the CSV on `\n` gives back the header and each record's line, in fetch order |
| CsvExport.LineFields | controllers/expenseController.js:196 | when no text field holds a comma, a record's line splits back into its five fields |
| CsvExport.LineColumns | controllers/expenseController.js:196 | there is no escaping: each comma inside a text field adds one column to the line |
| CsvExport.CsvQuery | controllers/expenseController.js:172-184 | the CSV query filters by the requester and the unchecked month window and sorts oldest first; there is none without a month or with a non-numeric piece |
| CsvExport.ExportExpenses | controllers/expenseController.js:170-204 | no month or a non-numeric piece gives 500; otherwise the CSV of the query's result |
| CsvExport.CsvMonth13 | controllers/expenseController.js:173-176 | month 13 is not refused: the CSV covers January of the next year |
| LedgerStore.ControllerDraft | controllers/expenseController.js:106-115 | `addExpense` takes the five body fields, dates the record by the body or else the current time, and ignores the body's currency |
| LedgerStore.ControllerCreated | controllers/expenseController.js:106-120 | a saved record conforms to the schema, is in USD, and has the new id and the request time as creation time |
| LedgerStore.ControllerCreatedLaws | controllers/expenseController.js:108-120 | the record is saved exactly when amount, category, description and type pass the validators; it is in USD whatever the body says |
| LedgerStore.TruthyMerge | controllers/expenseController.js:139-143 | a field takes the body's value exactly when that value is truthy, and otherwise keeps the stored one (amount 0 or an empty string keeps it); a given date always replaces; currency, id and creation time are kept |
| LedgerStore.TruthyMergeIdempotent | controllers/expenseController.js:139-143 | merging the same body twice leaves what merging once leaves; an empty body changes nothing |
| LedgerStore.TruthyMergeAccepted | controllers/expenseController.js:139-146 | for a conforming stored record, the save fails exactly when a truthy new amount is negative or a truthy new type is not `expense` or `income` |
| LedgerStore.RouteDraft | routes/expenses.js:147-150 | the router's create takes every body field and the requester's currency |
| LedgerStore.RouteCreated | routes/expenses.js:147-151 | a created record conforms to the schema and has the new id and the request time as creation time |
| LedgerStore.RouteCreatedCurrency | routes/expenses.js:147-151 | the created record passes exactly when amount, category, description and type pass the validators, and carries the requester's currency whatever the body says |
| LedgerStore.RouteMerge | routes/expenses.js:161-168 | every field the body carries replaces the stored one, empty or not, and every field it omits keeps the stored one; the currency becomes the requester's; id and creation time are kept |
| LedgerStore.RouteMergeLaws | routes/expenses.js:161-168 | the router's update ignores the body's currency and is idempotent; an empty body changes only the currency |
| LedgerStore.RouteMergeSkipsValidation | routes/expenses.js:161-168 | without validators the update stores a negative amount, an empty description or an unknown type |
| LedgerStore.Ledger.AddExpense | controllers/expenseController.js:104-124 | 201 and exactly one new record under a fresh id, or 500 and nothing stored |
| LedgerStore.Ledger.UpdateExpense | controllers/expenseController.js:127-150 | an absent id gives 404 with nothing changed; a merge that fails validation gives 500 with nothing changed; otherwise exactly that record becomes the merge |
| LedgerStore.Ledger.DeleteExpense | controllers/expenseController.js:153-167 | an absent id gives 404 with nothing changed; otherwise exactly that record is removed and the others are untouched |
| LedgerStore.Ledger.Create | routes/expenses.js:145-156 | 201 and exactly one new record in the requester's currency, or 400 and nothing stored |
| LedgerStore.Ledger.Update | routes/expenses.js:159-173 | an absent id gives 200 with null and nothing changed; otherwise exactly that record becomes the unvalidated merge |
| LedgerStore.Ledger.Delete | routes/expenses.js:176-183 | always 200 `Expense deleted`; the record is removed if there was one |
| UserTable.FullReply | controllers/authController.js:29-35 | the reply carries the user's id, name, email, currency and a token for that user |
| UserTable.ProfileReply | controllers/authController.js:93-98 | the profile reply carries id, name, email and token, and no currency |
| UserTable.CheckCurrency | controllers/authController.js:114-117 | a currency is accepted exactly when it is one of the seven codes |
| UserTable.Users.EmailsUnique | controllers/authController.js:16-19 | no two users share an email |
| UserTable.Users.FindByEmail | controllers/authController.js:47 | the lookup finds a user exactly when some user has that email, and then it is that user |
| UserTable.Users.Register | controllers/authController.js:11-40 | a taken email gives 400 `User already exists` with nothing changed; otherwise 201 and exactly one new user with that name and email, and a reply with its currency |
| UserTable.Users.Login | controllers/authController.js:42-74 | an unknown email and a wrong password get the same 401 and message; a match gets that user's reply; nothing changes |
| UserTable.Users.UpdateProfile | controllers/authController.js:76-106 | an unknown user gives 404 with nothing changed; otherwise only that user's name changes, and the reply has no currency |
| UserTable.Users.UpdateCurrency | controllers/authController.js:108-142 | anything but the seven codes gives 400 before any lookup; an unknown user gives 404; otherwise only that user's currency changes; nothing changes on a failure |

## Left out

- Token signing and expiry, and password hashing and comparison, are foreign libraries. A token is a value naming its user, and the password check is a parameter of `Login`.
- The User schema (`models/User.js`) is not part of this model. A new account's currency is taken to default to USD, and its validators (required fields, email format, password length) are not modelled.
- Time zones are not modelled: local time and UTC are taken to be the same, so `new Date(y, m, d)` and `toISOString` agree on the calendar day.
- Amounts are integers; floating-point amounts are not modelled.
- `JsText.JsNumber`: reads only strings of decimal digits. JavaScript's `Number` also accepts signs, decimal points, exponents, surrounding whitespace and the radix prefixes `0x`, `0o` and `0b`, and reads `Infinity`. So `MonthQuery.ParseMonth` refuses months such as `2024-3.0` or `2024-0x3` that the code accepts, and `MonthQuery.UncheckedWindow` gives them no window.
- Integer-like object keys, which `Object.entries` lists before the others, and the key `__proto__` are not modelled. Categories and day keys are taken to be ordinary keys.
- `MonthlySummary.Tally`, `ExportReport.Accumulate`: inherited property names are not modelled. For a category named `constructor`, `toString` or `valueOf`, `acc[category] || 0` reads a function from `Object.prototype`, so the code's "total" becomes a string (controllers/expenseController.js:83, routes/expenses.js:99); the model adds the amount to 0.
- `MonthQuery.ParseMonth`, `MonthQuery.UncheckedWindow`, `MonthQuery.GetExpenses`, `MonthlySummary.GetMonthlySummary`: years are unbounded. A JavaScript `Date` is invalid beyond 8.64e15 ms from 1970 (after the year 275760), and `Number` loses precision above 2^53. For `month=300000-01` the code builds two Invalid Dates, and the model gives the year-300000 window instead:
  - The router's list (routes/expenses.js:13-23) and the CSV export (controllers/expenseController.js:173-184) pass the Invalid Dates to `find`, whose date cast fails, so the code answers 500.
  - The controller's list (controllers/expenseController.js:19-36) and its summary (controllers/expenseController.js:60-70) pass them to an aggregation, which is not cast. How the database matches an Invalid Date there is not modelled. Read without running it, the answer is 200 with an empty list or zero totals.
- Database internals are not modelled: query matching, sorting, and `ObjectId` casting of ids and user ids.
- The router's summary (routes/expenses.js:40-51) is not modelled. It is an aggregation that groups by category and sorts by total. Its `$match` stage is the month window with no owner filter, as in `MonthQuery.UncheckedWindow`. Aggregation stages are not cast, so the 500 that `MonthQuery.RouteList` gives for a non-numeric piece does not carry over to it.
- The database's answer to the controller's owner filter is not modelled. The schema has no `userId` path, so records carry no owner, and `find` stays abstract.
- `updatedAt` timestamps are not modelled; `createdAt` is the time of the request.
- The text of Mongoose validation and cast errors is not modelled, and neither are the `error` objects in 500 replies. Fixed constants stand in for them.
- A request body is a set of typed optional fields. JSON `null`, wrong-typed values and cast failures (which would give 400 or 500) are not modelled.
- `UserTable.Users.Register`: takes the name and the email as strings, so a body without them (controllers/authController.js:13, 22-26) cannot be expressed. The code would pass `undefined` on to the User schema, which is not part of this model.
- `UserTable.Users.UpdateProfile`: takes the name as a string, so a body without `name` (controllers/authController.js:78, 87) cannot be expressed. The code would set the name to `undefined` and leave the outcome to the User schema's validators.
- The `Content-Type` and `Content-Disposition` headers of the CSV export, and `console.error` logging, are not modelled.
- Generic 500 replies for exceptions the model cannot raise are not modelled: an invalid `ObjectId`, a database failure, and `User.create` failing.
- `ExportReport.DailyTransactions`: states that the days' lists together hold the fetched records as a multiset, not one global order. The per-day fetch order is stated by `ExportReport.DailyDays`.
- `ExportReport.ExportMonthly`: models the code as written. It uses the closed window of `MonthQuery.ExportWindow`, not `MonthQuery.CorrectedExportWindow`.

## Findings

| source | as written | input that shows it | evidently intended | confidence | as-written member | corrected member |
|---|---|---|---|---|---|---|
| routes/expenses.js:77-84 | the end of the export window is `new Date(year, monthNum, 0)`, midnight at the start of the last day, compared with `$lte` | month `2024-03` and a record dated 2024-03-31 at 00:00:00.001 | the window covers the whole month, up to the first of the next month exclusive | high, not executed | MonthQuery.ExportWindowDropsLastDay | MonthQuery.CorrectedExportWindowCoversMonth |
| routes/expenses.js:69-77 | the pattern `^\d{4}-\d{2}$` is the only check on the month | month `2024-13` exports January 2025; `2024-00` exports December 2023 | months outside 01..12 are refused with 400 | high, not executed | MonthQuery.ExportWindowMonth13 | MonthQuery.CorrectedExportWindowRejectsBadMonth |
