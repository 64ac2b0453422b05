# Expense tracker: a Dafny model

This project models the logic of a small in-memory expense-tracking service
(`app.js`). The service keeps a list of expense records and three lists of
report snapshots: daily, weekly and monthly. Its handlers do four things:

- create an expense after a presence check on `category`, `amount` and `date`;
- return the report list of a named type;
- aggregate all expenses into per-category totals and a grand total;
- generate a report over the expenses dated in a period window, and append it
  to that period's list.

Files and modules:

- `records.dfy` (`Records`): request bodies with JavaScript truthiness, expense
  records, periods, summaries, report snapshots, and the error and result types.
- `aggregate.dfy` (`Aggregate`): the two left folds. `TotalByCategory` groups
  amounts by category and `TotalAmount` sums them. The file also defines the
  reference definitions the folds are proved against: `OfCategory`, and
  `SumValues`, the sum of a map's values.
- `window.dfy` (`Window`): the inclusive date window and the order-preserving
  `filter` pass.
- `service.dfy` (`Service`): the `Tracker` class. Its fields `expenses`,
  `daily`, `weekly` and `monthly` are reassigned by `AddExpense` and
  `GenerateReport`, which is how the model treats the source's `push`. It also
  has the read-only handlers `GetReports` and `Analyze`. `Tracker.Valid()`
  states three invariants that every mutation keeps: ids are 1..n in insertion
  order, every report sits in its own period's list, and the category totals
  of every report add up to its grand total.
- `object_fold.dfy` (`PlainObjectFold`): the category fold as written, on a
  plain JavaScript object. See Findings.

Amounts are exact reals and dates are integer timestamps. The clock readings
(`now`, the window start, `generatedAt`) and the two parsers (`parseFloat`,
`new Date`) are parameters.

In two places the service's intended contract differs from its code, and the model follows the code (a third, where the model follows the intent, is under "## Findings"):

- Create handler (`app.js:22`): the code checks only JavaScript truthiness.
  The number `0` and the empty string are refused. The text `"0"` and any
  unparseable text are accepted. No check is made that the amount is finite or
  that the date is valid.
- Report generator (`app.js:132`): `generatedAt` is a second clock reading. It
  is not the `now` that bounds the window, so the model takes it as its own
  parameter.

## Model

| member | source | states |
|---|---|---|
| `Service.HasRequiredFields` | app.js:22 | The presence check holds iff the category is non-empty and neither the amount nor the date is one of JavaScript's falsy values (undefined, null, false, 0, the empty string). Objects and arrays pass. |
| `Service.NewExpense` | app.js:20-34 | The request succeeds iff `category`, `amount` and `date` are all truthy. Otherwise the result is the missing-fields error. On success the record has id = store length + 1 and holds the category, the parsed amount and the parsed date as given. |
| `Service.ZeroAmountRefused` | app.js:22-27 | An amount of the number 0 is refused. The text "0" passes when the other two fields are truthy. |
| `Service.NewExpenseKeepsIdsSequential` | app.js:29-36 | Appending a successfully built record to a store whose ids are 1..n gives a store whose ids are 1..n+1. |
| `Service.SequentialIdsAreUnique` | app.js:30 | In a store with sequential ids, no two records share an id. |
| `Service.Tracker.constructor` | app.js:11-16 | The tracker starts with an empty expense list and three empty report lists, and satisfies its invariant. |
| `Service.Tracker.AddExpense` | app.js:19-41 | On a request with a falsy field: the missing-fields error, and the store is unchanged. On success: exactly one record is appended, with id = old length + 1 and the given fields. The report lists never change, and the sequential-id invariant is kept. |
| `Service.ParsePeriod` | app.js:54 | A type is accepted iff it is one of "daily", "weekly" and "monthly". An accepted type selects the period of that name. |
| `Service.PeriodNameRoundTrip` | app.js:12-16 | Every period's name is accepted and selects that period again. |
| `Service.Tracker.GetReports` | app.js:52-65 | Succeeds iff the type is daily, weekly or monthly, and then returns that period's report list. Any other type gives the invalid-type error. Nothing changes. |
| `Aggregate.TotalByCategory` | app.js:69-72 | The totals have an entry for a category iff some expense has that category. |
| `Aggregate.CategoryTotal` | app.js:69-72 | A category's entry (0 when it has none) equals the sum of the amounts of that category's expenses. |
| `Aggregate.TotalAmount` | app.js:74 | The grand-total fold itself, from 0. It is 0 on an empty list, and a list without negative amounts has a non-negative total. Its sum laws are in `TotalAmountConcat` and `TotalAmountIsSumOfCategoryTotals`. |
| `Aggregate.TotalAmountConcat` | app.js:74 | The grand total is additive: the total of a concatenation is the sum of the two totals. |
| `Aggregate.TotalAmountIsSumOfCategoryTotals` | app.js:69-74 | The per-category totals add up to the grand total, for every list of expenses. |
| `Aggregate.Summarize` | app.js:69-74 | The aggregate has keys exactly the categories present. Each category's entry is the sum of the amounts of that category's expenses. The grand total is the sum of all amounts, and it equals the sum of the category totals. An empty list gives `{}` and 0. |
| `Aggregate.FoodExample` | app.js:69-74 | Two food expenses of 10 and 5 give `{food: 15}` and a total of 15. |
| `Service.Tracker.Analyze` | app.js:68-83 | Over the whole store, each category's total is the sum of that category's amounts, the keys are exactly the categories present, and the grand total is the sum of all amounts and of the category totals. Nothing changes. |
| `Window.InWindow` | app.js:117-118 | The window predicate itself: both ends are included, so an expense dated exactly `start` or exactly `now` is inside whenever `start <= now`, and nothing is inside a window whose start lies after `now`. `Filter` and `FilterPositions` state what the filter pass keeps. |
| `Window.Filter` | app.js:116-119 | The filtered list is no longer than the store. An expense is in it iff it is in the store and dated in `[start, now]`, both ends included. |
| `Window.FilterPositions` | app.js:116-119 | The filtered list is the subsequence of the store at strictly increasing positions. A position is taken iff its expense is in the window, so order is kept. |
| `Window.NothingInWindow` | app.js:116-119 | When no expense is dated in the window, the filtered list is empty. |
| `Service.MakeReport` | app.js:122-135 | The snapshot carries the period and the generation time. Its category keys are exactly the categories in the window. Its grand total is the sum of the in-window amounts, and it equals the sum of its category totals. |
| `Service.ReportCategoryTotals` | app.js:116-125 | A report has an entry for a category iff some expense of that category is dated in the window. The entry is the sum of that category's in-window amounts. |
| `Service.EmptyReport` | app.js:116-135 | With no expense in the window, the snapshot still exists, with a total of 0 and no categories. |
| `Service.Tracker.GenerateReport` | app.js:99-139 | Exactly one snapshot, computed over the window, is appended to the chosen period's list. The other two lists and the expenses are unchanged, and the invariant is kept. |
| `PlainObjectFold.ObjectTotals` | app.js:69-72 | The category fold as written, on a plain object. Its own properties are exactly the categories present except `__proto__`, whose assignment JavaScript ignores. |
| `PlainObjectFold.ObjectTotalsAgree` | app.js:69-72 | When no category is an inherited property name of a plain object, the fold as written equals the corrected fold. |
| `PlainObjectFold.ToStringCategoryIsNotANumber` | app.js:122-125 | An expense of category "toString": the fold as written stores a non-number, while the corrected fold stores the amount. |
| `PlainObjectFold.ProtoCategoryIsLost` | app.js:69-72 | An expense of category "__proto__": the fold as written has no entry for it, while the corrected fold has one. |

## Findings

| source | as written | input that shows it | evidently intended | confidence | as-written member | corrected member |
|---|---|---|---|---|---|---|
| app.js:69-72 (same code at 122-125) | The fold's accumulator is `{}`. `acc[category] \|\| 0` finds inherited `Object.prototype` members, `+ amount` turns them into strings, and assigning to `__proto__` is ignored. | One expense `{category: "toString", amount: 10}` gives `totalByCategory.toString` = a string, not 10. One expense `{category: "__proto__", amount: 10}` gives no entry at all. | Each category present maps to the numeric sum of its amounts. | high; not executed | `PlainObjectFold.ToStringCategoryIsNotANumber` | `Aggregate.CategoryTotal` |

## Left out

- HTTP plumbing is not modelled: Express setup, body parsing, routing, status codes, the JSON envelope, `app.listen` and logging. Handler outcomes are `Result` values. The listing handler `GET /expenses` (`app.js:44-49`) only returns the `expenses` field.
- The cron schedules are not modelled (`app.js:86-96`). `GenerateReport` is a method called directly, with the period as a `Period` value. The source never calls `generateReport` with any other string; if it did, `reports[period]` would be undefined.
- Clock readings are parameters: `now`, the window start and `generatedAt`. The calendar arithmetic of `setDate` and `setMonth` (`app.js:104-113`) is not modelled. That includes local time, daylight saving, and the month-end overflow of `setMonth`: on 31 March the window starts on 3 March (2 March in a leap year), not at the end of February. The monthly schedule (`app.js:94`) fires only on the 1st, so the schedule itself never meets that overflow.
- `parseFloat` and `new Date` are function parameters. `NaN` amounts are not modelled. In the source a `NaN` makes `totalAmount` `NaN` from then on. In the category fold, `(acc[c] || 0)` (`app.js:70`, `app.js:123`) turns a `NaN` running total back into 0, so the next expense of that category restarts the total and the earlier amounts of that category are silently dropped. Invalid dates are not modelled either; an invalid Date compares false, so it never falls in a window.
- Floating-point rounding is not modelled: amounts are exact reals.
- A request body's `amount` and `date` may be any JSON value, with objects and arrays folded into one `Composite` shape that is always truthy; what `parseFloat` and `new Date` make of them is left to the parser parameters.
- A request body's `category` is a string in the model. The empty string stands for both missing and empty, which are both falsy. Non-string JSON categories, which JavaScript coerces to property keys, are not modelled.
- `Service.Tracker.GetReports`: the source returns the live array `reports[type]`. The model returns its current value, so later appends are not seen through it (no aliasing).
- `Service.Tracker.Analyze` uses the corrected category fold `Aggregate.TotalByCategory`, not the plain-object fold of `app.js:69-72`. It differs from the source for categories in `PlainObjectFold.PrototypeKeys`: for `"toString"` and the other inherited names the source stores a string where the model stores the sum, and for `"__proto__"` the source has no entry. `PlainObjectFold.ObjectTotalsAgree` proves the two folds equal on every list without such categories.
- `Service.MakeReport` (and with it `Service.Tracker.GenerateReport` and `Service.ReportCategoryTotals`) uses the same corrected fold in place of `app.js:122-125`, with the same difference on inherited property names.
