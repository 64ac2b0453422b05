/**
  The state of the expense tracker and the handlers that read and change it:
  creating an expense, looking up the reports of one type, analysing all
  expenses, and generating a report for a period.
 */
module Service {
  import opened Records
  import opened Aggregate
  import opened Window

  /** The report types the lookup accepts, in the order the handler lists them. */
  const ReportTypes: seq<string> := ["daily", "weekly", "monthly"]

  /** The `includes` check on a report type, with the period it selects. */
  function ParsePeriod(t: string): (r: Option<Period>)
    ensures r.Some? <==> t in ReportTypes
    ensures r.Some? ==> PeriodName(r.value) == t
  {
    if t == "daily" then Some(Daily)
    else if t == "weekly" then Some(Weekly)
    else if t == "monthly" then Some(Monthly)
    else None
  }

  /** Every period's name is accepted and selects that period again. */
  lemma PeriodNameRoundTrip(p: Period)
    ensures PeriodName(p) in ReportTypes
    ensures ParsePeriod(PeriodName(p)) == Some(p)
  {
  }

  /** The values JavaScript treats as false (NaN aside, which the model has no value for). */
  const FalsyValues: set<JsonValue> := {Undefined, Null, Bool(false), Number(0.0), Text("")}

  /** The presence check of the create handler: each field must be truthy. */
  predicate HasRequiredFields(b: ExpenseBody): (r: bool)
    ensures r <==> b.category != "" && b.amount !in FalsyValues && b.date !in FalsyValues
  {
    b.category != "" && Truthy(b.amount) && Truthy(b.date)
  }

  /**
    The record the create handler builds for a store holding `store`, or the
    missing-fields error. `parseAmount` stands for parseFloat and `parseDate`
    for the Date constructor.
   */
  function NewExpense(store: seq<Expense>, b: ExpenseBody,
                      parseAmount: JsonValue -> Amount, parseDate: JsonValue -> Timestamp)
    : (r: Result<Expense>)
    ensures r.Success? <==> b.category != "" && Truthy(b.amount) && Truthy(b.date)
    ensures r.Failure? ==> r.error == MissingFields
    ensures r.Success? ==> r.value.id == |store| + 1 && r.value.category == b.category
    ensures r.Success? ==> r.value.amount == parseAmount(b.amount) && r.value.date == parseDate(b.date)
  {
    if !HasRequiredFields(b) then Failure(MissingFields)
    else Success(Expense(|store| + 1, b.category, parseAmount(b.amount), parseDate(b.date)))
  }

  /** A zero amount is falsy and is refused, while the text "0" is truthy and passes. */
  lemma ZeroAmountRefused(store: seq<Expense>, category: string, date: JsonValue,
                          parseAmount: JsonValue -> Amount, parseDate: JsonValue -> Timestamp)
    ensures NewExpense(store, ExpenseBody(category, Number(0.0), date), parseAmount, parseDate)
            == Failure(MissingFields)
    ensures NewExpense(store, ExpenseBody(category, Text("0"), date), parseAmount, parseDate).Success?
            <==> category != "" && Truthy(date)
  {
  }

  /** The ids of the store are 1, 2, ..., n in insertion order. */
  ghost predicate SequentialIds(s: seq<Expense>)
  {
    forall i :: 0 <= i < |s| ==> s[i].id == i + 1
  }

  /** A store with sequential ids never holds two records with the same id. */
  lemma SequentialIdsAreUnique(s: seq<Expense>, i: int, j: int)
    requires SequentialIds(s)
    requires 0 <= i < |s| && 0 <= j < |s| && s[i].id == s[j].id
    ensures i == j
  {
  }

  /** Appending what the create handler builds keeps the ids sequential. */
  lemma NewExpenseKeepsIdsSequential(s: seq<Expense>, b: ExpenseBody,
                                     parseAmount: JsonValue -> Amount, parseDate: JsonValue -> Timestamp)
    requires SequentialIds(s)
    requires NewExpense(s, b, parseAmount, parseDate).Success?
    ensures SequentialIds(s + [NewExpense(s, b, parseAmount, parseDate).value])
  {
  }

  /** The report snapshot of `period` over the expenses dated in `[start, now]`. */
  function MakeReport(s: seq<Expense>, period: Period, start: Timestamp, now: Timestamp,
                      generatedAt: Timestamp): (r: Report)
    ensures r.period == period && r.generatedAt == generatedAt
    ensures r.totalByCategory.Keys == Categories(Filter(s, start, now))
    ensures r.totalAmount == TotalAmount(Filter(s, start, now))
    ensures r.totalAmount == SumValues(r.totalByCategory)
  {
    var summary := Summarize(Filter(s, start, now));
    Report(period, generatedAt, summary.totalAmount, summary.totalByCategory)
  }

  /**
    A report counts exactly the expenses dated inside its window: a category
    has an entry iff some expense in the window has it, and the entry is the
    sum of that category's amounts in the window.
   */
  lemma ReportCategoryTotals(s: seq<Expense>, period: Period, start: Timestamp,
                               now: Timestamp, generatedAt: Timestamp, c: string)
    ensures c in MakeReport(s, period, start, now, generatedAt).totalByCategory
            <==> exists i :: 0 <= i < |s| && s[i].category == c && InWindow(s[i], start, now)
    ensures c in MakeReport(s, period, start, now, generatedAt).totalByCategory ==>
            MakeReport(s, period, start, now, generatedAt).totalByCategory[c]
            == TotalAmount(OfCategory(Filter(s, start, now), c))
  {
    var f := Filter(s, start, now);
    CategoryTotal(f, c);
    if c in Categories(f) {
      var e :| e in f && e.category == c;
      var i :| 0 <= i < |s| && s[i] == e;
    }
  }

  /** When no expense is dated in the window the report has zero totals and no categories. */
  lemma EmptyReport(s: seq<Expense>, period: Period, start: Timestamp, now: Timestamp,
                    generatedAt: Timestamp)
    requires forall i :: 0 <= i < |s| ==> !InWindow(s[i], start, now)
    ensures MakeReport(s, period, start, now, generatedAt) == Report(period, generatedAt, 0.0, map[])
  {
    NothingInWindow(s, start, now);
  }

  /** A report list holds reports of its own period whose category totals add up. */
  ghost predicate Filed(rs: seq<Report>, p: Period)
  {
    forall i :: 0 <= i < |rs| ==> rs[i].period == p && rs[i].totalAmount == SumValues(rs[i].totalByCategory)
  }

  /** The in-memory store: the expense list and the three report lists. */
  class Tracker {
    var expenses: seq<Expense>
    var daily: seq<Report>
    var weekly: seq<Report>
    var monthly: seq<Report>

    ghost predicate Valid()
      reads this
    {
      && SequentialIds(expenses)
      && Filed(daily, Daily) && Filed(weekly, Weekly) && Filed(monthly, Monthly)
    }

    /** The report list of period `p`. */
    function Reports(p: Period): seq<Report>
      reads this
    {
      match p
      case Daily => daily
      case Weekly => weekly
      case Monthly => monthly
    }

    constructor ()
      ensures Valid()
      ensures expenses == [] && daily == [] && weekly == [] && monthly == []
    {
      expenses, daily, weekly, monthly := [], [], [], [];
    }

    /** The create handler: validate, build the record, append it. */
    method AddExpense(b: ExpenseBody, parseAmount: JsonValue -> Amount, parseDate: JsonValue -> Timestamp)
      returns (r: Result<Expense>)
      requires Valid()
      modifies this
      ensures Valid()
      ensures r.Success? <==> HasRequiredFields(b)
      ensures r.Failure? ==> r.error == MissingFields && expenses == old(expenses)
      ensures r.Success? ==> r.value == Expense(|old(expenses)| + 1, b.category,
                                                parseAmount(b.amount), parseDate(b.date))
      ensures r.Success? ==> expenses == old(expenses) + [r.value]
      ensures daily == old(daily) && weekly == old(weekly) && monthly == old(monthly)
    {
      r := NewExpense(expenses, b, parseAmount, parseDate);
      if r.Success? {
        NewExpenseKeepsIdsSequential(expenses, b, parseAmount, parseDate);
        expenses := expenses + [r.value];
      }
    }

    /** The report lookup: the report list of a valid type, or the invalid-type error. */
    method GetReports(t: string) returns (r: Result<seq<Report>>)
      ensures r.Success? <==> t in ReportTypes
      ensures r.Failure? ==> r.error == InvalidReportType
      ensures r.Success? ==> exists p :: PeriodName(p) == t && r.value == Reports(p)
    {
      var p := ParsePeriod(t);
      if p.None? {
        r := Failure(InvalidReportType);
      } else {
        r := Success(Reports(p.value));
      }
    }

    /** The analysis handler: the aggregate of every stored expense. */
    method Analyze() returns (s: Summary)
      ensures s.totalByCategory.Keys == Categories(expenses)
      ensures forall c :: c in s.totalByCategory ==>
                s.totalByCategory[c] == TotalAmount(OfCategory(expenses, c))
      ensures s.totalAmount == TotalAmount(expenses) == SumValues(s.totalByCategory)
    {
      s := Summarize(expenses);
    }

    /**
      The report generator for `period`, run at time `now` over the window
      that starts at `start`; `generatedAt` is the clock reading it records.
     */
    method GenerateReport(period: Period, now: Timestamp, start: Timestamp, generatedAt: Timestamp)
      requires Valid()
      modifies this
      ensures Valid()
      ensures Reports(period) == old(Reports(period)) + [MakeReport(expenses, period, start, now, generatedAt)]
      ensures forall p :: p != period ==> Reports(p) == old(Reports(p))
      ensures expenses == old(expenses)
    {
      var report := MakeReport(expenses, period, start, now, generatedAt);
      match period
      case Daily => daily := daily + [report];
      case Weekly => weekly := weekly + [report];
      case Monthly => monthly := monthly + [report];
    }
  }

  /** A run through the handlers on a fresh tracker. */
  method Walkthrough(parseAmount: JsonValue -> Amount, parseDate: JsonValue -> Timestamp)
  {
    var tracker := new Tracker();
    var refused := tracker.AddExpense(ExpenseBody("food", Number(0.0), Text("2024-01-01")),
                                      parseAmount, parseDate);
    assert refused == Failure(MissingFields) && tracker.expenses == [];
    var first := tracker.AddExpense(ExpenseBody("food", Number(10.0), Text("2024-01-01")),
                                    parseAmount, parseDate);
    var second := tracker.AddExpense(ExpenseBody("food", Text("5"), Text("2024-01-02")),
                                     parseAmount, parseDate);
    assert first.Success? && first.value.id == 1;
    assert second.Success? && second.value.id == 2;
    var invalid := tracker.GetReports("xyz");
    assert invalid == Failure(InvalidReportType);
    var none := tracker.GetReports("daily");
    assert none.Success? && none.value == [];
  }
}
