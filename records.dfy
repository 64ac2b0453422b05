/**
  The values the expense tracker works with: the raw fields of a create
  request, the expense records it stores, the report snapshots it keeps,
  and the success/error outcome of a request handler.
 */
module Records {

  /** Milliseconds since the epoch, as a JavaScript Date holds them. */
  type Timestamp = int

  /** Money. The service parses amounts with parseFloat; the model uses exact reals. */
  type Amount = real

  /** The shapes a field of a parsed JSON request body can take; objects and arrays are one shape. */
  datatype JsonValue =
    | Undefined
    | Null
    | Bool(b: bool)
    | Number(n: real)
    | Text(s: string)
    | Composite  // an object or an array

  /** JavaScript truthiness: `!v` is true exactly when this is false. */
  predicate Truthy(v: JsonValue)
  {
    match v
    case Undefined => false
    case Null => false
    case Bool(b) => b
    case Number(n) => n != 0.0
    case Text(s) => s != ""
    case Composite => true
  }

  /**
    The body of a create request. A missing category and an empty one are
    both falsy, so the empty string stands for both.
   */
  datatype ExpenseBody = ExpenseBody(category: string, amount: JsonValue, date: JsonValue)

  /** A stored expense; `id` is its 1-based position in the store. */
  datatype Expense = Expense(id: nat, category: string, amount: Amount, date: Timestamp)

  /** The three report schedules. */
  datatype Period = Daily | Weekly | Monthly

  /** The name a period has in URLs and in the report store. */
  function PeriodName(p: Period): string
  {
    match p
    case Daily => "daily"
    case Weekly => "weekly"
    case Monthly => "monthly"
  }

  /** What the aggregation of a list of expenses yields. */
  datatype Summary = Summary(totalByCategory: map<string, Amount>, totalAmount: Amount)

  /** One generated report snapshot. */
  datatype Report = Report(period: Period, generatedAt: Timestamp, totalAmount: Amount,
                           totalByCategory: map<string, Amount>)

  /** The two validation failures a handler can answer with (HTTP 400). */
  datatype Error = MissingFields | InvalidReportType

  datatype Option<+T> = None | Some(value: T)

  datatype Result<+T> = Success(value: T) | Failure(error: Error)
}
