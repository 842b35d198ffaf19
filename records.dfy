/** The rows the database returns and the payloads the server sends, as far as
    the dashboard pipeline reads them. Fields that the pipeline only passes
    through (ticket inventory, fees, start and end dates) are left out. */
module Records {
  import opened Dates
  import opened Wrappers
  import opened Tally

  /** An `events` row; `buzzMeter` is the popularity score. */
  datatype Event = Event(eventId: string, eventName: string, organiserName: string, buzzMeter: int)

  /** A UTC instant: its calendar day and the milliseconds since midnight. */
  datatype DateTime = DateTime(date: Date, millisOfDay: nat)

  /** A `registration` row. */
  datatype Registration = Registration(regId: string, paymentStatus: bool, regDate: DateTime)

  /** A `users` row. */
  datatype User = User(userId: string, userType: string)

  /** One row of `users.groupBy({ by: ["userType"], _count: { _all: true } })`. */
  datatype GroupRow = GroupRow(userType: string, countAll: nat)

  /** The `_sum` object of the finance aggregate: one nullable sum per column. */
  datatype ColumnSums = ColumnSums(
    pCost: Option<real>, hCost: Option<real>, gCost: Option<real>, tCost: Option<real>,
    sGot: Option<real>, prizePool: Option<real>, ticketProfit: Option<real>)

  /** `{ name, value }`: one named cost or revenue category. */
  datatype BreakdownEntry = BreakdownEntry(name: string, value: real)

  /** `{ userType, count }`. */
  datatype TypeCount = TypeCount(userType: string, count: nat)

  /** The body of `GET /dashboard`. */
  datatype DashboardMetrics = DashboardMetrics(
    popularEvents: seq<Event>,
    registrationSummary: seq<DateCount>,
    expenseBreakdown: Option<seq<BreakdownEntry>>,
    revenueBreakdown: Option<seq<BreakdownEntry>>,
    formattedCounts: seq<TypeCount>)

  /** The body of `GET /finance`. */
  datatype FinanceBreakdown = FinanceBreakdown(expenditure: seq<BreakdownEntry>, revenue: seq<BreakdownEntry>)

  /** `value || 0` for a nullable number. */
  function OrZero(v: Option<real>): real {
    if v.Some? then v.value else 0.0
  }

  predicate IsPositiveEntry(e: BreakdownEntry) {
    e.value > 0.0
  }

  /** `items.reduce((sum, item) => sum + item.value, 0)`. */
  function ValueTotal(items: seq<BreakdownEntry>): real {
    if items == [] then 0.0 else items[0].value + ValueTotal(items[1..])
  }

  /** A sum of non-negative values is non-negative, and of positive values
      positive once there is one. */
  lemma {:induction false} ValueTotalSign(items: seq<BreakdownEntry>)
    requires forall e :: e in items ==> e.value >= 0.0
    ensures ValueTotal(items) >= 0.0
    ensures (forall e :: e in items ==> e.value > 0.0) && items != [] ==> ValueTotal(items) > 0.0
  {
    if items != [] {
      assert forall e :: e in items[1..] ==> e in items;
      ValueTotalSign(items[1..]);
    }
  }

  /** The sum of the `count` fields. */
  function TypeCountTotal(items: seq<TypeCount>): nat {
    if items == [] then 0 else TypeCountTotal(items[..|items| - 1]) + items[|items| - 1].count
  }

  lemma {:induction false} ValueTotalAppend(a: seq<BreakdownEntry>, b: seq<BreakdownEntry>)
    ensures ValueTotal(a + b) == ValueTotal(a) + ValueTotal(b)
  {
    if a == [] {
      assert a + b == b;
    } else {
      assert (a + b)[1..] == a[1..] + b;
      ValueTotalAppend(a[1..], b);
    }
  }
}
