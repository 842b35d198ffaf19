/** `getAggregateFinancialBreakdown` (server/source/controllers/financeController.ts):
    the `GET /finance` handler. Unlike the dashboard, it keeps only the categories
    whose summed value is positive. */
module FinanceController {
  import opened Wrappers
  import opened Seqs
  import opened Records
  import DashboardController

  /** `transformData`: a category with a positive sum, or `null`. `Number(value) || 0`
      reads a missing sum as 0. */
  function TransformData(name: string, value: Option<real>): (r: Option<BreakdownEntry>)
    ensures r.Some? <==> OrZero(value) > 0.0
    ensures r.Some? ==> r.value.name == name && r.value.value == OrZero(value)
  {
    var numericValue := OrZero(value);
    if numericValue > 0.0 then Some(BreakdownEntry(name, numericValue)) else None
  }

  /** `transformData` applied to each (name, sum) pair, in order. */
  function Candidates(names: seq<string>, values: seq<Option<real>>): (r: seq<Option<BreakdownEntry>>)
    requires |names| == |values|
    ensures |r| == |names|
    ensures forall i :: 0 <= i < |r| ==> r[i] == TransformData(names[i], values[i])
  {
    if names == [] then []
    else [TransformData(names[0], values[0])] + Candidates(names[1..], values[1..])
  }

  /** Every (name, sum) pair as an entry, missing sums read as 0. */
  function Categories(names: seq<string>, values: seq<Option<real>>): (r: seq<BreakdownEntry>)
    requires |names| == |values|
    ensures |r| == |names|
    ensures forall i :: 0 <= i < |r| ==> r[i] == BreakdownEntry(names[i], OrZero(values[i]))
  {
    if names == [] then []
    else [BreakdownEntry(names[0], OrZero(values[0]))] + Categories(names[1..], values[1..])
  }

  /** Dropping the `null`s of the transformed list is filtering the categories
      for a positive value. */
  lemma {:induction false} CandidatesAreFilteredCategories(names: seq<string>, values: seq<Option<real>>)
    requires |names| == |values|
    ensures Somes(Candidates(names, values)) == Filter(Categories(names, values), IsPositiveEntry)
  {
    if names != [] {
      CandidatesAreFilteredCategories(names[1..], values[1..]);
    }
  }

  /** The expense categories in this handler's order, which lists Guest Cost
      before Hall Rental Cost. */
  const ExpenseNames: seq<string> := ["Purchase Cost", "Guest Cost", "Hall Rental Cost", "Transport Cost", "Prize Pool"]

  function ExpenseValues(s: ColumnSums): seq<Option<real>> {
    [s.pCost, s.gCost, s.hCost, s.tCost, s.prizePool]
  }

  const RevenueNames: seq<string> := ["Sponsorship", "Ticket Profit"]

  function RevenueValues(s: ColumnSums): seq<Option<real>> {
    [s.sGot, s.ticketProfit]
  }

  /** `expenseBreakdown`: the transformed expense categories without the
      `null`s, which are the categories with a positive sum, in this handler's
      order. */
  function Expenditure(s: ColumnSums): (r: seq<BreakdownEntry>)
    ensures r == Filter(Categories(ExpenseNames, ExpenseValues(s)), IsPositiveEntry)
  {
    CandidatesAreFilteredCategories(ExpenseNames, ExpenseValues(s));
    Somes(Candidates(ExpenseNames, ExpenseValues(s)))
  }

  /** `revenueBreakdown`: the dashboard's revenue entries with a positive sum. */
  function Revenue(s: ColumnSums): (r: seq<BreakdownEntry>)
    ensures r == Filter(DashboardController.RevenueBreakdown(s), IsPositiveEntry)
  {
    CandidatesAreFilteredCategories(RevenueNames, RevenueValues(s));
    assert Categories(RevenueNames, RevenueValues(s)) == DashboardController.RevenueBreakdown(s);
    Somes(Candidates(RevenueNames, RevenueValues(s)))
  }

  /** The body: both lists empty when the aggregate has no `_sum` object;
      otherwise the positive categories of each kind, every value positive. */
  function AggregateBreakdown(sumData: Option<ColumnSums>): (r: FinanceBreakdown)
    ensures sumData.None? ==> r.expenditure == [] && r.revenue == []
    ensures sumData.Some? ==>
      && r.expenditure == Filter(Categories(ExpenseNames, ExpenseValues(sumData.value)), IsPositiveEntry)
      && r.revenue == Filter(DashboardController.RevenueBreakdown(sumData.value), IsPositiveEntry)
    ensures forall e :: e in r.expenditure ==> e.value > 0.0
    ensures forall e :: e in r.revenue ==> e.value > 0.0
  {
    if sumData.Some? then
      var ex, rev := Expenditure(sumData.value), Revenue(sumData.value);
      assert forall i :: 0 <= i < |ex| ==> IsPositiveEntry(ex[i]);
      assert forall i :: 0 <= i < |rev| ==> IsPositiveEntry(rev[i]);
      FinanceBreakdown(ex, rev)
    else FinanceBreakdown([], [])
  }

  const FinanceErrorMessage := "Error retrieving aggregate financial breakdown."

  /** `getAggregateFinancialBreakdown`: a failing query answers 500; otherwise
      the expense categories (in this handler's order) and the revenue
      categories, each kept exactly when its sum is positive. */
  function GetAggregateFinancialBreakdown(financeAggregates: QueryResult<Option<ColumnSums>>): (r: Response<FinanceBreakdown>)
    ensures r.Error? <==> financeAggregates.Threw?
    ensures r.Error? ==> r == Error(500, FinanceErrorMessage)
    ensures r.Json? && financeAggregates.value.Some? ==>
      var s := financeAggregates.value.value;
      && r.body.expenditure == Filter(Categories(ExpenseNames, ExpenseValues(s)), IsPositiveEntry)
      && r.body.revenue == Filter(DashboardController.RevenueBreakdown(s), IsPositiveEntry)
    ensures r.Json? && financeAggregates.value.None? ==> r.body.expenditure == [] && r.body.revenue == []
  {
    if financeAggregates.Threw? then Error(500, FinanceErrorMessage)
    else
      var sumData := financeAggregates.value;
      if sumData.Some? then
        ExpenditureSpec(sumData.value);
        RevenueSpec(sumData.value);
        Json(AggregateBreakdown(sumData))
      else Json(AggregateBreakdown(sumData))
  }

  /** The expenditure list holds exactly the positive expense categories, in
      this handler's order, at most five of them; as a set it is what the
      dashboard's expense breakdown holds once the non-positive categories are
      dropped. */
  lemma ExpenditureSpec(s: ColumnSums)
    ensures Expenditure(s) == Filter(Categories(ExpenseNames, ExpenseValues(s)), IsPositiveEntry)
    ensures |Expenditure(s)| <= 5
    ensures forall e :: e in Expenditure(s) ==> e.value > 0.0
    ensures forall e :: e in Expenditure(s) <==> e in DashboardController.ExpenseBreakdown(s) && e.value > 0.0
  {
    forall e
      ensures e in Expenditure(s) <==> e in DashboardController.ExpenseBreakdown(s) && e.value > 0.0
    {
      ExpenditureMember(s, e);
    }
  }

  lemma ExpenditureMember(s: ColumnSums, e: BreakdownEntry)
    ensures e in Filter(Categories(ExpenseNames, ExpenseValues(s)), IsPositiveEntry)
       <==> e in DashboardController.ExpenseBreakdown(s) && e.value > 0.0
  {
    var all := Categories(ExpenseNames, ExpenseValues(s));
    var d := DashboardController.ExpenseBreakdown(s);
    assert all == [d[0], d[2], d[1], d[3], d[4]];
    FilterMembers(all, IsPositiveEntry, e);
  }

  /** The revenue list is the dashboard's revenue breakdown with the
      non-positive categories dropped, in the same order. */
  lemma RevenueSpec(s: ColumnSums)
    ensures Revenue(s) == Filter(DashboardController.RevenueBreakdown(s), IsPositiveEntry)
    ensures forall e :: e in Revenue(s) ==> e.value > 0.0
    ensures |Revenue(s)| <= 2
  {
    assert forall i :: 0 <= i < |Revenue(s)| ==> IsPositiveEntry(Revenue(s)[i]);
  }

  lemma ExpenseNamesDistinct(i: nat, j: nat)
    requires i < 5 && j < 5 && i != j
    ensures ExpenseNames[i] != ExpenseNames[j]
  {
    var n := ExpenseNames;
    assert n[0][0] == 'P' && n[1][0] == 'G' && n[2][0] == 'H' && n[3][0] == 'T' && n[4][0] == 'P';
    assert n[0][1] == 'u' && n[4][1] == 'r';
  }

  /** A category whose sum is missing or not positive never appears. */
  lemma NonPositiveCategoryDropped(s: ColumnSums, i: nat)
    requires i < 5
    requires OrZero(ExpenseValues(s)[i]) <= 0.0
    ensures forall e :: e in Expenditure(s) ==> e.name != ExpenseNames[i]
  {
    var all := Categories(ExpenseNames, ExpenseValues(s));
    CandidatesAreFilteredCategories(ExpenseNames, ExpenseValues(s));
    forall e | e in Expenditure(s)
      ensures e.name != ExpenseNames[i]
    {
      FilterMembers(all, IsPositiveEntry, e);
      var j :| 0 <= j < 5 && all[j] == e;
      assert j != i;
      ExpenseNamesDistinct(i, j);
    }
  }
}
