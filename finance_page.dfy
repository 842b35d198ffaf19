/** The finance page (client/src/app/finance/page.tsx): the pie chart's slices
    built from the `GET /finance` body, the category filter, the three totals
    and the detail tables. */
module FinancePage {
  import opened Wrappers
  import opened Seqs
  import opened Records
  import FinanceController

  datatype ItemType = Expense | Revenue

  /** `activeCategory`: `'All'`, `'Expense'` or `'Revenue'`. */
  datatype CategoryFilter = All | Only(itemType: ItemType)

  /** `AggregatedDataItem`: one pie slice. */
  datatype ChartItem = ChartItem(name: string, value: real, itemType: ItemType, color: string)

  const ChartColors: seq<string> := ["#2C7A7B", "#3182CE", "#9F7AEA", "#38A169", "#F6AD55", "#DD6B20", "#E53E3E"]

  /** One list tagged with its type; the colour index continues from `offset`. */
  function Tag(items: seq<BreakdownEntry>, t: ItemType, offset: nat): (r: seq<ChartItem>)
    ensures |r| == |items|
    ensures forall i :: 0 <= i < |items| ==>
      r[i] == ChartItem(items[i].name, items[i].value, t, ChartColors[(i + offset) % |ChartColors|])
  {
    seq(|items|, i requires 0 <= i < |items| =>
      ChartItem(items[i].name, items[i].value, t, ChartColors[(i + offset) % |ChartColors|]))
  }

  /** `combinedData`: the expense slices, then the revenue slices. */
  function Combined(d: FinanceBreakdown): (r: seq<ChartItem>)
    ensures |r| == |d.expenditure| + |d.revenue|
  {
    Tag(d.expenditure, Expense, 0) + Tag(d.revenue, Revenue, |d.expenditure|)
  }

  /** The combined list holds the expenses, tagged `Expense`, then the
      revenues, tagged `Revenue`, each in order; its item `i` is coloured by
      its place in the whole list, cycling through the seven colours. */
  lemma CombinedLayout(d: FinanceBreakdown)
    ensures forall i :: 0 <= i < |Combined(d)| ==> Combined(d)[i].color == ChartColors[i % 7]
    ensures forall i :: 0 <= i < |d.expenditure| ==>
      Combined(d)[i] == ChartItem(d.expenditure[i].name, d.expenditure[i].value, Expense, ChartColors[i % 7])
    ensures forall j :: 0 <= j < |d.revenue| ==>
      Combined(d)[|d.expenditure| + j]
        == ChartItem(d.revenue[j].name, d.revenue[j].value, Revenue, ChartColors[(|d.expenditure| + j) % 7])
  {
    CombinedExpenses(d);
    CombinedRevenues(d);
    forall i | 0 <= i < |Combined(d)|
      ensures Combined(d)[i].color == ChartColors[i % 7]
    {
      CombinedColorAt(d, i);
    }
  }

  lemma CombinedColorAt(d: FinanceBreakdown, i: nat)
    requires i < |Combined(d)|
    ensures Combined(d)[i].color == ChartColors[i % 7]
  {
    var e, r := Tag(d.expenditure, Expense, 0), Tag(d.revenue, Revenue, |d.expenditure|);
    if i < |e| {
      assert (e + r)[i] == e[i];
    } else {
      assert (e + r)[i] == r[i - |e|];
      assert (i - |e|) + |d.expenditure| == i;
    }
  }

  lemma CombinedExpenses(d: FinanceBreakdown)
    ensures forall i :: 0 <= i < |d.expenditure| ==>
      Combined(d)[i] == ChartItem(d.expenditure[i].name, d.expenditure[i].value, Expense, ChartColors[i % 7])
  {
    var e := Tag(d.expenditure, Expense, 0);
    assert forall i :: 0 <= i < |d.expenditure| ==> Combined(d)[i] == e[i];
  }

  lemma CombinedRevenues(d: FinanceBreakdown)
    ensures forall j :: 0 <= j < |d.revenue| ==>
      Combined(d)[|d.expenditure| + j]
        == ChartItem(d.revenue[j].name, d.revenue[j].value, Revenue, ChartColors[(|d.expenditure| + j) % 7])
  {
    var e, r := Tag(d.expenditure, Expense, 0), Tag(d.revenue, Revenue, |d.expenditure|);
    forall j | 0 <= j < |d.revenue|
      ensures Combined(d)[|d.expenditure| + j]
        == ChartItem(d.revenue[j].name, d.revenue[j].value, Revenue, ChartColors[(|d.expenditure| + j) % 7])
    {
      var k := |d.expenditure| + j;
      assert (e + r)[k] == r[j];
      assert k == j + |d.expenditure|;
    }
  }

  predicate IsPositiveItem(item: ChartItem) {
    item.value > 0.0
  }

  predicate AnyItem(item: ChartItem) {
    true
  }

  predicate IsExpenseItem(item: ChartItem) {
    item.itemType == Expense
  }

  predicate IsRevenueItem(item: ChartItem) {
    item.itemType == Revenue
  }

  /** `activeCategory === 'All' || item.type === activeCategory`. */
  function InCategory(c: CategoryFilter): (p: ChartItem -> bool)
    ensures forall item :: p(item) <==> c.All? || item.itemType == c.itemType
  {
    match c
    case All => AnyItem
    case Only(Expense) => IsExpenseItem
    case Only(Revenue) => IsRevenueItem
  }

  /** `chartData`: no slices before the data arrives; otherwise the positive
      slices of the active category. */
  function ChartData(aggregateData: Option<FinanceBreakdown>, activeCategory: CategoryFilter): (r: seq<ChartItem>)
    ensures aggregateData.None? ==> r == []
    ensures aggregateData.Some? ==> |r| <= |aggregateData.value.expenditure| + |aggregateData.value.revenue|
    ensures forall i :: 0 <= i < |r| ==>
      r[i].value > 0.0 && (activeCategory.All? || r[i].itemType == activeCategory.itemType)
  {
    if aggregateData.None? then []
    else
      var positive := Filter(Combined(aggregateData.value), IsPositiveItem);
      var shown := Filter(positive, InCategory(activeCategory));
      FilterMembersAll(positive, InCategory(activeCategory));
      assert forall i :: 0 <= i < |shown| ==> shown[i] in positive;
      shown
  }

  /** `totalExpenditure`: 0 before the data arrives; never negative when no
      expense is, and positive when there is an expense and all are positive. */
  function TotalExpenditure(aggregateData: Option<FinanceBreakdown>): (t: real)
    ensures aggregateData.None? ==> t == 0.0
    ensures aggregateData.Some? && (forall e :: e in aggregateData.value.expenditure ==> e.value >= 0.0) ==> t >= 0.0
    ensures (&& aggregateData.Some? && aggregateData.value.expenditure != []
             && forall e :: e in aggregateData.value.expenditure ==> e.value > 0.0) ==> t > 0.0
  {
    if aggregateData.None? then 0.0
    else
      if forall e :: e in aggregateData.value.expenditure ==> e.value >= 0.0 then
        ValueTotalSign(aggregateData.value.expenditure);
        ValueTotal(aggregateData.value.expenditure)
      else ValueTotal(aggregateData.value.expenditure)
  }

  /** `totalRevenue`, with the same guarantees as `TotalExpenditure`. */
  function TotalRevenue(aggregateData: Option<FinanceBreakdown>): (t: real)
    ensures aggregateData.None? ==> t == 0.0
    ensures aggregateData.Some? && (forall e :: e in aggregateData.value.revenue ==> e.value >= 0.0) ==> t >= 0.0
    ensures (&& aggregateData.Some? && aggregateData.value.revenue != []
             && forall e :: e in aggregateData.value.revenue ==> e.value > 0.0) ==> t > 0.0
  {
    if aggregateData.None? then 0.0
    else
      if forall e :: e in aggregateData.value.revenue ==> e.value >= 0.0 then
        ValueTotalSign(aggregateData.value.revenue);
        ValueTotal(aggregateData.value.revenue)
      else ValueTotal(aggregateData.value.revenue)
  }

  /** `totalProfitLoss`, shown green exactly when it is not negative. */
  function TotalProfitLoss(aggregateData: Option<FinanceBreakdown>): (p: real)
    ensures p >= 0.0 <==> TotalRevenue(aggregateData) >= TotalExpenditure(aggregateData)
  {
    TotalRevenue(aggregateData) - TotalExpenditure(aggregateData)
  }

  /** What a `DetailTable` shows. */
  datatype DetailView = NoDataRecorded | Rows(rows: seq<BreakdownEntry>)

  /** "No data recorded." only for an empty list; otherwise its positive rows
      in their original order, which may be none at all. */
  function DetailTable(data: seq<BreakdownEntry>): (v: DetailView)
    ensures v.NoDataRecorded? <==> data == []
    ensures v.Rows? ==> forall e :: e in v.rows <==> e in data && e.value > 0.0
    ensures v.Rows? ==> v.rows == Filter(data, IsPositiveEntry)
  {
    if data == [] then NoDataRecorded
    else
      FilterMembersAll(data, IsPositiveEntry);
      Rows(Filter(data, IsPositiveEntry))
  }

  // ---- Lemmas

  /** A slice is shown exactly when it is in the combined list, is positive and
      belongs to the active category; no slice is shown before the data arrives. */
  lemma ChartDataMembers(aggregateData: Option<FinanceBreakdown>, activeCategory: CategoryFilter, item: ChartItem)
    ensures item in ChartData(aggregateData, activeCategory) <==>
      && aggregateData.Some?
      && item in Combined(aggregateData.value)
      && item.value > 0.0
      && (activeCategory.All? || item.itemType == activeCategory.itemType)
  {
    if aggregateData.Some? {
      var c := Combined(aggregateData.value);
      FilterMembers(Filter(c, IsPositiveItem), InCategory(activeCategory), item);
      FilterMembers(c, IsPositiveItem, item);
    }
  }

  /** Every view is the view of the expense slices followed by the view of
      the revenue slices. */
  lemma ViewSplits(d: FinanceBreakdown, c: CategoryFilter)
    ensures ChartData(Some(d), c)
         == Filter(Filter(Tag(d.expenditure, Expense, 0), IsPositiveItem), InCategory(c))
          + Filter(Filter(Tag(d.revenue, Revenue, |d.expenditure|), IsPositiveItem), InCategory(c))
  {
    var e, r := Tag(d.expenditure, Expense, 0), Tag(d.revenue, Revenue, |d.expenditure|);
    FilterAppend(e, r, IsPositiveItem);
    FilterAppend(Filter(e, IsPositiveItem), Filter(r, IsPositiveItem), InCategory(c));
  }

  /** The view of one tagged list: all its positive slices when the category
      admits its type, none otherwise. */
  lemma TaggedView(items: seq<BreakdownEntry>, t: ItemType, offset: nat, c: CategoryFilter)
    ensures Filter(Filter(Tag(items, t, offset), IsPositiveItem), InCategory(c))
         == if c.All? || c.itemType == t then Filter(Tag(items, t, offset), IsPositiveItem) else []
  {
    var f := Filter(Tag(items, t, offset), IsPositiveItem);
    PositiveSlicesKeepType(items, t, offset);
    if c.All? || c.itemType == t {
      FilterKeepsAll(f, InCategory(c));
    } else {
      FilterDropsAll(f, InCategory(c));
    }
  }

  /** A view is the positive expense slices if it admits expenses, followed by
      the positive revenue slices if it admits revenues. */
  lemma ViewIs(d: FinanceBreakdown, c: CategoryFilter)
    ensures ChartData(Some(d), c)
         == (if c.All? || c.itemType == Expense then Filter(Tag(d.expenditure, Expense, 0), IsPositiveItem) else [])
          + (if c.All? || c.itemType == Revenue then Filter(Tag(d.revenue, Revenue, |d.expenditure|), IsPositiveItem) else [])
  {
    ViewSplits(d, c);
    TaggedView(d.expenditure, Expense, 0, c);
    TaggedView(d.revenue, Revenue, |d.expenditure|, c);
  }

  /** The "All" view is the expense view followed by the revenue view. */
  lemma AllIsExpenseThenRevenue(d: FinanceBreakdown)
    ensures ChartData(Some(d), All) == ChartData(Some(d), Only(Expense)) + ChartData(Some(d), Only(Revenue))
  {
    var pe := Filter(Tag(d.expenditure, Expense, 0), IsPositiveItem);
    var pr := Filter(Tag(d.revenue, Revenue, |d.expenditure|), IsPositiveItem);
    ViewIs(d, All);
    ViewIs(d, Only(Expense));
    ViewIs(d, Only(Revenue));
    assert ChartData(Some(d), Only(Expense)) == pe + [] == pe;
    assert ChartData(Some(d), Only(Revenue)) == [] + pr == pr;
  }

  lemma PositiveSlicesKeepType(items: seq<BreakdownEntry>, t: ItemType, offset: nat)
    ensures forall i :: 0 <= i < |Filter(Tag(items, t, offset), IsPositiveItem)| ==>
      Filter(Tag(items, t, offset), IsPositiveItem)[i].itemType == t
  {
    var f := Filter(Tag(items, t, offset), IsPositiveItem);
    forall i | 0 <= i < |f| ensures f[i].itemType == t {
      FilterMembers(Tag(items, t, offset), IsPositiveItem, f[i]);
    }
  }

  /** The sum of the slices' values. */
  function ItemsTotal(items: seq<ChartItem>): real {
    if items == [] then 0.0 else items[0].value + ItemsTotal(items[1..])
  }

  lemma {:induction false} ItemsTotalAppend(a: seq<ChartItem>, b: seq<ChartItem>)
    ensures ItemsTotal(a + b) == ItemsTotal(a) + ItemsTotal(b)
  {
    if a == [] {
      assert a + b == b;
    } else {
      assert (a + b)[1..] == a[1..] + b;
      ItemsTotalAppend(a[1..], b);
    }
  }

  lemma {:induction false} TagTotal(items: seq<BreakdownEntry>, t: ItemType, offset: nat)
    ensures ItemsTotal(Tag(items, t, offset)) == ValueTotal(items)
  {
    if items != [] {
      assert Tag(items, t, offset)[1..] == Tag(items[1..], t, offset + 1);
      TagTotal(items[1..], t, offset + 1);
    }
  }

  /** On the data the server sends (every value positive), the positive-value
      filter drops nothing and the full pie adds up to the revenue and
      expenditure totals together. */
  lemma FullPieIsBothTotals(d: FinanceBreakdown)
    requires forall e :: e in d.expenditure ==> e.value > 0.0
    requires forall e :: e in d.revenue ==> e.value > 0.0
    ensures Filter(Combined(d), IsPositiveItem) == Combined(d)
    ensures ItemsTotal(ChartData(Some(d), All)) == TotalExpenditure(Some(d)) + TotalRevenue(Some(d))
  {
    var c := Combined(d);
    assert forall i :: 0 <= i < |c| ==> IsPositiveItem(c[i]) by {
      forall i | 0 <= i < |c| ensures IsPositiveItem(c[i]) {
        if i < |d.expenditure| {
          assert d.expenditure[i] in d.expenditure;
        } else {
          assert d.revenue[i - |d.expenditure|] in d.revenue;
        }
      }
    }
    FilterKeepsAll(c, IsPositiveItem);
    FilterKeepsAll(c, AnyItem);
    ItemsTotalAppend(Tag(d.expenditure, Expense, 0), Tag(d.revenue, Revenue, |d.expenditure|));
    TagTotal(d.expenditure, Expense, 0);
    TagTotal(d.revenue, Revenue, |d.expenditure|);
  }

  /** Fed with the body `GET /finance` sends, the pie shows every category the
      server listed and its slices add up to the two totals. */
  lemma ServerBodyPie(sumData: Option<ColumnSums>)
    ensures var d := FinanceController.AggregateBreakdown(sumData);
      && ChartData(Some(d), All) == Combined(d)
      && ItemsTotal(ChartData(Some(d), All)) == TotalExpenditure(Some(d)) + TotalRevenue(Some(d))
  {
    var d := FinanceController.AggregateBreakdown(sumData);
    if sumData.Some? {
      FinanceController.ExpenditureSpec(sumData.value);
      FinanceController.RevenueSpec(sumData.value);
    }
    FullPieIsBothTotals(d);
    FilterKeepsAll(Combined(d), AnyItem);
  }
}
