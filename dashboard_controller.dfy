/** `getDashboardMetrics` (server/source/controllers/dashboardController.ts): the
    `GET /dashboard` handler. The four database queries are its inputs; what it
    computes from their rows is modelled here. */
module DashboardController {
  import opened Dates
  import opened Wrappers
  import opened Tally
  import opened Seqs
  import opened Records

  // ---- Popular events: `findMany({ take: 10, orderBy: { buzzMeter: "desc" } })`

  const PopularEventsLimit: nat := 10

  predicate ByBuzzDescending(s: seq<Event>) {
    forall i, j :: 0 <= i < j < |s| ==> s[i].buzzMeter >= s[j].buzzMeter
  }

  lemma ConsByBuzz(h: Event, t: seq<Event>)
    requires ByBuzzDescending(t)
    requires t != [] ==> h.buzzMeter >= t[0].buzzMeter
    ensures ByBuzzDescending([h] + t)
  {
    forall i, j | 0 <= i < j < |[h] + t|
      ensures ([h] + t)[i].buzzMeter >= ([h] + t)[j].buzzMeter
    {
      if i == 0 && j > 1 {
        assert t[0].buzzMeter >= t[j - 1].buzzMeter;
      }
    }
  }

  function InsertByBuzz(e: Event, s: seq<Event>): (r: seq<Event>)
    requires ByBuzzDescending(s)
    ensures ByBuzzDescending(r)
    ensures multiset(r) == multiset(s) + multiset{e}
    ensures r[0] == e || (s != [] && r[0] == s[0])
  {
    if s == [] then [e]
    else if e.buzzMeter >= s[0].buzzMeter then
      ConsByBuzz(e, s);
      [e] + s
    else
      assert s == [s[0]] + s[1..];
      var t := InsertByBuzz(e, s[1..]);
      ConsByBuzz(s[0], t);
      [s[0]] + t
  }

  /** A stable descending sort by `buzzMeter`; the database may order events of
      equal score differently, which the contract of `PopularEvents` allows. */
  function SortByBuzz(s: seq<Event>): (r: seq<Event>)
    ensures ByBuzzDescending(r)
    ensures multiset(r) == multiset(s)
  {
    if s == [] then []
    else
      assert s == [s[0]] + s[1..];
      InsertByBuzz(s[0], SortByBuzz(s[1..]))
  }

  /** The ten events with the highest `buzzMeter` (all of them when there are
      fewer), listed by non-increasing score; every event left out scores no
      higher than every event listed. */
  function PopularEvents(events: seq<Event>): (r: seq<Event>)
    ensures |r| == if |events| < PopularEventsLimit then |events| else PopularEventsLimit
    ensures ByBuzzDescending(r)
    ensures multiset(r) <= multiset(events)
    ensures forall e, x :: e in multiset(events) - multiset(r) && x in r ==> e.buzzMeter <= x.buzzMeter
  {
    var sorted := SortByBuzz(events);
    var n := if |sorted| < PopularEventsLimit then |sorted| else PopularEventsLimit;
    SplitSorted(sorted, n);
    sorted[..n]
  }

  /** Cutting a sorted list in two: the front keeps the order, and every
      element of the back scores no higher than every element of the front. */
  lemma SplitSorted(sorted: seq<Event>, n: nat)
    requires ByBuzzDescending(sorted) && n <= |sorted|
    ensures ByBuzzDescending(sorted[..n])
    ensures multiset(sorted) - multiset(sorted[..n]) == multiset(sorted[n..])
    ensures forall e, x :: e in multiset(sorted[n..]) && x in sorted[..n] ==> e.buzzMeter <= x.buzzMeter
  {
    forall e: Event, x: Event | e in multiset(sorted[n..]) && x in sorted[..n]
      ensures e.buzzMeter <= x.buzzMeter
    {
      BackBelowFront(sorted, n, e, x);
    }
    assert sorted == sorted[..n] + sorted[n..];
  }

  lemma BackBelowFront(sorted: seq<Event>, n: nat, e: Event, x: Event)
    requires ByBuzzDescending(sorted) && n <= |sorted|
    requires e in multiset(sorted[n..]) && x in sorted[..n]
    ensures e.buzzMeter <= x.buzzMeter
  {
    var k :| n <= k < |sorted| && sorted[k] == e;
    var i :| 0 <= i < n && sorted[i] == x;
  }

  // ---- Registration summary: paid registrations counted per UTC day

  predicate IsPaid(r: Registration) {
    r.paymentStatus
  }

  /** The rows of `findMany({ where: { paymentStatus: true } })`. */
  function PaidOnly(registrations: seq<Registration>): (r: seq<Registration>)
    ensures forall x :: x in r <==> x in registrations && x.paymentStatus
    ensures |r| <= |registrations|
  {
    FilterMembersAll(registrations, IsPaid);
    Filter(registrations, IsPaid)
  }

  /** `regDate.toISOString().split('T')[0]`: the UTC calendar day. */
  function IsoDay(t: DateTime): Date {
    t.date
  }

  /** Two timestamps share a histogram key exactly when they fall on the same
      UTC day, whatever their time of day. */
  lemma SameIsoDay(t: DateTime, u: DateTime)
    ensures IsoDay(t) == IsoDay(u) <==> t.date == u.date
    ensures IsoDay(t) == IsoDay(DateTime(t.date, 0))
  {
  }

  /** One point of weight 1 per registration, dated with its UTC day. */
  function DayEntries(regs: seq<Registration>): (r: seq<DateCount>)
    ensures |r| == |regs|
  {
    seq(|regs|, i requires 0 <= i < |regs| => DateCount(IsoDay(regs[i].regDate), 1))
  }

  /** The number of paid registrations made on UTC day `d`. */
  function PaidOn(registrations: seq<Registration>, d: Date): nat {
    if registrations == [] then 0
    else
      (if registrations[0].paymentStatus && IsoDay(registrations[0].regDate) == d then 1 else 0)
      + PaidOn(registrations[1..], d)
  }

  /** The dictionary loop: `countsByDate[date] = (countsByDate[date] || 0) + 1`.
      A JavaScript object keeps its (non-numeric) keys in insertion order,
      which `dateKeys` records. */
  method CountByDate(paid: seq<Registration>) returns (dateKeys: seq<Date>, countsByDate: map<Date, nat>)
    ensures dateKeys == Dedup(DatesOf(DayEntries(paid)))
    ensures forall k :: k in countsByDate <==> k in dateKeys
    ensures forall k :: k in countsByDate ==> countsByDate[k] == CountOn(DayEntries(paid), k)
  {
    countsByDate := map[];
    dateKeys := [];
    ghost var entries := DayEntries(paid);
    for i := 0 to |paid|
      invariant IsTally(entries[..i], dateKeys, countsByDate)
    {
      var date := IsoDay(paid[i].regDate);
      assert entries[..i + 1] == entries[..i] + [DateCount(date, 1)];
      TallyStep(entries[..i], DateCount(date, 1), dateKeys, countsByDate);
      var previous := if date in countsByDate then countsByDate[date] else 0;
      if date !in countsByDate {
        dateKeys := dateKeys + [date];
      }
      countsByDate := countsByDate[date := previous + 1];
    }
    assert entries[..|paid|] == entries;
  }

  lemma ConsDate(h: Date, t: seq<Date>)
    requires StrictlyAscendingDates(t)
    requires t != [] ==> Before(h, t[0])
    ensures StrictlyAscendingDates([h] + t)
  {
    forall i, j | 0 <= i < j < |[h] + t|
      ensures Before(([h] + t)[i], ([h] + t)[j])
    {
      if i == 0 && j > 1 {
        BeforeIsStrictTotalOrder(h, t[0], t[j - 1]);
      }
    }
  }

  function InsertDate(x: Date, s: seq<Date>): (r: seq<Date>)
    requires StrictlyAscendingDates(s) && x !in s
    ensures StrictlyAscendingDates(r)
    ensures multiset(r) == multiset(s) + multiset{x}
    ensures r[0] == x || (s != [] && r[0] == s[0])
  {
    if s == [] then [x]
    else if Before(x, s[0]) then
      ConsDate(x, s);
      [x] + s
    else
      BeforeIsStrictTotalOrder(x, s[0], x);
      assert s == [s[0]] + s[1..];
      var t := InsertDate(x, s[1..]);
      assert s[0] != x && !Before(x, s[0]);
      ConsDate(s[0], t);
      [s[0]] + t
  }

  /** `.sort()` of the distinct date keys: the same keys, oldest first. */
  function SortDates(s: seq<Date>): (r: seq<Date>)
    requires Distinct(s)
    ensures StrictlyAscendingDates(r)
    ensures multiset(r) == multiset(s)
  {
    if s == [] then []
    else
      assert s == [s[0]] + s[1..];
      var rest := SortDates(s[1..]);
      assert s[0] !in multiset(rest);
      InsertDate(s[0], rest)
  }

  /** `registrationSummary`: one `{date, count}` point per UTC day that has a
      paid registration, oldest first. */
  function RegistrationSummary(registrations: seq<Registration>): (r: seq<DateCount>)
    ensures StrictlyAscendingDates(DatesOf(r))
    ensures |r| <= |PaidOnly(registrations)|
  {
    var entries := DayEntries(PaidOnly(registrations));
    var days := SortDates(Dedup(DatesOf(entries)));
    assert |days| == |multiset(days)|;
    assert DatesOf(Buckets(entries, days)) == days;
    Buckets(entries, days)
  }

  /** The histogram step of the handler as it runs: the query's filter, the
      counting loop, then `Object.keys(...).sort().map(...)`. */
  method BuildRegistrationSummary(registrations: seq<Registration>) returns (summary: seq<DateCount>)
    ensures summary == RegistrationSummary(registrations)
  {
    var paid := PaidOnly(registrations);
    var dateKeys, countsByDate := CountByDate(paid);
    var sorted := SortDates(dateKeys);
    SortedKeysKept(dateKeys, sorted);
    assert forall i :: 0 <= i < |sorted| ==> sorted[i] in countsByDate;
    summary := seq(|sorted|, i requires 0 <= i < |sorted| => DateCount(sorted[i], countsByDate[sorted[i]]));
    ReadOffBuckets(DayEntries(paid), countsByDate, sorted);
  }

  lemma SortedKeysKept(keys: seq<Date>, sorted: seq<Date>)
    requires multiset(sorted) == multiset(keys)
    ensures forall i :: 0 <= i < |sorted| ==> sorted[i] in keys
  {
    forall i | 0 <= i < |sorted|
      ensures sorted[i] in keys
    {
      assert sorted[i] in multiset(sorted);
    }
  }

  lemma {:induction false} DayEntriesAppend(a: seq<Registration>, b: seq<Registration>)
    ensures DayEntries(a + b) == DayEntries(a) + DayEntries(b)
  {
  }

  lemma {:induction false} DayEntriesTotal(regs: seq<Registration>)
    ensures TotalCount(DayEntries(regs)) == |regs|
  {
    if regs != [] {
      assert DayEntries(regs)[..|regs| - 1] == DayEntries(regs[..|regs| - 1]);
      DayEntriesTotal(regs[..|regs| - 1]);
    }
  }

  /** Counting the day entries of the paid rows counts the paid registrations
      of each day. */
  lemma {:induction false} CountOnIsPaidOn(registrations: seq<Registration>, d: Date)
    ensures CountOn(DayEntries(PaidOnly(registrations)), d) == PaidOn(registrations, d)
  {
    if registrations != [] {
      var r := registrations[0];
      var head := if IsPaid(r) then [r] else [];
      assert PaidOnly(registrations) == head + PaidOnly(registrations[1..]);
      DayEntriesAppend(head, PaidOnly(registrations[1..]));
      CountOnAppend(DayEntries(head), DayEntries(PaidOnly(registrations[1..])), d);
      CountOnIsPaidOn(registrations[1..], d);
      if IsPaid(r) {
        assert DayEntries(head) == [DateCount(IsoDay(r.regDate), 1)];
        assert [DateCount(IsoDay(r.regDate), 1)][..0] == [];
      }
    }
  }

  /** The days of the summary are the distinct days of the paid rows, sorted. */
  lemma SummaryDays(registrations: seq<Registration>)
    ensures DatesOf(RegistrationSummary(registrations))
         == SortDates(Dedup(DatesOf(DayEntries(PaidOnly(registrations)))))
  {
  }

  lemma SummaryHasPaidDays(registrations: seq<Registration>, d: Date)
    ensures d in DatesOf(RegistrationSummary(registrations)) <==>
      exists r :: r in registrations && r.paymentStatus && IsoDay(r.regDate) == d
  {
    var entries := DayEntries(PaidOnly(registrations));
    var keys := Dedup(DatesOf(entries));
    SummaryDays(registrations);
    assert d in SortDates(keys) <==> d in multiset(keys);
    assert d in keys <==> d in DatesOf(entries);
    if d in DatesOf(entries) {
      PaidDayHasRegistration(registrations, d);
    }
    if exists r :: r in registrations && r.paymentStatus && IsoDay(r.regDate) == d {
      var r :| r in registrations && r.paymentStatus && IsoDay(r.regDate) == d;
      PaidRegistrationHasDay(registrations, r);
    }
  }

  lemma PaidDayHasRegistration(registrations: seq<Registration>, d: Date)
    requires d in DatesOf(DayEntries(PaidOnly(registrations)))
    ensures exists r :: r in registrations && r.paymentStatus && IsoDay(r.regDate) == d
  {
    var paid := PaidOnly(registrations);
    var i :| 0 <= i < |paid| && DatesOf(DayEntries(paid))[i] == d;
    FilterMembers(registrations, IsPaid, paid[i]);
    assert paid[i] in paid;
  }

  lemma PaidRegistrationHasDay(registrations: seq<Registration>, r: Registration)
    requires r in registrations && r.paymentStatus
    ensures IsoDay(r.regDate) in DatesOf(DayEntries(PaidOnly(registrations)))
  {
    var paid := PaidOnly(registrations);
    FilterMembers(registrations, IsPaid, r);
    var i :| 0 <= i < |paid| && paid[i] == r;
    assert DatesOf(DayEntries(paid))[i] == IsoDay(r.regDate);
  }

  lemma SummaryCounts(registrations: seq<Registration>, p: DateCount)
    requires p in RegistrationSummary(registrations)
    ensures p.count == PaidOn(registrations, p.date) && p.count >= 1
  {
    var entries := DayEntries(PaidOnly(registrations));
    var keys := Dedup(DatesOf(entries));
    var sorted := SortDates(keys);
    CountOnIsPaidOn(registrations, p.date);
    var j :| 0 <= j < |sorted| && RegistrationSummary(registrations)[j] == p;
    assert p.date == sorted[j] && p.date in multiset(keys);
    assert p.date in keys;
    assert p.date in DatesOf(entries);
    var i :| 0 <= i < |entries| && DatesOf(entries)[i] == p.date;
    CountOnCoversPoint(entries, i);
  }

  lemma SummaryTotal(registrations: seq<Registration>)
    ensures TotalCount(RegistrationSummary(registrations)) == |PaidOnly(registrations)|
  {
    var entries := DayEntries(PaidOnly(registrations));
    var keys := Dedup(DatesOf(entries));
    BucketsPermutation(entries, SortDates(keys), keys);
    GroupedTotal(entries);
    DayEntriesTotal(PaidOnly(registrations));
  }

  /** What the summary promises: days strictly ascending (so no day twice);
      exactly the UTC days of paid registrations; each count the number of paid
      registrations of that day, hence at least 1; and the counts adding up to
      the number of paid registrations. */
  lemma RegistrationSummarySpec(registrations: seq<Registration>)
    ensures StrictlyAscendingDates(DatesOf(RegistrationSummary(registrations)))
    ensures forall d :: d in DatesOf(RegistrationSummary(registrations)) <==>
      exists r :: r in registrations && r.paymentStatus && IsoDay(r.regDate) == d
    ensures forall p :: p in RegistrationSummary(registrations) ==>
      p.count == PaidOn(registrations, p.date) && p.count >= 1
    ensures TotalCount(RegistrationSummary(registrations)) == |PaidOnly(registrations)|
  {
    SummaryDays(registrations);
    forall d
      ensures d in DatesOf(RegistrationSummary(registrations)) <==>
        exists r :: r in registrations && r.paymentStatus && IsoDay(r.regDate) == d
    {
      SummaryHasPaidDays(registrations, d);
    }
    forall p | p in RegistrationSummary(registrations)
      ensures p.count == PaidOn(registrations, p.date) && p.count >= 1
    {
      SummaryCounts(registrations, p);
    }
    SummaryTotal(registrations);
  }

  /** An unpaid registration, wherever it stands, changes no count. */
  lemma UnpaidRegistrationIgnored(before: seq<Registration>, r: Registration, after: seq<Registration>)
    requires !r.paymentStatus
    ensures RegistrationSummary(before + [r] + after) == RegistrationSummary(before + after)
  {
    UnpaidFilteredOut(before, r, after);
  }

  lemma UnpaidFilteredOut(before: seq<Registration>, r: Registration, after: seq<Registration>)
    requires !r.paymentStatus
    ensures PaidOnly(before + [r] + after) == PaidOnly(before + after)
  {
    FilterSkipsRejected(before, r, after, IsPaid);
  }

  // ---- Expense and revenue breakdowns: every category, null summed as 0

  /** `expenseBreakdown`, in the dashboard's category order. */
  function ExpenseBreakdown(s: ColumnSums): (r: seq<BreakdownEntry>)
    ensures |r| == 5
    ensures r[0] == BreakdownEntry("Purchase Cost", OrZero(s.pCost))
    ensures r[1] == BreakdownEntry("Hall Rental Cost", OrZero(s.hCost))
    ensures r[2] == BreakdownEntry("Guest Cost", OrZero(s.gCost))
    ensures r[3] == BreakdownEntry("Transport Cost", OrZero(s.tCost))
    ensures r[4] == BreakdownEntry("Prize Pool", OrZero(s.prizePool))
  {
    [ BreakdownEntry("Purchase Cost", OrZero(s.pCost)),
      BreakdownEntry("Hall Rental Cost", OrZero(s.hCost)),
      BreakdownEntry("Guest Cost", OrZero(s.gCost)),
      BreakdownEntry("Transport Cost", OrZero(s.tCost)),
      BreakdownEntry("Prize Pool", OrZero(s.prizePool)) ]
  }

  /** `revenueBreakdown`. */
  function RevenueBreakdown(s: ColumnSums): (r: seq<BreakdownEntry>)
    ensures |r| == 2
    ensures r[0] == BreakdownEntry("Sponsorship", OrZero(s.sGot))
    ensures r[1] == BreakdownEntry("Ticket Profit", OrZero(s.ticketProfit))
  {
    [ BreakdownEntry("Sponsorship", OrZero(s.sGot)),
      BreakdownEntry("Ticket Profit", OrZero(s.ticketProfit)) ]
  }

  /** Under the include-every-category policy nothing is lost: the two lists
      add up to the sum of all seven columns, nulls counted as 0. */
  lemma BreakdownsKeepColumnTotal(s: ColumnSums)
    ensures ValueTotal(ExpenseBreakdown(s)) + ValueTotal(RevenueBreakdown(s))
         == OrZero(s.pCost) + OrZero(s.hCost) + OrZero(s.gCost) + OrZero(s.tCost)
          + OrZero(s.prizePool) + OrZero(s.sGot) + OrZero(s.ticketProfit)
  {
    var e := ExpenseBreakdown(s);
    forall k | 0 <= k < |e|
      ensures ValueTotal(e[k..]) == e[k].value + ValueTotal(e[k + 1..])
    {
      assert e[k..][1..] == e[k + 1..];
    }
    assert e[5..] == [];
    var r := RevenueBreakdown(s);
    forall k | 0 <= k < |r|
      ensures ValueTotal(r[k..]) == r[k].value + ValueTotal(r[k + 1..])
    {
      assert r[k..][1..] == r[k + 1..];
    }
    assert r[2..] == [];
    assert e[0..] == e && r[0..] == r;
  }

  // ---- Participant types: `groupBy` rows renamed

  /** `formattedCounts`: each `groupBy` row as `{ userType, count }`. */
  function FormattedCounts(groups: seq<GroupRow>): (r: seq<TypeCount>)
    ensures |r| == |groups|
    ensures forall i :: 0 <= i < |groups| ==>
      r[i].userType == groups[i].userType && r[i].count == groups[i].countAll
  {
    seq(|groups|, i requires 0 <= i < |groups| => TypeCount(groups[i].userType, groups[i].countAll))
  }

  /** The number of users of type `t`. */
  function UsersOfType(users: seq<User>, t: string): nat {
    if users == [] then 0
    else UsersOfType(users[..|users| - 1], t) + (if users[|users| - 1].userType == t then 1 else 0)
  }

  function TypesOf(groups: seq<GroupRow>): (r: seq<string>)
    ensures |r| == |groups|
    ensures forall i :: 0 <= i < |groups| ==> r[i] == groups[i].userType
  {
    seq(|groups|, i requires 0 <= i < |groups| => groups[i].userType)
  }

  /** What `groupBy(["userType"])` with `_count._all` returns: one row per user
      type present, with the number of users of that type. */
  predicate IsUserTypeGrouping(groups: seq<GroupRow>, users: seq<User>) {
    && Distinct(TypesOf(groups))
    && (forall i :: 0 <= i < |groups| ==>
         groups[i].countAll == UsersOfType(users, groups[i].userType) && groups[i].countAll > 0)
    && (forall u :: u in users ==> u.userType in TypesOf(groups))
  }

  /** The number of users whose type is in `types`. */
  function UsersOfTypes(users: seq<User>, types: seq<string>): nat {
    if types == [] then 0
    else UsersOfTypes(users, types[..|types| - 1]) + UsersOfType(users, types[|types| - 1])
  }

  lemma {:induction false} UsersOfTypesExtend(users: seq<User>, u: User, types: seq<string>)
    requires Distinct(types)
    ensures UsersOfTypes(users + [u], types)
         == UsersOfTypes(users, types) + (if u.userType in types then 1 else 0)
    decreases |types|
  {
    if types != [] {
      var init := types[..|types| - 1];
      assert u.userType in types <==> u.userType in init || u.userType == types[|types| - 1];
      UsersOfTypesExtend(users, u, init);
      assert (users + [u])[..|users + [u]| - 1] == users;
    }
  }

  lemma {:induction false} UsersOfTypesCovering(users: seq<User>, types: seq<string>)
    requires Distinct(types)
    requires forall u :: u in users ==> u.userType in types
    ensures UsersOfTypes(users, types) == |users|
    decreases |users|
  {
    if users == [] {
      assert UsersOfTypes([], types) == 0 by {
        UsersOfTypesEmpty(types);
      }
    } else {
      var init, u := users[..|users| - 1], users[|users| - 1];
      assert users == init + [u];
      UsersOfTypesCovering(init, types);
      UsersOfTypesExtend(init, u, types);
    }
  }

  lemma {:induction false} UsersOfTypesEmpty(types: seq<string>)
    ensures UsersOfTypes([], types) == 0
  {
    if types != [] {
      UsersOfTypesEmpty(types[..|types| - 1]);
    }
  }

  lemma {:induction false} FormattedCountsSum(groups: seq<GroupRow>, users: seq<User>)
    requires forall i :: 0 <= i < |groups| ==> groups[i].countAll == UsersOfType(users, groups[i].userType)
    ensures TypeCountTotal(FormattedCounts(groups)) == UsersOfTypes(users, TypesOf(groups))
  {
    if groups != [] {
      var init := groups[..|groups| - 1];
      assert FormattedCounts(groups)[..|groups| - 1] == FormattedCounts(init);
      assert TypesOf(groups)[..|groups| - 1] == TypesOf(init);
      FormattedCountsSum(init, users);
    }
  }

  /** When the rows are a grouping of the users by type, the formatted counts
      add up to the number of users. */
  lemma FormattedCountsTotal(groups: seq<GroupRow>, users: seq<User>)
    requires IsUserTypeGrouping(groups, users)
    ensures TypeCountTotal(FormattedCounts(groups)) == |users|
  {
    FormattedCountsSum(groups, users);
    UsersOfTypesCovering(users, TypesOf(groups));
  }

  // ---- The handler

  const DashboardErrorMessage := "Error retrieving dashboard metrics"

  /** `getDashboardMetrics`: any failing query answers 500 with one message and
      no partial payload; otherwise the five slices. `expenseBreakdown` and
      `revenueBreakdown` stay `null` when the aggregate has no `_sum` object. */
  method GetDashboardMetrics(
    events: QueryResult<seq<Event>>,
    registrations: QueryResult<seq<Registration>>,
    financeAggregates: QueryResult<Option<ColumnSums>>,
    userTypeCounts: QueryResult<seq<GroupRow>>)
    returns (res: Response<DashboardMetrics>)
    ensures res.Error? <==>
      events.Threw? || registrations.Threw? || financeAggregates.Threw? || userTypeCounts.Threw?
    ensures res.Error? ==> res == Error(500, DashboardErrorMessage)
    ensures res.Json? ==>
      && events.Returned? && registrations.Returned? && financeAggregates.Returned? && userTypeCounts.Returned?
      && res.body.popularEvents == PopularEvents(events.value)
      && res.body.registrationSummary == RegistrationSummary(registrations.value)
      && res.body.expenseBreakdown ==
           (if financeAggregates.value.Some? then Some(ExpenseBreakdown(financeAggregates.value.value)) else None)
      && res.body.revenueBreakdown ==
           (if financeAggregates.value.Some? then Some(RevenueBreakdown(financeAggregates.value.value)) else None)
      && res.body.formattedCounts == FormattedCounts(userTypeCounts.value)
  {
    if events.Threw? || registrations.Threw? || financeAggregates.Threw? || userTypeCounts.Threw? {
      return Error(500, DashboardErrorMessage);
    }
    var popularEvents := PopularEvents(events.value);
    var registrationSummary := BuildRegistrationSummary(registrations.value);
    var sumData := financeAggregates.value;
    var expenseBreakdown: Option<seq<BreakdownEntry>> := None;
    var revenueBreakdown: Option<seq<BreakdownEntry>> := None;
    if sumData.Some? {
      expenseBreakdown := Some(ExpenseBreakdown(sumData.value));
      revenueBreakdown := Some(RevenueBreakdown(sumData.value));
    }
    var formattedCounts := FormattedCounts(userTypeCounts.value);
    res := Json(DashboardMetrics(popularEvents, registrationSummary, expenseBreakdown, revenueBreakdown, formattedCounts));
  }
}
