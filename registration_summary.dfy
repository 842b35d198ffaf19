/** The registration-summary card (client/src/app/dashboard/CardRegistrationSummary.tsx):
    the server's daily points re-bucketed by week or month, the
    period-over-period change of each bar, the first-versus-last trend, the
    total and the peak period. Dates are read in UTC. */
module RegistrationSummaryCard {
  import opened Dates
  import opened Wrappers
  import opened Tally

  // ---- Re-bucketing

  /** Each point dated with its bucket key instead of its day. */
  function Keyed(data: seq<DateCount>, getKey: Date -> Date): (r: seq<DateCount>)
    ensures |r| == |data|
    ensures forall i :: 0 <= i < |data| ==> r[i] == DateCount(getKey(data[i].date), data[i].count)
  {
    seq(|data|, i requires 0 <= i < |data| => DateCount(getKey(data[i].date), data[i].count))
  }

  /** `aggregate`: sums the counts per bucket key. The object `summedData`
      becomes a map with the insertion order of its keys kept in `order`,
      which is the order `Object.values` lists them in (the keys are
      `YYYY-MM-DD` strings, never array indices). Each stored `{date, count}`
      has its own key as `date`, so the map holds just the count. */
  method Aggregate(dataToProcess: seq<DateCount>, getKey: Date -> Date) returns (r: seq<DateCount>)
    ensures r == Grouped(Keyed(dataToProcess, getKey))
  {
    var summedData: map<Date, nat> := map[];
    var order: seq<Date> := [];
    ghost var entries := Keyed(dataToProcess, getKey);
    for i := 0 to |dataToProcess|
      invariant IsTally(entries[..i], order, summedData)
    {
      var entry := dataToProcess[i];
      var key := getKey(entry.date);
      assert entries[..i + 1] == entries[..i] + [DateCount(key, entry.count)];
      ghost var before, orderBefore := summedData, order;
      if key !in summedData {
        summedData := summedData[key := 0];
        order := order + [key];
      }
      summedData := summedData[key := summedData[key] + entry.count];
      assert summedData == before[key := (if key in before then before[key] else 0) + entry.count];
      TallyStep(entries[..i], DateCount(key, entry.count), orderBefore, before);
    }
    assert entries[..|dataToProcess|] == entries;
    TallyIsGrouped(entries, order, summedData);
    r := seq(|order|, i requires 0 <= i < |order| => DateCount(order[i], summedData[order[i]]));
  }

  /** `processedData` as a value: nothing for no data, weekly or monthly
      buckets, and the daily points themselves for any other timeframe. */
  function Processed(dailyData: seq<DateCount>, timeframe: string): (r: seq<DateCount>)
    ensures |r| <= |dailyData|
    ensures TotalCount(r) == TotalCount(dailyData)
  {
    if dailyData == [] then []
    else if timeframe == "weekly" then
      RebucketedSizeAndTotal(dailyData, WeekStart);
      Grouped(Keyed(dailyData, WeekStart))
    else if timeframe == "monthly" then
      RebucketedSizeAndTotal(dailyData, MonthStart);
      Grouped(Keyed(dailyData, MonthStart))
    else dailyData
  }

  /** Re-bucketing never adds bars and keeps the total. */
  lemma RebucketedSizeAndTotal(data: seq<DateCount>, getKey: Date -> Date)
    ensures |Grouped(Keyed(data, getKey))| <= |data|
    ensures TotalCount(Grouped(Keyed(data, getKey))) == TotalCount(data)
  {
    var e := Keyed(data, getKey);
    assert |Grouped(e)| == |Dedup(DatesOf(e))| <= |DatesOf(e)| == |data|;
    GroupedTotal(e);
    KeyedTotal(data, getKey);
  }

  /** The `useMemo` body computing `processedData`. */
  method ProcessedData(dailyData: seq<DateCount>, timeframe: string) returns (r: seq<DateCount>)
    ensures r == Processed(dailyData, timeframe)
  {
    if |dailyData| == 0 {
      return [];
    }
    if timeframe == "weekly" {
      r := Aggregate(dailyData, WeekStart);
    } else if timeframe == "monthly" {
      r := Aggregate(dailyData, MonthStart);
    } else {
      r := dailyData;
    }
  }

  /** The sum of the counts of the points whose bucket key is `k`. */
  function CountInBucket(data: seq<DateCount>, getKey: Date -> Date, k: Date): nat {
    if data == [] then 0
    else
      var last := data[|data| - 1];
      CountInBucket(data[..|data| - 1], getKey, k) + (if getKey(last.date) == k then last.count else 0)
  }

  lemma {:induction false} CountOnKeyed(data: seq<DateCount>, getKey: Date -> Date, k: Date)
    ensures CountOn(Keyed(data, getKey), k) == CountInBucket(data, getKey, k)
  {
    if data != [] {
      assert Keyed(data, getKey)[..|data| - 1] == Keyed(data[..|data| - 1], getKey);
      CountOnKeyed(data[..|data| - 1], getKey, k);
    }
  }

  lemma KeyedDates(data: seq<DateCount>, getKey: Date -> Date, k: Date)
    ensures k in DatesOf(Keyed(data, getKey)) <==> exists i :: 0 <= i < |data| && getKey(data[i].date) == k
  {
    if k in DatesOf(Keyed(data, getKey)) {
      var i :| 0 <= i < |data| && DatesOf(Keyed(data, getKey))[i] == k;
      assert getKey(data[i].date) == k;
    }
  }

  /** Re-bucketing by any key: one bucket per distinct key met, in the order
      first met, each holding the sum of the counts of its points, and the
      total kept. */
  lemma AggregatedSpec(data: seq<DateCount>, getKey: Date -> Date)
    ensures Distinct(DatesOf(Grouped(Keyed(data, getKey))))
    ensures forall k :: k in DatesOf(Grouped(Keyed(data, getKey))) <==>
      exists i :: 0 <= i < |data| && getKey(data[i].date) == k
    ensures forall b :: b in Grouped(Keyed(data, getKey)) ==> b.count == CountInBucket(data, getKey, b.date)
    ensures TotalCount(Grouped(Keyed(data, getKey))) == TotalCount(data)
  {
    var e := Keyed(data, getKey);
    GroupedSpec(e);
    forall k
      ensures k in DatesOf(Grouped(e)) <==> exists i :: 0 <= i < |data| && getKey(data[i].date) == k
    {
      KeyedDates(data, getKey, k);
    }
    forall b | b in Grouped(e)
      ensures b.count == CountInBucket(data, getKey, b.date)
    {
      CountOnKeyed(data, getKey, b.date);
    }
    KeyedTotal(data, getKey);
  }

  lemma {:induction false} KeyedTotal(data: seq<DateCount>, getKey: Date -> Date)
    ensures TotalCount(Keyed(data, getKey)) == TotalCount(data)
  {
    if data != [] {
      assert Keyed(data, getKey)[..|data| - 1] == Keyed(data[..|data| - 1], getKey);
      KeyedTotal(data[..|data| - 1], getKey);
    }
  }

  /** `totalRegistrations` is the same on every timeframe, and 0 without data. */
  lemma ProcessedKeepsTotal(dailyData: seq<DateCount>, timeframe: string)
    ensures TotalRegistrations(Processed(dailyData, timeframe)) == TotalCount(dailyData)
    ensures dailyData == [] ==> TotalRegistrations(Processed(dailyData, timeframe)) == 0
  {
  }

  /** Every bucket key is the key of some point. */
  lemma BucketKeyOfSomePoint(data: seq<DateCount>, getKey: Date -> Date, b: DateCount)
    requires b in Grouped(Keyed(data, getKey))
    ensures exists i :: 0 <= i < |data| && getKey(data[i].date) == b.date
  {
    AggregatedSpec(data, getKey);
    assert b.date in DatesOf(Grouped(Keyed(data, getKey)));
  }

  /** The weekly and monthly views are the groupings by week and by month,
      also for no data; `daily` and any other timeframe show the points as
      they came. */
  lemma ProcessedIsGrouped(dailyData: seq<DateCount>, timeframe: string)
    ensures Processed(dailyData, "weekly") == Grouped(Keyed(dailyData, WeekStart))
    ensures Processed(dailyData, "monthly") == Grouped(Keyed(dailyData, MonthStart))
    ensures timeframe != "weekly" && timeframe != "monthly" ==> Processed(dailyData, timeframe) == dailyData
  {
    assert "monthly" != "weekly";
  }

  /** A weekly bucket is a Sunday and sums exactly the days of its
      Sunday-to-Saturday week. */
  lemma {:induction false} WeeklyBucket(dailyData: seq<DateCount>, b: DateCount)
    requires forall i :: 0 <= i < |dailyData| ==> Valid(dailyData[i].date)
    requires b in Grouped(Keyed(dailyData, WeekStart))
    ensures Valid(b.date) && Weekday(b.date) == 0
    ensures b.count == CountInBucket(dailyData, WeekStart, b.date)
  {
    BucketKeyOfSomePoint(dailyData, WeekStart, b);
    var i :| 0 <= i < |dailyData| && WeekStart(dailyData[i].date) == b.date;
    AggregatedSpec(dailyData, WeekStart);
  }

  /** A monthly bucket is the first day of a month and sums exactly the days
      of that calendar month. */
  lemma {:induction false} MonthlyBucket(dailyData: seq<DateCount>, b: DateCount)
    requires forall i :: 0 <= i < |dailyData| ==> Valid(dailyData[i].date)
    requires b in Grouped(Keyed(dailyData, MonthStart))
    ensures Valid(b.date) && b.date.day == 1
    ensures b.count == CountInBucket(dailyData, MonthStart, b.date)
  {
    BucketKeyOfSomePoint(dailyData, MonthStart, b);
    var i :| 0 <= i < |dailyData| && MonthStart(dailyData[i].date) == b.date;
    AggregatedSpec(dailyData, MonthStart);
  }

  /** A key that never moves backwards in time over ascending points yields
      buckets in ascending order: `summedData` meets the buckets in the order of
      their first point. */
  lemma {:induction false} BucketsAscending(data: seq<DateCount>, getKey: Date -> Date)
    requires forall i, j :: 0 <= i < j < |data| ==> NotAfter(getKey(data[i].date), getKey(data[j].date))
    ensures StrictlyAscendingDates(DatesOf(Grouped(Keyed(data, getKey))))
  {
    var e := Keyed(data, getKey);
    var g := Grouped(e);
    GroupedSpec(e);
    forall i, j | 0 <= i < j < |g|
      ensures Before(g[i].date, g[j].date)
    {
      assert DatesOf(g)[i] == g[i].date && DatesOf(g)[j] == g[j].date;
      assert g[i].date in DatesOf(e) && g[j].date in DatesOf(e);
      var p, q := FirstIndex(DatesOf(e), g[i].date), FirstIndex(DatesOf(e), g[j].date);
      assert p < q;
      assert getKey(data[p].date) == g[i].date && getKey(data[q].date) == g[j].date;
    }
  }

  /** Over the server's ascending days, the weekly bars come out in
      chronological order. */
  lemma WeeklyBucketsAscending(dailyData: seq<DateCount>)
    requires forall i :: 0 <= i < |dailyData| ==> Valid(dailyData[i].date)
    requires StrictlyAscendingDates(DatesOf(dailyData))
    ensures StrictlyAscendingDates(DatesOf(Processed(dailyData, "weekly")))
  {
    forall i, j | 0 <= i < j < |dailyData|
      ensures NotAfter(WeekStart(dailyData[i].date), WeekStart(dailyData[j].date))
    {
      assert DatesOf(dailyData)[i] == dailyData[i].date && DatesOf(dailyData)[j] == dailyData[j].date;
      WeekStartMonotone(dailyData[i].date, dailyData[j].date);
    }
    BucketsAscending(dailyData, WeekStart);
    ProcessedIsGrouped(dailyData, "daily");
  }

  /** Over the server's ascending days, the monthly bars come out in
      chronological order. */
  lemma MonthlyBucketsAscending(dailyData: seq<DateCount>)
    requires StrictlyAscendingDates(DatesOf(dailyData))
    ensures StrictlyAscendingDates(DatesOf(Processed(dailyData, "monthly")))
  {
    forall i, j | 0 <= i < j < |dailyData|
      ensures NotAfter(MonthStart(dailyData[i].date), MonthStart(dailyData[j].date))
    {
      assert DatesOf(dailyData)[i] == dailyData[i].date && DatesOf(dailyData)[j] == dailyData[j].date;
      MonthStartMonotone(dailyData[i].date, dailyData[j].date);
    }
    BucketsAscending(dailyData, MonthStart);
    ProcessedIsGrouped(dailyData, "daily");
  }

  // ---- Period-over-period change

  /** The percentage change from `previous` to `current`; 100 for a rise
      from 0 and 0 for 0 to 0. */
  function PercentChange(previous: nat, current: nat): (c: real)
    ensures previous > 0 ==> (previous as real) + (previous as real) * c / 100.0 == current as real
    ensures previous == 0 ==> c == if current > 0 then 100.0 else 0.0
    ensures c >= -100.0
    ensures c >= 0.0 <==> current >= previous
  {
    if previous > 0 then ((current as real - previous as real) / previous as real) * 100.0
    else if current > 0 then 100.0
    else 0.0
  }

  /** A bar with its change against the previous bar (`null` for the first). */
  datatype TrendPoint = TrendPoint(date: Date, count: nat, change: Option<real>)

  /** `chartDataWithTrend`. */
  function ChartDataWithTrend(processed: seq<DateCount>): (r: seq<TrendPoint>)
    ensures |r| == |processed|
    ensures forall i :: 0 <= i < |r| ==> r[i].date == processed[i].date && r[i].count == processed[i].count
    ensures |r| > 0 ==> r[0].change == None
    ensures forall i :: 0 < i < |r| ==> r[i].change == Some(PercentChange(processed[i - 1].count, processed[i].count))
  {
    seq(|processed|, i requires 0 <= i < |processed| =>
      TrendPoint(processed[i].date, processed[i].count,
        if i == 0 then None else Some(PercentChange(processed[i - 1].count, processed[i].count))))
  }

  /** The tooltip shows a rising arrow exactly when a bar is at least as high
      as the one before it. */
  lemma TrendArrowRisesWithCount(processed: seq<DateCount>, i: nat)
    requires 0 < i < |processed|
    ensures ChartDataWithTrend(processed)[i].change.value >= 0.0 <==> processed[i].count >= processed[i - 1].count
  {
  }

  /** `trendStats`: the change from the first period to the last, when there
      are at least two periods. */
  function TrendStats(processed: seq<DateCount>): (r: Option<real>)
    ensures r.None? <==> |processed| < 2
    ensures r.Some? ==> r.value == PercentChange(processed[0].count, processed[|processed| - 1].count)
  {
    if |processed| < 2 then None
    else Some(PercentChange(processed[0].count, processed[|processed| - 1].count))
  }

  /** `totalRegistrations`. */
  function TotalRegistrations(processed: seq<DateCount>): (n: nat)
    ensures forall i :: 0 <= i < |processed| ==> processed[i].count <= n
    ensures n == 0 <==> forall i :: 0 <= i < |processed| ==> processed[i].count == 0
  {
    TotalCountBounds(processed);
    TotalCount(processed)
  }

  // ---- Peak period: `reduce((acc, curr) => acc.count > curr.count ? acc : curr, processedData[0])`

  /** The fold, tracking the index of `acc`, with `i` the next index to visit. */
  function PeakIndex(s: seq<DateCount>, best: nat, i: nat): (k: nat)
    requires best < |s| && i <= |s|
    requires forall j :: 0 <= j < i ==> s[j].count <= s[best].count
    requires forall j :: best < j < i ==> s[j].count < s[best].count
    ensures k < |s|
    ensures forall j :: 0 <= j < |s| ==> s[j].count <= s[k].count
    ensures forall j :: k < j < |s| ==> s[j].count < s[k].count
    decreases |s| - i
  {
    if i == |s| then best
    else
      var next := if s[best].count > s[i].count then best else i;
      PeakIndex(s, next, i + 1)
  }

  /** `highestPeriodData`: `None` stands for the empty object the fold starts
      from when there are no periods. */
  function HighestPeriod(processed: seq<DateCount>): (r: Option<DateCount>)
    ensures r.None? <==> processed == []
  {
    if processed == [] then None else Some(processed[PeakIndex(processed, 0, 0)])
  }

  /** On ties the LAST period with the highest count wins, because the
      comparison is strict. */
  lemma HighestPeriodIsLastMaximum(processed: seq<DateCount>)
    requires processed != []
    ensures exists k ::
      && 0 <= k < |processed| && HighestPeriod(processed) == Some(processed[k])
      && (forall j :: 0 <= j < |processed| ==> processed[j].count <= processed[k].count)
      && (forall j :: k < j < |processed| ==> processed[j].count < processed[k].count)
  {
    var k := PeakIndex(processed, 0, 0);
    assert HighestPeriod(processed) == Some(processed[k]);
  }

  /** What "Peak Period" shows, before locale formatting. */
  datatype PeakLabel = NotAvailable | MonthOfYear(month: Date) | WeekOf(week: Date) | MonthAndDay(day: Date)

  function PeakPeriodLabel(highest: Option<DateCount>, timeframe: string): (l: PeakLabel)
    ensures l.NotAvailable? <==> highest.None?
    ensures l.MonthOfYear? <==> highest.Some? && timeframe == "monthly"
    ensures l.WeekOf? <==> highest.Some? && timeframe == "weekly"
    ensures !l.NotAvailable? ==>
      || (l.MonthOfYear? && l.month == highest.value.date)
      || (l.WeekOf? && l.week == highest.value.date)
      || (l.MonthAndDay? && l.day == highest.value.date)
  {
    if highest.None? then NotAvailable
    else if timeframe == "monthly" then MonthOfYear(highest.value.date)
    else if timeframe == "weekly" then WeekOf(highest.value.date)
    else MonthAndDay(highest.value.date)
  }
}
