/** Per-date tallies: the `{date, count}` points the dashboard passes around, and the
    reference meaning of "group these points by date and add up their counts".
    Both the server's per-day registration count and the client's weekly and
    monthly re-bucketing are proved against `Grouped`. */
module Tally {
  import opened Dates

  /** A `RegistrationSummary` point: a date and a count. */
  datatype DateCount = DateCount(date: Date, count: nat)

  function DatesOf(s: seq<DateCount>): (r: seq<Date>)
    ensures |r| == |s|
    ensures forall i :: 0 <= i < |s| ==> r[i] == s[i].date
  {
    seq(|s|, i requires 0 <= i < |s| => s[i].date)
  }

  /** The sum of the counts of the points dated `k`. */
  function CountOn(s: seq<DateCount>, k: Date): nat {
    if s == [] then 0
    else CountOn(s[..|s| - 1], k) + (if s[|s| - 1].date == k then s[|s| - 1].count else 0)
  }

  /** The sum of all counts. */
  function TotalCount(s: seq<DateCount>): nat {
    if s == [] then 0 else TotalCount(s[..|s| - 1]) + s[|s| - 1].count
  }

  predicate Distinct<T(==)>(s: seq<T>) {
    forall i, j :: 0 <= i < j < |s| ==> s[i] != s[j]
  }

  /** The elements of `s` in the order they are first met, each once. */
  function Dedup<T(==,!new)>(s: seq<T>): (r: seq<T>)
    ensures forall x :: x in r <==> x in s
    ensures Distinct(r)
    ensures |r| <= |s|
  {
    if s == [] then []
    else
      var d := Dedup(s[..|s| - 1]);
      assert forall x :: x in s <==> x in s[..|s| - 1] || x == s[|s| - 1];
      if s[|s| - 1] in d then d else d + [s[|s| - 1]]
  }

  /** The index at which `x` first occurs in `s`. */
  function FirstIndex<T(==)>(s: seq<T>, x: T): (i: nat)
    requires x in s
    ensures i < |s| && s[i] == x && x !in s[..i]
  {
    if s[0] == x then 0
    else
      var j := FirstIndex(s[1..], x);
      assert s[..j + 1] == [s[0]] + s[1..][..j];
      j + 1
  }

  /** One bucket per key: the key and the sum of the counts dated with it. */
  function Buckets(s: seq<DateCount>, keys: seq<Date>): seq<DateCount> {
    seq(|keys|, i requires 0 <= i < |keys| => DateCount(keys[i], CountOn(s, keys[i])))
  }

  /** The reference grouping: one bucket per distinct date, in the order the
      dates are first met, holding the sum of the counts of that date. */
  function Grouped(s: seq<DateCount>): seq<DateCount> {
    Buckets(s, Dedup(DatesOf(s)))
  }

  /** `order` and `m` are what a JavaScript object filled from the points `s`
      holds: its keys in insertion order, and the sum of the counts under each. */
  ghost predicate IsTally(s: seq<DateCount>, order: seq<Date>, m: map<Date, nat>) {
    && order == Dedup(DatesOf(s))
    && (forall k :: k in m <==> k in order)
    && (forall k :: k in m ==> m[k] == CountOn(s, k))
  }

  // ---- Lemmas

  lemma {:induction false} CountOnAbsent(s: seq<DateCount>, k: Date)
    requires k !in DatesOf(s)
    ensures CountOn(s, k) == 0
  {
    if s != [] {
      assert DatesOf(s[..|s| - 1]) == DatesOf(s)[..|s| - 1];
      CountOnAbsent(s[..|s| - 1], k);
    }
  }

  lemma {:induction false} CountOnAppend(a: seq<DateCount>, b: seq<DateCount>, k: Date)
    ensures CountOn(a + b, k) == CountOn(a, k) + CountOn(b, k)
    decreases |b|
  {
    if b == [] {
      assert a + b == a;
    } else {
      assert (a + b)[..|a + b| - 1] == a + b[..|b| - 1];
      CountOnAppend(a, b[..|b| - 1], k);
    }
  }

  lemma DedupSnoc<T(!new)>(t: seq<T>, x: T)
    ensures Dedup(t + [x]) == if x in Dedup(t) then Dedup(t) else Dedup(t) + [x]
  {
    assert (t + [x])[..|t|] == t;
  }

  lemma CountOnSnoc(s: seq<DateCount>, x: DateCount, k: Date)
    ensures CountOn(s + [x], k) == CountOn(s, k) + (if x.date == k then x.count else 0)
  {
    assert (s + [x])[..|s|] == s;
  }

  /** One step of the filling loop: add the point's count under its date,
      appending the date to the key order when it is new. */
  lemma TallyStep(s: seq<DateCount>, x: DateCount, order: seq<Date>, m: map<Date, nat>)
    requires IsTally(s, order, m)
    ensures IsTally(s + [x], if x.date in m then order else order + [x.date],
                    m[x.date := (if x.date in m then m[x.date] else 0) + x.count])
  {
    ghost var order' := if x.date in m then order else order + [x.date];
    ghost var m' := m[x.date := (if x.date in m then m[x.date] else 0) + x.count];
    TallyStepOrder(s, x, order, m);
    assert order' == Dedup(DatesOf(s + [x]));
    TallyStepKeys(x.date, order, m, x.count);
    assert forall k :: k in m' <==> k in order';
    TallyStepCounts(s, x, order, m);
    assert forall k :: k in m' ==> m'[k] == CountOn(s + [x], k);
    assert IsTally(s + [x], order', m');
  }

  /** The keys after the step are the key order after the step. */
  lemma TallyStepKeys(key: Date, order: seq<Date>, m: map<Date, nat>, count: nat)
    requires forall k :: k in m <==> k in order
    ensures var m' := m[key := (if key in m then m[key] else 0) + count];
      forall k :: k in m' <==> k in (if key in m then order else order + [key])
  {
  }

  /** The key order after the step is the first-occurrence order of the longer input. */
  lemma TallyStepOrder(s: seq<DateCount>, x: DateCount, order: seq<Date>, m: map<Date, nat>)
    requires IsTally(s, order, m)
    ensures (if x.date in m then order else order + [x.date]) == Dedup(DatesOf(s + [x]))
  {
    assert DatesOf(s + [x]) == DatesOf(s) + [x.date];
    DedupSnoc(DatesOf(s), x.date);
  }

  /** The counts after the step are the sums over the longer input. */
  lemma TallyStepCounts(s: seq<DateCount>, x: DateCount, order: seq<Date>, m: map<Date, nat>)
    requires IsTally(s, order, m)
    ensures var m' := m[x.date := (if x.date in m then m[x.date] else 0) + x.count];
      forall k :: k in m' ==> m'[k] == CountOn(s + [x], k)
  {
    if x.date !in m {
      assert x.date !in DatesOf(s);
      CountOnAbsent(s, x.date);
    }
    var m' := m[x.date := (if x.date in m then m[x.date] else 0) + x.count];
    forall k | k in m'
      ensures m'[k] == CountOn(s + [x], k)
    {
      CountOnSnoc(s, x, k);
    }
  }

  /** The filled object, listed in key order, is the reference grouping. */
  lemma TallyIsGrouped(s: seq<DateCount>, order: seq<Date>, m: map<Date, nat>)
    requires IsTally(s, order, m)
    ensures forall i :: 0 <= i < |order| ==> order[i] in m
    ensures Grouped(s) == seq(|order|, i requires 0 <= i < |order| => DateCount(order[i], m[order[i]]))
  {
  }

  /** Reading a filled object's counts off in any order of its keys gives the
      buckets for that order. */
  lemma ReadOffBuckets(s: seq<DateCount>, m: map<Date, nat>, keys: seq<Date>)
    requires forall i :: 0 <= i < |keys| ==> keys[i] in m
    requires forall k :: k in m ==> m[k] == CountOn(s, k)
    ensures seq(|keys|, i requires 0 <= i < |keys| => DateCount(keys[i], m[keys[i]])) == Buckets(s, keys)
  {
  }

  /** Every point contributes its whole count to its own date. */
  lemma {:induction false} CountOnCoversPoint(s: seq<DateCount>, i: nat)
    requires i < |s|
    ensures CountOn(s, s[i].date) >= s[i].count
  {
    if i < |s| - 1 {
      CountOnCoversPoint(s[..|s| - 1], i);
    }
  }

  /** No single point exceeds the total, and the total is 0 exactly when
      every point is. */
  lemma {:induction false} TotalCountBounds(s: seq<DateCount>)
    ensures forall i :: 0 <= i < |s| ==> s[i].count <= TotalCount(s)
    ensures TotalCount(s) == 0 <==> forall i :: 0 <= i < |s| ==> s[i].count == 0
  {
    if s != [] {
      var init := s[..|s| - 1];
      TotalCountBounds(init);
      assert forall i :: 0 <= i < |init| ==> init[i] == s[i];
    }
  }

  lemma {:induction false} TotalCountAppend(a: seq<DateCount>, b: seq<DateCount>)
    ensures TotalCount(a + b) == TotalCount(a) + TotalCount(b)
    decreases |b|
  {
    if b != [] {
      assert (a + b)[..|a + b| - 1] == a + b[..|b| - 1];
      TotalCountAppend(a, b[..|b| - 1]);
    } else {
      assert a + b == a;
    }
  }

  lemma BucketsAppend(s: seq<DateCount>, k1: seq<Date>, k2: seq<Date>)
    ensures Buckets(s, k1 + k2) == Buckets(s, k1) + Buckets(s, k2)
  {
  }

  /** Adding one point to the input adds its count to the total of the buckets
      exactly when its date is among the (distinct) keys. */
  lemma {:induction false} BucketsExtend(s: seq<DateCount>, x: DateCount, keys: seq<Date>)
    requires Distinct(keys)
    ensures TotalCount(Buckets(s + [x], keys))
         == TotalCount(Buckets(s, keys)) + (if x.date in keys then x.count else 0)
    decreases |keys|
  {
    if keys != [] {
      var init, last := keys[..|keys| - 1], keys[|keys| - 1];
      assert keys == init + [last];
      BucketsAppend(s + [x], init, [last]);
      BucketsAppend(s, init, [last]);
      TotalCountAppend(Buckets(s + [x], init), Buckets(s + [x], [last]));
      TotalCountAppend(Buckets(s, init), Buckets(s, [last]));
      BucketsExtend(s, x, init);
      assert (s + [x])[..|s + [x]| - 1] == s;
      assert x.date in keys <==> x.date in init || x.date == last;
      assert x.date == last ==> x.date !in init;
    }
  }

  /** Grouping preserves the total: the buckets' counts add up to the sum of
      all input counts. */
  lemma {:induction false} GroupedTotal(s: seq<DateCount>)
    ensures TotalCount(Grouped(s)) == TotalCount(s)
  {
    if s != [] {
      var p, x := s[..|s| - 1], s[|s| - 1];
      assert s == p + [x];
      GroupedTotal(p);
      var d := Dedup(DatesOf(p));
      assert DatesOf(s)[..|s| - 1] == DatesOf(p);
      assert Dedup(DatesOf(s)) == if x.date in d then d else d + [x.date];
      BucketsExtend(p, x, d);
      if x.date !in d {
        BucketsAppend(s, d, [x.date]);
        TotalCountAppend(Buckets(s, d), Buckets(s, [x.date]));
        CountOnAbsent(p, x.date);
      }
    }
  }

  /** The buckets' total does not depend on the order of the keys. */
  lemma {:induction false} BucketsPermutation(s: seq<DateCount>, k1: seq<Date>, k2: seq<Date>)
    requires multiset(k1) == multiset(k2)
    ensures TotalCount(Buckets(s, k1)) == TotalCount(Buckets(s, k2))
    decreases |k1|
  {
    if k1 == [] {
      assert |k2| == |multiset(k2)| == 0;
    } else {
      var init, last := k1[..|k1| - 1], k1[|k1| - 1];
      assert k1 == init + [last];
      assert last in multiset(k2);
      var j :| 0 <= j < |k2| && k2[j] == last;
      var rest := k2[..j] + k2[j + 1..];
      assert k2 == k2[..j] + [last] + k2[j + 1..];
      assert multiset(rest) == multiset(k2) - multiset{last};
      assert multiset(init) == multiset(k1) - multiset{last};
      BucketsPermutation(s, init, rest);
      BucketsAppend(s, init, [last]);
      TotalCountAppend(Buckets(s, init), Buckets(s, [last]));
      BucketsAppend(s, k2[..j], [last]);
      BucketsAppend(s, k2[..j] + [last], k2[j + 1..]);
      BucketsAppend(s, k2[..j], k2[j + 1..]);
      TotalCountAppend(Buckets(s, k2[..j]), Buckets(s, [last]));
      TotalCountAppend(Buckets(s, k2[..j]) + Buckets(s, [last]), Buckets(s, k2[j + 1..]));
      TotalCountAppend(Buckets(s, k2[..j]), Buckets(s, k2[j + 1..]));
    }
  }

  lemma {:induction false} FirstIndexInPrefix<T>(p: seq<T>, x: T, y: T)
    requires y in p
    ensures FirstIndex(p + [x], y) == FirstIndex(p, y)
  {
    if p[0] != y {
      assert (p + [x])[1..] == p[1..] + [x];
      FirstIndexInPrefix(p[1..], x, y);
    }
  }

  /** `Dedup` lists the elements in the order of their first occurrences. */
  lemma {:induction false} DedupKeepsFirstOccurrenceOrder<T(!new)>(s: seq<T>, i: nat, j: nat)
    requires i < j < |Dedup(s)|
    ensures FirstIndex(s, Dedup(s)[i]) < FirstIndex(s, Dedup(s)[j])
  {
    var p, x := s[..|s| - 1], s[|s| - 1];
    assert s == p + [x];
    var d := Dedup(p);
    var di, dj := Dedup(s)[i], Dedup(s)[j];
    if j < |d| {
      DedupKeepsFirstOccurrenceOrder(p, i, j);
      FirstIndexInPrefix(p, x, di);
      FirstIndexInPrefix(p, x, dj);
    } else {
      assert dj == x && x !in p;
      FirstIndexInPrefix(p, x, di);
    }
  }

  /** What the reference grouping promises: distinct keys, exactly the dates of
      the input, each bucket holding the sum of the counts of its date, the
      buckets in first-occurrence order, and the total preserved. */
  lemma GroupedSpec(s: seq<DateCount>)
    ensures Distinct(DatesOf(Grouped(s)))
    ensures forall k :: k in DatesOf(Grouped(s)) <==> k in DatesOf(s)
    ensures forall b :: b in Grouped(s) ==> b.count == CountOn(s, b.date)
    ensures forall i, j :: 0 <= i < j < |Grouped(s)| ==>
      FirstIndex(DatesOf(s), Grouped(s)[i].date) < FirstIndex(DatesOf(s), Grouped(s)[j].date)
    ensures TotalCount(Grouped(s)) == TotalCount(s)
  {
    var d := Dedup(DatesOf(s));
    assert DatesOf(Grouped(s)) == d;
    forall i, j | 0 <= i < j < |Grouped(s)|
      ensures FirstIndex(DatesOf(s), Grouped(s)[i].date) < FirstIndex(DatesOf(s), Grouped(s)[j].date)
    {
      DedupKeepsFirstOccurrenceOrder(DatesOf(s), i, j);
    }
    GroupedTotal(s);
  }
}
