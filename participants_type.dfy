/** The participants card (client/src/app/dashboard/CardParticipantsType.tsx): the
    per-type user counts regrouped into Internal and External, with a breakdown of
    the External count by School, Individual and Professional. */
module ParticipantsCard {
  import opened Records
  import DashboardController

  const InternalType := "internal"

  /** The keys of `externalBreakdown`, in the order `Object.entries` lists them. */
  const BreakdownKeys: seq<string> := ["School", "Individual", "Professional"]

  /** `toUpperCase` on one character, for the ASCII letters. */
  function ToUpper(c: char): (u: char)
    ensures 'a' <= c <= 'z' ==> 'A' <= u <= 'Z' && u as int - c as int == 'A' as int - 'a' as int
    ensures !('a' <= c <= 'z') ==> u == c
  {
    if 'a' <= c <= 'z' then (c as int - 'a' as int + 'A' as int) as char else c
  }

  /** `charAt(0).toUpperCase() + slice(1)`; the empty string stays empty. */
  function Capitalize(s: string): (r: string)
    ensures |r| == |s|
    ensures |s| > 0 ==> r[0] == ToUpper(s[0]) && r[1..] == s[1..]
  {
    if s == [] then [] else [ToUpper(s[0])] + s[1..]
  }

  // ---- What the card computes, as sums over the formatted counts

  function InternalSum(s: seq<TypeCount>): nat {
    if s == [] then 0
    else InternalSum(s[..|s| - 1]) + (if s[|s| - 1].userType == InternalType then s[|s| - 1].count else 0)
  }

  function ExternalSum(s: seq<TypeCount>): nat {
    if s == [] then 0
    else ExternalSum(s[..|s| - 1]) + (if s[|s| - 1].userType != InternalType then s[|s| - 1].count else 0)
  }

  /** The external counts whose capitalised type is `key`. */
  function BreakdownSum(s: seq<TypeCount>, key: string): nat {
    if s == [] then 0
    else
      var last := s[|s| - 1];
      BreakdownSum(s[..|s| - 1], key)
        + (if last.userType != InternalType && Capitalize(last.userType) == key then last.count else 0)
  }

  /** The external counts whose capitalised type is none of the breakdown keys. */
  function UncoveredSum(s: seq<TypeCount>): nat {
    if s == [] then 0
    else
      var last := s[|s| - 1];
      UncoveredSum(s[..|s| - 1])
        + (if last.userType != InternalType && Capitalize(last.userType) !in BreakdownKeys then last.count else 0)
  }

  predicate IsBreakdown(m: map<string, nat>, s: seq<TypeCount>) {
    && m.Keys == {"School", "Individual", "Professional"}
    && forall k :: k in m ==> m[k] == BreakdownSum(s, k)
  }

  /** The `forEach` over `formattedCounts`, then `totalCount` and `groupedData`.
      `key in externalBreakdown` is read as membership among the object's own
      keys. */
  method ParticipantsSummary(formattedCounts: seq<TypeCount>)
    returns (groupedData: seq<TypeCount>, totalCount: nat, externalBreakdown: map<string, nat>)
    ensures groupedData == [TypeCount("External", ExternalSum(formattedCounts)),
                            TypeCount("Internal", InternalSum(formattedCounts))]
    ensures totalCount == TypeCountTotal(formattedCounts)
    ensures IsBreakdown(externalBreakdown, formattedCounts)
  {
    var externalCount: nat := 0;
    var internalCount: nat := 0;
    externalBreakdown := map["School" := 0, "Individual" := 0, "Professional" := 0];
    for i := 0 to |formattedCounts|
      invariant internalCount == InternalSum(formattedCounts[..i])
      invariant externalCount == ExternalSum(formattedCounts[..i])
      invariant IsBreakdown(externalBreakdown, formattedCounts[..i])
    {
      var participant := formattedCounts[i];
      assert formattedCounts[..i + 1][..i] == formattedCounts[..i];
      if participant.userType == InternalType {
        internalCount := internalCount + participant.count;
      } else {
        externalCount := externalCount + participant.count;
        var key := Capitalize(participant.userType);
        if key in externalBreakdown {
          externalBreakdown := externalBreakdown[key := externalBreakdown[key] + participant.count];
        }
      }
    }
    assert formattedCounts[..|formattedCounts|] == formattedCounts;
    PartitionTotal(formattedCounts);
    totalCount := internalCount + externalCount;
    groupedData := [TypeCount("External", externalCount), TypeCount("Internal", internalCount)];
  }

  // ---- Lemmas

  /** Internal and External split the participants: every count lands in
      exactly one of them. */
  lemma {:induction false} PartitionTotal(s: seq<TypeCount>)
    ensures InternalSum(s) + ExternalSum(s) == TypeCountTotal(s)
  {
    if s != [] {
      PartitionTotal(s[..|s| - 1]);
    }
  }

  lemma {:induction false} ExternalSplits(s: seq<TypeCount>)
    ensures ExternalSum(s)
         == BreakdownSum(s, "School") + BreakdownSum(s, "Individual") + BreakdownSum(s, "Professional")
          + UncoveredSum(s)
  {
    if s != [] {
      ExternalSplits(s[..|s| - 1]);
      var c := Capitalize(s[|s| - 1].userType);
      assert c in BreakdownKeys <==> c == "School" || c == "Individual" || c == "Professional";
    }
  }

  lemma {:induction false} UncoveredIsZero(s: seq<TypeCount>)
    ensures UncoveredSum(s) == 0 <==>
      forall p :: p in s && p.userType != InternalType && p.count > 0 ==> Capitalize(p.userType) in BreakdownKeys
  {
    if s != [] {
      var init := s[..|s| - 1];
      UncoveredIsZero(init);
      assert forall p :: p in s <==> p in init || p == s[|s| - 1];
    }
  }

  /** The sums after the last point, from the sums before it. */
  lemma SumsSnoc(s: seq<TypeCount>, last: TypeCount)
    requires s != [] && s[|s| - 1] == last
    ensures var init := s[..|s| - 1];
      && InternalSum(s) == InternalSum(init) + (if last.userType == InternalType then last.count else 0)
      && ExternalSum(s) == ExternalSum(init) + (if last.userType != InternalType then last.count else 0)
      && forall key :: BreakdownSum(s, key) == BreakdownSum(init, key)
           + (if last.userType != InternalType && Capitalize(last.userType) == key then last.count else 0)
  {
  }

  /** The tooltip's three numbers never exceed the External count, and add up
      to it exactly when every external type with users capitalises to one of
      School, Individual or Professional. */
  lemma BreakdownWithinExternal(s: seq<TypeCount>)
    ensures BreakdownSum(s, "School") + BreakdownSum(s, "Individual") + BreakdownSum(s, "Professional")
         <= ExternalSum(s)
    ensures BreakdownSum(s, "School") + BreakdownSum(s, "Individual") + BreakdownSum(s, "Professional")
         == ExternalSum(s)
      <==> forall p :: p in s && p.userType != InternalType && p.count > 0 ==> Capitalize(p.userType) in BreakdownKeys
  {
    ExternalSplits(s);
    UncoveredIsZero(s);
  }

  /** Fed with the dashboard's `formattedCounts` of a grouping of the users by
      type, the card's total is the number of users. */
  lemma TotalIsNumberOfUsers(groups: seq<GroupRow>, users: seq<User>)
    requires DashboardController.IsUserTypeGrouping(groups, users)
    ensures InternalSum(DashboardController.FormattedCounts(groups))
          + ExternalSum(DashboardController.FormattedCounts(groups)) == |users|
  {
    PartitionTotal(DashboardController.FormattedCounts(groups));
    DashboardController.FormattedCountsTotal(groups, users);
  }

  /** The percentage shown next to a row. */
  function Percentage(count: nat, totalCount: nat): (p: real)
    ensures totalCount == 0 ==> p == 0.0
    ensures count <= totalCount ==> 0.0 <= p <= 100.0
    ensures totalCount > 0 ==> p * (totalCount as real) == (count as real) * 100.0
  {
    if totalCount > 0 then (count as real / totalCount as real) * 100.0 else 0.0
  }

  /** The two rows' percentages add up to 100 whenever there is anyone. */
  lemma PercentagesAddUp(formattedCounts: seq<TypeCount>)
    requires TypeCountTotal(formattedCounts) > 0
    ensures Percentage(ExternalSum(formattedCounts), TypeCountTotal(formattedCounts))
          + Percentage(InternalSum(formattedCounts), TypeCountTotal(formattedCounts)) == 100.0
  {
    PartitionTotal(formattedCounts);
    PercentagesOfSplit(ExternalSum(formattedCounts), InternalSum(formattedCounts));
  }

  lemma PercentagesOfSplit(e: nat, i: nat)
    requires e + i > 0
    ensures Percentage(e, e + i) + Percentage(i, e + i) == 100.0
  {
    var t := (e + i) as real;
    var pe, pi := Percentage(e, e + i), Percentage(i, e + i);
    assert pe * t == (e as real) * 100.0 && pi * t == (i as real) * 100.0;
    assert (pe + pi) * t == pe * t + pi * t;
    CancelPositive(pe + pi, 100.0, t);
  }

  lemma CancelPositive(x: real, y: real, t: real)
    requires t > 0.0 && x * t == y * t
    ensures x == y
  {
    assert (x - y) * t == 0.0;
  }

  /** Three individuals, seven internal members and two school participants:
      External 5, Internal 7, and the breakdown School 2, Individual 3,
      Professional 0. */
  lemma ExampleRegrouping()
    ensures var s := [TypeCount("individual", 3), TypeCount("internal", 7), TypeCount("school", 2)];
      && ExternalSum(s) == 5 && InternalSum(s) == 7
      && BreakdownSum(s, "School") == 2 && BreakdownSum(s, "Individual") == 3
      && BreakdownSum(s, "Professional") == 0
  {
    var a, b, c := TypeCount("individual", 3), TypeCount("internal", 7), TypeCount("school", 2);
    var s1, s2, s := [a], [a, b], [a, b, c];
    assert Capitalize(a.userType) == "Individual";
    assert Capitalize(c.userType) == "School";
    assert "Individual"[0] != "Professional"[0] && "School"[0] != "Professional"[0] && "Individual"[0] != "School"[0];
    assert s[..2] == s2 && s2[..1] == s1 && s1[..0] == [];
    SumsSnoc(s1, a);
    SumsSnoc(s2, b);
    SumsSnoc(s, c);
  }
}
