/** Profile statistics and regional knowledge: packages/domain/src/aggregates.ts and the rounding of
    packages/database/src/gameplay/profile.ts. A UTC day is its number; the text form is left out. */
module Aggregates {
  import opened Basics
  import opened AttemptEngine
  import opened Division
  import opened GameplayLedger
  import opened GameplayInvariant
  import opened GameplayTheorems
  import opened GameplayResponses
  import opened GameplayReference

  /* ---- rounding ---- */

  /** The integer division of the domain package: (2n + d) / 2d. */
  function RoundHalfUp(n: nat, d: nat): nat
    requires d > 0
  {
    (2 * n + d) / (2 * d)
  }

  /** It is the nearest integer to n/d, and the larger of two that are equally near. */
  lemma HalfUpIsNearest(n: nat, d: nat, r: nat)
    requires d > 0
    ensures r == RoundHalfUp(n, d) <==> 2 * d * r - d <= 2 * n < 2 * d * r + d
  {
    QuotientBounds(2 * n + d, 2 * d);
    if 2 * d * r - d <= 2 * n < 2 * d * r + d {
      QuotientUnique(2 * n + d, 2 * d, r);
    }
  }

  /** The profile read rounds by another formula, floor((100a + (a + b)/2) / (a + b)). */
  function ProfilePercentage(k: Knowledge): int
    requires k.alpha + k.beta > 0
  {
    ((k.alpha as real * 100.0 + (k.alpha + k.beta) as real / 2.0) / (k.alpha + k.beta) as real).Floor
  }

  function DisplayPercentage(k: Knowledge): nat
    requires k.alpha >= 0 && k.alpha + k.beta > 0
  {
    RoundHalfUp(k.alpha * 100, k.alpha + k.beta)
  }

  lemma CancelReal(d: real, x: real, y: real)
    requires d > 0.0 && x * d <= y * d
    ensures x <= y
  {
  }

  lemma FloorOfQuotient(x: real, d: real, r: int)
    requires d > 0.0 && r as real * d <= x < (r + 1) as real * d
    ensures (x / d).Floor == r
  {
    var q := x / d;
    assert q * d == x;
    CancelReal(d, r as real, q);
    if (r + 1) as real <= q {
      CancelReal(d, q, (r + 1) as real);
    }
  }

  /** The two formulas agree, over exact numbers, on everything that knowledge can hold. */
  lemma RoundingsAgree(k: Knowledge)
    requires k.alpha >= 0 && k.alpha + k.beta > 0
    ensures ProfilePercentage(k) == DisplayPercentage(k)
  {
    var n, d, r := k.alpha * 100, k.alpha + k.beta, DisplayPercentage(k);
    HalfUpIsNearest(n, d, r);
    var x := k.alpha as real * 100.0 + d as real / 2.0;
    assert 2.0 * x == (2 * n + d) as real;
    assert 2 * (d * r) <= 2 * n + d < 2 * (d * r) + 2 * d by {
      assert 2 * d * r == 2 * (d * r);
    }
    assert (d * r) as real == r as real * d as real;
    assert (r + 1) as real * d as real == r as real * d as real + d as real;
    FloorOfQuotient(x, d as real, r);
  }

  /* ---- streaks ---- */

  ghost predicate IsRun(days: set<int>, from: int, length: nat) {
    forall day | from <= day < from + length :: day in days
  }

  lemma RunHas(days: set<int>, from: int, length: nat, day: int)
    requires IsRun(days, from, length) && from <= day < from + length
    ensures day in days
  {
  }

  /** The length of the longest run of consecutive days. */
  ghost predicate IsLongest(days: set<int>, length: nat) {
    && (exists from :: IsRun(days, from, length))
    && (forall from: int, n: nat | IsRun(days, from, n) :: n <= length)
  }

  /** The length of the run that ends today, or yesterday while today is open. */
  ghost predicate IsCurrent(days: set<int>, today: int, length: nat) {
    var last := if today in days then today else today - 1;
    IsRun(days, last - length + 1, length) && last - length !in days
  }

  /** The current streak is never longer than the longest, and there is one of each at most. */
  lemma StreaksCompare(days: set<int>, today: int, current: nat, longest: nat)
    requires IsCurrent(days, today, current) && IsLongest(days, longest)
    ensures current <= longest
    ensures forall n: nat | IsLongest(days, n) :: n == longest
    ensures forall n: nat | IsCurrent(days, today, n) :: n == current
  {
    forall n: nat | IsLongest(days, n) ensures n == longest {
      var a :| IsRun(days, a, n);
      var b :| IsRun(days, b, longest);
    }
    var last := if today in days then today else today - 1;
    forall n: nat | IsCurrent(days, today, n) ensures n == current {
    }
  }

  /* sorting the distinct days */

  ghost predicate Rising(s: seq<int>) { forall i, j | 0 <= i < j < |s| :: s[i] < s[j] }

  function DaySet(s: seq<int>): set<int> { set day | day in s }

  function Insert(s: seq<int>, day: int): seq<int> {
    if s == [] || day < s[0] then [day] + s
    else if day == s[0] then s
    else [s[0]] + Insert(s[1..], day)
  }

  lemma {:induction false} InsertAdds(s: seq<int>, day: int, d: int)
    ensures d in Insert(s, day) <==> d in s || d == day
  {
    if s != [] && day > s[0] {
      InsertAdds(s[1..], day, d);
      assert d in s <==> d == s[0] || d in s[1..];
    }
  }

  lemma {:induction false} InsertKeepsRising(s: seq<int>, day: int)
    requires Rising(s)
    ensures Rising(Insert(s, day))
  {
    if s != [] && day > s[0] {
      InsertKeepsRising(s[1..], day);
      var rest := Insert(s[1..], day);
      forall i | 0 <= i < |rest| ensures s[0] < rest[i] {
        InsertAdds(s[1..], day, rest[i]);
      }
    }
  }

  /** [...new Set(days)].sort(...) */
  function SortedDays(days: seq<int>): seq<int> {
    if days == [] then [] else Insert(SortedDays(days[..|days| - 1]), days[|days| - 1])
  }

  lemma {:induction false} SortedDaysRise(days: seq<int>)
    ensures Rising(SortedDays(days)) && DaySet(SortedDays(days)) == DaySet(days)
  {
    if days != [] {
      var front, last := days[..|days| - 1], days[|days| - 1];
      SortedDaysRise(front);
      InsertKeepsRising(SortedDays(front), last);
      forall d ensures d in SortedDays(days) <==> d in days {
        InsertAdds(SortedDays(front), last, d);
        assert d in SortedDays(front) <==> d in DaySet(front);
        assert days == front + [last];
      }
    }
  }

  lemma FewerBelow(days: set<int>, cursor: int)
    requires cursor in days
    ensures |set day | day in days && day <= cursor - 1| < |set day | day in days && day <= cursor|
  {
    var a, b := set day | day in days && day <= cursor - 1, set day | day in days && day <= cursor;
    assert a == b - {cursor};
  }

  method CalculateCurrentStreak(sorted: seq<int>, today: int) returns (streak: nat)
    ensures IsCurrent(DaySet(sorted), today, streak)
  {
    var days := DaySet(sorted);
    var cursor := if today in days then today else today - 1;
    if cursor !in days {
      return 0;
    }
    ghost var last := cursor;
    streak := 0;
    while cursor in days
      invariant cursor == last - streak && IsRun(days, cursor + 1, streak)
      decreases |set day | day in days && day <= cursor|
    {
      FewerBelow(days, cursor);
      streak := streak + 1;
      cursor := cursor - 1;
    }
  }

  /** A run cannot reach over a gap. */
  lemma RunStaysInside(s: seq<int>, i: nat, from: int, n: nat)
    requires Rising(s) && i < |s| && n > 0
    requires IsRun(DaySet(s[..i + 1]), from, n)
    ensures from + n - 1 <= s[i]
    ensures from + n - 1 != s[i] ==> IsRun(DaySet(s[..i]), from, n)
  {
    forall day | from <= day < from + n ensures day in s[..i + 1] && (day != s[i] ==> day in s[..i]) {
      assert day in DaySet(s[..i + 1]);
      var j :| 0 <= j <= i && s[..i + 1][j] == day;
      if j < i {
        assert s[..i][j] == day;
      }
    }
    RunHas(DaySet(s[..i + 1]), from, n, from + n - 1);
  }

  /** The run that ends at the last day: it starts anew behind a gap. */
  ghost predicate EndsWithRun(s: seq<int>, length: nat) {
    s != [] && length > 0 && IsRun(DaySet(s), s[|s| - 1] - length + 1, length) && s[|s| - 1] - length !in s
  }

  lemma OneMoreDay(s: seq<int>, i: nat, current: nat, next: nat)
    requires Rising(s) && i < |s|
    requires i > 0 ==> EndsWithRun(s[..i], current)
    requires next == if i > 0 && s[i] == s[i - 1] + 1 then current + 1 else 1
    ensures EndsWithRun(s[..i + 1], next)
  {
    var before, now := s[..i], s[..i + 1];
    assert now[|now| - 1] == s[i] && now == before + [s[i]];
    if i > 0 {
      assert before[|before| - 1] == s[i - 1];
    }
    forall day | s[i] - next + 1 <= day <= s[i] ensures day in DaySet(now) {
      if day < s[i] {
        assert day in DaySet(before);
      }
    }
    assert s[i] - 1 in now ==> i > 0 && s[i] - 1 == s[i - 1];
  }

  lemma RunStopsAtGap(days: set<int>, from: int, n: nat, gap: int)
    requires IsRun(days, from, n) && gap !in days && gap < from + n
    ensures gap < from
  {
    if from <= gap {
      RunHas(days, from, n, gap);
    }
  }

  lemma LongestWithOneMore(s: seq<int>, i: nat, longest: nat, next: nat)
    requires Rising(s) && i < |s| && IsLongest(DaySet(s[..i]), longest) && EndsWithRun(s[..i + 1], next)
    ensures IsLongest(DaySet(s[..i + 1]), if longest < next then next else longest)
  {
    var days, result := DaySet(s[..i + 1]), if longest < next then next else longest;
    assert s[..i + 1] == s[..i] + [s[i]];
    forall from: int, n: nat | IsRun(days, from, n) ensures n <= result {
      if n > 0 {
        RunStaysInside(s, i, from, n);
        if from + n - 1 == s[i] {
          RunStopsAtGap(days, from, n, s[i] - next);
        }
      }
    }
    var from :| IsRun(DaySet(s[..i]), from, longest);
    forall day | from <= day < from + longest ensures day in days {
      assert day in DaySet(s[..i]);
    }
    assert IsRun(days, from, longest);
    assert IsRun(days, s[i] - next + 1, next);
  }

  lemma NoDays()
    ensures IsLongest({}, 0)
  {
    assert IsRun({}, 0, 0);
    forall from: int, n: nat | IsRun({}, from, n) ensures n <= 0 {
      if n > 0 {
        RunHas({}, from, n, from);
      }
    }
  }

  method CalculateLongestStreak(sorted: seq<int>) returns (longest: nat)
    requires Rising(sorted)
    ensures IsLongest(DaySet(sorted), longest)
  {
    longest := 0;
    var current := 0;
    NoDays();
    assert DaySet(sorted[..0]) == {};
    for i := 0 to |sorted|
      invariant IsLongest(DaySet(sorted[..i]), longest)
      invariant i > 0 ==> EndsWithRun(sorted[..i], current)
    {
      var next := if i > 0 && sorted[i] == sorted[i - 1] + 1 then current + 1 else 1;
      OneMoreDay(sorted, i, current, next);
      LongestWithOneMore(sorted, i, longest, next);
      current := next;
      longest := if longest < current then current else longest;
    }
    assert sorted[..|sorted|] == sorted;
  }

  /* ---- the profile's figures ---- */

  datatype Statistics = Statistics(current: nat, longest: nat, solved: nat, failed: nat, accuracy: nat)

  /** assertTerminalAttempt: a valid snapshot of a game that is over. */
  predicate Terminal(s: Snapshot) { ValidSnapshot(s) && s.state != Active }

  /** Accepted are exactly the ends of games that can be played. */
  lemma TerminalIsAnEnd(s: Snapshot)
    ensures Terminal(s) <==> Reachable(s) && (s.state == Solved || s.state == GivenUp || s.state == Exhausted || s.state == Expired)
  {
    SnapshotCheckIsExact(s);
  }

  function CountSolved(attempts: seq<Snapshot>): (n: nat)
    ensures n <= |attempts|
  {
    if attempts == [] then 0
    else CountSolved(attempts[..|attempts| - 1]) + if attempts[|attempts| - 1].state == Solved then 1 else 0
  }

  /** The figures say what they are called, whatever the order of the days and however often each occurs. */
  ghost predicate StatisticsAre(attempts: seq<Snapshot>, days: seq<int>, today: int, s: Statistics) {
    && IsCurrent(DaySet(days), today, s.current)
    && IsLongest(DaySet(days), s.longest)
    && s.current <= s.longest
    && s.solved == CountSolved(attempts) && s.solved + s.failed == |attempts|
    && (attempts == [] ==> s.accuracy == 0)
    && (attempts != [] ==> s.accuracy == RoundHalfUp(100 * s.solved, |attempts|))
  }

  /** A game that is not over makes it throw. */
  method CalculateProfileStatistics(attempts: seq<Snapshot>, days: seq<int>, today: int) returns (r: Option<Statistics>)
    ensures r.None? <==> exists i :: 0 <= i < |attempts| && !Terminal(attempts[i])
    ensures r.Some? ==> StatisticsAre(attempts, days, today, r.value)
  {
    var sorted := SortedDays(days);
    SortedDaysRise(days);
    var solved := 0;
    for i := 0 to |attempts|
      invariant forall j | 0 <= j < i :: Terminal(attempts[j])
      invariant solved == CountSolved(attempts[..i])
    {
      if !Terminal(attempts[i]) {
        return None;
      }
      assert attempts[..i + 1][..i] == attempts[..i];
      if attempts[i].state == Solved {
        solved := solved + 1;
      }
    }
    assert attempts[..|attempts|] == attempts;
    var current := CalculateCurrentStreak(sorted, today);
    var longest := CalculateLongestStreak(sorted);
    StreaksCompare(DaySet(days), today, current, longest);
    var accuracy := if attempts == [] then 0 else RoundHalfUp(solved * 100, |attempts|);
    return Some(Statistics(current, longest, solved, |attempts| - solved, accuracy));
  }

  /* ---- regional knowledge ---- */

  datatype CaseOutcome = CaseOutcome(attempt: Snapshot, regions: seq<string>)

  function GainFrom(c: CaseOutcome, region: string, k: Knowledge): Knowledge {
    if region in c.regions then Gain(k, Performance(c.attempt)) else k
  }

  /** What the cases add up to in a region; a region named twice in a case counts once. */
  function CaseTally(cases: seq<CaseOutcome>, region: string): Knowledge {
    if cases == [] then INITIAL_KNOWLEDGE
    else
      GainFrom(cases[|cases| - 1], region, CaseTally(cases[..|cases| - 1], region))
  }

  predicate Mentioned(cases: seq<CaseOutcome>, region: string) {
    exists i :: 0 <= i < |cases| && region in cases[i].regions
  }

  function KnowledgeIn(table: map<string, Knowledge>, region: string): Knowledge {
    if region in table then table[region] else INITIAL_KNOWLEDGE
  }

  predicate Acceptable(c: CaseOutcome) { Terminal(c.attempt) && "" !in c.regions }

  /** The map in the order of insertion. */
  ghost predicate Ordered(order: seq<string>, table: map<string, Knowledge>) {
    && (forall i, j | 0 <= i < j < |order| :: order[i] != order[j])
    && (forall r :: r in order <==> r in table)
  }

  /** One case: every region of it, taken once, gains its performance. */
  method AddCase(order: seq<string>, table: map<string, Knowledge>, c: CaseOutcome)
    returns (order': seq<string>, table': map<string, Knowledge>)
    requires Ordered(order, table)
    ensures Ordered(order', table')
    ensures forall r :: r in table' <==> r in table || r in c.regions
    ensures forall r :: KnowledgeIn(table', r) == GainFrom(c, r, KnowledgeIn(table, r))
  {
    order', table' := order, table;
    for i := 0 to |c.regions|
      invariant Ordered(order', table')
      invariant forall r :: r in table' <==> r in table || r in c.regions[..i]
      invariant forall r :: KnowledgeIn(table', r) == GainFrom(c.(regions := c.regions[..i]), r, KnowledgeIn(table, r))
    {
      var region := c.regions[i];
      assert c.regions[..i + 1] == c.regions[..i] + [region];
      if region !in c.regions[..i] {
        if region !in table' {
          order' := order' + [region];
        }
        table' := table'[region := Gain(KnowledgeIn(table', region), Performance(c.attempt))];
      }
    }
    assert c.regions[..|c.regions|] == c.regions;
  }

  datatype RegionRow = RegionRow(region: string, knowledge: Knowledge, display: nat)

  /** The regions asked for, each once, without any case so far. */
  method ListRegions(regionIds: seq<string>) returns (named: bool, order: seq<string>, table: map<string, Knowledge>)
    ensures named <==> "" !in regionIds
    ensures named ==> Ordered(order, table)
    ensures named ==> forall r :: (r in table <==> r in regionIds) && KnowledgeIn(table, r) == INITIAL_KNOWLEDGE
  {
    order, table := [], map[];
    for i := 0 to |regionIds|
      invariant "" !in regionIds[..i] && Ordered(order, table)
      invariant forall r :: (r in table <==> r in regionIds[..i]) && KnowledgeIn(table, r) == INITIAL_KNOWLEDGE
    {
      assert regionIds[..i + 1] == regionIds[..i] + [regionIds[i]];
      if regionIds[i] == "" {
        return false, order, table;
      }
      if regionIds[i] !in table {
        order := order + [regionIds[i]];
        table := table[regionIds[i] := INITIAL_KNOWLEDGE];
      }
    }
    assert regionIds[..|regionIds|] == regionIds;
    named := true;
  }

  /** All cases, one after the other. */
  method AddCases(cases: seq<CaseOutcome>, order: seq<string>, table: map<string, Knowledge>)
    returns (acceptable: bool, order': seq<string>, table': map<string, Knowledge>)
    requires Ordered(order, table) && forall r :: KnowledgeIn(table, r) == INITIAL_KNOWLEDGE
    ensures acceptable <==> forall i | 0 <= i < |cases| :: Acceptable(cases[i])
    ensures acceptable ==> Ordered(order', table')
    ensures acceptable ==> forall r :: r in table' <==> r in table || Mentioned(cases, r)
    ensures acceptable ==> forall r :: KnowledgeIn(table', r) == CaseTally(cases, r)
  {
    order', table' := order, table;
    for i := 0 to |cases|
      invariant Ordered(order', table')
      invariant forall j | 0 <= j < i :: Acceptable(cases[j])
      invariant forall r :: r in table' <==> r in table || Mentioned(cases[..i], r)
      invariant forall r :: KnowledgeIn(table', r) == CaseTally(cases[..i], r)
    {
      if !Acceptable(cases[i]) {
        return false, order', table';
      }
      order', table' := AddCase(order', table', cases[i]);
      MentionedOneMore(cases, i);
    }
    assert cases[..|cases|] == cases;
    acceptable := true;
  }

  /** Each region asked for or played in comes out once, with what its cases add up to; an empty region name
      or a game that is not over makes it throw. */
  method CalculateRegionalKnowledge(regionIds: seq<string>, cases: seq<CaseOutcome>) returns (r: Option<seq<RegionRow>>)
    ensures r.None? <==> "" in regionIds || exists i :: 0 <= i < |cases| && !Acceptable(cases[i])
    ensures r.Some? ==> forall i, j | 0 <= i < j < |r.value| :: r.value[i].region != r.value[j].region
    ensures r.Some? ==> forall region ::
      (region in regionIds || Mentioned(cases, region) <==> exists i :: 0 <= i < |r.value| && r.value[i].region == region)
    ensures r.Some? ==> forall i | 0 <= i < |r.value| ::
      && r.value[i].knowledge == CaseTally(cases, r.value[i].region)
      && r.value[i].display == Display(r.value[i].knowledge)
  {
    var named, order, table := ListRegions(regionIds);
    if !named {
      return None;
    }
    var acceptable, all, sums := AddCases(cases, order, table);
    if !acceptable {
      return None;
    }
    var rows := [];
    for i := 0 to |all|
      invariant |rows| == i
      invariant forall j | 0 <= j < i :: rows[j] == RegionRow(all[j], sums[all[j]], Display(sums[all[j]]))
    {
      rows := rows + [RegionRow(all[i], sums[all[i]], Display(sums[all[i]]))];
    }
    return Some(rows);
  }

  /** The display percentage, for knowledge as it is kept. */
  function Display(k: Knowledge): nat {
    if k.alpha >= 0 && k.alpha + k.beta > 0 then DisplayPercentage(k) else 0
  }

  /** The percentage is the nearest to alpha's part of the whole, and halves go up. */
  lemma PercentageIsNearest(k: Knowledge, r: nat)
    requires k.alpha >= 0 && k.beta >= 0 && k.alpha + k.beta > 0
    ensures r == Display(k) <==> (2 * r - 1) * (k.alpha + k.beta) <= 200 * k.alpha < (2 * r + 1) * (k.alpha + k.beta)
  {
    var d := k.alpha + k.beta;
    HalfUpIsNearest(k.alpha * 100, d, r);
    assert (2 * r - 1) * d == 2 * d * r - d && (2 * r + 1) * d == 2 * d * r + d;
  }

  /** The shares that the cases bring a region, and how many of them name it. */
  function Shares(cases: seq<CaseOutcome>, region: string): int {
    if cases == [] then 0
    else
      var last := cases[|cases| - 1];
      Shares(cases[..|cases| - 1], region) + if region in last.regions then Share(last.attempt) else 0
  }

  function Naming(cases: seq<CaseOutcome>, region: string): nat {
    if cases == [] then 0
    else Naming(cases[..|cases| - 1], region) + if region in cases[|cases| - 1].regions then 1 else 0
  }

  /** What a region comes to: 200 hundredths on both sides to begin with, and 100 more for each case, divided by its
      share. */
  lemma {:induction false} TallyIsTheShares(cases: seq<CaseOutcome>, region: string)
    requires forall c <- cases :: Acceptable(c)
    ensures CaseTally(cases, region) == Knowledge(
      200 + Shares(cases, region), 200 + 100 * Naming(cases, region) - Shares(cases, region), Naming(cases, region))
  {
    if cases != [] {
      var last := cases[|cases| - 1];
      assert last in cases;
      TallyIsTheShares(cases[..|cases| - 1], region);
      ShareIsReference(last.attempt);
    }
  }

  lemma MentionedOneMore(cases: seq<CaseOutcome>, i: nat)
    requires i < |cases|
    ensures forall r :: Mentioned(cases[..i + 1], r) <==> Mentioned(cases[..i], r) || r in cases[i].regions
    ensures forall r :: CaseTally(cases[..i + 1], r) == GainFrom(cases[i], r, CaseTally(cases[..i], r))
  {
    assert cases[..i + 1][..i] == cases[..i];
  }

  /* ---- the tables against the calculation ---- */

  /** The cases of the listed attempts, as the calculation takes them. */
  ghost predicate CasesOf(world: World, attempts: Attempts, ids: seq<Id>, cases: seq<CaseOutcome>) {
    && |cases| == |ids|
    && forall i | 0 <= i < |ids| :: CaseOf(world, attempts, ids[i], cases[i])
  }

  ghost predicate CaseOf(world: World, attempts: Attempts, id: Id, c: CaseOutcome) {
    && id in attempts && attempts[id].revision in world.revisions
    && c.attempt == attempts[id].at
    && (forall r :: r in c.regions <==> r in world.revisions[attempts[id].revision].regions)
  }

  lemma {:induction false} TallyIsCaseTally(
    world: World, attempts: Attempts, ids: seq<Id>, cases: seq<CaseOutcome>, region: string)
    requires CasesOf(world, attempts, ids, cases)
    ensures Tally(world, attempts, ids, region) == CaseTally(cases, region)
  {
    if ids != [] {
      var last := |ids| - 1;
      TallyIsCaseTally(world, attempts, ids[..last], cases[..last], region);
      assert CaseOf(world, attempts, ids[last], cases[last]);
    }
  }

  /** In every reachable state the stored knowledge of a guest, updated game by game, is what the calculation
      makes of all the guest's finished cases at once, in any order; and the profile shows the percentage
      that the calculation would. */
  lemma KnowledgeIsRecalculated(
    world: World, steps: seq<Step>, guest: Id, ids: seq<Id>, cases: seq<CaseOutcome>, region: string)
    requires world.Valid()
    requires Lists(Run(world, steps).attempts, guest, ids) && CasesOf(world, Run(world, steps).attempts, ids, cases)
    ensures
      var k := KnowledgeOf(Run(world, steps).knowledge, guest, region);
      && k == CaseTally(cases, region)
      && k.alpha >= 0 && k.alpha + k.beta == 400 + 100 * k.samples && k.samples >= 0
      && ProfilePercentage(k) == Display(k)
  {
    EveryKnowledgeIsTally(world, steps, guest, ids, region);
    TallyIsCaseTally(world, Run(world, steps).attempts, ids, cases, region);
    AlphaGrows(cases, region);
    RoundingsAgree(CaseTally(cases, region));
  }

  lemma {:induction false} AlphaGrows(cases: seq<CaseOutcome>, region: string)
    ensures CaseTally(cases, region).alpha >= 200
  {
    if cases != [] {
      AlphaGrows(cases[..|cases| - 1], region);
    }
  }
}
