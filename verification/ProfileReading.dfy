/** The profile of a guest, from the expiry loop to the figures that are shown: packages/database/src/gameplay/
    profile.ts on the gameplay tables. What the queries list may come in any order. */
module ProfileReading {
  import opened Basics
  import opened AttemptEngine
  import opened GameplayLedger
  import opened GameplayInvariant
  import opened GameplayHistory
  import opened GameplayTheorems
  import opened GameplayResponses
  import opened GameplayPlay
  import opened GameplayChecks
  import opened Aggregates
  import opened GameplayDatabase

  datatype Profile = Profile(statistics: Statistics, regions: seq<RegionRow>)

  /* ---- what the queries list ---- */

  ghost predicate Enumerates<T(!new)>(s: seq<T>, all: set<T>) {
    && (forall i, j | 0 <= i < j < |s| :: s[i] != s[j])
    && forall x :: x in s <==> x in all
  }

  function ActiveOf(attempts: Attempts, guest: Id): set<Id> {
    set id | id in attempts && attempts[id].guest == guest && attempts[id].at.state == Active
  }

  /** attempts JOIN attempt_finalizations */
  function FinalizedOf(db: Db, guest: Id): set<Id> {
    set id | id in db.attempts && db.attempts[id].guest == guest && id in db.finals
  }

  function DaysOf(days: Days, guest: Id): set<int> {
    set k | k in days && k.0 == guest :: k.1
  }

  function Snapshots(attempts: Attempts, ids: seq<Id>): seq<Snapshot> {
    seq(|ids|, i requires 0 <= i < |ids| => if ids[i] in attempts then attempts[ids[i]].at else START)
  }

  method Enumerate<T(==,!new)>(all: set<T>) returns (s: seq<T>)
    ensures Enumerates(s, all)
  {
    s := [];
    var rest := all;
    while rest != {}
      invariant rest <= all && Enumerates(s, all - rest)
      decreases rest
    {
      var x :| x in rest;
      s, rest := s + [x], rest - {x};
    }
  }

  /* ---- what is shown ---- */

  ghost predicate RegionsShown(db: Db, guest: Id, catalog: seq<string>, rows: seq<RegionRow>) {
    && |rows| == |catalog|
    && forall i | 0 <= i < |rows| :: && rows[i].region == catalog[i]
                                     && rows[i].knowledge == KnowledgeOf(db.knowledge, guest, catalog[i])
                                     && rows[i].knowledge.alpha >= 0 && rows[i].knowledge.beta > 0
                                     && rows[i].display == ProfilePercentage(rows[i].knowledge)
  }

  /** The figures of the guest's finished games and days, and a row for every region of the catalog. */
  ghost predicate ProfileShows(db: Db, guest: Id, catalog: seq<string>, today: int, p: Profile) {
    && (exists ids, days :: Enumerates(ids, FinalizedOf(db, guest)) && Enumerates(days, DaysOf(db.days, guest))
                            && StatisticsAre(Snapshots(db.attempts, ids), days, today, p.statistics))
    && RegionsShown(db, guest, catalog, p.regions)
  }

  lemma FinalizedAreFinished(world: World, db: Db, guest: Id, ids: seq<Id>)
    requires RowsFit(world, db.attempts) && LedgerExact(world, db.attempts, db.finals, db.board, db.contributions)
    requires Enumerates(ids, FinalizedOf(db, guest))
    ensures Lists(db.attempts, guest, ids)
    ensures forall i | 0 <= i < |ids| :: Terminal(Snapshots(db.attempts, ids)[i])
  {
    forall id <- db.attempts ensures RowFits(world, db.attempts[id]) && (id in db.finals <==> db.attempts[id].at.state != Active) {
      assert RowFits(world, db.attempts[id]);
      assert Settled(world, db.attempts[id], id, db.finals, db.board, db.contributions);
    }
    forall i | 0 <= i < |ids| ensures Terminal(Snapshots(db.attempts, ids)[i]) {
      assert ids[i] in ids;
    }
  }

  lemma AllSettle(world: World, db: Db, guest: Id, active: seq<Id>, now: Time)
    requires Inv(world, db) && Enumerates(active, ActiveOf(db.attempts, guest))
    ensures forall id <- ActiveOf(db.attempts, guest) :: Reconciled(world, ExpireAll(world, db, guest, active, now), id, now)
  {
    forall id <- ActiveOf(db.attempts, guest) ensures Reconciled(world, ExpireAll(world, db, guest, active, now), id, now) {
      assert RowFits(world, db.attempts[id]);
      ProfileSettlesAll(world, db, guest, active, now, id);
    }
  }

  /** A row for each region, with knowledge as it started where there is none. */
  method ShowRegions(tables: Tables, guest: Id, catalog: seq<string>) returns (rows: seq<RegionRow>)
    requires Inv(tables.world, tables.Contents())
    ensures RegionsShown(tables.Contents(), guest, catalog, rows)
  {
    rows := [];
    for i := 0 to |catalog|
      invariant RegionsShown(tables.Contents(), guest, catalog[..i], rows)
    {
      var k := KnowledgeOf(tables.knowledge, guest, catalog[i]);
      KnowledgePassesEverywhere(tables.world, tables.Contents(), guest, catalog[i]);
      RoundingsAgree(k);
      rows := rows + [RegionRow(catalog[i], k, ProfilePercentage(k))];
    }
    assert catalog[..|catalog|] == catalog;
  }

  /** readProfile: the guest's active games that are due end first; then the figures are taken. */
  method ReadProfile(tables: Tables, guest: Id, catalog: seq<string>, now: Time, today: int) returns (p: Option<Profile>)
    requires Inv(tables.world, tables.Contents())
    modifies tables
    ensures Inv(tables.world, tables.Contents())
    ensures p.Some? <==> guest in tables.world.guests
    ensures p.None? ==> tables.Contents() == old(tables.Contents())
    ensures p.Some? ==> ProfileShows(tables.Contents(), guest, catalog, today, p.value)
    ensures p.Some? ==> forall id <- ActiveOf(old(tables.attempts), guest) :: Reconciled(tables.world, tables.Contents(), id, now)
    ensures p.Some? ==> exists active :: Enumerates(active, ActiveOf(old(tables.attempts), guest))
                                         && tables.Contents() == ExpireAll(tables.world, old(tables.Contents()), guest, active, now)
  {
    if guest !in tables.world.guests {
      return None;
    }
    var active := Enumerate(ActiveOf(tables.attempts, guest));
    ExpireAllKeepsInv(tables.world, tables.Contents(), guest, active, now);
    AllSettle(tables.world, tables.Contents(), guest, active, now);
    tables.ReconcileProfile(guest, active, now);
    var ids := Enumerate(FinalizedOf(tables.Contents(), guest));
    var days := Enumerate(DaysOf(tables.days, guest));
    FinalizedAreFinished(tables.world, tables.Contents(), guest, ids);
    var statistics := CalculateProfileStatistics(Snapshots(tables.attempts, ids), days, today);
    var regions := ShowRegions(tables, guest, catalog);
    return Some(Profile(statistics.value, regions));
  }

  /* ---- what it means ---- */

  /** The games of the guest on the leaderboard, and the finished ones that are not. */
  function SolvedBy(db: Db, guest: Id): set<Id> { set id | id in db.board && db.board[id].guest == guest }

  function FailedBy(db: Db, guest: Id): set<Id> {
    set id | id in db.finals && db.finals[id].guest == guest && db.finals[id].outcome != Solved
  }

  function Those(ids: seq<Id>): set<Id> { set id | id in ids }

  function SolvedAmong(attempts: Attempts, ids: seq<Id>): set<Id> {
    set id | id in ids && id in attempts && attempts[id].at.state == Solved
  }

  lemma {:induction false} CountThose(ids: seq<Id>)
    requires forall i, j | 0 <= i < j < |ids| :: ids[i] != ids[j]
    ensures |Those(ids)| == |ids|
  {
    if ids == [] {
      assert Those(ids) == {};
    } else {
      var front, last := ids[..|ids| - 1], ids[|ids| - 1];
      CountThose(front);
      assert ids == front + [last] && last !in front;
      assert Those(ids) == Those(front) + {last};
    }
  }

  lemma SnapshotsFront(attempts: Attempts, front: seq<Id>, last: Id)
    ensures Snapshots(attempts, front + [last])
         == Snapshots(attempts, front) + [if last in attempts then attempts[last].at else START]
  {
  }

  lemma SolvedFront(attempts: Attempts, front: seq<Id>, last: Id)
    ensures SolvedAmong(attempts, front + [last])
         == SolvedAmong(attempts, front) + (if last in attempts && attempts[last].at.state == Solved then {last} else {})
  {
  }

  lemma CountOneMore(s: seq<Snapshot>, last: Snapshot)
    ensures CountSolved(s + [last]) == CountSolved(s) + if last.state == Solved then 1 else 0
  {
    assert (s + [last])[..|s|] == s;
  }

  lemma {:induction false} CountIsSize(attempts: Attempts, ids: seq<Id>)
    requires forall i, j | 0 <= i < j < |ids| :: ids[i] != ids[j]
    ensures CountSolved(Snapshots(attempts, ids)) == |SolvedAmong(attempts, ids)|
  {
    if ids == [] {
      assert SolvedAmong(attempts, ids) == {};
    } else {
      var front, last := ids[..|ids| - 1], ids[|ids| - 1];
      CountIsSize(attempts, front);
      assert ids == front + [last];
      SnapshotsFront(attempts, front, last);
      SolvedFront(attempts, front, last);
      CountOneMore(Snapshots(attempts, front), if last in attempts then attempts[last].at else START);
      LastIsExtra(ids, attempts);
    }
  }

  lemma LastIsExtra(ids: seq<Id>, attempts: Attempts)
    requires ids != [] && forall i, j | 0 <= i < j < |ids| :: ids[i] != ids[j]
    ensures ids[|ids| - 1] !in SolvedAmong(attempts, ids[..|ids| - 1])
  {
  }

  lemma FinishedSplit(world: World, db: Db, guest: Id, ids: seq<Id>)
    requires RowsFit(world, db.attempts) && LedgerExact(world, db.attempts, db.finals, db.board, db.contributions)
    requires Lists(db.attempts, guest, ids)
    ensures SolvedAmong(db.attempts, ids) == SolvedBy(db, guest)
    ensures Those(ids) - SolvedBy(db, guest) == FailedBy(db, guest) && SolvedBy(db, guest) <= Those(ids)
  {
    forall id ensures id in SolvedAmong(db.attempts, ids) <==> id in SolvedBy(db, guest) {
      if id in db.attempts {
        AttemptsPass(world, db, id);
        assert Settled(world, db.attempts[id], id, db.finals, db.board, db.contributions);
      }
    }
    forall id ensures id in ids && id !in SolvedBy(db, guest) <==> id in FailedBy(db, guest) {
      if id in db.attempts {
        AttemptsPass(world, db, id);
        assert Settled(world, db.attempts[id], id, db.finals, db.board, db.contributions);
      }
    }
  }

  /** The days on which the guest has guessed. */
  ghost predicate ArePlayed(db: Db, guest: Id, days: set<int>) {
    forall day: int :: day in days <==> GuessedOn(db.attempts, db.guesses, guest, day)
  }

  ghost predicate FiguresAreTrue(db: Db, guest: Id, today: int, s: Statistics) {
    && s.solved == |SolvedBy(db, guest)| && s.failed == |FailedBy(db, guest)|
    && s.accuracy == (if s.solved + s.failed == 0 then 0 else RoundHalfUp(100 * s.solved, s.solved + s.failed))
    && exists days :: ArePlayed(db, guest, days) && IsCurrent(days, today, s.current) && IsLongest(days, s.longest)
  }

  lemma CountsAreTrue(world: World, db: Db, guest: Id, ids: seq<Id>)
    requires RowsFit(world, db.attempts) && LedgerExact(world, db.attempts, db.finals, db.board, db.contributions)
    requires Enumerates(ids, FinalizedOf(db, guest))
    ensures CountSolved(Snapshots(db.attempts, ids)) == |SolvedBy(db, guest)|
    ensures |ids| == |SolvedBy(db, guest)| + |FailedBy(db, guest)|
  {
    FinalizedAreFinished(world, db, guest, ids);
    FinishedSplit(world, db, guest, ids);
    CountIsSize(db.attempts, ids);
    CountThose(ids);
  }

  lemma DaysAreTrue(db: Db, guest: Id, days: seq<int>)
    requires DaysExact(db) && Enumerates(days, DaysOf(db.days, guest))
    ensures ArePlayed(db, guest, DaySet(days))
  {
    forall day: int ensures day in DaySet(days) <==> GuessedOn(db.attempts, db.guesses, guest, day) {
      assert day in DaysOf(db.days, guest) <==> (guest, day) in db.days;
    }
  }

  lemma StatisticsAreTrue(db: Db, guest: Id, today: int, ids: seq<Id>, days: seq<int>, s: Statistics)
    requires |Snapshots(db.attempts, ids)| == |ids|
    requires CountSolved(Snapshots(db.attempts, ids)) == |SolvedBy(db, guest)|
    requires |ids| == |SolvedBy(db, guest)| + |FailedBy(db, guest)| && ArePlayed(db, guest, DaySet(days))
    requires StatisticsAre(Snapshots(db.attempts, ids), days, today, s)
    ensures FiguresAreTrue(db, guest, today, s)
  {
  }

  /** What a profile shows in a reachable state: solved games are the guest's rows on the leaderboard, failed ones
      the other finalizations, the accuracy their share; the streaks are about the days on which the guest has
      guessed; and every region has the knowledge and the percentage that the calculation makes of the guest's
      finished cases. */
  lemma EveryProfileIsTrue(
    world: World, steps: seq<Step>, guest: Id, catalog: seq<string>, today: int, p: Profile, ids: seq<Id>,
    cases: seq<CaseOutcome>, i: nat)
    requires world.Valid() && ProfileShows(Run(world, steps), guest, catalog, today, p)
    requires Lists(Run(world, steps).attempts, guest, ids) && CasesOf(world, Run(world, steps).attempts, ids, cases)
    requires i < |catalog|
    ensures FiguresAreTrue(Run(world, steps), guest, today, p.statistics)
    ensures |p.regions| == |catalog| && p.regions[i].region == catalog[i]
    ensures p.regions[i].knowledge == CaseTally(cases, catalog[i]) && p.regions[i].display == Display(p.regions[i].knowledge)
  {
    EveryRunKeepsInv(world, steps);
    EveryDayWasPlayed(world, steps);
    var db := Run(world, steps);
    var listed, days :| Enumerates(listed, FinalizedOf(db, guest)) && Enumerates(days, DaysOf(db.days, guest))
                        && StatisticsAre(Snapshots(db.attempts, listed), days, today, p.statistics);
    CountsAreTrue(world, db, guest, listed);
    DaysAreTrue(db, guest, days);
    StatisticsAreTrue(db, guest, today, listed, days, p.statistics);
    KnowledgeIsRecalculated(world, steps, guest, ids, cases, catalog[i]);
  }
}
