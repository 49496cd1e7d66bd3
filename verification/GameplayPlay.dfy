/** What guests have played: participation days are the days of their guesses, and the history that is shown
    is the guesses in order. */
module GameplayPlay {
  import opened Basics
  import opened AttemptEngine
  import opened GameplayLedger
  import opened GameplayInvariant
  import opened GameplayHistory
  import opened GameplayTheorems

  type Guesses = map<(Id, int), GuessRow>
  type Days = map<(Id, int), Time>

  ghost predicate PlayedOn(attempts: Attempts, guesses: Guesses, guest: Id, day: int, k: (Id, int)) {
    k in guesses && k.0 in attempts && attempts[k.0].guest == guest && guesses[k].at / DAY == day
  }

  ghost predicate GuessedOn(attempts: Attempts, guesses: Guesses, guest: Id, day: int) {
    exists k :: PlayedOn(attempts, guesses, guest, day, k)
  }

  /** A guest's day is on record exactly when one of the guest's guesses was made on it; and guesses are made at
      the five levels of evidence. */
  ghost predicate DaysArePlayed(attempts: Attempts, guesses: Guesses, days: Days) {
    && (forall guest: Id, day: int {:trigger GuessedOn(attempts, guesses, guest, day)} ::
          (guest, day) in days <==> GuessedOn(attempts, guesses, guest, day))
    && (forall k <- guesses :: k.0 in attempts && 0 <= guesses[k].level <= 4)
  }

  ghost predicate DaysExact(db: Db) {
    DaysArePlayed(db.attempts, db.guesses, db.days)
  }

  ghost predicate OwnersKept(a: Attempts, b: Attempts) {
    forall id <- a :: id in b && b[id].guest == a[id].guest
  }

  lemma EvolutionKeepsOwners(a: Db, b: Db)
    requires Evolves(a, b)
    ensures OwnersKept(a.attempts, b.attempts)
  {
    forall id <- a.attempts ensures id in b.attempts && b.attempts[id].guest == a.attempts[id].guest {
      assert RowEvolves(a.attempts[id], b.attempts[id]);
    }
  }

  /** Attempts may move and come, as long as owners stay. */
  lemma OwnersStay(a: Attempts, b: Attempts, guesses: Guesses, days: Days)
    requires DaysArePlayed(a, guesses, days) && OwnersKept(a, b)
    ensures DaysArePlayed(b, guesses, days)
  {
    forall guest: Id, day: int ensures GuessedOn(a, guesses, guest, day) <==> GuessedOn(b, guesses, guest, day) {
      if GuessedOn(a, guesses, guest, day) {
        var k :| PlayedOn(a, guesses, guest, day, k);
        assert PlayedOn(b, guesses, guest, day, k);
      }
      if GuessedOn(b, guesses, guest, day) {
        var k :| PlayedOn(b, guesses, guest, day, k);
        assert PlayedOn(a, guesses, guest, day, k);
      }
    }
  }

  /** A new guess puts its own day on record and no other. */
  lemma GuessPlaysDay(attempts: Attempts, guesses: Guesses, days: Days, id: Id, number: int, row: GuessRow)
    requires DaysArePlayed(attempts, guesses, days) && id in attempts && (id, number) !in guesses && 0 <= row.level <= 4
    ensures DaysArePlayed(attempts, guesses[(id, number) := row], WithDay(days, attempts[id].guest, row.at, true))
  {
    var after := guesses[(id, number) := row];
    forall guest: Id, day: int
      ensures GuessedOn(attempts, after, guest, day)
        <==> GuessedOn(attempts, guesses, guest, day) || (guest == attempts[id].guest && day == row.at / DAY)
    {
      assert PlayedOn(attempts, after, attempts[id].guest, row.at / DAY, (id, number));
      if GuessedOn(attempts, guesses, guest, day) {
        var k :| PlayedOn(attempts, guesses, guest, day, k);
        assert PlayedOn(attempts, after, guest, day, k);
      }
      if GuessedOn(attempts, after, guest, day) {
        var k :| PlayedOn(attempts, after, guest, day, k);
        assert k != (id, number) ==> PlayedOn(attempts, guesses, guest, day, k);
      }
    }
  }

  lemma CommitDays(
    world: World, db: Db, guest: Id, session: Id, key: string, token: Fingerprint, next: Snapshot, code: Code,
    entity: Option<Id>, at: Time)
    requires token.CommandToken? && Owned(world, db, token.attempt, guest)
    ensures
      Commit(world, db, guest, session, key, token, next, code, entity, at).days ==
      WithDay(db.days, guest, at, GuessOf(entity, db.attempts[token.attempt], next, at).Some?)
  {
  }

  /** What is written of a guess. */
  lemma GuessIs(entity: Option<Id>, row: Attempt, next: Snapshot, at: Time)
    ensures var guess := GuessOf(entity, row, next, at);
      (guess.Some? <==> entity.Some?) && (guess.Some? ==> guess.value.level == row.at.e && guess.value.at == at)
  {
  }

  /** What a commit leaves for the days. */
  ghost predicate PlayRecorded(db: Db, after: Db, id: Id, number: int, guess: Option<GuessRow>, at: Time)
    requires id in db.attempts
  {
    && OwnersKept(db.attempts, after.attempts)
    && after.guesses == WithGuess(db.guesses, id, number, guess)
    && after.days == WithDay(db.days, db.attempts[id].guest, at, guess.Some?)
  }

  lemma CommitPlays(
    world: World, db: Db, guest: Id, session: Id, key: string, token: Fingerprint, next: Snapshot, code: Code,
    entity: Option<Id>, at: Time)
    requires token.CommandToken? && Owned(world, db, token.attempt, guest)
    requires db.attempts[token.attempt].at.state == Active && (guest, key) !in db.receipts
    ensures
      var row := db.attempts[token.attempt];
      PlayRecorded(db, Commit(world, db, guest, session, key, token, next, code, entity, at), token.attempt, row.at.W + 1,
                   GuessOf(entity, row, next, at), at)
  {
    CommitRecords(world, db, guest, session, key, token, next, code, entity, at);
    CommitDays(world, db, guest, session, key, token, next, code, entity, at);
    CommitEvolves(world, db, guest, session, key, token, next, code, entity, at);
    EvolutionKeepsOwners(db, Commit(world, db, guest, session, key, token, next, code, entity, at));
  }

  lemma PlayKeepsDays(db: Db, after: Db, id: Id, number: int, guess: Option<GuessRow>, at: Time)
    requires DaysExact(db) && id in db.attempts && PlayRecorded(db, after, id, number, guess, at)
    requires guess.Some? ==> (id, number) !in db.guesses && 0 <= guess.value.level <= 4 && guess.value.at == at
    ensures DaysExact(after)
  {
    if guess.Some? {
      GuessPlaysDay(db.attempts, db.guesses, db.days, id, number, guess.value);
    }
    OwnersStay(db.attempts, after.attempts, after.guesses, after.days);
  }

  lemma CommitKeepsDays(
    world: World, db: Db, guest: Id, session: Id, key: string, token: Fingerprint, next: Snapshot, code: Code,
    entity: Option<Id>, at: Time)
    requires token.CommandToken? && Owned(world, db, token.attempt, guest) && DaysExact(db)
    requires db.attempts[token.attempt].at.state == Active && (guest, key) !in db.receipts
    requires entity.Some? ==> (token.attempt, db.attempts[token.attempt].at.W + 1) !in db.guesses
    requires ValidSnapshot(db.attempts[token.attempt].at)
    ensures DaysExact(Commit(world, db, guest, session, key, token, next, code, entity, at))
  {
    var row := db.attempts[token.attempt];
    GuessIs(entity, row, next, at);
    CommitPlays(world, db, guest, session, key, token, next, code, entity, at);
    PlayKeepsDays(db, Commit(world, db, guest, session, key, token, next, code, entity, at), token.attempt, row.at.W + 1,
                  GuessOf(entity, row, next, at), at);
  }

  /** Whatever leaves guesses and days alone. */
  lemma QuietStepKeepsDays(a: Db, b: Db)
    requires DaysExact(a) && Evolves(a, b) && b.guesses == a.guesses && b.days == a.days
    ensures DaysExact(b)
  {
    EvolutionKeepsOwners(a, b);
    OwnersStay(a.attempts, b.attempts, a.guesses, a.days);
  }

  lemma ExpireLeavesPlay(world: World, db: Db, id: Id, now: Time)
    requires id in db.attempts && db.attempts[id].revision in world.revisions
    ensures var after := ExpireIfClosed(world, db, id, now); after.guesses == db.guesses && after.days == db.days
  {
  }

  lemma ExpireKeepsValid(world: World, db: Db, id: Id, now: Time)
    requires id in db.attempts && RowFits(world, db.attempts[id])
    ensures ValidSnapshot(ExpireIfClosed(world, db, id, now).attempts[id].at)
  {
  }

  lemma WriteIsFree(world: World, db: Db, guest: Id, session: Id, token: Fingerprint, clock: Clock)
    requires token.CommandToken? && Owned(world, db, token.attempt, guest)
    ensures match Decide(world, db, guest, session, token, clock)
      case Write(next, code, entity) =>
        entity.Some? ==> (token.attempt, db.attempts[token.attempt].at.W + 1) !in db.guesses
      case _ => true
  {
  }

  lemma ExecuteKeepsDays(world: World, db: Db, guest: Id, session: Id, key: string, token: Fingerprint, clock: Clock)
    requires Inv(world, db) && DaysExact(db) && token.CommandToken?
    ensures DaysExact(Execute(world, db, guest, session, key, token.attempt, token.expectedVersion, token.command, clock).0)
  {
    ExecuteCases(world, db, guest, session, key, token, clock);
    var (after, result) := Execute(world, db, guest, session, key, token.attempt, token.expectedVersion, token.command, clock);
    if after != db {
      ExpireKeepsInv(world, db, token.attempt, clock.sampled);
      ExpireLeavesPlay(world, db, token.attempt, clock.sampled);
      var current := ExpireIfClosed(world, db, token.attempt, clock.sampled);
      QuietStepKeepsDays(db, current);
      if Fresh(result) {
        assert RowFits(world, db.attempts[token.attempt]);
        WriteMovesOn(world, current, guest, session, key, token, clock);
        ExpireKeepsValid(world, db, token.attempt, clock.sampled);
        WriteIsFree(world, current, guest, session, token, clock);
        var Write(next, code, entity) := Decide(world, current, guest, session, token, clock);
        CommitKeepsDays(world, current, guest, session, key, token, next, code, entity, clock.sampled);
      }
    }
  }

  lemma OpenLeavesPlay(world: World, db: Db, guest: Id, session: Id, key: string, revision: Id, clock: Clock, freshId: Id)
    ensures var after := Open(world, db, guest, session, key, revision, clock, freshId).0;
      after.guesses == db.guesses && after.days == db.days
  {
  }

  lemma StartLeavesPlay(world: World, db: Db, guest: Id, session: Id, key: string, clock: Clock, freshId: Id)
    ensures var after := Start(world, db, guest, session, key, clock, freshId).0;
      after.guesses == db.guesses && after.days == db.days
  {
    if world.CurrentRevision(clock.sampled).Some? {
      OpenLeavesPlay(world, db, guest, session, key, world.CurrentRevision(clock.sampled).value, clock, freshId);
    }
    if (guest, key) in db.receipts && Owned(world, db, db.receipts[(guest, key)].attempt, guest) {
      ExpireLeavesPlay(world, db, db.receipts[(guest, key)].attempt, clock.sampled);
    }
  }

  lemma ServeKeepsDays(world: World, db: Db, request: Request, clock: Clock, freshId: Id)
    requires Inv(world, db) && DaysExact(db)
    ensures DaysExact(Serve(world, db, request, clock, freshId).0)
  {
    match request {
      case StartRequest(guest, session, key) =>
        StartLeavesPlay(world, db, guest, session, key, clock, freshId);
        StartKeepsInv(world, db, guest, session, key, clock, freshId);
        QuietStepKeepsDays(db, Start(world, db, guest, session, key, clock, freshId).0);
      case CommandRequest(guest, session, key, _, _, _) =>
        ExecuteKeepsDays(world, db, guest, session, key, TokenOf(request), clock);
    }
  }

  lemma MayExpireKeepsDays(world: World, db: Db, after: Db, id: Id, now: Time)
    requires Inv(world, db) && DaysExact(db) && MayExpire(world, db, after, id, now)
    ensures DaysExact(after)
  {
    if after != db {
      ExpireLeavesPlay(world, db, id, now);
      ExpireKeepsInv(world, db, id, now);
      QuietStepKeepsDays(db, after);
    }
  }

  lemma {:induction false} ExpireAllKeepsDays(world: World, db: Db, guest: Id, ids: seq<Id>, now: Time)
    requires Inv(world, db) && DaysExact(db)
    ensures DaysExact(ExpireAll(world, db, guest, ids, now))
  {
    if ids != [] {
      var before, last := ExpireAll(world, db, guest, ids[..|ids| - 1], now), ids[|ids| - 1];
      ExpireAllKeepsInv(world, db, guest, ids[..|ids| - 1], now);
      ExpireAllKeepsDays(world, db, guest, ids[..|ids| - 1], now);
      if Owned(world, before, last, guest) {
        MayExpireKeepsDays(world, before, ExpireIfClosed(world, before, last, now), last, now);
      }
    }
  }

  lemma TakeKeepsDays(world: World, db: Db, step: Step)
    requires Inv(world, db) && DaysExact(db)
    ensures DaysExact(Take(world, db, step))
  {
    match step {
      case Requested(request, clock, freshId) => ServeKeepsDays(world, db, request, clock, freshId);
      case AttemptRead(guest, id, now) =>
        ReadsMayExpire(world, db, guest, id, now, now);
        MayExpireKeepsDays(world, db, Take(world, db, step), id, now);
      case CaseRead(guest, first, now) =>
        ReadsMayExpire(world, db, guest, 0, first, now);
        var id :| MayExpire(world, db, Take(world, db, step), id, now);
        MayExpireKeepsDays(world, db, Take(world, db, step), id, now);
      case ProfileRead(guest, active, now) => ExpireAllKeepsDays(world, db, guest, active, now);
    }
  }

  lemma NothingPlayed()
    ensures DaysExact(EMPTY)
  {
    forall guest: Id, day: int ensures !GuessedOn(EMPTY.attempts, EMPTY.guesses, guest, day) {}
  }

  /** In every reachable state a guest's participation days are exactly the UTC days of the guest's accepted
      guesses: reveals, starts, giving up and expiry never count, and a day counts once. */
  lemma {:induction false} EveryDayWasPlayed(world: World, steps: seq<Step>)
    requires world.Valid()
    ensures DaysExact(Run(world, steps))
  {
    if steps == [] {
      NothingPlayed();
    } else {
      EveryDayWasPlayed(world, steps[..|steps| - 1]);
      EveryRunKeepsInv(world, steps[..|steps| - 1]);
      TakeKeepsDays(world, Run(world, steps[..|steps| - 1]), steps[|steps| - 1]);
    }
  }

  /* ---- the history that is shown ---- */

  lemma {:induction false} HistoryFrom(guesses: Guesses, id: Id, from: int, count: nat)
    requires GuessesNumbered(guesses, id, count) && 1 <= from <= 16 && count <= 15 && from <= count + 1
    ensures |History(guesses, id, from)| == count + 1 - from
    ensures forall i | 0 <= i < count + 1 - from ::
      (id, from + i) in guesses && History(guesses, id, from)[i] == guesses[(id, from + i)].entity
    decreases 16 - from
  {
    if from <= count {
      HistoryFrom(guesses, id, from + 1, count);
      assert (id, from) in guesses;
      var rest := History(guesses, id, from + 1);
      forall i | 0 <= i < count + 1 - from
        ensures (id, from + i) in guesses && History(guesses, id, from)[i] == guesses[(id, from + i)].entity
      {
        if i > 0 {
          assert rest[i - 1] == guesses[(id, from + 1 + (i - 1))].entity;
        }
      }
    } else {
      NothingBeyond(guesses, id, from, count);
    }
  }

  lemma {:induction false} NothingBeyond(guesses: Guesses, id: Id, from: int, count: nat)
    requires GuessesNumbered(guesses, id, count) && 1 <= from <= 16 && count < from
    ensures History(guesses, id, from) == []
    decreases 16 - from
  {
    if from < 16 {
      NothingBeyond(guesses, id, from + 1, count);
      assert (id, from) !in guesses;
    }
  }

  lemma HistoryExplained(row: Attempt, receipts: Receipts, guesses: Guesses, id: Id, codes: seq<Code>)
    requires ValidSnapshot(row.at) && Explains(row, receipts, guesses, id, codes)
    ensures |History(guesses, id, 1)| == CountGuesses(codes)
    ensures HistoryShows(guesses, id, History(guesses, id, 1))
  {
    JournalIsShort(codes);
    JournalCounts(codes);
    HistoryFrom(guesses, id, 1, CountGuesses(codes));
  }

  /** Guess number i + 1 is shown in place i. */
  ghost predicate HistoryShows(guesses: Guesses, id: Id, h: seq<Id>) {
    forall i | 0 <= i < |h| :: (id, i + 1) in guesses && h[i] == guesses[(id, i + 1)].entity
  }

  /** In every reachable state the history of an attempt shows its guesses 1..k in order, one for each guess in
      its journal. */
  lemma EveryHistoryIsTheGuesses(world: World, steps: seq<Step>, id: Id)
    requires world.Valid() && id in Run(world, steps).attempts
    ensures
      var db := Run(world, steps);
      var h := History(db.guesses, id, 1);
      && (exists codes :: Explains(db.attempts[id], db.receipts, db.guesses, id, codes) && |h| == CountGuesses(codes))
      && HistoryShows(db.guesses, id, h)
  {
    EveryRunKeepsInv(world, steps);
    var db := Run(world, steps);
    assert Explained(db.attempts[id], db.receipts, db.guesses, id);
    var codes :| Explains(db.attempts[id], db.receipts, db.guesses, id, codes);
    HistoryExplained(db.attempts[id], db.receipts, db.guesses, id, codes);
  }
}
