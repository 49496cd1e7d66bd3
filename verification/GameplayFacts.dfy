/** What the tables say in every reachable state about guesses, answers, times, points and shares, in their columns. */
module GameplayFacts {
  import opened Basics
  import opened AttemptEngine
  import opened GameplayLedger
  import opened GameplayInvariant
  import opened GameplayHistory
  import opened GameplayTheorems
  import opened GameplayPlay
  import opened GameplayReference
  import opened GameplayAnswers

  /* ---- guesses, ends and owners ---- */

  /** A guess is marked correct exactly when it names the answer of its attempt's revision. */
  ghost predicate GuessesMarked(world: World, attempts: Attempts, guesses: Guesses) {
    forall k <- guesses ::
      && k.0 in attempts && attempts[k.0].revision in world.revisions
      && (guesses[k].correct <==> guesses[k].entity == world.revisions[attempts[k.0].revision].answer)
  }

  ghost predicate HasCorrect(guesses: Guesses, id: Id) {
    exists n: int :: (id, n) in guesses && guesses[(id, n)].correct
  }

  ghost predicate SolvedByGuess(attempts: Attempts, guesses: Guesses) {
    forall id <- attempts :: attempts[id].at.state == Solved <==> HasCorrect(guesses, id)
  }

  /** The clock ends a game at the closing time, a command before it. */
  predicate EndsInTime(row: Attempt) {
    var closes := row.slot * 86_400_000 + 86_400_000;
    match row.at.state
    case Active => row.terminalAt == None
    case Expired => row.terminalAt == Some(closes)
    case _ => row.terminalAt.Some? && row.startedAt <= row.terminalAt.value < closes
  }

  ghost predicate RowsEndInTime(world: World, attempts: Attempts) {
    forall id <- attempts :: EndsInTime(attempts[id]) && attempts[id].guest in world.guests
  }

  ghost predicate FactsHold(world: World, db: Db) {
    && GuessesMarked(world, db.attempts, db.guesses)
    && SolvedByGuess(db.attempts, db.guesses)
    && RowsEndInTime(world, db.attempts)
  }

  /* the three changes */

  lemma ExpiryKeepsFacts(world: World, db: Db, after: Db, id: Id, now: Time)
    requires FactsHold(world, db) && id in db.attempts && db.attempts[id].revision in world.revisions
    requires Expires(world, db, after, id, now)
    ensures FactsHold(world, after)
  {
  }

  lemma NewGuessMarks(
    world: World, attempts: Attempts, guesses: Guesses, id: Id, n: int, guess: GuessRow, row: Attempt)
    requires GuessesMarked(world, attempts, guesses) && SolvedByGuess(attempts, guesses)
    requires id in attempts && attempts[id].revision in world.revisions && attempts[id].at.state == Active
    requires (id, n) !in guesses && row.revision == attempts[id].revision
    requires guess.correct <==> guess.entity == world.revisions[row.revision].answer
    requires row.at.state == Solved <==> guess.correct
    ensures GuessesMarked(world, attempts[id := row], guesses[(id, n) := guess])
    ensures SolvedByGuess(attempts[id := row], guesses[(id, n) := guess])
  {
    var guesses' := guesses[(id, n) := guess];
    forall other ensures other != id ==> (HasCorrect(guesses', other) <==> HasCorrect(guesses, other)) {
      if HasCorrect(guesses', other) && other != id {
        var m: int :| (other, m) in guesses' && guesses'[(other, m)].correct;
        assert (other, m) in guesses;
      }
      if HasCorrect(guesses, other) && other != id {
        var m: int :| (other, m) in guesses && guesses[(other, m)].correct;
        assert (other, m) in guesses';
      }
    }
    assert !HasCorrect(guesses, id);
    forall m: int | (id, m) in guesses' && guesses'[(id, m)].correct ensures m == n {}
    if guess.correct {
      assert (id, n) in guesses' && guesses'[(id, n)].correct;
    }
  }

  /** A move without a guess does not solve. */
  lemma OtherMoveMarks(world: World, attempts: Attempts, guesses: Guesses, id: Id, row: Attempt)
    requires GuessesMarked(world, attempts, guesses) && SolvedByGuess(attempts, guesses)
    requires id in attempts && attempts[id].at.state == Active && row.revision == attempts[id].revision
    requires row.at.state != Solved
    ensures GuessesMarked(world, attempts[id := row], guesses) && SolvedByGuess(attempts[id := row], guesses)
  {
  }

  function MovedTo(row: Attempt, next: Snapshot, at: Time): Attempt {
    Attempt(row.guest, row.revision, row.slot, next, row.version + 1, row.startedAt,
            if next.state == Active then None else Some(at))
  }

  lemma DueIsMarked(revision: Revision, row: Attempt, command: Command, at: Time)
    requires DueOf(revision, row, command, at).Some?
    ensures var due := DueOf(revision, row, command, at).value;
      && due.next.state != Expired
      && (due.guess.Some? ==> && (due.guess.value.correct <==> due.guess.value.entity == revision.answer)
                              && (due.next.state == Solved <==> due.guess.value.correct))
      && (due.guess.None? ==> due.next.state != Solved)
  {
  }

  lemma CommandKeepsFacts(world: World, db: Db, after: Db, r: Request, at: Time, due: Due)
    requires FactsHold(world, db) && r.CommandRequest? && r.attempt in db.attempts
    requires db.attempts[r.attempt].revision in world.revisions && db.attempts[r.attempt].at.state == Active
    requires db.attempts[r.attempt].startedAt <= at < db.attempts[r.attempt].slot * 86_400_000 + 86_400_000
    requires (r.attempt, db.attempts[r.attempt].at.W + 1) !in db.guesses
    requires DueOf(world.revisions[db.attempts[r.attempt].revision], db.attempts[r.attempt], r.command, at) == Some(due)
    requires after.attempts == db.attempts[r.attempt := MovedTo(db.attempts[r.attempt], due.next, at)]
    requires after.guesses ==
      if due.guess.None? then db.guesses else db.guesses[(r.attempt, db.attempts[r.attempt].at.W + 1) := due.guess.value]
    ensures FactsHold(world, after)
  {
    var row := db.attempts[r.attempt];
    assert (forall id <- after.attempts | id != r.attempt :: after.attempts[id] == db.attempts[id]);
    DueIsMarked(world.revisions[row.revision], row, r.command, at);
    if due.guess.Some? {
      NewGuessMarks(world, db.attempts, db.guesses, r.attempt, row.at.W + 1, due.guess.value, MovedTo(row, due.next, at));
    } else {
      OtherMoveMarks(world, db.attempts, db.guesses, r.attempt, MovedTo(row, due.next, at));
    }
  }

  lemma FirstKeepsFacts(world: World, db: Db, after: Db, id: Id, row: Attempt)
    requires FactsHold(world, db) && id !in db.attempts && (forall k <- db.guesses :: k.0 in db.attempts)
    requires row.at.state == Active && row.terminalAt == None && row.guest in world.guests
    requires after.attempts == db.attempts[id := row] && after.guesses == db.guesses
    ensures FactsHold(world, after)
  {
    assert !HasCorrect(db.guesses, id);
  }

  /* every step */

  /** A fresh answer: the game was running, and what was due is written. */
  lemma FreshIsDue(world: World, db: Db, r: Request, clock: Clock, after: Db, result: Result)
    requires r.CommandRequest? && CommandAnswered(world, db, r, clock, after, result) && Fresh(result)
    ensures r.attempt in db.attempts && db.attempts[r.attempt].revision in world.revisions
    ensures
      var row := db.attempts[r.attempt];
      var due := DueOf(world.revisions[row.revision], row, r.command, clock.sampled);
      && row.at.state == Active && row.startedAt <= clock.sampled < row.slot * 86_400_000 + 86_400_000
      && due.Some? && CommandWritten(world, db, after, r, clock.sampled, due.value)
  {
  }

  /** Without one, the tables change by expiry only. */
  lemma OtherAnswersExpire(world: World, db: Db, r: Request, clock: Clock, after: Db, result: Result)
    requires r.CommandRequest? && CommandAnswered(world, db, r, clock, after, result) && !Fresh(result) && after != db
    ensures r.attempt in db.attempts && db.attempts[r.attempt].revision in world.revisions
    ensures Expires(world, db, after, r.attempt, clock.sampled)
  {
  }

  lemma AnswerKeepsFacts(world: World, db: Db, r: Request, clock: Clock, after: Db, result: Result)
    requires FactsHold(world, db) && r.CommandRequest? && CommandAnswered(world, db, r, clock, after, result)
    requires r.attempt in db.attempts ==> Sound(db, r.attempt)
    ensures FactsHold(world, after)
  {
    if Fresh(result) {
      FreshIsDue(world, db, r, clock, after, result);
      var row := db.attempts[r.attempt];
      var due := DueOf(world.revisions[row.revision], row, r.command, clock.sampled).value;
      WrittenKeepsFacts(world, db, after, r, clock.sampled, due);
    } else if after != db {
      OtherAnswersExpire(world, db, r, clock, after, result);
      ExpiryKeepsFacts(world, db, after, r.attempt, clock.sampled);
    }
  }

  lemma WrittenKeepsFacts(world: World, db: Db, after: Db, r: Request, at: Time, due: Due)
    requires FactsHold(world, db) && r.CommandRequest? && r.attempt in db.attempts
    requires db.attempts[r.attempt].revision in world.revisions && db.attempts[r.attempt].at.state == Active
    requires db.attempts[r.attempt].startedAt <= at < db.attempts[r.attempt].slot * 86_400_000 + 86_400_000
    requires Sound(db, r.attempt)
    requires DueOf(world.revisions[db.attempts[r.attempt].revision], db.attempts[r.attempt], r.command, at) == Some(due)
    requires CommandWritten(world, db, after, r, at, due)
    ensures FactsHold(world, after)
  {
    CommandKeepsFacts(world, db, after, r, at, due);
  }

  lemma CommandStepKeepsFacts(world: World, db: Db, r: Request, clock: Clock, freshId: Id)
    requires Inv(world, db) && FactsHold(world, db) && r.CommandRequest?
    ensures FactsHold(world, Serve(world, db, r, clock, freshId).0)
  {
    EveryCommandIsAnswered(world, db, r, clock, freshId);
    if r.attempt in db.attempts {
      RowsAreSound(world, db, r.attempt);
    }
    AnswerKeepsFacts(world, db, r, clock, Serve(world, db, r, clock, freshId).0, Serve(world, db, r, clock, freshId).1);
  }

  lemma StartStepKeepsFacts(world: World, db: Db, r: Request, clock: Clock, freshId: Id)
    requires Inv(world, db) && FactsHold(world, db) && r.StartRequest?
    ensures FactsHold(world, Serve(world, db, r, clock, freshId).0)
  {
    var after, result := Serve(world, db, r, clock, freshId).0, Serve(world, db, r, clock, freshId).1;
    EveryStartIsAnswered(world, db, r, clock, freshId);
    if after != db {
      if Fresh(result) {
        if after.attempts != db.attempts {
          FirstKeepsFacts(world, db, after, freshId, after.attempts[freshId]);
        }
      } else {
        ExpiryKeepsFacts(world, db, after, db.receipts[(r.guest, r.key)].attempt, clock.sampled);
      }
    }
  }

  lemma MayExpireKeepsFacts(world: World, db: Db, after: Db, id: Id, now: Time)
    requires Inv(world, db) && FactsHold(world, db) && MayExpire(world, db, after, id, now)
    ensures FactsHold(world, after)
  {
    if after != db {
      ExpiryIsReference(world, db, id, now);
      ExpiryKeepsFacts(world, db, after, id, now);
    }
  }

  lemma {:induction false} ExpireAllKeepsFacts(world: World, db: Db, guest: Id, ids: seq<Id>, now: Time)
    requires Inv(world, db) && FactsHold(world, db)
    ensures FactsHold(world, ExpireAll(world, db, guest, ids, now))
  {
    if ids != [] {
      var before, last := ExpireAll(world, db, guest, ids[..|ids| - 1], now), ids[|ids| - 1];
      ExpireAllKeepsInv(world, db, guest, ids[..|ids| - 1], now);
      ExpireAllKeepsFacts(world, db, guest, ids[..|ids| - 1], now);
      if Owned(world, before, last, guest) {
        MayExpireKeepsFacts(world, before, ExpireIfClosed(world, before, last, now), last, now);
      }
    }
  }

  lemma TakeKeepsFacts(world: World, db: Db, step: Step)
    requires Inv(world, db) && FactsHold(world, db)
    ensures FactsHold(world, Take(world, db, step))
  {
    match step {
      case Requested(request, clock, freshId) =>
        if request.CommandRequest? {
          CommandStepKeepsFacts(world, db, request, clock, freshId);
        } else {
          StartStepKeepsFacts(world, db, request, clock, freshId);
        }
      case AttemptRead(guest, id, now) =>
        ReadsMayExpire(world, db, guest, id, now, now);
        MayExpireKeepsFacts(world, db, Take(world, db, step), id, now);
      case CaseRead(guest, first, now) =>
        ReadsMayExpire(world, db, guest, 0, first, now);
        var id :| MayExpire(world, db, Take(world, db, step), id, now);
        MayExpireKeepsFacts(world, db, Take(world, db, step), id, now);
      case ProfileRead(guest, active, now) => ExpireAllKeepsFacts(world, db, guest, active, now);
    }
  }

  lemma {:induction false} EveryFactHolds(world: World, steps: seq<Step>)
    requires world.Valid()
    ensures FactsHold(world, Run(world, steps))
  {
    if steps != [] {
      EveryFactHolds(world, steps[..|steps| - 1]);
      EveryRunKeepsInv(world, steps[..|steps| - 1]);
      TakeKeepsFacts(world, Run(world, steps[..|steps| - 1]), steps[|steps| - 1]);
    }
  }

  /** In every reachable state a guess is marked correct exactly when it names the answer, and a game is solved
      exactly when one of its guesses does. */
  lemma EveryAnswerIsGuessed(world: World, steps: seq<Step>, id: Id)
    requires world.Valid() && id in Run(world, steps).attempts
    ensures Run(world, steps).attempts[id].revision in world.revisions
    ensures
      var db := Run(world, steps);
      var answer := world.revisions[db.attempts[id].revision].answer;
      && (forall n: int | (id, n) in db.guesses :: db.guesses[(id, n)].correct <==> db.guesses[(id, n)].entity == answer)
      && (db.attempts[id].at.state == Solved <==> exists n: int :: (id, n) in db.guesses && db.guesses[(id, n)].entity == answer)
  {
    EveryFactHolds(world, steps);
    EveryRunKeepsInv(world, steps);
    var db := Run(world, steps);
    assert RowFits(world, db.attempts[id]);
    var answer := world.revisions[db.attempts[id].revision].answer;
    forall n: int | (id, n) in db.guesses ensures db.guesses[(id, n)].correct <==> db.guesses[(id, n)].entity == answer {
      var k := (id, n);
      assert k in db.guesses && k.0 in db.attempts;
    }
    if HasCorrect(db.guesses, id) {
      var n: int :| (id, n) in db.guesses && db.guesses[(id, n)].correct;
      assert (id, n) in db.guesses && db.guesses[(id, n)].entity == answer;
    }
  }

  /* ---- points, times and shares ---- */

  /** The end of a game as finalization, leaderboard and contributions have it. */
  ghost predicate EndIsKept(world: World, db: Db, id: Id)
    requires id in db.attempts && db.attempts[id].revision in world.revisions
  {
    var row := db.attempts[id];
    && (id in db.finals <==> row.at.state != Active)
    && (id in db.finals ==>
          && row.terminalAt.Some? && db.finals[id].at == row.terminalAt.value
          && db.finals[id].guest == row.guest && db.finals[id].slot == row.slot && db.finals[id].outcome == row.at.state
          && ScoreIs(db.finals[id].score, row.at, row.terminalAt.value - row.startedAt))
    && (id in db.board <==> row.at.state == Solved)
    && (id in db.board ==>
          && row.terminalAt.Some? && db.board[id].elapsed == row.terminalAt.value - row.startedAt
          && db.board[id].guest == row.guest && db.board[id].slot == row.slot
          && db.board[id].e == row.at.e && db.board[id].W == row.at.W
          && ScoreIs(db.board[id].score, row.at, row.terminalAt.value - row.startedAt))
    && (forall r: string :: (id, r) in db.contributions <==>
          row.at.state != Active && r in world.revisions[row.revision].regions)
    && (forall r: string | (id, r) in db.contributions ::
          && db.contributions[(id, r)].guest == row.guest && db.contributions[(id, r)].alpha == Share(row.at)
          && db.contributions[(id, r)].beta == 100 - Share(row.at))
  }

  lemma DueColumns(world: World, row: Attempt)
    requires RowFits(world, row) && (row.terminalAt == None <==> row.at.state == Active)
    ensures
      var due := DueEffects(world, row);
      && (due.final.Some? <==> row.at.state != Active) && (due.board.Some? <==> row.at.state == Solved)
      && (due.final.Some? ==>
            && due.final.value.at == row.terminalAt.value && due.final.value.guest == row.guest
            && due.final.value.slot == row.slot && due.final.value.outcome == row.at.state
            && ScoreIs(due.final.value.score, row.at, row.terminalAt.value - row.startedAt))
      && (due.board.Some? ==>
            && due.board.value.elapsed == row.terminalAt.value - row.startedAt
            && due.board.value.guest == row.guest && due.board.value.slot == row.slot
            && due.board.value.e == row.at.e && due.board.value.W == row.at.W
            && ScoreIs(due.board.value.score, row.at, row.terminalAt.value - row.startedAt))
      && (forall r :: r in due.contributions <==> row.at.state != Active && r in world.revisions[row.revision].regions)
      && (forall r <- due.contributions ::
            due.contributions[r] == Contribution(row.guest, Share(row.at), 100 - Share(row.at)))
  {
    ShareIsReference(row.at);
    if row.terminalAt.Some? {
      ScoreIsReference(row, row.at, row.terminalAt.value);
    }
  }

  lemma SettledColumns(world: World, db: Db, id: Id)
    requires RowsFit(world, db.attempts) && id in db.attempts
    requires LedgerExact(world, db.attempts, db.finals, db.board, db.contributions)
    ensures db.attempts[id].revision in world.revisions && EndIsKept(world, db, id)
  {
    var row := db.attempts[id];
    assert RowFits(world, row);
    assert Settled(world, row, id, db.finals, db.board, db.contributions);
    SettledIsKept(world, db, id, DueEffects(world, row));
  }

  lemma SettledIsKept(world: World, db: Db, id: Id, due: Effects)
    requires id in db.attempts && db.attempts[id].revision in world.revisions
    requires due == DueEffects(world, db.attempts[id]) && RowFits(world, db.attempts[id])
    requires db.attempts[id].terminalAt == None <==> db.attempts[id].at.state == Active
    requires Lookup(db.finals, id) == due.final && Lookup(db.board, id) == due.board
    requires ContributionsAre(db.contributions, id, due.contributions)
    ensures EndIsKept(world, db, id)
  {
    DueColumns(world, db.attempts[id]);
    forall r: string ensures Lookup(db.contributions, (id, r)) == Lookup(due.contributions, r) {}
  }

  /** In every reachable state: the finalization and the leaderboard row of a game carry the time it took, its points
      by the table of tiers and bonuses, and its shares by the table of levels. */
  lemma EveryEndIsKept(world: World, steps: seq<Step>, id: Id)
    requires world.Valid() && id in Run(world, steps).attempts
    ensures Run(world, steps).attempts[id].revision in world.revisions && EndIsKept(world, Run(world, steps), id)
    ensures EndsInTime(Run(world, steps).attempts[id]) && Run(world, steps).attempts[id].guest in world.guests
  {
    EveryRunKeepsInv(world, steps);
    EveryFactHolds(world, steps);
    SettledColumns(world, Run(world, steps), id);
  }
}
