/** The promises of the gameplay protocol for every reachable state, that is, after any run. */
module Promises {
  import opened Basics
  import opened AttemptEngine
  import opened GameplayLedger
  import opened GameplayInvariant
  import opened GameplayHistory
  import opened GameplayTheorems
  import opened GameplayResponses
  import opened GameplayReference
  import opened GameplayAnswers
  import opened GameplayFacts
  import opened ClientProtocol
  import opened ClientSystem
  import opened ClientTheorems
  import opened ClientGuarantees
  import opened ClientForgetting
  import opened ClientReference
  import L = Leaderboard

  /* ---- the server alone ---- */

  /** After any run: a request that is answered, and comes again after any further transactions, gets the same
      outcome for the same attempt and commits nothing. */
  lemma CommandsHappenOnce(
    world: World, before: seq<Step>, request: Request, clock: Clock, freshId: Id, later: seq<Step>, again: Clock,
    freshId': Id)
    requires world.Valid() && WellFormed(request) && Authentic(world, request, again)
    requires Serve(world, Run(world, before), request, clock, freshId).1.Ok?
    ensures
      var (after, first) := Serve(world, Run(world, before), request, clock, freshId);
      var now := TakeAll(world, after, later);
      var (after', second) := Serve(world, now, request, again, freshId');
      && second.Ok? && second.replayed && second.outcome == first.outcome && second.view.attempt == first.view.attempt
      && MayExpire(world, now, after', first.view.attempt, again.sampled)
      && after'.receipts == now.receipts
  {
    EveryRunKeepsInv(world, before);
    AnsweredOnce(world, Run(world, before), request, clock, freshId, later, again, freshId');
  }

  /** After any run: once a command is refused for good, no later delivery of it commits, whatever happens in
      between. */
  lemma RefusalsLast(
    world: World, before: seq<Step>, request: Request, clock: Clock, freshId: Id, later: seq<Step>, again: Clock,
    freshId': Id)
    requires world.Valid() && request.CommandRequest?
    requires Conclusive(request, Serve(world, Run(world, before), request, clock, freshId).1)
    ensures
      var now := TakeAll(world, Serve(world, Run(world, before), request, clock, freshId).0, later);
      && !Fresh(Serve(world, now, request, again, freshId').1)
      && Serve(world, now, request, again, freshId').0.receipts == now.receipts
  {
    EveryRunKeepsInv(world, before);
    ConclusiveRefusalIsFinal(world, Run(world, before), request, clock, freshId, later, again, freshId');
  }

  /** After any run a command fails exactly when it would have committed under a steady clock, but its session
      ended meanwhile or the clock stood before the start of its attempt. */
  lemma ErrorsComeFromTheClock(
    world: World, before: seq<Step>, guest: Id, session: Id, key: string, token: Fingerprint, clock: Clock)
    requires world.Valid() && token.CommandToken?
    ensures
      var db := Run(world, before);
      var e, v, c := token.attempt, token.expectedVersion, token.command;
      Execute(world, db, guest, session, key, e, v, c, clock).1 == Result.Failed
      <==> Fresh(Execute(world, db, guest, session, key, e, v, c, Steady(db, e, clock)).1)
           && ClockIntervenes(world, db, guest, session, e, clock)
  {
    EveryRunKeepsInv(world, before);
    CommandFailsOnlyByTheClock(world, Run(world, before), guest, session, key, token, clock);
  }

  /** After any run a start with a new id fails exactly when it would have opened or found its attempt, but its
      session ended meanwhile. */
  lemma StartErrorsComeFromTheSession(
    world: World, before: seq<Step>, guest: Id, session: Id, key: string, clock: Clock, freshId: Id)
    requires world.Valid() && freshId !in Run(world, before).attempts
    ensures
      var db, steady := Run(world, before), Clock(clock.session, clock.sampled, clock.session);
      GameplayLedger.Start(world, db, guest, session, key, clock, freshId).1 == Result.Failed
      <==> Fresh(GameplayLedger.Start(world, db, guest, session, key, steady, freshId).1)
           && !world.SessionIsLive(guest, session, clock.receipt)
  {
    EveryRunKeepsInv(world, before);
    StartFailsOnlyWithItsSession(world, Run(world, before), guest, session, key, clock, freshId);
  }

  /** After any run every successful answer fits the response contract. */
  lemma AnswersConform(world: World, before: seq<Step>, request: Request, clock: Clock, freshId: Id)
    requires world.Valid() && Serve(world, Run(world, before), request, clock, freshId).1.Ok?
    ensures ResultConforms(request, Serve(world, Run(world, before), request, clock, freshId).1)
  {
    EveryRunKeepsInv(world, before);
    ResultsConform(world, Run(world, before), request, clock, freshId);
  }

  /** After any run every request is answered by the reference rules: which answer comes, what the tables are
      afterwards, and what is shown. */
  lemma EveryRequestIsAnswered(world: World, before: seq<Step>, r: Request, clock: Clock, freshId: Id)
    requires world.Valid()
    ensures
      var db := Run(world, before);
      var after, result := Serve(world, db, r, clock, freshId).0, Serve(world, db, r, clock, freshId).1;
      if r.CommandRequest? then CommandAnswered(world, db, r, clock, after, result)
      else StartAnswered(world, db, r, clock, freshId, after, result)
  {
    EveryRunKeepsInv(world, before);
    if r.CommandRequest? {
      EveryCommandIsAnswered(world, Run(world, before), r, clock, freshId);
    } else {
      EveryStartIsAnswered(world, Run(world, before), r, clock, freshId);
    }
  }

  /** A guess was taken: CORRECT, and the game solved, exactly when the text names the answer of the attempt's
      revision, otherwise WRONG; the next guess row, which was free, holds the entity that was named. */
  ghost predicate GuessTaken(world: World, db: Db, r: Request, at: Time, after: Db, result: Result) {
    && r.CommandRequest? && r.command.Guess? && result.Ok?
    && r.attempt in db.attempts && db.attempts[r.attempt].revision in world.revisions && r.attempt in after.attempts
    && var row, revision := db.attempts[r.attempt], world.revisions[db.attempts[r.attempt].revision];
    && r.command.entity in revision.lookup
    && var named := revision.lookup[r.command.entity];
    && result.outcome == OutcomeCode.Played(if named == revision.answer then Correct else Wrong)
    && (r.attempt, row.at.W + 1) !in db.guesses
    && after.guesses
       == db.guesses[(r.attempt, row.at.W + 1) := GuessRow(named, named == revision.answer, row.at.e, at)]
    && (after.attempts[r.attempt].at.state == Solved <==> named == revision.answer)
    && result.view.at == after.attempts[r.attempt].at
  }

  predicate NextIsFree(db: Db, id: Id) {
    id in db.attempts && db.attempts[id].at.state == Active ==> (id, db.attempts[id].at.W + 1) !in db.guesses
  }

  lemma SoundRowsLeaveNextFree(db: Db, id: Id)
    requires id in db.attempts ==> Sound(db, id)
    ensures NextIsFree(db, id)
  {
  }

  lemma RowsLeaveNextFree(world: World, db: Db, id: Id)
    requires RowsFit(world, db.attempts) && Journaled(db.attempts, db.receipts, db.guesses)
    ensures NextIsFree(db, id)
  {
    if id in db.attempts {
      RowsAreSound(world, db, id);
    }
    SoundRowsLeaveNextFree(db, id);
  }

  lemma FreshGuessIsTaken(world: World, db: Db, r: Request, clock: Clock, after: Db, result: Result)
    requires r.CommandRequest? && r.command.Guess? && CommandAnswered(world, db, r, clock, after, result) && Fresh(result)
    requires NextIsFree(db, r.attempt)
    ensures GuessTaken(world, db, r, clock.sampled, after, result)
  {
    FreshIsDue(world, db, r, clock, after, result);
    var row := db.attempts[r.attempt];
    DueIsMarked(world.revisions[row.revision], row, r.command, clock.sampled);
  }

  lemma ServedGuessIsTaken(world: World, db: Db, r: Request, clock: Clock, freshId: Id)
    requires Inv(world, db) && r.CommandRequest? && r.command.Guess?
    requires Fresh(Serve(world, db, r, clock, freshId).1)
    ensures
      GuessTaken(
        world, db, r, clock.sampled, Serve(world, db, r, clock, freshId).0, Serve(world, db, r, clock, freshId).1)
  {
    EveryCommandIsAnswered(world, db, r, clock, freshId);
    RowsLeaveNextFree(world, db, r.attempt);
    FreshGuessIsTaken(
      world, db, r, clock, Serve(world, db, r, clock, freshId).0, Serve(world, db, r, clock, freshId).1);
  }

  /** After any run a fresh answer to a guess is a guess taken: only the answer solves. */
  lemma OnlyTheAnswerSolves(world: World, before: seq<Step>, r: Request, clock: Clock, freshId: Id)
    requires world.Valid() && r.CommandRequest? && r.command.Guess?
    requires Fresh(Serve(world, Run(world, before), r, clock, freshId).1)
    ensures
      var db := Run(world, before);
      GuessTaken(
        world, db, r, clock.sampled, Serve(world, db, r, clock, freshId).0, Serve(world, db, r, clock, freshId).1)
  {
    EveryRunKeepsInv(world, before);
    ServedGuessIsTaken(world, Run(world, before), r, clock, freshId);
  }

  /** After any run: of two leaderboard rows with the same evidence and the same wrong guesses, one solved within half a
      minute and one in more than five, the fast one has 150 points more, unless the slow one has 0, where the floor
      cuts in. */
  lemma SpeedCounts(world: World, before: seq<Step>, fast: Id, slow: Id)
    requires world.Valid() && fast in Run(world, before).board && slow in Run(world, before).board
    requires
      var a, b := Run(world, before).board[fast], Run(world, before).board[slow];
      a.e == b.e && a.W == b.W && a.elapsed <= 30_000 && 300_000 < b.elapsed
    ensures
      var a, b := Run(world, before).board[fast], Run(world, before).board[slow];
      && (b.score > 0 ==> a.score == b.score + 150)
      && (a.score <= 150 ==> b.score == 0)
  {
    BoardHasItsAttempt(world, before, fast);
    BoardHasItsAttempt(world, before, slow);
    var db := Run(world, before);
    var a, b := db.attempts[fast], db.attempts[slow];
    SpeedIsWorth150(
      db.board[fast].score, db.board[slow].score, a.at, b.at, a.terminalAt.value - a.startedAt,
      b.terminalAt.value - b.startedAt);
  }

  /** What a leaderboard row says of its attempt. */
  lemma BoardHasItsAttempt(world: World, before: seq<Step>, id: Id)
    requires world.Valid() && id in Run(world, before).board
    ensures id in Run(world, before).attempts
    ensures
      var row, b := Run(world, before).attempts[id], Run(world, before).board[id];
      && row.at.state == Solved && 0 <= row.at.e <= 4 && row.terminalAt.Some?
      && b.e == row.at.e && b.W == row.at.W && b.elapsed == row.terminalAt.value - row.startedAt
      && ScoreIs(b.score, row.at, b.elapsed)
  {
    EveryRunKeepsInv(world, before);
    var db := Run(world, before);
    L.BoardRowIsDue(world, db.attempts, id, db.finals, db.board, db.contributions);
    EveryEndIsKept(world, before, id);
  }

  /** After any run a read of an attempt, and of the current case, shows what the tables hold after it. */
  lemma EveryReadIsAnswered(world: World, before: seq<Step>, guest: Id, id: Id, first: Time, now: Time)
    requires world.Valid()
    ensures
      var db := Run(world, before);
      && OwnedReadAnswered(
           world, db, guest, id, now, ReadOwned(world, db, guest, id, now).0, ReadOwned(world, db, guest, id, now).1)
      && CaseReadAnswered(
           world, db, guest, first, now, ReadCurrent(world, db, guest, first, now).0,
           ReadCurrent(world, db, guest, first, now).1)
  {
    EveryRunKeepsInv(world, before);
    EveryOwnedReadIsAnswered(world, Run(world, before), guest, id, now);
    EveryCaseReadIsAnswered(world, Run(world, before), guest, first, now);
  }

  /** After any run, for any guest and any reading of the clock: the case is shown exactly when the guest has an
      attempt in the slot published at `first`; there is no case exactly when none is published. */
  lemma CaseIsShownIffStarted(world: World, before: seq<Step>, guest: Id, first: Time, now: Time)
    requires world.Valid()
    ensures
      var db, slot := Run(world, before), first / 86_400_000;
      var shown := ReadCurrent(world, db, guest, first, now).1;
      && shown.Some?
      && (shown.value.NoCase? <==> slot !in world.bySlot)
      && (shown.value.Shown? <==> slot in world.bySlot && exists id :: HasAttempt(db, guest, slot, id))
      && (shown.value.NotStarted? ==> shown.value == NotStarted(slot, slot * 86_400_000 + 86_400_000))
  {
    EveryRunKeepsInv(world, before);
    var db, slot := Run(world, before), first / 86_400_000;
    EveryCaseReadIsAnswered(world, db, guest, first, now);
    if id :| HasAttempt(db, guest, slot, id) {
      EveryEndIsKept(world, before, id);
    }
  }

  /** The board of a slot only grows from one moment of a run to any later one. */
  lemma BoardsGrow(world: World, before: seq<Step>, later: seq<Step>, slot: int)
    requires world.Valid()
    ensures L.SlotTable(Run(world, before).board, slot) <= L.SlotTable(TakeAll(world, Run(world, before), later).board, slot)
  {
    EveryRunKeepsInv(world, before);
    L.LaterBoardsGrow(world, Run(world, before), later, slot);
  }

  /* ---- browser, network and server ---- */

  lemma Reached(world: World, guest: Id, session: Id, events: seq<Event>)
    requires world.Valid()
    ensures Holds(world, After(world, Begin(guest, session), events))
  {
    BeginHolds(world, guest, session);
    EveryRunHolds(world, Begin(guest, session), events);
  }

  /** After any run, whatever comes next: a request leaves the page only as the record in storage says, and a
      new key is made only while nothing is pending. */
  lemma PageSendsWhatItStores(world: World, guest: Id, session: Id, events: seq<Event>, next: Event)
    requires world.Valid() && Possible(After(world, Begin(guest, session), events), next)
    ensures
      var s := After(world, Begin(guest, session), events);
      var s' := Happen(world, s, next);
      && (s'.sent != s.sent ==>
            s'.client.store.Some? && s'.sent == s.sent + [RequestOf(s'.client.store.value, s.guest, s.session)])
      && (s'.issued != s.issued ==> Free(s.client))
  {
    var s := After(world, Begin(guest, session), events);
    Reached(world, guest, session, events);
    EverySendIsStored(world, s, next);
    if Happen(world, s, next).issued != s.issued {
      NewKeyOnlyWhenFree(world, s, next);
    }
  }

  /** After any run whatever the page does is what the reference says: column by column, with the request that goes out
      and the key that is issued. */
  lemma PageActsAsTold(world: World, guest: Id, session: Id, events: seq<Event>, action: Action)
    requires world.Valid() && MayAct(After(world, Begin(guest, session), events), action)
    ensures
      var s := After(world, Begin(guest, session), events);
      ActsAsReference(s, action, Happen(world, s, Acted(action)))
  {
    Reached(world, guest, session, events);
    ActIsReference(After(world, Begin(guest, session), events), action);
  }

  /** After any run: when the page drops the record of a command knowingly, no request of its key takes effect
      for any guest from then on. */
  lemma PageForgetsSafely(
    world: World, guest: Id, session: Id, events: seq<Event>, action: Action, more: seq<Event>, other: Id)
    requires world.Valid()
    requires var s := After(world, Begin(guest, session), events);
      MayAct(s, action) && HoldsCommand(s) && Knowingly(action) && Next(s.client, action, |s.sent|).store.None?
    ensures var s := After(world, Begin(guest, session), events);
      Commits(world, Happen(world, s, Acted(action)), more, other, s.client.store.value.key) == 0
  {
    Reached(world, guest, session, events);
    ForgettingIsSafe(world, After(world, Begin(guest, session), events), action, more, other);
  }

  /** After any run: forgetting a command is safe from `t` on exactly when the command is over or nothing of it can
      arrive in time any more. */
  lemma PageForgetsExactly(world: World, guest: Id, session: Id, events: seq<Event>, action: Action, t: Time)
    requires world.Valid() && Drops(After(world, Begin(guest, session), events), action)
    ensures var s := After(world, Begin(guest, session), events);
      SafeFrom(world, Happen(world, s, Acted(action)), s.client.store.value.key, t)
      <==> Over(world, s.db, s.client.store.value.op) || NoneArrives(world, s, s.client.store.value.key, t)
  {
    Reached(world, guest, session, events);
    DroppingIsSafeExactly(world, After(world, Begin(guest, session), events), action, t);
  }

  /** After any run: a command under way that arrives in time takes effect exactly when its operation is not
      over. */
  lemma CommandsUnderWayCommit(
    world: World, guest: Id, session: Id, events: seq<Event>, n: nat, clock: Clock, freshId: Id)
    requires world.Valid()
    requires var s := After(world, Begin(guest, session), events);
      n < |s.sent| && s.sent[n].CommandRequest? && InTime(world, s.db, s.sent[n], clock)
    ensures var s := After(world, Begin(guest, session), events);
      && s.sent[n].key in s.issued && s.issued[s.sent[n].key].CommandOperation?
      && (CommitsNow(world, s, Delivered(n, clock, freshId), s.sent[n].guest, s.sent[n].key)
          <==> s.sent[n].key !in s.barred && !Over(world, s.db, s.issued[s.sent[n].key]))
  {
    Reached(world, guest, session, events);
    UnderWayCommitsUnlessOver(world, After(world, Begin(guest, session), events), n, clock, freshId);
  }

  /** After any run no answer to this page is a key conflict, and no view it shows is ahead of the tables. */
  lemma PageNeverConflicts(world: World, guest: Id, session: Id, events: seq<Event>, n: nat, result: Result)
    requires world.Valid() && (n, result) in After(world, Begin(guest, session), events).answers
    ensures !(result.Refused? && result.code == Refusal.IdempotencyConflict)
    ensures var s := After(world, Begin(guest, session), events);
      s.client.displayed.Some? ==>
        && s.client.displayed.value.attempt in s.db.attempts
        && s.client.displayed.value.version <= s.db.attempts[s.client.displayed.value.attempt].version
  {
    Reached(world, guest, session, events);
    var s, a := After(world, Begin(guest, session), events), (n, result);
    assert AnswerHolds(world, s.db, s.sent[a.0], a.1);
  }
}
