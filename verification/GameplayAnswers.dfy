/** Every answer of the gameplay transactions against the reference: which answer comes when, what it shows, and what
    the tables are afterwards. */
module GameplayAnswers {
  import opened Basics
  import opened AttemptEngine
  import opened GameplayLedger
  import opened GameplayInvariant
  import opened GameplayHistory
  import opened GameplayTheorems
  import opened GameplayPlay
  import opened GameplayReference

  /* ---- commands, in the columns ---- */

  predicate KeyIs(key: string) {
    1 <= |key| <= 128 && forall i | 0 <= i < |key| :: 32 <= key[i] as int <= 126
  }

  predicate Live(world: World, guest: Id, session: Id, now: Time) {
    session in world.sessions && world.sessions[session].guest == guest && now < world.sessions[session].expiresAt
  }

  function AfterWrongGuess(s: Snapshot): Snapshot {
    if s.w < 2 then Snapshot(Active, s.e, s.w + 1, s.W + 1)
    else if s.e < 4 then Snapshot(Active, s.e + 1, 0, s.W + 1)
    else Snapshot(Exhausted, 4, 2, 15)
  }

  /** What an accepted command is due: the next state, the code, the kind, and the guess row. */
  datatype Due = Due(next: Snapshot, code: Code, kind: Kind, guess: Option<GuessRow>)

  /** The rules of the three commands on a running game; None for an entity that is not eligible and for a fifth
      reveal. */
  function DueOf(revision: Revision, row: Attempt, command: Command, at: Time): Option<Due> {
    match command
    case Guess(text) =>
      if text !in revision.lookup then None
      else if revision.lookup[text] == revision.answer then
        Some(Due(Snapshot(Solved, row.at.e, row.at.w, row.at.W), Correct, GuessKind,
                 Some(GuessRow(revision.lookup[text], true, row.at.e, at))))
      else
        Some(Due(AfterWrongGuess(row.at), Wrong, GuessKind, Some(GuessRow(revision.lookup[text], false, row.at.e, at))))
    case Reveal =>
      if row.at.e >= 4 then None else Some(Due(Snapshot(Active, row.at.e + 1, 0, row.at.W), Revealed, RevealKind, None))
    case _ => Some(Due(Snapshot(GivenUp, row.at.e, row.at.w, row.at.W), GaveUp, GiveUpKind, None))
  }

  /** Everything that an accepted command writes. */
  ghost predicate CommandWritten(world: World, db: Db, after: Db, r: Request, at: Time, due: Due)
    requires r.CommandRequest? && r.attempt in db.attempts && db.attempts[r.attempt].revision in world.revisions
  {
    var row := db.attempts[r.attempt];
    && MovedOnTo(world, db, after, r.attempt, due.next, at)
    && after.receipts == db.receipts[
         (r.guest, r.key) := Receipt(r.session, CommandToken(r.attempt, r.expectedVersion, r.command), due.kind,
                                     OutcomeCode.Played(due.code), r.attempt, row.version + 1)]
    && after.guesses == (if due.guess.None? then db.guesses else db.guesses[(r.attempt, row.at.W + 1) := due.guess.value])
    && after.days == (if due.guess.None? || (r.guest, at / 86_400_000) in db.days then db.days
                      else db.days[(r.guest, at / 86_400_000) := at])
  }

  ghost predicate Refuses(world: World, after: Db, id: Id, result: Result, code: Refusal) {
    result.Refused? && result.code == code && result.shown.Some? && Told(world, after, id, result.shown.value)
  }

  /** A command on a running game at the expected version. */
  ghost predicate CommandPlayed(world: World, db: Db, r: Request, clock: Clock, after: Db, result: Result)
    requires r.CommandRequest? && r.attempt in db.attempts && db.attempts[r.attempt].revision in world.revisions
  {
    var row := db.attempts[r.attempt];
    match DueOf(world.revisions[row.revision], row, r.command, clock.sampled)
    case None =>
      after == db && if r.command.Reveal? then Refuses(world, after, r.attempt, result, EvidenceLimitReached)
                     else result == Refused(UnknownEntity, None)
    case Some(due) =>
      if clock.sampled < row.startedAt || !Live(world, r.guest, r.session, clock.receipt) then
        after == db && result == Failed
      else
        && CommandWritten(world, db, after, r, clock.sampled, due)
        && result.Ok? && !result.replayed && result.outcome == OutcomeCode.Played(due.code)
        && Told(world, after, r.attempt, result.view)
  }

  /** A new command on the guest's own attempt. */
  ghost predicate CommandJudged(world: World, db: Db, r: Request, clock: Clock, after: Db, result: Result)
    requires r.CommandRequest? && r.attempt in db.attempts && db.attempts[r.attempt].revision in world.revisions
  {
    var row := db.attempts[r.attempt];
    if row.at.state != Active || row.slot * 86_400_000 + 86_400_000 <= clock.sampled then
      Expires(world, db, after, r.attempt, clock.sampled) && Refuses(world, after, r.attempt, result, AttemptIsOver)
    else if row.version != r.expectedVersion then
      after == db && Refuses(world, after, r.attempt, result, StaleVersion)
    else CommandPlayed(world, db, r, clock, after, result)
  }

  /** The answer to a command, case by case in the order of the checks. */
  ghost predicate CommandAnswered(world: World, db: Db, r: Request, clock: Clock, after: Db, result: Result)
    requires r.CommandRequest?
  {
    if !KeyIs(r.key) || !(0 <= r.expectedVersion <= 9_007_199_254_740_991) then
      after == db && result == Refused(InvalidCommand, None)
    else if r.guest !in world.guests || !Live(world, r.guest, r.session, clock.session) then
      after == db && result == Refused(SessionExpired, None)
    else if r.command == Malformed then after == db && result == Refused(InvalidCommand, None)
    else if (r.guest, r.key) in db.receipts then
      var prior := db.receipts[(r.guest, r.key)];
      if prior.token != CommandToken(r.attempt, r.expectedVersion, r.command) then
        after == db && result == Refused(IdempotencyConflict, None)
      else
        && r.attempt in db.attempts && db.attempts[r.attempt].revision in world.revisions
        && Expires(world, db, after, r.attempt, clock.sampled)
        && result.Ok? && result.replayed && result.outcome == prior.outcome && Told(world, after, r.attempt, result.view)
    else if r.attempt !in db.attempts || db.attempts[r.attempt].guest != r.guest then
      after == db && result == Refused(UnknownAttempt, None)
    else
      && db.attempts[r.attempt].revision in world.revisions
      && CommandJudged(world, db, r, clock, after, result)
  }

  /* ---- the decision under the lock ---- */

  function Entity(due: Due): Option<Id> { if due.guess.None? then None else Some(due.guess.value.entity) }

  /** What is decided, from the rules alone. */
  lemma DecisionIsDue(world: World, db: Db, guest: Id, session: Id, token: Fingerprint, clock: Clock)
    requires token.CommandToken? && token.command != Malformed && Owned(world, db, token.attempt, guest)
    requires Sound(db, token.attempt)
    requires db.attempts[token.attempt].at.state == Active && db.attempts[token.attempt].version == token.expectedVersion
    ensures
      var row := db.attempts[token.attempt];
      var d := Decide(world, db, guest, session, token, clock);
      match DueOf(world.revisions[row.revision], row, token.command, clock.sampled)
      case None =>
        if token.command.Reveal? then d == Refuse(EvidenceLimitReached, Some(Project(world, db, token.attempt)))
        else d == Refuse(UnknownEntity, None)
      case Some(due) =>
        if clock.sampled < row.startedAt || !Live(world, guest, session, clock.receipt) then d == Throw
        else d == Write(due.next, due.code, Entity(due))
  {
  }

  lemma OverOrStale(world: World, db: Db, guest: Id, session: Id, token: Fingerprint, clock: Clock)
    requires token.CommandToken? && Owned(world, db, token.attempt, guest)
    ensures
      var row, d := db.attempts[token.attempt], Decide(world, db, guest, session, token, clock);
      var shown := Some(Project(world, db, token.attempt));
      && (row.at.state != Active ==> d == Refuse(AttemptIsOver, shown))
      && (row.at.state == Active && row.version != token.expectedVersion ==> d == Refuse(StaleVersion, shown))
  {
  }

  /* ---- what is written ---- */

  lemma SameTablesMovedOn(world: World, db: Db, advanced: Db, after: Db, id: Id, next: Snapshot, at: Time)
    requires id in db.attempts && db.attempts[id].revision in world.revisions && MovedOnTo(world, db, advanced, id, next, at)
    requires after.attempts == advanced.attempts && after.slots == advanced.slots && after.finals == advanced.finals
    requires after.board == advanced.board && after.contributions == advanced.contributions
    requires after.knowledge == advanced.knowledge
    ensures MovedOnTo(world, db, after, id, next, at)
  {
  }

  lemma DueMoves(row: Attempt, revision: Revision, command: Command, at: Time)
    requires ValidSnapshot(row.at) && row.at.state == Active && DueOf(revision, row, command, at).Some?
    ensures ValidSnapshot(DueOf(revision, row, command, at).value.next)
  {
  }

  /** The guess row and the receipt of a due command. */
  lemma DueRows(row: Attempt, revision: Revision, command: Command, at: Time)
    requires command != Malformed && DueOf(revision, row, command, at).Some?
    ensures var due := DueOf(revision, row, command, at).value;
      due.kind == KindOf(command) && due.guess == GuessOf(Entity(due), row, due.next, at)
  {
  }

  lemma CommitMovesOn(
    world: World, db: Db, guest: Id, session: Id, key: string, token: Fingerprint, next: Snapshot, code: Code,
    entity: Option<Id>, at: Time)
    requires RowsFit(world, db.attempts) && LedgerExact(world, db.attempts, db.finals, db.board, db.contributions)
    requires token.CommandToken? && Owned(world, db, token.attempt, guest) && ValidSnapshot(next)
    requires db.attempts[token.attempt].at.state == Active && db.attempts[token.attempt].startedAt <= at
    ensures
      MovedOnTo(world, db, Commit(world, db, guest, session, key, token, next, code, entity, at), token.attempt, next, at)
  {
    AdvanceMovesOn(world, db, token.attempt, next, at);
    CommitTables(world, db, guest, session, key, token, next, code, entity, at);
    SameTablesMovedOn(
      world, db, Advance(world, db, token.attempt, next, at),
      Commit(world, db, guest, session, key, token, next, code, entity, at), token.attempt, next, at);
  }

  /** What a commit leaves in all tables. */
  ghost predicate CommitLeft(
    world: World, db: Db, after: Db, guest: Id, key: string, id: Id, r: Receipt, guess: Option<GuessRow>, next: Snapshot,
    at: Time)
    requires id in db.attempts && db.attempts[id].revision in world.revisions
  {
    && MovedOnTo(world, db, after, id, next, at)
    && Recorded(db, after, id, next, at, (guest, key), r, guess)
    && after.days == WithDay(db.days, guest, at, guess.Some?)
  }

  lemma CommitLeaves(
    world: World, db: Db, guest: Id, session: Id, key: string, token: Fingerprint, next: Snapshot, code: Code,
    entity: Option<Id>, at: Time)
    requires token.CommandToken? && Owned(world, db, token.attempt, guest)
    requires
      MovedOnTo(world, db, Commit(world, db, guest, session, key, token, next, code, entity, at), token.attempt, next, at)
    ensures
      var row := db.attempts[token.attempt];
      CommitLeft(
        world, db, Commit(world, db, guest, session, key, token, next, code, entity, at), guest, key, token.attempt,
        CommandReceipt(session, token, code, row.version + 1), GuessOf(entity, row, next, at), next, at)
  {
    CommitRecords(world, db, guest, session, key, token, next, code, entity, at);
    CommitDays(world, db, guest, session, key, token, next, code, entity, at);
  }

  lemma CommitIsWritten(world: World, db: Db, after: Db, r: Request, at: Time, due: Due)
    requires r.CommandRequest? && r.attempt in db.attempts && db.attempts[r.attempt].revision in world.revisions
    requires due.kind == KindOf(r.command)
    requires
      var row := db.attempts[r.attempt];
      CommitLeft(
        world, db, after, r.guest, r.key, r.attempt, CommandReceipt(r.session, TokenOf(r), due.code, row.version + 1),
        due.guess, due.next, at)
    ensures CommandWritten(world, db, after, r, at, due)
  {
  }

  lemma CommitWrites(world: World, db: Db, after: Db, r: Request, at: Time, due: Due)
    requires r.CommandRequest? && r.command != Malformed && Owned(world, db, r.attempt, r.guest)
    requires DueOf(world.revisions[db.attempts[r.attempt].revision], db.attempts[r.attempt], r.command, at) == Some(due)
    requires
      var row := db.attempts[r.attempt];
      CommitLeft(
        world, db, after, r.guest, r.key, r.attempt, CommandReceipt(r.session, TokenOf(r), due.code, row.version + 1),
        GuessOf(Entity(due), row, due.next, at), due.next, at)
    ensures CommandWritten(world, db, after, r, at, due)
  {
    DueRows(db.attempts[r.attempt], world.revisions[db.attempts[r.attempt].revision], r.command, at);
    CommitIsWritten(world, db, after, r, at, due);
  }

  /* ---- the whole command ---- */

  /** The tables after a due command. */
  function Committed(world: World, db: Db, r: Request, at: Time, due: Due): Db
    requires r.CommandRequest? && Owned(world, db, r.attempt, r.guest)
  {
    Commit(world, db, r.guest, r.session, r.key, TokenOf(r), due.next, due.code, Entity(due), at)
  }

  lemma DueCommits(world: World, db: Db, r: Request, clock: Clock, freshId: Id, due: Due)
    requires r.CommandRequest? && Reaches(world, db, r.guest, r.session, r.key, TokenOf(r), clock) && Sound(db, r.attempt)
    requires db.attempts[r.attempt].at.state == Active && db.attempts[r.attempt].version == r.expectedVersion
    requires ExpireIfClosed(world, db, r.attempt, clock.sampled) == db
    requires db.attempts[r.attempt].startedAt <= clock.sampled && Live(world, r.guest, r.session, clock.receipt)
    requires
      DueOf(world.revisions[db.attempts[r.attempt].revision], db.attempts[r.attempt], r.command, clock.sampled) == Some(due)
    ensures Owned(world, Committed(world, db, r, clock.sampled, due), r.attempt, r.guest)
    ensures
      var after := Committed(world, db, r, clock.sampled, due);
      Serve(world, db, r, clock, freshId) == (after, Ok(OutcomeCode.Played(due.code), false, Project(world, after, r.attempt)))
  {
    ExecuteCases(world, db, r.guest, r.session, r.key, TokenOf(r), clock);
    DecisionIsDue(world, db, r.guest, r.session, TokenOf(r), clock);
  }

  lemma CommitIsDue(world: World, db: Db, r: Request, at: Time, due: Due)
    requires RowsFit(world, db.attempts) && LedgerExact(world, db.attempts, db.finals, db.board, db.contributions)
    requires r.CommandRequest? && r.command != Malformed && Owned(world, db, r.attempt, r.guest)
    requires db.attempts[r.attempt].at.state == Active && db.attempts[r.attempt].startedAt <= at
    requires DueOf(world.revisions[db.attempts[r.attempt].revision], db.attempts[r.attempt], r.command, at) == Some(due)
    ensures CommandWritten(world, db, Committed(world, db, r, at, due), r, at, due)
  {
    assert RowFits(world, db.attempts[r.attempt]);
    DueMoves(db.attempts[r.attempt], world.revisions[db.attempts[r.attempt].revision], r.command, at);
    CommitMovesOn(world, db, r.guest, r.session, r.key, TokenOf(r), due.next, due.code, Entity(due), at);
    CommitIsWrittenOut(world, db, r, at, due);
  }

  lemma CommittedIsLeft(world: World, db: Db, r: Request, at: Time, due: Due)
    requires r.CommandRequest? && r.command != Malformed && Owned(world, db, r.attempt, r.guest)
    requires MovedOnTo(world, db, Committed(world, db, r, at, due), r.attempt, due.next, at)
    ensures
      var row := db.attempts[r.attempt];
      CommitLeft(
        world, db, Committed(world, db, r, at, due), r.guest, r.key, r.attempt,
        CommandReceipt(r.session, TokenOf(r), due.code, row.version + 1), GuessOf(Entity(due), row, due.next, at), due.next, at)
  {
    CommitLeaves(world, db, r.guest, r.session, r.key, TokenOf(r), due.next, due.code, Entity(due), at);
  }

  lemma CommitIsWrittenOut(world: World, db: Db, r: Request, at: Time, due: Due)
    requires r.CommandRequest? && r.command != Malformed && Owned(world, db, r.attempt, r.guest)
    requires DueOf(world.revisions[db.attempts[r.attempt].revision], db.attempts[r.attempt], r.command, at) == Some(due)
    requires MovedOnTo(world, db, Committed(world, db, r, at, due), r.attempt, due.next, at)
    ensures CommandWritten(world, db, Committed(world, db, r, at, due), r, at, due)
  {
    CommittedIsLeft(world, db, r, at, due);
    CommitWrites(world, db, Committed(world, db, r, at, due), r, at, due);
  }

  lemma WrittenIsPlayed(world: World, db: Db, r: Request, clock: Clock, after: Db, result: Result, due: Due)
    requires r.CommandRequest? && r.attempt in db.attempts && db.attempts[r.attempt].revision in world.revisions
    requires
      DueOf(world.revisions[db.attempts[r.attempt].revision], db.attempts[r.attempt], r.command, clock.sampled) == Some(due)
    requires db.attempts[r.attempt].startedAt <= clock.sampled && Live(world, r.guest, r.session, clock.receipt)
    requires CommandWritten(world, db, after, r, clock.sampled, due) && result.Ok? && !result.replayed
    requires result.outcome == OutcomeCode.Played(due.code) && Told(world, after, r.attempt, result.view)
    ensures CommandPlayed(world, db, r, clock, after, result)
  {
  }

  lemma DueIsPlayed(world: World, db: Db, r: Request, clock: Clock, freshId: Id, due: Due)
    requires Inv(world, db) && r.CommandRequest?
    requires Reaches(world, db, r.guest, r.session, r.key, TokenOf(r), clock)
    requires db.attempts[r.attempt].at.state == Active && db.attempts[r.attempt].version == r.expectedVersion
    requires ExpireIfClosed(world, db, r.attempt, clock.sampled) == db
    requires db.attempts[r.attempt].startedAt <= clock.sampled && Live(world, r.guest, r.session, clock.receipt)
    requires
      DueOf(world.revisions[db.attempts[r.attempt].revision], db.attempts[r.attempt], r.command, clock.sampled) == Some(due)
    ensures CommandPlayed(world, db, r, clock, Serve(world, db, r, clock, freshId).0, Serve(world, db, r, clock, freshId).1)
  {
    RowsAreSound(world, db, r.attempt);
    DueCommits(world, db, r, clock, freshId, due);
    CommitIsDue(world, db, r, clock.sampled, due);
    ServeKeepsInv(world, db, r, clock, freshId);
    ProjectionTells(world, Serve(world, db, r, clock, freshId).0, r.attempt);
    WrittenIsPlayed(
      world, db, r, clock, Serve(world, db, r, clock, freshId).0, Serve(world, db, r, clock, freshId).1, due);
  }

  /** Nothing is due, or the clock is in the way. */
  lemma NothingIsPlayed(world: World, db: Db, r: Request, clock: Clock, freshId: Id)
    requires RowsFit(world, db.attempts) && Journaled(db.attempts, db.receipts, db.guesses) && r.CommandRequest?
    requires Reaches(world, db, r.guest, r.session, r.key, TokenOf(r), clock)
    requires db.attempts[r.attempt].at.state == Active && db.attempts[r.attempt].version == r.expectedVersion
    requires ExpireIfClosed(world, db, r.attempt, clock.sampled) == db
    requires
      var row := db.attempts[r.attempt];
      || clock.sampled < row.startedAt || !Live(world, r.guest, r.session, clock.receipt)
      || DueOf(world.revisions[row.revision], row, r.command, clock.sampled).None?
    ensures CommandPlayed(world, db, r, clock, Serve(world, db, r, clock, freshId).0, Serve(world, db, r, clock, freshId).1)
  {
    ExecuteCases(world, db, r.guest, r.session, r.key, TokenOf(r), clock);
    RowsAreSound(world, db, r.attempt);
    DecisionIsDue(world, db, r.guest, r.session, TokenOf(r), clock);
    ProjectionTells(world, db, r.attempt);
  }

  lemma CommandIsPlayed(world: World, db: Db, r: Request, clock: Clock, freshId: Id)
    requires Inv(world, db) && r.CommandRequest?
    requires Reaches(world, db, r.guest, r.session, r.key, TokenOf(r), clock)
    requires db.attempts[r.attempt].at.state == Active && db.attempts[r.attempt].version == r.expectedVersion
    requires ExpireIfClosed(world, db, r.attempt, clock.sampled) == db
    ensures CommandPlayed(world, db, r, clock, Serve(world, db, r, clock, freshId).0, Serve(world, db, r, clock, freshId).1)
  {
    var row := db.attempts[r.attempt];
    var due := DueOf(world.revisions[row.revision], row, r.command, clock.sampled);
    if due.Some? && row.startedAt <= clock.sampled && Live(world, r.guest, r.session, clock.receipt) {
      DueIsPlayed(world, db, r, clock, freshId, due.value);
    } else {
      NothingIsPlayed(world, db, r, clock, freshId);
    }
  }

  /** A refusal after lazy expiry. */
  lemma RefusalIsJudged(
    world: World, db: Db, r: Request, clock: Clock, after: Db, result: Result, view: View, code: Refusal)
    requires r.CommandRequest? && r.attempt in db.attempts && db.attempts[r.attempt].revision in world.revisions
    requires Expires(world, db, after, r.attempt, clock.sampled) && Told(world, after, r.attempt, view)
    requires result == Refused(code, Some(view))
    requires
      var row := db.attempts[r.attempt];
      if row.at.state != Active || row.slot * 86_400_000 + 86_400_000 <= clock.sampled then code == AttemptIsOver
      else row.version != r.expectedVersion && code == StaleVersion
    ensures CommandJudged(world, db, r, clock, after, result)
  {
  }

  /** Lazy expiry, and what is shown of the attempt behind it. */
  lemma ExpiryTells(world: World, db: Db, id: Id, now: Time)
    requires Inv(world, db) && id in db.attempts
    ensures db.attempts[id].revision in world.revisions
    ensures var row, current := db.attempts[id], ExpireIfClosed(world, db, id, now);
      && Expires(world, db, current, id, now)
      && id in current.attempts && current.attempts[id].revision in world.revisions
      && Told(world, current, id, Project(world, current, id))
      && current.attempts[id].guest == row.guest
      && (row.at.state != Active || row.slot * 86_400_000 + 86_400_000 <= now <==> current.attempts[id].at.state != Active)
      && (current.attempts[id].at.state == Active ==> current == db)
  {
    ExpiryIsReference(world, db, id, now);
    ExpireKeepsInv(world, db, id, now);
    ProjectionTells(world, ExpireIfClosed(world, db, id, now), id);
  }

  lemma RefusedUnderLock(world: World, db: Db, r: Request, clock: Clock, freshId: Id)
    requires r.CommandRequest? && Reaches(world, db, r.guest, r.session, r.key, TokenOf(r), clock)
    requires
      var current := ExpireIfClosed(world, db, r.attempt, clock.sampled);
      !(current.attempts[r.attempt].at.state == Active && current.attempts[r.attempt].version == r.expectedVersion)
    ensures
      var current := ExpireIfClosed(world, db, r.attempt, clock.sampled);
      var code := if current.attempts[r.attempt].at.state != Active then AttemptIsOver else StaleVersion;
      Serve(world, db, r, clock, freshId) == (current, Refused(code, Some(Project(world, current, r.attempt))))
  {
    ExecuteCases(world, db, r.guest, r.session, r.key, TokenOf(r), clock);
    OverOrStale(world, ExpireIfClosed(world, db, r.attempt, clock.sampled), r.guest, r.session, TokenOf(r), clock);
  }

  /** Under the lock a game that is over or has moved on is refused. */
  lemma CommandIsRefused(world: World, db: Db, r: Request, clock: Clock, freshId: Id)
    requires Inv(world, db) && r.CommandRequest?
    requires Reaches(world, db, r.guest, r.session, r.key, TokenOf(r), clock)
    requires
      var row := db.attempts[r.attempt];
      !(row.at.state == Active && clock.sampled < row.slot * 86_400_000 + 86_400_000 && row.version == r.expectedVersion)
    ensures CommandJudged(world, db, r, clock, Serve(world, db, r, clock, freshId).0, Serve(world, db, r, clock, freshId).1)
  {
    ExpiryTells(world, db, r.attempt, clock.sampled);
    RefusedUnderLock(world, db, r, clock, freshId);
    var current := ExpireIfClosed(world, db, r.attempt, clock.sampled);
    RefusalIsJudged(
      world, db, r, clock, current, Serve(world, db, r, clock, freshId).1, Project(world, current, r.attempt),
      if current.attempts[r.attempt].at.state != Active then AttemptIsOver else StaleVersion);
  }

  lemma CommandIsJudged(world: World, db: Db, r: Request, clock: Clock, freshId: Id)
    requires Inv(world, db) && r.CommandRequest?
    requires Reaches(world, db, r.guest, r.session, r.key, TokenOf(r), clock)
    ensures CommandJudged(world, db, r, clock, Serve(world, db, r, clock, freshId).0, Serve(world, db, r, clock, freshId).1)
  {
    var row := db.attempts[r.attempt];
    if row.at.state == Active && clock.sampled < row.slot * 86_400_000 + 86_400_000 && row.version == r.expectedVersion {
      assert RowFits(world, row);
      ExpiryActs(world, db, r.attempt, clock.sampled);
      CommandIsPlayed(world, db, r, clock, freshId);
    } else {
      CommandIsRefused(world, db, r, clock, freshId);
    }
  }

  lemma ReplayIsAnswered(world: World, db: Db, r: Request, clock: Clock, after: Db, result: Result)
    requires r.CommandRequest? && WellFormed(r) && r.command != Malformed && Authentic(world, r, clock)
    requires (r.guest, r.key) in db.receipts && db.receipts[(r.guest, r.key)].token == TokenOf(r)
    requires r.attempt in db.attempts && db.attempts[r.attempt].revision in world.revisions
    requires Expires(world, db, after, r.attempt, clock.sampled) && result.Ok? && result.replayed
    requires result.outcome == db.receipts[(r.guest, r.key)].outcome && Told(world, after, r.attempt, result.view)
    ensures CommandAnswered(world, db, r, clock, after, result)
  {
  }

  lemma CommandIsReplayed(world: World, db: Db, r: Request, clock: Clock, freshId: Id)
    requires Inv(world, db) && r.CommandRequest? && WellFormed(r) && r.command != Malformed && Authentic(world, r, clock)
    requires (r.guest, r.key) in db.receipts && db.receipts[(r.guest, r.key)].token == TokenOf(r)
    ensures CommandAnswered(world, db, r, clock, Serve(world, db, r, clock, freshId).0, Serve(world, db, r, clock, freshId).1)
  {
    var prior := db.receipts[(r.guest, r.key)];
    assert ReceiptFits(db.attempts, r.guest, prior);
    ReceiptAnswers(world, db, r, clock, freshId, r.attempt, prior.outcome);
    ExpiryTells(world, db, r.attempt, clock.sampled);
    ReplayIsAnswered(world, db, r, clock, Serve(world, db, r, clock, freshId).0, Serve(world, db, r, clock, freshId).1);
  }

  lemma JudgementIsAnswered(world: World, db: Db, r: Request, clock: Clock, after: Db, result: Result)
    requires r.CommandRequest? && Reaches(world, db, r.guest, r.session, r.key, TokenOf(r), clock)
    requires CommandJudged(world, db, r, clock, after, result)
    ensures CommandAnswered(world, db, r, clock, after, result)
  {
  }

  /** The refusals before the lock. */
  lemma CommandIsTurnedAway(world: World, db: Db, r: Request, clock: Clock, freshId: Id)
    requires RowsFit(world, db.attempts) && ReceiptsFit(db.attempts, db.receipts)
    requires r.CommandRequest? && !Reaches(world, db, r.guest, r.session, r.key, TokenOf(r), clock)
    requires !(&& WellFormed(r) && r.command != Malformed && Authentic(world, r, clock)
               && (r.guest, r.key) in db.receipts && db.receipts[(r.guest, r.key)].token == TokenOf(r))
    ensures CommandAnswered(world, db, r, clock, Serve(world, db, r, clock, freshId).0, Serve(world, db, r, clock, freshId).1)
  {
    if r.attempt in db.attempts {
      assert RowFits(world, db.attempts[r.attempt]);
    }
    if (r.guest, r.key) in db.receipts {
      assert ReceiptFits(db.attempts, r.guest, db.receipts[(r.guest, r.key)]);
    }
  }

  /** Every command is answered as the reference says. */
  lemma EveryCommandIsAnswered(world: World, db: Db, r: Request, clock: Clock, freshId: Id)
    requires Inv(world, db) && r.CommandRequest?
    ensures CommandAnswered(world, db, r, clock, Serve(world, db, r, clock, freshId).0, Serve(world, db, r, clock, freshId).1)
  {
    if Reaches(world, db, r.guest, r.session, r.key, TokenOf(r), clock) {
      CommandIsJudged(world, db, r, clock, freshId);
      JudgementIsAnswered(world, db, r, clock, Serve(world, db, r, clock, freshId).0, Serve(world, db, r, clock, freshId).1);
    } else if WellFormed(r) && r.command != Malformed && Authentic(world, r, clock)
              && (r.guest, r.key) in db.receipts && db.receipts[(r.guest, r.key)].token == TokenOf(r) {
      CommandIsReplayed(world, db, r, clock, freshId);
    } else {
      CommandIsTurnedAway(world, db, r, clock, freshId);
    }
  }

  /* ---- starts ---- */

  /** The attempt of a guest in a slot, if there is one. */
  ghost predicate HasAttempt(db: Db, guest: Id, slot: int, id: Id) {
    id in db.attempts && db.attempts[id].guest == guest && db.attempts[id].slot == slot
  }

  /** What a new start leaves: the attempt of the slot, at the beginning and from now on unless it is there, and the
      receipt. */
  ghost predicate StartWritten(world: World, db: Db, after: Db, r: Request, now: Time, freshId: Id, id: Id)
    requires r.StartRequest? && now / 86_400_000 in world.bySlot
  {
    var slot := now / 86_400_000;
    var first := Attempt(r.guest, world.bySlot[slot], slot, Snapshot(Active, 0, 0, 0), 0, now, None);
    && HasAttempt(after, r.guest, slot, id)
    && (if HasAttempt(db, r.guest, slot, id) then after.attempts == db.attempts && after.slots == db.slots
        else
          && id == freshId && (forall other :: !HasAttempt(db, r.guest, slot, other))
          && after.attempts == db.attempts[freshId := first] && after.slots == db.slots[(r.guest, slot) := freshId])
    && after.receipts == db.receipts[
         (r.guest, r.key) := Receipt(r.session, StartToken, StartKind, Started, id, after.attempts[id].version)]
    && after.guesses == db.guesses && after.days == db.days && after.finals == db.finals && after.board == db.board
    && after.contributions == db.contributions && after.knowledge == db.knowledge
  }

  /** The answer to a start, case by case in the order of the checks. */
  ghost predicate StartAnswered(world: World, db: Db, r: Request, clock: Clock, freshId: Id, after: Db, result: Result)
    requires r.StartRequest?
  {
    if !KeyIs(r.key) then after == db && result == Refused(InvalidCommand, None)
    else if r.guest !in world.guests || !Live(world, r.guest, r.session, clock.session) then
      after == db && result == Refused(SessionExpired, None)
    else if (r.guest, r.key) in db.receipts then
      var prior := db.receipts[(r.guest, r.key)];
      if prior.token != StartToken then after == db && result == Refused(IdempotencyConflict, None)
      else
        && prior.attempt in db.attempts && db.attempts[prior.attempt].revision in world.revisions
        && Expires(world, db, after, prior.attempt, clock.sampled)
        && result.Ok? && result.replayed && result.outcome == Started && Told(world, after, prior.attempt, result.view)
    else if clock.sampled / 86_400_000 !in world.bySlot then after == db && result == Refused(NoCurrentCase, None)
    else if freshId in db.attempts || !Live(world, r.guest, r.session, clock.receipt) then after == db && result == Failed
    else
      && result.Ok? && !result.replayed && result.outcome == Started
      && StartWritten(world, db, after, r, clock.sampled, freshId, result.view.attempt)
      && Told(world, after, result.view.attempt, result.view)
  }

  lemma InsertIsReference(world: World, db: Db, freshId: Id, row: Attempt)
    requires SlotsIndexed(db.attempts, db.slots) && freshId !in db.attempts
    ensures var (current, id) := InsertAttempt(db, freshId, row);
      && HasAttempt(current, row.guest, row.slot, id)
      && (if HasAttempt(db, row.guest, row.slot, id) then current == db
          else
            && id == freshId && (forall other :: !HasAttempt(db, row.guest, row.slot, other))
            && current == db.(attempts := db.attempts[freshId := row], slots := db.slots[(row.guest, row.slot) := freshId]))
  {
    forall other | HasAttempt(db, row.guest, row.slot, other) ensures (row.guest, row.slot) in db.slots {
      assert db.slots[(row.guest, row.slot)] == other;
    }
  }

  lemma OpenIsWritten(world: World, db: Db, r: Request, clock: Clock, freshId: Id)
    requires Inv(world, db) && r.StartRequest? && StartReaches(world, db, r.guest, r.session, r.key, clock)
    requires freshId !in db.attempts && Live(world, r.guest, r.session, clock.receipt)
    ensures clock.sampled / 86_400_000 in world.bySlot
    ensures var (after, result) := Serve(world, db, r, clock, freshId);
      && result.Ok? && !result.replayed && result.outcome == Started
      && StartWritten(world, db, after, r, clock.sampled, freshId, result.view.attempt)
      && Told(world, after, result.view.attempt, result.view)
  {
    var revision := world.CurrentRevision(clock.sampled).value;
    StartCases(world, db, r.guest, r.session, r.key, clock, freshId);
    OpenCases(world, db, r.guest, r.session, r.key, revision, clock, freshId);
    FirstRowFits(world, r.guest, clock.sampled);
    FirstIsReference(world, r.guest, clock.sampled);
    var first := FirstRow(world, r.guest, revision, clock.sampled);
    InsertIsReference(world, db, freshId, first);
    ServeKeepsInv(world, db, r, clock, freshId);
    var after, id := Serve(world, db, r, clock, freshId).0, InsertAttempt(db, freshId, first).1;
    ProjectionIsOf(world, after, id);
    ProjectionTells(world, after, id);
  }

  lemma ProjectionIsOf(world: World, db: Db, id: Id)
    requires id in db.attempts && db.attempts[id].revision in world.revisions
    ensures Project(world, db, id).attempt == id
  {
  }

  lemma FirstIsReference(world: World, guest: Id, now: Time)
    requires world.Valid() && world.CurrentRevision(now).Some?
    ensures now / 86_400_000 in world.bySlot && world.CurrentRevision(now) == Some(world.bySlot[now / 86_400_000])
    ensures world.CurrentRevision(now).value in world.revisions
    ensures FirstRow(world, guest, world.CurrentRevision(now).value, now)
         == Attempt(guest, world.bySlot[now / 86_400_000], now / 86_400_000, Snapshot(Active, 0, 0, 0), 0, now, None)
  {
  }

  lemma StartReplayIsAnswered(world: World, db: Db, r: Request, clock: Clock, freshId: Id, after: Db, result: Result)
    requires r.StartRequest? && WellFormed(r) && Authentic(world, r, clock)
    requires (r.guest, r.key) in db.receipts && db.receipts[(r.guest, r.key)].token == StartToken
    requires
      var id := db.receipts[(r.guest, r.key)].attempt;
      && id in db.attempts && db.attempts[id].revision in world.revisions
      && Expires(world, db, after, id, clock.sampled)
      && result.Ok? && result.replayed && result.outcome == Started && Told(world, after, id, result.view)
    ensures StartAnswered(world, db, r, clock, freshId, after, result)
  {
  }

  lemma StartIsReplayed(world: World, db: Db, r: Request, clock: Clock, freshId: Id)
    requires Inv(world, db) && r.StartRequest? && WellFormed(r) && Authentic(world, r, clock)
    requires (r.guest, r.key) in db.receipts && db.receipts[(r.guest, r.key)].token == StartToken
    ensures
      StartAnswered(
        world, db, r, clock, freshId, Serve(world, db, r, clock, freshId).0, Serve(world, db, r, clock, freshId).1)
  {
    var prior := db.receipts[(r.guest, r.key)];
    assert ReceiptFits(db.attempts, r.guest, prior);
    ReceiptAnswers(world, db, r, clock, freshId, prior.attempt, prior.outcome);
    ExpiryTells(world, db, prior.attempt, clock.sampled);
    StartReplayIsAnswered(
      world, db, r, clock, freshId, Serve(world, db, r, clock, freshId).0, Serve(world, db, r, clock, freshId).1);
  }

  lemma StartIsTurnedAway(world: World, db: Db, r: Request, clock: Clock, freshId: Id)
    requires ReceiptsFit(db.attempts, db.receipts) && r.StartRequest?
    requires !StartReaches(world, db, r.guest, r.session, r.key, clock)
    requires !(WellFormed(r) && Authentic(world, r, clock)
               && (r.guest, r.key) in db.receipts && db.receipts[(r.guest, r.key)].token == StartToken)
    ensures
      StartAnswered(
        world, db, r, clock, freshId, Serve(world, db, r, clock, freshId).0, Serve(world, db, r, clock, freshId).1)
  {
    if (r.guest, r.key) in db.receipts {
      assert ReceiptFits(db.attempts, r.guest, db.receipts[(r.guest, r.key)]);
    }
  }

  lemma StartIsOpened(world: World, db: Db, r: Request, clock: Clock, freshId: Id)
    requires Inv(world, db) && r.StartRequest? && StartReaches(world, db, r.guest, r.session, r.key, clock)
    ensures
      StartAnswered(
        world, db, r, clock, freshId, Serve(world, db, r, clock, freshId).0, Serve(world, db, r, clock, freshId).1)
  {
    if freshId !in db.attempts && Live(world, r.guest, r.session, clock.receipt) {
      OpenIsWritten(world, db, r, clock, freshId);
    } else {
      FirstIsReference(world, r.guest, clock.sampled);
      StartCases(world, db, r.guest, r.session, r.key, clock, freshId);
      OpenCases(world, db, r.guest, r.session, r.key, world.CurrentRevision(clock.sampled).value, clock, freshId);
    }
  }

  /** Every start is answered as the reference says. */
  lemma EveryStartIsAnswered(world: World, db: Db, r: Request, clock: Clock, freshId: Id)
    requires Inv(world, db) && r.StartRequest?
    ensures
      StartAnswered(
        world, db, r, clock, freshId, Serve(world, db, r, clock, freshId).0, Serve(world, db, r, clock, freshId).1)
  {
    if StartReaches(world, db, r.guest, r.session, r.key, clock) {
      StartIsOpened(world, db, r, clock, freshId);
    } else if WellFormed(r) && Authentic(world, r, clock)
              && (r.guest, r.key) in db.receipts && db.receipts[(r.guest, r.key)].token == StartToken {
      StartIsReplayed(world, db, r, clock, freshId);
    } else {
      StartIsTurnedAway(world, db, r, clock, freshId);
    }
  }

  /* ---- reads ---- */

  /** An owned read: nothing for an unknown guest or somebody else's attempt; otherwise what is due expires, and the
      view tells the attempt as it is then. */
  ghost predicate OwnedReadAnswered(world: World, db: Db, guest: Id, id: Id, now: Time, after: Db, view: Option<View>) {
    if guest !in world.guests || id !in db.attempts || db.attempts[id].guest != guest then after == db && view == None
    else
      && db.attempts[id].revision in world.revisions && Expires(world, db, after, id, now)
      && view.Some? && Told(world, after, id, view.value)
      && (view.value.at.state == Active ==> now < view.value.closesAt)
  }

  lemma EveryOwnedReadIsAnswered(world: World, db: Db, guest: Id, id: Id, now: Time)
    requires Inv(world, db)
    ensures OwnedReadAnswered(world, db, guest, id, now, ReadOwned(world, db, guest, id, now).0, ReadOwned(world, db, guest, id, now).1)
  {
    if guest in world.guests && id in db.attempts && db.attempts[id].guest == guest {
      ExpiryTells(world, db, id, now);
      OwnedReadShows(world, db, guest, id, now);
    }
  }

  lemma OwnedReadShows(world: World, db: Db, guest: Id, id: Id, now: Time)
    requires guest in world.guests && Owned(world, db, id, guest)
    ensures var after := ExpireIfClosed(world, db, id, now);
      ReadOwned(world, db, guest, id, now) == (after, Some(Project(world, after, id)))
  {
  }

  /** The current case: none exactly when no slot is published at `first`; shown exactly when the guest has an attempt
      in that slot; otherwise not started, with the slot and its closing time. */
  ghost predicate CaseReadAnswered(
    world: World, db: Db, guest: Id, first: Time, now: Time, after: Db, shown: Option<CaseView>)
  {
    var slot := first / 86_400_000;
    if slot !in world.bySlot then after == db && shown == Some(NoCase)
    else if guest !in world.guests || forall id :: !HasAttempt(db, guest, slot, id) then
      after == db && shown == Some(NotStarted(slot, slot * 86_400_000 + 86_400_000))
    else
      shown.Some? && shown.value.Shown?
      && HasAttempt(db, guest, slot, shown.value.view.attempt)
      && OwnedReadAnswered(world, db, guest, shown.value.view.attempt, now, after, Some(shown.value.view))
  }

  lemma NobodyHasAttempt(db: Db, guest: Id, slot: int)
    requires SlotsIndexed(db.attempts, db.slots)
    ensures (guest, slot) in db.slots ==> HasAttempt(db, guest, slot, db.slots[(guest, slot)])
    ensures (guest, slot) !in db.slots ==> forall id :: !HasAttempt(db, guest, slot, id)
  {
  }

  lemma FoundCaseIsAnswered(world: World, db: Db, guest: Id, first: Time, now: Time, id: Id, after: Db, view: Option<View>)
    requires first / 86_400_000 in world.bySlot && guest in world.guests && HasAttempt(db, guest, first / 86_400_000, id)
    requires OwnedReadAnswered(world, db, guest, id, now, after, view)
    ensures CaseReadAnswered(world, db, guest, first, now, after, if view.Some? then Some(Shown(view.value)) else None)
  {
  }

  lemma EveryCaseReadIsAnswered(world: World, db: Db, guest: Id, first: Time, now: Time)
    requires Inv(world, db)
    ensures
      CaseReadAnswered(
        world, db, guest, first, now, ReadCurrent(world, db, guest, first, now).0, ReadCurrent(world, db, guest, first, now).1)
  {
    var slot := first / 86_400_000;
    if slot in world.bySlot {
      CaseReadLooksUp(world, db, guest, first, now);
      NobodyHasAttempt(db, guest, slot);
      if (guest, slot) in db.slots && guest in world.guests {
        var id := db.slots[(guest, slot)];
        EveryOwnedReadIsAnswered(world, db, guest, id, now);
        FoundCaseIsAnswered(
          world, db, guest, first, now, id, ReadOwned(world, db, guest, id, now).0, ReadOwned(world, db, guest, id, now).1);
      }
    }
  }

  lemma CaseReadLooksUp(world: World, db: Db, guest: Id, first: Time, now: Time)
    requires world.Valid() && first / 86_400_000 in world.bySlot
    ensures
      var slot := first / 86_400_000;
      ReadCurrent(world, db, guest, first, now) ==
      if (guest, slot) !in db.slots || guest !in world.guests then
        (db, Some(NotStarted(slot, slot * 86_400_000 + 86_400_000)))
      else
        var (after, view) := ReadOwned(world, db, guest, db.slots[(guest, slot)], now);
        (after, if view.Some? then Some(Shown(view.value)) else None)
  {
  }
}
