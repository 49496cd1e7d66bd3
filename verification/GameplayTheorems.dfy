/** The promises of the gameplay protocol, for every run of transactions. */
module GameplayTheorems {
  import opened Basics
  import opened AttemptEngine
  import opened GameplayLedger
  import opened GameplayInvariant
  import opened GameplayHistory

  /* ---- runs ---- */

  /** readProfile closes the listed active attempts of a guest one after the other. */
  function ExpireAll(world: World, db: Db, guest: Id, ids: seq<Id>, now: Time): Db {
    if ids == [] then db
    else
      var before := ExpireAll(world, db, guest, ids[..|ids| - 1], now);
      var id := ids[|ids| - 1];
      if Owned(world, before, id, guest) then ExpireIfClosed(world, before, id, now) else before
  }

  datatype Step =
    | Requested(request: Request, clock: Clock, freshId: Id)
    | AttemptRead(guest: Id, id: Id, now: Time)
    | CaseRead(guest: Id, first: Time, now: Time)
    | ProfileRead(guest: Id, active: seq<Id>, now: Time)

  function Take(world: World, db: Db, step: Step): Db {
    match step
    case Requested(request, clock, freshId) => Serve(world, db, request, clock, freshId).0
    case AttemptRead(guest, id, now) => ReadOwned(world, db, guest, id, now).0
    case CaseRead(guest, first, now) => ReadCurrent(world, db, guest, first, now).0
    case ProfileRead(guest, active, now) => ExpireAll(world, db, guest, active, now)
  }

  /** Any number of transactions, of any guests, in any order, each with any clock readings. */
  function Run(world: World, steps: seq<Step>): Db {
    if steps == [] then EMPTY else Take(world, Run(world, steps[..|steps| - 1]), steps[|steps| - 1])
  }

  /** The only thing a read may write is the end of a game whose window has closed. */
  ghost predicate MayExpire(world: World, db: Db, after: Db, id: Id, now: Time) {
    after == db || (id in db.attempts && db.attempts[id].revision in world.revisions && after == ExpireIfClosed(world, db, id, now))
  }

  lemma MayExpireKeepsInv(world: World, db: Db, after: Db, id: Id, now: Time)
    requires Inv(world, db) && MayExpire(world, db, after, id, now)
    ensures Inv(world, after) && Evolves(db, after) && after.receipts == db.receipts
  {
    if after != db {
      ExpireKeepsInv(world, db, id, now);
    }
  }

  lemma ReadsMayExpire(world: World, db: Db, guest: Id, id: Id, first: Time, now: Time)
    ensures MayExpire(world, db, ReadOwned(world, db, guest, id, now).0, id, now)
    ensures exists shown :: MayExpire(world, db, ReadCurrent(world, db, guest, first, now).0, shown, now)
  {
    var after := ReadCurrent(world, db, guest, first, now).0;
    match world.CurrentRevision(first)
    case Some(revision) =>
      if revision in world.revisions && (guest, world.revisions[revision].slot) in db.slots && guest in world.guests {
        assert MayExpire(world, db, after, db.slots[(guest, world.revisions[revision].slot)], now);
      } else {
        assert MayExpire(world, db, after, id, now);
      }
    case None =>
      assert MayExpire(world, db, after, id, now);
  }

  lemma {:induction false} ExpireAllKeepsInv(world: World, db: Db, guest: Id, ids: seq<Id>, now: Time)
    requires Inv(world, db)
    ensures var after := ExpireAll(world, db, guest, ids, now);
      Inv(world, after) && Evolves(db, after) && after.receipts == db.receipts && after.attempts.Keys == db.attempts.Keys
  {
    if ids != [] {
      var before := ExpireAll(world, db, guest, ids[..|ids| - 1], now);
      ExpireAllKeepsInv(world, db, guest, ids[..|ids| - 1], now);
      if Owned(world, before, ids[|ids| - 1], guest) {
        ExpireKeepsInv(world, before, ids[|ids| - 1], now);
        EvolvesTransitive(db, before, ExpireIfClosed(world, before, ids[|ids| - 1], now));
      }
    }
  }

  function TokenOf(request: Request): Fingerprint {
    match request
    case StartRequest(_, _, _) => StartToken
    case CommandRequest(_, _, _, attempt, expectedVersion, command) => CommandToken(attempt, expectedVersion, command)
  }

  lemma ServeKeepsInv(world: World, db: Db, request: Request, clock: Clock, freshId: Id)
    requires Inv(world, db)
    ensures var after := Serve(world, db, request, clock, freshId).0; Inv(world, after) && Evolves(db, after)
  {
    match request {
      case StartRequest(guest, session, key) => StartKeepsInv(world, db, guest, session, key, clock, freshId);
      case CommandRequest(guest, session, key, _, _, _) =>
        ExecuteKeepsInv(world, db, guest, session, key, TokenOf(request), clock);
    }
  }

  lemma TakeKeepsInv(world: World, db: Db, step: Step)
    requires Inv(world, db)
    ensures Inv(world, Take(world, db, step)) && Evolves(db, Take(world, db, step))
  {
    match step {
      case Requested(request, clock, freshId) => ServeKeepsInv(world, db, request, clock, freshId);
      case AttemptRead(guest, id, now) =>
        ReadsMayExpire(world, db, guest, id, now, now);
        MayExpireKeepsInv(world, db, Take(world, db, step), id, now);
      case CaseRead(guest, first, now) =>
        ReadsMayExpire(world, db, guest, 0, first, now);
        var id :| MayExpire(world, db, Take(world, db, step), id, now);
        MayExpireKeepsInv(world, db, Take(world, db, step), id, now);
      case ProfileRead(guest, active, now) => ExpireAllKeepsInv(world, db, guest, active, now);
    }
  }

  lemma ListedFirst(attempts: Attempts, guest: Id, ids: seq<Id>)
    requires Lists(attempts, guest, ids)
    ensures ids == [] || ids[0] in attempts
  {
    if ids != [] {
      assert ids[0] in ids;
    }
  }

  lemma EmptyInv(world: World)
    requires world.Valid()
    ensures Inv(world, EMPTY)
  {
    forall guest, ids, region | Lists(EMPTY.attempts, guest, ids)
      ensures KnowledgeOf(EMPTY.knowledge, guest, region) == Tally(world, EMPTY.attempts, ids, region)
    {
      ListedFirst(EMPTY.attempts, guest, ids);
    }
  }

  /** The invariant holds in every reachable state. */
  lemma {:induction false} EveryRunKeepsInv(world: World, steps: seq<Step>)
    requires world.Valid()
    ensures Inv(world, Run(world, steps))
  {
    if steps == [] {
      EmptyInv(world);
    } else {
      EveryRunKeepsInv(world, steps[..|steps| - 1]);
      TakeKeepsInv(world, Run(world, steps[..|steps| - 1]), steps[|steps| - 1]);
    }
  }

  /* ---- one request, at most one effect ---- */

  /** The receipt of a request and the attempt it was answered with. */
  ghost predicate Receipted(db: Db, request: Request, attempt: Id, outcome: OutcomeCode) {
    && (request.guest, request.key) in db.receipts
    && db.receipts[(request.guest, request.key)].token == TokenOf(request)
    && db.receipts[(request.guest, request.key)].attempt == attempt
    && db.receipts[(request.guest, request.key)].outcome == outcome
  }

  lemma ExpireLeavesReceipts(world: World, db: Db, id: Id, now: Time)
    requires id in db.attempts && db.attempts[id].revision in world.revisions
    ensures ExpireIfClosed(world, db, id, now).receipts == db.receipts
  {
  }

  lemma FreshReceipt(world: World, db: Db, guest: Id, session: Id, key: string, token: Fingerprint, clock: Clock)
    requires Reaches(world, db, guest, session, key, token, clock)
    ensures
      var (after, result) :=
        Execute(world, db, guest, session, key, token.attempt, token.expectedVersion, token.command, clock);
      if Fresh(result) then
        && result.outcome.Played? && result.view.attempt == token.attempt
        && after.receipts ==
           db.receipts[(guest, key) := CommandReceipt(session, token, result.outcome.code, token.expectedVersion + 1)]
      else after.receipts == db.receipts && !result.Ok?
  {
    ExecuteCases(world, db, guest, session, key, token, clock);
    ExpireLeavesReceipts(world, db, token.attempt, clock.sampled);
    var current := ExpireIfClosed(world, db, token.attempt, clock.sampled);
    WriteMovesOn(world, current, guest, session, key, token, clock);
    var decision := Decide(world, current, guest, session, token, clock);
    if decision.Write? {
      CommitRecords(world, current, guest, session, key, token, decision.next, decision.played, decision.entity, clock.sampled);
    }
  }

  lemma NoFreshReceipt(world: World, db: Db, guest: Id, session: Id, key: string, token: Fingerprint, clock: Clock)
    requires token.CommandToken? && !Reaches(world, db, guest, session, key, token, clock)
    ensures
      var (after, result) :=
        Execute(world, db, guest, session, key, token.attempt, token.expectedVersion, token.command, clock);
      && after.receipts == db.receipts
      && (result.Ok? ==>
            && result.replayed && Identical(db, guest, key, token)
            && result.outcome == db.receipts[(guest, key)].outcome && result.view.attempt == token.attempt)
  {
    ExecuteCases(world, db, guest, session, key, token, clock);
    if Owned(world, db, token.attempt, guest) {
      ExpireLeavesReceipts(world, db, token.attempt, clock.sampled);
    }
  }

  lemma StartReceipts(world: World, db: Db, guest: Id, session: Id, key: string, clock: Clock, freshId: Id)
    requires Inv(world, db)
    ensures
      var (after, result) := Start(world, db, guest, session, key, clock, freshId);
      if Fresh(result) then
        && (guest, key) !in db.receipts && result.outcome == Started
        && result.view.attempt in after.attempts
        && after.receipts ==
           db.receipts[(guest, key) := StartReceipt(session, result.view.attempt, after.attempts[result.view.attempt].version)]
      else
        && after.receipts == db.receipts
        && (result.Ok? ==> Receipted(db, StartRequest(guest, session, key), result.view.attempt, result.outcome))
  {
    StartCases(world, db, guest, session, key, clock, freshId);
    if StartReaches(world, db, guest, session, key, clock) {
      var revision := world.CurrentRevision(clock.sampled).value;
      OpenCases(world, db, guest, session, key, revision, clock, freshId);
      FirstRowFits(world, guest, clock.sampled);
      if freshId !in db.attempts {
        InsertAttemptFinds(world, db, freshId, FirstRow(world, guest, revision, clock.sampled));
      }
    } else if (guest, key) in db.receipts {
      assert ReceiptFits(db.attempts, guest, db.receipts[(guest, key)]);
      if Owned(world, db, db.receipts[(guest, key)].attempt, guest) {
        ExpireKeepsInv(world, db, db.receipts[(guest, key)].attempt, clock.sampled);
      }
    }
  }

  /** A request writes a receipt exactly when it is answered afresh, and then its key was new; a replayed
      answer repeats the receipt that is there. */
  ghost predicate Answers(db: Db, after: Db, request: Request, result: Result) {
    if Fresh(result) then
      && (request.guest, request.key) !in db.receipts
      && Receipted(after, request, result.view.attempt, result.outcome)
      && after.receipts == 
         db.receipts[(request.guest, request.key) := after.receipts[(request.guest, request.key)]]
    else
      && after.receipts == db.receipts
      && (result.Ok? ==> Receipted(db, request, result.view.attempt, result.outcome))
  }

  lemma ExecuteAnswers(world: World, db: Db, request: Request, clock: Clock, freshId: Id)
    requires request.CommandRequest?
    ensures var (after, result) := Serve(world, db, request, clock, freshId); Answers(db, after, request, result)
  {
    if Reaches(world, db, request.guest, request.session, request.key, TokenOf(request), clock) {
      FreshReceipt(world, db, request.guest, request.session, request.key, TokenOf(request), clock);
    } else {
      NoFreshReceipt(world, db, request.guest, request.session, request.key, TokenOf(request), clock);
    }
  }

  lemma ServeAnswers(world: World, db: Db, request: Request, clock: Clock, freshId: Id)
    requires Inv(world, db)
    ensures var (after, result) := Serve(world, db, request, clock, freshId); Answers(db, after, request, result)
  {
    match request {
      case StartRequest(guest, session, key) => StartReceipts(world, db, guest, session, key, clock, freshId);
      case CommandRequest(_, _, _, _, _, _) => ExecuteAnswers(world, db, request, clock, freshId);
    }
  }

  /** Reads write no receipts. */
  lemma ReadReceipts(world: World, db: Db, step: Step)
    requires Inv(world, db) && !step.Requested?
    ensures Take(world, db, step).receipts == db.receipts
  {
    match step {
      case AttemptRead(guest, id, now) =>
        ReadsMayExpire(world, db, guest, id, now, now);
        MayExpireLeavesReceipts(world, db, Take(world, db, step), id, now);
      case CaseRead(guest, first, now) =>
        ReadsMayExpire(world, db, guest, 0, first, now);
        var id :| MayExpire(world, db, Take(world, db, step), id, now);
        MayExpireLeavesReceipts(world, db, Take(world, db, step), id, now);
      case ProfileRead(guest, active, now) => ExpireAllKeepsInv(world, db, guest, active, now);
    }
  }

  lemma MayExpireLeavesReceipts(world: World, db: Db, after: Db, id: Id, now: Time)
    requires MayExpire(world, db, after, id, now)
    ensures after.receipts == db.receipts
  {
    if after != db {
      ExpireLeavesReceipts(world, db, id, now);
    }
  }

  predicate Authentic(world: World, request: Request, clock: Clock) {
    && request.guest in world.guests && world.SessionIsLive(request.guest, request.session, clock.session)
  }

  lemma StartReplays(world: World, db: Db, guest: Id, session: Id, key: string, clock: Clock, freshId: Id)
    requires ValidKey(key) && guest in world.guests && world.SessionIsLive(guest, session, clock.session)
    requires (guest, key) in db.receipts
    requires var prior := db.receipts[(guest, key)];
      prior.token == StartToken && prior.kind == StartKind && prior.outcome == Started && Owned(world, db, prior.attempt, guest)
    ensures Start(world, db, guest, session, key, clock, freshId)
         == Replayed(world, db, db.receipts[(guest, key)].attempt, guest, Started, clock.sampled)
  {
  }

  lemma CommandReplays(world: World, db: Db, guest: Id, session: Id, key: string, token: Fingerprint, clock: Clock)
    requires token.CommandToken? && ValidKey(key) && 0 <= token.expectedVersion <= MAX_SAFE_INTEGER
    requires token.command != Malformed && guest in world.guests && world.SessionIsLive(guest, session, clock.session)
    requires Identical(db, guest, key, token) && Owned(world, db, token.attempt, guest)
    requires db.receipts[(guest, key)].kind == KindOf(token.command)
    requires OutcomeFits(db.receipts[(guest, key)].kind, db.receipts[(guest, key)].outcome)
    ensures Execute(world, db, guest, session, key, token.attempt, token.expectedVersion, token.command, clock)
         == Replayed(world, db, token.attempt, guest, db.receipts[(guest, key)].outcome, clock.sampled)
  {
  }

  /** Once answered, always answered: a request that has a receipt in the tables is answered from it for as
      long as the session lives, with the outcome and the attempt of the first time, and writes nothing but
      the expiry that is due. */
  lemma ReceiptAnswers(
    world: World, db: Db, request: Request, clock: Clock, freshId: Id, attempt: Id, outcome: OutcomeCode)
    requires Inv(world, db) && Receipted(db, request, attempt, outcome) && Authentic(world, request, clock)
    requires ValidKey(request.key)
    requires request.CommandRequest? ==> 0 <= request.expectedVersion <= MAX_SAFE_INTEGER
    ensures attempt in db.attempts && db.attempts[attempt].revision in world.revisions
    ensures var (after, result) := Serve(world, db, request, clock, freshId);
      && after == ExpireIfClosed(world, db, attempt, clock.sampled)
      && result == Ok(outcome, true, Project(world, after, attempt))
  {
    assert ReceiptFits(db.attempts, request.guest, db.receipts[(request.guest, request.key)]);
    assert RowFits(world, db.attempts[attempt]);
    match request {
      case StartRequest(guest, session, key) => StartReplays(world, db, guest, session, key, clock, freshId);
      case CommandRequest(guest, session, key, _, _, _) =>
        CommandReplays(world, db, guest, session, key, TokenOf(request), clock);
    }
  }

  /* ---- later transactions ---- */

  function TakeAll(world: World, db: Db, steps: seq<Step>): Db {
    if steps == [] then db else Take(world, TakeAll(world, db, steps[..|steps| - 1]), steps[|steps| - 1])
  }

  lemma {:induction false} LaterEvolves(world: World, db: Db, steps: seq<Step>)
    requires Inv(world, db)
    ensures Inv(world, TakeAll(world, db, steps)) && Evolves(db, TakeAll(world, db, steps))
  {
    if steps != [] {
      var before := TakeAll(world, db, steps[..|steps| - 1]);
      LaterEvolves(world, db, steps[..|steps| - 1]);
      TakeKeepsInv(world, before, steps[|steps| - 1]);
      EvolvesTransitive(db, before, Take(world, before, steps[|steps| - 1]));
    }
  }

  /** The keys and versions that the request schema lets through. */
  predicate WellFormed(request: Request) {
    ValidKey(request.key) && (request.CommandRequest? ==> 0 <= request.expectedVersion <= MAX_SAFE_INTEGER)
  }

  /** At most once: after a request was answered, and after any further transactions, the same request is
      answered with the same outcome for the same attempt and commits nothing. */
  lemma AnsweredOnce(
    world: World, db: Db, request: Request, clock: Clock, freshId: Id, later: seq<Step>, again: Clock, freshId': Id)
    requires Inv(world, db) && WellFormed(request) && Authentic(world, request, again)
    requires Serve(world, db, request, clock, freshId).1.Ok?
    ensures
      var (after, first) := Serve(world, db, request, clock, freshId);
      var now := TakeAll(world, after, later);
      var (after', second) := Serve(world, now, request, again, freshId');
      && second.Ok? && second.replayed && second.outcome == first.outcome && second.view.attempt == first.view.attempt
      && MayExpire(world, now, after', first.view.attempt, again.sampled)
      && after'.receipts == now.receipts
  {
    var (after, first) := Serve(world, db, request, clock, freshId);
    ServeKeepsInv(world, db, request, clock, freshId);
    ServeAnswers(world, db, request, clock, freshId);
    LaterEvolves(world, after, later);
    var now := TakeAll(world, after, later);
    assert Receipted(after, request, first.view.attempt, first.outcome);
    assert Receipted(now, request, first.view.attempt, first.outcome);
    ReceiptAnswers(world, now, request, again, freshId', first.view.attempt, first.outcome);
    ExpireLeavesReceipts(world, now, first.view.attempt, again.sampled);
  }

  /* ---- refusals that last ---- */

  /** No delivery of this command can commit from here on: its key is taken, or its attempt is over or past
      the expected version, or stands at that version and the engine or the content refuses the command. */
  ghost predicate Spent(world: World, db: Db, request: Request)
    requires request.CommandRequest?
  {
    || (request.guest, request.key) in db.receipts
    || (request.attempt in db.attempts
        && var row := db.attempts[request.attempt];
           || row.at.state != Active
           || request.expectedVersion < row.version
           || (request.expectedVersion == row.version && row.revision in world.revisions
               && request.command != Malformed
               && match Attempted(world, row, request.command)
                  case None => true
                  case Some((t, _, _)) => !t.Accepted?))
  }

  lemma SpentStays(world: World, a: Db, b: Db, request: Request)
    requires request.CommandRequest? && Spent(world, a, request) && Evolves(a, b)
    ensures Spent(world, b, request)
  {
    if request.attempt in a.attempts {
      assert RowEvolves(a.attempts[request.attempt], b.attempts[request.attempt]);
    }
  }

  /** A spent command that still gets as far as the lock is refused there. */
  lemma SpentIsRefused(world: World, db: Db, guest: Id, session: Id, key: string, token: Fingerprint, clock: Clock)
    requires Reaches(world, db, guest, session, key, token, clock)
    requires Spent(world, db, CommandRequest(guest, session, key, token.attempt, token.expectedVersion, token.command))
    ensures !Decide(world, db, guest, session, token, clock).Write?
  {
  }

  lemma SpentNeverCommits(world: World, db: Db, request: Request, clock: Clock, freshId: Id)
    requires Inv(world, db) && request.CommandRequest? && Spent(world, db, request)
    ensures !Fresh(Serve(world, db, request, clock, freshId).1)
  {
    var token := TokenOf(request);
    ExecuteCases(world, db, request.guest, request.session, request.key, token, clock);
    if Reaches(world, db, request.guest, request.session, request.key, token, clock) {
      ExpireKeepsInv(world, db, token.attempt, clock.sampled);
      var current := ExpireIfClosed(world, db, token.attempt, clock.sampled);
      SpentStays(world, db, current, request);
      SpentIsRefused(world, current, request.guest, request.session, request.key, token, clock);
    }
  }

  /** The refusals after which the browser forgets a command. A stale one counts when the command was not
      ahead of the attempt. */
  predicate Conclusive(request: Request, result: Result)
    requires request.CommandRequest?
  {
    result.Refused? &&
    match result.code
    case EvidenceLimitReached => true
    case IdempotencyConflict => true
    case AttemptIsOver => true
    case UnknownEntity => true
    case StaleVersion => result.shown.Some? && request.expectedVersion <= result.shown.value.version
    case _ => false
  }

  lemma RefusedIsSpent(
    world: World, db: Db, guest: Id, session: Id, key: string, token: Fingerprint, clock: Clock, code: Refusal,
    shown: Option<View>)
    requires token.CommandToken? && token.command != Malformed && Owned(world, db, token.attempt, guest)
    requires Decide(world, db, guest, session, token, clock) == Refuse(code, shown)
    requires code == StaleVersion ==> token.expectedVersion <= db.attempts[token.attempt].version
    ensures Spent(world, db, CommandRequest(guest, session, key, token.attempt, token.expectedVersion, token.command))
  {
  }

  lemma ConclusiveIsSpent(world: World, db: Db, request: Request, clock: Clock, freshId: Id)
    requires request.CommandRequest?
    requires Conclusive(request, Serve(world, db, request, clock, freshId).1)
    ensures Spent(world, Serve(world, db, request, clock, freshId).0, request)
  {
    var token := TokenOf(request);
    ExecuteCases(world, db, request.guest, request.session, request.key, token, clock);
    if Reaches(world, db, request.guest, request.session, request.key, token, clock) {
      var current := ExpireIfClosed(world, db, token.attempt, clock.sampled);
      var decision := Decide(world, current, request.guest, request.session, token, clock);
      RefusedIsSpent(world, current, request.guest, request.session, request.key, token, clock, decision.code, decision.shown);
    }
  }

  /** Clearing is safe: after a conclusive refusal the command has no receipt, and whatever happens
      afterwards no delivery of the same request ever commits. */
  lemma ConclusiveRefusalIsFinal(
    world: World, db: Db, request: Request, clock: Clock, freshId: Id, later: seq<Step>, again: Clock, freshId': Id)
    requires Inv(world, db) && request.CommandRequest?
    requires Conclusive(request, Serve(world, db, request, clock, freshId).1)
    ensures
      var now := TakeAll(world, Serve(world, db, request, clock, freshId).0, later);
      && !Fresh(Serve(world, now, request, again, freshId').1)
      && Serve(world, now, request, again, freshId').0.receipts == now.receipts
  {
    var after := Serve(world, db, request, clock, freshId).0;
    ServeKeepsInv(world, db, request, clock, freshId);
    ConclusiveIsSpent(world, db, request, clock, freshId);
    LaterEvolves(world, after, later);
    var now := TakeAll(world, after, later);
    SpentStays(world, after, now, request);
    SpentNeverCommits(world, now, request, again, freshId');
    ServeAnswers(world, now, request, again, freshId');
  }

  /** commandOutcomeIsProven, up to the command: the attempt was seen beyond the expected version. Then too
      no later delivery commits. */
  lemma SeenBeyondIsFinal(world: World, db: Db, request: Request, later: seq<Step>, again: Clock, freshId: Id)
    requires Inv(world, db) && request.CommandRequest?
    requires request.attempt in db.attempts && request.expectedVersion < db.attempts[request.attempt].version
    ensures !Fresh(Serve(world, TakeAll(world, db, later), request, again, freshId).1)
  {
    LaterEvolves(world, db, later);
    SpentStays(world, db, TakeAll(world, db, later), request);
    SpentNeverCommits(world, TakeAll(world, db, later), request, again, freshId);
  }

  /* ---- errors ---- */

  /** The readings of a clock that neither stands before the start of the attempt nor lets the session end
      while the transaction runs. */
  function Steady(db: Db, id: Id, clock: Clock): Clock {
    Clock(clock.session,
          if id in db.attempts && !TimeAllowed(db.attempts[id], clock.sampled) then db.attempts[id].startedAt else clock.sampled,
          clock.session)
  }

  /** The session ended between its check and the write, or the clock stood before the start of the attempt. */
  predicate ClockIntervenes(world: World, db: Db, guest: Id, session: Id, id: Id, clock: Clock) {
    || !world.SessionIsLive(guest, session, clock.receipt)
    || (id in db.attempts && !TimeAllowed(db.attempts[id], clock.sampled))
  }

  lemma ReachesSteadily(world: World, db: Db, guest: Id, session: Id, key: string, token: Fingerprint, clock: Clock)
    requires token.CommandToken?
    ensures Reaches(world, db, guest, session, key, token, clock)
      <==> Reaches(world, db, guest, session, key, token, Steady(db, token.attempt, clock))
  {
  }

  /** Nothing expires before it was started. */
  lemma ExpiresSteadily(world: World, db: Db, id: Id, clock: Clock)
    requires id in db.attempts && RowFits(world, db.attempts[id])
    ensures var current := ExpireIfClosed(world, db, id, clock.sampled);
      && ExpireIfClosed(world, db, id, Steady(db, id, clock).sampled) == current
      && id in current.attempts && current.attempts[id].startedAt == db.attempts[id].startedAt
  {
    ExpireIsAdvance(world, db, id, clock.sampled);
    ExpireIsAdvance(world, db, id, Steady(db, id, clock).sampled);
  }

  /** The engine never refuses a stored snapshot, guess numbers are free, and receipts carry codes of their
      kind; so a command fails for two reasons only: its session ended between the check and the write, or
      the database clock stood before the start of the attempt. */
  lemma CommandFailsOnlyByTheClock(
    world: World, db: Db, guest: Id, session: Id, key: string, token: Fingerprint, clock: Clock)
    requires Inv(world, db) && token.CommandToken?
    ensures
      var e, v, c := token.attempt, token.expectedVersion, token.command;
      Execute(world, db, guest, session, key, e, v, c, clock).1 == Failed
      <==> Fresh(Execute(world, db, guest, session, key, e, v, c, Steady(db, e, clock)).1)
           && ClockIntervenes(world, db, guest, session, e, clock)
  {
    var id, steady := token.attempt, Steady(db, token.attempt, clock);
    ReachesSteadily(world, db, guest, session, key, token, clock);
    if Reaches(world, db, guest, session, key, token, clock) {
      CommandReachedFails(world, db, guest, session, key, token, clock);
    } else {
      ReplayNeverFails(world, db, guest, session, key, token, clock);
      NoFreshReceipt(world, db, guest, session, key, token, steady);
    }
  }

  /** How a command that is decided under the lock ends. */
  lemma ReachedEnds(world: World, db: Db, guest: Id, session: Id, key: string, token: Fingerprint, clock: Clock)
    requires Reaches(world, db, guest, session, key, token, clock)
    ensures
      var result := Execute(world, db, guest, session, key, token.attempt, token.expectedVersion, token.command, clock).1;
      var decision := Decide(world, ExpireIfClosed(world, db, token.attempt, clock.sampled), guest, session, token, clock);
      (result == Failed <==> decision.Throw?) && (Fresh(result) <==> decision.Write?)
  {
    ExecuteCases(world, db, guest, session, key, token, clock);
  }

  /** The clock of the decision is the clock of the transaction. */
  lemma SteadyUnderLock(world: World, db: Db, id: Id, clock: Clock)
    requires RowsFit(world, db.attempts) && id in db.attempts
    ensures db.attempts[id].revision in world.revisions
    ensures var current := ExpireIfClosed(world, db, id, clock.sampled);
      && SameOwner(db, current, id)
      && ExpireIfClosed(world, db, id, Steady(db, id, clock).sampled) == current
      && Steady(current, id, clock) == Steady(db, id, clock)
      && current.attempts[id].startedAt == db.attempts[id].startedAt
  {
    assert RowFits(world, db.attempts[id]);
    ExpiresSteadily(world, db, id, clock);
  }

  lemma SoundUnderLock(world: World, db: Db, id: Id, now: Time)
    requires Inv(world, db) && id in db.attempts && db.attempts[id].revision in world.revisions
    ensures Sound(ExpireIfClosed(world, db, id, now), id)
  {
    ExpireKeepsInv(world, db, id, now);
    RowsAreSound(world, ExpireIfClosed(world, db, id, now), id);
  }

  lemma CommandReachedFails(world: World, db: Db, guest: Id, session: Id, key: string, token: Fingerprint, clock: Clock)
    requires Inv(world, db) && Reaches(world, db, guest, session, key, token, clock)
    requires Reaches(world, db, guest, session, key, token, Steady(db, token.attempt, clock))
    ensures
      var e, v, c := token.attempt, token.expectedVersion, token.command;
      Execute(world, db, guest, session, key, e, v, c, clock).1 == Failed
      <==> Fresh(Execute(world, db, guest, session, key, e, v, c, Steady(db, e, clock)).1)
           && ClockIntervenes(world, db, guest, session, e, clock)
  {
    SteadyUnderLock(world, db, token.attempt, clock);
    SoundUnderLock(world, db, token.attempt, clock.sampled);
    var current := ExpireIfClosed(world, db, token.attempt, clock.sampled);
    DecideThrowsOnlyByTheClock(world, current, guest, session, token, clock);
    ReachedEnds(world, db, guest, session, key, token, clock);
    ReachedEnds(world, db, guest, session, key, token, Steady(db, token.attempt, clock));
  }

  /** What the invariant says of a running attempt, for the decision. */
  ghost predicate Sound(db: Db, id: Id)
    requires id in db.attempts
  {
    var row := db.attempts[id];
    ValidSnapshot(row.at) && (row.at.state == Active ==> GuessNumberFree(db, id, row.at.W + 1))
  }

  lemma RowsAreSound(world: World, db: Db, id: Id)
    requires RowsFit(world, db.attempts) && Journaled(db.attempts, db.receipts, db.guesses) && id in db.attempts
    ensures Sound(db, id)
  {
    var row := db.attempts[id];
    assert RowFits(world, row);
    assert Explained(row, db.receipts, db.guesses, id);
    if row.at.state == Active {
      NextGuessIsFree(row, db.receipts, db.guesses, id);
    }
  }

  lemma DecideThrowsOnlyByTheClock(world: World, db: Db, guest: Id, session: Id, token: Fingerprint, clock: Clock)
    requires token.CommandToken? && Owned(world, db, token.attempt, guest) && Sound(db, token.attempt)
    requires world.SessionIsLive(guest, session, clock.session)
    ensures
      Decide(world, db, guest, session, token, clock).Throw?
      <==> Decide(world, db, guest, session, token, Steady(db, token.attempt, clock)).Write?
           && ClockIntervenes(world, db, guest, session, token.attempt, clock)
  {
  }

  lemma ReceiptMatches(attempts: Attempts, guest: Id, r: Receipt, token: Fingerprint)
    requires ReceiptFits(attempts, guest, r) && r.token == token && token.CommandToken?
    ensures r.kind == KindOf(token.command) && OutcomeFits(r.kind, r.outcome)
  {
  }

  lemma MatchedReplaySucceeds(world: World, db: Db, guest: Id, session: Id, key: string, token: Fingerprint, clock: Clock)
    requires token.CommandToken? && !Reaches(world, db, guest, session, key, token, clock)
    requires (guest, key) in db.receipts && db.receipts[(guest, key)].token == token ==>
      && db.receipts[(guest, key)].kind == KindOf(token.command)
      && OutcomeFits(db.receipts[(guest, key)].kind, db.receipts[(guest, key)].outcome)
    ensures Execute(world, db, guest, session, key, token.attempt, token.expectedVersion, token.command, clock).1 != Failed
  {
  }

  /** The "invalid outcome code" error cannot be reached. */
  lemma ReplayNeverFails(world: World, db: Db, guest: Id, session: Id, key: string, token: Fingerprint, clock: Clock)
    requires ReceiptsFit(db.attempts, db.receipts)
    requires token.CommandToken? && !Reaches(world, db, guest, session, key, token, clock)
    ensures Execute(world, db, guest, session, key, token.attempt, token.expectedVersion, token.command, clock).1 != Failed
  {
    if (guest, key) in db.receipts && db.receipts[(guest, key)].token == token {
      ReceiptMatches(db.attempts, guest, db.receipts[(guest, key)], token);
    }
    MatchedReplaySucceeds(world, db, guest, session, key, token, clock);
  }

  /** A start that does not get as far as its insert neither fails nor is answered afresh. */
  lemma EarlyStart(world: World, db: Db, guest: Id, session: Id, key: string, clock: Clock, freshId: Id)
    requires ReceiptsFit(db.attempts, db.receipts) && !StartReaches(world, db, guest, session, key, clock)
    ensures var result := Start(world, db, guest, session, key, clock, freshId).1; result != Failed && !Fresh(result)
  {
    if (guest, key) in db.receipts {
      assert ReceiptFits(db.attempts, guest, db.receipts[(guest, key)]);
    }
  }

  /** A start throws for one reason only, given that its id is new: its session ended between the check and the
      insert of the receipt. */
  lemma StartFailsOnlyWithItsSession(
    world: World, db: Db, guest: Id, session: Id, key: string, clock: Clock, freshId: Id)
    requires Inv(world, db) && freshId !in db.attempts
    ensures
      var steady := Clock(clock.session, clock.sampled, clock.session);
      Start(world, db, guest, session, key, clock, freshId).1 == Failed
      <==> Fresh(Start(world, db, guest, session, key, steady, freshId).1)
           && !world.SessionIsLive(guest, session, clock.receipt)
  {
    var steady := Clock(clock.session, clock.sampled, clock.session);
    if StartReaches(world, db, guest, session, key, clock) {
      StartCases(world, db, guest, session, key, clock, freshId);
      StartCases(world, db, guest, session, key, steady, freshId);
      OpenCases(world, db, guest, session, key, world.CurrentRevision(clock.sampled).value, clock, freshId);
      OpenCases(world, db, guest, session, key, world.CurrentRevision(clock.sampled).value, steady, freshId);
    } else {
      EarlyStart(world, db, guest, session, key, clock, freshId);
      EarlyStart(world, db, guest, session, key, steady, freshId);
    }
  }
}
