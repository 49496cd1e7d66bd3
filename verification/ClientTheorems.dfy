/** What holds in every run of browser, network and server. */
module ClientTheorems {
  import opened Basics
  import opened AttemptEngine
  import opened GameplayLedger
  import opened GameplayInvariant
  import opened GameplayHistory
  import opened GameplayTheorems
  import opened GameplayResponses
  import opened ClientProtocol
  import opened ClientSystem

  /* ---- the page ---- */

  /** An action either makes a new operation, stored and under way, or holds on to nothing but what it held. */
  ghost predicate Creates(c: Client, c': Client, n: nat) {
    && Free(c) && c'.store.Some? && Storable(c'.store.value)
    && c'.flight.Some? && c'.flight.value.pending == c'.store.value
    && (c'.flight.value.fetch.Some? ==> c'.flight.value.fetch == Some(n)) && c'.recovery.None?
  }

  ghost predicate Keeps(c: Client, c': Client, n: nat) {
    && (c'.store.Some? ==> c'.store == c.store)
    && (c'.flight.Some? ==>
          || (c.flight.Some? && c'.flight.value.pending == c.flight.value.pending && c'.flight.value.fetch == c.flight.value.fetch)
          || (c.flight.None? && c.store == Some(c'.flight.value.pending) && c'.store == c.store
              && (c'.flight.value.fetch.Some? ==> c'.flight.value.fetch == Some(n))))
    && (c'.recovery.Some? && c'.recovery.value.Reconciling? ==>
          || (c'.recovery == c.recovery && c'.flight == c.flight)
          || (c'.flight.None? && c'.store == Some(c'.recovery.value.pending)))
    && (c'.recovery == Some(Replaying) ==> c'.flight.Some?)
  }

  /** Only a new mutation makes an operation. */
  predicate Makes(action: Action) { action.Submit? || action.StartCase? }

  ghost predicate Orderly(c: Client) {
    && (c.recovery == Some(Replaying) ==> c.flight.Some?)
    && (c.recovery.Some? && c.recovery.value.Reconciling? ==> c.flight.None?)
  }

  lemma SucceedingKeeps(c: Client, view: View, works: bool, n: nat)
    requires Orderly(c) && c.flight.Some?
    ensures Keeps(c, Succeed(c, view, works), n)
  {
  }

  lemma FailingKeeps(c: Client, error: ClientError, works: bool, n: nat)
    requires Orderly(c) && c.flight.Some?
    ensures Keeps(c, Fail(c, error, works), n)
  {
  }

  lemma RecoveryKeeps(c: Client, built: bool, n: nat)
    requires Orderly(c)
    ensures Keeps(c, ReplayPendingOperation(c, if built then Some(n) else None), n)
    ensures Keeps(c, ReconcilePendingOperation(c), n)
  {
  }

  lemma ReconcilingKeeps(c: Client, action: Action, n: nat)
    requires Orderly(c) && (action.CommandReconciled? || action.StartReconciled?)
    ensures Keeps(c, Next(c, action, n), n)
  {
  }

  lemma OtherActionsKeep(c: Client, action: Action, n: nat)
    requires !Makes(action) && Orderly(c)
    ensures Keeps(c, Next(c, action, n), n)
  {
    match action {
      case Succeeded(view, works) => if c.flight.Some? { SucceedingKeeps(c, view, works, n); }
      case Failed(error, works) => if c.flight.Some? { FailingKeeps(c, error, works, n); }
      case ReplayPending(built) => RecoveryKeeps(c, built, n);
      case ReconcilePending => RecoveryKeeps(c, false, n);
      case CommandReconciled(_, _, _) => ReconcilingKeeps(c, action, n);
      case StartReconciled(_, _, _) => ReconcilingKeeps(c, action, n);
      case _ =>
    }
  }

  /** The operation that a new mutation is about. */
  function Made(c: Client, action: Action): Pending
    requires Makes(action)
  {
    match action
    case Submit(key, expectedVersion, command, _, _) =>
      Pending(key, if c.displayed.None? then CommandOperation(0, expectedVersion, command)
                   else CommandOperation(c.displayed.value.attempt, expectedVersion, command))
    case StartCase(key, _, _) =>
      Pending(key, match c.currentCase
                   case Some(NotStarted(slot, closesAt)) => StartOperation(slot, closesAt)
                   case _ => StartOperation(0, 0))
  }

  lemma NewActionsCreate(c: Client, action: Action, n: nat)
    requires Makes(action)
    ensures var c' := Next(c, action, n);
      || c' == c
      || (Creates(c, c', n) && c'.store == Some(Made(c, action))
          && (action.Submit? ==> c.displayed.Some? && action.expectedVersion == c.displayed.value.version))
  {
  }

  /** The three outcomes of an action for the record of keys and requests. */
  lemma ActCases(s: System, action: Action)
    requires MayAct(s, action) && Coherent(s.client, s.latest, s.sent) && LatestIsIssued(s.latest, s.issued)
    ensures var c', s' := Next(s.client, action, |s.sent|), Act(s, action);
      if c' == s.client then s' == s
      else if Makes(action) then
        var p := Made(s.client, action);
        && Creates(s.client, c', |s.sent|) && c'.store == Some(p) && NeverUsed(s, p.key)
        && s'.client == c' && s'.latest == Some(p) && s'.issued == s.issued[p.key := p.op]
      else Keeps(s.client, c', |s.sent|) && s'.client == c' && s'.latest == s.latest && s'.issued == s.issued
  {
    if Makes(action) {
      NewActionsCreate(s.client, action, |s.sent|);
    } else {
      OtherActionsKeep(s.client, action, |s.sent|);
    }
  }

  lemma ActKeepsPage(s: System, action: Action)
    requires MayAct(s, action) && Coherent(s.client, s.latest, s.sent) && LatestIsIssued(s.latest, s.issued)
    ensures var s' := Act(s, action); Coherent(s'.client, s'.latest, s'.sent) && LatestIsIssued(s'.latest, s'.issued)
  {
    ActCases(s, action);
  }

  lemma ActKeepsSent(s: System, action: Action)
    requires MayAct(s, action) && Coherent(s.client, s.latest, s.sent) && LatestIsIssued(s.latest, s.issued)
    requires SentAsIssued(s.sent, s.issued)
    ensures SentAsIssued(Act(s, action).sent, Act(s, action).issued)
  {
    ActCases(s, action);
    ActKeepsPage(s, action);
  }

  /* ---- the server's side ---- */

  lemma AnswerStays(world: World, a: Db, b: Db, request: Request, result: Result)
    requires Evolves(a, b) && AnswerHolds(world, a, request, result)
    ensures AnswerHolds(world, b, request, result)
  {
    if request.CommandRequest? && result.Refused? && Lasting(ErrorOf(result)) {
      SpentStays(world, a, b, request);
    }
  }

  lemma SeenStays(a: Db, b: Db, v: View)
    requires Evolves(a, b) && Seen(a.attempts, v)
    ensures Seen(b.attempts, v)
  {
    assert RowEvolves(a.attempts[v.attempt], b.attempts[v.attempt]);
  }

  /** The refusals before the lock, and when a key counts as a conflict. */
  lemma EarlyRefusals(world: World, db: Db, guest: Id, session: Id, key: string, token: Fingerprint, clock: Clock)
    requires token.CommandToken? && !Reaches(world, db, guest, session, key, token, clock)
    ensures
      var result := Execute(world, db, guest, session, key, token.attempt, token.expectedVersion, token.command, clock).1;
      result.Refused? ==>
        || result.code in {InvalidCommand, SessionExpired, UnknownAttempt}
        || (result.code == Refusal.IdempotencyConflict && (guest, key) in db.receipts
            && !(db.receipts[(guest, key)].token == token && db.receipts[(guest, key)].attempt == token.attempt))
  {
  }

  lemma DecideNeverConflicts(world: World, db: Db, guest: Id, session: Id, token: Fingerprint, clock: Clock)
    requires token.CommandToken? && Owned(world, db, token.attempt, guest)
    ensures var d := Decide(world, db, guest, session, token, clock);
      d.Refuse? ==> d.code in {AttemptIsOver, Refusal.StaleVersion, UnknownEntity, EvidenceLimitReached}
  {
  }

  lemma NoCommandConflict(world: World, db: Db, request: Request, clock: Clock, freshId: Id)
    requires request.CommandRequest? && ReceiptsFit(db.attempts, db.receipts)
    requires (request.guest, request.key) in db.receipts ==>
      db.receipts[(request.guest, request.key)].token == TokenOf(request)
    ensures var result := Serve(world, db, request, clock, freshId).1;
      !(result.Refused? && result.code == Refusal.IdempotencyConflict)
  {
    var token := TokenOf(request);
    if Reaches(world, db, request.guest, request.session, request.key, token, clock) {
      ExecuteCases(world, db, request.guest, request.session, request.key, token, clock);
      DecideNeverConflicts(
        world, ExpireIfClosed(world, db, token.attempt, clock.sampled), request.guest, request.session, token, clock);
    } else {
      EarlyRefusals(world, db, request.guest, request.session, request.key, token, clock);
      if (request.guest, request.key) in db.receipts {
        assert ReceiptFits(db.attempts, request.guest, db.receipts[(request.guest, request.key)]);
      }
    }
  }

  lemma NoStartConflict(world: World, db: Db, guest: Id, session: Id, key: string, clock: Clock, freshId: Id)
    requires ReceiptsFit(db.attempts, db.receipts) && RowsFit(world, db.attempts)
    requires (guest, key) in db.receipts ==> db.receipts[(guest, key)].token == StartToken
    ensures var result := GameplayLedger.Start(world, db, guest, session, key, clock, freshId).1;
      !(result.Refused? && result.code == Refusal.IdempotencyConflict)
  {
    if (guest, key) in db.receipts {
      assert ReceiptFits(db.attempts, guest, db.receipts[(guest, key)]);
      assert RowFits(world, db.attempts[db.receipts[(guest, key)].attempt]);
    }
  }

  /** A key that always comes with the same operation is never refused as a conflict. */
  lemma NoConflict(world: World, db: Db, request: Request, clock: Clock, freshId: Id)
    requires Inv(world, db)
    requires (request.guest, request.key) in db.receipts ==>
      db.receipts[(request.guest, request.key)].token == TokenOf(request)
    ensures var result := Serve(world, db, request, clock, freshId).1;
      !(result.Refused? && result.code == Refusal.IdempotencyConflict)
  {
    match request {
      case StartRequest(guest, session, key) => NoStartConflict(world, db, guest, session, key, clock, freshId);
      case CommandRequest(_, _, _, _, _, _) => NoCommandConflict(world, db, request, clock, freshId);
    }
  }

  lemma StaleShows(
    world: World, db: Db, guest: Id, session: Id, token: Fingerprint, clock: Clock, code: Refusal, shown: Option<View>)
    requires token.CommandToken? && Owned(world, db, token.attempt, guest)
    requires Decide(world, db, guest, session, token, clock) == Refuse(code, shown) && code == Refusal.StaleVersion
    ensures shown.Some? && shown.value.version == db.attempts[token.attempt].version
  {
  }

  lemma StaleAnswerShows(
    world: World, db: Db, guest: Id, session: Id, key: string, token: Fingerprint, clock: Clock)
    requires Inv(world, db) && Reaches(world, db, guest, session, key, token, clock)
    ensures
      var result := Execute(world, db, guest, session, key, token.attempt, token.expectedVersion, token.command, clock).1;
      result.Refused? && result.code == Refusal.StaleVersion ==>
        result.shown.Some? && db.attempts[token.attempt].version <= result.shown.value.version
  {
    ExecuteCases(world, db, guest, session, key, token, clock);
    ExpireKeepsInv(world, db, token.attempt, clock.sampled);
    var current := ExpireIfClosed(world, db, token.attempt, clock.sampled);
    assert RowEvolves(db.attempts[token.attempt], current.attempts[token.attempt]);
    var d := Decide(world, current, guest, session, token, clock);
    if d.Refuse? && d.code == Refusal.StaleVersion {
      StaleShows(world, current, guest, session, token, clock, d.code, d.shown);
    }
  }

  /** A refusal that concerns neither the session, the key nor the owner. */
  lemma LastingCodes(request: Request, result: Result)
    requires request.CommandRequest? && result.Refused? && Lasting(ErrorOf(result))
    requires result.code == Refusal.StaleVersion ==>
      result.shown.Some? && request.expectedVersion <= result.shown.value.version
    ensures Conclusive(request, result)
    ensures result.code !in {InvalidCommand, SessionExpired, UnknownAttempt, Refusal.IdempotencyConflict}
  {
  }

  /** A command that is not ahead of its attempt: each lasting error that it is answered with is conclusive. */
  lemma LastingIsConclusive(world: World, db: Db, request: Request, clock: Clock, freshId: Id)
    requires Inv(world, db) && request.CommandRequest?
    requires request.attempt in db.attempts && request.expectedVersion <= db.attempts[request.attempt].version
    requires Serve(world, db, request, clock, freshId).1.Refused?
    requires Lasting(ErrorOf(Serve(world, db, request, clock, freshId).1))
    ensures Conclusive(request, Serve(world, db, request, clock, freshId).1)
  {
    var token := TokenOf(request);
    if Reaches(world, db, request.guest, request.session, request.key, token, clock) {
      StaleAnswerShows(world, db, request.guest, request.session, request.key, token, clock);
    } else {
      EarlyRefusals(world, db, request.guest, request.session, request.key, token, clock);
    }
    LastingCodes(request, Serve(world, db, request, clock, freshId).1);
  }

  /** A command does not ask for the current case. */
  lemma CommandsNeedNoCase(world: World, db: Db, request: Request, clock: Clock, freshId: Id)
    requires request.CommandRequest?
    ensures var result := Serve(world, db, request, clock, freshId).1;
      !(result.Refused? && result.code == Refusal.NoCurrentCase)
  {
    var token := TokenOf(request);
    if Reaches(world, db, request.guest, request.session, request.key, token, clock) {
      ExecuteCases(world, db, request.guest, request.session, request.key, token, clock);
      DecideNeverConflicts(
        world, ExpireIfClosed(world, db, token.attempt, clock.sampled), request.guest, request.session, token, clock);
    } else {
      EarlyRefusals(world, db, request.guest, request.session, request.key, token, clock);
    }
  }

  lemma NothingUnheard(world: World, db: Db, request: Request, clock: Clock, freshId: Id)
    requires Inv(world, db)
    requires (request.guest, request.key) in db.receipts ==>
      db.receipts[(request.guest, request.key)].token == TokenOf(request)
    ensures !Unheard(request, Serve(world, db, request, clock, freshId).1)
  {
    NoConflict(world, db, request, clock, freshId);
    if request.CommandRequest? {
      CommandsNeedNoCase(world, db, request, clock, freshId);
    }
  }

  /** What a delivery answers holds from then on. */
  lemma DeliveryHolds(world: World, db: Db, request: Request, clock: Clock, freshId: Id)
    requires Inv(world, db)
    requires (request.guest, request.key) in db.receipts ==>
      db.receipts[(request.guest, request.key)].token == TokenOf(request)
    requires request.CommandRequest? ==>
      request.attempt in db.attempts && request.expectedVersion <= db.attempts[request.attempt].version
    ensures var (after, result) := Serve(world, db, request, clock, freshId); AnswerHolds(world, after, request, result)
  {
    var (after, result) := Serve(world, db, request, clock, freshId);
    NothingUnheard(world, db, request, clock, freshId);
    ServeAnswers(world, db, request, clock, freshId);
    if request.CommandRequest? && result.Refused? && Lasting(ErrorOf(result)) {
      LastingIsConclusive(world, db, request, clock, freshId);
      ConclusiveIsSpent(world, db, request, clock, freshId);
    }
  }

  lemma ServedAsIssued(world: World, db: Db, request: Request, clock: Clock, freshId: Id, issued: map<string, Operation>)
    requires Inv(world, db) && ReceiptsAsIssued(db.receipts, issued)
    requires request.key in issued ==> TokenOf(request) == TokenFor(issued[request.key])
    ensures ReceiptsAsIssued(Serve(world, db, request, clock, freshId).0.receipts, issued)
  {
    ServeAnswers(world, db, request, clock, freshId);
  }

  lemma TakenAsIssued(world: World, db: Db, step: Step, issued: map<string, Operation>)
    requires Inv(world, db) && ReceiptsAsIssued(db.receipts, issued)
    requires step.Requested? ==> step.request.key !in issued
    ensures ReceiptsAsIssued(Take(world, db, step).receipts, issued)
  {
    match step {
      case Requested(request, clock, freshId) => ServedAsIssued(world, db, request, clock, freshId, issued);
      case AttemptRead(guest, id, now) =>
        ReadsMayExpire(world, db, guest, id, now, now);
        MayExpireKeepsInv(world, db, Take(world, db, step), id, now);
      case CaseRead(guest, first, now) =>
        ReadsMayExpire(world, db, guest, 0, first, now);
        var id :| MayExpire(world, db, Take(world, db, step), id, now);
        MayExpireKeepsInv(world, db, Take(world, db, step), id, now);
      case ProfileRead(guest, active, now) => ExpireAllKeepsInv(world, db, guest, active, now);
    }
  }

  /* ---- every event keeps what holds ---- */

  lemma AnswersStay(world: World, a: Db, b: Db, sent: seq<Request>, answers: set<(nat, Result)>)
    requires Evolves(a, b) && AnswersHold(world, a, sent, answers)
    ensures AnswersHold(world, b, sent, answers)
  {
    forall r <- answers ensures r.0 < |sent| && AnswerHolds(world, b, sent[r.0], r.1) {
      AnswerStays(world, a, b, sent[r.0], r.1);
    }
  }

  lemma AllSeenStays(a: Db, b: Db, s: System)
    requires Evolves(a, b) && AllSeen(a.attempts, s)
    ensures AllSeen(b.attempts, s)
  {
    forall v | Seen(a.attempts, v) ensures Seen(b.attempts, v) {
      SeenStays(a, b, v);
    }
    forall shown <- s.cases ensures SeenCase(b.attempts, shown) {
      assert SeenCase(a.attempts, shown);
    }
  }

  lemma NotAheadStays(a: Db, b: Db, issued: map<string, Operation>)
    requires Evolves(a, b) && NotAhead(a.attempts, issued)
    ensures NotAhead(b.attempts, issued)
  {
    forall key <- issued | issued[key].CommandOperation?
      ensures issued[key].attempt in b.attempts
      ensures issued[key].expectedVersion <= b.attempts[issued[key].attempt].version
    {
      assert RowEvolves(a.attempts[issued[key].attempt], b.attempts[issued[key].attempt]);
    }
  }

  lemma TablesMayMove(world: World, s: System, db: Db)
    requires Holds(world, s) && Inv(world, db) && Evolves(s.db, db) && ReceiptsAsIssued(db.receipts, s.issued)
    ensures Holds(world, s.(db := db))
  {
    AnswersStay(world, s.db, db, s.sent, s.answers);
    AllSeenStays(s.db, db, s);
    NotAheadStays(s.db, db, s.issued);
  }

  lemma ProjectionIsSeen(world: World, db: Db, id: Id)
    requires id in db.attempts && db.attempts[id].revision in world.revisions
    ensures Seen(db.attempts, Project(world, db, id))
  {
  }

  lemma AnswerMayCome(world: World, s: System, n: nat, result: Result)
    requires Holds(world, s) && n < |s.sent| && AnswerHolds(world, s.db, s.sent[n], result)
    requires result.Ok? ==> Seen(s.db.attempts, result.view)
    ensures Holds(world, s.(answers := s.answers + {(n, result)}))
  {
  }

  lemma AnswerIsSeen(world: World, db: Db, request: Request, clock: Clock, freshId: Id)
    requires Inv(world, db)
    ensures var (after, result) := Serve(world, db, request, clock, freshId); result.Ok? ==> Seen(after.attempts, result.view)
  {
    var (after, result) := Serve(world, db, request, clock, freshId);
    if result.Ok? {
      AnswerShowsTables(world, db, request, clock, freshId);
      ProjectionIsSeen(world, after, result.view.attempt);
    }
  }

  lemma ReadIsSeen(world: World, db: Db, guest: Id, id: Id, now: Time)
    ensures var (after, view) := ReadOwned(world, db, guest, id, now); view.Some? ==> Seen(after.attempts, view.value)
  {
  }

  lemma CaseIsSeen(world: World, db: Db, guest: Id, first: Time, now: Time)
    ensures var (after, shown) := ReadCurrent(world, db, guest, first, now);
      shown.Some? ==> SeenCase(after.attempts, shown.value)
  {
    var revision := world.CurrentRevision(first);
    if revision.Some? && revision.value in world.revisions
       && (guest, world.revisions[revision.value].slot) in db.slots
    {
      ReadIsSeen(world, db, guest, db.slots[(guest, world.revisions[revision.value].slot)], now);
    }
  }

  lemma DeliveryIs(world: World, s: System, n: nat, clock: Clock, freshId: Id)
    requires n < |s.sent|
    ensures var (after, result) := Serve(world, s.db, s.sent[n], clock, freshId);
      Happen(world, s, Delivered(n, clock, freshId)) == s.(db := after).(answers := s.answers + {(n, result)})
  {
  }

  lemma DeliveryKeeps(world: World, s: System, n: nat, clock: Clock, freshId: Id)
    requires Holds(world, s) && n < |s.sent|
    ensures Holds(world, Happen(world, s, Delivered(n, clock, freshId)))
  {
    var request := s.sent[n];
    var (after, result) := Serve(world, s.db, request, clock, freshId);
    assert Carries(request, Pending(request.key, s.issued[request.key]));
    ServeKeepsInv(world, s.db, request, clock, freshId);
    ServedAsIssued(world, s.db, request, clock, freshId, s.issued);
    TablesMayMove(world, s, after);
    DeliveryHolds(world, s.db, request, clock, freshId);
    AnswerIsSeen(world, s.db, request, clock, freshId);
    AnswerMayCome(world, s.(db := after), n, result);
    DeliveryIs(world, s, n, clock, freshId);
  }

  lemma ElsewhereKeeps(world: World, s: System, step: Step)
    requires Holds(world, s) && (step.Requested? ==> step.request.key !in s.issued)
    ensures Holds(world, Happen(world, s, Elsewhere(step)))
  {
    TakeKeepsInv(world, s.db, step);
    TakenAsIssued(world, s.db, step, s.issued);
    TablesMayMove(world, s, Take(world, s.db, step));
  }

  lemma ViewMayCome(world: World, s: System, view: Option<View>)
    requires Holds(world, s) && (view.Some? ==> Seen(s.db.attempts, view.value))
    ensures Holds(world, s.(views := s.views + SetOf(view)))
  {
  }

  lemma CaseMayCome(world: World, s: System, shown: Option<CaseView>)
    requires Holds(world, s) && (shown.Some? ==> SeenCase(s.db.attempts, shown.value))
    ensures Holds(world, s.(cases := s.cases + SetOf(shown)))
  {
  }

  /** The tables moved on without a receipt, and what was read shows them. */
  ghost predicate MovedOn(world: World, a: Db, b: Db) {
    Inv(world, b) && Evolves(a, b) && b.receipts == a.receipts
  }

  lemma ViewReadKeeps(world: World, s: System, db: Db, view: Option<View>)
    requires Holds(world, s) && MovedOn(world, s.db, db) && (view.Some? ==> Seen(db.attempts, view.value))
    ensures Holds(world, s.(db := db, views := s.views + SetOf(view)))
  {
    TablesMayMove(world, s, db);
    ViewMayCome(world, s.(db := db), view);
  }

  lemma CaseReadKeeps(world: World, s: System, db: Db, shown: Option<CaseView>)
    requires Holds(world, s) && MovedOn(world, s.db, db) && (shown.Some? ==> SeenCase(db.attempts, shown.value))
    ensures Holds(world, s.(db := db, cases := s.cases + SetOf(shown)))
  {
    TablesMayMove(world, s, db);
    CaseMayCome(world, s.(db := db), shown);
  }

  lemma AttemptReadFacts(world: World, db: Db, guest: Id, id: Id, now: Time)
    requires Inv(world, db)
    ensures var (after, view) := ReadOwned(world, db, guest, id, now);
      MovedOn(world, db, after) && (view.Some? ==> Seen(after.attempts, view.value))
  {
    ReadsMayExpire(world, db, guest, id, now, now);
    MayExpireKeepsInv(world, db, ReadOwned(world, db, guest, id, now).0, id, now);
    ReadIsSeen(world, db, guest, id, now);
  }

  lemma CaseReadFacts(world: World, db: Db, guest: Id, first: Time, now: Time)
    requires Inv(world, db)
    ensures var (after, shown) := ReadCurrent(world, db, guest, first, now);
      MovedOn(world, db, after) && (shown.Some? ==> SeenCase(after.attempts, shown.value))
  {
    ReadsMayExpire(world, db, guest, 0, first, now);
    var id :| MayExpire(world, db, ReadCurrent(world, db, guest, first, now).0, id, now);
    MayExpireKeepsInv(world, db, ReadCurrent(world, db, guest, first, now).0, id, now);
    CaseIsSeen(world, db, guest, first, now);
  }

  lemma AttemptServedIs(world: World, s: System, guest: Id, id: Id, now: Time)
    ensures Happen(world, s, AttemptServed(guest, id, now)) ==
      s.(db := ReadOwned(world, s.db, guest, id, now).0,
         views := s.views + SetOf(ReadOwned(world, s.db, guest, id, now).1))
  {
  }

  lemma AttemptServedKeeps(world: World, s: System, guest: Id, id: Id, now: Time)
    requires Holds(world, s)
    ensures Holds(world, Happen(world, s, AttemptServed(guest, id, now)))
  {
    AttemptReadFacts(world, s.db, guest, id, now);
    ViewReadKeeps(world, s, ReadOwned(world, s.db, guest, id, now).0, ReadOwned(world, s.db, guest, id, now).1);
    AttemptServedIs(world, s, guest, id, now);
  }

  lemma CaseServedIs(world: World, s: System, guest: Id, first: Time, now: Time)
    ensures Happen(world, s, CaseServed(guest, first, now)) ==
      s.(db := ReadCurrent(world, s.db, guest, first, now).0,
         cases := s.cases + SetOf(ReadCurrent(world, s.db, guest, first, now).1))
  {
  }

  lemma CaseServedKeeps(world: World, s: System, guest: Id, first: Time, now: Time)
    requires Holds(world, s)
    ensures Holds(world, Happen(world, s, CaseServed(guest, first, now)))
  {
    CaseReadFacts(world, s.db, guest, first, now);
    CaseReadKeeps(world, s, ReadCurrent(world, s.db, guest, first, now).0, ReadCurrent(world, s.db, guest, first, now).1);
    CaseServedIs(world, s, guest, first, now);
  }

  /** Whatever the page shows it has received. */
  lemma ShownIsReceived(s: System, action: Action)
    requires MayAct(s, action)
    ensures var c' := Next(s.client, action, |s.sent|);
      c'.displayed.Some? ==>
        || c'.displayed == s.client.displayed
        || c'.displayed.value in s.views
        || exists n: nat, outcome, replayed :: (n, Ok(outcome, replayed, c'.displayed.value)) in s.answers
  {
  }

  lemma ActKeepsSeen(s: System, action: Action)
    requires MayAct(s, action) && AllSeen(s.db.attempts, s)
    ensures AllSeen(s.db.attempts, Act(s, action))
  {
    ShownIsReceived(s, action);
    var c' := Next(s.client, action, |s.sent|);
    if c'.displayed.Some? && c'.displayed != s.client.displayed && c'.displayed.value !in s.views {
      var n: nat, outcome, replayed :| (n, Ok(outcome, replayed, c'.displayed.value)) in s.answers;
      var a := (n, Ok(outcome, replayed, c'.displayed.value));
      assert Seen(s.db.attempts, a.1.view);
    }
  }

  lemma ActKeepsKeys(s: System, action: Action)
    requires MayAct(s, action) && Coherent(s.client, s.latest, s.sent) && LatestIsIssued(s.latest, s.issued)
    requires ReceiptsAsIssued(s.db.receipts, s.issued) && AllSeen(s.db.attempts, s) && NotAhead(s.db.attempts, s.issued)
    ensures ReceiptsAsIssued(s.db.receipts, Act(s, action).issued)
    ensures NotAhead(s.db.attempts, Act(s, action).issued)
  {
    ActCases(s, action);
    NewActionsCreateFits(s, action);
  }

  lemma NewActionsCreateFits(s: System, action: Action)
    requires AllSeen(s.db.attempts, s)
    ensures Makes(action) && Next(s.client, action, |s.sent|) != s.client && action.Submit? ==>
      var op := Made(s.client, action).op;
      op.attempt in s.db.attempts && op.expectedVersion <= s.db.attempts[op.attempt].version
  {
    if Makes(action) {
      NewActionsCreate(s.client, action, |s.sent|);
    }
  }

  lemma ActKeeps(world: World, s: System, action: Action)
    requires Holds(world, s) && MayAct(s, action)
    ensures Holds(world, Act(s, action))
  {
    ActKeepsPage(s, action);
    ActKeepsSent(s, action);
    ActKeepsSeen(s, action);
    ActKeepsKeys(s, action);
    ActKeepsAnswers(world, s, action);
  }

  lemma ActKeepsAnswers(world: World, s: System, action: Action)
    requires AnswersHold(world, s.db, s.sent, s.answers)
    ensures AnswersHold(world, s.db, Act(s, action).sent, Act(s, action).answers)
  {
  }

  lemma EventKeeps(world: World, s: System, event: Event)
    requires Holds(world, s) && Possible(s, event)
    ensures Holds(world, Happen(world, s, event))
  {
    match event {
      case Acted(action) => ActKeeps(world, s, action);
      case CookieChanged(guest, session) =>
      case KeyBarred(key) =>
      case Delivered(n, clock, freshId) => DeliveryKeeps(world, s, n, clock, freshId);
      case Elsewhere(step) => ElsewhereKeeps(world, s, step);
      case AttemptServed(guest, id, now) => AttemptServedKeeps(world, s, guest, id, now);
      case CaseServed(guest, first, now) => CaseServedKeeps(world, s, guest, first, now);
    }
  }

  lemma {:induction false} EveryRunHolds(world: World, begin: System, events: seq<Event>)
    requires Holds(world, begin)
    ensures Holds(world, After(world, begin, events))
  {
    if events != [] {
      var before := After(world, begin, events[..|events| - 1]);
      EveryRunHolds(world, begin, events[..|events| - 1]);
      if Possible(before, events[|events| - 1]) {
        EventKeeps(world, before, events[|events| - 1]);
      }
    }
  }

  lemma BeginHolds(world: World, guest: Id, session: Id)
    requires world.Valid()
    ensures Holds(world, Begin(guest, session))
  {
    EmptyInv(world);
  }
}
