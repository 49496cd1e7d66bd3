/** The promises of the command protocol from end to end. */
module ClientGuarantees {
  import opened Basics
  import opened AttemptEngine
  import opened GameplayLedger
  import opened GameplayInvariant
  import opened GameplayHistory
  import opened GameplayTheorems
  import opened ClientProtocol
  import opened ClientSystem
  import opened ClientTheorems

  /* ---- what is sent ---- */

  /** Every request sent equals the record in storage at that moment, under the cookie of that moment. */
  lemma EverySendIsStored(world: World, s: System, event: Event)
    requires Holds(world, s) && Possible(s, event)
    ensures var s' := Happen(world, s, event);
      || s'.sent == s.sent
      || (s'.client.store.Some? && s'.sent == s.sent + [RequestOf(s'.client.store.value, s.guest, s.session)])
  {
    match event {
      case Acted(action) => ActCases(s, action);
      case _ =>
    }
  }

  /** A new key is made only when no record is stored, no call runs and no recovery is under way; the key
      is then the only one the page knows of. */
  lemma NewKeyOnlyWhenFree(world: World, s: System, event: Event)
    requires Holds(world, s) && Possible(s, event)
    requires Happen(world, s, event).issued != s.issued
    ensures var s' := Happen(world, s, event);
      && Free(s.client)
      && s'.client.store.Some? && s'.latest == s'.client.store
      && s'.client.store.value.key !in s.issued
      && (forall n | 0 <= n < |s.sent| :: s.sent[n].key != s'.client.store.value.key)
  {
    match event {
      case Acted(action) => ActCases(s, action);
      case _ =>
    }
  }

  /** Requests of one key are sent in one block: once a newer key was sent, an older one never is again. */
  ghost predicate InBlocks(sent: seq<Request>, latest: Option<Pending>) {
    && (forall i, j, k | 0 <= i <= j <= k < |sent| && sent[i].key == sent[k].key :: sent[j].key == sent[i].key)
    && (latest.Some? ==>
          forall i, j | 0 <= i <= j < |sent| && sent[i].key == latest.value.key :: sent[j].key == latest.value.key)
  }

  lemma BlocksGrow(sent: seq<Request>, latest: Pending, request: Request)
    requires InBlocks(sent, Some(latest)) && request.key == latest.key
    ensures InBlocks(sent + [request], Some(latest))
  {
  }

  lemma BlocksTurn(sent: seq<Request>, latest: Option<Pending>, next: Pending)
    requires InBlocks(sent, latest) && forall n | 0 <= n < |sent| :: sent[n].key != next.key
    ensures InBlocks(sent, Some(next))
  {
  }

  /** The latest operation changes only to one with a new key. */
  lemma LatestTurns(world: World, s: System, event: Event)
    requires Holds(world, s) && Possible(s, event)
    ensures var s' := Happen(world, s, event);
      s'.latest != s.latest ==>
        s'.latest.Some? && forall n | 0 <= n < |s.sent| :: s.sent[n].key != s'.latest.value.key
  {
    if event.Acted? {
      ActCases(s, event.action);
    }
  }

  lemma EventKeepsBlocks(world: World, s: System, event: Event)
    requires Holds(world, s) && Possible(s, event) && InBlocks(s.sent, s.latest)
    ensures InBlocks(Happen(world, s, event).sent, Happen(world, s, event).latest)
  {
    var s' := Happen(world, s, event);
    EverySendIsStored(world, s, event);
    EventKeeps(world, s, event);
    LatestTurns(world, s, event);
    if s'.latest != s.latest {
      BlocksTurn(s.sent, s.latest, s'.latest.value);
    }
    if s'.sent != s.sent {
      BlocksGrow(s.sent, s'.latest.value, RequestOf(s'.client.store.value, s.guest, s.session));
    }
  }

  lemma {:induction false} EveryRunSendsInBlocks(world: World, guest: Id, session: Id, events: seq<Event>)
    requires world.Valid()
    ensures var s := After(world, Begin(guest, session), events); InBlocks(s.sent, s.latest)
  {
    if events != [] {
      var shorter := events[..|events| - 1];
      var before := After(world, Begin(guest, session), shorter);
      EveryRunSendsInBlocks(world, guest, session, shorter);
      BeginHolds(world, guest, session);
      EveryRunHolds(world, Begin(guest, session), shorter);
      if Possible(before, events[|events| - 1]) {
        EventKeepsBlocks(world, before, events[|events| - 1]);
      }
    }
  }

  /* ---- at most once ---- */

  ghost predicate CommitsNow(world: World, s: System, event: Event, guest: Id, key: string) {
    Possible(s, event) &&
    match event
    case Delivered(n, clock, freshId) =>
      s.sent[n].guest == guest && s.sent[n].key == key && Fresh(Serve(world, s.db, s.sent[n], clock, freshId).1)
    case Elsewhere(Requested(request, clock, freshId)) =>
      request.guest == guest && request.key == key && Fresh(Serve(world, s.db, request, clock, freshId).1)
    case _ => false
  }

  /** How often a key of a guest takes effect in a run. */
  ghost function Commits(world: World, begin: System, events: seq<Event>, guest: Id, key: string): nat {
    if events == [] then 0
    else
      var shorter := events[..|events| - 1];
      Commits(world, begin, shorter, guest, key)
      + if CommitsNow(world, After(world, begin, shorter), events[|events| - 1], guest, key) then 1 else 0
  }

  lemma ServedReceipts(world: World, db: Db, request: Request, clock: Clock, freshId: Id, k: (Id, string))
    requires Inv(world, db)
    ensures var (after, result) := Serve(world, db, request, clock, freshId);
      var now := Fresh(result) && k == (request.guest, request.key);
      && (now ==> k !in db.receipts)
      && (k in after.receipts <==> k in db.receipts || now)
  {
    ServeAnswers(world, db, request, clock, freshId);
  }

  /** A request leaves the receipts as they are, or adds the one of its key. */
  ghost predicate Notes(a: Receipts, b: Receipts, now: bool, k: (Id, string)) {
    (now ==> k !in a) && (k in b <==> k in a || now)
  }

  lemma DeliveredReceipts(world: World, s: System, n: nat, clock: Clock, freshId: Id, guest: Id, key: string)
    requires Inv(world, s.db) && n < |s.sent| && s.sent[n].key !in s.barred
    ensures var event := Delivered(n, clock, freshId);
      Notes(s.db.receipts, Happen(world, s, event).db.receipts, CommitsNow(world, s, event, guest, key), (guest, key))
  {
    ServedReceipts(world, s.db, s.sent[n], clock, freshId, (guest, key));
    DeliveryIs(world, s, n, clock, freshId);
  }

  lemma RequestedReceipts(
    world: World, s: System, request: Request, clock: Clock, freshId: Id, guest: Id, key: string)
    requires Inv(world, s.db) && request.key !in s.issued
    ensures var event := Elsewhere(Requested(request, clock, freshId));
      Notes(s.db.receipts, Happen(world, s, event).db.receipts, CommitsNow(world, s, event, guest, key), (guest, key))
  {
    ServedReceipts(world, s.db, request, clock, freshId, (guest, key));
  }

  lemma EventReceipts(world: World, s: System, event: Event, guest: Id, key: string)
    requires Inv(world, s.db) && Possible(s, event)
    ensures
      Notes(s.db.receipts, Happen(world, s, event).db.receipts, CommitsNow(world, s, event, guest, key), (guest, key))
  {
    match event {
      case Acted(_) =>
      case CookieChanged(_, _) =>
      case KeyBarred(_) =>
      case Delivered(n, clock, freshId) => DeliveredReceipts(world, s, n, clock, freshId, guest, key);
      case Elsewhere(Requested(request, clock, freshId)) =>
        RequestedReceipts(world, s, request, clock, freshId, guest, key);
      case Elsewhere(step) => ReadReceipts(world, s.db, step);
      case AttemptServed(g, id, now) => ReadReceipts(world, s.db, AttemptRead(g, id, now));
      case CaseServed(g, first, now) => ReadReceipts(world, s.db, CaseRead(g, first, now));
    }
  }

  /** End to end, a key takes effect at most once, whatever is lost, repeated, reordered or reloaded: once
      exactly when its receipt is in the tables. */
  lemma {:induction false} AtMostOnce(world: World, start: Id, session: Id, events: seq<Event>, guest: Id, key: string)
    requires world.Valid()
    ensures Commits(world, Begin(start, session), events, guest, key)
         == if (guest, key) in After(world, Begin(start, session), events).db.receipts then 1 else 0
  {
    var begin := Begin(start, session);
    if events != [] {
      var shorter := events[..|events| - 1];
      AtMostOnce(world, start, session, shorter, guest, key);
      BeginHolds(world, start, session);
      EveryRunHolds(world, begin, shorter);
      if Possible(After(world, begin, shorter), events[|events| - 1]) {
        EventReceipts(world, After(world, begin, shorter), events[|events| - 1], guest, key);
      }
    }
  }

  /** And a command's key takes effect for one guest only, the owner of its attempt. */
  lemma CommandKeyHasOneGuest(world: World, s: System, key: string, guest: Id)
    requires Holds(world, s) && key in s.issued && s.issued[key].CommandOperation?
    requires (guest, key) in s.db.receipts
    ensures s.issued[key].attempt in s.db.attempts && s.db.attempts[s.issued[key].attempt].guest == guest
  {
    assert ReceiptFits(s.db.attempts, guest, s.db.receipts[(guest, key)]);
  }

  /** A request of the key went out under the guest. */
  ghost predicate SentUnder(sent: seq<Request>, guest: Id, key: string) {
    exists n :: 0 <= n < |sent| && sent[n].guest == guest && sent[n].key == key
  }

  /** What this page's keys have done was asked for under the guest that it was done for. */
  ghost predicate ReceiptsAsked(receipts: Receipts, sent: seq<Request>, issued: map<string, Operation>) {
    forall k <- receipts | k.1 in issued :: SentUnder(sent, k.0, k.1)
  }

  lemma SentUnderStays(world: World, s: System, event: Event, guest: Id, key: string)
    requires Holds(world, s) && Possible(s, event) && SentUnder(s.sent, guest, key)
    ensures SentUnder(Happen(world, s, event).sent, guest, key)
  {
    EverySendIsStored(world, s, event);
    var n :| 0 <= n < |s.sent| && s.sent[n].guest == guest && s.sent[n].key == key;
    assert Happen(world, s, event).sent[n] == s.sent[n];
  }

  /** A key that is new has no receipt. */
  lemma NewKeysAreUnused(world: World, s: System, event: Event, guest: Id, key: string)
    requires Holds(world, s) && Possible(s, event) && key !in s.issued && key in Happen(world, s, event).issued
    ensures (guest, key) !in s.db.receipts && !CommitsNow(world, s, event, guest, key)
  {
    if event.Acted? {
      ActCases(s, event.action);
    }
  }

  lemma EventKeepsAsked(world: World, s: System, event: Event)
    requires Holds(world, s) && Possible(s, event) && ReceiptsAsked(s.db.receipts, s.sent, s.issued)
    ensures var s' := Happen(world, s, event); ReceiptsAsked(s'.db.receipts, s'.sent, s'.issued)
  {
    var s' := Happen(world, s, event);
    forall k <- s'.db.receipts | k.1 in s'.issued ensures SentUnder(s'.sent, k.0, k.1) {
      EventReceipts(world, s, event, k.0, k.1);
      if k.1 !in s.issued {
        NewKeysAreUnused(world, s, event, k.0, k.1);
      } else if k !in s.db.receipts {
        assert SentUnder(s.sent, k.0, k.1) by {
          assert s.sent[event.n].guest == k.0 && s.sent[event.n].key == k.1;
        }
      }
      SentUnderStays(world, s, event, k.0, k.1);
    }
  }

  lemma {:induction false} EveryRunAsks(world: World, start: Id, session: Id, events: seq<Event>)
    requires world.Valid()
    ensures var s := After(world, Begin(start, session), events); ReceiptsAsked(s.db.receipts, s.sent, s.issued)
  {
    if events != [] {
      var shorter := events[..|events| - 1];
      var before := After(world, Begin(start, session), shorter);
      EveryRunAsks(world, start, session, shorter);
      BeginHolds(world, start, session);
      EveryRunHolds(world, Begin(start, session), shorter);
      if Possible(before, events[|events| - 1]) {
        EventKeepsAsked(world, before, events[|events| - 1]);
      }
    }
  }

  /** All requests of the key went out under one guest. */
  ghost predicate OneSender(sent: seq<Request>, key: string) {
    forall a: Id, b: Id | SentUnder(sent, a, key) && SentUnder(sent, b, key) :: a == b
  }

  /** A key of the page takes effect for one guest at most, if it is a command's or was sent under one guest only. */
  lemma KeyHasOneGuest(world: World, start: Id, session: Id, events: seq<Event>, key: string, a: Id, b: Id)
    requires world.Valid() && key in After(world, Begin(start, session), events).issued
    requires var s := After(world, Begin(start, session), events);
      s.issued[key].CommandOperation? || OneSender(s.sent, key)
    requires Commits(world, Begin(start, session), events, a, key) > 0
    requires Commits(world, Begin(start, session), events, b, key) > 0
    ensures a == b
  {
    var s := After(world, Begin(start, session), events);
    AtMostOnce(world, start, session, events, a, key);
    AtMostOnce(world, start, session, events, b, key);
    BeginHolds(world, start, session);
    EveryRunHolds(world, Begin(start, session), events);
    if s.issued[key].CommandOperation? {
      CommandKeyHasOneGuest(world, s, key, a);
      CommandKeyHasOneGuest(world, s, key, b);
    } else {
      EveryRunAsks(world, start, session, events);
      assert SentUnder(s.sent, (a, key).0, (a, key).1) && SentUnder(s.sent, (b, key).0, (b, key).1);
    }
  }

  /* ---- what is known when a record is dropped ---- */

  /** No guest can commit the operation any more, under any key. */
  ghost predicate Over(world: World, db: Db, op: Operation)
    requires op.CommandOperation?
  {
    && op.attempt in db.attempts
    && var row := db.attempts[op.attempt];
       || row.at.state != Active
       || op.expectedVersion < row.version
       || (op.expectedVersion == row.version && row.revision in world.revisions && op.command != Malformed
           && match Attempted(world, row, op.command)
              case None => true
              case Some((t, _, _)) => !t.Accepted?)
  }

  lemma OverStays(world: World, a: Db, b: Db, op: Operation)
    requires op.CommandOperation? && Over(world, a, op) && Evolves(a, b)
    ensures Over(world, b, op)
  {
    assert RowEvolves(a.attempts[op.attempt], b.attempts[op.attempt]);
  }

  lemma SpentIsOver(world: World, db: Db, request: Request, p: Pending)
    requires Inv(world, db) && request.CommandRequest? && Carries(request, p) && Spent(world, db, request)
    requires (request.guest, request.key) in db.receipts ==>
      db.receipts[(request.guest, request.key)].token == TokenOf(request)
    ensures Over(world, db, p.op)
  {
    if (request.guest, request.key) in db.receipts {
      assert ReceiptFits(db.attempts, request.guest, db.receipts[(request.guest, request.key)]);
    }
  }

  lemma OverIsSpent(world: World, db: Db, request: Request, p: Pending)
    requires request.CommandRequest? && Carries(request, p) && Over(world, db, p.op)
    ensures Spent(world, db, request)
  {
  }

  lemma CommittedIsOver(world: World, db: Db, request: Request, p: Pending, attempt: Id, outcome: OutcomeCode)
    requires ReceiptsFit(db.attempts, db.receipts) && request.CommandRequest? && Carries(request, p)
    requires Receipted(db, request, attempt, outcome)
    ensures Over(world, db, p.op)
  {
    assert ReceiptFits(db.attempts, request.guest, db.receipts[(request.guest, request.key)]);
  }

  lemma HeldIsOver(world: World, db: Db, request: Request, p: Pending, result: Result)
    requires Inv(world, db) && request.CommandRequest? && Carries(request, p)
    requires AnswerHolds(world, db, request, result)
    requires (request.guest, request.key) in db.receipts ==>
      db.receipts[(request.guest, request.key)].token == TokenOf(request)
    requires result.Ok? || (result.Refused? && Lasting(ErrorOf(result)))
    ensures Over(world, db, p.op)
  {
    if result.Ok? {
      CommittedIsOver(world, db, request, p, result.view.attempt, result.outcome);
    } else {
      SpentIsOver(world, db, request, p);
    }
  }

  /** The answer to the call in progress settles the command for good. */
  lemma AnswerSettles(world: World, s: System, f: Flight, result: Result)
    requires Holds(world, s) && s.client.flight == Some(f) && AnsweredWith(s, f, result)
    requires f.pending.op.CommandOperation?
    requires result.Ok? || (result.Refused? && Lasting(ErrorOf(result)))
    ensures Over(world, s.db, f.pending.op)
  {
    var a := (f.fetch.value, result);
    assert AnswerHolds(world, s.db, s.sent[a.0], a.1);
    HeldIsOver(world, s.db, s.sent[a.0], f.pending, result);
  }

  lemma AnswerIsHeard(world: World, s: System, f: Flight, result: Result)
    requires AnswersHold(world, s.db, s.sent, s.answers) && AnsweredWith(s, f, result)
    ensures f.fetch.value < |s.sent| && !Unheard(s.sent[f.fetch.value], result)
  {
    var a := (f.fetch.value, result);
    assert AnswerHolds(world, s.db, s.sent[a.0], a.1);
  }

  /** The ways in which a command's record is dropped knowingly: after its success, after a verdict of the
      gameplay repository, or because a read has shown its outcome. */
  predicate Knowingly(action: Action) {
    match action
    case Succeeded(_, _) => true
    case Failed(error, _) => !OnTheWay(error)
    case CommandReconciled(_, _, _) => true
    case _ => false
  }

  lemma LastingResult(request: Request, error: ClientError, result: Result)
    requires !result.Ok? && ErrorOf(result) == error && !OnTheWay(error)
    requires request.CommandRequest? && !Unheard(request, result)
    ensures result.Refused? && Lasting(ErrorOf(result))
  {
  }

  /** A verdict cannot have come from the way: it is the answer to the call in progress. */
  lemma RefusalSettles(world: World, s: System, f: Flight, error: ClientError)
    requires Holds(world, s) && s.client.flight == Some(f) && f.pending.op.CommandOperation? && !OnTheWay(error)
    requires exists result :: AnsweredWith(s, f, result) && !result.Ok? && ErrorOf(result) == error
    ensures Over(world, s.db, f.pending.op)
  {
    var result :| AnsweredWith(s, f, result) && !result.Ok? && ErrorOf(result) == error;
    AnswerIsHeard(world, s, f, result);
    LastingResult(s.sent[f.fetch.value], error, result);
    AnswerSettles(world, s, f, result);
  }

  lemma SuccessSettles(world: World, s: System, f: Flight, view: View)
    requires Holds(world, s) && s.client.flight == Some(f) && f.pending.op.CommandOperation?
    requires exists outcome, replayed :: AnsweredWith(s, f, Ok(outcome, replayed, view))
    ensures Over(world, s.db, f.pending.op)
  {
    var outcome, replayed :| AnsweredWith(s, f, Ok(outcome, replayed, view));
    AnswerSettles(world, s, f, Ok(outcome, replayed, view));
  }

  lemma ProofSettles(world: World, s: System, op: Operation, view: View, names: map<Id, string>)
    requires AllSeen(s.db.attempts, s) && view in s.views && op.CommandOperation? && view.attempt == op.attempt
    requires Proven(op, view, names)
    ensures Over(world, s.db, op)
  {
    assert Seen(s.db.attempts, view);
  }

  predicate HoldsCommand(s: System) {
    s.client.store.Some? && s.client.store.value.op.CommandOperation?
  }

  /** The record goes with the operation of the call in progress, or with a proof of its outcome. */
  predicate Grounds(s: System, action: Action)
    requires HoldsCommand(s) && Knowingly(action)
  {
    var op := s.client.store.value.op;
    if action.CommandReconciled? then
      action.acceptedView.Some? && action.acceptedView.value.attempt == op.attempt
      && Proven(op, action.acceptedView.value, action.names)
    else s.client.flight.Some? && s.client.flight.value.pending.op == op
  }

  lemma DroppedOnGrounds(s: System, action: Action)
    requires Coherent(s.client, s.latest, s.sent) && HoldsCommand(s) && Knowingly(action) && MayAct(s, action)
    requires Next(s.client, action, |s.sent|).store.None?
    ensures Grounds(s, action)
  {
  }

  lemma GroundsSettle(world: World, s: System, action: Action)
    requires Holds(world, s) && MayAct(s, action) && HoldsCommand(s) && Knowingly(action) && Grounds(s, action)
    ensures Over(world, s.db, s.client.store.value.op)
  {
    var op := s.client.store.value.op;
    if action.Succeeded? {
      SuccessSettles(world, s, s.client.flight.value, action.view);
    } else if action.Failed? {
      RefusalSettles(world, s, s.client.flight.value, action.error);
    } else {
      ProofSettles(world, s, op, action.acceptedView.value, action.names);
    }
  }

  /** Whenever a command's record is dropped knowingly, the command is over. */
  lemma KnownOutcome(world: World, s: System, action: Action)
    requires Holds(world, s) && MayAct(s, action) && HoldsCommand(s) && Knowingly(action)
    requires Next(s.client, action, |s.sent|).store.None?
    ensures Over(world, s.db, s.client.store.value.op)
  {
    DroppedOnGrounds(s, action);
    GroundsSettle(world, s, action);
  }

  /* ---- dropping a record is safe ---- */

  lemma OverIsRefused(world: World, db: Db, request: Request, p: Pending, clock: Clock, freshId: Id)
    requires Inv(world, db) && Carries(request, p) && p.op.CommandOperation? && Over(world, db, p.op)
    ensures !Fresh(Serve(world, db, request, clock, freshId).1)
  {
    OverIsSpent(world, db, request, p);
    SpentNeverCommits(world, db, request, clock, freshId);
  }

  lemma SentCarries(s: System, n: nat, p: Pending)
    requires SentAsIssued(s.sent, s.issued) && n < |s.sent| && s.sent[n].key == p.key
    requires p.key in s.issued && s.issued[p.key] == p.op
    ensures Carries(s.sent[n], p)
  {
  }

  lemma OverNeverCommits(world: World, s: System, event: Event, p: Pending, guest: Id)
    requires Holds(world, s) && Possible(s, event)
    requires p.op.CommandOperation? && p.key in s.issued && s.issued[p.key] == p.op && Over(world, s.db, p.op)
    ensures !CommitsNow(world, s, event, guest, p.key)
  {
    if event.Delivered? && s.sent[event.n].key == p.key {
      SentCarries(s, event.n, p);
      OverIsRefused(world, s.db, s.sent[event.n], p, event.clock, event.freshId);
    }
  }

  lemma StepEvolves(world: World, db: Db, step: Step)
    requires Inv(world, db)
    ensures Evolves(db, Take(world, db, step))
  {
    TakeKeepsInv(world, db, step);
  }

  lemma DeliveryEvolves(world: World, s: System, n: nat, clock: Clock, freshId: Id)
    requires Inv(world, s.db)
    ensures Evolves(s.db, Happen(world, s, Delivered(n, clock, freshId)).db)
  {
    if n < |s.sent| {
      ServeKeepsInv(world, s.db, s.sent[n], clock, freshId);
      DeliveryIs(world, s, n, clock, freshId);
    }
  }

  /** What the reads of this page do to the tables. */
  lemma ReadsAreSteps(world: World, s: System, guest: Id, id: Id, first: Time, now: Time)
    ensures Happen(world, s, AttemptServed(guest, id, now)).db == Take(world, s.db, AttemptRead(guest, id, now))
    ensures Happen(world, s, CaseServed(guest, first, now)).db == Take(world, s.db, CaseRead(guest, first, now))
  {
  }

  lemma EventEvolves(world: World, s: System, event: Event)
    requires Inv(world, s.db)
    ensures Evolves(s.db, Happen(world, s, event).db)
  {
    match event {
      case Acted(_) =>
      case CookieChanged(_, _) =>
      case KeyBarred(_) =>
      case Delivered(n, clock, freshId) => DeliveryEvolves(world, s, n, clock, freshId);
      case Elsewhere(step) => StepEvolves(world, s.db, step);
      case AttemptServed(guest, id, now) =>
        ReadsAreSteps(world, s, guest, id, now, now);
        StepEvolves(world, s.db, AttemptRead(guest, id, now));
      case CaseServed(guest, first, now) =>
        ReadsAreSteps(world, s, guest, 0, first, now);
        StepEvolves(world, s.db, CaseRead(guest, first, now));
    }
  }

  lemma IssuedStays(world: World, s: System, event: Event, key: string)
    requires Holds(world, s) && Possible(s, event) && key in s.issued
    ensures key in Happen(world, s, event).issued && Happen(world, s, event).issued[key] == s.issued[key]
  {
    if event.Acted? {
      ActCases(s, event.action);
    }
  }

  lemma OverEvent(world: World, s: System, event: Event, p: Pending)
    requires Holds(world, s) && Possible(s, event)
    requires p.op.CommandOperation? && p.key in s.issued && s.issued[p.key] == p.op && Over(world, s.db, p.op)
    ensures var s' := Happen(world, s, event);
      Holds(world, s') && p.key in s'.issued && s'.issued[p.key] == p.op && Over(world, s'.db, p.op)
  {
    EventKeeps(world, s, event);
    EventEvolves(world, s, event);
    IssuedStays(world, s, event, p.key);
    OverStays(world, s.db, Happen(world, s, event).db, p.op);
  }

  lemma {:induction false} OverForGood(world: World, s: System, more: seq<Event>, p: Pending, guest: Id)
    requires Holds(world, s)
    requires p.op.CommandOperation? && p.key in s.issued && s.issued[p.key] == p.op && Over(world, s.db, p.op)
    ensures Commits(world, s, more, guest, p.key) == 0
    ensures var s' := After(world, s, more);
      Holds(world, s') && p.key in s'.issued && s'.issued[p.key] == p.op && Over(world, s'.db, p.op)
  {
    if more != [] {
      var shorter := more[..|more| - 1];
      OverForGood(world, s, shorter, p, guest);
      var before := After(world, s, shorter);
      if Possible(before, more[|more| - 1]) {
        OverNeverCommits(world, before, more[|more| - 1], p, guest);
        OverEvent(world, before, more[|more| - 1], p);
      }
    }
  }

  /** Forgetting is safe: after the page has dropped a command's record knowingly, no request of its key
      takes effect for any guest in any continuation. */
  lemma ForgettingIsSafe(world: World, s: System, action: Action, more: seq<Event>, guest: Id)
    requires Holds(world, s) && MayAct(s, action) && HoldsCommand(s) && Knowingly(action)
    requires Next(s.client, action, |s.sent|).store.None?
    ensures Commits(world, Happen(world, s, Acted(action)), more, guest, s.client.store.value.key) == 0
  {
    KnownOutcome(world, s, action);
    OverEvent(world, s, Acted(action), s.client.store.value);
    OverForGood(world, Happen(world, s, Acted(action)), more, s.client.store.value, guest);
  }

  /* ---- and only knowingly ---- */

  /** A request that arrives in time: its session lives throughout, the window is open, and the clock does not
      stand before the start of the attempt. */
  predicate InTime(world: World, db: Db, request: Request, clock: Clock)
    requires request.CommandRequest?
  {
    && Authentic(world, request, clock)
    && world.SessionIsLive(request.guest, request.session, clock.receipt)
    && Owned(world, db, request.attempt, request.guest)
    && !Closed(world, db.attempts[request.attempt], clock.sampled)
    && TimeAllowed(db.attempts[request.attempt], clock.sampled)
  }

  lemma UnspentWrites(world: World, db: Db, guest: Id, session: Id, key: string, token: Fingerprint, clock: Clock)
    requires Reaches(world, db, guest, session, key, token, clock)
    requires !Spent(world, db, CommandRequest(guest, session, key, token.attempt, token.expectedVersion, token.command))
    requires token.expectedVersion <= db.attempts[token.attempt].version
    requires Sound(db, token.attempt) && world.SessionIsLive(guest, session, clock.receipt)
    requires TimeAllowed(db.attempts[token.attempt], clock.sampled)
    ensures Decide(world, db, guest, session, token, clock).Write?
  {
    AttemptedMoves(world, db.attempts[token.attempt], token.command);
  }

  lemma InTimeReaches(world: World, db: Db, request: Request, clock: Clock)
    requires request.CommandRequest? && WellFormed(request) && request.command != Malformed
    requires InTime(world, db, request, clock) && !Spent(world, db, request)
    ensures Reaches(world, db, request.guest, request.session, request.key, TokenOf(request), clock)
    ensures ExpireIfClosed(world, db, request.attempt, clock.sampled) == db
  {
  }

  lemma UnspentCommits(world: World, db: Db, request: Request, clock: Clock, freshId: Id)
    requires request.CommandRequest? && WellFormed(request) && request.command != Malformed
    requires InTime(world, db, request, clock) && !Spent(world, db, request) && Sound(db, request.attempt)
    requires request.expectedVersion <= db.attempts[request.attempt].version
    ensures Fresh(Serve(world, db, request, clock, freshId).1)
  {
    InTimeReaches(world, db, request, clock);
    UnspentWrites(world, db, request.guest, request.session, request.key, TokenOf(request), clock);
    ExecuteCases(world, db, request.guest, request.session, request.key, TokenOf(request), clock);
  }

  /** `Spent` leaves out nothing: a command that is not ahead of its attempt and arrives in time takes effect
      exactly when it is not spent. */
  lemma InTimeCommitsUnlessSpent(world: World, db: Db, request: Request, clock: Clock, freshId: Id)
    requires Inv(world, db) && request.CommandRequest? && WellFormed(request) && request.command != Malformed
    requires InTime(world, db, request, clock)
    requires request.expectedVersion <= db.attempts[request.attempt].version
    ensures Fresh(Serve(world, db, request, clock, freshId).1) <==> !Spent(world, db, request)
  {
    if Spent(world, db, request) {
      SpentNeverCommits(world, db, request, clock, freshId);
    } else {
      RowsAreSound(world, db, request.attempt);
      UnspentCommits(world, db, request, clock, freshId);
    }
  }

  lemma SpentIffOver(world: World, db: Db, request: Request, p: Pending)
    requires Inv(world, db) && request.CommandRequest? && Carries(request, p)
    requires (request.guest, request.key) in db.receipts ==>
      db.receipts[(request.guest, request.key)].token == TokenOf(request)
    ensures Spent(world, db, request) <==> Over(world, db, p.op)
  {
    if Spent(world, db, request) {
      SpentIsOver(world, db, request, p);
    } else if Over(world, db, p.op) {
      OverIsSpent(world, db, request, p);
    }
  }

  lemma DeliveryCommitsIffFresh(world: World, s: System, n: nat, clock: Clock, freshId: Id)
    requires n < |s.sent|
    ensures CommitsNow(world, s, Delivered(n, clock, freshId), s.sent[n].guest, s.sent[n].key)
      <==> s.sent[n].key !in s.barred && Fresh(Serve(world, s.db, s.sent[n], clock, freshId).1)
  {
  }

  /** So whether a record may be forgotten depends on nothing else: a request that is still under way, and
      may arrive in time, takes effect exactly when its operation is not over, unless its record is never
      taken at all. */
  lemma UnderWayCommitsUnlessOver(world: World, s: System, n: nat, clock: Clock, freshId: Id)
    requires Holds(world, s) && n < |s.sent| && s.sent[n].CommandRequest? && InTime(world, s.db, s.sent[n], clock)
    ensures s.issued[s.sent[n].key].CommandOperation?
    ensures CommitsNow(world, s, Delivered(n, clock, freshId), s.sent[n].guest, s.sent[n].key)
      <==> s.sent[n].key !in s.barred && !Over(world, s.db, s.issued[s.sent[n].key])
  {
    var request := s.sent[n];
    var p := Pending(request.key, s.issued[request.key]);
    SentCarries(s, n, p);
    DeliveryCommitsIffFresh(world, s, n, clock, freshId);
    InTimeCommitsUnlessSpent(world, s.db, request, clock, freshId);
    SpentIffOver(world, s.db, request, p);
  }
}
