/** Where the protocol promises less than one might think. */
module ClientLimits {
  import opened Basics
  import opened AttemptEngine
  import opened GameplayLedger
  import opened GameplayInvariant
  import opened GameplayHistory
  import opened GameplayTheorems
  import opened ClientProtocol
  import opened ClientSystem
  import opened ClientTheorems
  import opened ClientGuarantees

  lemma StaleDecision(world: World, db: Db, guest: Id, session: Id, key: string, token: Fingerprint, clock: Clock, shown: Option<View>)
    requires Reaches(world, db, guest, session, key, token, clock)
    requires Decide(world, db, guest, session, token, clock) == Refuse(Refusal.StaleVersion, shown)
    ensures var request := CommandRequest(guest, session, key, token.attempt, token.expectedVersion, token.command);
      && shown.Some?
      && (Spent(world, db, request) <==> token.expectedVersion < shown.value.version)
  {
  }

  /** The server also calls a command stale that is ahead of its attempt. Such a refusal is not for good: a
      stale command is spent exactly when it is behind the version that the refusal shows. */
  lemma StaleIsFinalIffBehind(world: World, db: Db, request: Request, clock: Clock, freshId: Id)
    requires Inv(world, db) && request.CommandRequest?
    requires Serve(world, db, request, clock, freshId).1.Refused?
    requires Serve(world, db, request, clock, freshId).1.code == Refusal.StaleVersion
    ensures var (after, result) := Serve(world, db, request, clock, freshId);
      result.shown.Some? && (Spent(world, after, request) <==> request.expectedVersion < result.shown.value.version)
  {
    var token := TokenOf(request);
    if Reaches(world, db, request.guest, request.session, request.key, token, clock) {
      ExecuteCases(world, db, request.guest, request.session, request.key, token, clock);
      var current := ExpireIfClosed(world, db, token.attempt, clock.sampled);
      var d := Decide(world, current, request.guest, request.session, token, clock);
      ExpireLeavesReceipts(world, db, token.attempt, clock.sampled);
      StaleDecision(world, current, request.guest, request.session, request.key, token, clock, d.shown);
    } else {
      EarlyRefusals(world, db, request.guest, request.session, request.key, token, clock);
    }
  }

  /** Database clocks may step back. A command that reads a time before the start of its attempt fails on the
      check constraints of the row, as here, where the attempt was started at 100 and the command reads 50. */
  lemma SteppedBackClockFails(world: World, guest: Id, session: Id, key: string, revision: Id, id: Id)
    requires ValidKey(key) && guest in world.guests && world.SessionIsLive(guest, session, 100)
    requires revision in world.revisions && world.revisions[revision].slot == 0
    ensures
      var row := Attempt(guest, revision, 0, START, 0, 100, None);
      var db := EMPTY.(attempts := map[id := row], slots := map[(guest, 0) := id]);
      && Execute(world, db, guest, session, key, id, 0, Surrender, Clock(50, 50, 50)) == (db, Result.Failed)
      && Fresh(Execute(world, db, guest, session, key, id, 0, Surrender, Clock(50, 100, 50)).1)
  {
    var row := Attempt(guest, revision, 0, START, 0, 100, None);
    var db := EMPTY.(attempts := map[id := row], slots := map[(guest, 0) := id]);
    var token := CommandToken(id, 0, Surrender);
    ExecuteCases(world, db, guest, session, key, token, Clock(50, 50, 50));
    ExecuteCases(world, db, guest, session, key, token, Clock(50, 100, 50));
  }

  /** A start carries no slot: delivered late, it opens whatever slot is current by then, also after the page
      saw its target pass and dropped the record. */
  lemma DelayedStartOpensCurrentSlot(world: World, db: Db, guest: Id, session: Id, key: string, clock: Clock, freshId: Id)
    requires Inv(world, db) && ValidKey(key) && (guest, key) !in db.receipts && freshId !in db.attempts
    requires Authentic(world, StartRequest(guest, session, key), clock) && world.SessionIsLive(guest, session, clock.receipt)
    requires world.CurrentRevision(clock.sampled).Some?
    ensures
      var (after, result) := Serve(world, db, StartRequest(guest, session, key), clock, freshId);
      && Fresh(result) && result.view.attempt in after.attempts
      && after.attempts[result.view.attempt].guest == guest
      && after.attempts[result.view.attempt].slot == clock.sampled / DAY
  {
    var revision := world.CurrentRevision(clock.sampled).value;
    StartCases(world, db, guest, session, key, clock, freshId);
    OpenCases(world, db, guest, session, key, revision, clock, freshId);
    FirstRowFits(world, guest, clock.sampled);
    InsertAttemptFinds(world, db, freshId, FirstRow(world, guest, revision, clock.sampled));
  }

  /* one start key for two guests */

  /** The page shows a case that is not started, with nothing pending. */
  ghost predicate MayStart(s: System, key: string, slot: int, closesAt: Time) {
    && Free(s.client) && s.client.status == Ready && s.client.currentCase == Some(NotStarted(slot, closesAt))
    && NotStarted(slot, closesAt) in s.cases && NeverUsed(s, key) && key !in s.barred && ValidKey(key)
  }

  function StartSent(s: System, key: string): System { Act(s, StartCase(key, true, true)) }

  function StartLost(s: System, key: string): System { Act(StartSent(s, key), Action.Failed(NetworkError, true)) }

  function StartLooked(s: System, key: string, guest: Id, session: Id): System {
    Act(StartLost(s, key).(guest := guest, session := session), ReplayPending(true))
  }

  function StartAgain(s: System, key: string, slot: int, closesAt: Time, guest: Id, session: Id): System {
    Act(StartLooked(s, key, guest, session), StartReconciled(Some(NotStarted(slot, closesAt)), true, true))
  }

  lemma StartGoesOut(s: System, key: string, slot: int, closesAt: Time)
    requires MayStart(s, key, slot, closesAt)
    ensures MayAct(s, StartCase(key, true, true)) && MayAct(StartSent(s, key), Action.Failed(NetworkError, true))
    ensures var p, after := Pending(key, StartOperation(slot, closesAt)), StartLost(s, key);
      && after == s.(client := after.client, sent := s.sent + [StartRequest(s.guest, s.session, key)],
                     issued := s.issued[key := p.op], latest := Some(p))
      && after.client.store == Some(p) && after.client.flight.None? && after.client.recovery.None?
      && after.client.status == Ready && after.client.currentCase == s.client.currentCase
  {
  }

  lemma StartGoesOutAgain(s: System, key: string, slot: int, closesAt: Time, guest: Id, session: Id)
    requires MayStart(s, key, slot, closesAt)
    ensures MayAct(StartLost(s, key).(guest := guest, session := session), ReplayPending(true))
    ensures MayAct(StartLooked(s, key, guest, session), StartReconciled(Some(NotStarted(slot, closesAt)), true, true))
    ensures var after := StartAgain(s, key, slot, closesAt, guest, session);
      && after.sent == s.sent + [StartRequest(s.guest, s.session, key), StartRequest(guest, session, key)]
      && after.db == s.db && after.barred == s.barred
  {
    StartGoesOut(s, key, slot, closesAt);
  }

  /** Two guests, one key: the tables take both starts. */
  lemma BothStartsCommit(
    world: World, db: Db, one: Request, two: Request, clock: Clock, first: Id, second: Id)
    requires Inv(world, db) && one.StartRequest? && two.StartRequest? && one.key == two.key && one.guest != two.guest
    requires ValidKey(one.key) && (one.guest, one.key) !in db.receipts && (two.guest, two.key) !in db.receipts
    requires Authentic(world, one, clock) && world.SessionIsLive(one.guest, one.session, clock.receipt)
    requires Authentic(world, two, clock) && world.SessionIsLive(two.guest, two.session, clock.receipt)
    requires world.CurrentRevision(clock.sampled).Some? && first !in db.attempts && second !in db.attempts.Keys + {first}
    ensures Fresh(Serve(world, db, one, clock, first).1)
    ensures Fresh(Serve(world, Serve(world, db, one, clock, first).0, two, clock, second).1)
  {
    DelayedStartOpensCurrentSlot(world, db, one.guest, one.session, one.key, clock, first);
    ServeKeepsInv(world, db, one, clock, first);
    ServeAnswers(world, db, one, clock, first);
    StartAddsOnly(world, db, one.guest, one.session, one.key, clock, first);
    DelayedStartOpensCurrentSlot(
      world, Serve(world, db, one, clock, first).0, two.guest, two.session, two.key, clock, second);
  }

  lemma TwoDeliveries(world: World, s: System, n: nat, clock: Clock, first: Id, second: Id)
    requires n + 1 < |s.sent| && s.sent[n].key !in s.barred && s.sent[n + 1].key !in s.barred
    requires Fresh(Serve(world, s.db, s.sent[n], clock, first).1)
    requires Fresh(Serve(world, Serve(world, s.db, s.sent[n], clock, first).0, s.sent[n + 1], clock, second).1)
    ensures CommitsNow(world, s, Delivered(n, clock, first), s.sent[n].guest, s.sent[n].key)
    ensures CommitsNow(world, Happen(world, s, Delivered(n, clock, first)), Delivered(n + 1, clock, second),
                       s.sent[n + 1].guest, s.sent[n + 1].key)
  {
    DeliveryIs(world, s, n, clock, first);
  }

  /** The cookie changes between a start and its replay: both requests carry the one key, and each opens an attempt,
      one for the guest before and one for the guest after. */
  lemma OneStartKeyForTwoGuests(
    world: World, s: System, key: string, slot: int, closesAt: Time, guest: Id, session: Id, clock: Clock, first: Id,
    second: Id)
    requires Holds(world, s) && MayStart(s, key, slot, closesAt) && guest != s.guest
    requires Authentic(world, StartRequest(s.guest, s.session, key), clock)
    requires Authentic(world, StartRequest(guest, session, key), clock)
    requires world.SessionIsLive(s.guest, s.session, clock.receipt) && world.SessionIsLive(guest, session, clock.receipt)
    requires world.CurrentRevision(clock.sampled).Some? && first !in s.db.attempts && second !in s.db.attempts
    requires first != second
    ensures
      var s1 := StartAgain(s, key, slot, closesAt, guest, session);
      var s2 := Happen(world, s1, Delivered(|s.sent|, clock, first));
      && CommitsNow(world, s1, Delivered(|s.sent|, clock, first), s.guest, key)
      && CommitsNow(world, s2, Delivered(|s.sent| + 1, clock, second), guest, key)
  {
    StartGoesOutAgain(s, key, slot, closesAt, guest, session);
    BothStartsCommit(
      world, s.db, StartRequest(s.guest, s.session, key), StartRequest(guest, session, key), clock, first, second);
    TwoDeliveries(world, StartAgain(s, key, slot, closesAt, guest, session), |s.sent|, clock, first, second);
  }

  lemma StartAddsOnly(world: World, db: Db, guest: Id, session: Id, key: string, clock: Clock, freshId: Id)
    requires Inv(world, db)
    ensures GameplayLedger.Start(world, db, guest, session, key, clock, freshId).0.attempts.Keys <= db.attempts.Keys + {freshId}
  {
    StartCases(world, db, guest, session, key, clock, freshId);
    if StartReaches(world, db, guest, session, key, clock) {
      OpenCases(world, db, guest, session, key, world.CurrentRevision(clock.sampled).value, clock, freshId);
    } else if GameplayLedger.Start(world, db, guest, session, key, clock, freshId).1.Ok? {
      ExpireKeepsInv(world, db, db.receipts[(guest, key)].attempt, clock.sampled);
    }
  }

  /** Once the database has found a session expired, no request under it takes effect, whatever the tables hold,
      unless its clock steps back. That makes dropping a record with the session safe only when every request of
      it was sent under that session (ClientForgetting.DroppingIsSafeExactly): the page also takes a session for
      lost when a request never reached the database. */
  lemma ExpiredSessionIsFinal(
    world: World, db: Db, request: Request, clock: Clock, freshId: Id, later: Db, again: Clock, freshId': Id)
    requires request.guest in world.guests && WellFormed(request)
    requires Serve(world, db, request, clock, freshId).1 == Refused(SessionExpired, None)
    requires clock.session <= again.session
    ensures Serve(world, later, request, again, freshId') == (later, Refused(SessionExpired, None))
  {
    if world.SessionIsLive(request.guest, request.session, clock.session) {
      LiveIsNotExpired(world, db, request, clock, freshId);
    }
  }

  lemma LiveIsNotExpired(world: World, db: Db, request: Request, clock: Clock, freshId: Id)
    requires request.guest in world.guests && WellFormed(request)
    requires world.SessionIsLive(request.guest, request.session, clock.session)
    ensures Serve(world, db, request, clock, freshId).1 != Refused(SessionExpired, None)
  {
    match request {
      case StartRequest(guest, session, key) => StartCases(world, db, guest, session, key, clock, freshId);
      case CommandRequest(guest, session, key, _, _, _) => LiveCommand(world, db, request, clock);
    }
  }

  lemma LiveCommand(world: World, db: Db, request: Request, clock: Clock)
    requires request.CommandRequest? && request.guest in world.guests && WellFormed(request)
    requires world.SessionIsLive(request.guest, request.session, clock.session)
    ensures
      Execute(world, db, request.guest, request.session, request.key, request.attempt, request.expectedVersion,
        request.command, clock).1 != Refused(SessionExpired, None)
  {
    var token := TokenOf(request);
    if Reaches(world, db, request.guest, request.session, request.key, token, clock) {
      ExecuteCases(world, db, request.guest, request.session, request.key, token, clock);
      DecideNeverConflicts(
        world, ExpireIfClosed(world, db, token.attempt, clock.sampled), request.guest, request.session, token, clock);
    }
  }

  /** The record goes for these reasons only. Whatever leaves the outcome open keeps it: lost and malformed
      answers, timeouts, rate limits and server errors, failed reads, a reload, a new look at the session. */
  lemma RecordIsDroppedOnlyFor(c: Client, action: Action, n: nat)
    requires c.store.Some? && Next(c, action, n).store != c.store
    ensures Next(c, action, n).store.None?
    ensures match action
      case Succeeded(_, _) => true
      case Failed(error, _) =>
        error == ApiError(AuthenticationRequired) || (error != OtherError && RetryDirective(error) != ReplayExactMutation)
      case CommandReconciled(_, _, _) => true
      case StartReconciled(_, _, _) => true
      case SessionGone(_) => true
      case Initialized(createNew, _) => createNew
      case _ => false
  {
  }
}
