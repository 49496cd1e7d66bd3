/** The browser, the network and the server together.

    The network may lose, delay, duplicate and reorder: a request that was sent once may be delivered any
    number of times at any later moment, or never, and so may the answers. Other clients, other tabs and
    reads act on the same tables in between, the page may be reloaded, and the cookie may change. */
module ClientSystem {
  import opened Basics
  import opened AttemptEngine
  import opened GameplayLedger
  import opened GameplayInvariant
  import opened GameplayHistory
  import opened GameplayTheorems
  import opened ClientProtocol

  /* ---- what the page does ---- */

  datatype Action =
    | Submit(key: string, expectedVersion: int, command: Command, built: bool, works: bool)
    | StartCase(key: string, built: bool, works: bool)
    | Succeeded(view: View, works: bool)
    | Failed(error: ClientError, works: bool)
    | Refreshed
    | ReplayPending(built: bool)
    | ReconcilePending
    | CommandReconciled(acceptedView: Option<View>, names: map<Id, string>, works: bool)
    | StartReconciled(acceptedCase: Option<CaseView>, built: bool, works: bool)
    | AttemptAccepted(view: View)
    | CaseAccepted(shown: CaseView)
    | ReadFailed
    | SessionGone(works: bool)
    | Initialized(createNew: bool, works: bool)
    | SessionKnown(generation: nat)
    | Reloaded

  predicate AwaitsCommand(c: Client) {
    c.recovery.Some? && c.recovery.value.Reconciling? && c.recovery.value.pending.op.CommandOperation?
  }

  predicate AwaitsStart(c: Client) {
    c.recovery.Some? && c.recovery.value.Reconciling? && c.recovery.value.pending.op.StartOperation?
  }

  /** The next state of the page; `n` is the number that the next request gets. */
  function Next(c: Client, action: Action, n: nat): Client {
    match action
    case Submit(key, expectedVersion, command, built, works) =>
      SubmitCommand(c, key, expectedVersion, command, if built then Some(n) else None, works)
    case StartCase(key, built, works) => StartAttempt(c, key, if built then Some(n) else None, works)
    case Succeeded(view, works) => if c.flight.None? then c else Succeed(c, view, works)
    case Failed(error, works) => if c.flight.None? then c else Fail(c, error, works)
    case Refreshed => if c.flight.None? || !c.flight.value.phase.Settling? then c else Settle(c)
    case ReplayPending(built) => ReplayPendingOperation(c, if built then Some(n) else None)
    case ReconcilePending => ReconcilePendingOperation(c)
    case CommandReconciled(view, names, works) =>
      if AwaitsCommand(c) then ReconcileCommand(c, view, names, works) else c
    case StartReconciled(shown, built, works) =>
      if AwaitsStart(c) then ReconcileStart(c, shown, if built then Some(n) else None, works) else c
    case AttemptAccepted(view) => ApplyAttempt(c, view)
    case CaseAccepted(shown) => ApplyCase(c, shown)
    case ReadFailed => c.(status := ReadError)
    case SessionGone(works) => LoseSession(c, works)
    case Initialized(createNew, works) => Initialize(c, createNew, works)
    case SessionKnown(generation) => Hydrated(c, generation)
    case Reloaded => Page(c.store)
  }

  /* ---- the whole system ---- */

  /** `sent` are the requests in the order of their numbers, `answers` what came of deliveries, `views` and
      `cases` what reads returned. `issued` records for every key the operation it was created for, and
      `latest` the youngest of them. `barred` are the keys whose records no server takes, because of what they
      are and not of when they come: no request can be made of them, or it is refused unread. */
  datatype System = System(
    db: Db,
    client: Client,
    guest: Id,
    session: Id,
    sent: seq<Request>,
    answers: set<(nat, Result)>,
    views: set<View>,
    cases: set<CaseView>,
    issued: map<string, Operation>,
    latest: Option<Pending>,
    barred: set<string>)

  datatype Event =
    | Acted(action: Action)
    | CookieChanged(guest: Id, session: Id)
    | KeyBarred(key: string)
    | Delivered(n: nat, clock: Clock, freshId: Id)
    | Elsewhere(step: Step)
    | AttemptServed(guest: Id, id: Id, now: Time)
    | CaseServed(guest: Id, first: Time, now: Time)

  function Begin(guest: Id, session: Id): System {
    System(EMPTY, Page(None), guest, session, [], {}, {}, {}, map[], None, {})
  }

  ghost predicate NeverUsed(s: System, key: string) {
    key !in s.issued && forall guest: Id :: (guest, key) !in s.db.receipts
  }

  predicate AnsweredWith(s: System, f: Flight, result: Result) {
    f.phase.Awaiting? && f.fetch.Some? && (f.fetch.value, result) in s.answers
  }

  /** The errors that a call may meet without a verdict. A response answers a request that was sent. */
  predicate MayMeet(s: System, f: Flight, error: ClientError) {
    && OnTheWay(error)
    && (BeforeSending(error) ==> f.fetch.None?)
    && (!BeforeSending(error) && error != OtherError ==> f.fetch.Some?)
    && (RecordFault(error) ==> f.pending.key in s.barred)
  }

  /** A page acts on what it has received. Keys are random UUIDs, taken to be new. */
  ghost predicate MayAct(s: System, action: Action) {
    match action
    case Submit(key, _, _, _, _) => NeverUsed(s, key)
    case StartCase(key, _, _) => NeverUsed(s, key)
    case Succeeded(view, _) =>
      s.client.flight.Some?
      && exists outcome, replayed :: AnsweredWith(s, s.client.flight.value, Ok(outcome, replayed, view))
    case Failed(error, _) =>
      s.client.flight.Some? && s.client.flight.value.phase.Awaiting?
      && (MayMeet(s, s.client.flight.value, error)
          || exists result :: AnsweredWith(s, s.client.flight.value, result) && !result.Ok? && ErrorOf(result) == error)
    case CommandReconciled(Some(view), _, _) =>
      view in s.views && AwaitsCommand(s.client) && view.attempt == s.client.recovery.value.pending.op.attempt
    case StartReconciled(Some(shown), _, _) => shown in s.cases
    case AttemptAccepted(view) => view in s.views
    case CaseAccepted(shown) => shown in s.cases
    case _ => true
  }

  ghost predicate Possible(s: System, event: Event) {
    match event
    case Acted(action) => MayAct(s, action)
    case KeyBarred(key) => NeverUsed(s, key)
    case Delivered(n, _, _) => n < |s.sent| && s.sent[n].key !in s.barred
    case Elsewhere(Requested(request, _, _)) => request.key !in s.issued
    case _ => true
  }

  /** A request goes out when the page has just begun to wait for the next number. */
  predicate Sends(c: Client, n: nat) {
    c.flight.Some? && c.flight.value.fetch == Some(n)
  }

  /** The page after an action, with the request and the key that it brought. */
  function Act(s: System, action: Action): System {
    var n := |s.sent|;
    var c := Next(s.client, action, n);
    var created := c.store.Some? && c.store.value.key !in s.issued;
    s.(client := c,
       sent := if Sends(c, n) then s.sent + [RequestOf(c.flight.value.pending, s.guest, s.session)] else s.sent,
       issued := if created then s.issued[c.store.value.key := c.store.value.op] else s.issued,
       latest := if created then c.store else s.latest)
  }

  function Happen(world: World, s: System, event: Event): System {
    match event
    case Acted(action) => Act(s, action)
    case CookieChanged(guest, session) => s.(guest := guest, session := session)
    case KeyBarred(key) => s.(barred := s.barred + {key})
    case Delivered(n, clock, freshId) =>
      if n < |s.sent| then
        var (after, result) := Serve(world, s.db, s.sent[n], clock, freshId);
        s.(db := after, answers := s.answers + {(n, result)})
      else s
    case Elsewhere(step) => s.(db := Take(world, s.db, step))
    case AttemptServed(guest, id, now) =>
      var (after, view) := ReadOwned(world, s.db, guest, id, now);
      s.(db := after, views := s.views + SetOf(view))
    case CaseServed(guest, first, now) =>
      var (after, shown) := ReadCurrent(world, s.db, guest, first, now);
      s.(db := after, cases := s.cases + SetOf(shown))
  }

  /** Every run of the system; events that are not possible do nothing. */
  ghost function After(world: World, begin: System, events: seq<Event>): System {
    if events == [] then begin
    else
      var before := After(world, begin, events[..|events| - 1]);
      if Possible(before, events[|events| - 1]) then Happen(world, before, events[|events| - 1]) else before
  }

  /* ---- what holds in every state ---- */

  function TokenFor(op: Operation): Fingerprint {
    match op
    case StartOperation(_, _) => StartToken
    case CommandOperation(attempt, expectedVersion, command) => CommandToken(attempt, expectedVersion, command)
  }

  /** Whatever the page still holds is the youngest operation; while a call runs no recovery waits. */
  ghost predicate Coherent(c: Client, latest: Option<Pending>, sent: seq<Request>) {
    && (c.store.Some? ==> c.store == latest)
    && (c.flight.Some? ==> Some(c.flight.value.pending) == latest)
    && (c.flight.Some? && c.flight.value.fetch.Some? ==>
          c.flight.value.fetch.value < |sent| && Carries(sent[c.flight.value.fetch.value], c.flight.value.pending))
    && (c.recovery.Some? && c.recovery.value.Reconciling? ==>
          Some(c.recovery.value.pending) == latest && c.flight.None?)
    && (c.recovery == Some(Replaying) ==> c.flight.Some?)
  }

  predicate Carries(request: Request, p: Pending) {
    request == RequestOf(p, request.guest, request.session)
  }

  ghost predicate LatestIsIssued(latest: Option<Pending>, issued: map<string, Operation>) {
    latest.Some? ==> latest.value.key in issued && issued[latest.value.key] == latest.value.op && Storable(latest.value)
  }

  /** Every request of a key is the operation that the key was made for. */
  ghost predicate SentAsIssued(sent: seq<Request>, issued: map<string, Operation>) {
    forall n | 0 <= n < |sent| ::
      sent[n].key in issued && Carries(sent[n], Pending(sent[n].key, issued[sent[n].key]))
      && Storable(Pending(sent[n].key, issued[sent[n].key]))
  }

  ghost predicate ReceiptsAsIssued(receipts: Receipts, issued: map<string, Operation>) {
    forall k <- receipts | k.1 in issued :: receipts[k].token == TokenFor(issued[k.1])
  }

  /** Refusals that are never given: a key conflict, and to a command that there is no case. */
  predicate Unheard(request: Request, result: Result) {
    result.Refused?
    && (result.code == Refusal.IdempotencyConflict || (request.CommandRequest? && result.code == Refusal.NoCurrentCase))
  }

  /** No answer is an unheard one; a success stands in the receipts; a conclusive refusal is for good. */
  ghost predicate AnswerHolds(world: World, db: Db, request: Request, result: Result) {
    && !Unheard(request, result)
    && (result.Ok? ==> Receipted(db, request, result.view.attempt, result.outcome))
    && (request.CommandRequest? && result.Refused? && Lasting(ErrorOf(result)) ==> Spent(world, db, request))
  }

  /** Refusals that concern the attempt itself. */
  predicate Lasting(error: ClientError) {
    || error == ApiError(ApiCode.StaleVersion)
    || error == ApiError(ApiCode.TerminalAttempt)
    || error == ApiError(ApiCode.EvidenceLimit)
    || error == ApiError(ApiCode.InvalidGuess)
  }

  ghost predicate AnswersHold(world: World, db: Db, sent: seq<Request>, answers: set<(nat, Result)>) {
    forall a <- answers :: a.0 < |sent| && AnswerHolds(world, db, sent[a.0], a.1)
  }

  /** A view shows the attempt as it was at some time: it is never ahead of the tables. */
  ghost predicate Seen(attempts: Attempts, v: View) {
    && v.attempt in attempts && v.version <= attempts[v.attempt].version
    && (v.version == attempts[v.attempt].version || v.at.state != Active ==> v.at == attempts[v.attempt].at)
  }

  ghost predicate SeenCase(attempts: Attempts, shown: CaseView) {
    shown.Shown? ==> Seen(attempts, shown.view)
  }

  ghost predicate AllSeen(attempts: Attempts, s: System) {
    && (forall v <- s.views :: Seen(attempts, v))
    && (forall shown <- s.cases :: SeenCase(attempts, shown))
    && (forall a <- s.answers | a.1.Ok? :: Seen(attempts, a.1.view))
    && (s.client.displayed.Some? ==> Seen(attempts, s.client.displayed.value))
  }

  /** A command was never made for a version that its attempt had not reached. */
  ghost predicate NotAhead(attempts: Attempts, issued: map<string, Operation>) {
    forall key <- issued | issued[key].CommandOperation? ::
      issued[key].attempt in attempts && issued[key].expectedVersion <= attempts[issued[key].attempt].version
  }

  ghost predicate Holds(world: World, s: System) {
    && Inv(world, s.db)
    && Coherent(s.client, s.latest, s.sent)
    && LatestIsIssued(s.latest, s.issued)
    && SentAsIssued(s.sent, s.issued)
    && ReceiptsAsIssued(s.db.receipts, s.issued)
    && AnswersHold(world, s.db, s.sent, s.answers)
    && AllSeen(s.db.attempts, s)
    && NotAhead(s.db.attempts, s.issued)
  }
}
