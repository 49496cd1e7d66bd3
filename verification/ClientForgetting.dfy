/** When may the page drop the record of a command? Exactly when the command is over or nothing of it can arrive
    any more; and the actions after which that is always so are those that have heard from the tables. */
module ClientForgetting {
  import opened Basics
  import opened AttemptEngine
  import opened GameplayLedger
  import opened GameplayInvariant
  import opened GameplayHistory
  import opened GameplayTheorems
  import opened GameplayResponses
  import opened ClientProtocol
  import opened ClientSystem
  import opened ClientTheorems
  import opened ClientGuarantees

  /** The page holds a command's record, and the action drops it. */
  ghost predicate Drops(s: System, action: Action) {
    MayAct(s, action) && HoldsCommand(s) && Next(s.client, action, |s.sent|).store.None?
  }

  /* ---- exactly when is it safe ---- */

  /** The server's clock does not show less than `t` when requests of this page are delivered. */
  predicate NotBefore(event: Event, t: Time) {
    event.Delivered? ==> t <= event.clock.session && t <= event.clock.sampled && t <= event.clock.receipt
  }

  predicate AllNotBefore(events: seq<Event>, t: Time) {
    forall i | 0 <= i < |events| :: NotBefore(events[i], t)
  }

  /** No request of the key takes effect for anybody, whatever happens from `t` on. */
  ghost predicate SafeFrom(world: World, s: System, key: string, t: Time) {
    forall more: seq<Event>, guest: Id | AllNotBefore(more, t) :: Commits(world, s, more, guest, key) == 0
  }

  /** A command that may still come in time at `t`: its session has not expired, its attempt is the guest's and
      the window is open. */
  predicate CanArrive(world: World, db: Db, request: Request, t: Time) {
    && request.CommandRequest?
    && request.guest in world.guests && world.SessionIsLive(request.guest, request.session, t)
    && Owned(world, db, request.attempt, request.guest)
    && !Closed(world, db.attempts[request.attempt], t)
  }

  /** Nothing of the key can come in time: no server takes its record, or each of its requests is too late. */
  ghost predicate NoneArrives(world: World, s: System, key: string, t: Time) {
    key in s.barred || forall n | 0 <= n < |s.sent| && s.sent[n].key == key :: !CanArrive(world, s.db, s.sent[n], t)
  }

  /** The page has no record of the key, which was made for the operation, and nothing of it can arrive. */
  ghost predicate Forgotten(world: World, s: System, p: Pending, t: Time) {
    && p.op.CommandOperation? && p.key in s.issued && s.issued[p.key] == p.op
    && (s.client.store.Some? ==> s.client.store.value.key != p.key)
    && NoneArrives(world, s, p.key, t)
  }

  lemma ArrivalWasPossible(world: World, a: Db, b: Db, request: Request, t: Time)
    requires Evolves(a, b) && RowsFit(world, a.attempts) && CanArrive(world, b, request, t)
    requires request.attempt in a.attempts
    ensures CanArrive(world, a, request, t)
  {
    assert RowEvolves(a.attempts[request.attempt], b.attempts[request.attempt]);
  }

  lemma FreshArrives(world: World, db: Db, request: Request, clock: Clock, freshId: Id, t: Time)
    requires Inv(world, db) && request.CommandRequest? && Fresh(Serve(world, db, request, clock, freshId).1)
    requires t <= clock.session && t <= clock.sampled
    ensures CanArrive(world, db, request, t)
  {
    var token := TokenOf(request);
    FreshIsReached(world, db, request.guest, request.session, request.key, token, clock);
    ExecuteCases(world, db, request.guest, request.session, request.key, token, clock);
    assert RowFits(world, db.attempts[request.attempt]);
    ExpireReconciles(world, db, request.attempt, clock.sampled);
  }

  lemma CommandsNameAttempts(world: World, s: System, p: Pending, n: nat)
    requires Holds(world, s) && p.op.CommandOperation? && p.key in s.issued && s.issued[p.key] == p.op
    requires n < |s.sent| && s.sent[n].key == p.key
    ensures s.sent[n].CommandRequest? && s.sent[n].attempt in s.db.attempts
  {
    SentCarries(s, n, p);
  }

  /** What a new record or a new request is about. */
  lemma NothingSentAgain(world: World, s: System, event: Event, p: Pending)
    requires Holds(world, s) && Possible(s, event) && p.key in s.issued
    requires s.client.store.Some? ==> s.client.store.value.key != p.key
    ensures var s' := Happen(world, s, event);
      && (s'.client.store.Some? ==> s'.client.store.value.key != p.key)
      && |s.sent| <= |s'.sent|
      && (forall n | 0 <= n < |s.sent| :: s'.sent[n] == s.sent[n])
      && (forall n | |s.sent| <= n < |s'.sent| :: s'.sent[n].key != p.key)
  {
    EverySendIsStored(world, s, event);
    if event.Acted? {
      ActCases(s, event.action);
    }
  }

  lemma ForgottenStays(world: World, s: System, event: Event, p: Pending, t: Time)
    requires Holds(world, s) && Possible(s, event) && Forgotten(world, s, p, t)
    ensures Forgotten(world, Happen(world, s, event), p, t)
  {
    var s' := Happen(world, s, event);
    NothingSentAgain(world, s, event, p);
    IssuedStays(world, s, event, p.key);
    EventEvolves(world, s, event);
    if p.key !in s.barred {
      forall n | 0 <= n < |s'.sent| && s'.sent[n].key == p.key ensures !CanArrive(world, s'.db, s'.sent[n], t) {
        CommandsNameAttempts(world, s, p, n);
        if CanArrive(world, s'.db, s.sent[n], t) {
          ArrivalWasPossible(world, s.db, s'.db, s.sent[n], t);
        }
      }
    }
  }

  lemma ForgottenIsQuiet(world: World, s: System, event: Event, p: Pending, t: Time, guest: Id)
    requires Holds(world, s) && Possible(s, event) && Forgotten(world, s, p, t) && NotBefore(event, t)
    ensures !CommitsNow(world, s, event, guest, p.key)
  {
    if event.Delivered? && CommitsNow(world, s, event, guest, p.key) {
      CommandsNameAttempts(world, s, p, event.n);
      FreshArrives(world, s.db, s.sent[event.n], event.clock, event.freshId, t);
    }
  }

  lemma {:induction false} ForgottenForGood(world: World, s: System, more: seq<Event>, p: Pending, t: Time, guest: Id)
    requires Holds(world, s) && Forgotten(world, s, p, t) && AllNotBefore(more, t)
    ensures Commits(world, s, more, guest, p.key) == 0
    ensures Holds(world, After(world, s, more)) && Forgotten(world, After(world, s, more), p, t)
  {
    if more != [] {
      var shorter, last := more[..|more| - 1], more[|more| - 1];
      ForgottenForGood(world, s, shorter, p, t, guest);
      var before := After(world, s, shorter);
      assert NotBefore(last, t);
      if Possible(before, last) {
        ForgottenIsQuiet(world, before, last, p, t, guest);
        ForgottenStays(world, before, last, p, t);
        EventKeeps(world, before, last);
      }
    }
  }

  /** The tables, the requests and the keys after a drop. */
  lemma DropLeaves(s: System, action: Action)
    requires Drops(s, action) && Coherent(s.client, s.latest, s.sent) && LatestIsIssued(s.latest, s.issued)
    ensures var s' := Act(s, action);
      && s'.db == s.db && s'.issued == s.issued && s'.barred == s.barred && s'.client.store.None?
      && |s.sent| <= |s'.sent| && (forall n | 0 <= n < |s.sent| :: s'.sent[n] == s.sent[n])
  {
    ActCases(s, action);
  }

  lemma DropForgets(world: World, s: System, action: Action, t: Time)
    requires Holds(world, s) && Drops(s, action) && NoneArrives(world, s, s.client.store.value.key, t)
    ensures Holds(world, Act(s, action)) && Forgotten(world, Act(s, action), s.client.store.value, t)
  {
    DropLeaves(s, action);
    EventKeeps(world, s, Acted(action));
    EverySendIsStored(world, s, Acted(action));
  }

  /** A request that can arrive arrives at some reading of the clock. */
  lemma ArrivesInTime(world: World, db: Db, request: Request, t: Time) returns (clock: Clock)
    requires RowsFit(world, db.attempts) && CanArrive(world, db, request, t)
    ensures InTime(world, db, request, clock) && NotBefore(Delivered(0, clock, 0), t)
  {
    var row := db.attempts[request.attempt];
    assert RowFits(world, row);
    clock := Clock(t, if t < row.startedAt then row.startedAt else t, t);
  }

  lemma OneDelivery(world: World, s: System, event: Event, guest: Id, key: string)
    requires CommitsNow(world, s, event, guest, key)
    ensures Commits(world, s, [event], guest, key) == 1
  {
    assert [event][..0] == [];
    assert After(world, s, []) == s;
    assert Commits(world, s, [], guest, key) == 0;
  }

  lemma ArrivalCommits(world: World, s: System, n: nat, t: Time)
    requires Holds(world, s) && n < |s.sent| && s.sent[n].key !in s.barred && CanArrive(world, s.db, s.sent[n], t)
    requires s.issued[s.sent[n].key].CommandOperation? ==> !Over(world, s.db, s.issued[s.sent[n].key])
    ensures !SafeFrom(world, s, s.sent[n].key, t)
  {
    var clock := ArrivesInTime(world, s.db, s.sent[n], t);
    var event := Delivered(n, clock, 0);
    UnderWayCommitsUnlessOver(world, s, n, clock, 0);
    OneDelivery(world, s, event, s.sent[n].guest, s.sent[n].key);
    assert AllNotBefore([event], t);
  }

  /** Dropping the record of a command is safe from `t` on exactly when the command is over, or none of its
      requests can arrive in time any more: no server takes the record, every session that it was sent under has
      expired, or the window of the attempt has closed. */
  lemma DroppingIsSafeExactly(world: World, s: System, action: Action, t: Time)
    requires Holds(world, s) && Drops(s, action)
    ensures var p := s.client.store.value;
      SafeFrom(world, Happen(world, s, Acted(action)), p.key, t)
      <==> Over(world, s.db, p.op) || NoneArrives(world, s, p.key, t)
  {
    var p, s' := s.client.store.value, Happen(world, s, Acted(action));
    if Over(world, s.db, p.op) {
      forall more: seq<Event>, guest: Id ensures Commits(world, s', more, guest, p.key) == 0 {
        OverEvent(world, s, Acted(action), p);
        OverForGood(world, s', more, p, guest);
      }
    } else if NoneArrives(world, s, p.key, t) {
      DropForgets(world, s, action, t);
      forall more: seq<Event>, guest: Id | AllNotBefore(more, t) ensures Commits(world, s', more, guest, p.key) == 0 {
        ForgottenForGood(world, s', more, p, t, guest);
      }
    } else {
      var n :| 0 <= n < |s.sent| && s.sent[n].key == p.key && CanArrive(world, s.db, s.sent[n], t);
      DropLeaves(s, action);
      EventKeeps(world, s, Acted(action));
      ArrivalCommits(world, s', n, t);
    }
  }

  /* ---- after which actions is it always safe ---- */

  /** The actions that may drop a command's record. */
  predicate Dropping(action: Action) {
    match action
    case Succeeded(_, works) => works
    case Failed(error, works) => works && error != OtherError && RetryDirective(error) != ReplayExactMutation
    case CommandReconciled(_, _, works) => works
    case SessionGone(works) => works
    case Initialized(createNew, works) => createNew && works
    case _ => false
  }

  /** There are no others: lost and malformed answers, timeouts, rate limits and server errors, failed reads, a
      reload and a new look at the session all keep the record. */
  lemma OnlyTheseDrop(s: System, action: Action)
    requires Drops(s, action) && Coherent(s.client, s.latest, s.sent)
    ensures Dropping(action)
  {
  }

  ghost predicate Safe(world: World, s: System, key: string) {
    forall more: seq<Event>, guest: Id :: Commits(world, s, more, guest, key) == 0
  }

  ghost predicate SafeAfter(world: World, guest: Id, session: Id, events: seq<Event>, action: Action) {
    var s := After(world, Begin(guest, session), events);
    Drops(s, action) ==> Safe(world, Happen(world, s, Acted(action)), s.client.store.value.key)
  }

  /** Whatever run led to the drop. */
  ghost predicate AlwaysSafe(action: Action) {
    forall world: World, guest: Id, session: Id, events: seq<Event> | world.Valid() ::
      SafeAfter(world, guest, session, events, action)
  }

  /** The actions that tell what has become of the command: those that have heard from the tables, and a fault of
      the record itself. */
  predicate Tells(action: Action) {
    Knowingly(action) || (action.Failed? && RecordFault(action.error))
  }

  lemma KnowingIsSafe(world: World, s: System, action: Action)
    requires Holds(world, s) && Drops(s, action) && Knowingly(action)
    ensures Safe(world, Happen(world, s, Acted(action)), s.client.store.value.key)
  {
    forall more: seq<Event>, other: Id
      ensures Commits(world, Happen(world, s, Acted(action)), more, other, s.client.store.value.key) == 0
    {
      ForgettingIsSafe(world, s, action, more, other);
    }
  }

  /** A record that no server takes never commits. */
  lemma {:induction false} BarredForGood(world: World, s: System, more: seq<Event>, key: string, guest: Id)
    requires Holds(world, s) && key in s.issued && key in s.barred
    ensures Commits(world, s, more, guest, key) == 0
    ensures var s' := After(world, s, more); Holds(world, s') && key in s'.issued && key in s'.barred
  {
    if more != [] {
      var shorter, last := more[..|more| - 1], more[|more| - 1];
      BarredForGood(world, s, shorter, key, guest);
      var before := After(world, s, shorter);
      if Possible(before, last) {
        EventKeeps(world, before, last);
        IssuedStays(world, before, last, key);
      }
    }
  }

  /** A fault of the record is met by records only that no server takes. */
  lemma FaultIsBarred(s: System, action: Action)
    requires Drops(s, action) && action.Failed? && RecordFault(action.error)
    requires Coherent(s.client, s.latest, s.sent) && LatestIsIssued(s.latest, s.issued)
    requires forall result | AnsweredWith(s, s.client.flight.value, result) && !result.Ok? ::
      ErrorOf(result) != action.error
    ensures s.client.store.value.key in s.barred && s.client.store.value.key in s.issued
  {
  }

  /** No repository answer is about the size or the media type. */
  lemma AnswersAreNoFaults(result: Result)
    requires !result.Ok?
    ensures !RecordFault(ErrorOf(result))
  {
  }

  lemma FaultIsSafe(world: World, s: System, action: Action)
    requires Holds(world, s) && Drops(s, action) && action.Failed? && RecordFault(action.error)
    ensures Safe(world, Happen(world, s, Acted(action)), s.client.store.value.key)
  {
    var key, s' := s.client.store.value.key, Happen(world, s, Acted(action));
    forall result | AnsweredWith(s, s.client.flight.value, result) && !result.Ok? ensures ErrorOf(result) != action.error {
      AnswersAreNoFaults(result);
    }
    FaultIsBarred(s, action);
    DropLeaves(s, action);
    EventKeeps(world, s, Acted(action));
    forall more: seq<Event>, other: Id ensures Commits(world, s', more, other, key) == 0 {
      BarredForGood(world, s', more, key, other);
    }
  }

  lemma TellingIsSafe(world: World, guest: Id, session: Id, events: seq<Event>, action: Action)
    requires world.Valid() && Tells(action)
    ensures SafeAfter(world, guest, session, events, action)
  {
    var s := After(world, Begin(guest, session), events);
    BeginHolds(world, guest, session);
    EveryRunHolds(world, Begin(guest, session), events);
    if Drops(s, action) {
      if Knowingly(action) {
        KnowingIsSafe(world, s, action);
      } else {
        FaultIsSafe(world, s, action);
      }
    }
  }

  /* a command is sent, its answer is lost, the cookie changes, and the replay is refused or cannot be sent */

  function FirstRequest(s: System, key: string, command: Command): Request
    requires s.client.displayed.Some?
  {
    CommandRequest(s.guest, s.session, key, s.client.displayed.value.attempt, s.client.displayed.value.version, command)
  }

  ghost predicate MaySubmit(s: System, key: string, command: Command) {
    && Free(s.client) && NeverUsed(s, key) && key !in s.barred && ValidKey(key) && command != Malformed
    && s.client.displayed.Some? && s.client.displayed.value.at.state == Active
    && s.client.displayed.value.version <= MAX_SAFE_INTEGER
  }

  function Submission(s: System, key: string, command: Command): Action
    requires s.client.displayed.Some?
  {
    Submit(key, s.client.displayed.value.version, command, true, true)
  }

  function Submitted(s: System, key: string, command: Command): System
    requires s.client.displayed.Some?
  {
    Act(s, Submission(s, key, command))
  }

  function Lost(s: System, key: string, command: Command): System
    requires s.client.displayed.Some?
  {
    Act(Submitted(s, key, command), Action.Failed(NetworkError, true))
  }

  /** The cookie that another tab has left. */
  datatype Cookie = Cookie(guest: Id, session: Id)

  function Changed(s: System, key: string, command: Command, cookie: Cookie): System
    requires s.client.displayed.Some?
  {
    Lost(s, key, command).(guest := cookie.guest, session := cookie.session)
  }

  /** A response needs a request; without the token none can be made. */
  predicate NeedsRequest(action: Action) { action.Failed? && !BeforeSending(action.error) }

  function Retried(s: System, key: string, command: Command, cookie: Cookie, built: bool): System
    requires s.client.displayed.Some?
  {
    Act(Changed(s, key, command, cookie), ReplayPending(built))
  }

  function RecordOf(s: System, key: string, command: Command): Pending
    requires s.client.displayed.Some?
  {
    Pending(key, CommandOperation(s.client.displayed.value.attempt, s.client.displayed.value.version, command))
  }

  lemma FirstSend(s: System, key: string, command: Command)
    requires MaySubmit(s, key, command)
    ensures MayAct(s, Submission(s, key, command))
    ensures var p, after := RecordOf(s, key, command), Submitted(s, key, command);
      && after.client.store == Some(p) && after.client.flight == Some(Flight(p, Some(|s.sent|), Awaiting))
      && after.client.recovery.None? && after.sent == s.sent + [FirstRequest(s, key, command)] && after.db == s.db
      && after.issued == s.issued[key := p.op] && after.barred == s.barred
  {
  }

  lemma SecondTry(s: System, key: string, command: Command, cookie: Cookie, built: bool)
    requires MaySubmit(s, key, command)
    ensures MayAct(Submitted(s, key, command), Action.Failed(NetworkError, true))
    ensures MayAct(Changed(s, key, command, cookie), ReplayPending(built))
    ensures var p, after := RecordOf(s, key, command), Retried(s, key, command, cookie, built);
      && after.client.store == Some(p) && after.client.recovery == Some(Replaying)
      && after.client.flight == Some(Flight(p, if built then Some(|s.sent| + 1) else None, Awaiting))
      && after.sent == s.sent + [FirstRequest(s, key, command)]
                       + (if built then [RequestOf(p, cookie.guest, cookie.session)] else [])
      && after.db == s.db && after.issued == s.issued[key := p.op] && after.barred == s.barred
  {
    FirstSend(s, key, command);
  }

  /** There, every action that drops records without telling is possible. */
  lemma UntoldDrops(s: System, p: Pending, action: Action)
    requires Dropping(action) && !Tells(action)
    requires s.client.store == Some(p) && s.client.flight.Some? && s.client.flight.value.pending == p
    requires s.client.flight.value.phase.Awaiting? && p.op.CommandOperation? && p.key in s.issued
    requires s.client.flight.value.fetch.Some? <==> NeedsRequest(action)
    requires s.client.flight.value.fetch.Some? ==> s.client.flight.value.fetch.value < |s.sent|
    ensures Drops(s, action)
    ensures var s' := Act(s, action); s'.client.store.None? && s' == s.(client := s'.client)
  {
  }

  lemma StillCommits(world: World, s: System, n: nat, db: Db, clock: Clock, freshId: Id)
    requires n < |s.sent| && s.db == db && s.sent[n].CommandRequest? && s.sent[n].key !in s.barred
    requires Fresh(Serve(world, db, s.sent[n], clock, freshId).1)
    ensures CommitsNow(world, s, Delivered(n, clock, freshId), s.sent[n].guest, s.sent[n].key)
  {
  }

  /** A command is sent and its answer lost; another tab changes the cookies. The replay is refused, or cannot be
      sent because the CSRF cookie is unreadable, or the page takes its session for lost, or a new one is wanted:
      the page forgets the record. The first request then arrives and commits: the page is free for a new action
      although the old one still takes effect. */
  lemma ForgottenCommandCommits(
    world: World, s: System, key: string, command: Command, cookie: Cookie, action: Action, clock: Clock, freshId: Id)
    requires Holds(world, s) && MaySubmit(s, key, command) && Dropping(action) && !Tells(action)
    requires InTime(world, s.db, FirstRequest(s, key, command), clock) && !Spent(world, s.db, FirstRequest(s, key, command))
    ensures MayAct(s, Submission(s, key, command)) && MayAct(Submitted(s, key, command), Action.Failed(NetworkError, true))
    ensures MayAct(Changed(s, key, command, cookie), ReplayPending(NeedsRequest(action)))
    ensures
      var last := Retried(s, key, command, cookie, NeedsRequest(action));
      && Drops(last, action) && Act(last, action).client.store.None?
      && CommitsNow(world, Act(last, action), Delivered(|s.sent|, clock, freshId), s.guest, key)
  {
    var request, last := FirstRequest(s, key, command), Retried(s, key, command, cookie, NeedsRequest(action));
    FirstSend(s, key, command);
    SecondTry(s, key, command, cookie, NeedsRequest(action));
    UntoldDrops(last, RecordOf(s, key, command), action);
    assert Seen(s.db.attempts, s.client.displayed.value);
    InTimeCommitsUnlessSpent(world, s.db, request, clock, freshId);
    StillCommits(world, Act(last, action), |s.sent|, s.db, clock, freshId);
  }

  /* a run that leads there */

  const CASE: Id := 7
  const GUEST: Id := 3
  const SESSION: Id := 4
  const ATTEMPT: Id := 9

  /** One guest with one session, and the case of day 0. */
  function CaseWorld(): World {
    World(map[CASE := Revision(0, 1, map["a" := 1, "b" := 2], {})], map[0 := CASE], {GUEST},
          map[SESSION := Session(GUEST, DAY)])
  }

  /** The page reads the case, shows it, starts it, and gets the answer. */
  function Looked(): System { Happen(CaseWorld(), Begin(GUEST, SESSION), CaseServed(GUEST, 0, 0)) }

  function Shows(): System { Act(Looked(), CaseAccepted(NotStarted(0, DAY))) }

  function Started(): System { Act(Shows(), StartCase("s", true, true)) }

  function Delivers(): System { Happen(CaseWorld(), Started(), Delivered(0, Clock(1, 1, 1), ATTEMPT)) }

  function Playing(): System
    requires ATTEMPT in Delivers().db.attempts && Delivers().db.attempts[ATTEMPT].revision in CaseWorld().revisions
  {
    Act(Delivers(), Succeeded(Project(CaseWorld(), Delivers().db, ATTEMPT), true))
  }

  lemma StartsPlaying()
    ensures CaseWorld().Valid()
    ensures
      var s, p := Started(), Pending("s", StartOperation(0, DAY));
      && NotStarted(0, DAY) in Looked().cases && NeverUsed(Shows(), "s")
      && s.db == EMPTY && s.sent == [StartRequest(GUEST, SESSION, "s")] && s.issued == map["s" := p.op]
      && s.client == Page(Some(p)).(status := Ready, currentCase := Some(NotStarted(0, DAY)), mutation := InFlight,
                                    flight := Some(Flight(p, Some(0), Awaiting)))
      && s.guest == GUEST && s.session == SESSION && s.answers == {} && s.barred == {}
  {
    assert CaseWorld().CurrentRevision(0) == Some(CASE);
    assert Looked().db == EMPTY && Looked().cases == {NotStarted(0, DAY)};
    assert Shows().client == Page(None).(status := Ready, currentCase := Some(NotStarted(0, DAY)));
  }

  lemma DeliversAttempt()
    ensures
      var s := Delivers();
      var row := Attempt(GUEST, CASE, 0, START, 0, 1, None);
      && s.db.attempts == map[ATTEMPT := row] && s.db.receipts.Keys == {(GUEST, "s")}
      && s == Started().(db := s.db, answers := s.answers)
      && (0, Ok(OutcomeCode.Started, false, Project(CaseWorld(), s.db, ATTEMPT))) in s.answers
  {
    StartsPlaying();
    var world := CaseWorld();
    assert world.CurrentRevision(1) == Some(CASE);
    assert Serve(world, EMPTY, StartRequest(GUEST, SESSION, "s"), Clock(1, 1, 1), ATTEMPT)
        == Open(world, EMPTY, GUEST, SESSION, "s", CASE, Clock(1, 1, 1), ATTEMPT);
  }

  lemma ShowsAttempt()
    ensures ATTEMPT in Delivers().db.attempts && Delivers().db.attempts[ATTEMPT].revision in CaseWorld().revisions
    ensures
      var s, view := Playing(), Project(CaseWorld(), Delivers().db, ATTEMPT);
      && view.attempt == ATTEMPT && view.version == 0 && view.at.state == Active
      && Free(s.client) && s.client.displayed == Some(view) && s.issued.Keys == {"s"}
      && s == Delivers().(client := s.client) && s.barred == {}
  {
    StartsPlaying();
    DeliversAttempt();
  }

  lemma SurrenderIsOpen(db: Db)
    requires db.attempts == map[ATTEMPT := Attempt(GUEST, CASE, 0, START, 0, 1, None)] && db.receipts.Keys == {(GUEST, "s")}
    ensures var request := CommandRequest(GUEST, SESSION, "g", ATTEMPT, 0, Surrender);
      InTime(CaseWorld(), db, request, Clock(2, 2, 2)) && !Spent(CaseWorld(), db, request)
  {
  }

  lemma MayTakeAnswer(s: System, view: View)
    requires s.client.flight.Some? && s.client.flight.value.phase.Awaiting? && s.client.flight.value.fetch == Some(0)
    requires (0, Ok(OutcomeCode.Started, false, view)) in s.answers
    ensures MayAct(s, Succeeded(view, true))
  {
    assert AnsweredWith(s, s.client.flight.value, Ok(OutcomeCode.Started, false, view));
  }

  lemma MaySurrender(s: System)
    requires Free(s.client) && s.client.displayed.Some? && s.client.displayed.value.at.state == Active
    requires s.client.displayed.value.version == 0 && s.issued.Keys == {"s"} && s.db.receipts.Keys == {(GUEST, "s")}
    requires s.barred == {}
    ensures MaySubmit(s, "g", Surrender)
  {
  }

  /* the run as a whole */

  lemma OneMoreEvent(world: World, begin: System, events: seq<Event>, event: Event)
    requires Possible(After(world, begin, events), event)
    ensures After(world, begin, events + [event]) == Happen(world, After(world, begin, events), event)
  {
    assert (events + [event])[..|events|] == events;
  }

  /** A state that some run reaches. */
  ghost predicate Reachable(world: World, s: System) {
    exists guest: Id, session: Id, events: seq<Event> :: s == After(world, Begin(guest, session), events)
  }

  lemma ReachesFurther(world: World, s: System, event: Event)
    requires Reachable(world, s) && Possible(s, event)
    ensures Reachable(world, Happen(world, s, event))
  {
    var guest: Id, session: Id, events: seq<Event> :| s == After(world, Begin(guest, session), events);
    OneMoreEvent(world, Begin(guest, session), events, event);
  }

  lemma PlayingIsReachable()
    ensures ATTEMPT in Delivers().db.attempts && Delivers().db.attempts[ATTEMPT].revision in CaseWorld().revisions
    ensures Reachable(CaseWorld(), Playing())
  {
    var world := CaseWorld();
    StartsPlaying();
    DeliversAttempt();
    MayTakeAnswer(Delivers(), Project(world, Delivers().db, ATTEMPT));
    assert Begin(GUEST, SESSION) == After(world, Begin(GUEST, SESSION), []);
    ReachesFurther(world, Begin(GUEST, SESSION), CaseServed(GUEST, 0, 0));
    ReachesFurther(world, Looked(), Acted(CaseAccepted(NotStarted(0, DAY))));
    ReachesFurther(world, Shows(), Acted(StartCase("s", true, true)));
    ReachesFurther(world, Started(), Delivered(0, Clock(1, 1, 1), ATTEMPT));
    ReachesFurther(world, Delivers(), Acted(Succeeded(Project(world, Delivers().db, ATTEMPT), true)));
  }

  /** The state in which a command can be lost is reached: a run leads there, and the conditions of
      ForgottenCommandCommits hold for giving up. */
  lemma LosingACommandIsPossible()
    ensures ATTEMPT in Delivers().db.attempts && Delivers().db.attempts[ATTEMPT].revision in CaseWorld().revisions
    ensures Reachable(CaseWorld(), Playing()) && Holds(CaseWorld(), Playing())
    ensures var s := Playing();
      && MaySubmit(s, "g", Surrender)
      && InTime(CaseWorld(), s.db, FirstRequest(s, "g", Surrender), Clock(2, 2, 2))
      && !Spent(CaseWorld(), s.db, FirstRequest(s, "g", Surrender))
  {
    PlayingIsReachable();
    StartsPlaying();
    DeliversAttempt();
    ShowsAttempt();
    SurrenderIsOpen(Delivers().db);
    MaySurrender(Playing());
    ReachableHolds(CaseWorld(), Playing());
  }

  lemma ReachableHolds(world: World, s: System)
    requires world.Valid() && Reachable(world, s)
    ensures Holds(world, s)
  {
    var guest: Id, session: Id, events: seq<Event> :| s == After(world, Begin(guest, session), events);
    BeginHolds(world, guest, session);
    EveryRunHolds(world, Begin(guest, session), events);
  }

  lemma RetriedIsReachable(world: World, s: System, key: string, command: Command, cookie: Cookie, built: bool)
    requires Reachable(world, s) && MaySubmit(s, key, command)
    ensures Reachable(world, Retried(s, key, command, cookie, built))
  {
    FirstSend(s, key, command);
    SecondTry(s, key, command, cookie, built);
    ReachesFurther(world, s, Acted(Submission(s, key, command)));
    ReachesFurther(world, Submitted(s, key, command), Acted(Action.Failed(NetworkError, true)));
    ReachesFurther(world, Lost(s, key, command), CookieChanged(cookie.guest, cookie.session));
    ReachesFurther(world, Changed(s, key, command, cookie), Acted(ReplayPending(built)));
  }

  lemma DropIsUnsafe(world: World, s: System, action: Action, event: Event, guest: Id)
    requires world.Valid() && Reachable(world, s) && Drops(s, action)
    requires CommitsNow(world, Act(s, action), event, guest, s.client.store.value.key)
    ensures !AlwaysSafe(action)
  {
    OneDelivery(world, Act(s, action), event, guest, s.client.store.value.key);
    var first: Id, session: Id, events: seq<Event> :| s == After(world, Begin(first, session), events);
    assert !SafeAfter(world, first, session, events, action);
  }

  lemma LossIsUnsafe(
    world: World, s: System, key: string, command: Command, cookie: Cookie, action: Action, clock: Clock)
    requires world.Valid() && Reachable(world, s) && Holds(world, s) && MaySubmit(s, key, command)
    requires InTime(world, s.db, FirstRequest(s, key, command), clock) && !Spent(world, s.db, FirstRequest(s, key, command))
    requires Dropping(action) && !Tells(action)
    ensures !AlwaysSafe(action)
  {
    var built := NeedsRequest(action);
    ForgottenCommandCommits(world, s, key, command, cookie, action, clock, 0);
    SecondTry(s, key, command, cookie, built);
    RetriedIsReachable(world, s, key, command, cookie, built);
    DropIsUnsafe(world, Retried(s, key, command, cookie, built), action, Delivered(|s.sent|, clock, 0), s.guest);
  }

  lemma UntoldIsUnsafe(action: Action)
    requires Dropping(action) && !Tells(action)
    ensures !AlwaysSafe(action)
  {
    LosingACommandIsPossible();
    StartsPlaying();
    LossIsUnsafe(CaseWorld(), Playing(), "g", Surrender, Cookie(0, 0), action, Clock(2, 2, 2));
  }

  /** Of the actions that may drop a command's record, exactly those are safe in every reachable state that tell
      what has become of it: a success, a verdict on the command, a read that proves its outcome, and a fault of
      the record itself, which every server finds. Session loss, a new session, an unreadable token and the other
      errors that the retry policy does not name are not. */
  lemma AlwaysSafeIffTold(action: Action)
    requires Dropping(action)
    ensures AlwaysSafe(action) <==> Tells(action)
  {
    if Tells(action) {
      forall world: World, guest: Id, session: Id, events: seq<Event> | world.Valid()
        ensures SafeAfter(world, guest, session, events, action)
      {
        TellingIsSafe(world, guest, session, events, action);
      }
    } else {
      UntoldIsUnsafe(action);
    }
  }
}
