/** The page's state after an action, column by column: who changes the stored record, the running call, the recovery,
    what is shown and the session, and how. A second account, with the errors and codes written out, that shares no
    function with the transitions; they are proved equal to it. */
module ClientReference {
  import opened Basics
  import opened AttemptEngine
  import opened GameplayLedger
  import opened GameplayTheorems
  import opened ClientProtocol
  import opened ClientSystem

  /* ---- errors ---- */

  /** The errors that leave the outcome of a mutation open. */
  predicate LeavesOpen(error: ClientError) {
    match error
    case ApiError(code) =>
      code == InternalError || code == ServiceUnavailable || code == RequestTimeout || code == ApiCode.RateLimited
    case RateLimitError => true
    case Cancelled => true
    case MalformedResponse => true
    case NetworkError => true
    case OtherError => true
    case InvalidClientRequest => false
    case SessionSecurity => false
  }

  predicate LosesSession(error: ClientError) { error == ApiError(AuthenticationRequired) }

  /** The refusals after which the page looks again before the call ends: a stale version, and what says that case or
      game have moved on. */
  predicate IsStale(op: Operation, error: ClientError) {
    op.CommandOperation? && error == ApiError(ApiCode.StaleVersion)
  }

  predicate HasMovedOn(op: Operation, error: ClientError) {
    || error == ApiError(ApiCode.NoCurrentCase)
    || (op.CommandOperation? && (error == ApiError(ApiCode.TerminalAttempt) || error == ApiError(ApiCode.EvidenceLimit)))
  }

  /** Each refusal has its own code. */
  predicate IsToldAs(refusal: Refusal, code: ApiCode) {
    || (refusal == Refusal.NoCurrentCase && code == ApiCode.NoCurrentCase)
    || (refusal == Refusal.EvidenceLimitReached && code == ApiCode.EvidenceLimit)
    || (refusal == Refusal.IdempotencyConflict && code == ApiCode.IdempotencyConflict)
    || (refusal == Refusal.InvalidCommand && code == ApiCode.InvalidRequest)
    || (refusal == Refusal.SessionExpired && code == ApiCode.AuthenticationRequired)
    || (refusal == Refusal.StaleVersion && code == ApiCode.StaleVersion)
    || (refusal == Refusal.AttemptIsOver && code == ApiCode.TerminalAttempt)
    || (refusal == Refusal.UnknownAttempt && code == ApiCode.ResourceNotFound)
    || (refusal == Refusal.UnknownEntity && code == ApiCode.InvalidGuess)
  }

  lemma EachRefusalIsTold(result: Result)
    requires !result.Ok?
    ensures result.Failed? ==> ErrorOf(result) == ApiError(InternalError) && LeavesOpen(ErrorOf(result))
    ensures result.Refused? ==>
      ErrorOf(result).ApiError? && IsToldAs(result.code, ErrorOf(result).code) && !LeavesOpen(ErrorOf(result))
  {
  }

  /** What the retry policy says to do about each error of a mutation. */
  lemma DirectivesAre(error: ClientError)
    ensures RetryDirective(error) ==
      match error
      case ApiError(StaleVersion) => RefreshThenNewCommand
      case ApiError(IdempotencyConflict) => UseNewCommandKey
      case InvalidClientRequest => DoNotRetry
      case SessionSecurity => DoNotRetry
      case OtherError => DoNotRetry
      case _ => if LeavesOpen(error) then ReplayExactMutation else DoNotRetry
  {
  }

  /* ---- records and what is sent ---- */

  predicate Printable(key: string) { 0 < |key| < 129 && forall i | 0 <= i < |key| :: 32 <= key[i] as int < 127 }

  predicate NothingPending(c: Client) { c.store == None && c.flight == None && c.recovery == None }

  /** The record that an action makes. */
  function NewRecord(c: Client, action: Action): Option<Pending> {
    if !NothingPending(c) then None
    else
      match action
      case Submit(key, version, command, _, works) =>
        if works && c.displayed.Some? && c.displayed.value.at.state == Active && c.displayed.value.version == version
           && Printable(key) && version <= 9_007_199_254_740_991 && command != Malformed
        then Some(Pending(key, CommandOperation(c.displayed.value.attempt, version, command))) else None
      case StartCase(key, _, works) =>
        if works && c.currentCase.Some? && c.currentCase.value.NotStarted? && Printable(key)
        then Some(Pending(key, StartOperation(c.currentCase.value.slot, c.currentCase.value.closesAt))) else None
      case _ => None
  }

  /** A recovery of a command, or of a start, that the action brings an answer to. */
  predicate Answers(c: Client, action: Action) {
    && c.recovery.Some? && c.recovery.value.Reconciling?
    && match action
       case CommandReconciled(_, _, _) => c.recovery.value.pending.op.CommandOperation?
       case StartReconciled(_, _, _) => c.recovery.value.pending.op.StartOperation?
       case _ => false
  }

  /** What is read shows that a command has done what it was to do. */
  predicate ShowsEffect(op: Operation, view: View, names: map<Id, string>)
    requires op.CommandOperation?
  {
    && view.version > op.expectedVersion
    && (|| (op.command == Surrender && view.at.state == GivenUp)
        || (op.command.Guess? && view.at.state == Solved
            && exists id :: view.answer == Some(id) && id in names && names[id] == op.command.entity)
        || (op.command.Guess? && view.at.state == Exhausted && |view.history| > 0
            && view.history[|view.history| - 1] in names && names[view.history[|view.history| - 1]] == op.command.entity))
  }

  /** The case as it is known after the action. */
  function Known(c: Client, action: Action): Option<CaseView> {
    if action.StartReconciled? && action.acceptedCase.Some? then action.acceptedCase else c.currentCase
  }

  predicate Lost(c: Client, action: Action) {
    c.status == SessionLost && !(action.StartReconciled? && action.acceptedCase.Some?)
  }

  /** A recovery settles the record: the command has taken effect, or the slot was started or is no longer the one
      published. */
  predicate Settles(c: Client, action: Action) {
    && Answers(c, action) && !Lost(c, action)
    && var op := c.recovery.value.pending.op;
       match action
       case CommandReconciled(view, names, _) => view.Some? && op.CommandOperation? && ShowsEffect(op, view.value, names)
       case StartReconciled(_, _, _) =>
         && op.StartOperation? && Known(c, action).Some?
         && (Known(c, action).value.NotStarted? ==> Known(c, action).value.slot != op.slot)
       case _ => false
  }

  /** What an action sends: a new record, a stored command again, or a stored start whose slot is still waiting. */
  function Sent(c: Client, action: Action): Option<Pending> {
    match action
    case Submit(_, _, _, _, _) => NewRecord(c, action)
    case StartCase(_, _, _) => NewRecord(c, action)
    case ReplayPending(_) =>
      if c.flight == None && c.recovery == None && c.store.Some? && c.store.value.op.CommandOperation? then c.store else None
    case StartReconciled(_, _, _) =>
      if Answers(c, action) && !Lost(c, action) && !Settles(c, action) && c.recovery.value.replay && c.flight == None
         && c.store.Some? && c.store.value.op.StartOperation?
         && Known(c, action) == Some(NotStarted(c.store.value.op.slot, c.store.value.op.closesAt))
         && (action.acceptedCase.Some? || c.status == Ready)
      then c.store else None
    case _ => None
  }

  predicate Built(action: Action) {
    match action
    case Submit(_, _, _, built, _) => built
    case StartCase(_, built, _) => built
    case ReplayPending(built) => built
    case StartReconciled(_, built, _) => built
    case _ => false
  }

  /* ---- the columns ---- */

  predicate Works(action: Action) {
    match action
    case Succeeded(_, works) => works
    case Failed(_, works) => works
    case CommandReconciled(_, _, works) => works
    case StartReconciled(_, _, works) => works
    case SessionGone(works) => works
    case Initialized(_, works) => works
    case _ => false
  }

  /** The record is removed, if storage works, by a success, by a failure that does not leave the outcome open, by a
      recovery that settles it, by the loss of the session, and by a new one. */
  predicate Removes(c: Client, action: Action) {
    && Works(action)
    && match action
       case Succeeded(_, _) => c.flight.Some?
       case Failed(error, _) => c.flight.Some? && !LeavesOpen(error)
       case CommandReconciled(_, _, _) => Settles(c, action)
       case StartReconciled(_, _, _) => Settles(c, action)
       case SessionGone(_) => true
       case Initialized(createNew, _) => createNew
       case _ => false
  }

  function StoreAfter(c: Client, action: Action): Option<Pending> {
    if Removes(c, action) then None else if NewRecord(c, action).Some? then NewRecord(c, action) else c.store
  }

  function FlightAfter(c: Client, action: Action, n: nat): Option<Flight> {
    if Sent(c, action).Some? then Some(Flight(Sent(c, action).value, if Built(action) then Some(n) else None, Awaiting))
    else if c.flight == None then None
    else
      match action
      case Succeeded(_, _) => None
      case Failed(error, works) =>
        if works && IsStale(c.flight.value.pending.op, error) then
          Some(Flight(c.flight.value.pending, c.flight.value.fetch, Settling(true)))
        else if works && HasMovedOn(c.flight.value.pending.op, error) then
          Some(Flight(c.flight.value.pending, c.flight.value.fetch, Settling(false)))
        else None
      case Refreshed => if c.flight.value.phase == Awaiting then c.flight else None
      case Reloaded => None
      case _ => c.flight
  }

  function RecoveryAfter(c: Client, action: Action, n: nat): Option<Recovery> {
    if Sent(c, action).Some? then if NewRecord(c, action).Some? then None else Some(Replaying)
    else if Answers(c, action) || action == Reloaded then None
    else if c.flight.Some? && FlightAfter(c, action, n) == None then if c.recovery == Some(Replaying) then None else c.recovery
    else if c.flight.Some? || c.recovery.Some? || c.store == None then c.recovery
    else
      match action
      case ReplayPending(_) => Some(Reconciling(true, c.store.value))
      case ReconcilePending => Some(Reconciling(false, c.store.value))
      case _ => None
  }

  function MutationAfter(c: Client, action: Action): MutationStatus {
    if Sent(c, action).Some? then InFlight
    else
      match action
      case Succeeded(_, works) => if c.flight == None then c.mutation else if works then NoMutation else Uncertain
      case Failed(error, works) =>
        if c.flight == None then c.mutation
        else if LosesSession(error) then NoMutation
        else if LeavesOpen(error) then Uncertain
        else if !works || IsStale(c.flight.value.pending.op, error) then c.mutation
        else NoMutation
      case Refreshed =>
        if c.flight.Some? && c.flight.value.phase == Settling(true) && c.status != SessionLost then MutationStatus.Stale
        else c.mutation
      case CommandReconciled(_, _, works) => AfterRecovery(c, action, works)
      case StartReconciled(_, _, works) => AfterRecovery(c, action, works)
      case SessionGone(_) => NoMutation
      case Initialized(_, _) => NoMutation
      case SessionKnown(generation) =>
        if generation != c.generation then c.mutation else if c.store.Some? then Uncertain else NoMutation
      case Reloaded => NoMutation
      case _ => c.mutation
  }

  function AfterRecovery(c: Client, action: Action, works: bool): MutationStatus {
    if !Answers(c, action) || Lost(c, action) then c.mutation
    else if !Settles(c, action) then Uncertain
    else if works then NoMutation
    else c.mutation
  }

  /** The session ends with the action. */
  predicate Ends(c: Client, action: Action) {
    match action
    case Failed(error, _) => c.flight.Some? && LosesSession(error)
    case SessionGone(_) => true
    case _ => false
  }

  function GenerationAfter(c: Client, action: Action): nat {
    if action == Reloaded then 0 else if Ends(c, action) || action.Initialized? then c.generation + 1 else c.generation
  }

  function SessionReadyAfter(c: Client, action: Action): bool {
    if action == Reloaded || Ends(c, action) || action.Initialized? then false
    else c.sessionReady || (action.SessionKnown? && action.generation == c.generation)
  }

  function StatusAfter(c: Client, action: Action): Status {
    if Ends(c, action) then SessionLost
    else
      match action
      case Succeeded(_, works) => if c.flight.Some? && works then Ready else c.status
      case StartReconciled(shown, _, _) => if Answers(c, action) && shown.Some? then Ready else c.status
      case CaseAccepted(_) => Ready
      case ReadFailed => ReadError
      case Initialized(createNew, works) => if createNew && !works then ReadError else Hydrating
      case Reloaded => Idle
      case _ => c.status
  }

  /** The attempt that the action brings. */
  function Brought(c: Client, action: Action): Option<View> {
    match action
    case Succeeded(view, works) => if c.flight.Some? && works then Some(view) else None
    case CommandReconciled(view, _, _) => if Answers(c, action) then view else None
    case AttemptAccepted(view) => Some(view)
    case _ => None
  }

  predicate StartsAnew(action: Action) { action == Reloaded || (action.Initialized? && action.createNew) }

  function DisplayedAfter(c: Client, action: Action): Option<View> {
    if StartsAnew(action) then None else if Brought(c, action).Some? then Brought(c, action) else c.displayed
  }

  /** The case follows its own attempt, and a start shows the attempt that it opened. */
  function CaseAfter(c: Client, action: Action): Option<CaseView> {
    var view := Brought(c, action);
    if StartsAnew(action) then None
    else if action.CaseAccepted? then Some(action.shown)
    else if action.StartReconciled? && action.acceptedCase.Some? && Answers(c, action) then action.acceptedCase
    else if view.Some?
            && (|| (action.Succeeded? && c.flight.Some? && c.flight.value.pending.op.StartOperation?)
                || (c.currentCase.Some? && c.currentCase.value.Shown? && c.currentCase.value.view.attempt == view.value.attempt))
    then Some(Shown(view.value))
    else c.currentCase
  }

  /** The page after an action, whole. */
  function Columns(c: Client, action: Action, n: nat): Client {
    Client(StoreAfter(c, action), FlightAfter(c, action, n), RecoveryAfter(c, action, n), GenerationAfter(c, action),
           SessionReadyAfter(c, action), StatusAfter(c, action), MutationAfter(c, action), CaseAfter(c, action),
           DisplayedAfter(c, action))
  }

  /* ---- the transitions are the columns ---- */

  /** While a call runs, no recovery reads. */
  predicate OneAtATime(c: Client) {
    c.flight.Some? ==> !(c.recovery.Some? && c.recovery.value.Reconciling?)
  }

  lemma RecordsAre(c: Client, action: Action, n: nat)
    requires action.Submit? || action.StartCase?
    ensures Next(c, action, n) == Columns(c, action, n)
  {
  }

  lemma SuccessIs(c: Client, action: Action, n: nat)
    requires action.Succeeded? || action.Refreshed?
    ensures Next(c, action, n) == Columns(c, action, n)
  {
  }

  lemma ReplayIs(error: ClientError)
    ensures error == OtherError || RetryDirective(error) == ReplayExactMutation <==> LeavesOpen(error)
  {
  }

  lemma FailureIs(c: Client, action: Action, n: nat)
    requires action.Failed?
    ensures Next(c, action, n) == Columns(c, action, n)
  {
    ReplayIs(action.error);
  }

  lemma RecoveryIs(c: Client, action: Action, n: nat)
    requires action.ReplayPending? || action.ReconcilePending?
    ensures Next(c, action, n) == Columns(c, action, n)
  {
  }

  lemma ProvenIsShown(op: Operation, view: View, names: map<Id, string>)
    requires op.CommandOperation?
    ensures Proven(op, view, names) <==> ShowsEffect(op, view, names)
  {
  }

  lemma CommandRecoveryIs(c: Client, action: Action, n: nat)
    requires action.CommandReconciled? && OneAtATime(c)
    ensures Next(c, action, n) == Columns(c, action, n)
  {
    if action.acceptedView.Some? && AwaitsCommand(c) {
      ProvenIsShown(c.recovery.value.pending.op, action.acceptedView.value, action.names);
    }
  }

  lemma StartRecoveryIs(c: Client, action: Action, n: nat)
    requires action.StartReconciled? && OneAtATime(c)
    ensures Next(c, action, n) == Columns(c, action, n)
  {
  }

  lemma OthersAre(c: Client, action: Action, n: nat)
    requires action.AttemptAccepted? || action.CaseAccepted? || action.ReadFailed? || action.SessionGone?
             || action.Initialized? || action.SessionKnown? || action.Reloaded?
    ensures Next(c, action, n) == Columns(c, action, n)
  {
  }

  /** The page's next state is the columns: nothing of it is left to the transitions alone. */
  lemma EveryColumnIsReference(c: Client, action: Action, n: nat)
    requires OneAtATime(c)
    ensures Next(c, action, n) == Columns(c, action, n)
  {
    match action {
      case Submit(_, _, _, _, _) => RecordsAre(c, action, n);
      case StartCase(_, _, _) => RecordsAre(c, action, n);
      case Succeeded(_, _) => SuccessIs(c, action, n);
      case Refreshed => SuccessIs(c, action, n);
      case Failed(_, _) => FailureIs(c, action, n);
      case ReplayPending(_) => RecoveryIs(c, action, n);
      case ReconcilePending => RecoveryIs(c, action, n);
      case CommandReconciled(_, _, _) => CommandRecoveryIs(c, action, n);
      case StartReconciled(_, _, _) => StartRecoveryIs(c, action, n);
      case _ => OthersAre(c, action, n);
    }
  }

  /* ---- what leaves the page ---- */

  /** The request that a record makes under the session cookie. */
  function RequestFor(p: Pending, guest: Id, session: Id): Request {
    if p.op.StartOperation? then StartRequest(guest, session, p.key)
    else CommandRequest(guest, session, p.key, p.op.attempt, p.op.expectedVersion, p.op.command)
  }

  /** An action on the page, from the columns: one request at most goes out, for what is sent and if it could be built,
      and a key is issued with its operation exactly when a record is made. */
  ghost predicate ActsAsReference(s: System, action: Action, t: System) {
    var c := s.client;
    && t.client == Columns(c, action, |s.sent|)
    && t.sent == (if Sent(c, action).Some? && Built(action)
                  then s.sent + [RequestFor(Sent(c, action).value, s.guest, s.session)] else s.sent)
    && t.issued == (if NewRecord(c, action).Some?
                    then s.issued[NewRecord(c, action).value.key := NewRecord(c, action).value.op] else s.issued)
    && t.db == s.db && t.guest == s.guest && t.session == s.session && t.answers == s.answers && t.barred == s.barred
  }

  lemma FlightIsSent(s: System, action: Action)
    requires Coherent(s.client, s.latest, s.sent)
    ensures var f := FlightAfter(s.client, action, |s.sent|);
      f.Some? && f.value.fetch == Some(|s.sent|) <==> Sent(s.client, action).Some? && Built(action)
  {
  }

  lemma StoreIsIssued(s: System, action: Action)
    requires Coherent(s.client, s.latest, s.sent) && LatestIsIssued(s.latest, s.issued) && MayAct(s, action)
    ensures var p := StoreAfter(s.client, action);
      && (p.Some? && p.value.key !in s.issued <==> NewRecord(s.client, action).Some?)
      && (NewRecord(s.client, action).Some? ==> p == NewRecord(s.client, action))
  {
  }

  lemma ActFrom(s: System, action: Action, c: Client, sent: Option<Pending>, made: Option<Pending>)
    requires c == Next(s.client, action, |s.sent|)
    requires c.flight.Some? && c.flight.value.fetch == Some(|s.sent|) <==> sent.Some?
    requires sent.Some? ==> c.flight.value.pending == sent.value
    requires c.store.Some? && c.store.value.key !in s.issued <==> made.Some?
    requires made.Some? ==> c.store == made
    ensures var t := Act(s, action);
      && t.client == c
      && t.sent == (if sent.Some? then s.sent + [RequestFor(sent.value, s.guest, s.session)] else s.sent)
      && t.issued == (if made.Some? then s.issued[made.value.key := made.value.op] else s.issued)
      && t.db == s.db && t.guest == s.guest && t.session == s.session && t.answers == s.answers && t.barred == s.barred
  {
  }

  lemma ActIsReference(s: System, action: Action)
    requires Coherent(s.client, s.latest, s.sent) && LatestIsIssued(s.latest, s.issued) && MayAct(s, action)
    ensures ActsAsReference(s, action, Act(s, action))
  {
    EveryColumnIsReference(s.client, action, |s.sent|);
    FlightIsSent(s, action);
    StoreIsIssued(s, action);
    ActFrom(s, action, Columns(s.client, action, |s.sent|), if Built(action) then Sent(s.client, action) else None,
            NewRecord(s.client, action));
  }

  /** What happens outside leaves page, requests and keys as they are; only what the event is about changes. */
  lemma OutsideLeavesThePage(world: World, s: System, event: Event)
    requires Possible(s, event) && !event.Acted?
    ensures var t := Happen(world, s, event);
      && t.client == s.client && t.sent == s.sent && t.issued == s.issued && t.latest == s.latest
      && (!event.CookieChanged? ==> t.guest == s.guest && t.session == s.session)
      && (forall key: string :: key in t.barred <==> key in s.barred || event == KeyBarred(key))
      && (forall n: nat, r: Result :: (n, r) in t.answers <==>
            (n, r) in s.answers
            || (event.Delivered? && n == event.n && r == Serve(world, s.db, s.sent[n], event.clock, event.freshId).1))
      && match event
         case CookieChanged(guest, session) => t.guest == guest && t.session == session && t.db == s.db
         case KeyBarred(_) => t.db == s.db
         case Delivered(n, clock, freshId) => t.db == Serve(world, s.db, s.sent[n], clock, freshId).0
         case Elsewhere(step) => t.db == Take(world, s.db, step)
         case AttemptServed(guest, id, now) => t.db == ReadOwned(world, s.db, guest, id, now).0
         case CaseServed(guest, first, now) => t.db == ReadCurrent(world, s.db, guest, first, now).0
         case _ => true
  {
  }
}
