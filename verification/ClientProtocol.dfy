/** The browser side of the command protocol: apps/web/src/state/controller.ts with the pending record of
    apps/web/src/api/pending-operation.ts and the retry policy.

    The controller's asynchronous methods are cut at their awaits. Each piece that runs without a pause is a
    function from the controller's state to its next state, together with the operation that it sends. */
module ClientProtocol {
  import opened Basics
  import opened AttemptEngine
  import opened GameplayLedger

  /* ---- errors and what they mean for a pending mutation ---- */

  datatype ApiCode =
    | InvalidRequest | InvalidGuess | AuthenticationRequired | RequestForbidden | ResourceNotFound
    | NoCurrentCase | IdempotencyConflict | StaleVersion | EvidenceLimit | TerminalAttempt
    | BodyTooLarge | UnsupportedMediaType | RateLimited | InternalError | ServiceUnavailable | RequestTimeout

  /** `OtherError` is anything thrown that is not an ApiClientError, such as a storage error. */
  datatype ClientError =
    | ApiError(code: ApiCode)
    | RateLimitError | Cancelled | InvalidClientRequest | MalformedResponse | NetworkError | SessionSecurity
    | OtherError

  datatype Directive = DoNotRetry | ReplayExactMutation | RefreshThenNewCommand | UseNewCommandKey

  /** retryDirective for the two gameplay mutations. */
  function RetryDirective(error: ClientError): Directive {
    if error in {NetworkError, MalformedResponse, Cancelled, RateLimitError} then ReplayExactMutation
    else if !error.ApiError? then DoNotRetry
    else if error.code in {InternalError, ServiceUnavailable, RequestTimeout, ApiCode.RateLimited} then ReplayExactMutation
    else if error.code == ApiCode.StaleVersion then RefreshThenNewCommand
    else if error.code == ApiCode.IdempotencyConflict then UseNewCommandKey
    else DoNotRetry
  }

  /** The HTTP code of a gameplay refusal. */
  function CodeOf(refusal: Refusal): ApiCode {
    match refusal
    case NoCurrentCase => ApiCode.NoCurrentCase
    case EvidenceLimitReached => ApiCode.EvidenceLimit
    case IdempotencyConflict => ApiCode.IdempotencyConflict
    case InvalidCommand => ApiCode.InvalidRequest
    case SessionExpired => ApiCode.AuthenticationRequired
    case StaleVersion => ApiCode.StaleVersion
    case AttemptIsOver => ApiCode.TerminalAttempt
    case UnknownAttempt => ApiCode.ResourceNotFound
    case UnknownEntity => ApiCode.InvalidGuess
  }

  function ErrorOf(result: Result): ClientError
    requires !result.Ok?
  {
    if result.Failed? then ApiError(InternalError) else ApiError(CodeOf(result.code))
  }

  /** The codes that only the gameplay repository gives, after it has looked at the tables. */
  predicate Verdict(code: ApiCode) {
    || code == ApiCode.NoCurrentCase
    || code == ApiCode.IdempotencyConflict
    || code == ApiCode.StaleVersion
    || code == ApiCode.EvidenceLimit
    || code == ApiCode.TerminalAttempt
    || code == ApiCode.InvalidGuess
  }

  /** Errors that tell nothing about the tables, whether or not an earlier request was executed. */
  predicate OnTheWay(error: ClientError) {
    error.ApiError? ==> !Verdict(error.code)
  }

  /** Errors that depend on the record alone: it makes no request, or one whose size or media type is refused
      before anything else is done with it. */
  predicate RecordFault(error: ClientError) {
    error in {InvalidClientRequest, ApiError(BodyTooLarge), ApiError(UnsupportedMediaType)}
  }

  /** Errors that the page finds before it calls fetch: the token or the request cannot be made. */
  predicate BeforeSending(error: ClientError) {
    error in {SessionSecurity, InvalidClientRequest}
  }

  /* ---- the pending record ---- */

  datatype Operation =
    | StartOperation(slot: int, closesAt: Time)
    | CommandOperation(attempt: Id, expectedVersion: int, command: Command)

  datatype Pending = Pending(key: string, op: Operation)

  function RequestOf(p: Pending, guest: Id, session: Id): Request {
    match p.op
    case StartOperation(_, _) => StartRequest(guest, session, p.key)
    case CommandOperation(attempt, expectedVersion, command) =>
      CommandRequest(guest, session, p.key, attempt, expectedVersion, command)
  }

  /** What parsePendingOperation accepts. */
  predicate Storable(p: Pending) {
    && ValidKey(p.key)
    && (p.op.CommandOperation? ==> 0 <= p.op.expectedVersion <= MAX_SAFE_INTEGER && p.op.command != Malformed)
  }

  /** commandOutcomeIsProven: the attempt as read shows what the command was to achieve. `names` are the
      public names of the entities. */
  predicate Proven(op: Operation, view: View, names: map<Id, string>)
    requires op.CommandOperation?
  {
    && op.expectedVersion < view.version
    && match op.command
       case Surrender => view.at.state == GivenUp
       case Guess(entity) =>
         || (view.at.state == Solved && view.answer.Some? && Named(names, view.answer.value, entity))
         || (view.at.state == Exhausted && view.history != []
             && Named(names, view.history[|view.history| - 1], entity))
       case _ => false
  }

  predicate Named(names: map<Id, string>, entity: Id, text: string) {
    entity in names && names[entity] == text
  }

  /* ---- the controller's state ---- */

  datatype Status = Idle | Hydrating | ReadError | Ready | SessionLost

  datatype MutationStatus = NoMutation | InFlight | Stale | Uncertain

  /** A running executeMutation: it waits for the response of the fetch it made, if it got as far as a
      fetch, or for the refresh that follows some refusals. */
  datatype Phase = Awaiting | Settling(stale: bool)

  datatype Flight = Flight(pending: Pending, fetch: Option<nat>, phase: Phase)

  /** A running recovery: it reads before it decides, or has gone on to replay. */
  datatype Recovery = Reconciling(replay: bool, pending: Pending) | Replaying

  datatype Client = Client(
    store: Option<Pending>,
    flight: Option<Flight>,
    recovery: Option<Recovery>,
    generation: nat,
    sessionReady: bool,
    status: Status,
    mutation: MutationStatus,
    currentCase: Option<CaseView>,
    displayed: Option<View>)

  /** A new page over the given session storage. */
  function Page(store: Option<Pending>): Client {
    Client(store, None, None, 0, false, Idle, NoMutation, None, None)
  }

  /** Storage may refuse to remove the record. */
  function Clear(c: Client, works: bool): Client {
    if works then c.(store := None) else c
  }

  function ApplyAttempt(c: Client, view: View): Client {
    c.(displayed := Some(view),
       currentCase :=
         if c.currentCase.Some? && c.currentCase.value.Shown? && c.currentCase.value.view.attempt == view.attempt
         then Some(Shown(view)) else c.currentCase)
  }

  function ApplyCase(c: Client, shown: CaseView): Client {
    c.(currentCase := Some(shown), status := Ready)
  }

  /** handleSessionLoss; a storage error is swallowed there. */
  function LoseSession(c: Client, works: bool): Client {
    Clear(c, works).(
      generation := c.generation + 1, sessionReady := false, status := SessionLost, mutation := NoMutation)
  }

  /* ---- new mutations ---- */

  /** executeMutation up to its await. `fetch` is the number of the request, if one could be built. */
  function ExecuteMutation(c: Client, p: Pending, fetch: Option<nat>): Client {
    c.(flight := Some(Flight(p, fetch, Awaiting)), mutation := InFlight)
  }

  predicate Free(c: Client) {
    c.flight.None? && c.recovery.None? && c.store.None?
  }

  /** runNewMutation: refused while anything is pending; otherwise the record is stored, then sent. */
  function RunNewMutation(c: Client, p: Pending, fetch: Option<nat>, works: bool): Client {
    if !Free(c) || !works || !Storable(p) then c else ExecuteMutation(c.(store := Some(p)), p, fetch)
  }

  function SubmitCommand(
    c: Client, key: string, expectedVersion: int, command: Command, fetch: Option<nat>, works: bool): Client
  {
    if c.displayed.None? || c.displayed.value.at.state != Active then c
    else if expectedVersion != c.displayed.value.version then c
    else
      RunNewMutation(
        c, Pending(key, CommandOperation(c.displayed.value.attempt, expectedVersion, command)), fetch, works)
  }

  function StartAttempt(c: Client, key: string, fetch: Option<nat>, works: bool): Client {
    match c.currentCase
    case Some(NotStarted(slot, closesAt)) => RunNewMutation(c, Pending(key, StartOperation(slot, closesAt)), fetch, works)
    case _ => c
  }

  /* ---- the response ---- */

  function EndFlight(c: Client): Client {
    c.(flight := None, recovery := if c.recovery == Some(Replaying) then None else c.recovery)
  }

  /** The response was a success. If the record cannot be removed, the outcome counts as uncertain. */
  function Succeed(c: Client, view: View, works: bool): Client
    requires c.flight.Some?
  {
    if !works then EndFlight(c.(mutation := Uncertain))
    else
      var shown := if c.flight.value.pending.op.StartOperation? then c.(currentCase := Some(Shown(view))) else c;
      EndFlight(ApplyAttempt(Clear(shown, true), view).(mutation := NoMutation, status := Ready))
  }

  /** handleMutationFailure up to its first await. */
  function Fail(c: Client, error: ClientError, works: bool): Client
    requires c.flight.Some?
  {
    var f := c.flight.value;
    if error == ApiError(AuthenticationRequired) then EndFlight(LoseSession(c, works))
    else if error == OtherError || RetryDirective(error) == ReplayExactMutation then EndFlight(c.(mutation := Uncertain))
    else if !works then EndFlight(c)
    else if f.pending.op.CommandOperation? && error == ApiError(ApiCode.StaleVersion) then
      Clear(c, true).(flight := Some(f.(phase := Settling(true))))
    else
      var cleared := Clear(c, true).(mutation := NoMutation);
      if error == ApiError(ApiCode.NoCurrentCase)
         || (f.pending.op.CommandOperation?
             && error in {ApiError(ApiCode.TerminalAttempt), ApiError(ApiCode.EvidenceLimit)})
      then cleared.(flight := Some(f.(phase := Settling(false))))
      else EndFlight(cleared)
  }

  /** The refresh after a refusal has come back, one way or another. */
  function Settle(c: Client): Client
    requires c.flight.Some? && c.flight.value.phase.Settling?
  {
    if c.flight.value.phase.stale && c.status != SessionLost then EndFlight(c.(mutation := Stale)) else EndFlight(c)
  }

  /* ---- recovery ---- */

  predicate MayRecover(c: Client) { c.flight.None? && c.recovery.None? && c.store.Some? }

  /** replayPendingOperation: a command is sent again at once, a start only after a fresh look. */
  function ReplayPendingOperation(c: Client, fetch: Option<nat>): Client {
    if !MayRecover(c) then c
    else if c.store.value.op.StartOperation? then c.(recovery := Some(Reconciling(true, c.store.value)))
    else ExecuteMutation(c.(recovery := Some(Replaying)), c.store.value, fetch)
  }

  function ReconcilePendingOperation(c: Client): Client {
    if !MayRecover(c) then c else c.(recovery := Some(Reconciling(false, c.store.value)))
  }

  function EndRecovery(c: Client): Client { c.(recovery := None) }

  /** reconcilePending for a command, after the attempt was read (or could not be read). */
  function ReconcileCommand(c: Client, accepted: Option<View>, names: map<Id, string>, works: bool): Client
    requires c.recovery.Some? && c.recovery.value.Reconciling? && c.recovery.value.pending.op.CommandOperation?
  {
    var op := c.recovery.value.pending.op;
    var seen := if accepted.Some? then ApplyAttempt(c, accepted.value) else c;
    if seen.status == SessionLost then EndRecovery(seen)
    else if accepted.Some? && Proven(op, accepted.value, names) then
      if works then EndRecovery(Clear(seen, true).(mutation := NoMutation)) else EndRecovery(seen)
    else EndRecovery(seen.(mutation := Uncertain))
  }

  predicate SameRevision(current: Option<CaseView>, closesAt: Time) {
    current.Some? && current.value.Shown? && current.value.view.closesAt == closesAt
  }

  predicate TargetPassed(current: Option<CaseView>, slot: int, closesAt: Time) {
    current.Some? &&
    match current.value
    case NoCase => true
    case NotStarted(shown, _) => shown != slot
    case Shown(view) => view.closesAt != closesAt
  }

  /** reconcilePending for a start, after the current case was read (or could not be read), and the second
      half of a replay: sent again only while the same slot is still waiting to be started. */
  function ReconcileStart(c: Client, accepted: Option<CaseView>, fetch: Option<nat>, works: bool): Client
    requires c.recovery.Some? && c.recovery.value.Reconciling? && c.recovery.value.pending.op.StartOperation?
  {
    var Reconciling(replay, pending) := c.recovery.value;
    var seen := if accepted.Some? then ApplyCase(c, accepted.value) else c;
    if seen.status == SessionLost then EndRecovery(seen)
    else if SameRevision(seen.currentCase, pending.op.closesAt)
            || TargetPassed(seen.currentCase, pending.op.slot, pending.op.closesAt)
    then
      if works then EndRecovery(Clear(seen, true).(mutation := NoMutation)) else EndRecovery(seen)
    else
      var unresolved := seen.(mutation := Uncertain);
      if replay && unresolved.store.Some? && unresolved.store.value.op.StartOperation?
         && unresolved.currentCase == Some(NotStarted(unresolved.store.value.op.slot, unresolved.store.value.op.closesAt))
         && unresolved.status == Ready && unresolved.flight.None?
      then ExecuteMutation(unresolved.(recovery := Some(Replaying)), unresolved.store.value, fetch)
      else EndRecovery(unresolved)
  }

  /* ---- sessions ---- */

  /** initialize up to its await. */
  function Initialize(c: Client, createNew: bool, works: bool): Client {
    var started := c.(
      generation := c.generation + 1, sessionReady := false, status := Hydrating, mutation := NoMutation,
      currentCase := if createNew then None else c.currentCase,
      displayed := if createNew then None else c.displayed);
    if !createNew then started
    else if works then Clear(started, true)
    else started.(status := ReadError)
  }

  /** The session is there; a later initialize or a lost session has overtaken an older one. */
  function Hydrated(c: Client, generation: nat): Client {
    if generation != c.generation then c
    else c.(sessionReady := true, mutation := if c.store.None? then NoMutation else Uncertain)
  }
}
