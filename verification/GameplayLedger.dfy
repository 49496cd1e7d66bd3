/** The gameplay tables and what one transaction does to them.

    Each transaction locks its guest's row first and commits or rolls back as a whole, so it is one step
    on the value `Db`. The functions here say what every transaction computes; the class
    GameplayDatabase runs the same statements one by one. */
module GameplayLedger {
  import opened Basics
  import opened AttemptEngine

  type Id = nat

  /** Milliseconds of the database clock. */
  type Time = int

  const DAY: int := 86_400_000

  /* ---- published content and identities, which gameplay never changes ---- */

  /** `lookup` finds an eligible entity by the text a guess names it with. */
  datatype Revision = Revision(slot: int, answer: Id, lookup: map<string, Id>, regions: set<string>)
  {
    function OpensAt(): Time { slot * DAY }
    function ClosesAt(): Time { slot * DAY + DAY }
  }

  datatype Session = Session(guest: Id, expiresAt: Time)

  datatype World = World(
    revisions: map<Id, Revision>, bySlot: map<int, Id>, guests: set<Id>, sessions: map<Id, Session>)
  {
    /** Published windows are whole UTC days that do not overlap, so a slot has one revision. */
    ghost predicate Valid() {
      && (forall s <- bySlot :: bySlot[s] in revisions && revisions[bySlot[s]].slot == s)
      && (forall r <- revisions :: revisions[r].slot in bySlot && bySlot[revisions[r].slot] == r)
    }

    function CurrentRevision(now: Time): Option<Id> {
      if now / DAY in bySlot then Some(bySlot[now / DAY]) else None
    }

    predicate SessionIsLive(guest: Id, session: Id, now: Time) {
      session in sessions && sessions[session].guest == guest && now < sessions[session].expiresAt
    }
  }

  /* ---- rows ---- */

  datatype Attempt = Attempt(
    guest: Id, revision: Id, slot: int, at: Snapshot, version: nat, startedAt: Time, terminalAt: Option<Time>)

  datatype Command = Guess(entity: string) | Reveal | Surrender | Malformed

  /** The SHA-256 fingerprint of a canonical tuple, taken to be injective: the tuple itself. */
  datatype Fingerprint = StartToken | CommandToken(attempt: Id, expectedVersion: int, command: Command)

  datatype Kind = StartKind | GuessKind | RevealKind | GiveUpKind

  datatype OutcomeCode = Started | Played(code: Code)

  datatype Receipt = Receipt(
    session: Id, token: Fingerprint, kind: Kind, outcome: OutcomeCode, attempt: Id, committedVersion: nat)

  datatype GuessRow = GuessRow(entity: Id, correct: bool, level: int, at: Time)

  datatype Final = Final(guest: Id, slot: int, outcome: AttemptState, score: int, at: Time)

  /** Regional amounts are kept in hundredths. */
  datatype Contribution = Contribution(guest: Id, alpha: int, beta: int)

  datatype Knowledge = Knowledge(alpha: int, beta: int, samples: int)

  datatype BoardRow = BoardRow(guest: Id, slot: int, e: int, W: int, elapsed: int, score: int)

  /** `slots` is the unique index on (guest, slot); the other key tuples are the unique keys of the tables. */
  datatype Db = Db(
    attempts: map<Id, Attempt>,
    slots: map<(Id, int), Id>,
    receipts: map<(Id, string), Receipt>,
    guesses: map<(Id, int), GuessRow>,
    days: map<(Id, int), Time>,
    finals: map<Id, Final>,
    contributions: map<(Id, string), Contribution>,
    knowledge: map<(Id, string), Knowledge>,
    board: map<Id, BoardRow>)

  const EMPTY: Db := Db(map[], map[], map[], map[], map[], map[], map[], map[], map[])

  /* ---- finalize and lazy expiry ---- */

  const INITIAL_KNOWLEDGE: Knowledge := Knowledge(200, 200, 0)

  function PerformanceBase(e: int): int {
    if e == 0 then 100 else if e == 1 then 85 else if e == 2 then 65 else if e == 3 then 45 else 25
  }

  /** regionalPerformanceHundredths on a finalized snapshot. */
  function Performance(s: Snapshot): int {
    if s.state != Solved then 0
    else if PerformanceBase(s.e) - 5 * s.W < 0 then 0
    else PerformanceBase(s.e) - 5 * s.W
  }

  function Elapsed(row: Attempt, at: Time): int {
    if at < row.startedAt then 0 else at - row.startedAt
  }

  function FinalScore(row: Attempt, terminal: Snapshot, at: Time): int {
    if terminal.state == Solved && ValidSnapshot(terminal) then Score(terminal, Elapsed(row, at)) else 0
  }

  function Gain(k: Knowledge, performance: int): Knowledge {
    Knowledge(k.alpha + performance, k.beta + 100 - performance, k.samples + 1)
  }

  function KnowledgeOf(m: map<(Id, string), Knowledge>, guest: Id, region: string): Knowledge {
    if (guest, region) in m then m[(guest, region)] else INITIAL_KNOWLEDGE
  }

  /** The attempt row moves on; its terminal columns are set when the game is over. */
  function MovedRow(row: Attempt, next: Snapshot, at: Time): Attempt {
    row.(at := next, version := row.version + 1, terminalAt := if next.state == Active then None else Some(at))
  }

  /** The regions of the revision that have no contribution of this attempt yet. */
  function NewRegions(world: World, contributions: map<(Id, string), Contribution>, id: Id, row: Attempt): set<string>
    requires row.revision in world.revisions
  {
    set r | r in world.revisions[row.revision].regions && (id, r) !in contributions
  }

  function InsertContributions(
    contributions: map<(Id, string), Contribution>, id: Id, guest: Id, regions: set<string>, performance: int)
    : map<(Id, string), Contribution>
  {
    contributions + map r | r in regions :: (id, r) := Contribution(guest, performance, 100 - performance)
  }

  /** Each inserted contribution creates a knowledge row or adds to it. */
  function UpsertKnowledge(
    knowledge: map<(Id, string), Knowledge>, guest: Id, regions: set<string>, performance: int)
    : map<(Id, string), Knowledge>
  {
    knowledge + map r | r in regions :: (guest, r) := Gain(KnowledgeOf(knowledge, guest, r), performance)
  }

  function InsertBoard(board: map<Id, BoardRow>, id: Id, row: Attempt, terminal: Snapshot, at: Time): map<Id, BoardRow> {
    if terminal.state != Solved || id in board then board
    else
      board[id := BoardRow(row.guest, row.slot, terminal.e, terminal.W, Elapsed(row, at), FinalScore(row, terminal, at))]
  }

  predicate SameOwner(a: Db, b: Db, id: Id)
    requires id in a.attempts
  {
    id in b.attempts && b.attempts[id].guest == a.attempts[id].guest && b.attempts[id].revision == a.attempts[id].revision
  }

  /** The end of a game: the row moves, and the first time also the finalization, the contributions with
      the knowledge they bring, and a solved game's leaderboard row. */
  function Finalize(world: World, db: Db, id: Id, terminal: Snapshot, at: Time): (after: Db)
    requires id in db.attempts && db.attempts[id].revision in world.revisions
    ensures SameOwner(db, after, id)
  {
    var row := db.attempts[id];
    var regions := if id in db.finals then {} else NewRegions(world, db.contributions, id, row);
    Db(db.attempts[id := MovedRow(row, terminal, at)], db.slots, db.receipts, db.guesses, db.days,
       if id in db.finals then db.finals
       else db.finals[id := Final(row.guest, row.slot, terminal.state, FinalScore(row, terminal, at), at)],
       InsertContributions(db.contributions, id, row.guest, regions, Performance(terminal)),
       UpsertKnowledge(db.knowledge, row.guest, regions, Performance(terminal)),
       if id in db.finals then db.board else InsertBoard(db.board, id, row, terminal, at))
  }

  /** Advancing an attempt: a plain update while it stays active, finalize otherwise. */
  function Advance(world: World, db: Db, id: Id, next: Snapshot, at: Time): (after: Db)
    requires id in db.attempts && db.attempts[id].revision in world.revisions
    ensures SameOwner(db, after, id)
  {
    if next.state == Active then db.(attempts := db.attempts[id := MovedRow(db.attempts[id], next, at)])
    else Finalize(world, db, id, next, at)
  }

  predicate Closed(world: World, row: Attempt, now: Time)
    requires row.revision in world.revisions
  {
    world.revisions[row.revision].ClosesAt() <= now
  }

  function ExpireIfClosed(world: World, db: Db, id: Id, now: Time): (after: Db)
    requires id in db.attempts && db.attempts[id].revision in world.revisions
    ensures SameOwner(db, after, id)
  {
    var row := db.attempts[id];
    if row.at.state != Active || !Closed(world, row, now) then db
    else
      var t := Expire(row.at);
      if !t.Accepted? || t.attempt.state == Active then db
      else Finalize(world, db, id, t.attempt, world.revisions[row.revision].ClosesAt())
  }

  /* ---- what a guest is shown ---- */

  /** Guess rows in the order of their numbers, which the table keeps within 1..15. */
  function History(guesses: map<(Id, int), GuessRow>, id: Id, from: int): (h: seq<Id>)
    requires 1 <= from <= 16
    ensures |h| <= 16 - from
    decreases 16 - from
  {
    if from == 16 then []
    else (if (id, from) in guesses then [guesses[(id, from)].entity] else []) + History(guesses, id, from + 1)
  }

  datatype View = View(
    attempt: Id, at: Snapshot, version: nat, startedAt: Time, closesAt: Time, history: seq<Id>,
    evidence: seq<int>, answer: Option<Id>)

  const EVIDENCE: seq<int> := [1, 2, 3, 4]

  /** projectAttempt: an active game shows the evidence up to its level and no answer. */
  function Project(world: World, db: Db, id: Id): View
    requires id in db.attempts && db.attempts[id].revision in world.revisions
  {
    var row := db.attempts[id];
    var revision := world.revisions[row.revision];
    View(id, row.at, row.version, row.startedAt, revision.ClosesAt(), History(db.guesses, id, 1),
         if row.at.state == Active && 0 <= row.at.e <= 4 then EVIDENCE[..row.at.e] else EVIDENCE,
         if row.at.state == Active then None else Some(revision.answer))
  }

  datatype CaseView = NoCase | NotStarted(slot: int, closesAt: Time) | Shown(view: View)

  /* ---- requests and results ---- */

  datatype Request =
    | StartRequest(guest: Id, session: Id, key: string)
    | CommandRequest(guest: Id, session: Id, key: string, attempt: Id, expectedVersion: int, command: Command)

  datatype Refusal =
    | NoCurrentCase | EvidenceLimitReached | IdempotencyConflict | InvalidCommand | SessionExpired
    | StaleVersion | AttemptIsOver | UnknownAttempt | UnknownEntity

  /** `Failed` is a thrown error: the transaction rolls back and the caller learns nothing. */
  datatype Result =
    | Ok(outcome: OutcomeCode, replayed: bool, view: View)
    | Refused(code: Refusal, shown: Option<View>)
    | Failed

  /** The clock readings of one transaction: the session check, the sample taken after the lock, and
      the trigger that guards a receipt insert. */
  datatype Clock = Clock(session: Time, sampled: Time, receipt: Time)
  {
    predicate Ordered() { session <= sampled <= receipt }
  }

  const MAX_SAFE_INTEGER: int := 9_007_199_254_740_991

  predicate ValidKey(key: string) {
    1 <= |key| <= 128 && forall i | 0 <= i < |key| :: ' ' <= key[i] <= '~'
  }

  function KindOf(command: Command): Kind {
    match command
    case Guess(_) => GuessKind
    case Reveal => RevealKind
    case _ => GiveUpKind
  }

  /** commandReceiptOutcome: the stored code when it fits the kind, otherwise an error. */
  predicate OutcomeFits(kind: Kind, outcome: OutcomeCode) {
    match kind
    case StartKind => outcome == Started
    case GuessKind => outcome == Played(Correct) || outcome == Played(Wrong)
    case RevealKind => outcome == Played(Revealed)
    case GiveUpKind => outcome == Played(GaveUp)
  }

  predicate Owned(world: World, db: Db, id: Id, guest: Id) {
    && id in db.attempts && db.attempts[id].guest == guest
    && db.attempts[id].revision in world.revisions
  }

  /** An identical request came before: the stored outcome with the attempt as it is now. */
  function Replayed(world: World, db: Db, id: Id, guest: Id, outcome: OutcomeCode, now: Time): (Db, Result)
    requires Owned(world, db, id, guest)
  {
    var after := ExpireIfClosed(world, db, id, now);
    (after, Ok(outcome, true, Project(world, after, id)))
  }

  function Start(world: World, db: Db, guest: Id, session: Id, key: string, clock: Clock, freshId: Id): (Db, Result)
  {
    if !ValidKey(key) then (db, Refused(InvalidCommand, None))
    else if guest !in world.guests || !world.SessionIsLive(guest, session, clock.session) then
      (db, Refused(SessionExpired, None))
    else if (guest, key) in db.receipts then
      var prior := db.receipts[(guest, key)];
      if prior.token != StartToken || prior.kind != StartKind then (db, Refused(IdempotencyConflict, None))
      else if !OutcomeFits(StartKind, prior.outcome) then (db, Failed)
      else if !Owned(world, db, prior.attempt, guest) then (db, Refused(IdempotencyConflict, None))
      else Replayed(world, db, prior.attempt, guest, prior.outcome, clock.sampled)
    else
      match world.CurrentRevision(clock.sampled)
      case None => (db, Refused(NoCurrentCase, None))
      case Some(revision) => Open(world, db, guest, session, key, revision, clock, freshId)
  }

  /** INSERT ... ON CONFLICT (guest_id, slot_id) DO NOTHING, then the id of the row that is there. */
  function InsertAttempt(db: Db, freshId: Id, row: Attempt): (Db, Id) {
    if (row.guest, row.slot) in db.slots then (db, db.slots[(row.guest, row.slot)])
    else
      (db.(attempts := db.attempts[freshId := row], slots := db.slots[(row.guest, row.slot) := freshId]), freshId)
  }

  /** A new start key: the attempt of this guest and slot is created unless it is there, and noted. */
  function Open(world: World, db: Db, guest: Id, session: Id, key: string, revision: Id, clock: Clock, freshId: Id)
    : (Db, Result)
  {
    if revision !in world.revisions || freshId in db.attempts then (db, Failed)
    else
      var slot := world.revisions[revision].slot;
      var (current, id) := InsertAttempt(db, freshId, Attempt(guest, revision, slot, START, 0, clock.sampled, None));
      if !Owned(world, current, id, guest) || !world.SessionIsLive(guest, session, clock.receipt) then (db, Failed)
      else
        var receipt := Receipt(session, StartToken, StartKind, Started, id, current.attempts[id].version);
        var noted := current.(receipts := current.receipts[(guest, key) := receipt]);
        (noted, Ok(Started, false, Project(world, noted, id)))
  }

  function Execute(
    world: World, db: Db, guest: Id, session: Id, key: string, attempt: Id, expectedVersion: int,
    command: Command, clock: Clock): (Db, Result)
  {
    var token := CommandToken(attempt, expectedVersion, command);
    if !ValidKey(key) || !(0 <= expectedVersion <= MAX_SAFE_INTEGER) then (db, Refused(InvalidCommand, None))
    else if guest !in world.guests || !world.SessionIsLive(guest, session, clock.session) then
      (db, Refused(SessionExpired, None))
    else if command == Malformed then (db, Refused(InvalidCommand, None))
    else if (guest, key) in db.receipts then
      var prior := db.receipts[(guest, key)];
      if prior.token != token || prior.attempt != attempt then (db, Refused(IdempotencyConflict, None))
      else if !Owned(world, db, attempt, guest) then (db, Refused(UnknownAttempt, None))
      else if prior.kind != KindOf(command) || !OutcomeFits(prior.kind, prior.outcome) then (db, Failed)
      else Replayed(world, db, attempt, guest, prior.outcome, clock.sampled)
    else if !Owned(world, db, attempt, guest) then (db, Refused(UnknownAttempt, None))
    else
      var after := ExpireIfClosed(world, db, attempt, clock.sampled);
      match Decide(world, after, guest, session, token, clock)
      case Refuse(code, shown) => (after, Refused(code, shown))
      case Throw => (db, Failed)
      case Write(next, code, entity) =>
        var written := Commit(world, after, guest, session, key, token, next, code, entity, clock.sampled);
        (written, Ok(Played(code), false, Project(world, written, attempt)))
  }

  /** What a command does to a row that is locked and up to date. A guess is first looked up among the
      revision's eligible entities. */
  function Attempted(world: World, row: Attempt, command: Command): Option<(Transition, Code, Option<Id>)>
    requires row.revision in world.revisions
  {
    var revision := world.revisions[row.revision];
    match command
    case Guess(entity) =>
      if entity !in revision.lookup then None
      else
        var correct := revision.lookup[entity] == revision.answer;
        Some((ApplyGuess(row.at, correct), if correct then Correct else Wrong, Some(revision.lookup[entity])))
    case Reveal => Some((RevealEvidence(row.at), Revealed, None))
    case _ => Some((GiveUp(row.at), GaveUp, None))
  }

  /** What the transaction does once the attempt is locked and up to date: refuse, fail on a broken
      snapshot, a taken guess number, a clock that stands before the start of the attempt or a session that
      ended meanwhile, or write. */
  datatype Decision =
    | Refuse(code: Refusal, shown: Option<View>)
    | Throw
    | Write(next: Snapshot, played: Code, entity: Option<Id>)

  function Decide(world: World, db: Db, guest: Id, session: Id, token: Fingerprint, clock: Clock): Decision
    requires token.CommandToken? && Owned(world, db, token.attempt, guest)
  {
    var row := db.attempts[token.attempt];
    var shown := Some(Project(world, db, token.attempt));
    if row.at.state != Active then Refuse(AttemptIsOver, shown)
    else if row.version != token.expectedVersion then Refuse(StaleVersion, shown)
    else
      match Attempted(world, row, token.command)
      case None => Refuse(UnknownEntity, None)
      case Some((t, code, entity)) =>
        match t
        case Thrown => Throw
        case Rejected(reason, _) => Refuse(if reason == EvidenceLimit then EvidenceLimitReached else AttemptIsOver, shown)
        case Accepted(next, _) =>
          if entity.Some? && !GuessNumberFree(db, token.attempt, row.at.W + 1) then Throw
          else if !TimeAllowed(row, clock.sampled) then Throw
          else if !world.SessionIsLive(guest, session, clock.receipt) then Throw
          else Write(next, code, entity)
  }

  /** The unique key and the check constraint on guess numbers. */
  predicate GuessNumberFree(db: Db, id: Id, number: int) {
    (id, number) !in db.guesses && 1 <= number <= 15
  }

  /** The check constraints on the times of an attempt row: it is not updated, and does not end, before it
      was started. Database clocks may step back. */
  predicate TimeAllowed(row: Attempt, at: Time) {
    row.startedAt <= at
  }

  /** The guess row that a guess brings along. */
  function WithGuess(guesses: map<(Id, int), GuessRow>, id: Id, number: int, row: Option<GuessRow>)
    : map<(Id, int), GuessRow>
  {
    if row.None? then guesses else guesses[(id, number) := row.value]
  }

  function GuessOf(entity: Option<Id>, row: Attempt, next: Snapshot, at: Time): Option<GuessRow> {
    match entity
    case None => None
    case Some(guessed) => Some(GuessRow(guessed, next.state == Solved, row.at.e, at))
  }

  /** The writes of one accepted command: the guess and its day, the attempt with everything that its end
      brings, and the receipt. */
  function Commit(
    world: World, db: Db, guest: Id, session: Id, key: string, token: Fingerprint, next: Snapshot, code: Code,
    entity: Option<Id>, at: Time): (after: Db)
    requires token.CommandToken? && Owned(world, db, token.attempt, guest)
    ensures SameOwner(db, after, token.attempt)
  {
    var id := token.attempt;
    var row := db.attempts[id];
    var guess := GuessOf(entity, row, next, at);
    var advanced := Advance(world, db, id, next, at);
    advanced.(
      guesses := WithGuess(db.guesses, id, row.at.W + 1, guess),
      days := WithDay(db.days, guest, at, guess.Some?),
      receipts := db.receipts[
        (guest, key) := Receipt(session, token, KindOf(token.command), Played(code), id, row.version + 1)])
  }

  /** A guess counts its guest's UTC day once. */
  function WithDay(days: map<(Id, int), Time>, guest: Id, at: Time, guessed: bool): map<(Id, int), Time> {
    if !guessed || (guest, at / DAY) in days then days else days[(guest, at / DAY) := at]
  }

  /** One request in one transaction. */
  function Serve(world: World, db: Db, request: Request, clock: Clock, freshId: Id): (Db, Result) {
    match request
    case StartRequest(guest, session, key) => Start(world, db, guest, session, key, clock, freshId)
    case CommandRequest(guest, session, key, attempt, expectedVersion, command) =>
      Execute(world, db, guest, session, key, attempt, expectedVersion, command, clock)
  }

  /* ---- reads that may expire ---- */

  function ReadOwned(world: World, db: Db, guest: Id, id: Id, now: Time): (Db, Option<View>) {
    if guest !in world.guests || !Owned(world, db, id, guest) then (db, None)
    else
      var after := ExpireIfClosed(world, db, id, now);
      (after, Some(Project(world, after, id)))
  }

  /** readCurrentCase: `first` chooses the slot, `now` is sampled again under the lock. None is the error for
      an attempt that disappeared under its index. */
  function ReadCurrent(world: World, db: Db, guest: Id, first: Time, now: Time): (Db, Option<CaseView>) {
    match world.CurrentRevision(first)
    case None => (db, Some(NoCase))
    case Some(revision) =>
      if revision !in world.revisions then (db, Some(NoCase))
      else
        var r := world.revisions[revision];
        if (guest, r.slot) !in db.slots || guest !in world.guests then (db, Some(NotStarted(r.slot, r.ClosesAt())))
        else
          match ReadOwned(world, db, guest, db.slots[(guest, r.slot)], now)
          case (after, Some(view)) => (after, Some(Shown(view)))
          case (after, None) => (after, None)
  }
}
