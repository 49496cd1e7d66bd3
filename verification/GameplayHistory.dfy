/** Properties of whole runs of gameplay transactions. */
module GameplayHistory {
  import opened Basics
  import opened AttemptEngine
  import opened GameplayLedger
  import opened GameplayInvariant

  /* ---- how the tables may change over time ---- */

  ghost predicate RowEvolves(a: Attempt, b: Attempt) {
    && b.guest == a.guest && b.revision == a.revision && b.slot == a.slot && b.startedAt == a.startedAt
    && a.version <= b.version
    && (a.version == b.version || a.at.state != Active ==> a == b)
  }

  /** Attempts move forward only, finished ones not at all, and receipts are kept for good. */
  ghost predicate Evolves(a: Db, b: Db) {
    && (forall id <- a.attempts :: id in b.attempts && RowEvolves(a.attempts[id], b.attempts[id]))
    && (forall k <- a.receipts :: k in b.receipts && b.receipts[k] == a.receipts[k])
  }

  lemma EvolvesTransitive(a: Db, b: Db, c: Db)
    requires Evolves(a, b) && Evolves(b, c)
    ensures Evolves(a, c)
  {
    forall id <- a.attempts ensures id in c.attempts && RowEvolves(a.attempts[id], c.attempts[id]) {
      assert RowEvolves(b.attempts[id], c.attempts[id]);
    }
  }

  /* ---- the four elementary changes ---- */

  lemma MoveEvolves(attempts: Attempts, id: Id, next: Snapshot, at: Time, other: Id)
    requires id in attempts && attempts[id].at.state == Active && other in attempts
    ensures RowEvolves(attempts[other], attempts[id := MovedRow(attempts[id], next, at)][other])
  {
  }

  lemma MoveKeepsReceipts(attempts: Attempts, receipts: Receipts, id: Id, next: Snapshot, at: Time)
    requires id in attempts && ReceiptsFit(attempts, receipts)
    ensures ReceiptsFit(attempts[id := MovedRow(attempts[id], next, at)], receipts)
  {
    forall k <- receipts ensures ReceiptFits(attempts[id := MovedRow(attempts[id], next, at)], k.0, receipts[k]) {
      assert ReceiptFits(attempts, k.0, receipts[k]);
    }
  }

  /** Lazy expiry either leaves everything alone or ends a running game at its closing time. */
  lemma ExpireIsAdvance(world: World, db: Db, id: Id, now: Time)
    requires id in db.attempts && RowFits(world, db.attempts[id])
    ensures var row, after := db.attempts[id], ExpireIfClosed(world, db, id, now);
      if row.at.state == Active && Closed(world, row, now)
      then after == Advance(world, db, id, row.at.(state := Expired), world.revisions[row.revision].ClosesAt())
      else after == db
  {
  }

  lemma ExpiryKeepsInv(world: World, db: Db, id: Id, at: Time)
    requires Inv(world, db) && id in db.attempts && db.attempts[id].at.state == Active
    requires RowFits(world, db.attempts[id]) && Within(world, db.attempts[id], at)
    ensures Inv(world, Advance(world, db, id, db.attempts[id].at.(state := Expired), at))
  {
    var next := db.attempts[id].at.(state := Expired);
    AdvanceFrame(world, db, id, next, at);
    AdvanceKeepsTables(world, db, id, next, at);
    ExpireKeepsJournals(db.attempts, db.receipts, db.guesses, id, at);
    MoveKeepsReceipts(db.attempts, db.receipts, id, next, at);
  }

  lemma AdvanceEvolves(world: World, db: Db, id: Id, next: Snapshot, at: Time)
    requires id in db.attempts && db.attempts[id].revision in world.revisions && db.attempts[id].at.state == Active
    ensures var after := Advance(world, db, id, next, at);
      Evolves(db, after) && after.receipts == db.receipts && after.attempts.Keys == db.attempts.Keys
  {
    AdvanceFrame(world, db, id, next, at);
    var after := Advance(world, db, id, next, at);
    forall other <- db.attempts ensures other in after.attempts && RowEvolves(db.attempts[other], after.attempts[other]) {
      MoveEvolves(db.attempts, id, next, at, other);
    }
  }

  lemma ExpireKeepsInv(world: World, db: Db, id: Id, now: Time)
    requires Inv(world, db) && id in db.attempts
    ensures db.attempts[id].revision in world.revisions
    ensures var after := ExpireIfClosed(world, db, id, now);
      Inv(world, after) && Evolves(db, after) && after.receipts == db.receipts && after.attempts.Keys == db.attempts.Keys
  {
    assert RowFits(world, db.attempts[id]);
    ExpireIsAdvance(world, db, id, now);
    var row := db.attempts[id];
    if row.at.state == Active && Closed(world, row, now) {
      var at := world.revisions[row.revision].ClosesAt();
      ExpiryKeepsInv(world, db, id, at);
      AdvanceEvolves(world, db, id, row.at.(state := Expired), at);
    }
  }

  /* ---- one accepted command ---- */

  /** The command is new, and moves its attempt from the expected version on. */
  ghost predicate MovesOn(
    world: World, db: Db, guest: Id, key: string, token: Fingerprint, next: Snapshot, code: Code, entity: Option<Id>)
  {
    && token.CommandToken? && token.command != Malformed
    && Owned(world, db, token.attempt, guest)
    && (guest, key) !in db.receipts
    && db.attempts[token.attempt].at.state == Active
    && db.attempts[token.attempt].version == token.expectedVersion
    && Move(db.attempts[token.attempt].at, code).Accepted?
    && next == Move(db.attempts[token.attempt].at, code).attempt
    && OutcomeFits(KindOf(token.command), Played(code))
    && (entity.Some? <==> code in {Correct, Wrong})
  }

  /** What the transaction has established when it starts to write. */
  ghost predicate MayCommit(
    world: World, db: Db, guest: Id, key: string, token: Fingerprint, next: Snapshot, code: Code, entity: Option<Id>,
    at: Time)
  {
    MovesOn(world, db, guest, key, token, next, code, entity) && Within(world, db.attempts[token.attempt], at)
  }

  /** The tables after a commit, by name. */
  lemma CommitTables(
    world: World, db: Db, guest: Id, session: Id, key: string, token: Fingerprint, next: Snapshot, code: Code,
    entity: Option<Id>, at: Time)
    requires token.CommandToken? && Owned(world, db, token.attempt, guest)
    ensures
      var id := token.attempt;
      var row := db.attempts[id];
      var advanced := Advance(world, db, id, next, at);
      var after := Commit(world, db, guest, session, key, token, next, code, entity, at);
      && after.attempts == advanced.attempts && after.slots == advanced.slots && after.finals == advanced.finals
      && after.board == advanced.board && after.contributions == advanced.contributions
      && after.knowledge == advanced.knowledge
  {
  }

  function CommandReceipt(session: Id, token: Fingerprint, code: Code, version: nat): Receipt
    requires token.CommandToken?
  {
    Receipt(session, token, KindOf(token.command), Played(code), token.attempt, version)
  }

  lemma CommitKeepsReceipts(
    attempts: Attempts, receipts: Receipts, guest: Id, session: Id, key: string, token: Fingerprint, code: Code,
    next: Snapshot, at: Time)
    requires ReceiptsFit(attempts, receipts) && token.CommandToken? && token.command != Malformed
    requires token.attempt in attempts && attempts[token.attempt].guest == guest
    requires attempts[token.attempt].version == token.expectedVersion
    requires OutcomeFits(KindOf(token.command), Played(code))
    ensures var row := attempts[token.attempt];
      ReceiptsFit(attempts[token.attempt := MovedRow(row, next, at)],
                  receipts[(guest, key) := CommandReceipt(session, token, code, row.version + 1)])
  {
    MoveKeepsReceipts(attempts, receipts, token.attempt, next, at);
  }

  lemma CommitKeepsTables(
    world: World, db: Db, guest: Id, session: Id, key: string, token: Fingerprint, next: Snapshot, code: Code,
    entity: Option<Id>, at: Time)
    requires TablesExact(world, db) && token.CommandToken? && Owned(world, db, token.attempt, guest)
    requires db.attempts[token.attempt].at.state == Active && ValidSnapshot(next)
    requires Within(world, db.attempts[token.attempt], at)
    ensures TablesExact(world, Commit(world, db, guest, session, key, token, next, code, entity, at))
  {
    CommitTables(world, db, guest, session, key, token, next, code, entity, at);
    AdvanceKeepsTables(world, db, token.attempt, next, at);
  }

  /** What a commit leaves in the attempt, receipt and guess tables. */
  ghost predicate Recorded(
    db: Db, after: Db, id: Id, next: Snapshot, at: Time, k: (Id, string), r: Receipt, guess: Option<GuessRow>)
    requires id in db.attempts
  {
    && after.attempts == db.attempts[id := MovedRow(db.attempts[id], next, at)]
    && after.receipts == db.receipts[k := r]
    && after.guesses == WithGuess(db.guesses, id, db.attempts[id].at.W + 1, guess)
  }

  lemma CommitRecords(
    world: World, db: Db, guest: Id, session: Id, key: string, token: Fingerprint, next: Snapshot, code: Code,
    entity: Option<Id>, at: Time)
    requires token.CommandToken? && Owned(world, db, token.attempt, guest)
    ensures
      var row := db.attempts[token.attempt];
      Recorded(db, Commit(world, db, guest, session, key, token, next, code, entity, at), token.attempt, next, at,
               (guest, key), CommandReceipt(session, token, code, row.version + 1), GuessOf(entity, row, next, at))
  {
    AdvanceFrame(world, db, token.attempt, next, at);
  }

  lemma RecordedJournals(
    db: Db, after: Db, id: Id, code: Code, next: Snapshot, at: Time, k: (Id, string), r: Receipt, guess: Option<GuessRow>)
    requires Journaled(db.attempts, db.receipts, db.guesses) && id in db.attempts && db.attempts[id].at.state == Active
    requires Move(db.attempts[id].at, code).Accepted? && next == Move(db.attempts[id].at, code).attempt
    requires k !in db.receipts && r.attempt == id && r.outcome == Played(code)
    requires r.committedVersion == db.attempts[id].version + 1 && (guess.Some? <==> code in {Correct, Wrong})
    requires Recorded(db, after, id, next, at, k, r, guess)
    ensures Journaled(after.attempts, after.receipts, after.guesses)
  {
    CommitKeepsJournals(db.attempts, db.receipts, db.guesses, id, code, next, at, k, r, guess);
  }

  lemma RecordedReceipts(
    db: Db, after: Db, guest: Id, session: Id, key: string, token: Fingerprint, next: Snapshot, code: Code, at: Time,
    guess: Option<GuessRow>)
    requires ReceiptsFit(db.attempts, db.receipts) && token.CommandToken? && token.command != Malformed
    requires token.attempt in db.attempts && db.attempts[token.attempt].guest == guest
    requires db.attempts[token.attempt].version == token.expectedVersion
    requires OutcomeFits(KindOf(token.command), Played(code))
    requires var r := CommandReceipt(session, token, code, db.attempts[token.attempt].version + 1);
      Recorded(db, after, token.attempt, next, at, (guest, key), r, guess)
    ensures ReceiptsFit(after.attempts, after.receipts)
  {
    CommitKeepsReceipts(db.attempts, db.receipts, guest, session, key, token, code, next, at);
  }

  lemma GuessesOnly(entity: Option<Id>, row: Attempt, next: Snapshot, at: Time)
    ensures GuessOf(entity, row, next, at).Some? <==> entity.Some?
  {
  }

  /** An accepted command keeps journals and receipts in order. */
  lemma CommitKeepsRecords(
    world: World, db: Db, after: Db, guest: Id, session: Id, key: string, token: Fingerprint, next: Snapshot, code: Code,
    entity: Option<Id>, at: Time)
    requires MovesOn(world, db, guest, key, token, next, code, entity)
    requires var row := db.attempts[token.attempt];
      Recorded(db, after, token.attempt, next, at, (guest, key), CommandReceipt(session, token, code, row.version + 1),
               GuessOf(entity, row, next, at))
    requires Journaled(db.attempts, db.receipts, db.guesses) && ReceiptsFit(db.attempts, db.receipts)
    ensures Journaled(after.attempts, after.receipts, after.guesses) && ReceiptsFit(after.attempts, after.receipts)
  {
    var row, guess := db.attempts[token.attempt], GuessOf(entity, db.attempts[token.attempt], next, at);
    GuessesOnly(entity, row, next, at);
    RecordedJournals(db, after, token.attempt, code, next, at, (guest, key),
                     CommandReceipt(session, token, code, row.version + 1), guess);
    RecordedReceipts(db, after, guest, session, key, token, next, code, at, guess);
  }

  lemma CommitKeepsInv(
    world: World, db: Db, guest: Id, session: Id, key: string, token: Fingerprint, next: Snapshot, code: Code,
    entity: Option<Id>, at: Time)
    requires Inv(world, db) && MayCommit(world, db, guest, key, token, next, code, entity, at)
    ensures Inv(world, Commit(world, db, guest, session, key, token, next, code, entity, at))
  {
    var after := Commit(world, db, guest, session, key, token, next, code, entity, at);
    MoveFacts(db.attempts[token.attempt].at, code);
    CommitKeepsTables(world, db, guest, session, key, token, next, code, entity, at);
    CommitRecords(world, db, guest, session, key, token, next, code, entity, at);
    CommitKeepsRecords(world, db, after, guest, session, key, token, next, code, entity, at);
  }

  lemma CommitEvolves(
    world: World, db: Db, guest: Id, session: Id, key: string, token: Fingerprint, next: Snapshot, code: Code,
    entity: Option<Id>, at: Time)
    requires token.CommandToken? && Owned(world, db, token.attempt, guest)
    requires db.attempts[token.attempt].at.state == Active && (guest, key) !in db.receipts
    ensures Evolves(db, Commit(world, db, guest, session, key, token, next, code, entity, at))
  {
    CommitRecords(world, db, guest, session, key, token, next, code, entity, at);
    forall other <- db.attempts
      ensures RowEvolves(db.attempts[other],
                db.attempts[token.attempt := MovedRow(db.attempts[token.attempt], next, at)][other])
    {
      MoveEvolves(db.attempts, token.attempt, next, at, other);
    }
  }

  /* ---- a start ---- */

  lemma InsertKeepsRows(world: World, attempts: Attempts, id: Id, row: Attempt)
    requires RowsFit(world, attempts) && RowFits(world, row)
    ensures RowsFit(world, attempts[id := row])
  {
  }

  lemma InsertKeepsLedger(
    world: World, attempts: Attempts, id: Id, row: Attempt, finals: map<Id, Final>, board: map<Id, BoardRow>,
    contributions: map<(Id, string), Contribution>)
    requires RowsFit(world, attempts) && RowFits(world, row) && id !in attempts
    requires row.at.state == Active && row.terminalAt == None
    requires LedgerExact(world, attempts, finals, board, contributions)
    ensures RowsFit(world, attempts[id := row])
    ensures LedgerExact(world, attempts[id := row], finals, board, contributions)
  {
    InsertKeepsRows(world, attempts, id, row);
    NothingDueYet(world, row, id, finals, board, contributions);
    var after := attempts[id := row];
    forall other <- after ensures Settled(world, after[other], other, finals, board, contributions) {
      if other != id {
        assert Settled(world, attempts[other], other, finals, board, contributions);
      }
    }
  }

  lemma NothingDueYet(
    world: World, row: Attempt, id: Id, finals: map<Id, Final>, board: map<Id, BoardRow>,
    contributions: map<(Id, string), Contribution>)
    requires row.revision in world.revisions && row.at.state == Active && row.terminalAt == None
    requires id !in finals && id !in board && forall k <- contributions :: k.0 != id
    ensures Settled(world, row, id, finals, board, contributions)
  {
  }

  lemma InsertKeepsKnowledge(
    world: World, attempts: Attempts, id: Id, row: Attempt, knowledge: map<(Id, string), Knowledge>)
    requires id !in attempts && row.at.state == Active && KnowledgeExact(world, attempts, knowledge)
    ensures KnowledgeExact(world, attempts[id := row], knowledge)
  {
    var after := attempts[id := row];
    forall guest, ids, region | Lists(after, guest, ids)
      ensures KnowledgeOf(knowledge, guest, region) == Tally(world, after, ids, region)
    {
      assert Lists(attempts, guest, ids);
      TallyFrame(world, attempts, after, ids, region);
    }
  }

  lemma InsertKeepsSlots(attempts: Attempts, slots: map<(Id, int), Id>, id: Id, row: Attempt)
    requires SlotsIndexed(attempts, slots) && id !in attempts && (row.guest, row.slot) !in slots
    ensures SlotsIndexed(attempts[id := row], slots[(row.guest, row.slot) := id])
  {
  }

  lemma NoReceiptsYet(attempts: Attempts, receipts: Receipts, id: Id)
    requires ReceiptsFit(attempts, receipts) && id !in attempts
    ensures forall k :: !Committed(receipts, id, k)
  {
    forall k ensures !Committed(receipts, id, k) {
      if k in receipts {
        assert ReceiptFits(attempts, k.0, receipts[k]);
      }
    }
  }

  lemma InsertKeepsJournals(
    attempts: Attempts, receipts: Receipts, guesses: map<(Id, int), GuessRow>, id: Id, row: Attempt)
    requires Journaled(attempts, receipts, guesses) && ReceiptsFit(attempts, receipts) && id !in attempts
    requires row.at == START && row.version == 0
    ensures Journaled(attempts[id := row], receipts, guesses)
  {
    NoReceiptsYet(attempts, receipts, id);
    assert Explains(row, receipts, guesses, id, []);
  }

  lemma InsertKeepsReceipts(attempts: Attempts, receipts: Receipts, id: Id, row: Attempt)
    requires ReceiptsFit(attempts, receipts) && id !in attempts
    ensures ReceiptsFit(attempts[id := row], receipts)
  {
    forall k <- receipts ensures ReceiptFits(attempts[id := row], k.0, receipts[k]) {
      assert ReceiptFits(attempts, k.0, receipts[k]);
    }
  }

  lemma NoteKeepsJournals(attempts: Attempts, receipts: Receipts, guesses: map<(Id, int), GuessRow>, k: (Id, string), r: Receipt)
    requires Journaled(attempts, receipts, guesses) && ReceiptsFit(attempts, receipts) && k !in receipts
    requires r.outcome == Started && ReceiptFits(attempts, k.0, r)
    ensures Journaled(attempts, receipts[k := r], guesses) && ReceiptsFit(attempts, receipts[k := r])
  {
    forall id <- attempts ensures Explained(attempts[id], receipts[k := r], guesses, id) {
      assert Explained(attempts[id], receipts, guesses, id);
      var codes :| Explains(attempts[id], receipts, guesses, id, codes);
      JournalFrame(receipts, k, r, id, codes);
      assert Explains(attempts[id], receipts[k := r], guesses, id, codes);
    }
  }

  /* ---- requests ---- */

  predicate Fresh(result: Result) { result.Ok? && !result.replayed }

  /** Whatever a command attempts is a move of the engine that fits the command. */
  lemma AttemptedMoves(world: World, row: Attempt, command: Command)
    requires row.revision in world.revisions && command != Malformed && Attempted(world, row, command).Some?
    ensures var (t, code, entity) := Attempted(world, row, command).value;
      t == Move(row.at, code) && OutcomeFits(KindOf(command), Played(code)) && (entity.Some? <==> code in {Correct, Wrong})
  {
  }

  /** The attempt is over, or its window is still open. */
  predicate Reconciled(world: World, db: Db, id: Id, now: Time) {
    && id in db.attempts && db.attempts[id].revision in world.revisions
    && (db.attempts[id].at.state != Active || !Closed(world, db.attempts[id], now))
  }

  /** Lazy expiry settles whatever is due, if the engine accepts the stored snapshot. */
  lemma ExpireReconciles(world: World, db: Db, id: Id, now: Time)
    requires id in db.attempts && db.attempts[id].revision in world.revisions && ValidSnapshot(db.attempts[id].at)
    ensures Reconciled(world, ExpireIfClosed(world, db, id, now), id, now)
  {
  }

  /** A decision to write is sound. */
  lemma WriteMovesOn(world: World, db: Db, guest: Id, session: Id, key: string, token: Fingerprint, clock: Clock)
    requires token.CommandToken? && token.command != Malformed && Owned(world, db, token.attempt, guest)
    requires (guest, key) !in db.receipts
    ensures match Decide(world, db, guest, session, token, clock)
      case Write(next, code, entity) => MovesOn(world, db, guest, key, token, next, code, entity)
      case _ => true
  {
    var row := db.attempts[token.attempt];
    if Attempted(world, row, token.command).Some? {
      AttemptedMoves(world, row, token.command);
    }
  }

  /** And it falls between the start of the attempt and the end of its window. */
  lemma WriteMayCommit(world: World, db: Db, guest: Id, session: Id, key: string, token: Fingerprint, clock: Clock)
    requires token.CommandToken? && token.command != Malformed && Owned(world, db, token.attempt, guest)
    requires (guest, key) !in db.receipts && Reconciled(world, db, token.attempt, clock.sampled)
    ensures match Decide(world, db, guest, session, token, clock)
      case Write(next, code, entity) => MayCommit(world, db, guest, key, token, next, code, entity, clock.sampled)
      case _ => true
  {
    WriteMovesOn(world, db, guest, session, key, token, clock);
  }

  /** The command passed every check up to the lock: it is new and its attempt is the guest's own. */
  ghost predicate Reaches(world: World, db: Db, guest: Id, session: Id, key: string, token: Fingerprint, clock: Clock) {
    && token.CommandToken? && token.command != Malformed
    && ValidKey(key) && 0 <= token.expectedVersion <= MAX_SAFE_INTEGER
    && guest in world.guests && world.SessionIsLive(guest, session, clock.session)
    && (guest, key) !in db.receipts && Owned(world, db, token.attempt, guest)
  }

  ghost predicate Identical(db: Db, guest: Id, key: string, token: Fingerprint) {
    && (guest, key) in db.receipts && db.receipts[(guest, key)].token == token
    && token.CommandToken? && db.receipts[(guest, key)].attempt == token.attempt
  }

  /** The three ways through a command: refused before the lock, replayed, or decided under the lock. */
  lemma ExecuteCases(world: World, db: Db, guest: Id, session: Id, key: string, token: Fingerprint, clock: Clock)
    requires token.CommandToken?
    ensures
      var (after, result) :=
        Execute(world, db, guest, session, key, token.attempt, token.expectedVersion, token.command, clock);
      if Reaches(world, db, guest, session, key, token, clock) then
        var current := ExpireIfClosed(world, db, token.attempt, clock.sampled);
        match Decide(world, current, guest, session, token, clock)
        case Refuse(code, shown) => after == current && result == Refused(code, shown)
        case Throw => after == db && result == Failed
        case Write(next, code, entity) =>
          && after == Commit(world, current, guest, session, key, token, next, code, entity, clock.sampled)
          && result == Ok(Played(code), false, Project(world, after, token.attempt))
      else if result.Ok? then
        && Identical(db, guest, key, token) && Owned(world, db, token.attempt, guest)
        && (after, result) == Replayed(world, db, token.attempt, guest, db.receipts[(guest, key)].outcome, clock.sampled)
      else after == db
  {
  }

  lemma ExecuteKeepsInv(world: World, db: Db, guest: Id, session: Id, key: string, token: Fingerprint, clock: Clock)
    requires Inv(world, db) && token.CommandToken?
    ensures
      var after := Execute(world, db, guest, session, key, token.attempt, token.expectedVersion, token.command, clock).0;
      Inv(world, after) && Evolves(db, after)
  {
    ExecuteCases(world, db, guest, session, key, token, clock);
    var (after, result) :=
      Execute(world, db, guest, session, key, token.attempt, token.expectedVersion, token.command, clock);
    if after != db {
      ExpireKeepsInv(world, db, token.attempt, clock.sampled);
      var current := ExpireIfClosed(world, db, token.attempt, clock.sampled);
      if Fresh(result) {
        assert RowFits(world, db.attempts[token.attempt]);
        ExpireReconciles(world, db, token.attempt, clock.sampled);
        WriteMayCommit(world, current, guest, session, key, token, clock);
        var Write(next, code, entity) := Decide(world, current, guest, session, token, clock);
        CommitKeepsInv(world, current, guest, session, key, token, next, code, entity, clock.sampled);
        CommitEvolves(world, current, guest, session, key, token, next, code, entity, clock.sampled);
        EvolvesTransitive(db, current, after);
      }
    }
  }

  lemma InsertKeepsInv(world: World, db: Db, id: Id, row: Attempt)
    requires Inv(world, db) && RowFits(world, row) && id !in db.attempts && (row.guest, row.slot) !in db.slots
    requires row.at == START && row.version == 0 && row.terminalAt == None
    ensures Inv(world, InsertAttempt(db, id, row).0)
  {
    InsertKeepsSlots(db.attempts, db.slots, id, row);
    InsertKeepsLedger(world, db.attempts, id, row, db.finals, db.board, db.contributions);
    InsertKeepsKnowledge(world, db.attempts, id, row, db.knowledge);
    InsertKeepsJournals(db.attempts, db.receipts, db.guesses, id, row);
    InsertKeepsReceipts(db.attempts, db.receipts, id, row);
  }

  /** The attempt that a start is answered with: the guest's own one for the slot, new only if there was none. */
  lemma InsertAttemptFinds(world: World, db: Db, id: Id, row: Attempt)
    requires SlotsIndexed(db.attempts, db.slots) && RowsFit(world, db.attempts) && RowFits(world, row)
    requires id !in db.attempts
    ensures var (after, found) := InsertAttempt(db, id, row);
      && after.receipts == db.receipts && Evolves(db, after)
      && found in after.attempts && after.attempts[found].guest == row.guest && after.attempts[found].slot == row.slot
      && RowFits(world, after.attempts[found])
  {
    var (after, found) := InsertAttempt(db, id, row);
    if found != id {
      assert RowFits(world, db.attempts[found]);
    }
  }

  function StartReceipt(session: Id, id: Id, version: nat): Receipt {
    Receipt(session, StartToken, StartKind, Started, id, version)
  }

  lemma ReceiptsKeepTables(world: World, db: Db, receipts: Receipts)
    requires TablesExact(world, db)
    ensures TablesExact(world, db.(receipts := receipts))
  {
  }

  lemma NoteKeepsRecords(
    attempts: Attempts, receipts: Receipts, guesses: map<(Id, int), GuessRow>, guest: Id, key: string, session: Id, id: Id)
    requires Journaled(attempts, receipts, guesses) && ReceiptsFit(attempts, receipts)
    requires (guest, key) !in receipts && id in attempts && attempts[id].guest == guest
    ensures var after := receipts[(guest, key) := StartReceipt(session, id, attempts[id].version)];
      Journaled(attempts, after, guesses) && ReceiptsFit(attempts, after)
  {
    NoteKeepsJournals(attempts, receipts, guesses, (guest, key), StartReceipt(session, id, attempts[id].version));
  }

  lemma NoteKeepsInv(world: World, db: Db, guest: Id, key: string, session: Id, id: Id)
    requires Inv(world, db) && (guest, key) !in db.receipts && id in db.attempts && db.attempts[id].guest == guest
    ensures Inv(world, db.(receipts := db.receipts[(guest, key) := StartReceipt(session, id, db.attempts[id].version)]))
  {
    var receipt := StartReceipt(session, id, db.attempts[id].version);
    ReceiptsKeepTables(world, db, db.receipts[(guest, key) := receipt]);
    NoteKeepsRecords(db.attempts, db.receipts, db.guesses, guest, key, session, id);
  }

  lemma NoteEvolves(db: Db, k: (Id, string), r: Receipt)
    requires k !in db.receipts
    ensures Evolves(db, db.(receipts := db.receipts[k := r]))
  {
  }

  function FirstRow(world: World, guest: Id, revision: Id, at: Time): Attempt
    requires revision in world.revisions
  {
    Attempt(guest, revision, world.revisions[revision].slot, START, 0, at, None)
  }

  lemma FirstRowFits(world: World, guest: Id, now: Time)
    requires world.Valid() && world.CurrentRevision(now).Some?
    ensures world.CurrentRevision(now).value in world.revisions
    ensures RowFits(world, FirstRow(world, guest, world.CurrentRevision(now).value, now))
  {
  }

  /** A start under a new key either fails, and then nothing happened, or notes the guest's attempt of the slot. */
  lemma OpenCases(
    world: World, db: Db, guest: Id, session: Id, key: string, revision: Id, clock: Clock, freshId: Id)
    requires SlotsIndexed(db.attempts, db.slots) && RowsFit(world, db.attempts)
    requires world.Valid() && world.CurrentRevision(clock.sampled) == Some(revision)
    ensures revision in world.revisions
    ensures var (after, result) := Open(world, db, guest, session, key, revision, clock, freshId);
      if freshId in db.attempts || !world.SessionIsLive(guest, session, clock.receipt) then after == db && result == Failed
      else
        var (current, id) := InsertAttempt(db, freshId, FirstRow(world, guest, revision, clock.sampled));
        && Owned(world, current, id, guest)
        && after == current.(receipts := current.receipts[(guest, key) := StartReceipt(session, id, current.attempts[id].version)])
        && result == Ok(Started, false, Project(world, after, id))
  {
    FirstRowFits(world, guest, clock.sampled);
    if freshId !in db.attempts {
      InsertAttemptFinds(world, db, freshId, FirstRow(world, guest, revision, clock.sampled));
    }
  }

  lemma OpenKeepsInv(
    world: World, db: Db, guest: Id, session: Id, key: string, revision: Id, clock: Clock, freshId: Id)
    requires Inv(world, db) && (guest, key) !in db.receipts
    requires world.CurrentRevision(clock.sampled) == Some(revision)
    ensures Inv(world, Open(world, db, guest, session, key, revision, clock, freshId).0)
  {
    OpenCases(world, db, guest, session, key, revision, clock, freshId);
    if freshId !in db.attempts {
      var row := FirstRow(world, guest, revision, clock.sampled);
      FirstRowFits(world, guest, clock.sampled);
      InsertAttemptFinds(world, db, freshId, row);
      if (row.guest, row.slot) !in db.slots {
        InsertKeepsInv(world, db, freshId, row);
      }
      var (current, id) := InsertAttempt(db, freshId, row);
      NoteKeepsInv(world, current, guest, key, session, id);
    }
  }

  lemma OpenEvolves(
    world: World, db: Db, guest: Id, session: Id, key: string, revision: Id, clock: Clock, freshId: Id)
    requires SlotsIndexed(db.attempts, db.slots) && RowsFit(world, db.attempts) && world.Valid()
    requires (guest, key) !in db.receipts && world.CurrentRevision(clock.sampled) == Some(revision)
    ensures Evolves(db, Open(world, db, guest, session, key, revision, clock, freshId).0)
  {
    OpenCases(world, db, guest, session, key, revision, clock, freshId);
    if freshId !in db.attempts {
      var row := FirstRow(world, guest, revision, clock.sampled);
      FirstRowFits(world, guest, clock.sampled);
      InsertAttemptFinds(world, db, freshId, row);
      var (current, id) := InsertAttempt(db, freshId, row);
      var receipt := StartReceipt(session, id, current.attempts[id].version);
      NoteEvolves(current, (guest, key), receipt);
      EvolvesTransitive(db, current, current.(receipts := current.receipts[(guest, key) := receipt]));
    }
  }

  ghost predicate StartReaches(world: World, db: Db, guest: Id, session: Id, key: string, clock: Clock) {
    && ValidKey(key) && guest in world.guests && world.SessionIsLive(guest, session, clock.session)
    && (guest, key) !in db.receipts && world.CurrentRevision(clock.sampled).Some?
  }

  lemma StartCases(world: World, db: Db, guest: Id, session: Id, key: string, clock: Clock, freshId: Id)
    ensures var (after, result) := Start(world, db, guest, session, key, clock, freshId);
      if StartReaches(world, db, guest, session, key, clock) then
        (after, result) == Open(world, db, guest, session, key, world.CurrentRevision(clock.sampled).value, clock, freshId)
      else if result.Ok? then
        && (guest, key) in db.receipts && db.receipts[(guest, key)].token == StartToken
        && Owned(world, db, db.receipts[(guest, key)].attempt, guest)
        && (after, result) == Replayed(world, db, db.receipts[(guest, key)].attempt, guest, Started, clock.sampled)
      else after == db
  {
  }

  lemma StartKeepsInv(world: World, db: Db, guest: Id, session: Id, key: string, clock: Clock, freshId: Id)
    requires Inv(world, db)
    ensures var after := Start(world, db, guest, session, key, clock, freshId).0;
      Inv(world, after) && Evolves(db, after)
  {
    StartCases(world, db, guest, session, key, clock, freshId);
    if StartReaches(world, db, guest, session, key, clock) {
      OpenKeepsInv(world, db, guest, session, key, world.CurrentRevision(clock.sampled).value, clock, freshId);
      OpenEvolves(world, db, guest, session, key, world.CurrentRevision(clock.sampled).value, clock, freshId);
    } else if Start(world, db, guest, session, key, clock, freshId).1.Ok? {
      ExpireKeepsInv(world, db, db.receipts[(guest, key)].attempt, clock.sampled);
    }
  }
}
