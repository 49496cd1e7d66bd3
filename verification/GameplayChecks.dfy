/** The check constraints of the gameplay tables. In every reachable state all stored rows satisfy them, so a
    constraint can stop a transaction only where GameplayLedger.Decide says so; and the read of the current case
    never finds its attempt gone. */
module GameplayChecks {
  import opened Basics
  import opened AttemptEngine
  import opened GameplayLedger
  import opened GameplayInvariant
  import opened GameplayHistory
  import opened GameplayTheorems
  import opened GameplayPlay

  /* ---- the constraints, table by table ---- */

  /** With the reference to the published revision and its slot. */
  predicate AttemptPasses(world: World, row: Attempt) {
    && row.revision in world.revisions && world.revisions[row.revision].slot == row.slot
    && 0 <= row.at.e <= 4 && 0 <= row.at.w <= 2 && 0 <= row.at.W <= 15
    && (row.at.state == Active <==> row.terminalAt == None)
    && (row.terminalAt.Some? ==> TimeAllowed(row, row.terminalAt.value))
    && if row.at.state == Exhausted then row.at.e == 4 && row.at.w == 2 && row.at.W == 15
       else row.at.w <= row.at.W <= row.at.e * 3 + row.at.w
  }

  /** With the references to the attempt: owner, slot and state are those of its row. */
  predicate FinalPasses(f: Final, row: Attempt) {
    && f.guest == row.guest && f.slot == row.slot && f.outcome == row.at.state
    && f.outcome != Active && f.score >= 0 && (f.outcome == Solved || f.score == 0)
  }

  predicate BoardPasses(b: BoardRow, row: Attempt, f: Final) {
    && b.guest == row.guest && b.slot == row.slot && row.at.state == Solved && b.e == row.at.e && b.W == row.at.W
    && b.score == f.score && 0 <= b.e <= 4 && 0 <= b.W <= 15 && b.elapsed >= 0 && b.score >= 0
  }

  predicate ContributionPasses(c: Contribution, f: Final) {
    && c.guest == f.guest && c.alpha >= 0 && c.beta >= 0 && c.alpha + c.beta == 100
    && (f.outcome == Solved || c.alpha == 0)
  }

  /** The outcome fits the kind, the key has 1 to 128 characters, and session and attempt are the guest's. */
  predicate ReceiptPasses(world: World, attempts: Attempts, k: (Id, string), r: Receipt) {
    && OutcomeFits(r.kind, r.outcome) && 1 <= |k.1| <= 128
    && r.session in world.sessions && world.sessions[r.session].guest == k.0
    && r.attempt in attempts && attempts[r.attempt].guest == k.0
  }

  predicate GuessPasses(attempts: Attempts, k: (Id, int), guess: GuessRow) {
    k.0 in attempts && 1 <= k.1 <= 15 && 0 <= guess.level <= 4
  }

  predicate KnowledgePasses(k: Knowledge) {
    k.alpha >= 200 && k.beta >= 200 && k.samples >= 0
  }

  ghost predicate EffectsPass(db: Db, id: Id)
    requires id in db.attempts
  {
    && (id in db.finals ==> FinalPasses(db.finals[id], db.attempts[id]))
    && (id in db.board ==> id in db.finals && BoardPasses(db.board[id], db.attempts[id], db.finals[id]))
    && (forall r: string | (id, r) in db.contributions ::
          id in db.finals && ContributionPasses(db.contributions[(id, r)], db.finals[id]))
  }

  /* ---- they hold ---- */

  lemma PerformanceIsShare(s: Snapshot)
    requires ValidSnapshot(s)
    ensures 0 <= Performance(s) <= 100 && (s.state != Solved ==> Performance(s) == 0)
  {
  }

  lemma DuePass(world: World, row: Attempt)
    requires RowFits(world, row) && (row.terminalAt == None <==> row.at.state == Active)
    ensures AttemptPasses(world, row)
    ensures var due := DueEffects(world, row);
      && (due.final.Some? ==> FinalPasses(due.final.value, row))
      && (due.board.Some? ==> due.final.Some? && BoardPasses(due.board.value, row, due.final.value))
      && (forall r <- due.contributions :: due.final.Some? && ContributionPasses(due.contributions[r], due.final.value))
  {
    PerformanceIsShare(row.at);
    if row.at.state == Solved {
      ScoreIsMonotone(row.at, 0, row.at, Elapsed(row, row.terminalAt.value));
    }
  }

  lemma AttemptsPass(world: World, db: Db, id: Id)
    requires RowsFit(world, db.attempts) && id in db.attempts
    requires LedgerExact(world, db.attempts, db.finals, db.board, db.contributions)
    ensures AttemptPasses(world, db.attempts[id]) && EffectsPass(db, id)
  {
    assert RowFits(world, db.attempts[id]);
    assert Settled(world, db.attempts[id], id, db.finals, db.board, db.contributions);
    DuePass(world, db.attempts[id]);
    var due := DueEffects(world, db.attempts[id]);
    forall r: string | (id, r) in db.contributions
      ensures id in db.finals && ContributionPasses(db.contributions[(id, r)], db.finals[id])
    {
      assert Lookup(db.contributions, (id, r)) == Lookup(due.contributions, r);
    }
  }

  /** Knowledge never falls below what everybody starts with. */
  lemma {:induction false} TallyPasses(world: World, attempts: Attempts, ids: seq<Id>, region: string)
    requires RowsFit(world, attempts)
    ensures KnowledgePasses(Tally(world, attempts, ids, region))
  {
    if ids != [] {
      TallyPasses(world, attempts, ids[..|ids| - 1], region);
      if ids[|ids| - 1] in attempts {
        assert RowFits(world, attempts[ids[|ids| - 1]]);
        PerformanceIsShare(attempts[ids[|ids| - 1]].at);
      }
    }
  }

  function Finished(attempts: Attempts, guest: Id): set<Id> {
    set id | id in attempts && attempts[id].guest == guest && attempts[id].at.state != Active
  }

  lemma {:induction false} Listing(ids: set<Id>) returns (s: seq<Id>)
    ensures (forall i, j | 0 <= i < j < |s| :: s[i] != s[j]) && forall id :: id in s <==> id in ids
  {
    s := [];
    if ids != {} {
      var id :| id in ids;
      var rest := Listing(ids - {id});
      s := rest + [id];
    }
  }

  lemma KnowledgePassesEverywhere(world: World, db: Db, guest: Id, region: string)
    requires RowsFit(world, db.attempts) && KnowledgeExact(world, db.attempts, db.knowledge)
    ensures KnowledgePasses(KnowledgeOf(db.knowledge, guest, region))
  {
    var ids := Listing(Finished(db.attempts, guest));
    assert Lists(db.attempts, guest, ids);
    TallyPasses(world, db.attempts, ids, region);
  }

  lemma GuessesPass(attempts: Attempts, receipts: Receipts, guesses: map<(Id, int), GuessRow>, k: (Id, int))
    requires Journaled(attempts, receipts, guesses) && k in guesses
    ensures 1 <= k.1 <= 15
  {
    assert Explained(attempts[k.0], receipts, guesses, k.0);
    var codes :| Explains(attempts[k.0], receipts, guesses, k.0, codes);
    JournalIsShort(codes);
    JournalCounts(codes);
    assert (k.0, k.1) in guesses;
  }

  /* receipts */

  /** Keys are well formed, and sessions are the guest's own. */
  ghost predicate KeysFit(world: World, receipts: Receipts) {
    forall k <- receipts ::
      ValidKey(k.1) && receipts[k].session in world.sessions && world.sessions[receipts[k].session].guest == k.0
  }

  /** Receipts that stay as they are, or get one more of a live session. */
  ghost predicate OneMoreKey(world: World, a: Receipts, b: Receipts) {
    || b == a
    || exists k, r :: b == a[k := r] && ValidKey(k.1) && r.session in world.sessions && world.sessions[r.session].guest == k.0
  }

  lemma OneMoreFits(world: World, a: Receipts, b: Receipts)
    requires KeysFit(world, a) && OneMoreKey(world, a, b)
    ensures KeysFit(world, b)
  {
  }

  lemma CommandKeepsKeys(world: World, db: Db, guest: Id, session: Id, key: string, token: Fingerprint, clock: Clock)
    requires KeysFit(world, db.receipts) && token.CommandToken?
    ensures
      KeysFit(world,
        Execute(world, db, guest, session, key, token.attempt, token.expectedVersion, token.command, clock).0.receipts)
  {
    if Reaches(world, db, guest, session, key, token, clock) {
      CommandAddsKey(world, db, guest, session, key, token, clock);
      OneMoreFits(
        world, db.receipts,
        Execute(world, db, guest, session, key, token.attempt, token.expectedVersion, token.command, clock).0.receipts);
    } else {
      NoFreshReceipt(world, db, guest, session, key, token, clock);
    }
  }

  lemma CommandAddsKey(world: World, db: Db, guest: Id, session: Id, key: string, token: Fingerprint, clock: Clock)
    requires Reaches(world, db, guest, session, key, token, clock)
    ensures
      OneMoreKey(world, db.receipts,
        Execute(world, db, guest, session, key, token.attempt, token.expectedVersion, token.command, clock).0.receipts)
  {
    FreshReceipt(world, db, guest, session, key, token, clock);
  }

  lemma StartKeepsKeys(world: World, db: Db, guest: Id, session: Id, key: string, clock: Clock, freshId: Id)
    requires Inv(world, db) && KeysFit(world, db.receipts)
    ensures KeysFit(world, Start(world, db, guest, session, key, clock, freshId).0.receipts)
  {
    StartReceipts(world, db, guest, session, key, clock, freshId);
    if !StartReaches(world, db, guest, session, key, clock) {
      EarlyStart(world, db, guest, session, key, clock, freshId);
    }
  }

  lemma TakeKeepsKeys(world: World, db: Db, step: Step)
    requires Inv(world, db) && KeysFit(world, db.receipts)
    ensures KeysFit(world, Take(world, db, step).receipts)
  {
    match step {
      case Requested(StartRequest(guest, session, key), clock, freshId) =>
        StartKeepsKeys(world, db, guest, session, key, clock, freshId);
      case Requested(CommandRequest(guest, session, key, attempt, version, command), clock, _) =>
        CommandKeepsKeys(world, db, guest, session, key, CommandToken(attempt, version, command), clock);
      case _ => ReadReceipts(world, db, step);
    }
  }

  lemma {:induction false} EveryKeyFits(world: World, steps: seq<Step>)
    requires world.Valid()
    ensures KeysFit(world, Run(world, steps).receipts)
  {
    if steps != [] {
      EveryKeyFits(world, steps[..|steps| - 1]);
      EveryRunKeepsInv(world, steps[..|steps| - 1]);
      TakeKeepsKeys(world, Run(world, steps[..|steps| - 1]), steps[|steps| - 1]);
    }
  }

  ghost predicate TablesPass(world: World, db: Db) {
    && (forall id <- db.attempts :: AttemptPasses(world, db.attempts[id]) && EffectsPass(db, id))
    && (forall k <- db.receipts :: ReceiptPasses(world, db.attempts, k, db.receipts[k]))
    && (forall k <- db.guesses :: GuessPasses(db.attempts, k, db.guesses[k]))
    && (forall guest: Id, region: string :: KnowledgePasses(KnowledgeOf(db.knowledge, guest, region)))
  }

  /** In every reachable state every stored row satisfies the check constraints of its table. */
  lemma EveryTablePasses(world: World, steps: seq<Step>)
    requires world.Valid()
    ensures TablesPass(world, Run(world, steps))
  {
    EveryRunKeepsInv(world, steps);
    var db := Run(world, steps);
    forall id <- db.attempts ensures AttemptPasses(world, db.attempts[id]) && EffectsPass(db, id) {
      AttemptsPass(world, db, id);
    }
    EveryKeyFits(world, steps);
    forall k <- db.receipts ensures ReceiptPasses(world, db.attempts, k, db.receipts[k]) {
      assert ReceiptFits(db.attempts, k.0, db.receipts[k]);
    }
    EveryDayWasPlayed(world, steps);
    forall k <- db.guesses ensures GuessPasses(db.attempts, k, db.guesses[k]) {
      GuessesPass(db.attempts, db.receipts, db.guesses, k);
    }
    forall guest: Id, region: string ensures KnowledgePasses(KnowledgeOf(db.knowledge, guest, region)) {
      KnowledgePassesEverywhere(world, db, guest, region);
    }
  }

  /* ---- the read of the current case ---- */

  /** "owned attempt disappeared" cannot happen: the index never dangles. */
  lemma CaseReadSucceeds(world: World, steps: seq<Step>, guest: Id, first: Time, now: Time)
    requires world.Valid()
    ensures ReadCurrent(world, Run(world, steps), guest, first, now).1.Some?
  {
    EveryRunKeepsInv(world, steps);
    CurrentIsOwned(world, Run(world, steps), guest, first, now);
  }

  lemma CurrentIsOwned(world: World, db: Db, guest: Id, first: Time, now: Time)
    requires SlotsIndexed(db.attempts, db.slots) && RowsFit(world, db.attempts)
    ensures ReadCurrent(world, db, guest, first, now).1.Some?
  {
    var revision := world.CurrentRevision(first);
    if revision.Some? && revision.value in world.revisions
       && (guest, world.revisions[revision.value].slot) in db.slots
    {
      assert RowFits(world, db.attempts[db.slots[(guest, world.revisions[revision.value].slot)]]);
    }
  }
}
