/** What every transaction keeps true of the gameplay tables.

    Each predicate names only the tables it speaks of, so that a change elsewhere leaves it alone. */
module GameplayInvariant {
  import opened Basics
  import opened AttemptEngine
  import opened GameplayLedger

  type Attempts = map<Id, Attempt>
  type Receipts = map<(Id, string), Receipt>

  /** The unique index agrees with the rows: one attempt per guest and slot. */
  ghost predicate SlotsIndexed(attempts: Attempts, slots: map<(Id, int), Id>) {
    && (forall k <- slots :: && slots[k] in attempts
                             && attempts[slots[k]].guest == k.0 && attempts[slots[k]].slot == k.1)
    && (forall id <- attempts :: && (attempts[id].guest, attempts[id].slot) in slots
                                 && slots[(attempts[id].guest, attempts[id].slot)] == id)
  }

  /** Not before the start of the attempt and not after its window. */
  predicate Within(world: World, row: Attempt, at: Time) {
    row.revision in world.revisions && row.startedAt <= at <= world.revisions[row.revision].ClosesAt()
  }

  ghost predicate RowFits(world: World, row: Attempt) {
    && row.revision in world.revisions
    && world.revisions[row.revision].slot == row.slot
    && ValidSnapshot(row.at)
    && world.revisions[row.revision].OpensAt() <= row.startedAt < world.revisions[row.revision].ClosesAt()
    && (row.terminalAt.Some? ==> Within(world, row, row.terminalAt.value))
  }

  ghost predicate RowsFit(world: World, attempts: Attempts) {
    forall id <- attempts :: RowFits(world, attempts[id])
  }

  /* ---- the journal of an attempt ---- */

  ghost predicate Committed(receipts: Receipts, id: Id, k: (Id, string)) {
    k in receipts && receipts[k].attempt == id && receipts[k].outcome.Played?
  }

  ghost predicate VersionTaken(receipts: Receipts, id: Id, v: nat) {
    exists k :: Committed(receipts, id, k) && receipts[k].committedVersion == v
  }

  /** The command receipts of an attempt carry exactly the versions 1..n, once each, and `codes` are their
      outcomes in that order. */
  ghost predicate IsJournal(receipts: Receipts, id: Id, codes: seq<Code>) {
    && (forall k | Committed(receipts, id, k) ::
          && 1 <= receipts[k].committedVersion <= |codes|
          && receipts[k].outcome == Played(codes[receipts[k].committedVersion - 1]))
    && (forall v: nat | 1 <= v <= |codes| :: VersionTaken(receipts, id, v))
    && (forall k, l | Committed(receipts, id, k) && Committed(receipts, id, l)
                      && receipts[k].committedVersion == receipts[l].committedVersion :: k == l)
  }

  /** The row is what the engine makes of the journal, expired if the clock ended the game. */
  ghost predicate RowIsReplay(row: Attempt, codes: seq<Code>) {
    && Playable(codes)
    && (if row.at.state == Expired
        then Replay(codes).state == Active && row.at == Replay(codes).(state := Expired) && row.version == |codes| + 1
        else row.at == Replay(codes) && row.version == |codes|)
  }

  /** Guess rows are numbered 1..k without a gap, one for each guess in the journal. */
  ghost predicate GuessesNumbered(guesses: map<(Id, int), GuessRow>, id: Id, count: nat) {
    forall j: int :: (id, j) in guesses <==> 1 <= j <= count
  }

  ghost predicate Explains(row: Attempt, receipts: Receipts, guesses: map<(Id, int), GuessRow>, id: Id, codes: seq<Code>) {
    IsJournal(receipts, id, codes) && RowIsReplay(row, codes) && GuessesNumbered(guesses, id, CountGuesses(codes))
  }

  ghost predicate Explained(row: Attempt, receipts: Receipts, guesses: map<(Id, int), GuessRow>, id: Id) {
    exists codes :: Explains(row, receipts, guesses, id, codes)
  }

  ghost predicate Journaled(attempts: Attempts, receipts: Receipts, guesses: map<(Id, int), GuessRow>) {
    && (forall id {:trigger Explained(attempts[id], receipts, guesses, id)} | id in attempts ::
          Explained(attempts[id], receipts, guesses, id))
    && (forall k <- guesses :: k.0 in attempts)
  }

  ghost predicate ReceiptFits(attempts: Attempts, guest: Id, r: Receipt) {
    && r.attempt in attempts && attempts[r.attempt].guest == guest
    && r.committedVersion <= attempts[r.attempt].version
    && OutcomeFits(r.kind, r.outcome)
    && (r.token == StartToken <==> r.kind == StartKind)
    && (r.token.CommandToken? ==>
          && r.token.attempt == r.attempt && r.token.command != Malformed
          && r.kind == KindOf(r.token.command) && r.token.expectedVersion + 1 == r.committedVersion)
  }

  ghost predicate ReceiptsFit(attempts: Attempts, receipts: Receipts) {
    forall k <- receipts :: ReceiptFits(attempts, k.0, receipts[k])
  }

  /* ---- the effects of a finished game ---- */

  /** What the ledger says of one attempt. */
  datatype Effects = Effects(
    final: Option<Final>, board: Option<BoardRow>, contributions: map<string, Contribution>)

  function Lookup<K, V>(m: map<K, V>, k: K): Option<V> {
    if k in m then Some(m[k]) else None
  }

  /** Nothing for a running game; everything, with the right amounts, for a finished one; a place on the
      leaderboard for a solved one. */
  function DueEffects(world: World, row: Attempt): Effects
    requires row.revision in world.revisions
  {
    if row.at.state == Active || row.terminalAt == None then Effects(None, None, map[])
    else
      var at := row.terminalAt.value;
      var score := FinalScore(row, row.at, at);
      Effects(
        Some(Final(row.guest, row.slot, row.at.state, score, at)),
        if row.at.state == Solved
        then Some(BoardRow(row.guest, row.slot, row.at.e, row.at.W, Elapsed(row, at), score)) else None,
        map r | r in world.revisions[row.revision].regions
          :: Contribution(row.guest, Performance(row.at), 100 - Performance(row.at)))
  }

  ghost predicate ContributionsAre(
    contributions: map<(Id, string), Contribution>, id: Id, due: map<string, Contribution>)
  {
    forall r: string :: Lookup(contributions, (id, r)) == Lookup(due, r)
  }

  ghost predicate Settled(
    world: World, row: Attempt, id: Id, finals: map<Id, Final>, board: map<Id, BoardRow>,
    contributions: map<(Id, string), Contribution>)
    requires row.revision in world.revisions
  {
    var due := DueEffects(world, row);
    && (row.terminalAt == None <==> row.at.state == Active)
    && Lookup(finals, id) == due.final
    && Lookup(board, id) == due.board
    && ContributionsAre(contributions, id, due.contributions)
  }

  ghost predicate LedgerExact(
    world: World, attempts: Attempts, finals: map<Id, Final>, board: map<Id, BoardRow>,
    contributions: map<(Id, string), Contribution>)
    requires RowsFit(world, attempts)
  {
    && (forall id <- attempts :: Settled(world, attempts[id], id, finals, board, contributions))
    && (forall id <- finals :: id in attempts)
    && (forall id <- board :: id in attempts)
    && (forall k <- contributions :: k.0 in attempts)
  }

  /* ---- regional knowledge ---- */

  /** A listing, in any order and without repetition, of the finished attempts of a guest. */
  ghost predicate Lists(attempts: Attempts, guest: Id, ids: seq<Id>) {
    && (forall i, j | 0 <= i < j < |ids| :: ids[i] != ids[j])
    && (forall id :: id in ids <==> id in attempts && attempts[id].guest == guest && attempts[id].at.state != Active)
  }

  function GainIf(world: World, row: Attempt, region: string, k: Knowledge): Knowledge {
    if row.revision in world.revisions && region in world.revisions[row.revision].regions
    then Gain(k, Performance(row.at)) else k
  }

  /** The knowledge that listed finished cases add up to. */
  ghost function Tally(world: World, attempts: Attempts, ids: seq<Id>, region: string): Knowledge {
    if ids == [] then INITIAL_KNOWLEDGE
    else
      var last := ids[|ids| - 1];
      var k := Tally(world, attempts, ids[..|ids| - 1], region);
      if last in attempts then GainIf(world, attempts[last], region, k) else k
  }

  ghost predicate KnowledgeExact(world: World, attempts: Attempts, knowledge: map<(Id, string), Knowledge>) {
    forall guest, ids, region | Lists(attempts, guest, ids) ::
      KnowledgeOf(knowledge, guest, region) == Tally(world, attempts, ids, region)
  }

  ghost predicate TablesExact(world: World, db: Db) {
    && SlotsIndexed(db.attempts, db.slots)
    && RowsFit(world, db.attempts)
    && LedgerExact(world, db.attempts, db.finals, db.board, db.contributions)
    && KnowledgeExact(world, db.attempts, db.knowledge)
  }

  ghost predicate Inv(world: World, db: Db) {
    && world.Valid()
    && TablesExact(world, db)
    && Journaled(db.attempts, db.receipts, db.guesses)
    && ReceiptsFit(db.attempts, db.receipts)
  }

  /* ---- tallies ---- */

  lemma {:induction false} TallyFrame(world: World, a: Attempts, b: Attempts, ids: seq<Id>, region: string)
    requires forall id <- ids :: (id in a <==> id in b) && (id in a ==> a[id] == b[id])
    ensures Tally(world, a, ids, region) == Tally(world, b, ids, region)
  {
    if ids != [] {
      TallyFrame(world, a, b, ids[..|ids| - 1], region);
    }
  }

  /** The order of the cases does not matter: one of them can be taken out and added last. */
  lemma {:induction false} TallyTakeOut(world: World, a: Attempts, ids: seq<Id>, i: nat, region: string)
    requires i < |ids| && ids[i] in a
    ensures Tally(world, a, ids, region) == GainIf(world, a[ids[i]], region, Tally(world, a, ids[..i] + ids[i + 1..], region))
    decreases |ids|
  {
    var last := |ids| - 1;
    if i == last {
      assert ids[..i] + ids[i + 1..] == ids[..last];
    } else {
      TallyTakeOut(world, a, ids[..last], i, region);
      var rest := ids[..i] + ids[i + 1..];
      assert rest[..|rest| - 1] == ids[..last][..i] + ids[..last][i + 1..];
    }
  }

  /** Every finished case adds one sample and one hundred hundredths. */
  lemma {:induction false} TallyConserves(world: World, a: Attempts, ids: seq<Id>, region: string)
    ensures var k := Tally(world, a, ids, region);
      k.alpha + k.beta == 400 + 100 * k.samples && 0 <= k.samples <= |ids|
  {
    if ids != [] {
      TallyConserves(world, a, ids[..|ids| - 1], region);
    }
  }

  /** Taking the entry `ids[i]` out of a listing. */
  lemma ListWithout(a: Attempts, b: Attempts, guest: Id, ids: seq<Id>, i: nat)
    requires Lists(b, guest, ids) && i < |ids|
    requires forall id :: id in a <==> id in b
    requires forall id <- a | id != ids[i] :: a[id] == b[id]
    requires ids[i] in a && a[ids[i]].at.state == Active
    ensures Lists(a, guest, ids[..i] + ids[i + 1..])
  {
    var rest := ids[..i] + ids[i + 1..];
    forall id ensures id in rest <==> id in ids && id != ids[i] {
      if id in rest {
        var j :| 0 <= j < |rest| && rest[j] == id;
        assert rest[j] == ids[if j < i then j else j + 1];
      }
      if id in ids && id != ids[i] {
        var j :| 0 <= j < |ids| && ids[j] == id;
        assert rest[if j < i then j else j - 1] == id;
      }
    }
  }

  /* ---- advancing an attempt, whether to another active row or to its end ---- */

  lemma MoveKeepsSlots(attempts: Attempts, slots: map<(Id, int), Id>, id: Id, next: Snapshot, at: Time)
    requires id in attempts && SlotsIndexed(attempts, slots)
    ensures SlotsIndexed(attempts[id := MovedRow(attempts[id], next, at)], slots)
  {
  }

  lemma MoveKeepsRows(world: World, attempts: Attempts, id: Id, next: Snapshot, at: Time)
    requires id in attempts && RowsFit(world, attempts) && ValidSnapshot(next) && Within(world, attempts[id], at)
    ensures RowsFit(world, attempts[id := MovedRow(attempts[id], next, at)])
  {
    assert RowFits(world, attempts[id]);
  }

  /** An advance that ends the game enters everything that is due, and nothing about other attempts. */
  lemma FinalizeSettles(
    world: World, row: Attempt, id: Id, next: Snapshot, at: Time, finals: map<Id, Final>, board: map<Id, BoardRow>,
    contributions: map<(Id, string), Contribution>)
    requires row.revision in world.revisions && row.at.state == Active && next.state != Active
    requires Settled(world, row, id, finals, board, contributions)
    ensures Settled(world, MovedRow(row, next, at), id,
              finals[id := Final(row.guest, row.slot, next.state, FinalScore(row, next, at), at)],
              InsertBoard(board, id, row, next, at),
              InsertContributions(contributions, id, row.guest, NewRegions(world, contributions, id, row), Performance(next)))
  {
    var moved, due := MovedRow(row, next, at), DueEffects(world, MovedRow(row, next, at));
    assert Lookup(board, id) == None;
    assert Lookup(InsertBoard(board, id, row, next, at), id) == due.board;
    var after := InsertContributions(contributions, id, row.guest, NewRegions(world, contributions, id, row), Performance(next));
    forall r: string ensures Lookup(after, (id, r)) == Lookup(due.contributions, r) {
      assert Lookup(contributions, (id, r)) == None;
    }
  }

  /** The effects due for an attempt do not depend on tables rows of other attempts. */
  lemma SettledFrame(
    world: World, row: Attempt, id: Id, finals: map<Id, Final>, board: map<Id, BoardRow>,
    contributions: map<(Id, string), Contribution>, finals': map<Id, Final>, board': map<Id, BoardRow>,
    contributions': map<(Id, string), Contribution>)
    requires row.revision in world.revisions && Settled(world, row, id, finals, board, contributions)
    requires Lookup(finals', id) == Lookup(finals, id) && Lookup(board', id) == Lookup(board, id)
    requires forall r: string :: Lookup(contributions', (id, r)) == Lookup(contributions, (id, r))
    ensures Settled(world, row, id, finals', board', contributions')
  {
  }

  lemma InsertsFrame(
    id: Id, row: Attempt, next: Snapshot, at: Time, board: map<Id, BoardRow>,
    contributions: map<(Id, string), Contribution>, regions: set<string>, performance: int, other: Id)
    requires other != id
    ensures Lookup(InsertBoard(board, id, row, next, at), other) == Lookup(board, other)
    ensures forall r: string :: 
      Lookup(InsertContributions(contributions, id, row.guest, regions, performance), (other, r)) == Lookup(contributions, (other, r))
  {
  }

  lemma InsertsBelong(
    id: Id, row: Attempt, next: Snapshot, at: Time, board: map<Id, BoardRow>,
    contributions: map<(Id, string), Contribution>, regions: set<string>, performance: int)
    ensures forall k <- InsertBoard(board, id, row, next, at) :: k == id || k in board
    ensures forall k <- InsertContributions(contributions, id, row.guest, regions, performance) ::
      k.0 == id || k in contributions
  {
  }

  lemma FinalizeKeepsLedger(
    world: World, attempts: Attempts, id: Id, next: Snapshot, at: Time, finals: map<Id, Final>,
    board: map<Id, BoardRow>, contributions: map<(Id, string), Contribution>)
    requires RowsFit(world, attempts) && id in attempts && attempts[id].at.state == Active && next.state != Active
    requires ValidSnapshot(next) && Within(world, attempts[id], at)
    requires LedgerExact(world, attempts, finals, board, contributions)
    ensures RowsFit(world, attempts[id := MovedRow(attempts[id], next, at)])
    ensures var row := attempts[id];
      LedgerExact(world, attempts[id := MovedRow(row, next, at)],
        finals[id := Final(row.guest, row.slot, next.state, FinalScore(row, next, at), at)],
        InsertBoard(board, id, row, next, at),
        InsertContributions(contributions, id, row.guest, NewRegions(world, contributions, id, row), Performance(next)))
  {
    var row := attempts[id];
    assert RowFits(world, row);
    assert Settled(world, row, id, finals, board, contributions);
    MoveKeepsRows(world, attempts, id, next, at);
    var attempts' := attempts[id := MovedRow(row, next, at)];
    var finals' := finals[id := Final(row.guest, row.slot, next.state, FinalScore(row, next, at), at)];
    var board' := InsertBoard(board, id, row, next, at);
    var contributions' :=
      InsertContributions(contributions, id, row.guest, NewRegions(world, contributions, id, row), Performance(next));
    InsertsBelong(id, row, next, at, board, contributions, NewRegions(world, contributions, id, row), Performance(next));
    forall other <- attempts' ensures Settled(world, attempts'[other], other, finals', board', contributions') {
      if other == id {
        FinalizeSettles(world, row, id, next, at, finals, board, contributions);
      } else {
        InsertsFrame(id, row, next, at, board, contributions, NewRegions(world, contributions, id, row), Performance(next), other);
        SettledFrame(world, attempts[other], other, finals, board, contributions, finals', board', contributions');
      }
    }
  }

  lemma MoveKeepsLedger(
    world: World, attempts: Attempts, id: Id, next: Snapshot, at: Time, finals: map<Id, Final>,
    board: map<Id, BoardRow>, contributions: map<(Id, string), Contribution>)
    requires RowsFit(world, attempts) && id in attempts && attempts[id].at.state == Active && next.state == Active
    requires ValidSnapshot(next) && Within(world, attempts[id], at)
    requires LedgerExact(world, attempts, finals, board, contributions)
    ensures RowsFit(world, attempts[id := MovedRow(attempts[id], next, at)])
    ensures LedgerExact(world, attempts[id := MovedRow(attempts[id], next, at)], finals, board, contributions)
  {
    MoveKeepsRows(world, attempts, id, next, at);
    assert Settled(world, attempts[id], id, finals, board, contributions);
  }

  lemma MoveKeepsKnowledge(
    world: World, attempts: Attempts, knowledge: map<(Id, string), Knowledge>, id: Id, next: Snapshot, at: Time)
    requires id in attempts && attempts[id].at.state == Active && next.state == Active
    requires KnowledgeExact(world, attempts, knowledge)
    ensures KnowledgeExact(world, attempts[id := MovedRow(attempts[id], next, at)], knowledge)
  {
    var after := attempts[id := MovedRow(attempts[id], next, at)];
    forall guest, ids, region | Lists(after, guest, ids)
      ensures KnowledgeOf(knowledge, guest, region) == Tally(world, after, ids, region)
    {
      assert Lists(attempts, guest, ids);
      TallyFrame(world, attempts, after, ids, region);
    }
  }

  lemma FinalizeKeepsKnowledge(
    world: World, attempts: Attempts, knowledge: map<(Id, string), Knowledge>, id: Id, next: Snapshot, at: Time)
    requires id in attempts && attempts[id].revision in world.revisions
    requires attempts[id].at.state == Active && next.state != Active
    requires KnowledgeExact(world, attempts, knowledge)
    ensures KnowledgeExact(world, attempts[id := MovedRow(attempts[id], next, at)],
              UpsertKnowledge(knowledge, attempts[id].guest, world.revisions[attempts[id].revision].regions, Performance(next)))
  {
    var row := attempts[id];
    var after := attempts[id := MovedRow(row, next, at)];
    var gained := UpsertKnowledge(knowledge, row.guest, world.revisions[row.revision].regions, Performance(next));
    forall guest, ids, region | Lists(after, guest, ids)
      ensures KnowledgeOf(gained, guest, region) == Tally(world, after, ids, region)
    {
      if guest == row.guest {
        assert id in ids;
        var i :| 0 <= i < |ids| && ids[i] == id;
        var rest := ids[..i] + ids[i + 1..];
        ListWithout(attempts, after, guest, ids, i);
        TallyTakeOut(world, after, ids, i, region);
        assert id !in rest by {
          assert Lists(attempts, guest, rest);
        }
        TallyFrame(world, attempts, after, rest, region);
        assert KnowledgeOf(knowledge, guest, region) == Tally(world, attempts, rest, region);
      } else {
        assert Lists(attempts, guest, ids);
        TallyFrame(world, attempts, after, ids, region);
        assert KnowledgeOf(knowledge, guest, region) == Tally(world, attempts, ids, region);
      }
    }
  }

  lemma NothingOnLedger(world: World, db: Db, id: Id)
    requires RowsFit(world, db.attempts) && id in db.attempts && db.attempts[id].at.state == Active
    requires LedgerExact(world, db.attempts, db.finals, db.board, db.contributions)
    ensures db.attempts[id].revision in world.revisions && id !in db.finals && id !in db.board
    ensures NewRegions(world, db.contributions, id, db.attempts[id]) == world.revisions[db.attempts[id].revision].regions
  {
    var row := db.attempts[id];
    assert RowFits(world, row);
    assert Settled(world, row, id, db.finals, db.board, db.contributions);
    forall r: string ensures (id, r) !in db.contributions {
      assert Lookup(db.contributions, (id, r)) == None;
    }
  }

  lemma FinalizeFrame(world: World, db: Db, id: Id, next: Snapshot, at: Time)
    requires id in db.attempts && db.attempts[id].revision in world.revisions
    ensures var after := Finalize(world, db, id, next, at);
      && after.attempts == db.attempts[id := MovedRow(db.attempts[id], next, at)]
      && after.slots == db.slots && after.receipts == db.receipts && after.guesses == db.guesses && after.days == db.days
  {
  }

  /** The tables that an advance leaves alone, and the row it moves. */
  lemma AdvanceFrame(world: World, db: Db, id: Id, next: Snapshot, at: Time)
    requires id in db.attempts && db.attempts[id].revision in world.revisions
    ensures var after := Advance(world, db, id, next, at);
      && after.attempts == db.attempts[id := MovedRow(db.attempts[id], next, at)]
      && after.slots == db.slots && after.receipts == db.receipts && after.guesses == db.guesses && after.days == db.days
  {
    if next.state != Active {
      FinalizeFrame(world, db, id, next, at);
    }
  }

  lemma AdvanceKeepsLedger(world: World, db: Db, id: Id, next: Snapshot, at: Time)
    requires RowsFit(world, db.attempts) && LedgerExact(world, db.attempts, db.finals, db.board, db.contributions)
    requires id in db.attempts && db.attempts[id].at.state == Active && ValidSnapshot(next)
    requires Within(world, db.attempts[id], at)
    ensures RowsFit(world, Advance(world, db, id, next, at).attempts)
    ensures var after := Advance(world, db, id, next, at);
      LedgerExact(world, after.attempts, after.finals, after.board, after.contributions)
  {
    NothingOnLedger(world, db, id);
    if next.state == Active {
      MoveKeepsLedger(world, db.attempts, id, next, at, db.finals, db.board, db.contributions);
    } else {
      FinalizeKeepsLedger(world, db.attempts, id, next, at, db.finals, db.board, db.contributions);
    }
  }

  lemma AdvanceKeepsKnowledge(world: World, db: Db, id: Id, next: Snapshot, at: Time)
    requires KnowledgeExact(world, db.attempts, db.knowledge)
    requires id in db.attempts && db.attempts[id].at.state == Active
    requires db.attempts[id].revision in world.revisions && id !in db.finals
    requires NewRegions(world, db.contributions, id, db.attempts[id]) == world.revisions[db.attempts[id].revision].regions
    ensures var after := Advance(world, db, id, next, at); KnowledgeExact(world, after.attempts, after.knowledge)
  {
    if next.state == Active {
      MoveKeepsKnowledge(world, db.attempts, db.knowledge, id, next, at);
    } else {
      FinalizeKeepsKnowledge(world, db.attempts, db.knowledge, id, next, at);
    }
  }

  /** Whatever an advance does, rows, ledger and knowledge stay exact. */
  lemma AdvanceKeepsTables(world: World, db: Db, id: Id, next: Snapshot, at: Time)
    requires TablesExact(world, db) && id in db.attempts && db.attempts[id].at.state == Active && ValidSnapshot(next)
    requires Within(world, db.attempts[id], at)
    ensures TablesExact(world, Advance(world, db, id, next, at))
  {
    AdvanceFrame(world, db, id, next, at);
    NothingOnLedger(world, db, id);
    MoveKeepsSlots(db.attempts, db.slots, id, next, at);
    AdvanceKeepsLedger(world, db, id, next, at);
    AdvanceKeepsKnowledge(world, db, id, next, at);
  }

  /* ---- journals ---- */

  /** A new receipt that is not a command on this attempt leaves its journal alone. */
  lemma JournalFrame(receipts: Receipts, k: (Id, string), r: Receipt, id: Id, codes: seq<Code>)
    requires k !in receipts && (r.attempt != id || !r.outcome.Played?)
    requires IsJournal(receipts, id, codes)
    ensures IsJournal(receipts[k := r], id, codes)
  {
    var after := receipts[k := r];
    forall v: nat | 1 <= v <= |codes| ensures VersionTaken(after, id, v) {
      assert VersionTaken(receipts, id, v);
      var l :| Committed(receipts, id, l) && receipts[l].committedVersion == v;
      assert Committed(after, id, l);
    }
    forall l | Committed(after, id, l) ensures Committed(receipts, id, l) && after[l] == receipts[l] {
    }
  }

  /** A command receipt with the next version extends the journal by its outcome. */
  lemma JournalExtends(receipts: Receipts, k: (Id, string), r: Receipt, id: Id, codes: seq<Code>, code: Code)
    requires k !in receipts && IsJournal(receipts, id, codes)
    requires r.attempt == id && r.outcome == Played(code) && r.committedVersion == |codes| + 1
    ensures IsJournal(receipts[k := r], id, codes + [code])
  {
    var after := receipts[k := r];
    forall v: nat | 1 <= v <= |codes| + 1 ensures VersionTaken(after, id, v) {
      if v == |codes| + 1 {
        assert Committed(after, id, k);
      } else {
        assert VersionTaken(receipts, id, v);
        var l :| Committed(receipts, id, l) && receipts[l].committedVersion == v;
        assert Committed(after, id, l);
      }
    }
    forall l | Committed(after, id, l) && l != k ensures Committed(receipts, id, l) && after[l] == receipts[l] {
    }
  }

  lemma RowAdvances(row: Attempt, codes: seq<Code>, code: Code, next: Snapshot, at: Time)
    requires RowIsReplay(row, codes) && Move(row.at, code).Accepted? && next == Move(row.at, code).attempt
    ensures RowIsReplay(MovedRow(row, next, at), codes + [code])
  {
    MoveFacts(row.at, code);
    PlayOneMore(codes, code);
  }

  lemma RowExpires(row: Attempt, codes: seq<Code>, at: Time)
    requires RowIsReplay(row, codes) && row.at.state == Active
    ensures RowIsReplay(MovedRow(row, row.at.(state := Expired), at), codes)
  {
  }

  lemma ExpireKeepsJournals(attempts: Attempts, receipts: Receipts, guesses: map<(Id, int), GuessRow>, id: Id, at: Time)
    requires Journaled(attempts, receipts, guesses) && id in attempts && attempts[id].at.state == Active
    ensures var row := attempts[id];
      Journaled(attempts[id := MovedRow(row, row.at.(state := Expired), at)], receipts, guesses)
  {
    var row := attempts[id];
    assert Explained(row, receipts, guesses, id);
    var codes :| Explains(row, receipts, guesses, id, codes);
    RowExpires(row, codes, at);
    assert Explains(MovedRow(row, row.at.(state := Expired), at), receipts, guesses, id, codes);
  }

  lemma CommitExplains(
    row: Attempt, receipts: Receipts, guesses: map<(Id, int), GuessRow>, id: Id, code: Code, next: Snapshot, at: Time,
    k: (Id, string), r: Receipt, guess: Option<GuessRow>)
    requires Explained(row, receipts, guesses, id) && row.at.state == Active
    requires Move(row.at, code).Accepted? && next == Move(row.at, code).attempt
    requires k !in receipts && r.attempt == id && r.outcome == Played(code) && r.committedVersion == row.version + 1
    requires guess.Some? <==> code in {Correct, Wrong}
    ensures Explained(MovedRow(row, next, at), receipts[k := r], WithGuess(guesses, id, row.at.W + 1, guess), id)
  {
    var codes :| Explains(row, receipts, guesses, id, codes);
    JournalCounts(codes);
    JournalExtends(receipts, k, r, id, codes, code);
    RowAdvances(row, codes, code, next, at);
    PlayOneMore(codes, code);
    assert GuessesNumbered(WithGuess(guesses, id, row.at.W + 1, guess), id, CountGuesses(codes + [code]));
    assert Explains(MovedRow(row, next, at), receipts[k := r], WithGuess(guesses, id, row.at.W + 1, guess), id, codes + [code]);
  }

  lemma OtherExplained(
    row: Attempt, receipts: Receipts, guesses: map<(Id, int), GuessRow>, other: Id, id: Id, number: int,
    guess: Option<GuessRow>, k: (Id, string), r: Receipt)
    requires Explained(row, receipts, guesses, other) && other != id
    requires k !in receipts && r.attempt == id
    ensures Explained(row, receipts[k := r], WithGuess(guesses, id, number, guess), other)
  {
    var codes :| Explains(row, receipts, guesses, other, codes);
    JournalFrame(receipts, k, r, other, codes);
    assert GuessesNumbered(WithGuess(guesses, id, number, guess), other, CountGuesses(codes));
    assert Explains(row, receipts[k := r], WithGuess(guesses, id, number, guess), other, codes);
  }

  lemma CommitKeepsJournals(
    attempts: Attempts, receipts: Receipts, guesses: map<(Id, int), GuessRow>, id: Id, code: Code, next: Snapshot,
    at: Time, k: (Id, string), r: Receipt, guess: Option<GuessRow>)
    requires Journaled(attempts, receipts, guesses) && id in attempts && attempts[id].at.state == Active
    requires Move(attempts[id].at, code).Accepted? && next == Move(attempts[id].at, code).attempt
    requires k !in receipts && r.attempt == id && r.outcome == Played(code)
    requires r.committedVersion == attempts[id].version + 1
    requires guess.Some? <==> code in {Correct, Wrong}
    ensures var row := attempts[id];
      Journaled(attempts[id := MovedRow(row, next, at)], receipts[k := r], WithGuess(guesses, id, row.at.W + 1, guess))
  {
    var row := attempts[id];
    var attempts' := attempts[id := MovedRow(row, next, at)];
    forall other <- attempts'
      ensures Explained(attempts'[other], receipts[k := r], WithGuess(guesses, id, row.at.W + 1, guess), other)
    {
      assert Explained(attempts[other], receipts, guesses, other);
      if other == id {
        CommitExplains(row, receipts, guesses, id, code, next, at, k, r, guess);
      } else {
        OtherExplained(attempts[other], receipts, guesses, other, id, row.at.W + 1, guess, k, r);
      }
    }
  }

  /** Fresh numbers: the row of the next guess is free and within the table's bounds. */
  lemma NextGuessIsFree(row: Attempt, receipts: Receipts, guesses: map<(Id, int), GuessRow>, id: Id)
    requires Explained(row, receipts, guesses, id) && row.at.state == Active
    ensures (id, row.at.W + 1) !in guesses && 1 <= row.at.W + 1 <= 15
  {
    var codes :| Explains(row, receipts, guesses, id, codes);
    JournalCounts(codes);
    JournalIsShort(codes);
    JournalIsValid(codes);
  }
}
