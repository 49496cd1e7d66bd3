/** What transactions do and answer, in the columns of the tables alone: a second account, with the numbers of the
    rules written out, that shares no function with the ledger. GameplayAnswers proves the ledger equal to it. */
module GameplayReference {
  import opened Basics
  import opened AttemptEngine
  import opened GameplayLedger
  import opened GameplayInvariant
  import opened GameplayHistory
  import opened GameplayTheorems
  import opened GameplayPlay

  /* ---- scores and shares ---- */

  const TIERS: seq<int> := [1200, 1000, 750, 500, 250]

  const SHARES: seq<int> := [100, 85, 65, 45, 25]

  /** The bonus for `ms` milliseconds. */
  predicate BonusIs(bonus: int, ms: int) {
    && (ms <= 30_000 ==> bonus == 150)
    && (30_000 < ms <= 60_000 ==> bonus == 100)
    && (60_000 < ms <= 120_000 ==> bonus == 60)
    && (120_000 < ms <= 300_000 ==> bonus == 25)
    && (300_000 < ms ==> bonus == 0)
  }

  /** The tier of the level, less 40 for each wrong guess, and the bonus, but never less than 0; only a solved
      game scores. */
  ghost predicate ScoreIs(score: int, s: Snapshot, ms: int) {
    if s.state == Solved && 0 <= s.e <= 4 then
      exists bonus: int :: BonusIs(bonus, ms) && score == (if TIERS[s.e] - 40 * s.W + bonus < 0 then 0 else TIERS[s.e] - 40 * s.W + bonus)
    else score == 0
  }

  /** What a finished game adds to alpha, in hundredths. */
  function Share(s: Snapshot): int {
    if s.state != Solved || !(0 <= s.e <= 4) || SHARES[s.e] < 5 * s.W then 0 else SHARES[s.e] - 5 * s.W
  }

  lemma ScoreIsReference(row: Attempt, terminal: Snapshot, at: Time)
    requires ValidSnapshot(terminal) && row.startedAt <= at
    ensures ScoreIs(FinalScore(row, terminal, at), terminal, at - row.startedAt)
  {
    var ms := at - row.startedAt;
    assert BonusIs(TimeBonus(ms), ms);
  }

  lemma ShareIsReference(s: Snapshot)
    requires ValidSnapshot(s)
    ensures Performance(s) == Share(s)
  {
  }

  /** Two solved games with the same evidence and the same wrong guesses, one within half a minute and one in more
      than five: the points differ by 150, unless the floor at 0 cuts in. */
  lemma SpeedIsWorth150(fast: int, slow: int, a: Snapshot, b: Snapshot, quick: int, long: int)
    requires ScoreIs(fast, a, quick) && ScoreIs(slow, b, long) && quick <= 30_000 && 300_000 < long
    requires a.state == Solved && b.state == Solved && a.e == b.e && a.W == b.W && 0 <= a.e <= 4
    ensures slow > 0 ==> fast == slow + 150
    ensures fast <= 150 ==> slow == 0
  {
  }

  /* ---- what a view tells ---- */

  ghost predicate Told(world: World, db: Db, id: Id, v: View) {
    && id in db.attempts && db.attempts[id].revision in world.revisions
    && var row := db.attempts[id];
    && v.attempt == id && v.at == row.at && v.version == row.version && v.startedAt == row.startedAt
    && v.closesAt == row.slot * 86_400_000 + 86_400_000
    && HistoryShows(db.guesses, id, v.history)
    && (forall n: int | (id, n) in db.guesses :: 1 <= n <= |v.history|)
    && |v.evidence| == (if row.at.state == Active then row.at.e else 4)
    && (forall i | 0 <= i < |v.evidence| :: v.evidence[i] == i + 1)
    && v.answer == (if row.at.state == Active then None else Some(world.revisions[row.revision].answer))
  }

  lemma ProjectionFields(world: World, db: Db, id: Id)
    requires id in db.attempts && db.attempts[id].revision in world.revisions
    ensures var row, v := db.attempts[id], Project(world, db, id);
      && v.attempt == id && v.at == row.at && v.version == row.version && v.startedAt == row.startedAt
      && v.closesAt == world.revisions[row.revision].slot * 86_400_000 + 86_400_000
      && v.history == History(db.guesses, id, 1)
      && v.evidence == (if row.at.state == Active && 0 <= row.at.e <= 4 then [1, 2, 3, 4][..row.at.e] else [1, 2, 3, 4])
      && v.answer == (if row.at.state == Active then None else Some(world.revisions[row.revision].answer))
  {
  }

  lemma HistoryTells(row: Attempt, receipts: Receipts, guesses: Guesses, id: Id)
    requires ValidSnapshot(row.at) && Explained(row, receipts, guesses, id)
    ensures HistoryShows(guesses, id, History(guesses, id, 1))
    ensures forall n: int | (id, n) in guesses :: 1 <= n <= |History(guesses, id, 1)|
  {
    var codes :| Explains(row, receipts, guesses, id, codes);
    HistoryExplained(row, receipts, guesses, id, codes);
  }

  lemma EvidenceTells(s: Snapshot, evidence: seq<int>)
    requires ValidSnapshot(s)
    requires evidence == if s.state == Active && 0 <= s.e <= 4 then [1, 2, 3, 4][..s.e] else [1, 2, 3, 4]
    ensures |evidence| == (if s.state == Active then s.e else 4) && forall i | 0 <= i < |evidence| :: evidence[i] == i + 1
  {
  }

  lemma ProjectionTells(world: World, db: Db, id: Id)
    requires RowsFit(world, db.attempts) && Journaled(db.attempts, db.receipts, db.guesses) && id in db.attempts
    ensures db.attempts[id].revision in world.revisions && Told(world, db, id, Project(world, db, id))
  {
    var row := db.attempts[id];
    assert RowFits(world, row);
    assert Explained(row, db.receipts, db.guesses, id);
    HistoryTells(row, db.receipts, db.guesses, id);
    ProjectionFields(world, db, id);
    EvidenceTells(row.at, Project(world, db, id).evidence);
  }

  /* ---- what the end of a game leaves ---- */

  ghost predicate FinalEntered(a: map<Id, Final>, b: map<Id, Final>, id: Id, row: Attempt, next: Snapshot, at: Time) {
    && id in b && b.Keys == a.Keys + {id} && (forall other <- a | other != id :: b[other] == a[other])
    && b[id].guest == row.guest && b[id].slot == row.slot && b[id].outcome == next.state && b[id].at == at
    && ScoreIs(b[id].score, next, at - row.startedAt)
  }

  ghost predicate BoardEntered(
    a: map<Id, BoardRow>, b: map<Id, BoardRow>, id: Id, row: Attempt, next: Snapshot, at: Time)
  {
    if next.state != Solved then b == a
    else
      && id in b && b.Keys == a.Keys + {id} && (forall other <- a | other != id :: b[other] == a[other])
      && b[id].guest == row.guest && b[id].slot == row.slot && b[id].e == next.e && b[id].W == next.W
      && b[id].elapsed == at - row.startedAt && ScoreIs(b[id].score, next, at - row.startedAt)
  }

  ghost predicate ContributionsEntered(
    a: map<(Id, string), Contribution>, b: map<(Id, string), Contribution>, id: Id, guest: Id, regions: set<string>,
    share: int)
  {
    && (forall k :: k in b <==> k in a || (k.0 == id && k.1 in regions))
    && (forall k <- a :: b[k] == a[k])
    && (forall r <- regions :: (id, r) !in a && b[(id, r)].guest == guest && b[(id, r)].alpha == share
                               && b[(id, r)].beta == 100 - share)
  }

  function Stored(m: map<(Id, string), Knowledge>, guest: Id, region: string): Knowledge {
    if (guest, region) in m then m[(guest, region)] else Knowledge(200, 200, 0)
  }

  ghost predicate KnowledgeEntered(
    a: map<(Id, string), Knowledge>, b: map<(Id, string), Knowledge>, guest: Id, regions: set<string>, share: int)
  {
    forall g: Id, r: string ::
      var before := Stored(a, g, r);
      Stored(b, g, r) ==
      if g == guest && r in regions
      then Knowledge(before.alpha + share, before.beta + 100 - share, before.samples + 1) else before
  }

  /** The attempt moves on; if its game ends, finalization, contributions, knowledge and leaderboard row follow. */
  ghost predicate MovedOnTo(world: World, db: Db, after: Db, id: Id, next: Snapshot, at: Time)
    requires id in db.attempts && db.attempts[id].revision in world.revisions
  {
    var row, regions := db.attempts[id], world.revisions[db.attempts[id].revision].regions;
    && after.attempts == db.attempts[
         id := Attempt(row.guest, row.revision, row.slot, next, row.version + 1, row.startedAt,
                       if next.state == Active then None else Some(at))]
    && after.slots == db.slots
    && if next.state == Active then
         after.finals == db.finals && after.board == db.board && after.contributions == db.contributions
         && after.knowledge == db.knowledge
       else
         && FinalEntered(db.finals, after.finals, id, row, next, at)
         && BoardEntered(db.board, after.board, id, row, next, at)
         && ContributionsEntered(db.contributions, after.contributions, id, row.guest, regions, Share(next))
         && KnowledgeEntered(db.knowledge, after.knowledge, row.guest, regions, Share(next))
  }

  lemma RowMoves(row: Attempt, next: Snapshot, at: Time)
    ensures MovedRow(row, next, at)
         == Attempt(row.guest, row.revision, row.slot, next, row.version + 1, row.startedAt,
                    if next.state == Active then None else Some(at))
  {
  }

  lemma ContributionsAreEntered(
    a: map<(Id, string), Contribution>, id: Id, guest: Id, regions: set<string>, share: int)
    requires forall r <- regions :: (id, r) !in a
    ensures ContributionsEntered(a, InsertContributions(a, id, guest, regions, share), id, guest, regions, share)
  {
  }

  lemma KnowledgeIsEntered(a: map<(Id, string), Knowledge>, guest: Id, regions: set<string>, share: int)
    ensures KnowledgeEntered(a, UpsertKnowledge(a, guest, regions, share), guest, regions, share)
  {
  }

  lemma BoardIsEntered(a: map<Id, BoardRow>, id: Id, row: Attempt, next: Snapshot, at: Time)
    requires id !in a && ValidSnapshot(next) && row.startedAt <= at
    ensures BoardEntered(a, InsertBoard(a, id, row, next, at), id, row, next, at)
  {
    ScoreIsReference(row, next, at);
  }

  lemma FinalIsEntered(a: map<Id, Final>, id: Id, row: Attempt, next: Snapshot, at: Time)
    requires id !in a && ValidSnapshot(next) && row.startedAt <= at
    ensures
      FinalEntered(a, a[id := Final(row.guest, row.slot, next.state, FinalScore(row, next, at), at)], id, row, next, at)
  {
    ScoreIsReference(row, next, at);
  }

  /** The tables that the end of a game has made. */
  lemma FinalizedTables(world: World, db: Db, id: Id, next: Snapshot, at: Time)
    requires id in db.attempts && db.attempts[id].revision in world.revisions && id !in db.finals
    ensures
      var row, after := db.attempts[id], Finalize(world, db, id, next, at);
      var regions := NewRegions(world, db.contributions, id, row);
      && after.finals == db.finals[id := Final(row.guest, row.slot, next.state, FinalScore(row, next, at), at)]
      && after.board == InsertBoard(db.board, id, row, next, at)
      && after.contributions == InsertContributions(db.contributions, id, row.guest, regions, Performance(next))
      && after.knowledge == UpsertKnowledge(db.knowledge, row.guest, regions, Performance(next))
  {
  }

  lemma AdvanceMovesOn(world: World, db: Db, id: Id, next: Snapshot, at: Time)
    requires RowsFit(world, db.attempts) && LedgerExact(world, db.attempts, db.finals, db.board, db.contributions)
    requires id in db.attempts && db.attempts[id].at.state == Active && ValidSnapshot(next)
    requires db.attempts[id].startedAt <= at
    ensures db.attempts[id].revision in world.revisions
    ensures MovedOnTo(world, db, Advance(world, db, id, next, at), id, next, at)
  {
    var row := db.attempts[id];
    NothingOnLedger(world, db, id);
    AdvanceFrame(world, db, id, next, at);
    RowMoves(row, next, at);
    if next.state != Active {
      var regions := world.revisions[row.revision].regions;
      FinalizedTables(world, db, id, next, at);
      ShareIsReference(next);
      NoContributionYet(world, db, id);
      ContributionsAreEntered(db.contributions, id, row.guest, regions, Share(next));
      KnowledgeIsEntered(db.knowledge, row.guest, regions, Share(next));
      BoardIsEntered(db.board, id, row, next, at);
      FinalIsEntered(db.finals, id, row, next, at);
    }
  }

  lemma NoContributionYet(world: World, db: Db, id: Id)
    requires RowsFit(world, db.attempts) && id in db.attempts && db.attempts[id].at.state == Active
    requires LedgerExact(world, db.attempts, db.finals, db.board, db.contributions)
    ensures forall r: string :: (id, r) !in db.contributions
  {
    assert RowFits(world, db.attempts[id]);
    assert Settled(world, db.attempts[id], id, db.finals, db.board, db.contributions);
    forall r: string ensures (id, r) !in db.contributions {
      assert Lookup(db.contributions, (id, r)) == None;
    }
  }

  /* ---- expiry ---- */

  /** The attempt moves on without a receipt, a guess or a day. */
  ghost predicate MovedAlone(world: World, db: Db, after: Db, id: Id, next: Snapshot, at: Time)
    requires id in db.attempts && db.attempts[id].revision in world.revisions
  {
    && MovedOnTo(world, db, after, id, next, at)
    && after.receipts == db.receipts && after.guesses == db.guesses && after.days == db.days
  }

  /** A running game whose window has closed is ended by the clock, at the closing time; anything else stays as it
      is. */
  ghost predicate Expires(world: World, db: Db, after: Db, id: Id, now: Time)
    requires id in db.attempts && db.attempts[id].revision in world.revisions
  {
    var row := db.attempts[id];
    if row.at.state == Active && row.slot * 86_400_000 + 86_400_000 <= now then
      MovedAlone(world, db, after, id, Snapshot(Expired, row.at.e, row.at.w, row.at.W), row.slot * 86_400_000 + 86_400_000)
    else after == db
  }

  lemma AdvanceMovesAlone(world: World, db: Db, id: Id, next: Snapshot, at: Time)
    requires RowsFit(world, db.attempts) && LedgerExact(world, db.attempts, db.finals, db.board, db.contributions)
    requires id in db.attempts && db.attempts[id].at.state == Active && ValidSnapshot(next)
    requires db.attempts[id].startedAt <= at
    ensures db.attempts[id].revision in world.revisions
    ensures MovedAlone(world, db, Advance(world, db, id, next, at), id, next, at)
  {
    AdvanceMovesOn(world, db, id, next, at);
    AdvanceFrame(world, db, id, next, at);
  }

  /** When lazy expiry acts, and how. */
  lemma ExpiryActs(world: World, db: Db, id: Id, now: Time)
    requires id in db.attempts && RowFits(world, db.attempts[id])
    ensures var row, after := db.attempts[id], ExpireIfClosed(world, db, id, now);
      var closes := row.slot * 86_400_000 + 86_400_000;
      if row.at.state == Active && closes <= now
      then after == Advance(world, db, id, Snapshot(Expired, row.at.e, row.at.w, row.at.W), closes) else after == db
  {
    ExpireIsAdvance(world, db, id, now);
  }

  lemma ExpiryIsReference(world: World, db: Db, id: Id, now: Time)
    requires RowsFit(world, db.attempts) && LedgerExact(world, db.attempts, db.finals, db.board, db.contributions)
    requires id in db.attempts
    ensures db.attempts[id].revision in world.revisions
    ensures Expires(world, db, ExpireIfClosed(world, db, id, now), id, now)
  {
    assert RowFits(world, db.attempts[id]);
    ExpiryActs(world, db, id, now);
    var row := db.attempts[id];
    if row.at.state == Active {
      AdvanceMovesAlone(
        world, db, id, Snapshot(Expired, row.at.e, row.at.w, row.at.W), row.slot * 86_400_000 + 86_400_000);
    }
  }
}
