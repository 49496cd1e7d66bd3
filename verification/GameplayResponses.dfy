/** What guests see: responses fit the published contract, reads settle what is due, and the ledger and the
    journal of every reachable state are exact. */
module GameplayResponses {
  import opened Basics
  import opened AttemptEngine
  import opened GameplayLedger
  import opened GameplayInvariant
  import opened GameplayHistory
  import opened GameplayTheorems

  /* ---- every reachable state ---- */

  /** The journal that explains an attempt, with its bounds. */
  ghost predicate Sourced(row: Attempt, receipts: Receipts, guesses: map<(Id, int), GuessRow>, id: Id, codes: seq<Code>) {
    && Explains(row, receipts, guesses, id, codes)
    && |codes| <= 15 && CountGuesses(codes) <= 15
    && row.version == |codes| + if row.at.state == Expired then 1 else 0
  }

  lemma ExplainedIsSourced(row: Attempt, receipts: Receipts, guesses: map<(Id, int), GuessRow>, id: Id)
    requires Explained(row, receipts, guesses, id)
    ensures exists codes :: Sourced(row, receipts, guesses, id, codes)
  {
    var codes :| Explains(row, receipts, guesses, id, codes);
    JournalIsShort(codes);
    JournalCounts(codes);
    assert Sourced(row, receipts, guesses, id, codes);
  }

  /** Event sourcing: the stored snapshot is the replay of the receipts in the order of their committed
      versions, which are exactly 1..n with n at most 15; the clock adds one more version when it ends the
      game; and the guess rows are numbered without a gap. */
  lemma EveryAttemptIsItsJournal(world: World, steps: seq<Step>, id: Id)
    requires world.Valid() && id in Run(world, steps).attempts
    ensures var db := Run(world, steps); exists codes :: Sourced(db.attempts[id], db.receipts, db.guesses, id, codes)
  {
    EveryRunKeepsInv(world, steps);
    var db := Run(world, steps);
    assert Explained(db.attempts[id], db.receipts, db.guesses, id);
    ExplainedIsSourced(db.attempts[id], db.receipts, db.guesses, id);
  }

  /** Exactly once: a finalization stands for each attempt that is over and for no other, a leaderboard row
      for each solved one; and one guest has one attempt in a slot. */
  lemma EveryLedgerIsExact(world: World, steps: seq<Step>)
    requires world.Valid()
    ensures
      var db := Run(world, steps);
      && (forall id :: id in db.finals <==> id in db.attempts && db.attempts[id].at.state != Active)
      && (forall id :: id in db.board <==> id in db.attempts && db.attempts[id].at.state == Solved)
      && (forall a, b | a in db.attempts && b in db.attempts && db.attempts[a].guest == db.attempts[b].guest
                        && db.attempts[a].slot == db.attempts[b].slot :: a == b)
  {
    EveryRunKeepsInv(world, steps);
    var db := Run(world, steps);
    assert LedgerExact(world, db.attempts, db.finals, db.board, db.contributions);
    forall id ensures id in db.finals <==> id in db.attempts && db.attempts[id].at.state != Active {
      if id in db.attempts {
        assert Settled(world, db.attempts[id], id, db.finals, db.board, db.contributions);
      }
    }
    forall id ensures id in db.board <==> id in db.attempts && db.attempts[id].at.state == Solved {
      if id in db.attempts {
        assert Settled(world, db.attempts[id], id, db.finals, db.board, db.contributions);
      }
    }
  }

  /** Regional knowledge, updated row by row, is what all finished cases of the guest add up to, taken in
      any order, and each of them added one sample worth one hundred hundredths. */
  lemma EveryKnowledgeIsTally(world: World, steps: seq<Step>, guest: Id, ids: seq<Id>, region: string)
    requires world.Valid() && Lists(Run(world, steps).attempts, guest, ids)
    ensures
      var db := Run(world, steps);
      var k := KnowledgeOf(db.knowledge, guest, region);
      && k == Tally(world, db.attempts, ids, region)
      && k.alpha + k.beta == 400 + 100 * k.samples && 0 <= k.samples <= |ids|
  {
    EveryRunKeepsInv(world, steps);
    TallyConserves(world, Run(world, steps).attempts, ids, region);
  }

  /* ---- the profile read ---- */

  /** Settling one attempt never reopens another. */
  lemma ReconciledStays(world: World, a: Db, b: Db, id: Id, now: Time)
    requires Evolves(a, b) && Reconciled(world, a, id, now)
    ensures Reconciled(world, b, id, now)
  {
    assert RowEvolves(a.attempts[id], b.attempts[id]);
  }

  lemma OwnedStays(world: World, a: Db, b: Db, id: Id, guest: Id)
    requires Evolves(a, b) && Owned(world, a, id, guest)
    ensures Owned(world, b, id, guest)
  {
    assert RowEvolves(a.attempts[id], b.attempts[id]);
  }

  lemma OneMoreSettles(world: World, db: Db, guest: Id, last: Id, now: Time, id: Id)
    requires Inv(world, db) && Owned(world, db, id, guest) && (id == last || Reconciled(world, db, id, now))
    ensures Reconciled(world, if Owned(world, db, last, guest) then ExpireIfClosed(world, db, last, now) else db, id, now)
  {
    if id == last {
      assert RowFits(world, db.attempts[id]);
      ExpireReconciles(world, db, id, now);
    } else if Owned(world, db, last, guest) {
      ExpireKeepsInv(world, db, last, now);
      ReconciledStays(world, db, ExpireIfClosed(world, db, last, now), id, now);
    }
  }

  lemma InFront(ids: seq<Id>, id: Id)
    requires id in ids && ids[|ids| - 1] != id
    ensures id in ids[..|ids| - 1]
  {
    assert ids == ids[..|ids| - 1] + [ids[|ids| - 1]];
  }

  /** After a profile read over the guest's active attempts none of them is past its closing time. */
  lemma {:induction false} ProfileSettlesAll(world: World, db: Db, guest: Id, ids: seq<Id>, now: Time, id: Id)
    requires Inv(world, db) && id in ids && Owned(world, db, id, guest)
    ensures Reconciled(world, ExpireAll(world, db, guest, ids, now), id, now)
  {
    var last := |ids| - 1;
    var before := ExpireAll(world, db, guest, ids[..last], now);
    ExpireAllKeepsInv(world, db, guest, ids[..last], now);
    OwnedStays(world, db, before, id, guest);
    if ids[last] != id {
      InFront(ids, id);
      ProfileSettlesAll(world, db, guest, ids[..last], now, id);
    }
    OneMoreSettles(world, before, guest, ids[last], now, id);
  }

  /* ---- the response contract ---- */

  /** The refinements of the attempt projection schema. */
  predicate ViewConforms(v: View) {
    && 0 <= v.at.e <= 4 && 0 <= v.at.w <= 2 && 0 <= v.at.W <= 15 && |v.history| <= 15
    && if v.at.state == Active then
         CountersReachable(v.at) && |v.evidence| == v.at.e
         && (forall i | 0 <= i < |v.evidence| :: v.evidence[i] == i + 1) && v.answer == None
       else
         && |v.evidence| == 4 && (forall i | 0 <= i < |v.evidence| :: v.evidence[i] == i + 1) && v.answer.Some?
         && if v.at.state == Exhausted then v.at.e == 4 && v.at.w == 2 && v.at.W == 15 else CountersReachable(v.at)
  }

  /** The state that a fresh outcome of a command leads to. */
  predicate Leads(outcome: OutcomeCode, state: AttemptState) {
    match outcome
    case Started => false
    case Played(Correct) => state == Solved
    case Played(GaveUp) => state == GivenUp
    case Played(Revealed) => state == Active
    case Played(Wrong) => state in {Active, Exhausted}
  }

  /** The response schemas of the two mutations: a start is answered with STARTED, a command, replayed or not,
      with an outcome that fits its kind, and a fresh outcome comes with the state that it leads to. */
  predicate ResultConforms(request: Request, result: Result)
    requires result.Ok?
  {
    && ViewConforms(result.view)
    && match request
       case StartRequest(_, _, _) => result.outcome == Started
       case CommandRequest(_, _, _, _, _, command) =>
         && OutcomeFits(KindOf(command), result.outcome)
         && (!result.replayed ==> Leads(result.outcome, result.view.at.state))
  }

  lemma EvidenceConforms(at: Snapshot, evidence: seq<int>)
    requires 0 <= at.e <= 4 && evidence == if at.state == Active && 0 <= at.e <= 4 then EVIDENCE[..at.e] else EVIDENCE
    ensures |evidence| == (if at.state == Active then at.e else 4) && forall i | 0 <= i < |evidence| :: evidence[i] == i + 1
  {
  }

  /** What a projection shows of its row. */
  lemma ProjectionShows(world: World, db: Db, id: Id)
    requires id in db.attempts && db.attempts[id].revision in world.revisions
    ensures var v, at := Project(world, db, id), db.attempts[id].at;
      && v.at == at && |v.history| <= 15 && (v.answer == None <==> at.state == Active)
      && v.evidence == if at.state == Active && 0 <= at.e <= 4 then EVIDENCE[..at.e] else EVIDENCE
  {
  }

  lemma CountersConform(at: Snapshot)
    requires ValidSnapshot(at)
    ensures 0 <= at.e <= 4 && 0 <= at.w <= 2 && 0 <= at.W <= 15
    ensures if at.state == Exhausted then at.e == 4 && at.w == 2 && at.W == 15 else CountersReachable(at)
  {
  }

  lemma ProjectionConforms(world: World, db: Db, id: Id)
    requires id in db.attempts && RowFits(world, db.attempts[id])
    ensures ViewConforms(Project(world, db, id))
  {
    ProjectionShows(world, db, id);
    CountersConform(db.attempts[id].at);
    EvidenceConforms(db.attempts[id].at, Project(world, db, id).evidence);
  }

  lemma FreshStateFits(
    world: World, db: Db, guest: Id, session: Id, key: string, token: Fingerprint, clock: Clock)
    requires Reaches(world, db, guest, session, key, token, clock)
    requires Fresh(Execute(world, db, guest, session, key, token.attempt, token.expectedVersion, token.command, clock).1)
    ensures
      var result := Execute(world, db, guest, session, key, token.attempt, token.expectedVersion, token.command, clock).1;
      OutcomeFits(KindOf(token.command), result.outcome) && Leads(result.outcome, result.view.at.state)
  {
    ExecuteCases(world, db, guest, session, key, token, clock);
    var current := ExpireIfClosed(world, db, token.attempt, clock.sampled);
    WriteMovesOn(world, current, guest, session, key, token, clock);
    var decision := Decide(world, current, guest, session, token, clock);
    CommitRecords(world, current, guest, session, key, token, decision.next, decision.played, decision.entity, clock.sampled);
  }

  /** The attempt that an answer shows is in the tables, as shown. */
  lemma AnswerShowsTables(world: World, db: Db, request: Request, clock: Clock, freshId: Id)
    requires Inv(world, db) && Serve(world, db, request, clock, freshId).1.Ok?
    ensures
      var (after, result) := Serve(world, db, request, clock, freshId);
      result.view.attempt in after.attempts && after.attempts[result.view.attempt].revision in world.revisions
      && result.view == Project(world, after, result.view.attempt)
  {
    match request {
      case StartRequest(guest, session, key) =>
        StartCases(world, db, guest, session, key, clock, freshId);
        if StartReaches(world, db, guest, session, key, clock) {
          OpenCases(world, db, guest, session, key, world.CurrentRevision(clock.sampled).value, clock, freshId);
        }
      case CommandRequest(guest, session, key, _, _, _) =>
        ExecuteCases(world, db, guest, session, key, TokenOf(request), clock);
    }
  }

  lemma ReplayedFits(attempts: Attempts, guest: Id, r: Receipt, request: Request)
    requires ReceiptFits(attempts, guest, r) && r.token == TokenOf(request)
    ensures match request
      case StartRequest(_, _, _) => r.outcome == Started
      case CommandRequest(_, _, _, _, _, command) => OutcomeFits(KindOf(command), r.outcome)
  {
  }

  lemma OutcomesConform(world: World, db: Db, request: Request, clock: Clock, freshId: Id)
    requires Inv(world, db) && Serve(world, db, request, clock, freshId).1.Ok?
    ensures var result := Serve(world, db, request, clock, freshId).1;
      match request
      case StartRequest(_, _, _) => result.outcome == Started
      case CommandRequest(_, _, _, _, _, command) =>
        && OutcomeFits(KindOf(command), result.outcome)
        && (!result.replayed ==> Leads(result.outcome, result.view.at.state))
  {
    var result := Serve(world, db, request, clock, freshId).1;
    ServeAnswers(world, db, request, clock, freshId);
    if !Fresh(result) {
      ReplayedFits(db.attempts, request.guest, db.receipts[(request.guest, request.key)], request);
    } else if request.StartRequest? {
      StartReceipts(world, db, request.guest, request.session, request.key, clock, freshId);
    } else {
      FreshIsReached(world, db, request.guest, request.session, request.key, TokenOf(request), clock);
      FreshStateFits(world, db, request.guest, request.session, request.key, TokenOf(request), clock);
    }
  }

  lemma FreshIsReached(world: World, db: Db, guest: Id, session: Id, key: string, token: Fingerprint, clock: Clock)
    requires token.CommandToken?
    requires Fresh(Execute(world, db, guest, session, key, token.attempt, token.expectedVersion, token.command, clock).1)
    ensures Reaches(world, db, guest, session, key, token, clock)
  {
    if !Reaches(world, db, guest, session, key, token, clock) {
      NoFreshReceipt(world, db, guest, session, key, token, clock);
    }
  }

  /** Output validation never rejects an answer: every projection and every outcome, fresh or replayed,
      satisfies the refinements of the contract. */
  lemma ResultsConform(world: World, db: Db, request: Request, clock: Clock, freshId: Id)
    requires Inv(world, db) && Serve(world, db, request, clock, freshId).1.Ok?
    ensures ResultConforms(request, Serve(world, db, request, clock, freshId).1)
  {
    var (after, result) := Serve(world, db, request, clock, freshId);
    ServeKeepsInv(world, db, request, clock, freshId);
    AnswerShowsTables(world, db, request, clock, freshId);
    ProjectionConforms(world, after, result.view.attempt);
    OutcomesConform(world, db, request, clock, freshId);
  }
}
