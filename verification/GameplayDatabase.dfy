/** The gameplay repository as it runs: statements that change the tables one after the other, inside
    transactions that roll back on an error. Every method is proved to do what GameplayLedger says. */
module GameplayDatabase {
  import opened Basics
  import opened AttemptEngine
  import opened GameplayLedger
  import opened GameplayTheorems

  lemma NoRegionsNoChange(
    contributions: map<(Id, string), Contribution>, knowledge: map<(Id, string), Knowledge>, id: Id, guest: Id,
    performance: int)
    ensures InsertContributions(contributions, id, guest, {}, performance) == contributions
    ensures UpsertKnowledge(knowledge, guest, {}, performance) == knowledge
  {
  }

  lemma InsertOne(
    contributions: map<(Id, string), Contribution>, id: Id, guest: Id, regions: set<string>, region: string, performance: int)
    ensures InsertContributions(contributions, id, guest, regions + {region}, performance)
         == InsertContributions(contributions, id, guest, regions, performance)[
              (id, region) := Contribution(guest, performance, 100 - performance)]
  {
  }

  lemma UpsertOne(
    knowledge: map<(Id, string), Knowledge>, guest: Id, regions: set<string>, region: string, performance: int)
    requires region !in regions
    ensures var before := UpsertKnowledge(knowledge, guest, regions, performance);
      UpsertKnowledge(knowledge, guest, regions + {region}, performance)
      == before[(guest, region) := Gain(KnowledgeOf(before, guest, region), performance)]
  {
  }

  /** Every region has its contribution, and what was there before stays. */
  ghost predicate ContributionsAdded(
    a: map<(Id, string), Contribution>, b: map<(Id, string), Contribution>, id: Id, regions: set<string>)
  {
    (forall r <- regions :: (id, r) in b) && (forall k <- a :: k in b && b[k] == a[k])
  }

  /** Knowledge rose once by each contribution that is new, and is otherwise as before. */
  ghost predicate KnowledgeRaised(
    a: map<(Id, string), Knowledge>, b: map<(Id, string), Knowledge>, guest: Id, id: Id, regions: set<string>,
    before: map<(Id, string), Contribution>, after: map<(Id, string), Contribution>)
  {
    forall g: Id, r: string ::
      KnowledgeOf(b, g, r) ==
      if g == guest && r in regions && (id, r) !in before && (id, r) in after
      then Knowledge(KnowledgeOf(a, g, r).alpha + after[(id, r)].alpha, KnowledgeOf(a, g, r).beta + after[(id, r)].beta,
                     KnowledgeOf(a, g, r).samples + 1)
      else KnowledgeOf(a, g, r)
  }

  lemma InsertedIsAdded(
    contributions: map<(Id, string), Contribution>, knowledge: map<(Id, string), Knowledge>, id: Id, guest: Id,
    regions: set<string>, performance: int)
    ensures
      var inserted := set r | r in regions && (id, r) !in contributions;
      var after := InsertContributions(contributions, id, guest, inserted, performance);
      && ContributionsAdded(contributions, after, id, regions)
      && KnowledgeRaised(knowledge, UpsertKnowledge(knowledge, guest, inserted, performance), guest, id, regions,
                         contributions, after)
  {
  }

  class Tables {
    const world: World
    var attempts: map<Id, Attempt>
    var slots: map<(Id, int), Id>
    var receipts: map<(Id, string), Receipt>
    var guesses: map<(Id, int), GuessRow>
    var days: map<(Id, int), Time>
    var finals: map<Id, Final>
    var contributions: map<(Id, string), Contribution>
    var knowledge: map<(Id, string), Knowledge>
    var board: map<Id, BoardRow>

    constructor (world: World)
      ensures this.world == world && Contents() == EMPTY
    {
      this.world := world;
      attempts, slots, receipts, guesses, days := map[], map[], map[], map[], map[];
      finals, contributions, knowledge, board := map[], map[], map[], map[];
    }

    function Contents(): Db
      reads this
    {
      Db(attempts, slots, receipts, guesses, days, finals, contributions, knowledge, board)
    }

    /** ROLLBACK to the state that BEGIN saw. */
    method Rollback(before: Db)
      modifies this
      ensures Contents() == before
    {
      attempts, slots, receipts, guesses, days :=
        before.attempts, before.slots, before.receipts, before.guesses, before.days;
      finals, contributions, knowledge, board := before.finals, before.contributions, before.knowledge, before.board;
    }

    /** The upsert, region by region in no particular order: a region of the revision without a contribution of
        this attempt gets one, and the guest's knowledge of it rises once by exactly that contribution; all other
        rows of both tables stay as they are. */
    method ContributeRegions(id: Id, row: Attempt, performance: int)
      requires row.revision in world.revisions
      modifies this`contributions, this`knowledge
      ensures ContributionsAdded(old(contributions), contributions, id, world.revisions[row.revision].regions)
      ensures KnowledgeRaised(old(knowledge), knowledge, row.guest, id, world.revisions[row.revision].regions,
                              old(contributions), contributions)
      ensures var inserted := NewRegions(world, old(contributions), id, row);
        && contributions == InsertContributions(old(contributions), id, row.guest, inserted, performance)
        && knowledge == UpsertKnowledge(old(knowledge), row.guest, inserted, performance)
    {
      var rest := world.revisions[row.revision].regions;
      ghost var done: set<string> := {};
      NoRegionsNoChange(contributions, knowledge, id, row.guest, performance);
      while rest != {}
        invariant rest <= world.revisions[row.revision].regions && done !! rest
        invariant forall r :: r in world.revisions[row.revision].regions - rest ==> r in done || (id, r) in old(contributions)
        invariant forall r <- done :: r in world.revisions[row.revision].regions && (id, r) !in old(contributions)
        invariant contributions == InsertContributions(old(contributions), id, row.guest, done, performance)
        invariant knowledge == UpsertKnowledge(old(knowledge), row.guest, done, performance)
        decreases rest
      {
        var region :| region in rest;
        rest := rest - {region};
        if (id, region) !in contributions {
          InsertOne(old(contributions), id, row.guest, done, region, performance);
          UpsertOne(old(knowledge), row.guest, done, region, performance);
          contributions := contributions[(id, region) := Contribution(row.guest, performance, 100 - performance)];
          knowledge := knowledge[
            (row.guest, region) := Gain(KnowledgeOf(knowledge, row.guest, region), performance)];
          done := done + {region};
        }
      }
      assert done == NewRegions(world, old(contributions), id, row);
      InsertedIsAdded(old(contributions), old(knowledge), id, row.guest, world.revisions[row.revision].regions, performance);
    }

    /** The end of a game: the attempt row, then the finalization whose insert decides whether the rest
        happens at all, then contributions with knowledge, then the leaderboard row of a solved game. */
    method Finalize(id: Id, terminal: Snapshot, at: Time)
      requires id in attempts && attempts[id].revision in world.revisions
      modifies this`attempts, this`finals, this`contributions, this`knowledge, this`board
      ensures Contents() == GameplayLedger.Finalize(world, old(Contents()), id, terminal, at)
    {
      var row := attempts[id];
      var score := FinalScore(row, terminal, at);
      attempts := attempts[id := MovedRow(row, terminal, at)];
      if id in finals {
        NoRegionsNoChange(contributions, knowledge, id, row.guest, Performance(terminal));
        return;
      }
      finals := finals[id := Final(row.guest, row.slot, terminal.state, score, at)];
      ContributeRegions(id, row, Performance(terminal));
      if terminal.state == Solved && id !in board {
        board := board[id := BoardRow(row.guest, row.slot, terminal.e, terminal.W, Elapsed(row, at), score)];
      }
    }

    method ExpireIfClosed(id: Id, now: Time)
      requires id in attempts && attempts[id].revision in world.revisions
      modifies this`attempts, this`finals, this`contributions, this`knowledge, this`board
      ensures Contents() == GameplayLedger.ExpireIfClosed(world, old(Contents()), id, now)
    {
      var row := attempts[id];
      if row.at.state != Active || !Closed(world, row, now) {
        return;
      }
      var transition := Expire(row.at);
      if !transition.Accepted? || transition.attempt.state == Active {
        return;
      }
      Finalize(id, transition.attempt, world.revisions[row.revision].ClosesAt());
    }

    method InsertGuess(guest: Id, id: Id, row: Attempt, next: Snapshot, entity: Id, at: Time)
      modifies this`guesses, this`days
      ensures guesses == WithGuess(old(guesses), id, row.at.W + 1, GuessOf(Some(entity), row, next, at))
      ensures days == WithDay(old(days), guest, at, true)
    {
      guesses := guesses[(id, row.at.W + 1) := GuessRow(entity, next.state == Solved, row.at.e, at)];
      if (guest, at / DAY) !in days {
        days := days[(guest, at / DAY) := at];
      }
    }

    /** The accepted command's writes, in the order of the statements. */
    method CommitCommand(
      guest: Id, session: Id, key: string, token: Fingerprint, next: Snapshot, code: Code, entity: Option<Id>, at: Time)
      requires token.CommandToken? && Owned(world, Contents(), token.attempt, guest)
      modifies this`attempts, this`finals, this`contributions, this`knowledge, this`board,
               this`guesses, this`days, this`receipts
      ensures Contents() == Commit(world, old(Contents()), guest, session, key, token, next, code, entity, at)
    {
      var id := token.attempt;
      var row := attempts[id];
      if entity.Some? {
        InsertGuess(guest, id, row, next, entity.value, at);
      }
      if next.state != Active {
        Finalize(id, next, at);
      } else {
        attempts := attempts[id := MovedRow(row, next, at)];
      }
      receipts := receipts[
        (guest, key) := Receipt(session, token, KindOf(token.command), Played(code), id, row.version + 1)];
    }

    method ExecuteGameplayCommand(
      guest: Id, session: Id, key: string, attempt: Id, expectedVersion: int, command: Command, clock: Clock)
      returns (result: Result)
      modifies this
      ensures
        (Contents(), result) == Execute(world, old(Contents()), guest, session, key, attempt, expectedVersion, command, clock)
    {
      var before := Contents();
      if !ValidKey(key) || !(0 <= expectedVersion <= MAX_SAFE_INTEGER) {
        return Refused(InvalidCommand, None);
      }
      if guest !in world.guests || !world.SessionIsLive(guest, session, clock.session) {
        return Refused(SessionExpired, None);
      }
      if command == Malformed {
        return Refused(InvalidCommand, None);
      }
      var token := CommandToken(attempt, expectedVersion, command);
      if (guest, key) in receipts {
        var prior := receipts[(guest, key)];
        if prior.token != token || prior.attempt != attempt {
          return Refused(IdempotencyConflict, None);
        }
        if !Owned(world, Contents(), attempt, guest) {
          return Refused(UnknownAttempt, None);
        }
        if prior.kind != KindOf(command) || !OutcomeFits(prior.kind, prior.outcome) {
          return Failed;
        }
        ExpireIfClosed(attempt, clock.sampled);
        return Ok(prior.outcome, true, Project(world, Contents(), attempt));
      }
      if !Owned(world, Contents(), attempt, guest) {
        return Refused(UnknownAttempt, None);
      }
      ExpireIfClosed(attempt, clock.sampled);
      var decision := Decide(world, Contents(), guest, session, token, clock);
      match decision {
        case Refuse(code, shown) =>
          return Refused(code, shown);
        case Throw =>
          Rollback(before);
          return Failed;
        case Write(next, code, entity) =>
          CommitCommand(guest, session, key, token, next, code, entity, clock.sampled);
          return Ok(Played(code), false, Project(world, Contents(), attempt));
      }
    }

    /** INSERT ... ON CONFLICT DO NOTHING on the unique index, then the row that is there. */
    method InsertAttempt(freshId: Id, row: Attempt) returns (id: Id)
      modifies this`attempts, this`slots
      ensures (Contents(), id) == GameplayLedger.InsertAttempt(old(Contents()), freshId, row)
    {
      if (row.guest, row.slot) in slots {
        return slots[(row.guest, row.slot)];
      }
      attempts := attempts[freshId := row];
      slots := slots[(row.guest, row.slot) := freshId];
      return freshId;
    }

    method NoteReceipt(guest: Id, key: string, receipt: Receipt)
      modifies this`receipts
      ensures Contents() == old(Contents()).(receipts := old(receipts)[(guest, key) := receipt])
    {
      receipts := receipts[(guest, key) := receipt];
    }

    method OpenAttempt(guest: Id, session: Id, key: string, revision: Id, clock: Clock, freshId: Id)
      returns (result: Result)
      modifies this
      ensures (Contents(), result) == Open(world, old(Contents()), guest, session, key, revision, clock, freshId)
    {
      var before := Contents();
      if revision !in world.revisions || freshId in attempts {
        return Failed;
      }
      var slot := world.revisions[revision].slot;
      var row := Attempt(guest, revision, slot, START, 0, clock.sampled, None);
      var id := InsertAttempt(freshId, row);
      if !Owned(world, Contents(), id, guest) || !world.SessionIsLive(guest, session, clock.receipt) {
        Rollback(before);
        return Failed;
      }
      NoteReceipt(guest, key, Receipt(session, StartToken, StartKind, Started, id, attempts[id].version));
      return Ok(Started, false, Project(world, Contents(), id));
    }

    method StartCurrentAttempt(guest: Id, session: Id, key: string, clock: Clock, freshId: Id) returns (result: Result)
      modifies this
      ensures (Contents(), result) == Start(world, old(Contents()), guest, session, key, clock, freshId)
    {
      var before := Contents();
      if !ValidKey(key) {
        return Refused(InvalidCommand, None);
      }
      if guest !in world.guests || !world.SessionIsLive(guest, session, clock.session) {
        return Refused(SessionExpired, None);
      }
      if (guest, key) in receipts {
        var prior := receipts[(guest, key)];
        if prior.token != StartToken || prior.kind != StartKind {
          return Refused(IdempotencyConflict, None);
        }
        if !OutcomeFits(StartKind, prior.outcome) {
          return Failed;
        }
        if !Owned(world, Contents(), prior.attempt, guest) {
          return Refused(IdempotencyConflict, None);
        }
        ExpireIfClosed(prior.attempt, clock.sampled);
        return Ok(prior.outcome, true, Project(world, Contents(), prior.attempt));
      }
      var current := world.CurrentRevision(clock.sampled);
      if current.None? {
        return Refused(NoCurrentCase, None);
      }
      result := OpenAttempt(guest, session, key, current.value, clock, freshId);
    }

    method ReadOwnedAttempt(guest: Id, id: Id, now: Time) returns (view: Option<View>)
      modifies this
      ensures (Contents(), view) == ReadOwned(world, old(Contents()), guest, id, now)
    {
      if guest !in world.guests || !Owned(world, Contents(), id, guest) {
        return None;
      }
      ExpireIfClosed(id, now);
      return Some(Project(world, Contents(), id));
    }

    /** None is the error for an attempt that disappeared under its index. */
    method ReadCurrentCase(guest: Id, first: Time, now: Time) returns (shown: Option<CaseView>)
      modifies this
      ensures (Contents(), shown) == ReadCurrent(world, old(Contents()), guest, first, now)
    {
      var current := world.CurrentRevision(first);
      if current.None? || current.value !in world.revisions {
        return Some(NoCase);
      }
      var revision := world.revisions[current.value];
      if (guest, revision.slot) !in slots || guest !in world.guests {
        return Some(NotStarted(revision.slot, revision.ClosesAt()));
      }
      var view := ReadOwnedAttempt(guest, slots[(guest, revision.slot)], now);
      return if view.Some? then Some(Shown(view.value)) else None;
    }

    /** The expiry loop of the profile read, over the active attempts that its query listed. */
    method ReconcileProfile(guest: Id, active: seq<Id>, now: Time)
      modifies this
      ensures Contents() == ExpireAll(world, old(Contents()), guest, active, now)
    {
      for i := 0 to |active|
        invariant Contents() == ExpireAll(world, old(Contents()), guest, active[..i], now)
      {
        assert active[..i + 1][..i] == active[..i];
        if Owned(world, Contents(), active[i], guest) {
          ExpireIfClosed(active[i], now);
        }
      }
      assert active[..|active|] == active;
    }
  }
}
