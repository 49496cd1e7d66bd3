# Loremaster: verified models

Dafny models of the parts of Loremaster where several functions, several machines or several moments in time
have to agree, with proofs that they do. Check everything with `dafny verify dfyconfig.toml`.

What is modelled, by file:

- **Gameplay protocol.** `AttemptEngine` is the state machine of one game. `GameplayLedger` says what every
  transaction on the gameplay tables computes; `GameplayDatabase` runs the same statements one after the other
  on a class and is proved equal to it. `GameplayInvariant`, `GameplayHistory`, `GameplayTheorems`,
  `GameplayResponses`, `GameplayPlay` and `GameplayChecks` prove what holds after every sequence of transactions:
  event sourcing, the exactly-once ledger, at-most-once commands, refusals that last, the response contract, that
  participation days and histories are the guesses, and that no stored row breaks a constraint of its table.
  `GameplayReference` is a second account of the transactions, in the columns of the tables and with the numbers of
  the rules written out, that shares no function with the ledger; `GameplayAnswers` proves that every request and
  every read is answered by it, and `GameplayFacts` what it makes of guesses, answers, times, points and shares in
  every reachable state.
- **Client and network.** `ClientProtocol` cuts the browser's controller at its awaits; `GameControllerClass` is
  the same as a class. `ClientSystem` composes it with a network that loses, delays, repeats and reorders, with
  page reloads, changing cookies, reads and other clients. `ClientTheorems` and `ClientGuarantees` prove the
  end-to-end promises, `ClientForgetting` when a record may be dropped, `ClientLimits` where the promises end.
  `ClientReference` is a second account of the page, column by column, proved equal to the transitions.
  `Promises` states the main results for every state that a run can reach.
- **JSON scanner.** `JsonGrammar` is the grammar of RFC 8259 as trees that keep every unit of their text;
  `JsonScan` is the recogniser as functions, `JsonScannerClass` the class with its moving offset, `JsonTheorems`
  the proof that exactly the texts without repeated keys are accepted, `JsonNumbers` that numbers are matched
  greedily, `JsonLexemes` the units of RFC 8259 by number.
- **Leaderboard.** `Leaderboard` has competition ranks and keyset pages over tables that grow, `PageAccumulator`
  the browser's list with its generations and aborts, `CursorCodec` the signed cursors, and `BoardReading` joins
  table, pages, cursors and list.
- **Aggregates.** `Aggregates`: streaks, profile figures, regional knowledge and both rounding formulas;
  `ProfileReading`: the profile on the gameplay tables.
- **Limiters and admission.** `SharedLimiter` and `LocalLimiter`; `ProducerAdmission` for warm jobs.
- **Suggestions.** `SuggestionIndex` (canonical form and filter) and `SuggestionCache` (transparency).
- **Runtime.** `ConnectionDiscipline` is the transaction runtime over its callbacks; `LatestRead` the browser's
  latest-read object.
- `Basics`, `Division` and `Sorting` hold what several of them use.

Assumptions, each stated where it is used: fingerprints are injective on their tuples (they are modelled as the
tuples); random UUIDs are new; a Redis key is dead once its expiry has come and Redis time does not run backwards,
while database clocks may read anything; published content never changes and its windows are whole,
non-overlapping UTC days; receipts are kept and sessions keep their expiry; whether a request can be made of a
record, and whether its size and media type are taken, depends on the record alone. A transaction is one atomic step
because it locks its guest's row first and commits or rolls back as a whole; what the runtime does for that is
proved separately in `ConnectionDiscipline`. Identifiers are numbers in the order of their canonical text, and a UTC
day is its number.

Results that go against what one might expect:

- The step into EXHAUSTED stores 15 wrong guesses whatever was counted. The rules document
  (docs/architecture/game-rules.md:28) says "Increment W"; the code is followed. `TotalIsWrongGuessCount` gives
  the exact condition under which the stored total is the number of wrong guesses.
- Dropping a pending record is safe exactly when the command is over or none of its requests can arrive in time
  any more (`DroppingIsSafeExactly`). The page does not always know: of the actions that drop a record, success, a
  verdict of the repository, a proven outcome and a fault of the record itself are always safe, while session loss,
  a new session, an unreadable token and the other errors that the retry policy does not name are not
  (`AlwaysSafeIffTold`, from a state that `LosingACommandIsPossible` reaches).
- A start that is replayed after the cookie has changed takes effect for two guests under one key
  (`OneStartKeyForTwoGuests`); otherwise a key has one guest (`KeyHasOneGuest`).
- A database clock that stands before the start of an attempt makes its commands fail on a check constraint
  (`SteppedBackClockFails`); besides a session that ends meanwhile this is the only way a command throws
  (`CommandFailsOnlyByTheClock`).
- A stale refusal is final only when the command is behind (`StaleIsFinalIffBehind`); the page never sends one
  that is ahead.
- A start carries no slot, so a delayed one may open the next slot (`DelayedStartOpensCurrentSlot`).
- A connection is released twice when the signal is aborted after the pool has handed it over and before the
  runtime has reacted (`EarlyAbortReleasesTwice`); otherwise exactly once (`ReleasedExactlyOnce`).

## Model

| member | source | states |
|---|---|---|
| `AttemptEngine.ProgressRises` | packages/domain/src/attempt-engine.ts:117-178 | every accepted step from ACTIVE to ACTIVE strictly raises 3e + w, which stays at most 14 |
| `AttemptEngine.RunBound` | packages/domain/src/attempt-engine.ts:117-190 | no sequence of accepted commands is longer than 15, and none goes on after a terminal state |
| `AttemptEngine.JournalCounts` | packages/domain/src/attempt-engine.ts:117-161 | outside EXHAUSTED the stored total W is the number of wrong guesses; while ACTIVE every guess so far was wrong |
| `AttemptEngine.RevealForfeits` | packages/domain/src/attempt-engine.ts:163-178 | after a manual reveal the wrong guesses made stay strictly below what the counters suggest: below 3e + w, and below 15 when EXHAUSTED |
| `AttemptEngine.TotalIsWrongGuessCount` | packages/domain/src/attempt-engine.ts:140-150 | W equals the number of wrong guesses if and only if the game is not EXHAUSTED or nothing was revealed by hand |
| `AttemptEngine.ExhaustedAfterThreeGuesses` | packages/domain/src/attempt-engine.ts:140-150 | the concrete game that shows it: four reveals and three wrong guesses end EXHAUSTED with 15 on record |
| `AttemptEngine.SnapshotCheckIsExact` | packages/domain/src/attempt-engine.ts:207-252 | assertValidAttemptSnapshot accepts a snapshot if and only if some sequence of accepted commands, possibly followed by expiry, reaches it |
| `AttemptEngine.ScoreIsMonotone` | packages/domain/src/attempt-engine.ts:90-115 | more evidence, more wrong guesses or more time never raise the score of a reachable solved game |
| `GameplayReference.SpeedIsWorth150` | packages/domain/src/attempt-engine.ts:90-115 | two solved games with the same counters, one within half a minute and one in more than five, differ by 150 points unless the floor at 0 cuts in |
| `GameplayDatabase.Tables.Finalize` | packages/database/src/gameplay/reconciliation.ts:11-95 | the statements that end a game leave exactly the tables that the ledger function describes; all effects hang on the finalization insert |
| `GameplayDatabase.Tables.ContributeRegions` | packages/database/src/gameplay/reconciliation.ts:48-72 | every region of the revision has a contribution afterwards; the guest's knowledge rises once by each contribution that is new; every other row of both tables stays |
| `GameplayDatabase.Tables.ExpireIfClosed` | packages/database/src/gameplay/reconciliation.ts:97-107 | lazy expiry ends a running game at its closing time and touches nothing otherwise |
| `GameplayDatabase.Tables.InsertGuess` | packages/database/src/gameplay/attempts.ts:412-432 | guess row with the next number, and the UTC day counted once |
| `GameplayDatabase.Tables.CommitCommand` | packages/database/src/gameplay/attempts.ts:410-469 | the writes of an accepted command, in order, give the tables of the ledger function |
| `GameplayDatabase.Tables.ExecuteGameplayCommand` | packages/database/src/gameplay/attempts.ts:294-478 | the whole command transaction: every branch, error and result of the ledger function, also the failing constraints; an error rolls back to the tables before |
| `GameplayDatabase.Tables.InsertAttempt` | packages/database/src/gameplay/attempts.ts:246-265 | INSERT ... ON CONFLICT DO NOTHING on the unique index of guest and slot, then the row that is there |
| `GameplayDatabase.Tables.OpenAttempt` | packages/database/src/gameplay/attempts.ts:243-289 | a new start key: the attempt of the slot, created unless it is there, and its receipt, or nothing at all |
| `GameplayDatabase.Tables.StartCurrentAttempt` | packages/database/src/gameplay/attempts.ts:194-292 | the whole start transaction |
| `GameplayDatabase.Tables.ReadOwnedAttempt` | packages/database/src/gameplay/attempts.ts:171-192 | an owned read expires what is due and projects the row |
| `GameplayDatabase.Tables.ReadCurrentCase` | packages/database/src/gameplay/attempts.ts:132-169 | the current case as no case, not started, or the attempt after lazy expiry; nothing when the attempt has disappeared |
| `GameplayChecks.CaseReadSucceeds` | packages/database/src/gameplay/attempts.ts:156-158 | which cannot happen in any reachable state |
| `GameplayChecks.EveryTablePasses` | packages/database/migrations/0001_s4_3_domain_schema.up.sql:208-377 | in every reachable state all stored attempts, receipts, guesses, finalizations, contributions, knowledge and leaderboard rows satisfy the check constraints of their tables and the references among attempts, revisions, sessions, receipts, guesses, finalizations, contributions and leaderboard rows |
| `GameplayDatabase.Tables.ReconcileProfile` | packages/database/src/gameplay/profile.ts:22-32 | the expiry loop over the listed active attempts |
| `GameplayInvariant.FinalizeKeepsLedger` | packages/database/src/gameplay/reconciliation.ts:11-95 | ending a game keeps finalizations, leaderboard rows and contributions exactly what the attempts are due |
| `GameplayInvariant.FinalizeKeepsKnowledge` | packages/database/src/gameplay/reconciliation.ts:48-72 | and keeps the stored knowledge equal to the tally over all finished cases, in whatever order they are listed |
| `GameplayInvariant.CommitKeepsJournals` | packages/database/src/gameplay/attempts.ts:410-469 | an accepted command extends exactly one journal: receipts carry versions 1..n, the snapshot is their replay, guess rows are numbered without a gap |
| `GameplayInvariant.NextGuessIsFree` | packages/database/src/gameplay/attempts.ts:412-426 | the number that the next guess will use is free and at most 15 |
| `GameplayHistory.ExecuteCases` | packages/database/src/gameplay/attempts.ts:300-478 | a command is refused before the lock, replayed from its receipt, or decided under the lock after lazy expiry; the three cases are exhaustive and their effects exact |
| `GameplayHistory.ExecuteKeepsInv` | packages/database/src/gameplay/attempts.ts:294-478 | a command transaction keeps the invariant, only moves attempts forward, and never changes a receipt |
| `GameplayHistory.StartKeepsInv` | packages/database/src/gameplay/attempts.ts:194-292 | so does a start |
| `GameplayAnswers.EveryCommandIsAnswered` | packages/database/src/gameplay/attempts.ts:294-478 | every command is answered as the rules say in columns alone: which answer comes when, what the view tells, and what every table holds afterwards, with tiers, bonuses and shares as numbers |
| `GameplayAnswers.EveryStartIsAnswered` | packages/database/src/gameplay/attempts.ts:194-292 | so is every start: the attempt of the slot, at the beginning and from now on unless it is there, and the receipt |
| `GameplayAnswers.EveryOwnedReadIsAnswered` | packages/database/src/gameplay/attempts.ts:171-192 | an owned read returns the attempt as the tables hold it after the read, and never a running one whose window has closed |
| `GameplayAnswers.EveryCaseReadIsAnswered` | packages/database/src/gameplay/attempts.ts:132-169 | the current case: none if and only if no slot is published, shown if and only if the guest has an attempt in the slot, otherwise not started with slot and closing time |
| `GameplayFacts.EveryAnswerIsGuessed` | packages/database/src/gameplay/attempts.ts:384-432 | in every reachable state a guess is marked correct if and only if it names the answer of the revision of its attempt, and an attempt is SOLVED if and only if one of its guesses names it |
| `GameplayFacts.EveryEndIsKept` | packages/database/src/gameplay/reconciliation.ts:11-95 | in every reachable state finalization, leaderboard row and contributions of an attempt carry, column by column, its end: the time from start to end, the score by tier, wrong guesses and time, and the shares; the clock ends a game at the closing time and a command before it |
| `GameplayTheorems.EveryRunKeepsInv` | packages/database/src/gameplay/attempts.ts:132-478 | the invariant holds after every sequence of starts, commands and reads of any guests with any clock readings |
| `GameplayTheorems.ServeAnswers` | packages/database/src/gameplay/attempts.ts:210-288 | a request writes a receipt exactly when it is answered afresh, then under a key that was free; a replayed answer repeats the stored one |
| `GameplayTheorems.ReceiptAnswers` | packages/database/src/gameplay/attempts.ts:318-353 | as long as the session lives, a request with a receipt is answered from it: same outcome, same attempt, nothing written but due expiry |
| `GameplayTheorems.AnsweredOnce` | packages/database/src/gameplay/attempts.ts:194-478 | at most once: after any further transactions the same request is answered with the first outcome and commits nothing |
| `GameplayTheorems.ConclusiveRefusalIsFinal` | packages/database/src/gameplay/attempts.ts:360-409 | after a terminal, stale (not ahead), evidence-limit, unknown-entity or conflict refusal no later delivery of that request commits, in any continuation |
| `GameplayTheorems.SeenBeyondIsFinal` | apps/web/src/state/controller.ts:107-120 | once the attempt was seen beyond the expected version no later delivery commits |
| `GameplayTheorems.CommandFailsOnlyByTheClock` | packages/database/src/gameplay/attempts.ts:375-469 | a command throws if and only if it would have committed under a steady clock, and its session ended before the receipt insert or the database clock stood before the start of the attempt; engine errors and taken guess numbers cannot occur |
| `GameplayTheorems.ReplayNeverFails` | packages/database/src/gameplay/attempts.ts:94-108 | the "invalid outcome code" error is unreachable |
| `GameplayTheorems.StartFailsOnlyWithItsSession` | packages/database/src/gameplay/attempts.ts:215-289 | a start with a new id throws if and only if it would have been answered afresh and its session ended before the receipt insert |
| `GameplayTheorems.LaterEvolves` | packages/database/src/gameplay/attempts.ts:132-478 | over any later transactions versions only grow, finished attempts stay as they are and receipts are kept |
| `GameplayPlay.EveryDayWasPlayed` | packages/database/src/gameplay/attempts.ts:427-432 | in every reachable state a guest's participation days are exactly the UTC days of the guest's accepted guesses; reveals, starts, giving up and expiry never count |
| `GameplayPlay.EveryHistoryIsTheGuesses` | packages/database/src/gameplay/attempt-records.ts:158-197 | in every reachable state the history of an attempt shows guesses 1..k in order, one for each guess in its journal |
| `Promises.CommandsHappenOnce` | packages/database/src/gameplay/attempts.ts:194-478 | after any run: an answered request that comes again after any further transactions gets the same outcome for the same attempt and commits nothing |
| `Promises.RefusalsLast` | packages/database/src/gameplay/attempts.ts:360-409 | after any run: a conclusive refusal is never followed by a commit of that request |
| `Promises.ErrorsComeFromTheClock` | packages/database/src/gameplay/attempts.ts:375-469 | after any run: a command throws for these two reasons only, and then always |
| `Promises.StartErrorsComeFromTheSession` | packages/database/src/gameplay/attempts.ts:215-289 | after any run: a start with a new id throws for this reason only, and then always |
| `Promises.EveryRequestIsAnswered` | packages/database/src/gameplay/attempts.ts:194-478 | after any run: every request is answered by the rules, in columns |
| `Promises.OnlyTheAnswerSolves` | packages/database/src/gameplay/attempts.ts:384-432 | after any run: a fresh answer to a guess is CORRECT, and the game SOLVED, if and only if the text names the answer; the new guess row, which was free, holds what was named |
| `Promises.SpeedCounts` | packages/database/src/gameplay/reconciliation.ts:73-92 | after any run: of two leaderboard rows with equal evidence and wrong guesses the one solved within 30 seconds has 150 points more than one that took over five minutes, unless the floor cuts in |
| `Promises.EveryReadIsAnswered` | packages/database/src/gameplay/attempts.ts:132-192 | after any run: both reads show what the tables hold after them |
| `Promises.CaseIsShownIffStarted` | packages/database/src/gameplay/attempts.ts:132-169 | after any run: the case is shown if and only if the guest has an attempt in the published slot, and there is none if and only if no slot is published |
| `Promises.AnswersConform` | packages/contracts/src/schemas.ts:158-305 | after any run: every successful answer satisfies the response contract of its operation |
| `Promises.BoardsGrow` | packages/database/src/gameplay/reconciliation.ts:73-92 | between any two moments of a run the board of a slot only gains rows |
| `GameplayResponses.EveryAttemptIsItsJournal` | packages/database/src/gameplay/attempts.ts:94-108 | event sourcing: in every reachable state the snapshot is the replay of the receipts in the order of their versions 1..n, n at most 15, the version is n, or n + 1 when EXPIRED, and guess rows are 1..k |
| `GameplayResponses.EveryLedgerIsExact` | packages/database/src/gameplay/reconciliation.ts:11-107 | in every reachable state an attempt has a finalization if and only if it is not ACTIVE and a leaderboard row if and only if it is SOLVED; one attempt per guest and slot |
| `GameplayResponses.EveryKnowledgeIsTally` | packages/database/src/gameplay/reconciliation.ts:48-72 | stored regional knowledge is the tally of the finished cases, and alpha + beta = 400 + 100 samples, in hundredths |
| `GameplayResponses.ProfileSettlesAll` | packages/database/src/gameplay/profile.ts:22-32 | after the loop no listed attempt of the guest is past its closing time and still active |
| `GameplayResponses.ProjectionConforms` | packages/contracts/src/schemas.ts:158-220 | every projection of a stored attempt satisfies the refinements of the attempt schemas |
| `GameplayResponses.ResultsConform` | packages/contracts/src/schemas.ts:258-305 | every successful answer satisfies the response schema of its operation: a start is STARTED, a command, replayed or not, has an outcome of its kind, and a fresh outcome comes with the state it leads to |
| `Aggregates.HalfUpIsNearest` | packages/domain/src/aggregates.ts:198-211 | the integer formula gives the nearest integer, halves upward, and only that one |
| `Aggregates.PercentageIsNearest` | packages/domain/src/aggregates.ts:99-105 | the percentage is the nearest integer to the part of alpha in the whole, halves upward, and only that one |
| `Aggregates.TallyIsTheShares` | packages/domain/src/aggregates.ts:68-106 | a region comes to 200 hundredths on both sides and 100 more for every case that names it, divided by the share of the case |
| `Aggregates.RoundingsAgree` | packages/database/src/gameplay/profile.ts:72-83 | the profile's floor formula and the domain's integer formula agree on all knowledge, over exact numbers |
| `Aggregates.StreaksCompare` | packages/domain/src/aggregates.ts:135-168 | the current streak never exceeds the longest; both are determined by the set of days alone |
| `Aggregates.CalculateCurrentStreak` | packages/domain/src/aggregates.ts:135-149 | the length of the run of days that ends today or else yesterday |
| `Aggregates.CalculateLongestStreak` | packages/domain/src/aggregates.ts:151-168 | a run of that length exists and no longer one does |
| `Aggregates.TerminalIsAnEnd` | packages/domain/src/aggregates.ts:185-192 | a snapshot counts as finished if and only if some game ends with it |
| `Aggregates.CalculateProfileStatistics` | packages/domain/src/aggregates.ts:39-66 | all figures of the profile from any list of days, in any order and with repetitions; throws exactly on a game that is not over |
| `Aggregates.AddCase` | packages/domain/src/aggregates.ts:87-95 | a case adds one sample to each of its regions, however often it names it |
| `Aggregates.CalculateRegionalKnowledge` | packages/domain/src/aggregates.ts:68-106 | each region asked for or played in comes out once with the tally of its cases and its percentage; throws exactly on an empty region or an unfinished game |
| `Aggregates.KnowledgeIsRecalculated` | packages/database/src/gameplay/reconciliation.ts:48-72 | in every reachable state the knowledge updated row by row is what the calculation makes of all finished cases at once, and the profile shows its percentage |
| `ProfileReading.ReadProfile` | packages/database/src/gameplay/profile.ts:14-88 | ends the guest's active games that are due, then shows the statistics of the finalized games and days and a row for every region; nothing for an unknown guest |
| `ProfileReading.EveryProfileIsTrue` | packages/database/src/gameplay/profile.ts:33-86 | in every reachable state the profile counts the guest's leaderboard rows as solved and the other finalizations as failed, its streaks are about the days of the guest's guesses, and its regions are those of the calculation over all finished cases |
| `ClientTheorems.EveryRunHolds` | apps/web/src/state/controller.ts:290-508 | the invariant of browser, network and server together: what the page holds is one operation, every request is the operation its key was made for, answers and views stay true |
| `ClientTheorems.NoConflict` | packages/database/src/gameplay/attempts.ts:318-329 | a key that always comes with the same operation is never refused as a conflict |
| `ClientTheorems.LastingIsConclusive` | apps/web/src/state/controller.ts:304-319 | a command of this page is never ahead of its attempt, so each lasting refusal of it is conclusive |
| `ClientGuarantees.EverySendIsStored` | apps/web/src/state/controller.ts:401-450 | every request that leaves the page equals the record in storage at that moment |
| `ClientGuarantees.NewKeyOnlyWhenFree` | apps/web/src/state/controller.ts:401-409 | a new key is made only while no record is stored, no call runs and no recovery is under way |
| `ClientReference.EveryColumnIsReference` | apps/web/src/state/controller.ts:216-579 | after every action of the page the record, the running call, the recovery, the mutation status, the session, the status, the case and the attempt are what a table of causes says for each of them, errors and codes written out |
| `ClientReference.DirectivesAre` | apps/web/src/api/retry.ts:54-115 | what the retry policy says to do about each error of a mutation, code by code |
| `ClientReference.EachRefusalIsTold` | packages/database/src/gameplay/attempts.ts:194-478 | every refusal reaches the page under its own code, and none of these leaves the outcome open |
| `ClientGuarantees.EveryRunSendsInBlocks` | apps/web/src/state/controller.ts:321-348 | once a newer key was sent, no request of an older key is ever sent again |
| `ClientGuarantees.AtMostOnce` | apps/web/src/state/controller.ts:401-458 | with loss, delay, duplication, reordering, reloads and other clients, a key of a guest takes effect at most once, and once exactly when its receipt is stored |
| `ClientGuarantees.CommandKeyHasOneGuest` | packages/database/src/gameplay/attempts.ts:353-359 | a command key takes effect for the owner of its attempt only |
| `ClientGuarantees.KeyHasOneGuest` | apps/web/src/state/controller.ts:321-348 | in every run a key of the page takes effect for one guest at most, if it is a command's or its requests went out under one guest |
| `ClientLimits.OneStartKeyForTwoGuests` | apps/web/src/state/controller.ts:321-341 | a start that is replayed after the cookie has changed takes effect for both guests |
| `ClientGuarantees.KnownOutcome` | apps/web/src/state/controller.ts:364-399 | whenever the page drops a command's record after success, a lasting refusal or a proven outcome, the command is over for every guest |
| `ClientGuarantees.ForgettingIsSafe` | apps/web/src/state/controller.ts:460-508 | then no request of that key takes effect in any continuation |
| `ClientGuarantees.InTimeCommitsUnlessSpent` | packages/database/src/gameplay/attempts.ts:353-469 | exactness: a command that is not ahead and arrives in time, under a clock that is not behind the start of its attempt, commits if and only if it is not spent |
| `ClientGuarantees.UnderWayCommitsUnlessOver` | apps/web/src/state/controller.ts:460-508 | exactness: a request under way that may arrive in time takes effect if and only if its operation is not over |
| `Promises.PageSendsWhatItStores` | apps/web/src/state/controller.ts:401-450 | after any run of page, network and server: what is sent next is the stored record, and a new key is made only when nothing is pending |
| `Promises.PageActsAsTold` | apps/web/src/state/controller.ts:216-579 | after any run: whatever the page does is what the reference says, column by column, with the request that goes out and the key that is issued |
| `Promises.PageForgetsSafely` | apps/web/src/state/controller.ts:460-508 | after any run: when a command's record is dropped knowingly, its key takes no effect for any guest in any continuation |
| `Promises.PageForgetsExactly` | apps/web/src/state/controller.ts:460-508 | after any run: dropping a command's record is safe from a moment on if and only if the command is over or none of its requests can arrive in time from then on |
| `Promises.CommandsUnderWayCommit` | packages/database/src/gameplay/attempts.ts:353-469 | after any run: a command under way that arrives in time takes effect if and only if its operation is not over |
| `Promises.PageNeverConflicts` | packages/database/src/gameplay/attempts.ts:318-359 | after any run: no answer to this page is a key conflict, and no view it shows is ahead of the tables |
| `ClientForgetting.DroppingIsSafeExactly` | apps/web/src/state/controller.ts:460-508 | a record is dropped safely, for every guest and every continuation from a moment on, if and only if the command is over, or every session it was sent under has expired or its window has closed |
| `ClientForgetting.AlwaysSafeIffTold` | apps/web/src/state/controller.ts:364-508 | of the actions that may drop a command's record, exactly success, a verdict of the repository, a proven outcome and a fault of the record itself (no request can be made of it, or its size or media type is refused) are safe in every reachable state; session loss, a new session, an unreadable token and the other errors the retry policy does not name are not |
| `ClientForgetting.OnlyTheseDrop` | apps/web/src/state/controller.ts:216-508 | no other action drops a command's record |
| `ClientForgetting.ForgottenCommandCommits` | apps/web/src/state/controller.ts:460-508 | for each of the unsafe actions: a run in which the cookie changes after a lost answer, the replay is refused or cannot be sent, and the forgotten command commits; a response code answers a request that was sent |
| `ClientLimits.SteppedBackClockFails` | packages/database/src/gameplay/attempts.ts:410-452 | the concrete command that fails on the constraint because the clock reads less than the start of its attempt |
| `ClientForgetting.LosingACommandIsPossible` | apps/web/src/state/controller.ts:487-498 | the state in which that happens is reached by a run of page, network and server |
| `ClientLimits.StaleIsFinalIffBehind` | packages/database/src/gameplay/attempts.ts:368-373 | a stale refusal is final if and only if the command is behind the version shown |
| `ClientLimits.DelayedStartOpensCurrentSlot` | packages/database/src/gameplay/attempts.ts:243-263 | a start that arrives late opens the slot that is current by then |
| `ClientLimits.ExpiredSessionIsFinal` | packages/database/src/gameplay/attempts.ts:204-209 | once the database has found a session expired no request under it takes effect, whatever the tables hold, unless its clock steps back |
| `ClientLimits.RecordIsDroppedOnlyFor` | apps/web/src/state/controller.ts:460-508 | the record goes for success, session loss, a refusal that lasts, a proven outcome or a passed slot only; an outcome that is left open keeps it |
| `GameControllerClass.GameController.RunNewMutation` | apps/web/src/state/controller.ts:401-416 | stored, then sent; refused exactly when something is pending |
| `GameControllerClass.GameController.SubmitCommand` | apps/web/src/state/controller.ts:304-319 | only for the displayed active attempt at its displayed version |
| `GameControllerClass.GameController.StartAttempt` | apps/web/src/state/controller.ts:290-302 | only from a case that is not started |
| `GameControllerClass.GameController.BeginMutation` | apps/web/src/state/controller.ts:418-425 | marks the call as in flight |
| `GameControllerClass.GameController.HandleSuccess` | apps/web/src/state/controller.ts:442-451 | removes the record and shows the attempt; a storage error leaves the outcome uncertain |
| `GameControllerClass.GameController.HandleMutationFailure` | apps/web/src/state/controller.ts:460-508 | session loss, exact replay, or dropping the record with the refresh that follows some codes |
| `GameControllerClass.GameController.FinishFailure` | apps/web/src/state/controller.ts:493-508 | after the refresh: STALE, unless the session was lost meanwhile |
| `GameControllerClass.GameController.ReplayPendingOperation` | apps/web/src/state/controller.ts:321-348 | a command is sent again at once, a start only after a fresh look |
| `GameControllerClass.GameController.ReconcilePendingOperation` | apps/web/src/state/controller.ts:350-362 | begins a recovery unless one or a mutation is running |
| `GameControllerClass.GameController.FinishCommandReconciliation` | apps/web/src/state/controller.ts:388-399 | drops the record exactly when the read proves the outcome |
| `GameControllerClass.GameController.FinishStartReconciliation` | apps/web/src/state/controller.ts:367-386 | drops the record when the slot is started or passed; a replay goes on only for the same slot |
| `GameControllerClass.GameController.HandleSessionLoss` | apps/web/src/state/controller.ts:560-579 | session loss, with or without working storage |
| `GameControllerClass.GameController.Initialize` | apps/web/src/state/controller.ts:216-237 | initialize up to its first await |
| `GameControllerClass.GameController.FinishInitialize` | apps/web/src/state/controller.ts:248-256 | only the latest generation becomes ready; a stored record counts as uncertain |
| `GameControllerClass.GameController.ApplyAttempt` | apps/web/src/state/controller.ts:536-545 | the displayed attempt, and the case when it is the same attempt |
| `JsonTheorems.NowhereIffDifferent` | apps/api/src/http/raw-json.ts:45-78 | there is no first repeated key if and only if no object at any depth repeats a decoded key |
| `JsonTheorems.PrintedIsJudged` | apps/api/src/http/raw-json.ts:17-78 | printing any value with any spelling and white space and scanning it accepts it when its keys differ and names the first repetition otherwise |
| `JsonTheorems.EveryTextIsJudged` | apps/api/src/http/raw-json.ts:17-78 | the same for every text of the grammar of RFC 8259 |
| `JsonTheorems.ScannerIsExact` | apps/api/src/http/raw-json.ts:9-133 | the scanner accepts exactly the RFC 8259 texts in which no object repeats a key |
| `JsonScannerClass.JsonScanner.Scan` | apps/api/src/http/raw-json.ts:17-22 | terminates on every source with the verdict of the recogniser |
| `JsonScannerClass.JsonScanner.ReadValue` | apps/api/src/http/raw-json.ts:24-37 | dispatch on the first unit behind white space |
| `JsonScannerClass.JsonScanner.ReadObject` | apps/api/src/http/raw-json.ts:39-68 | the object loop with its set of keys |
| `JsonScannerClass.JsonScanner.ReadMember` | apps/api/src/http/raw-json.ts:48-62 | a key that is new, a colon and a value |
| `JsonScannerClass.JsonScanner.ReadArray` | apps/api/src/http/raw-json.ts:70-88 | the array loop |
| `JsonScannerClass.JsonScanner.ReadString` | apps/api/src/http/raw-json.ts:90-107 | the raw scan for the closing quote followed by decoding |
| `JsonScannerClass.JsonScanner.FindQuote` | apps/api/src/http/raw-json.ts:90-107 | finds the first quote that no escape covers |
| `JsonScannerClass.JsonScanner.ReadNumber` | apps/api/src/http/raw-json.ts:119-125 | moves over the longest number of the grammar that begins here, and fails if and only if none does |
| `JsonNumbers.NumberIsLongest` | apps/api/src/http/raw-json.ts:119-125 | the greedy match of the pattern is the longest prefix that is a number of RFC 8259 |
| `JsonLexemes.TokensAreOfTheRfc` | apps/api/src/http/raw-json.ts:24-131 | white space, structural units, words and digits are the units of sections 2, 3 and 6 of RFC 8259, by number |
| `JsonLexemes.StringsAreOfTheRfc` | apps/api/src/http/raw-json.ts:90-107 | which units stand for themselves, which escapes there are and what each stands for, by section 7 of RFC 8259 |
| `JsonLexemes.PathsNameIdentifiers` | apps/api/src/http/raw-json.ts:50-53 | an error names a key on its path if and only if it is a letter followed by letters and digits |
| `JsonScannerClass.JsonScanner.ReadWord` | apps/api/src/http/raw-json.ts:109-117 | true, false or null |
| `JsonScannerClass.JsonScanner.SkipWhitespace` | apps/api/src/http/raw-json.ts:127-131 | exactly the four white-space units |
| `Leaderboard.RankLeaderboard` | packages/domain/src/leaderboard.ts:33-51 | throws exactly on an unreachable candidate or a repeated attempt; otherwise lists all candidates in pagination order with rank one plus the number of strictly better ones: less evidence, or as much and fewer wrong guesses, or as many and less time stands earlier with a smaller rank, equal results share a rank and the smaller id stands first |
| `Leaderboard.AcceptedIsPlayable` | packages/domain/src/leaderboard.ts:88-125 | a candidate is accepted if and only if some game can end solved with its counters and its time is a safe integer that is not negative |
| `Leaderboard.AheadOfFirst` | packages/domain/src/leaderboard.ts:40-49 | the first row of a performance has exactly the rows before it ahead |
| `Leaderboard.ReadPage` | packages/database/src/gameplay/leaderboard.ts:63-144 | refused exactly for a bad limit or an unknown cursor; otherwise the first rows behind the cursor in the order of the columns, nothing left out that should come before, each with one plus the number of rows of the slot that outrank it, and the next position exactly when something is left |
| `Leaderboard.RanksRise` | packages/database/src/gameplay/leaderboard.ts:91-140 | down the pages ranks never fall, although rows are inserted while they are read |
| `Leaderboard.PaginationIsSound` | packages/database/src/gameplay/leaderboard.ts:91-140 | under concurrent inserts and any limits positions rise strictly, no row comes twice, and every row of the first page's table comes once by the end |
| `Leaderboard.PagesOfFixedTable` | packages/database/src/gameplay/leaderboard.ts:91-140 | on a fixed table the pages are the listing of rankLeaderboard |
| `Leaderboard.CursorStaysValid` | packages/database/src/gameplay/leaderboard.ts:73-90 | a cursor that was given out is never refused later |
| `Leaderboard.LaterBoardsGrow` | packages/database/src/gameplay/reconciliation.ts:73-92 | gameplay only ever adds rows to the board of a slot |
| `Leaderboard.BoardRowsFit` | packages/domain/src/leaderboard.ts:88-125 | every row that gameplay puts on the board passes the candidate check, with no more than a day elapsed |
| `BoardReading.ShownListIsTheBoard` | apps/web/src/reporting/controller.ts:130-194 | from table to screen: in every interleaving the shown list rises strictly, shows no row twice, its ranks never fall, and it is complete once there is no further page |
| `BoardReading.SigningIsFaithful` | apps/api/src/routes/reporting.ts:124-185 | the signed cursors carry every position on the board to the next page, also across a change of keys |
| `PageAccumulator.EntriesAreOneChain` | apps/web/src/reporting/controller.ts:68-202 | in every interleaving the entries are the pages of one cursor chain from page one of the selected slot, and at most one request is live |
| `PageAccumulator.StatusTellsTheLast` | apps/web/src/reporting/controller.ts:130-202 | in every interleaving the status tells how the last request stands: loading, appending, ready or failed; idle if and only if no slot is selected |
| `PageAccumulator.RequestsAreMade` | apps/web/src/reporting/controller.ts:102-163 | in every interleaving a request is made if and only if a page is wanted that is not being asked for already, and it asks for that page; page one and giving up leave no other request waiting |
| `PageAccumulator.ChainOfDifferentPages` | apps/web/src/reporting/controller.ts:159-177 | with different cursors no request occurs twice in the chain |
| `PageAccumulator.ReportingController.LoadLeaderboard` | apps/web/src/reporting/controller.ts:130-163 | joins the request for the same page, or starts one; a replacing load aborts and clears |
| `PageAccumulator.ReportingController.SelectLeaderboardSlot` | apps/web/src/reporting/controller.ts:102-110 | nothing when the slot is already shown |
| `PageAccumulator.ReportingController.RefreshLeaderboard` | apps/web/src/reporting/controller.ts:112-116 | a replacing load of the selected slot, if there is one |
| `PageAccumulator.ReportingController.LoadMoreLeaderboard` | apps/web/src/reporting/controller.ts:118-123 | only with a cursor |
| `PageAccumulator.ReportingController.CancelLeaderboard` | apps/web/src/reporting/controller.ts:196-202 | a new generation, the request aborted and forgotten |
| `PageAccumulator.ReportingController.ResetReports` | apps/web/src/reporting/controller.ts:68-81 | the initial state |
| `PageAccumulator.ReportingController.OnResponse` | apps/web/src/reporting/controller.ts:165-177 | accepted only for the current generation |
| `PageAccumulator.ReportingController.OnError` | apps/web/src/reporting/controller.ts:178-185 | marks the error for the current generation only |
| `PageAccumulator.ReportingController.OnFinally` | apps/web/src/reporting/controller.ts:186-191 | forgets the request it belongs to and no other |
| `CursorCodec.DecodeUndoesEncode` | apps/api/src/routes/reporting.ts:129-141 | base64url of section 5 of RFC 4648: decoding undoes encoding, and no dot occurs |
| `CursorCodec.EncodeIsTheBits` | apps/api/src/routes/reporting.ts:129-141 | the characters are those of the alphabet of section 5 of RFC 4648 for the bits of the bytes, group by group |
| `CursorCodec.AcceptedIffSigned` | apps/api/src/routes/reporting.ts:132-168 | a cursor is read as a position if and only if it is v1, a version of one of the two keys, a payload of the slot with that position, and what that key makes of all before as signature |
| `CursorCodec.KeysFitExactly` | apps/api/src/routes/reporting.ts:170-185 | keys are accepted if and only if both versions match the pattern, both secrets have 32 bytes and neither comes twice |
| `CursorCodec.CursorRoundTrip` | apps/api/src/routes/reporting.ts:124-185 | a cursor is read back for its slot, also after its key became the previous one; it fails for any other slot and after its key version is gone |
| `SharedLimiter.CountersAreExact` | packages/cache/src/limiter/redis.ts:12-42 | for any number of replicas the counter read in a window is the number of admissions, at most the limit; never more than 19,998 live counter keys over all versions |
| `SharedLimiter.DenialIsExact` | packages/cache/src/limiter/redis.ts:12-42 | a call is denied if and only if its address or its guest has used up the minute, counted over the calls that passed, with the limits of the policy, or the counter keys used in the last 61 seconds leave no room; and it is told when the next minute begins |
| `SharedLimiter.TwiceTheLimit` | packages/cache/src/limiter/redis.ts:12-42 | in any sixty seconds at most twice the limits of the policy pass from an address and for a guest |
| `SharedLimiter.CountIsTrue` | packages/cache/src/limiter/redis.ts:23-24 | a counter outlives its window |
| `SharedLimiter.Redis.Run` | packages/cache/src/limiter/redis.ts:12-42 | the script, statement by statement |
| `SharedLimiter.Redis.Increment` | packages/cache/src/limiter/redis.ts:32-34 | count, expiry and registration of one key |
| `LocalLimiter.RefusalCountsNothing` | apps/api/src/security/rate-limit.ts:121-138 | all checks come before any count: a refused request raises no entry |
| `LocalLimiter.AdmissionCountsOnce` | apps/api/src/security/rate-limit.ts:140-144 | an admitted request raises its own identities by one, from below their limits |
| `LocalLimiter.EveryRunHolds` | apps/api/src/security/rate-limit.ts:80-176 | in every window no identity passes more often than its limit, and entries stay within capacity |
| `LocalLimiter.VerdictIsExact` | apps/api/src/security/rate-limit.ts:80-176 | a request is denied if and only if its address or its guest has had the admissions of the window, counted over the requests that were admitted, or is new to a store that is full; otherwise the shared decision stands |
| `LocalLimiter.DegradedBound` | apps/api/src/security/rate-limit.ts:145-176 | with the shared limiter degraded an identity passes at most replicas times limit |
| `LocalLimiter.RateLimitControl.HandleCall` | apps/api/src/security/rate-limit.ts:80-176 | the middleware: windows turn, checks, counts, then the shared decision; a refusal says when to come again |
| `LocalLimiter.RetryAfterIsExact` | apps/api/src/security/rate-limit.ts:126-133 | who waits as long as Retry-After says finds the next window, and who waits a second less does not |
| `ProducerAdmission.NeverOverCapacity` | packages/queue/src/producer.ts:24-34 | for any interleaving of producers and worker moves, outstanding jobs and live reservations are at most 128 different ids |
| `ProducerAdmission.AdmissionIsExact` | packages/queue/src/producer.ts:24-34 | after any interleaving a run in time is admitted if and only if its job is not reserved and reservations and outstanding jobs are fewer than 128; the reservation lasts two seconds |
| `ProducerAdmission.ReservationsAreLive` | packages/queue/src/producer.ts:24-34 | after any interleaving the live reservations are the ids admitted less than two seconds ago and not released since |
| `ProducerAdmission.EveryJobIsSingle` | packages/queue/src/producer.ts:127-161 | after any interleaving a job is in one list at most |
| `ProducerAdmission.JobIsScheduled` | packages/queue/src/producer.ts:122-164 | a job that nobody has is looked for, reserved, enqueued and released: it waits once and no reservation is left |
| `ProducerAdmission.MovesLoseNothing` | packages/queue/src/producer.ts:127-161 | a worker takes its own job from list to list, loses none and moves no other |
| `ProducerAdmission.EnqueueIsReserved` | packages/queue/src/producer.ts:155-161 | an enqueue lands inside its own reservation: the deadline is shorter than the reservation and nobody else holds or releases it |
| `ProducerAdmission.AdmissionIsBounded` | packages/queue/src/producer.ts:27-33 | the script adds one id to at most 127 |
| `ProducerAdmission.AdmissionScript.Run` | packages/queue/src/producer.ts:24-34 | the script, statement by statement |
| `ConnectionDiscipline.ReleasedExactlyOnce` | packages/database/src/gameplay/runtime.ts:67-235 | each connection handed out is released exactly once if and only if the signal was not aborted between the acquisition and its reaction |
| `ConnectionDiscipline.EarlyAbortReleasesTwice` | packages/database/src/gameplay/runtime.ts:96-101 | the run in which a connection is released twice |
| `ConnectionDiscipline.NotReleasedInUse` | packages/database/src/gameplay/runtime.ts:153-235 | no release while the transaction may still query, except by the abort that ends it; a write's COMMIT is left alone |
| `ConnectionDiscipline.CommitDiscipline` | packages/database/src/gameplay/runtime.ts:197-207 | a normal return implies an acknowledged COMMIT; aborted before COMMIT was sent, it is never sent |
| `ConnectionDiscipline.HandedBackClosed` | packages/database/src/gameplay/runtime.ts:153-235 | a connection goes back for reuse only with no transaction open on it, is destroyed only by an abort or after a ROLLBACK that failed, and the call returns if and only if COMMIT was acknowledged |
| `ConnectionDiscipline.UndisturbedWorkCommits` | packages/database/src/gameplay/runtime.ts:191-219 | work that ends undisturbed is committed and the connection returned once; work that fails is rolled back |
| `ConnectionDiscipline.UndisturbedCallWorks` | packages/database/src/gameplay/runtime.ts:148-190 | a call that is not disturbed reaches its work in an open transaction |
| `ConnectionDiscipline.Transaction.OnAbort` | packages/database/src/gameplay/runtime.ts:153-160 | cancel releases once and marks the transaction as cancelling |
| `ConnectionDiscipline.Transaction.OnConnected` | packages/database/src/gameplay/runtime.ts:160-166 | listens, checks the deadline, begins |
| `ConnectionDiscipline.Transaction.OnQueryOk` | packages/database/src/gameplay/runtime.ts:164-207 | what each acknowledged query leads to |
| `ConnectionDiscipline.Transaction.OnQueryFailed` | packages/database/src/gameplay/runtime.ts:208-229 | failure of a query, and of ROLLBACK itself |
| `ConnectionDiscipline.Transaction.OnWorkDone` | packages/database/src/gameplay/runtime.ts:197-205 | the last check before COMMIT; a write stops listening |
| `ConnectionDiscipline.Transaction.CatchBlock` | packages/database/src/gameplay/runtime.ts:208-216 | await the end, roll back, or finish |
| `ConnectionDiscipline.Transaction.FinallyBlock` | packages/database/src/gameplay/runtime.ts:230-233 | releases unless released |
| `SuggestionIndex.ValidateIsIdempotent` | packages/cache/src/suggestions.ts:129-185 | validating again changes nothing; the result has the same entities, each with a smaller rank than the next |
| `SuggestionIndex.ParseUndoesSerialize` | packages/cache/src/suggestions.ts:186-204 | what was serialized is read back as the same entities in the order of their ranks |
| `SuggestionIndex.ValidateIndex` | packages/cache/src/suggestions.ts:129-185 | accepts exactly the valid indexes and sorts them |
| `SuggestionIndex.ValidIsPlain` | packages/cache/src/suggestions.ts:129-185 | an index is valid if and only if it meets the limits of the format, written out in numbers |
| `SuggestionIndex.EntitiesFit` | packages/cache/src/suggestions.ts:138-177 | the loop with its sets finds exactly the entities that are valid and differ in id and rank |
| `SuggestionIndex.FilterIsFirstTwenty` | packages/database/src/gameplay/suggestions.ts:150-175 | the result is the first twenty matches in the strict order of match class and rank |
| `SuggestionIndex.FilterSuggests` | packages/database/src/gameplay/suggestions.ts:150-175 | without classes: every suggestion contains the query, exact names stand before exact aliases, these before name prefixes, these before role prefixes, these before the rest, smaller ranks first within each, at most twenty, and nothing is left out that should stand before one that is listed |
| `SuggestionIndex.ExactNameComesFirst` | packages/database/src/gameplay/suggestions.ts:150-175 | if a name equals the query, such a name is suggested first |
| `SuggestionIndex.FilterIgnoresOrder` | packages/database/src/gameplay/suggestions.ts:150-175 | and depends on the set of entities only |
| `SuggestionCache.LiveKeysAreBounded` | packages/cache/src/suggestions/redis.ts:19-29 | never more than fifteen live cache keys |
| `SuggestionCache.SetStoresExactly` | packages/cache/src/suggestions/redis.ts:19-29 | the script stores unless fifteen other revisions are alive; what it stores lives for two days, and no other text changes |
| `SuggestionCache.ReadIs` | packages/database/src/gameplay/suggestions.ts:177-204 | a query of 1 to 80 characters and an authorized revision give the filtered entities of its index, from the cache if it has one, otherwise as published; anything else is an error or nothing, and exactly then |
| `SuggestionCache.CacheIsTransparent` | packages/database/src/gameplay/suggestions.ts:177-204 | with warming, expiry, eviction, rejectable corruption, misses and failures the answer is the one without a cache |
| `SuggestionCache.AuthorizedIsPlaying` | packages/database/src/gameplay/suggestions.ts:62-86 | suggestions are given to the player of a running game of the current case, and to nobody else |
| `SuggestionCache.CacheScript.Run` | packages/cache/src/suggestions/redis.ts:19-29 | the script, statement by statement |
| `LatestRead.LatestReadWins` | apps/web/src/state/latest-read.ts:12-47 | a value is accepted if and only if no later load started and nothing was cancelled before it arrived; one pending load at most is not aborted; the read in flight carries the current generation |
| `LatestRead.LoadsAreStarted` | apps/web/src/state/latest-read.ts:12-47 | a run joins the load under way unless it is to replace it, and otherwise starts one; only the load under way is ever aborted, by a replacement or a cancellation |
| `LatestRead.LatestReader.StartRead` | apps/web/src/state/latest-read.ts:27-46 | joins the read in flight or starts a load |
| `LatestRead.LatestReader.CancelRead` | apps/web/src/state/latest-read.ts:21-25 | a new generation without a read in flight |
| `LatestRead.LatestReader.OnSettled` | apps/web/src/state/latest-read.ts:34-38 | the acceptance test of a value |
| `LatestRead.LatestReader.OnFinally` | apps/web/src/state/latest-read.ts:39-43 | forgets the read of its own generation only |

## Left out

- Express wiring, middleware order, cookies, CORS, CSRF, telemetry, health servers, process start and stop, React views: input and output without a protocol of their own.
- SQL text, role grants, migrations, BullMQ internals and the Redis client: only their effects (unique keys, ON CONFLICT, list moves, atomic scripts) are modelled.
- SHA-256, HMAC and random tokens: abstract, see the assumptions; environment files, IP canonicalisation and content import are not modelled.
- Alias and briefing texts, explanations and source references of a case: the projection model keeps counters, state, version, times, guess history, evidence levels and the answer.
- The public name of an entity and its stored id are one identifier in guess rows and answers; a guess is looked up by any of its texts.
- UTC day and slot texts are day numbers; date parsing is left out.
- GameController listeners that call back into the controller while it changes its state are not modelled, nor two controllers over one storage in one page; timers, focus and rollover only cause the reads that may happen at any time anyway.
- GameController reads: any view that was ever read may be accepted at any later time, which allows more than LatestRead does.
- Storage that was tampered with: the pending record is what was last saved, or nothing; the JSON text of the record is left out.
- The summary of the pending operation that the page shows is left out.
- JsonScannerClass.JsonScanner: the pattern match of a number is one step; the depth limit of the engine's stack is left out; JSON.parse of a string literal is modelled as decoding by the grammar.
- CursorCodec: characters outside the alphabet are refused, where Node's decoder skips them (the request schema refuses such cursors before, packages/contracts/src/schemas.ts:8-9); the JSON text of a payload is a parameter.
- SuggestionIndex: property descriptors, prototypes and the byte count of the JSON text are parameters of storage or left out; lower-casing of the query is a parameter.
- GameplayChecks.EveryTablePasses: the column updated_at is not stored in the model, its constraint is checked where it is written; references to guests, entities and the region catalog are left out.
- Aggregates: the safe-integer guard of roundHalfUp is left out, numbers are unbounded; Math.round on the stored numeric is exact.
- Leaderboard: pseudonyms and scores of rows are left out.
- SharedLimiter: degraded answers of the Redis connection appear as the shared decision in LocalLimiter.
- LocalLimiter: window turning is per replica clock, taken not to run backwards.
- ProducerAdmission: reconnects, timers and the recovery back-off are left out; a run that is cut off may stop at any point.
- ConnectionDiscipline: that a cancelled connection ever ends is not proved; error classes are left out.
- Liveness: nothing is said about requests eventually being answered.
