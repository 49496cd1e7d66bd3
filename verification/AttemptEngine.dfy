/** The attempt state machine of packages/domain/src/attempt-engine.ts.

    A snapshot is what one row of the attempts table says about a game: its state, the
    evidence level `e`, the wrong guesses at that level `w` and the total `W`. */
module AttemptEngine {

  datatype AttemptState = Active | Solved | GivenUp | Exhausted | Expired

  datatype Snapshot = Snapshot(state: AttemptState, e: int, w: int, W: int)

  datatype Rejection = EvidenceLimit | TerminalAttempt

  /** `Thrown` stands for the RangeError that the snapshot assertion raises. */
  datatype Transition =
    | Accepted(attempt: Snapshot, recordsParticipation: bool)
    | Rejected(reason: Rejection, attempt: Snapshot)
    | Thrown

  const START: Snapshot := Snapshot(Active, 0, 0, 0)

  predicate CountersReachable(s: Snapshot) {
    s.w <= s.W <= s.e * 3 + s.w
  }

  /** assertValidAttemptSnapshot: true when it does not throw. */
  predicate ValidSnapshot(s: Snapshot) {
    && 0 <= s.e <= 4
    && 0 <= s.w <= 2
    && 0 <= s.W
    && if s.state == Exhausted then s.e == 4 && s.w == 2 && s.W == 15 else CountersReachable(s)
  }

  function ApplyGuess(a: Snapshot, correct: bool): Transition {
    if !ValidSnapshot(a) then Thrown
    else if a.state != Active then Rejected(TerminalAttempt, a)
    else if correct then Accepted(a.(state := Solved), true)
    else if a.w < 2 then Accepted(a.(w := a.w + 1, W := a.W + 1), true)
    else if a.e == 4 then Accepted(Snapshot(Exhausted, 4, 2, 15), true)
    else Accepted(a.(e := a.e + 1, w := 0, W := a.W + 1), true)
  }

  function RevealEvidence(a: Snapshot): Transition {
    if !ValidSnapshot(a) then Thrown
    else if a.state != Active then Rejected(TerminalAttempt, a)
    else if a.e == 4 then Rejected(EvidenceLimit, a)
    else Accepted(a.(e := a.e + 1, w := 0), false)
  }

  function GiveUp(a: Snapshot): Transition {
    if !ValidSnapshot(a) then Thrown
    else if a.state != Active then Rejected(TerminalAttempt, a)
    else Accepted(a.(state := GivenUp), false)
  }

  function Expire(a: Snapshot): Transition {
    if !ValidSnapshot(a) then Thrown
    else if a.state != Active then Rejected(TerminalAttempt, a)
    else Accepted(a.(state := Expired), false)
  }

  /** The outcome codes that a committed command leaves in its receipt. */
  datatype Code = Correct | Wrong | Revealed | GaveUp

  function Move(a: Snapshot, code: Code): Transition {
    match code
    case Correct => ApplyGuess(a, true)
    case Wrong => ApplyGuess(a, false)
    case Revealed => RevealEvidence(a)
    case GaveUp => GiveUp(a)
  }

  datatype Game = Game(at: Snapshot) | Illegal

  /** Accepting the codes in turn from START; illegal once the engine does not accept one. */
  function Play(codes: seq<Code>): Game {
    if codes == [] then Game(START)
    else
      match Play(codes[..|codes| - 1])
      case Illegal => Illegal
      case Game(at) =>
        var t := Move(at, codes[|codes| - 1]);
        if t.Accepted? then Game(t.attempt) else Illegal
  }

  /** The engine accepts every one of the codes. */
  predicate Playable(codes: seq<Code>) { Play(codes).Game? }

  /** The snapshot that the journal of accepted codes leads to. */
  function Replay(codes: seq<Code>): Snapshot
    requires Playable(codes)
  {
    Play(codes).at
  }

  /** The rank of an active snapshot in the game: it rises with every accepted move. */
  function Progress(s: Snapshot): int { 3 * s.e + s.w }

  function CountWrong(codes: seq<Code>): nat {
    if codes == [] then 0
    else CountWrong(codes[..|codes| - 1]) + if codes[|codes| - 1] == Wrong then 1 else 0
  }

  function CountGuesses(codes: seq<Code>): nat {
    if codes == [] then 0
    else CountGuesses(codes[..|codes| - 1]) + if codes[|codes| - 1] in {Correct, Wrong} then 1 else 0
  }

  lemma SnoCode(codes: seq<Code>, code: Code)
    ensures (codes + [code])[..|codes|] == codes && (codes + [code])[|codes|] == code
  {
  }

  /** Playing one more accepted code. */
  lemma PlayOneMore(codes: seq<Code>, code: Code)
    requires Playable(codes) && Move(Replay(codes), code).Accepted?
    ensures Playable(codes + [code])
    ensures Replay(codes + [code]) == Move(Replay(codes), code).attempt
    ensures CountWrong(codes + [code]) == CountWrong(codes) + if code == Wrong then 1 else 0
    ensures CountGuesses(codes + [code]) == CountGuesses(codes) + if code in {Correct, Wrong} then 1 else 0
  {
    SnoCode(codes, code);
  }

  /** One accepted move from a valid snapshot. */
  lemma MoveFacts(s: Snapshot, code: Code)
    requires Move(s, code).Accepted?
    ensures s.state == Active
    ensures var t := Move(s, code).attempt;
      && ValidSnapshot(t) && t.state != Expired
      && (t.state == Active ==> Progress(s) < Progress(t) <= 14)
      && (t.state != Exhausted ==> t.W == s.W + if code == Wrong then 1 else 0)
      && (t.state == Active ==> code in {Wrong, Revealed})
  {
  }

  /** Every playable journal leads to a valid snapshot. */
  lemma {:induction false} JournalIsValid(codes: seq<Code>)
    requires Playable(codes)
    ensures ValidSnapshot(Replay(codes)) && Replay(codes).state != Expired
  {
    if codes != [] {
      JournalIsValid(codes[..|codes| - 1]);
      MoveFacts(Replay(codes[..|codes| - 1]), codes[|codes| - 1]);
    }
  }

  /** While the game is active the progress measure bounds the number of moves. */
  lemma {:induction false} JournalIsShort(codes: seq<Code>)
    requires Playable(codes)
    ensures |codes| <= if Replay(codes).state == Active then Progress(Replay(codes)) else 15
    ensures Replay(codes).state == Active ==> Progress(Replay(codes)) <= 14
  {
    if codes != [] {
      JournalIsShort(codes[..|codes| - 1]);
      MoveFacts(Replay(codes[..|codes| - 1]), codes[|codes| - 1]);
    }
  }

  /** `W` is the number of wrong guesses unless the game is exhausted, and while the game is active every
      guess so far was wrong. */
  lemma {:induction false} JournalCounts(codes: seq<Code>)
    requires Playable(codes)
    ensures Replay(codes).state != Exhausted ==> Replay(codes).W == CountWrong(codes)
    ensures Replay(codes).state == Active ==> CountGuesses(codes) == CountWrong(codes)
    ensures CountWrong(codes) <= CountGuesses(codes) <= |codes|
  {
    if codes != [] {
      var shorter := codes[..|codes| - 1];
      JournalCounts(shorter);
      MoveFacts(Replay(shorter), codes[|codes| - 1]);
    }
  }

  /** A committed game is short: at most 15 commands are ever accepted, and once the engine has left
      ACTIVE it accepts none. Guess numbers therefore stay within 1..15. */
  lemma RunBound(codes: seq<Code>, more: seq<Code>)
    requires Playable(codes + more)
    ensures |codes + more| <= 15
    ensures Playable(codes)
    ensures Replay(codes).state != Active ==> more == []
    decreases |more|
  {
    JournalIsShort(codes + more);
    if more == [] {
      assert codes + more == codes;
    } else {
      var shorter := more[..|more| - 1];
      assert (codes + more)[..|codes + more| - 1] == codes + shorter;
      RunBound(codes, shorter);
      MoveFacts(Replay(codes + shorter), (codes + more)[|codes + more| - 1]);
      assert shorter == [] ==> codes + shorter == codes;
    }
  }

  /** The progress measure strictly rises on each accepted move that keeps the game active. */
  lemma ProgressRises(s: Snapshot, code: Code)
    requires Move(s, code).Accepted? && Move(s, code).attempt.state == Active
    ensures s.state == Active && Progress(s) < Progress(Move(s, code).attempt) <= 14
  {
  }

  /* ---- `W` against the number of wrong guesses ---- */

  /** Without a reveal the counters move in lock step: `W` is exactly `3e + w`. */
  lemma {:induction false} NoRevealLockStep(codes: seq<Code>)
    requires Playable(codes) && Revealed !in codes
    ensures Replay(codes).state != Exhausted ==> CountWrong(codes) == Progress(Replay(codes))
    ensures Replay(codes).state == Exhausted ==> CountWrong(codes) == 15
  {
    if codes != [] {
      JournalIsValid(codes[..|codes| - 1]);
      NoRevealLockStep(codes[..|codes| - 1]);
    }
  }

  /** A reveal forfeits at least one guess for good: the wrong guesses made never catch up again. */
  lemma {:induction false} RevealForfeits(codes: seq<Code>)
    requires Playable(codes) && Revealed in codes
    ensures Replay(codes).state != Exhausted ==> CountWrong(codes) < Progress(Replay(codes))
    ensures Replay(codes).state == Exhausted ==> CountWrong(codes) < 15
  {
    var shorter := codes[..|codes| - 1];
    JournalIsValid(shorter);
    if Revealed in shorter {
      RevealForfeits(shorter);
    } else {
      NoRevealLockStep(shorter);
      assert codes == shorter + [codes[|codes| - 1]];
    }
  }

  /** The step into EXHAUSTED writes 15 whatever was counted, so the stored total tells the number of
      wrong guesses exactly when the game is not exhausted or no evidence was ever revealed by hand. */
  lemma TotalIsWrongGuessCount(codes: seq<Code>)
    requires Playable(codes)
    ensures Replay(codes).W == CountWrong(codes) <==> (Replay(codes).state == Exhausted ==> Revealed !in codes)
  {
    JournalCounts(codes);
    if Revealed in codes {
      RevealForfeits(codes);
    } else {
      NoRevealLockStep(codes);
    }
  }

  /** Four reveals and three wrong guesses: exhausted with 15 on record after three guesses. */
  lemma ExhaustedAfterThreeGuesses()
    ensures
      var codes := [Revealed, Revealed, Revealed, Revealed, Wrong, Wrong, Wrong];
      Playable(codes) && Replay(codes) == Snapshot(Exhausted, 4, 2, 15) && CountWrong(codes) == 3
  {
    var r1 := [Revealed];
    PlayOneMore([], Revealed);
    assert [] + [Revealed] == r1;
    PlayOneMore(r1, Revealed);
    PlayOneMore(r1 + [Revealed], Revealed);
    PlayOneMore(r1 + [Revealed] + [Revealed], Revealed);
    var r4 := r1 + [Revealed] + [Revealed] + [Revealed];
    PlayOneMore(r4, Wrong);
    PlayOneMore(r4 + [Wrong], Wrong);
    PlayOneMore(r4 + [Wrong] + [Wrong], Wrong);
    assert r4 + [Wrong] + [Wrong] + [Wrong] == [Revealed, Revealed, Revealed, Revealed, Wrong, Wrong, Wrong];
  }

  /* ---- the snapshot check is exact ---- */

  /** A move into the given active snapshot and the snapshot just before it: a wrong guess at the current
      level is undone first; then, one level at a time, the earlier levels take the remaining wrong
      guesses three by three, and the rest of the way is revealed. */
  function Before(s: Snapshot): (r: (Snapshot, Code))
    requires ValidSnapshot(s) && s.state == Active && s != START
    ensures ValidSnapshot(r.0) && r.0.state == Active
    ensures Move(r.0, r.1).Accepted? && Move(r.0, r.1).attempt == s
    ensures r.0.e < s.e || (r.0.e == s.e && r.0.w < s.w)
  {
    if s.w > 0 then (s.(w := s.w - 1, W := s.W - 1), Wrong)
    else if s.W >= 3 then (Snapshot(Active, s.e - 1, 2, s.W - 1), Wrong)
    else (Snapshot(Active, s.e - 1, s.W, s.W), Revealed)
  }

  function Route(s: Snapshot): seq<Code>
    requires ValidSnapshot(s) && s.state == Active
    decreases s.e, s.w
  {
    if s == START then [] else Route(Before(s).0) + [Before(s).1]
  }

  lemma {:induction false} RouteArrives(s: Snapshot)
    requires ValidSnapshot(s) && s.state == Active
    ensures Playable(Route(s)) && Replay(Route(s)) == s
    decreases s.e, s.w
  {
    if s != START {
      var (b, code) := Before(s);
      RouteArrives(b);
      PlayOneMore(Route(b), code);
    }
  }

  /** What a row may hold after some journal, followed by the clock when it has run out. */
  ghost predicate Reachable(s: Snapshot) {
    exists codes | Playable(codes) ::
      s == Replay(codes) || Expire(Replay(codes)) == Accepted(s, false)
  }

  lemma ReachedBy(s: Snapshot, codes: seq<Code>)
    requires Playable(codes)
    requires s == Replay(codes) || Expire(Replay(codes)) == Accepted(s, false)
    ensures Reachable(s)
  {
  }

  lemma ValidIsReachable(s: Snapshot)
    requires ValidSnapshot(s)
    ensures Reachable(s)
  {
    var active := if s.state == Exhausted then Snapshot(Active, 4, 2, 14) else s.(state := Active);
    RouteArrives(active);
    var route := Route(active);
    match s.state {
      case Active | Expired => ReachedBy(s, route);
      case Solved => PlayOneMore(route, Correct); ReachedBy(s, route + [Correct]);
      case GivenUp => PlayOneMore(route, GaveUp); ReachedBy(s, route + [GaveUp]);
      case Exhausted => PlayOneMore(route, Wrong); ReachedBy(s, route + [Wrong]);
    }
  }

  /** assertValidAttemptSnapshot accepts a snapshot exactly when some game reaches it. */
  lemma SnapshotCheckIsExact(s: Snapshot)
    ensures ValidSnapshot(s) <==> Reachable(s)
  {
    if Reachable(s) {
      var codes :| Playable(codes) && (s == Replay(codes) || Expire(Replay(codes)) == Accepted(s, false));
      JournalIsValid(codes);
    }
    if ValidSnapshot(s) {
      ValidIsReachable(s);
    }
  }

  /* ---- scoring ---- */

  function TierScore(e: int): int
    requires 0 <= e <= 4
  {
    match e
    case 0 => 1200
    case 1 => 1000
    case 2 => 750
    case 3 => 500
    case 4 => 250
  }

  function TimeBonus(elapsed: int): int {
    if elapsed <= 30_000 then 150
    else if elapsed <= 60_000 then 100
    else if elapsed <= 120_000 then 60
    else if elapsed <= 300_000 then 25
    else 0
  }

  function Score(s: Snapshot, elapsed: int): int
    requires ValidSnapshot(s) && s.state == Solved
  {
    var raw := TierScore(s.e) - 40 * s.W + TimeBonus(elapsed);
    if raw < 0 then 0 else raw
  }

  /** Solving at the same evidence level with no more wrong guesses and no more time never scores less;
      every score lies between 0 and 1350, and only a cold-case solve can pass 1150. */
  lemma ScoreIsMonotone(a: Snapshot, ta: int, b: Snapshot, tb: int)
    requires ValidSnapshot(a) && a.state == Solved && ValidSnapshot(b) && b.state == Solved
    requires a.e <= b.e && a.W <= b.W && ta <= tb
    ensures 0 <= Score(b, tb) <= Score(a, ta) <= 1350
    ensures Score(a, ta) > 1150 ==> a.e == 0
  {
  }
}
