/** The leaderboard part of the browser's reporting controller: apps/web/src/reporting/controller.ts. Every
    request's callbacks run in two pieces, the result and the clean-up behind it, at any later time. */
module PageAccumulator {
  import opened Basics
  import Leaderboard

  type Slot = int
  type Cursor = string
  type Entry = Leaderboard.Ranked

  datatype Status = Idle | Loading | Appending | Ready | Error

  /** leaderboardNextCursor: not known yet, null, or a cursor. */
  datatype Following = Unknown | NoMore | More(cursor: Cursor)

  datatype Answer = Answer(items: seq<Entry>, next: Option<Cursor>)

  /** One request with what its callbacks captured, and how it has ended so far; `cleaned` is history: its finally
      block has run. */
  datatype Load = Load(
    slot: Slot, cursor: Option<Cursor>, generation: nat, aborted: bool, settled: bool, answer: Option<Answer>,
    cleaned: bool)

  /** `loads` are all requests ever made; `abort` and `request` name one of them, as the controller's fields
      do. `chain` is history: the requests whose items are shown, in order; so is `cancelled`: the loading was
      cancelled since the last request. */
  datatype Reporting = Reporting(
    generation: nat,
    abort: Option<nat>,
    requestKey: Option<(Slot, Option<Cursor>)>,
    request: Option<nat>,
    entries: seq<Entry>,
    next: Following,
    slot: Option<Slot>,
    status: Status,
    loads: seq<Load>,
    chain: seq<nat>,
    cancelled: bool)

  const START: Reporting := Reporting(0, None, None, None, [], Unknown, None, Idle, [], [], false)

  function Abort(r: Reporting): Reporting {
    if r.abort.Some? && r.abort.value < |r.loads|
    then r.(loads := r.loads[r.abort.value := r.loads[r.abort.value].(aborted := true)])
    else r
  }

  function Restart(r: Reporting): Reporting {
    Abort(r).(generation := r.generation + 1, entries := [], next := Unknown, chain := [])
  }

  /** #loadLeaderboard: a request for the same page is not made twice while it runs. */
  function LoadPage(r: Reporting, slot: Slot, cursor: Option<Cursor>, replace: bool): Reporting {
    if r.requestKey == Some((slot, cursor)) && r.request.Some? then r
    else
      var s := if replace then Restart(r) else r;
      s.(abort := Some(|s.loads|), requestKey := Some((slot, cursor)), request := Some(|s.loads|),
         slot := Some(slot), status := if cursor.None? then Loading else Appending,
         loads := s.loads + [Load(slot, cursor, s.generation, false, false, None, false)], cancelled := false)
  }

  function SelectSlot(r: Reporting, slot: Slot): Reporting {
    if r.slot == Some(slot) && r.status != Idle then r else LoadPage(r, slot, None, true)
  }

  function Refresh(r: Reporting): Reporting {
    if r.slot.None? then r else LoadPage(r, r.slot.value, None, true)
  }

  function LoadMore(r: Reporting): Reporting {
    if r.slot.None? || !r.next.More? then r else LoadPage(r, r.slot.value, Some(r.next.cursor), false)
  }

  function Cancel(r: Reporting): Reporting {
    Abort(r).(generation := r.generation + 1, abort := None, request := None, requestKey := None, cancelled := true)
  }

  function Reset(r: Reporting): Reporting {
    Cancel(r).(entries := [], next := Unknown, slot := None, status := Idle, chain := [])
  }

  /** The captured generation is still the current one and the request was not aborted. */
  predicate Current(r: Reporting, n: nat)
    requires n < |r.loads|
  {
    !r.loads[n].aborted && r.loads[n].generation == r.generation
  }

  /** The response arrives. */
  function Land(r: Reporting, n: nat, answer: Answer): Reporting
    requires n < |r.loads|
  {
    var s := r.(loads := r.loads[n := r.loads[n].(settled := true, answer := Some(answer))]);
    if !Current(r, n) then s
    else
      var first := r.loads[n].cursor.None?;
      s.(entries := if first then answer.items else r.entries + answer.items,
         next := if answer.next.None? then NoMore else More(answer.next.value),
         status := Ready,
         chain := if first then [n] else r.chain + [n])
  }

  function Err(r: Reporting, n: nat): Reporting
    requires n < |r.loads|
  {
    var s := r.(loads := r.loads[n := r.loads[n].(settled := true)]);
    if Current(r, n) then s.(status := Error) else s
  }

  /** The finally block. */
  function CleanUp(r: Reporting, n: nat): Reporting
    requires n < |r.loads|
  {
    var s := r.(loads := r.loads[n := r.loads[n].(cleaned := true)]);
    if r.request == Some(n) then s.(request := None, requestKey := None) else s
  }

  datatype Event =
    | Selected(slot: Slot) | Refreshed | MoreWanted | TerminalSeen(slot: Slot) | WasReset | Disposed
    | Landed(n: nat, answer: Answer) | Failed(n: nat) | CleanedUp(n: nat)

  /** Each request settles once, and is cleaned up behind that. */
  predicate Possible(r: Reporting, e: Event) {
    match e
    case Landed(n, _) => n < |r.loads| && !r.loads[n].settled
    case Failed(n) => n < |r.loads| && !r.loads[n].settled
    case CleanedUp(n) => n < |r.loads| && r.loads[n].settled
    case _ => true
  }

  function Happen(r: Reporting, e: Event): Reporting
    requires Possible(r, e)
  {
    match e
    case Selected(slot) => SelectSlot(r, slot)
    case Refreshed => Refresh(r)
    case MoreWanted => LoadMore(r)
    case TerminalSeen(slot) => LoadPage(r, slot, None, true)
    case WasReset => Reset(r)
    case Disposed => Cancel(r)
    case Landed(n, answer) => Land(r, n, answer)
    case Failed(n) => Err(r, n)
    case CleanedUp(n) => CleanUp(r, n)
  }

  function After(events: seq<Event>): Reporting {
    if events == [] then START
    else
      var before := After(events[..|events| - 1]);
      if Possible(before, events[|events| - 1]) then Happen(before, events[|events| - 1]) else before
  }

  /* ---- what holds ---- */

  /** Neither answered nor given up. */
  predicate Live(r: Reporting, n: nat) {
    n < |r.loads| && Current(r, n) && !r.loads[n].settled
  }

  function ItemsOf(r: Reporting, chain: seq<nat>): seq<Entry> {
    if chain == [] then []
    else
      var n := chain[|chain| - 1];
      ItemsOf(r, chain[..|chain| - 1])
      + if n < |r.loads| && r.loads[n].answer.Some? then r.loads[n].answer.value.items else []
  }

  function NextOf(a: Option<Answer>): Following {
    if a.None? then Unknown else if a.value.next.None? then NoMore else More(a.value.next.value)
  }

  predicate Linked(page: Load, next: Load) {
    next.cursor.Some? && NextOf(page.answer) == More(next.cursor.value)
  }

  /** One page after the other: the first without a cursor, each further one with the cursor of the page
      before it, all of the same slot. */
  ghost predicate IsChain(r: Reporting, chain: seq<nat>, slot: Option<Slot>) {
    && (forall i | 0 <= i < |chain| :: chain[i] < |r.loads| && r.loads[chain[i]].answer.Some? && slot == Some(r.loads[chain[i]].slot))
    && (chain != [] ==> r.loads[chain[0]].cursor.None?)
    && (forall i, j | 0 <= i && j == i + 1 && j < |chain| :: Linked(r.loads[chain[i]], r.loads[chain[j]]))
  }

  ghost predicate Follows(r: Reporting) {
    && IsChain(r, r.chain, r.slot)
    && r.entries == ItemsOf(r, r.chain)
    && r.next == (if r.chain == [] then Unknown else NextOf(r.loads[r.chain[|r.chain| - 1]].answer))
  }

  /** The live request, if there is one, is the one the fields name, and it asks for the page that is next. */
  ghost predicate OneLive(r: Reporting) {
    && (r.abort.Some? ==> r.abort.value < |r.loads|)
    && (r.request.Some? ==> r.request.value < |r.loads| && r.request == r.abort)
    && (r.request.Some? ==>
          r.requestKey == Some((r.loads[r.request.value].slot, r.loads[r.request.value].cursor))
          && r.loads[r.request.value].generation == r.generation)
    && (forall n | 0 <= n < |r.loads| :: r.loads[n].generation <= r.generation)
    && (forall n | 0 <= n < |r.loads| && Live(r, n) ::
          r.request == Some(n) && Expected(r, r.loads[n]))
    && (forall n | 0 <= n < |r.loads| && r.loads[n].answer.Some? :: r.loads[n].settled)
  }

  /** Nothing is waited for any more: settled or aborted. */
  predicate Over(load: Load) { load.settled || load.aborted }

  /** The request in progress is the last one, until it is cancelled or cleaned up. */
  ghost predicate RequestFits(r: Reporting) {
    && (forall n | 0 <= n < |r.loads| && r.loads[n].cleaned :: r.loads[n].settled)
    && (forall n | 0 <= n < |r.loads| && !Over(r.loads[n]) :: Live(r, n))
    && r.request == (if UnderWay(r) then Some(|r.loads| - 1) else None)
    && (r.request.Some? <==> r.requestKey.Some?)
    && (r.request.Some? ==> r.slot == Some(r.loads[|r.loads| - 1].slot))
  }

  /** The request that was made last was not cancelled, and its finally block has not run. */
  predicate UnderWay(r: Reporting) { r.loads != [] && !r.cancelled && !r.loads[|r.loads| - 1].cleaned }

  /** What the page is told about its list, from the last request. */
  ghost predicate StatusFits(r: Reporting) {
    && (r.status == Idle <==> r.slot == None)
    && (r.slot.Some? ==>
          && r.loads != []
          && var n := |r.loads| - 1;
          && (r.status == Ready <==> r.chain != [] && r.chain[|r.chain| - 1] == n)
          && (Live(r, n) ==> r.status == if r.loads[n].cursor == None then Loading else Appending)
          && (Current(r, n) && r.loads[n].settled && r.loads[n].answer == None ==> r.status == Error)
          && (r.status == Error ==> r.loads[n].settled && r.loads[n].answer == None)
          && (r.status == Loading ==> r.loads[n].cursor == None)
          && (r.status == Appending ==> r.loads[n].cursor != None))
  }

  predicate Expected(r: Reporting, load: Load) {
    && r.slot == Some(load.slot)
    && (if load.cursor.None? then r.chain == [] else r.chain != [] && r.next == More(load.cursor.value))
  }

  ghost predicate Holds(r: Reporting) { Follows(r) && OneLive(r) }

  /** Answers are kept: later states have the same pages. */
  ghost predicate Extends(r: Reporting, s: Reporting) {
    && |r.loads| <= |s.loads|
    && forall n | 0 <= n < |r.loads| ::
         && s.loads[n].slot == r.loads[n].slot && s.loads[n].cursor == r.loads[n].cursor
         && (r.loads[n].answer.Some? ==> s.loads[n].answer == r.loads[n].answer)
  }

  lemma {:induction false} ItemsStay(r: Reporting, s: Reporting, chain: seq<nat>)
    requires Extends(r, s)
    requires forall i | 0 <= i < |chain| :: chain[i] < |r.loads| && r.loads[chain[i]].answer.Some?
    ensures ItemsOf(s, chain) == ItemsOf(r, chain)
  {
    if chain != [] {
      ItemsStay(r, s, chain[..|chain| - 1]);
    }
  }

  lemma ChainStays(r: Reporting, s: Reporting)
    requires Follows(r) && Extends(r, s) && s.chain == r.chain && s.entries == r.entries && s.next == r.next
    requires s.slot == r.slot
    ensures Follows(s)
  {
    ItemsStay(r, s, r.chain);
    forall i, j | 0 <= i && j == i + 1 && j < |r.chain| ensures Linked(s.loads[r.chain[i]], s.loads[r.chain[j]]) {
      assert Linked(r.loads[r.chain[i]], r.loads[r.chain[j]]);
    }
  }

  lemma LoadFollows(r: Reporting, slot: Slot, cursor: Option<Cursor>, replace: bool)
    requires Holds(r) && (!replace ==> r.slot == Some(slot))
    ensures Follows(LoadPage(r, slot, cursor, replace))
  {
    if !(r.requestKey == Some((slot, cursor)) && r.request.Some?) && !replace {
      ChainStays(r, LoadPage(r, slot, cursor, replace));
    }
  }

  lemma LoadIsTheOnlyOne(r: Reporting, slot: Slot, cursor: Option<Cursor>, replace: bool)
    requires Holds(r)
    requires if replace then cursor.None? else cursor.Some? && r.slot == Some(slot) && r.next == More(cursor.value)
    ensures OneLive(LoadPage(r, slot, cursor, replace))
  {
  }

  /** The answer to the expected request is the next link. */
  lemma ChainGrows(r: Reporting, s: Reporting, n: nat)
    requires Follows(r) && Extends(r, s) && s.chain == r.chain + [n] && r.chain != [] && s.slot == r.slot
    requires n < |r.loads| && Expected(r, r.loads[n]) && r.loads[n].cursor.Some? && s.loads[n].answer.Some?
    ensures IsChain(s, s.chain, s.slot)
  {
    forall i, j | 0 <= i && j == i + 1 && j < |s.chain| ensures Linked(s.loads[s.chain[i]], s.loads[s.chain[j]]) {
      if j < |r.chain| {
        assert Linked(r.loads[r.chain[i]], r.loads[r.chain[j]]);
      }
    }
  }

  lemma StaleAnswerFollows(r: Reporting, n: nat, answer: Answer)
    requires Follows(r) && n < |r.loads| && r.loads[n].answer.None? && !Current(r, n)
    ensures Follows(Land(r, n, answer))
  {
    ChainStays(r, Land(r, n, answer));
  }

  lemma FirstPageFollows(r: Reporting, n: nat, answer: Answer)
    requires n < |r.loads| && Current(r, n) && r.loads[n].cursor.None? && r.slot == Some(r.loads[n].slot)
    ensures Follows(Land(r, n, answer))
  {
    assert [n][..0] == [];
  }

  lemma NextPageFollows(r: Reporting, n: nat, answer: Answer)
    requires Follows(r) && n < |r.loads| && Current(r, n) && r.loads[n].cursor.Some? && r.loads[n].answer.None?
    requires Expected(r, r.loads[n])
    ensures Follows(Land(r, n, answer))
  {
    var s := Land(r, n, answer);
    ItemsStay(r, s, r.chain);
    assert s.chain[..|r.chain|] == r.chain;
    ChainGrows(r, s, n);
  }

  lemma LandFollows(r: Reporting, n: nat, answer: Answer)
    requires Holds(r) && n < |r.loads| && !r.loads[n].settled
    ensures Follows(Land(r, n, answer))
  {
    if !Current(r, n) {
      StaleAnswerFollows(r, n, answer);
    } else {
      assert Live(r, n);
      if r.loads[n].cursor.None? {
        FirstPageFollows(r, n, answer);
      } else {
        NextPageFollows(r, n, answer);
      }
    }
  }

  lemma LandIsTheOnlyOne(r: Reporting, n: nat, answer: Answer)
    requires Holds(r) && n < |r.loads| && !r.loads[n].settled
    ensures OneLive(Land(r, n, answer))
  {
    var s := Land(r, n, answer);
    forall m | 0 <= m < |s.loads| && Live(s, m) ensures s.request == Some(m) && Expected(s, s.loads[m]) {
      assert Live(r, m) && m != n;
    }
  }

  /** The fields stay and requests are only marked: no further one is live. */
  ghost predicate Marks(r: Reporting, s: Reporting) {
    && |s.loads| == |r.loads| && s.generation == r.generation && s.chain == r.chain && s.next == r.next && s.slot == r.slot
    && s.abort == r.abort
    && forall n | 0 <= n < |r.loads| ::
         && s.loads[n].slot == r.loads[n].slot && s.loads[n].cursor == r.loads[n].cursor
         && s.loads[n].generation == r.loads[n].generation && s.loads[n].answer == r.loads[n].answer
         && (r.loads[n].settled ==> s.loads[n].settled) && (r.loads[n].aborted ==> s.loads[n].aborted)
  }

  lemma MarkingKeeps(r: Reporting, s: Reporting)
    requires OneLive(r) && Marks(r, s) && s.request == r.request && s.requestKey == r.requestKey
    ensures OneLive(s)
  {
    forall m | 0 <= m < |s.loads| && Live(s, m) ensures s.request == Some(m) && Expected(s, s.loads[m]) {
      assert Live(r, m);
    }
  }

  lemma ForgettingKeeps(r: Reporting, s: Reporting)
    requires OneLive(r) && Marks(r, s) && s.request == None && s.requestKey == None
    requires forall n | 0 <= n < |s.loads| :: !Live(s, n)
    ensures OneLive(s)
  {
  }

  lemma SettleKeeps(r: Reporting, n: nat)
    requires Holds(r) && n < |r.loads| && !r.loads[n].settled
    ensures Holds(Err(r, n))
  {
    var s := Err(r, n);
    ChainStays(r, s);
    MarkingKeeps(r, s);
  }

  lemma CleanUpForgets(r: Reporting, n: nat)
    requires OneLive(r) && n < |r.loads| && r.loads[n].settled && r.request == Some(n)
    ensures forall m | 0 <= m < |r.loads| :: !Live(CleanUp(r, n), m)
  {
    forall m | 0 <= m < |r.loads| && Live(CleanUp(r, n), m) ensures false {
      assert Live(r, m);
    }
  }

  lemma CleanUpKeeps(r: Reporting, n: nat)
    requires Holds(r) && n < |r.loads| && r.loads[n].settled
    ensures Holds(CleanUp(r, n))
  {
    var s := CleanUp(r, n);
    ChainStays(r, s);
    if r.request == Some(n) {
      CleanUpForgets(r, n);
      ForgettingKeeps(r, s);
    } else {
      MarkingKeeps(r, s);
    }
  }

  lemma CancelIsTheOnlyOne(r: Reporting)
    requires OneLive(r)
    ensures OneLive(Cancel(r)) && OneLive(Reset(r))
  {
  }

  lemma CancelKeeps(r: Reporting)
    requires Holds(r)
    ensures Holds(Cancel(r)) && Holds(Reset(r))
  {
    CancelIsTheOnlyOne(r);
    ChainStays(r, Cancel(r));
  }

  lemma LoadKeeps(r: Reporting, slot: Slot, cursor: Option<Cursor>, replace: bool)
    requires Holds(r)
    requires if replace then cursor.None? else cursor.Some? && r.slot == Some(slot) && r.next == More(cursor.value)
    ensures Holds(LoadPage(r, slot, cursor, replace))
  {
    LoadFollows(r, slot, cursor, replace);
    LoadIsTheOnlyOne(r, slot, cursor, replace);
  }

  lemma EventKeeps(r: Reporting, e: Event)
    requires Holds(r) && Possible(r, e)
    ensures Holds(Happen(r, e))
  {
    match e {
      case Selected(slot) => LoadKeeps(r, slot, None, true);
      case Refreshed => if r.slot.Some? { LoadKeeps(r, r.slot.value, None, true); }
      case MoreWanted => if r.slot.Some? && r.next.More? { LoadKeeps(r, r.slot.value, Some(r.next.cursor), false); }
      case TerminalSeen(slot) => LoadKeeps(r, slot, None, true);
      case WasReset => CancelKeeps(r);
      case Disposed => CancelKeeps(r);
      case Landed(n, answer) => LandFollows(r, n, answer); LandIsTheOnlyOne(r, n, answer);
      case Failed(n) => SettleKeeps(r, n);
      case CleanedUp(n) => CleanUpKeeps(r, n);
    }
  }

  /** In every interleaving the shown entries are the pages of one chain of cursors from page one of the
      selected slot, with the cursor that comes next, and at most one request is live. */
  lemma {:induction false} EntriesAreOneChain(events: seq<Event>)
    ensures var r := After(events);
      && IsChain(r, r.chain, r.slot) && r.entries == ItemsOf(r, r.chain)
      && r.next == (if r.chain == [] then Unknown else NextOf(r.loads[r.chain[|r.chain| - 1]].answer))
      && (forall m, n | Live(r, m) && Live(r, n) :: m == n)
    ensures Holds(After(events))
  {
    if events != [] {
      EntriesAreOneChain(events[..|events| - 1]);
      var before := After(events[..|events| - 1]);
      if Possible(before, events[|events| - 1]) {
        EventKeeps(before, events[|events| - 1]);
      }
    }
  }

  /* ---- what is asked for, and what the page is told ---- */

  /** What the chain and the requests say about their ends. */
  ghost predicate Ends(r: Reporting) {
    && (forall n | 0 <= n < |r.loads| :: r.loads[n].generation <= r.generation)
    && (forall n | 0 <= n < |r.loads| && Live(r, n) :: n == |r.loads| - 1 && r.slot.Some? && r.abort == Some(n))
    && (forall n | 0 <= n < |r.loads| && r.loads[n].answer.Some? :: r.loads[n].settled)
    && (r.chain != [] ==>
          r.chain[|r.chain| - 1] < |r.loads| && r.loads[r.chain[|r.chain| - 1]].answer.Some?)
    && (r.abort.Some? ==> r.abort.value < |r.loads|)
  }

  lemma HoldingEnds(r: Reporting)
    requires Holds(r) && RequestFits(r)
    ensures Ends(r)
  {
    forall n | 0 <= n < |r.loads| && Live(r, n) ensures n == |r.loads| - 1 && r.slot.Some? && r.abort == Some(n) {
      assert r.request == Some(n) && Expected(r, r.loads[n]);
    }
  }

  lemma LoadFits(r: Reporting, slot: Slot, cursor: Option<Cursor>, replace: bool)
    requires Ends(r) && RequestFits(r) && StatusFits(r)
    ensures RequestFits(LoadPage(r, slot, cursor, replace)) && StatusFits(LoadPage(r, slot, cursor, replace))
  {
  }

  lemma CancelFits(r: Reporting)
    requires Ends(r) && RequestFits(r) && StatusFits(r)
    ensures RequestFits(Cancel(r)) && StatusFits(Cancel(r)) && RequestFits(Reset(r)) && StatusFits(Reset(r))
  {
  }

  lemma LandRequestFits(r: Reporting, n: nat, answer: Answer)
    requires Ends(r) && RequestFits(r) && n < |r.loads| && !r.loads[n].settled
    ensures RequestFits(Land(r, n, answer))
  {
    var s := Land(r, n, answer);
    forall m | 0 <= m < |s.loads| && !Over(s.loads[m]) ensures Live(s, m) {
      assert Live(r, m);
    }
  }

  lemma LandFits(r: Reporting, n: nat, answer: Answer)
    requires Ends(r) && RequestFits(r) && StatusFits(r) && n < |r.loads| && !r.loads[n].settled
    ensures RequestFits(Land(r, n, answer)) && StatusFits(Land(r, n, answer))
  {
    LandRequestFits(r, n, answer);
    if Current(r, n) {
      assert Live(r, n);
    }
  }

  lemma ErrRequestFits(r: Reporting, n: nat)
    requires Ends(r) && RequestFits(r) && n < |r.loads| && !r.loads[n].settled
    ensures RequestFits(Err(r, n))
  {
    var s := Err(r, n);
    forall m | 0 <= m < |s.loads| && !Over(s.loads[m]) ensures Live(s, m) {
      assert Live(r, m);
    }
  }

  lemma ErrFits(r: Reporting, n: nat)
    requires Ends(r) && RequestFits(r) && StatusFits(r) && n < |r.loads| && !r.loads[n].settled
    ensures RequestFits(Err(r, n)) && StatusFits(Err(r, n))
  {
    ErrRequestFits(r, n);
    if Current(r, n) {
      assert Live(r, n);
    }
  }

  lemma CleanUpRequestFits(r: Reporting, n: nat)
    requires RequestFits(r) && n < |r.loads| && r.loads[n].settled
    ensures RequestFits(CleanUp(r, n))
  {
    var s := CleanUp(r, n);
    forall m | 0 <= m < |s.loads| && !Over(s.loads[m]) ensures Live(s, m) {
      assert Live(r, m);
    }
  }

  lemma CleanUpStatusFits(r: Reporting, n: nat)
    requires StatusFits(r) && n < |r.loads|
    ensures StatusFits(CleanUp(r, n))
  {
  }

  lemma CleanUpFits(r: Reporting, n: nat)
    requires Ends(r) && RequestFits(r) && StatusFits(r) && n < |r.loads| && r.loads[n].settled
    ensures RequestFits(CleanUp(r, n)) && StatusFits(CleanUp(r, n))
  {
    CleanUpRequestFits(r, n);
    CleanUpStatusFits(r, n);
  }

  lemma EventFits(r: Reporting, e: Event)
    requires Ends(r) && RequestFits(r) && StatusFits(r) && Possible(r, e)
    ensures RequestFits(Happen(r, e)) && StatusFits(Happen(r, e))
  {
    match e {
      case Selected(slot) => LoadFits(r, slot, None, true);
      case Refreshed => if r.slot.Some? { LoadFits(r, r.slot.value, None, true); }
      case MoreWanted => if r.slot.Some? && r.next.More? { LoadFits(r, r.slot.value, Some(r.next.cursor), false); }
      case TerminalSeen(slot) => LoadFits(r, slot, None, true);
      case WasReset => CancelFits(r);
      case Disposed => CancelFits(r);
      case Landed(n, answer) => LandFits(r, n, answer);
      case Failed(n) => ErrFits(r, n);
      case CleanedUp(n) => CleanUpFits(r, n);
    }
  }

  /** In every interleaving the status tells how the last request stands. */
  lemma {:induction false} StatusTellsTheLast(events: seq<Event>)
    ensures RequestFits(After(events)) && StatusFits(After(events)) && Ends(After(events))
  {
    EntriesAreOneChain(events);
    if events != [] {
      StatusTellsTheLast(events[..|events| - 1]);
      var before := After(events[..|events| - 1]);
      if Possible(before, events[|events| - 1]) {
        EventFits(before, events[|events| - 1]);
      }
    }
    HoldingEnds(After(events));
  }

  /** The page that an event asks for. */
  function Wanted(r: Reporting, e: Event): Option<(Slot, Option<Cursor>)> {
    match e
    case Selected(slot) => if r.slot == Some(slot) then None else Some((slot, None))
    case TerminalSeen(slot) => Some((slot, None))
    case Refreshed => if r.slot.Some? then Some((r.slot.value, None)) else None
    case MoreWanted => if r.slot.Some? && r.next.More? then Some((r.slot.value, Some(r.next.cursor))) else None
    case _ => None
  }

  /** The page is being asked for already. */
  predicate AskedFor(r: Reporting, page: (Slot, Option<Cursor>)) {
    UnderWay(r) && r.loads[|r.loads| - 1].slot == page.0 && r.loads[|r.loads| - 1].cursor == page.1
  }

  /** A page is asked for: one live request for it. Asking for page one gives up what is under way and what is
      shown. */
  ghost predicate Asks(r: Reporting, s: Reporting, page: (Slot, Option<Cursor>)) {
    var n := |r.loads|;
    && |s.loads| == n + 1 && UnderWay(s) && Live(s, n) && s.loads[n].slot == page.0 && s.loads[n].cursor == page.1
    && s.slot == Some(page.0)
    && (page.1 == None ==> s.entries == [] && s.next == Unknown && forall m | 0 <= m < n :: Over(s.loads[m]))
    && (page.1 != None ==> s.entries == r.entries && s.next == r.next)
  }

  lemma LoadAsks(r: Reporting, slot: Slot, cursor: Option<Cursor>)
    requires OneLive(r) && RequestFits(r) && Ends(r)
    ensures var s := LoadPage(r, slot, cursor, cursor == None);
      if AskedFor(r, (slot, cursor)) then s == r else Asks(r, s, (slot, cursor))
  {
  }

  lemma CancelAsksNothing(r: Reporting)
    requires Ends(r) && RequestFits(r)
    ensures forall s | s == Cancel(r) || s == Reset(r) :: |s.loads| == |r.loads| && forall m | 0 <= m < |s.loads| :: Over(s.loads[m])
  {
  }

  /** A request is made exactly when a page is wanted that is not being asked for already, and it asks for that
      page; giving up leaves none live. */
  ghost predicate AsksRightly(r: Reporting, e: Event, s: Reporting) {
    var wanted := Wanted(r, e);
    if wanted.Some? then if AskedFor(r, wanted.value) then s == r else Asks(r, s, wanted.value)
    else
      && |s.loads| == |r.loads|
      && (e.WasReset? ==> s.entries == [] && s.slot == None)
      && (e.WasReset? || e.Disposed? ==> forall n | 0 <= n < |r.loads| :: Over(s.loads[n]))
  }

  lemma LoadsAskRightly(r: Reporting, e: Event)
    requires OneLive(r) && RequestFits(r) && Ends(r) && StatusFits(r) && Possible(r, e) && Wanted(r, e).Some?
    ensures AsksRightly(r, e, Happen(r, e))
  {
    LoadAsks(r, Wanted(r, e).value.0, Wanted(r, e).value.1);
  }

  lemma OthersAskNothing(r: Reporting, e: Event)
    requires Ends(r) && RequestFits(r) && StatusFits(r) && Possible(r, e) && Wanted(r, e).None?
    ensures AsksRightly(r, e, Happen(r, e))
  {
    CancelAsksNothing(r);
  }

  lemma RequestsAreMade(events: seq<Event>, e: Event)
    requires Possible(After(events), e)
    ensures AsksRightly(After(events), e, Happen(After(events), e))
  {
    EntriesAreOneChain(events);
    StatusTellsTheLast(events);
    if Wanted(After(events), e).Some? {
      LoadsAskRightly(After(events), e);
    } else {
      OthersAskNothing(After(events), e);
    }
  }

  /** No page comes twice: the cursors of the chain are the ones that its own pages gave out, so as long as
      cursors differ the requests of a chain differ. */
  lemma ChainOfDifferentPages(r: Reporting, i: nat, j: nat)
    requires Holds(r) && i < j < |r.chain|
    requires forall a, b | 0 <= a < b < |r.chain| :: NextOf(r.loads[r.chain[a]].answer) != NextOf(r.loads[r.chain[b]].answer)
    ensures r.loads[r.chain[i]].cursor != r.loads[r.chain[j]].cursor && r.chain[i] != r.chain[j]
  {
    assert Linked(r.loads[r.chain[j - 1]], r.loads[r.chain[j]]);
    if i > 0 {
      assert Linked(r.loads[r.chain[i - 1]], r.loads[r.chain[i]]);
    }
  }

  /* ---- the controller as it runs ---- */

  class ReportingController {
    var generation: nat
    var abort: Option<nat>
    var requestKey: Option<(Slot, Option<Cursor>)>
    var request: Option<nat>
    var entries: seq<Entry>
    var next: Following
    var slot: Option<Slot>
    var status: Status
    var loads: seq<Load>
    var chain: seq<nat>
    var cancelled: bool

    constructor ()
      ensures Contents() == START
    {
      generation, abort, requestKey, request := 0, None, None, None;
      entries, next, slot, status, loads, chain := [], Unknown, None, Idle, [], [];
      cancelled := false;
    }

    function Contents(): Reporting
      reads this
    {
      Reporting(generation, abort, requestKey, request, entries, next, slot, status, loads, chain, cancelled)
    }

    method AbortCurrent()
      modifies this`loads
      ensures Contents() == Abort(old(Contents()))
    {
      if abort.Some? && abort.value < |loads| {
        loads := loads[abort.value := loads[abort.value].(aborted := true)];
      }
    }

    method RestartPages()
      modifies this
      ensures Contents() == Restart(old(Contents()))
    {
      AbortCurrent();
      generation := generation + 1;
      entries, next, chain := [], Unknown, [];
    }

    method LoadLeaderboard(slotId: Slot, cursor: Option<Cursor>, replace: bool)
      modifies this
      ensures Contents() == LoadPage(old(Contents()), slotId, cursor, replace)
    {
      if requestKey == Some((slotId, cursor)) && request.Some? {
        return;
      }
      if replace {
        RestartPages();
      }
      abort, request := Some(|loads|), Some(|loads|);
      requestKey := Some((slotId, cursor));
      slot := Some(slotId);
      status := if cursor.None? then Loading else Appending;
      loads, cancelled := loads + [Load(slotId, cursor, generation, false, false, None, false)], false;
    }

    method SelectLeaderboardSlot(slotId: Slot)
      modifies this
      ensures Contents() == SelectSlot(old(Contents()), slotId)
    {
      if slot == Some(slotId) && status != Idle {
        return;
      }
      LoadLeaderboard(slotId, None, true);
    }

    method RefreshLeaderboard()
      modifies this
      ensures Contents() == Refresh(old(Contents()))
    {
      if slot.Some? {
        LoadLeaderboard(slot.value, None, true);
      }
    }

    method LoadMoreLeaderboard()
      modifies this
      ensures Contents() == LoadMore(old(Contents()))
    {
      if slot.Some? && next.More? {
        LoadLeaderboard(slot.value, Some(next.cursor), false);
      }
    }

    method CancelLeaderboard()
      modifies this
      ensures Contents() == Cancel(old(Contents()))
    {
      generation := generation + 1;
      AbortCurrent();
      abort, request, requestKey := None, None, None;
      cancelled := true;
    }

    method ResetReports()
      modifies this
      ensures Contents() == Reset(old(Contents()))
    {
      CancelLeaderboard();
      entries, next, slot, status, chain := [], Unknown, None, Idle, [];
    }

    method OnResponse(n: nat, answer: Answer)
      requires n < |loads|
      modifies this
      ensures Contents() == Land(old(Contents()), n, answer)
    {
      var load := loads[n];
      loads := loads[n := load.(settled := true, answer := Some(answer))];
      if load.aborted || load.generation != generation {
        return;
      }
      if load.cursor.None? {
        entries, chain := answer.items, [n];
      } else {
        entries, chain := entries + answer.items, chain + [n];
      }
      next := if answer.next.None? then NoMore else More(answer.next.value);
      status := Ready;
    }

    method OnError(n: nat)
      requires n < |loads|
      modifies this
      ensures Contents() == Err(old(Contents()), n)
    {
      var load := loads[n];
      loads := loads[n := load.(settled := true)];
      if !load.aborted && load.generation == generation {
        status := Error;
      }
    }

    method OnFinally(n: nat)
      requires n < |loads|
      modifies this
      ensures Contents() == CleanUp(old(Contents()), n)
    {
      if request == Some(n) {
        request, requestKey := None, None;
      }
      loads := loads[n := loads[n].(cleaned := true)];
    }
  }
}
