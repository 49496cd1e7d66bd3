/** The transaction runtime of packages/database/src/gameplay/runtime.ts as a machine over its callbacks:
    getting a connection, aborting, querying, committing, rolling back and releasing. */
module ConnectionDiscipline {

  datatype Acquisition = Unasked | Waiting | Fulfilled | Refused

  /** Which side the race between the connection and the timeout was won by. */
  datatype Race = Open | WithClient | WithError

  /** acquireClient. `reacted`: the reaction to the fulfilled acquisition has run; it releases a connection that
      came too late. `early` is history: the signal was aborted when the connection had won the race and the
      reaction had not run yet. */
  datatype Pool = Pool(
    acquisition: Acquisition, timedOut: bool, race: Race, reacted: bool, releases: nat, early: bool)

  /** The await at which the transaction stands; a query in progress was sent. */
  datatype Place =
    | Fresh | Acquiring | NoConnection
    | Opening | Setting | Working | Committing | RollingBack | AwaitingEnd
    | Returned | Threw

  /** The flags of the transaction itself, how often it has released, and whether it released with an error, which
      takes the connection out of the pool for good. `ending` says that cancellationComplete is set: by cancel, and
      by a ROLLBACK that fails, which is no cancellation. */
  datatype Flags = Flags(
    place: Place, listening: bool, started: bool, cancelling: bool, ending: bool, released: bool, releases: nat,
    destroyed: bool)

  /** History: the signal was aborted before COMMIT was sent; COMMIT was sent; COMMIT was acknowledged; a transaction
      is open on the connection, that is, BEGIN was acknowledged and neither COMMIT nor ROLLBACK since; a ROLLBACK
      has failed. */
  datatype Past = Past(abortedFirst: bool, commitSent: bool, commitAcked: bool, open: bool, rollbackFailed: bool)

  datatype Tx = Tx(deadline: bool, readOnly: bool, aborted: bool, pool: Pool, flags: Flags, past: Past)

  function New(deadline: bool, readOnly: bool): Tx {
    Tx(deadline, readOnly, false, Pool(Unasked, false, Open, false, 0, false),
       Flags(Fresh, false, false, false, false, false, 0, false), Past(false, false, false, false, false))
  }

  /** How often client.release was called. */
  function Releases(t: Tx): nat { t.pool.releases + t.flags.releases }

  /** The signal, the clock, the pool and the server, and the runtime's own queued reactions. `late` says that
      the deadline has passed on the clock although the signal has not fired. */
  datatype Event =
    | Call(late: bool)
    | Abort
    | AcquireTimeout
    | Connected
    | ConnectFailed
    | React
    | Resume(late: bool)
    | QueryOk(last: bool)
    | QueryFailed
    | WorkDone(late: bool)
    | WorkFailed
    | WorkCancelled
    | Ended

  predicate Cancelled(t: Tx, late: bool) { t.deadline && (t.aborted || late) }

  /** client.release(), and client.release(error). */
  function Release(f: Flags): Flags { f.(released := true, releases := f.releases + 1) }

  function Destroy(f: Flags): Flags { Release(f).(destroyed := true) }

  /** The finally block. */
  function Finish(f: Flags, place: Place): Flags {
    (if f.released then f else Release(f)).(listening := false, place := place)
  }

  /** The catch block up to its await. */
  function Catch(f: Flags): Flags {
    if f.ending then f.(place := AwaitingEnd)
    else if f.started then f.(place := RollingBack)
    else Finish(f, Threw)
  }

  /** cancel(), which listens once. */
  function Cancel(f: Flags): Flags {
    if f.released || f.cancelling then f.(listening := false)
    else Destroy(f.(cancelling := true, ending := true, listening := false))
  }

  /** rejectTimeout() while the race is on. */
  function RejectTimeout(p: Pool): Pool {
    p.(timedOut := true, race := if p.race.Open? then WithError else p.race)
  }

  predicate Queries(f: Flags) {
    f.place.Opening? || f.place.Setting? || f.place.Committing? || f.place.RollingBack?
  }

  predicate Possible(t: Tx, e: Event) {
    match e
    case Call(_) => t.flags.place.Fresh?
    case Abort => t.deadline && !t.aborted
    case AcquireTimeout => t.deadline && t.flags.place.Acquiring? && t.pool.acquisition.Waiting?
    case Connected => t.pool.acquisition.Waiting?
    case ConnectFailed => t.pool.acquisition.Waiting?
    case React => t.deadline && t.pool.acquisition.Fulfilled? && !t.pool.reacted
    case Resume(_) =>
      t.flags.place.Acquiring? && !t.pool.race.Open? && (t.deadline && t.pool.race.WithClient? ==> t.pool.reacted)
    case QueryOk(_) => Queries(t.flags)
    case QueryFailed => Queries(t.flags)
    case WorkDone(_) => t.flags.place.Working?
    case WorkFailed => t.flags.place.Working?
    case WorkCancelled =>
      t.deadline && t.aborted && (t.flags.place.Working? || (t.flags.place.Committing? && t.readOnly))
    case Ended => t.flags.place.AwaitingEnd?
  }

  /** The acquisition's side of an event. */
  function PoolAfter(t: Tx, e: Event): Pool {
    match e
    case Call(late) => if Cancelled(t, late) then t.pool else t.pool.(acquisition := Waiting)
    case Abort =>
      if t.flags.place.Acquiring?
      then RejectTimeout(t.pool).(early := t.pool.early || (t.pool.race.WithClient? && !t.pool.reacted))
      else t.pool
    case AcquireTimeout => RejectTimeout(t.pool)
    case Connected => t.pool.(acquisition := Fulfilled, race := if t.pool.race.Open? then WithClient else t.pool.race)
    case ConnectFailed => t.pool.(acquisition := Refused, race := if t.pool.race.Open? then WithError else t.pool.race)
    case React => t.pool.(reacted := true, releases := t.pool.releases + if t.pool.timedOut then 1 else 0)
    case _ => t.pool
  }

  /** The transaction's side. */
  function FlagsAfter(t: Tx, e: Event): Flags {
    var f := t.flags;
    match e
    case Call(late) => f.(place := if Cancelled(t, late) then NoConnection else Acquiring)
    case Abort => if f.listening then Cancel(f) else f
    case Resume(late) =>
      if t.pool.race.WithError? then f.(place := NoConnection)
      else if Cancelled(t, late) then Catch(f.(listening := t.deadline && !t.aborted))
      else f.(listening := t.deadline && !t.aborted, place := Opening)
    case QueryOk(last) =>
      if f.place.Opening? then f.(started := true, place := Setting)
      else if f.place.Setting? then if last then f.(place := Working) else f
      else if f.place.Committing? then Finish(f.(started := false), Returned)
      else Finish(f.(started := false), Threw)
    case QueryFailed =>
      if !f.place.RollingBack? then Catch(f)
      else if !f.released then Destroy(f).(ending := true, place := AwaitingEnd)
      else Finish(f, Threw)
    case WorkDone(late) =>
      if Cancelled(t, late) then Catch(f) else f.(listening := f.listening && t.readOnly, place := Committing)
    case WorkFailed => Catch(f)
    case WorkCancelled => Catch(f)
    case Ended => Finish(f, Threw)
    case _ => f
  }

  function PastAfter(t: Tx, e: Event): Past {
    match e
    case Abort => t.past.(abortedFirst := t.past.abortedFirst || !t.past.commitSent)
    case WorkDone(late) => if Cancelled(t, late) then t.past else t.past.(commitSent := true)
    case QueryOk(_) =>
      if t.flags.place.Committing? then t.past.(commitAcked := true, open := false)
      else t.past.(open := (t.past.open || t.flags.place.Opening?) && !t.flags.place.RollingBack?)
    case QueryFailed => t.past.(rollbackFailed := t.past.rollbackFailed || t.flags.place.RollingBack?)
    case _ => t.past
  }

  function Happen(t: Tx, e: Event): Tx {
    Tx(t.deadline, t.readOnly, t.aborted || e.Abort?, PoolAfter(t, e), FlagsAfter(t, e), PastAfter(t, e))
  }

  function After(deadline: bool, readOnly: bool, events: seq<Event>): Tx {
    if events == [] then New(deadline, readOnly)
    else
      var before := After(deadline, readOnly, events[..|events| - 1]);
      if Possible(before, events[|events| - 1]) then Happen(before, events[|events| - 1]) else before
  }

  /* ---- what holds ---- */

  predicate Waits(f: Flags) { f.place.Fresh? || f.place.Acquiring? || f.place.NoConnection? }

  predicate Over(f: Flags) { f.place.Returned? || f.place.Threw? }

  predicate InTransaction(f: Flags) { !Waits(f) && !Over(f) }

  predicate Prepares(f: Flags) { f.place.Opening? || f.place.Setting? || f.place.Working? }

  /** The transaction releases once at most, and at its end always. */
  predicate FlagsFit(f: Flags) {
    && f.releases == (if f.released then 1 else 0)
    && (f.cancelling ==> f.ending) && (f.ending ==> f.released)
    && (f.listening ==> InTransaction(f))
    && (f.place.AwaitingEnd? ==> f.ending)
    && (Over(f) ==> f.released)
    && (Waits(f) ==> !f.released && !f.started)
    && (f.destroyed <==> f.ending)
    && (f.released && !f.destroyed ==> !f.started && Over(f))
  }

  /** The reaction releases exactly the connection that the race did not hand out, and one that was handed out
      only when the signal was aborted too early. */
  predicate PoolFits(p: Pool) {
    && (p.race.WithClient? ==> p.acquisition.Fulfilled?)
    && (p.race.Open? ==> !p.acquisition.Fulfilled? && !p.acquisition.Refused? && !p.timedOut)
    && (p.race.WithError? ==> p.timedOut || p.acquisition.Refused?)
    && (p.reacted ==> p.acquisition.Fulfilled?)
    && (p.early ==> p.race.WithClient? && p.timedOut)
    && (p.race.WithClient? && p.timedOut && !p.reacted ==> p.early)
    && p.releases == (if p.reacted && (p.race.WithError? || p.early) then 1 else 0)
  }

  predicate Joined(t: Tx) {
    && (t.flags.place.Fresh? ==> t.pool.acquisition.Unasked?)
    && (t.flags.place.Acquiring? ==> !t.pool.acquisition.Unasked?)
    && (t.flags.place.NoConnection? ==> !t.pool.race.WithClient? && !(t.pool.race.Open? && t.pool.acquisition.Waiting?))
    && (!Waits(t.flags) ==> t.pool.race.WithClient? && (t.deadline ==> t.pool.reacted))
    && (t.pool.reacted || t.pool.timedOut || t.aborted ==> t.deadline)
    && (t.pool.early ==> t.aborted)
  }

  /** Nothing is committed after an abort, and a write's COMMIT is left alone. */
  predicate PastFits(t: Tx) {
    && (t.past.commitAcked ==> t.past.commitSent)
    && (t.flags.place.Returned? <==> t.past.commitAcked)
    && (t.past.open <==> t.flags.started)
    && (t.flags.destroyed ==> t.aborted || t.past.rollbackFailed)
    && (Prepares(t.flags) ==> (t.aborted <==> t.flags.destroyed) && t.flags.listening == (t.deadline && !t.aborted))
    && (Prepares(t.flags) || t.flags.place.Committing? ==> (t.flags.started <==> !t.flags.place.Opening?))
    && (t.past.rollbackFailed ==> t.flags.destroyed && (t.flags.place.AwaitingEnd? || t.flags.place.Threw?))
    && (t.flags.place.Committing? ==> t.past.commitSent)
    && (Waits(t.flags) || Prepares(t.flags) ==> !t.past.commitSent)
    && (t.past.abortedFirst ==> t.aborted && !t.past.commitSent)
    && (t.aborted && !t.past.commitSent ==> t.past.abortedFirst)
    && (t.flags.listening ==> !t.aborted)
    && (t.flags.released && Prepares(t.flags) ==> t.aborted)
    && (t.flags.place.Committing? && !t.readOnly ==> !t.flags.listening && !t.flags.released)
  }

  predicate Holds(t: Tx) { FlagsFit(t.flags) && PoolFits(t.pool) && Joined(t) && PastFits(t) }

  lemma EndsFit(f: Flags, place: Place)
    requires FlagsFit(f) && (place.Returned? || place.Threw?)
    ensures f.destroyed || !f.started ==> FlagsFit(Finish(f, place))
    ensures FlagsFit(Finish(f.(started := false), place))
  {
  }

  lemma CatchFits(f: Flags)
    requires FlagsFit(f) && InTransaction(f)
    ensures FlagsFit(Catch(f))
  {
  }

  lemma FlagsKeep(t: Tx, e: Event)
    requires Holds(t) && Possible(t, e)
    ensures FlagsFit(FlagsAfter(t, e))
  {
    var f := t.flags;
    match e {
      case QueryOk(_) => EndsFit(f, Returned); EndsFit(f, Threw);
      case QueryFailed => CatchFits(f); EndsFit(f, Threw);
      case WorkDone(_) => CatchFits(f);
      case WorkFailed => CatchFits(f);
      case WorkCancelled => CatchFits(f);
      case Ended => EndsFit(f, Threw);
      case _ =>
    }
  }

  lemma PoolKeeps(t: Tx, e: Event)
    requires Holds(t) && Possible(t, e)
    ensures PoolFits(PoolAfter(t, e))
  {
  }

  lemma JoinKeeps(t: Tx, e: Event)
    requires Holds(t) && Possible(t, e)
    ensures Joined(Happen(t, e))
  {
  }

  lemma PastKeeps(t: Tx, e: Event)
    requires Holds(t) && Possible(t, e)
    ensures PastFits(Happen(t, e))
  {
    FlagsKeep(t, e);
  }

  lemma {:induction false} EveryRunHolds(deadline: bool, readOnly: bool, events: seq<Event>)
    ensures Holds(After(deadline, readOnly, events))
    ensures After(deadline, readOnly, events).deadline == deadline && After(deadline, readOnly, events).readOnly == readOnly
  {
    if events != [] {
      var before, last := After(deadline, readOnly, events[..|events| - 1]), events[|events| - 1];
      EveryRunHolds(deadline, readOnly, events[..|events| - 1]);
      if Possible(before, last) {
        FlagsKeep(before, last);
        PoolKeeps(before, last);
        JoinKeeps(before, last);
        PastKeeps(before, last);
      }
    }
  }

  /* ---- the promises ---- */

  /** The call is over, and the reaction to a connection that was handed out has run. */
  predicate Settled(t: Tx) {
    && (t.flags.place.NoConnection? || Over(t.flags))
    && !t.pool.acquisition.Waiting?
    && (t.deadline && t.pool.acquisition.Fulfilled? ==> t.pool.reacted)
  }

  /** On every interleaving each connection that the pool hands out is released, and it is released exactly once
      unless the signal was aborted between the moment the connection won the race and the reaction to it; then
      it is released twice. Without a connection nothing is released. */
  lemma ReleasedExactlyOnce(deadline: bool, readOnly: bool, events: seq<Event>)
    ensures var t := After(deadline, readOnly, events);
      Settled(t) ==>
        && (Releases(t) == 1 <==> t.pool.acquisition.Fulfilled? && !t.pool.early)
        && (t.pool.acquisition.Fulfilled? && t.pool.early ==> Releases(t) == 2)
        && (!t.pool.acquisition.Fulfilled? ==> Releases(t) == 0)
  {
    EveryRunHolds(deadline, readOnly, events);
  }

  /** And never before its time: while the transaction may still send a query nothing was released, except by
      the abort that ended it or by an early one. */
  lemma NotReleasedInUse(deadline: bool, readOnly: bool, events: seq<Event>)
    ensures var t := After(deadline, readOnly, events);
      && (!t.pool.early ==> Releases(t) <= 1)
      && (Prepares(t.flags) && Releases(t) > 0 ==> t.aborted)
      && (t.flags.place.Committing? && !readOnly && !t.pool.early ==> Releases(t) == 0)
  {
    EveryRunHolds(deadline, readOnly, events);
  }

  /** A transaction that returns normally has had its COMMIT acknowledged; one that was aborted before COMMIT
      was sent never sends it. */
  lemma CommitDiscipline(deadline: bool, readOnly: bool, events: seq<Event>)
    ensures var t := After(deadline, readOnly, events);
      && (t.flags.place.Returned? ==> t.past.commitSent && t.past.commitAcked)
      && (t.past.abortedFirst ==> !t.past.commitSent)
  {
    EveryRunHolds(deadline, readOnly, events);
  }

  /** A connection goes back to the pool for reuse only with no transaction open on it; it is destroyed only by an abort
      or after a ROLLBACK that failed, and by an abort at once while the work is prepared or runs. The call returns
      exactly if COMMIT was acknowledged. */
  lemma HandedBackClosed(deadline: bool, readOnly: bool, events: seq<Event>)
    ensures var t := After(deadline, readOnly, events);
      && (t.flags.released && !t.flags.destroyed ==> !t.past.open && Over(t.flags))
      && (t.flags.destroyed ==> t.flags.released && (t.aborted || t.past.rollbackFailed))
      && (Prepares(t.flags) ==> (t.aborted <==> t.flags.destroyed))
      && (t.flags.place.Returned? <==> t.past.commitAcked)
      && (Over(t.flags) && t.past.open ==> t.flags.destroyed)
  {
    EveryRunHolds(deadline, readOnly, events);
  }

  /** From any moment at which the work runs, with no abort and no failure: COMMIT is sent and acknowledged, the call
      returns, and the connection goes back to the pool once. A failure of the work is rolled back instead. */
  lemma UndisturbedWorkCommits(deadline: bool, readOnly: bool, events: seq<Event>)
    requires After(deadline, readOnly, events).flags.place.Working? && !After(deadline, readOnly, events).aborted
    ensures
      var t := After(deadline, readOnly, events);
      var done := Happen(Happen(t, WorkDone(false)), QueryOk(true));
      && Possible(t, WorkDone(false)) && Possible(Happen(t, WorkDone(false)), QueryOk(true))
      && done.flags.place == Returned && done.past.commitAcked && !done.past.open
      && done.flags.releases == 1 && !done.flags.destroyed
    ensures
      var t := After(deadline, readOnly, events);
      var failed := Happen(t, WorkFailed);
      var rolledBack := Happen(failed, QueryOk(true));
      && Possible(t, WorkFailed) && failed.flags.place == RollingBack && Possible(failed, QueryOk(true))
      && rolledBack.flags.place == Threw && !rolledBack.past.open && !rolledBack.past.commitSent
      && rolledBack.flags.releases == 1 && !rolledBack.flags.destroyed
  {
    EveryRunHolds(deadline, readOnly, events);
  }

  /** And the work is reached: a connection that comes, BEGIN and the three settings, each acknowledged. */
  lemma UndisturbedCallWorks(deadline: bool, readOnly: bool)
    ensures
      var taken := Happen(Happen(New(deadline, readOnly), Call(false)), Connected);
      var connected := Happen(if deadline then Happen(taken, React) else taken, Resume(false));
      var begun := Happen(connected, QueryOk(false));
      var working := Happen(Happen(Happen(begun, QueryOk(false)), QueryOk(false)), QueryOk(true));
      && Possible(New(deadline, readOnly), Call(false)) && Possible(Happen(New(deadline, readOnly), Call(false)), Connected)
      && (deadline ==> Possible(taken, React))
      && Possible(if deadline then Happen(taken, React) else taken, Resume(false))
      && connected.flags.place == Opening && begun.flags.place == Setting && begun.past.open
      && working.flags.place == Working && working.past.open && Releases(working) == 0
      && working.flags.listening == deadline && !working.aborted
  {
  }

  lemma OneMore(deadline: bool, readOnly: bool, events: seq<Event>, e: Event)
    requires Possible(After(deadline, readOnly, events), e)
    ensures After(deadline, readOnly, events + [e]) == Happen(After(deadline, readOnly, events), e)
  {
    assert (events + [e])[..|events|] == events;
  }

  /** The run in which a connection is released twice: the abort falls between the acquisition and its reaction. */
  lemma EarlyAbortReleasesTwice(readOnly: bool)
    ensures var t := After(true, readOnly, [Call(false), Connected, Abort, React, Resume(false)]);
      Settled(t) && t.flags.place.Threw? && t.pool.early && Releases(t) == 2
  {
    OneMore(true, readOnly, [], Call(false));
    assert [] + [Call(false)] == [Call(false)];
    OneMore(true, readOnly, [Call(false)], Connected);
    assert [Call(false)] + [Connected] == [Call(false), Connected];
    OneMore(true, readOnly, [Call(false), Connected], Abort);
    assert [Call(false), Connected] + [Abort] == [Call(false), Connected, Abort];
    OneMore(true, readOnly, [Call(false), Connected, Abort], React);
    assert [Call(false), Connected, Abort] + [React] == [Call(false), Connected, Abort, React];
    OneMore(true, readOnly, [Call(false), Connected, Abort, React], Resume(false));
    assert [Call(false), Connected, Abort, React] + [Resume(false)] == [Call(false), Connected, Abort, React, Resume(false)];
  }

  /* ---- the transaction as it runs ---- */

  /** The flags of one call and the callbacks that change them. */
  class Transaction {
    const deadline: bool
    const readOnly: bool
    var aborted: bool
    var place: Place
    var listening: bool
    var started: bool
    var cancelling: bool
    var ending: bool
    var released: bool
    var releases: nat
    var destroyed: bool

    constructor (deadline: bool, readOnly: bool)
      ensures this.deadline == deadline && this.readOnly == readOnly && !aborted
      ensures Contents() == New(deadline, readOnly).flags
    {
      this.deadline, this.readOnly, aborted := deadline, readOnly, false;
      place, listening, started, cancelling, ending, released, releases := Fresh, false, false, false, false, false, 0;
      destroyed := false;
    }

    function Contents(): Flags
      reads this
    {
      Flags(place, listening, started, cancelling, ending, released, releases, destroyed)
    }

    method ReleaseClient()
      modifies this`released, this`releases
      ensures Contents() == Release(old(Contents()))
    {
      released := true;
      releases := releases + 1;
    }

    method DestroyClient()
      modifies this`released, this`releases, this`destroyed
      ensures Contents() == Destroy(old(Contents()))
    {
      ReleaseClient();
      destroyed := true;
    }

    method FinallyBlock(outcome: Place)
      modifies this
      ensures Contents() == Finish(old(Contents()), outcome) && aborted == old(aborted)
    {
      listening := false;
      if !released {
        ReleaseClient();
      }
      place := outcome;
    }

    method CatchBlock()
      modifies this
      ensures Contents() == Catch(old(Contents())) && aborted == old(aborted)
    {
      if ending {
        place := AwaitingEnd;
        return;
      }
      if started {
        place := RollingBack;
        return;
      }
      FinallyBlock(Threw);
    }

    /** The abort listener. */
    method OnAbort()
      requires !place.Acquiring?
      modifies this
      ensures aborted
      ensures Contents() == if old(listening) then Cancel(old(Contents())) else old(Contents())
    {
      aborted := true;
      if !listening {
        return;
      }
      listening := false;
      if released || cancelling {
        return;
      }
      cancelling, ending := true, true;
      DestroyClient();
    }

    method OnConnected(late: bool)
      requires place.Acquiring?
      modifies this
      ensures forall t: Tx | t.deadline == deadline && t.aborted == old(aborted) && t.flags == old(Contents())
                             && t.pool.race.WithClient? :: Contents() == FlagsAfter(t, Resume(late))
    {
      listening := deadline && !aborted;
      if deadline && (aborted || late) {
        CatchBlock();
      } else {
        place := Opening;
      }
    }

    method OnQueryOk(last: bool)
      requires Queries(Contents())
      modifies this
      ensures forall t: Tx | t.flags == old(Contents()) :: Contents() == FlagsAfter(t, QueryOk(last))
    {
      match place {
        case Opening =>
          started, place := true, Setting;
        case Setting =>
          if last {
            place := Working;
          }
        case Committing =>
          started := false;
          FinallyBlock(Returned);
        case RollingBack =>
          started := false;
          FinallyBlock(Threw);
      }
    }

    method OnQueryFailed()
      requires Queries(Contents())
      modifies this
      ensures forall t: Tx | t.flags == old(Contents()) :: Contents() == FlagsAfter(t, QueryFailed)
    {
      if place != RollingBack {
        CatchBlock();
        return;
      }
      if released {
        FinallyBlock(Threw);
        return;
      }
      DestroyClient();
      ending, place := true, AwaitingEnd;
    }

    method OnWorkDone(late: bool)
      requires place.Working?
      modifies this
      ensures forall t: Tx | t.deadline == deadline && t.readOnly == readOnly && t.aborted == old(aborted)
                             && t.flags == old(Contents()) :: Contents() == FlagsAfter(t, WorkDone(late))
    {
      if deadline && (aborted || late) {
        CatchBlock();
        return;
      }
      if !readOnly {
        listening := false;
      }
      place := Committing;
    }
  }
}
