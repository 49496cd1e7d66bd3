/** The latest read wins: apps/web/src/state/latest-read.ts. */
module LatestRead {
  import opened Basics

  /** One call of the loader with what its callbacks captured; `cleaned` is history: its finally block has run. */
  datatype Load = Load(generation: nat, aborted: bool, settled: bool, cleaned: bool)

  datatype InFlight = InFlight(load: nat, generation: nat)

  /** `loads` are all loads ever started; `cancelled` is history: cancel was called since the last start. */
  datatype Reader = Reader(generation: nat, inFlight: Option<InFlight>, loads: seq<Load>, cancelled: bool)

  const START: Reader := Reader(0, None, [], false)

  function Abort(r: Reader): Reader {
    if r.inFlight.Some? && r.inFlight.value.load < |r.loads|
    then r.(loads := r.loads[r.inFlight.value.load := r.loads[r.inFlight.value.load].(aborted := true)])
    else r
  }

  function Cancel(r: Reader): Reader {
    Abort(r).(generation := r.generation + 1, inFlight := None, cancelled := true)
  }

  /** A run joins the read in flight unless it is to replace it. */
  function Run(r: Reader, replace: bool): Reader {
    if !replace && r.inFlight.Some? then r
    else
      var s := if replace then Abort(r) else r;
      Reader(r.generation + 1, Some(InFlight(|s.loads|, r.generation + 1)),
             s.loads + [Load(r.generation + 1, false, false, false)], false)
  }

  /** Whether the value of a load is accepted when it arrives. */
  predicate Accepted(r: Reader, n: nat)
    requires n < |r.loads|
  {
    r.loads[n].generation == r.generation && !r.loads[n].aborted
  }

  function Settle(r: Reader, n: nat): Reader
    requires n < |r.loads|
  {
    r.(loads := r.loads[n := r.loads[n].(settled := true)])
  }

  /** The finally block. */
  function CleanUp(r: Reader, n: nat): Reader
    requires n < |r.loads|
  {
    var s := r.(loads := r.loads[n := r.loads[n].(cleaned := true)]);
    if r.inFlight.Some? && r.inFlight.value.generation == r.loads[n].generation then s.(inFlight := None) else s
  }

  datatype Event = Ran(replace: bool) | WasCancelled | Settled(n: nat) | CleanedUp(n: nat)

  predicate Possible(r: Reader, e: Event) {
    match e
    case Settled(n) => n < |r.loads| && !r.loads[n].settled
    case CleanedUp(n) => n < |r.loads| && r.loads[n].settled
    case _ => true
  }

  function Happen(r: Reader, e: Event): Reader
    requires Possible(r, e)
  {
    match e
    case Ran(replace) => Run(r, replace)
    case WasCancelled => Cancel(r)
    case Settled(n) => Settle(r, n)
    case CleanedUp(n) => CleanUp(r, n)
  }

  function After(events: seq<Event>): Reader {
    if events == [] then START
    else
      var before := After(events[..|events| - 1]);
      if Possible(before, events[|events| - 1]) then Happen(before, events[|events| - 1]) else before
  }

  /** The load that was started last was not cancelled, and its finally block has not run. */
  predicate UnderWay(r: Reader) { r.loads != [] && !r.cancelled && !r.loads[|r.loads| - 1].cleaned }

  ghost predicate Holds(r: Reader) {
    && (r.inFlight.Some? ==>
          && r.inFlight.value.load + 1 == |r.loads| && r.inFlight.value.generation == r.generation
          && r.loads[r.inFlight.value.load].generation == r.generation && !r.loads[r.inFlight.value.load].aborted
          && !r.cancelled)
    && (forall n | 0 <= n < |r.loads| :: r.loads[n].generation <= r.generation)
    && (forall m, n | 0 <= m < n < |r.loads| :: r.loads[m].generation < r.loads[n].generation)
    && (forall n | 0 <= n < |r.loads| && !r.loads[n].aborted && !r.loads[n].settled ::
          r.inFlight.Some? && r.inFlight.value.load == n)
    && (r.loads != [] && !r.cancelled ==>
          r.loads[|r.loads| - 1].generation == r.generation && !r.loads[|r.loads| - 1].aborted)
    && (r.loads != [] && r.cancelled ==> r.loads[|r.loads| - 1].generation < r.generation)
    && (r.inFlight.Some? <==> UnderWay(r))
    && (forall n | 0 <= n < |r.loads| && r.loads[n].cleaned :: r.loads[n].settled)
  }

  lemma RunKeeps(r: Reader, replace: bool)
    requires Holds(r)
    ensures Holds(Run(r, replace))
  {
  }

  lemma CancelKeeps(r: Reader)
    requires Holds(r)
    ensures Holds(Cancel(r))
  {
  }

  lemma EndKeeps(r: Reader, n: nat)
    requires Holds(r) && n < |r.loads|
    ensures Holds(Settle(r, n)) && (r.loads[n].settled ==> Holds(CleanUp(r, n)))
  {
  }

  lemma EventKeeps(r: Reader, e: Event)
    requires Holds(r) && Possible(r, e)
    ensures Holds(Happen(r, e))
  {
    match e {
      case Ran(replace) => RunKeeps(r, replace);
      case WasCancelled => CancelKeeps(r);
      case Settled(n) => EndKeeps(r, n);
      case CleanedUp(n) => EndKeeps(r, n);
    }
  }

  lemma {:induction false} EveryRunHolds(events: seq<Event>)
    ensures Holds(After(events))
  {
    if events != [] {
      EveryRunHolds(events[..|events| - 1]);
      var before := After(events[..|events| - 1]);
      if Possible(before, events[|events| - 1]) {
        EventKeeps(before, events[|events| - 1]);
      }
    }
  }

  /** In every interleaving: the value of a load is accepted exactly when no later load was started and nothing
      was cancelled before it arrived; at most one load is pending without having been aborted; and the read in
      flight carries the current generation. */
  lemma LatestReadWins(events: seq<Event>)
    ensures var r := After(events);
      && (forall n | 0 <= n < |r.loads| :: Accepted(r, n) <==> n == |r.loads| - 1 && !r.cancelled)
      && (forall m, n | 0 <= m < |r.loads| && 0 <= n < |r.loads| && !r.loads[m].aborted && !r.loads[m].settled
                        && !r.loads[n].aborted && !r.loads[n].settled :: m == n)
      && (r.inFlight.Some? ==> r.inFlight.value.generation == r.generation)
  {
    EveryRunHolds(events);
  }

  /** Which loads are started and aborted: a run joins the one under way, unless it is to replace it, and otherwise
      starts one; only the load under way is ever aborted, by a replacement or by a cancellation. */
  lemma LoadsAreStarted(events: seq<Event>, e: Event)
    requires e.Ran? || e.WasCancelled?
    ensures
      var r := After(events);
      var s := Happen(r, e);
      && (e == Ran(false) && UnderWay(r) ==> s == r)
      && (e.Ran? && !(e == Ran(false) && UnderWay(r)) ==>
            && |s.loads| == |r.loads| + 1 && UnderWay(s) && s.inFlight.value.load == |r.loads|
            && !s.loads[|r.loads|].aborted && !s.loads[|r.loads|].settled)
      && (e.WasCancelled? ==> |s.loads| == |r.loads| && !UnderWay(s))
      && (forall n | 0 <= n < |r.loads| ::
            s.loads[n] == if UnderWay(r) && n == |r.loads| - 1 && e != Ran(false) then r.loads[n].(aborted := true)
                          else r.loads[n])
  {
    EveryRunHolds(events);
  }

  /* ---- the object as it runs ---- */

  class LatestReader {
    var generation: nat
    var inFlight: Option<InFlight>
    var loads: seq<Load>
    var cancelled: bool

    constructor ()
      ensures Contents() == START
    {
      generation, inFlight, loads, cancelled := 0, None, [], false;
    }

    function Contents(): Reader
      reads this
    {
      Reader(generation, inFlight, loads, cancelled)
    }

    method AbortInFlight()
      modifies this`loads
      ensures Contents() == Abort(old(Contents()))
    {
      if inFlight.Some? && inFlight.value.load < |loads| {
        loads := loads[inFlight.value.load := loads[inFlight.value.load].(aborted := true)];
      }
    }

    method CancelRead()
      modifies this
      ensures Contents() == Cancel(old(Contents()))
    {
      generation := generation + 1;
      AbortInFlight();
      inFlight, cancelled := None, true;
    }

    /** Returns the number of the load whose promise the caller gets. */
    method StartRead(replace: bool) returns (load: nat)
      modifies this
      ensures Contents() == Run(old(Contents()), replace)
      ensures inFlight.Some? && load == inFlight.value.load
    {
      if !replace && inFlight.Some? {
        return inFlight.value.load;
      }
      if replace {
        AbortInFlight();
      }
      generation := generation + 1;
      load := |loads|;
      loads := loads + [Load(generation, false, false, false)];
      inFlight, cancelled := Some(InFlight(load, generation)), false;
    }

    method OnSettled(n: nat) returns (accepted: bool)
      requires n < |loads|
      modifies this
      ensures Contents() == Settle(old(Contents()), n)
      ensures accepted == Accepted(old(Contents()), n)
    {
      accepted := loads[n].generation == generation && !loads[n].aborted;
      loads := loads[n := loads[n].(settled := true)];
    }

    method OnFinally(n: nat)
      requires n < |loads|
      modifies this
      ensures Contents() == CleanUp(old(Contents()), n)
    {
      if inFlight.Some? && inFlight.value.generation == loads[n].generation {
        inFlight := None;
      }
      loads := loads[n := loads[n].(cleaned := true)];
    }
  }
}
