/** Admission of warm jobs by any number of producers: packages/queue/src/producer.ts. Times are milliseconds of
    one clock; the deadline closes a producer's connection, so nothing it sent takes effect afterwards. */
module ProducerAdmission {
  import opened Basics

  type Id = string
  type Producer = nat

  const CAPACITY: nat := 128
  const DEADLINE: int := 1_000
  const RESERVATION: int := 2_000
  const REGISTRY_TTL: int := 3_000

  /** The job lists of the queue, by job id; a finished job keeps its id until it is removed. */
  datatype Jobs = Jobs(wait: set<Id>, active: set<Id>, delayed: set<Id>, prioritized: set<Id>, finished: set<Id>)

  function Outstanding(j: Jobs): set<Id> { j.wait + j.active + j.delayed + j.prioritized }

  /** The reservations with their ends; the registry is itself a key with an expiry. */
  datatype Registry = Registry(ends: map<Id, int>, expiry: int)

  function Live(r: Registry, now: int): set<Id> {
    if r.expiry <= now then {} else set id | id in r.ends && now < r.ends[id]
  }

  /** ZREMRANGEBYSCORE */
  function Purged(r: Registry, now: int): Registry {
    r.(ends := map id | id in Live(r, now) :: r.ends[id])
  }

  datatype Admission = Admitted | Duplicate | Full

  /** The script as one atomic step. */
  function Admit(r: Registry, j: Jobs, id: Id, now: int): (Registry, Admission) {
    var purged := Purged(r, now);
    if id in purged.ends then (purged, Duplicate)
    else if |purged.ends| + |j.wait| + |j.active| + |j.delayed| + |j.prioritized| >= CAPACITY then (purged, Full)
    else (Registry(purged.ends[id := now + RESERVATION], now + REGISTRY_TTL), Admission.Admitted)
  }

  /** How far a producer's run has come: it has looked for the job, holds a reservation, or has enqueued. */
  datatype Phase =
    | Resting
    | Looked(id: Id, started: int)
    | Holding(id: Id, started: int, at: int)
    | Enqueued(id: Id, started: int, at: int)

  datatype System = System(registry: Registry, jobs: Jobs, producers: map<Producer, Phase>, clock: int)

  const START: System := System(Registry(map[], 0), Jobs({}, {}, {}, {}, {}), map[], 0)

  function PhaseOf(s: System, p: Producer): Phase { if p in s.producers then s.producers[p] else Resting }

  predicate InTime(phase: Phase, now: int) { phase.Resting? || now < phase.started + DEADLINE }

  datatype Event =
    | Look(p: Producer, id: Id, started: int)
    | Reserve(p: Producer)
    | Enqueue(p: Producer)
    | Release(p: Producer)
    | Stop(p: Producer)
    | Pick(id: Id) | Retry(id: Id) | Promote(id: Id) | Stall(id: Id) | Finish(id: Id) | Remove(id: Id)

  /** A step at a time; what is not possible in that phase, or comes too late, does nothing. */
  function Happen(s: System, e: Event, now: int): System {
    var t := s.(clock := now);
    match e
    case Look(p, id, started) =>
      if PhaseOf(s, p) != Resting || !(started <= now < started + DEADLINE) || id in Outstanding(s.jobs) then t
      else t.(jobs := s.jobs.(finished := s.jobs.finished - {id}), producers := s.producers[p := Looked(id, started)])
    case Reserve(p) =>
      var phase := PhaseOf(s, p);
      if !phase.Looked? || !InTime(phase, now) then t
      else
        var (registry, admission) := Admit(s.registry, s.jobs, phase.id, now);
        t.(registry := registry,
           producers := s.producers[p := if admission.Admitted? then Holding(phase.id, phase.started, now) else Resting])
    case Enqueue(p) =>
      var phase := PhaseOf(s, p);
      if !phase.Holding? || !InTime(phase, now) then t
      else
        var known := phase.id in Outstanding(s.jobs) + s.jobs.finished;
        t.(jobs := if known then s.jobs else s.jobs.(wait := s.jobs.wait + {phase.id}),
           producers := s.producers[p := Enqueued(phase.id, phase.started, phase.at)])
    case Release(p) =>
      var phase := PhaseOf(s, p);
      if !phase.Enqueued? || !InTime(phase, now) then t
      else
        t.(registry := s.registry.(ends := map id | id in s.registry.ends && id != phase.id :: s.registry.ends[id]),
           producers := s.producers[p := Resting])
    case Stop(p) => t.(producers := s.producers[p := Resting])
    case Pick(id) =>
      if id in s.jobs.wait then t.(jobs := s.jobs.(wait := s.jobs.wait - {id}, active := s.jobs.active + {id}))
      else if id in s.jobs.prioritized then
        t.(jobs := s.jobs.(prioritized := s.jobs.prioritized - {id}, active := s.jobs.active + {id}))
      else t
    case Retry(id) =>
      if id in s.jobs.active then t.(jobs := s.jobs.(active := s.jobs.active - {id}, delayed := s.jobs.delayed + {id})) else t
    case Promote(id) =>
      if id in s.jobs.delayed then t.(jobs := s.jobs.(delayed := s.jobs.delayed - {id}, wait := s.jobs.wait + {id})) else t
    case Stall(id) =>
      if id in s.jobs.active then t.(jobs := s.jobs.(active := s.jobs.active - {id}, wait := s.jobs.wait + {id})) else t
    case Finish(id) =>
      if id in s.jobs.active then t.(jobs := s.jobs.(active := s.jobs.active - {id}, finished := s.jobs.finished + {id})) else t
    case Remove(id) => t.(jobs := s.jobs.(finished := s.jobs.finished - {id}))
  }

  datatype Timed = Timed(event: Event, at: int)

  function After(events: seq<Timed>): System {
    if events == [] then START
    else
      var before, last := After(events[..|events| - 1]), events[|events| - 1];
      if before.clock <= last.at then Happen(before, last.event, last.at) else before
  }

  /* ---- what holds ---- */

  /** A run in time that was admitted still holds its own reservation, and no other such run has it. */
  ghost predicate Reserved(s: System, now: int) {
    && (forall p <- s.producers | Holds(s, p, now) ::
          && s.producers[p].started <= s.producers[p].at
          && s.producers[p].id in s.registry.ends
          && s.registry.ends[s.producers[p].id] == s.producers[p].at + RESERVATION)
    && (forall p, q | p in s.producers && q in s.producers && Holds(s, p, now) && Holds(s, q, now)
                      && s.producers[p].id == s.producers[q].id :: p == q)
    && (forall id <- s.registry.ends :: s.registry.ends[id] <= s.registry.expiry)
    && s.registry.expiry <= now + REGISTRY_TTL
    && (forall p <- s.producers | s.producers[p].Looked? :: s.producers[p].started <= now)
  }

  predicate Holds(s: System, p: Producer, now: int)
    requires p in s.producers
  {
    (s.producers[p].Holding? || s.producers[p].Enqueued?) && InTime(s.producers[p], now)
  }

  ghost predicate Bounded(s: System, now: int) { |Live(s.registry, now) + Outstanding(s.jobs)| <= CAPACITY }

  ghost predicate Sound(s: System, now: int) { Reserved(s, now) && Bounded(s, now) }

  lemma LaterIsSound(s: System, before: int, now: int)
    requires Sound(s, before) && before <= now
    ensures Sound(s, now)
  {
    forall p | p in s.producers && Holds(s, p, now) ensures Holds(s, p, before) {}
    SubsetSize(Live(s.registry, now) + Outstanding(s.jobs), Live(s.registry, before) + Outstanding(s.jobs));
  }

  lemma UnionIsSmaller(a: set<Id>, b: set<Id>)
    ensures |a + b| <= |a| + |b|
  {
  }

  lemma ListsCover(r: set<Id>, j: Jobs)
    ensures |r + Outstanding(j)| <= |r| + |j.wait| + |j.active| + |j.delayed| + |j.prioritized|
  {
    UnionIsSmaller(j.wait, j.active);
    UnionIsSmaller(j.wait + j.active, j.delayed);
    UnionIsSmaller(j.wait + j.active + j.delayed, j.prioritized);
    UnionIsSmaller(r, Outstanding(j));
  }

  lemma PurgedIsLive(r: Registry, now: int)
    ensures Purged(r, now).ends.Keys == Live(r, now) && |Purged(r, now).ends| == |Live(r, now)|
  {
    assert Purged(r, now).ends.Keys == Live(r, now);
  }

  lemma AdmittedAddsOne(r: Registry, j: Jobs, id: Id, now: int)
    ensures var (after, admission) := Admit(r, j, id, now);
      Live(after, now) == if admission.Admitted? then Live(r, now) + {id} else Live(r, now)
  {
  }

  /** An admission adds one id to at most 127. */
  lemma AdmissionIsBounded(r: Registry, j: Jobs, id: Id, now: int)
    requires |Live(r, now) + Outstanding(j)| <= CAPACITY
    ensures var after := Admit(r, j, id, now).0; |Live(after, now) + Outstanding(j)| <= CAPACITY
  {
    PurgedIsLive(r, now);
    AdmittedAddsOne(r, j, id, now);
    ListsCover(Live(r, now), j);
    UnionIsSmaller(Live(r, now) + Outstanding(j), {id});
    assert Live(r, now) + {id} + Outstanding(j) == Live(r, now) + Outstanding(j) + {id};
  }

  lemma HolderIsLive(s: System, p: Producer, now: int)
    requires Reserved(s, now) && p in s.producers && Holds(s, p, now)
    ensures s.producers[p].id in Live(s.registry, now)
  {
  }

  lemma PurgeKeepsReserved(s: System, now: int)
    requires Reserved(s, now)
    ensures Reserved(s.(registry := Purged(s.registry, now)), now)
  {
    var t := s.(registry := Purged(s.registry, now));
    forall p | p in t.producers && Holds(t, p, now) ensures Holds(s, p, now) && t.producers[p].id in t.registry.ends {
      HolderIsLive(s, p, now);
    }
  }

  lemma RestingKeepsReserved(s: System, p: Producer, now: int)
    requires Reserved(s, now)
    ensures Reserved(s.(producers := s.producers[p := Resting], clock := now), now)
  {
    var t := s.(producers := s.producers[p := Resting], clock := now);
    forall q | q in t.producers && Holds(t, q, now) ensures q in s.producers && Holds(s, q, now) && q != p {}
  }

  /** A reservation that nobody has goes to the run that was admitted. */
  lemma HoldingKeepsReserved(s: System, p: Producer, id: Id, started: int, now: int)
    requires Reserved(s, now) && id !in s.registry.ends && started <= now
    requires s.registry.expiry <= now + REGISTRY_TTL
    ensures Reserved(s.(registry := Registry(s.registry.ends[id := now + RESERVATION], now + REGISTRY_TTL),
                        producers := s.producers[p := Holding(id, started, now)], clock := now), now)
  {
    var t := s.(registry := Registry(s.registry.ends[id := now + RESERVATION], now + REGISTRY_TTL),
                producers := s.producers[p := Holding(id, started, now)], clock := now);
    forall q | q in t.producers && Holds(t, q, now) && q != p
      ensures q in s.producers && Holds(s, q, now) && s.producers[q].id != id {}
  }

  lemma ReserveKeepsReserved(s: System, p: Producer, now: int)
    requires Reserved(s, now) && PhaseOf(s, p).Looked? && PhaseOf(s, p).started <= now
    requires InTime(PhaseOf(s, p), now) && s.registry.expiry <= now + REGISTRY_TTL
    ensures Reserved(Happen(s, Reserve(p), now), now)
  {
    var phase, purged := PhaseOf(s, p), s.(registry := Purged(s.registry, now));
    PurgeKeepsReserved(s, now);
    if Admit(s.registry, s.jobs, phase.id, now).1.Admitted? {
      HoldingKeepsReserved(purged, p, phase.id, phase.started, now);
    } else {
      RestingKeepsReserved(purged, p, now);
    }
  }

  lemma ReserveKeeps(s: System, p: Producer, now: int)
    requires Sound(s, now) && s.clock <= now
    ensures Sound(Happen(s, Reserve(p), now), now)
  {
    var phase := PhaseOf(s, p);
    if phase.Looked? && InTime(phase, now) {
      AdmissionIsBounded(s.registry, s.jobs, phase.id, now);
      ReserveKeepsReserved(s, p, now);
    }
  }

  /** An enqueue lands inside its own reservation. */
  lemma EnqueueIsReserved(s: System, p: Producer, now: int)
    requires Reserved(s, now) && PhaseOf(s, p).Holding? && InTime(PhaseOf(s, p), now)
    ensures PhaseOf(s, p).id in Live(s.registry, now)
  {
    assert Holds(s, p, now);
  }

  lemma EnqueueKeepsReserved(s: System, p: Producer, now: int)
    requires Reserved(s, now)
    ensures Reserved(Happen(s, Enqueue(p), now), now)
  {
    var t := Happen(s, Enqueue(p), now);
    forall q | q in t.producers && Holds(t, q, now) ensures q in s.producers && Holds(s, q, now) {}
  }

  lemma EnqueueKeeps(s: System, p: Producer, now: int)
    requires Sound(s, now)
    ensures Sound(Happen(s, Enqueue(p), now), now)
  {
    var phase, t := PhaseOf(s, p), Happen(s, Enqueue(p), now);
    if phase.Holding? && InTime(phase, now) {
      EnqueueIsReserved(s, p, now);
      assert Live(t.registry, now) + Outstanding(t.jobs) == Live(s.registry, now) + Outstanding(s.jobs);
    }
    EnqueueKeepsReserved(s, p, now);
  }

  lemma ReleaseKeeps(s: System, p: Producer, now: int)
    requires Sound(s, now) && s.clock <= now
    ensures Sound(Happen(s, Release(p), now), now)
  {
    var phase, t := PhaseOf(s, p), Happen(s, Release(p), now);
    if phase.Enqueued? && InTime(phase, now) {
      assert Holds(s, p, now);
      SubsetSize(Live(t.registry, now) + Outstanding(t.jobs), Live(s.registry, now) + Outstanding(s.jobs));
      forall q | q in t.producers && Holds(t, q, now) ensures Holds(s, q, now) && q != p {}
    }
  }

  predicate Moves(e: Event) { !e.Reserve? && !e.Enqueue? && !e.Release? }

  lemma MovesAddNothing(s: System, e: Event, now: int)
    requires Moves(e)
    ensures var t := Happen(s, e, now); Outstanding(t.jobs) <= Outstanding(s.jobs) && t.registry == s.registry
  {
  }

  /** No move brings a run into possession of a reservation. */
  lemma MovesGiveNothing(s: System, e: Event, now: int, q: Producer)
    requires Moves(e)
    ensures var t := Happen(s, e, now);
      && (q in t.producers && (t.producers[q].Holding? || t.producers[q].Enqueued?) ==>
            q in s.producers && t.producers[q] == s.producers[q])
      && (q in t.producers && t.producers[q].Looked? ==>
            t.producers[q].started <= now || (q in s.producers && t.producers[q] == s.producers[q]))
  {
  }

  lemma MovesKeepReserved(s: System, e: Event, now: int)
    requires Reserved(s, now) && Moves(e)
    ensures Reserved(Happen(s, e, now), now)
  {
    MovesAddNothing(s, e, now);
    var t := Happen(s, e, now);
    forall q
      ensures q in t.producers && Holds(t, q, now) ==> q in s.producers && t.producers[q] == s.producers[q]
      ensures q in t.producers && t.producers[q].Looked? ==> t.producers[q].started <= now
    {
      MovesGiveNothing(s, e, now, q);
    }
  }

  lemma MovesKeep(s: System, e: Event, now: int)
    requires Sound(s, now) && Moves(e)
    ensures Sound(Happen(s, e, now), now)
  {
    var t := Happen(s, e, now);
    MovesAddNothing(s, e, now);
    SubsetSize(Live(t.registry, now) + Outstanding(t.jobs), Live(s.registry, now) + Outstanding(s.jobs));
    MovesKeepReserved(s, e, now);
  }

  lemma EventKeeps(s: System, e: Event, now: int)
    requires Sound(s, s.clock) && s.clock <= now
    ensures Sound(Happen(s, e, now), now)
  {
    LaterIsSound(s, s.clock, now);
    if e.Reserve? {
      ReserveKeeps(s, e.p, now);
    } else if e.Enqueue? {
      EnqueueKeeps(s, e.p, now);
    } else if e.Release? {
      ReleaseKeeps(s, e.p, now);
    } else {
      MovesKeep(s, e, now);
    }
  }

  lemma ClockIs(s: System, e: Event, now: int)
    ensures Happen(s, e, now).clock == now
  {
  }

  /** For any number of interleaved producers and worker moves, outstanding jobs and live reservations never
      exceed 128 different ids together. */
  lemma {:induction false} OutstandingIsBounded(events: seq<Timed>)
    ensures Sound(After(events), After(events).clock)
  {
    if events != [] {
      var before, last := After(events[..|events| - 1]), events[|events| - 1];
      OutstandingIsBounded(events[..|events| - 1]);
      if before.clock <= last.at {
        EventKeeps(before, last.event, last.at);
        ClockIs(before, last.event, last.at);
      }
    }
  }

  lemma NeverOverCapacity(events: seq<Timed>, now: int)
    requires After(events).clock <= now
    ensures |Live(After(events).registry, now) + Outstanding(After(events).jobs)| <= 128
    ensures |Outstanding(After(events).jobs)| <= 128
  {
    OutstandingIsBounded(events);
    LaterIsSound(After(events), After(events).clock, now);
    SubsetSize(Outstanding(After(events).jobs), Live(After(events).registry, now) + Outstanding(After(events).jobs));
  }

  /* ---- who is admitted, and what becomes of the job ---- */

  /** The ids that are reserved at `t` after the events: those admitted less than two seconds before and not released
      since. */
  function Reservations(events: seq<Timed>, t: int): set<Id> {
    if events == [] then {}
    else
      var front, last := events[..|events| - 1], events[|events| - 1];
      var before, earlier := After(front), Reservations(front, t);
      if last.at < before.clock then earlier
      else
        match last.event
        case Reserve(p) =>
          if PhaseOf(Happen(before, last.event, last.at), p).Holding? && PhaseOf(before, p).Looked? && t < last.at + 2_000
          then earlier + {PhaseOf(before, p).id} else earlier
        case Release(p) =>
          if PhaseOf(before, p).Enqueued? && last.at < PhaseOf(before, p).started + 1_000
          then earlier - {PhaseOf(before, p).id} else earlier
        case _ => earlier
  }

  /** A job is in one list at most. */
  predicate Single(j: Jobs) {
    && j.wait !! j.active && j.wait !! j.delayed && j.wait !! j.prioritized && j.wait !! j.finished
    && j.active !! j.delayed && j.active !! j.prioritized && j.active !! j.finished
    && j.delayed !! j.prioritized && j.delayed !! j.finished && j.prioritized !! j.finished
  }

  lemma EventKeepsSingle(s: System, e: Event, now: int)
    requires Single(s.jobs)
    ensures Single(Happen(s, e, now).jobs)
  {
  }

  lemma SizeOfOutstanding(j: Jobs)
    requires Single(j)
    ensures |Outstanding(j)| == |j.wait| + |j.active| + |j.delayed| + |j.prioritized|
  {
    assert |j.wait + j.active| == |j.wait| + |j.active|;
    assert |j.wait + j.active + j.delayed| == |j.wait + j.active| + |j.delayed|;
  }

  lemma {:induction false} EveryJobIsSingle(events: seq<Timed>)
    ensures Single(After(events).jobs)
  {
    if events != [] {
      EveryJobIsSingle(events[..|events| - 1]);
      if After(events[..|events| - 1]).clock <= events[|events| - 1].at {
        EventKeepsSingle(After(events[..|events| - 1]), events[|events| - 1].event, events[|events| - 1].at);
      }
    }
  }

  lemma PurgedLives(r: Registry, now: int, t: int)
    requires now <= t
    ensures Live(Purged(r, now), t) == Live(r, t)
  {
  }

  lemma AddedLives(r: Registry, id: Id, now: int, t: int)
    requires now <= t && id !in r.ends && r.expiry <= now + REGISTRY_TTL && forall k <- r.ends :: r.ends[k] <= r.expiry
    ensures Live(Registry(r.ends[id := now + RESERVATION], now + REGISTRY_TTL), t)
         == if t < now + 2_000 then Live(r, t) + {id} else Live(r, t)
  {
  }

  lemma AdmitReserves(r: Registry, j: Jobs, id: Id, now: int, t: int)
    requires now <= t && r.expiry <= now + REGISTRY_TTL && forall k <- r.ends :: r.ends[k] <= r.expiry
    ensures var (after, admission) := Admit(r, j, id, now);
      Live(after, t) == if admission.Admitted? && t < now + 2_000 then Live(r, t) + {id} else Live(r, t)
  {
    PurgedLives(r, now, t);
    if Admit(r, j, id, now).1.Admitted? {
      AddedLives(Purged(r, now), id, now, t);
    }
  }

  lemma EventReserves(s: System, e: Event, now: int, t: int)
    requires Reserved(s, s.clock) && s.clock <= now <= t
    ensures
      Live(Happen(s, e, now).registry, t) ==
      match e
      case Reserve(p) =>
        if PhaseOf(Happen(s, e, now), p).Holding? && PhaseOf(s, p).Looked? && t < now + 2_000
        then Live(s.registry, t) + {PhaseOf(s, p).id} else Live(s.registry, t)
      case Release(p) =>
        if PhaseOf(s, p).Enqueued? && now < PhaseOf(s, p).started + 1_000
        then Live(s.registry, t) - {PhaseOf(s, p).id} else Live(s.registry, t)
      case _ => Live(s.registry, t)
  {
    if e.Reserve? && PhaseOf(s, e.p).Looked? {
      AdmitReserves(s.registry, s.jobs, PhaseOf(s, e.p).id, now, t);
    }
  }

  lemma {:induction false} ReservationsAreLive(events: seq<Timed>, t: int)
    requires After(events).clock <= t
    ensures Live(After(events).registry, t) == Reservations(events, t)
  {
    if events != [] {
      var front, last := events[..|events| - 1], events[|events| - 1];
      OutstandingIsBounded(front);
      if After(front).clock <= last.at {
        ClockIs(After(front), last.event, last.at);
        EventReserves(After(front), last.event, last.at, t);
      }
      ReservationsAreLive(front, t);
    }
  }

  /** A run that has looked and is in time is admitted exactly when its job is not reserved, and reservations and
      outstanding jobs are fewer than 128. */
  lemma AdmissionIsExact(events: seq<Timed>, p: Producer, now: int)
    requires After(events).clock <= now && PhaseOf(After(events), p).Looked?
    requires now < PhaseOf(After(events), p).started + 1_000
    ensures
      var s, reserved := After(events), Reservations(events, now);
      var Looked(id, started) := PhaseOf(s, p);
      PhaseOf(Happen(s, Reserve(p), now), p) ==
      if id !in reserved && |reserved| + |Outstanding(s.jobs)| < 128 then Holding(id, started, now) else Resting
    ensures
      var id, t := PhaseOf(After(events), p).id, Happen(After(events), Reserve(p), now);
      PhaseOf(t, p) != Resting ==> t.registry.expiry == now + 3_000 && id in t.registry.ends && t.registry.ends[id] == now + 2_000
  {
    var s := After(events);
    ReservationsAreLive(events, now);
    EveryJobIsSingle(events);
    SizeOfOutstanding(s.jobs);
    PurgedIsLive(s.registry, now);
  }

  lemma LookFinds(s: System, p: Producer, id: Id, started: int, now: int)
    requires PhaseOf(s, p) == Resting && id !in Outstanding(s.jobs) && started <= now < started + 1_000
    ensures Happen(s, Look(p, id, started), now)
         == System(s.registry, s.jobs.(finished := s.jobs.finished - {id}), s.producers[p := Looked(id, started)], now)
  {
  }

  lemma ReserveIsAdmitted(s: System, p: Producer, now: int)
    requires PhaseOf(s, p).Looked? && now < PhaseOf(s, p).started + 1_000 && Single(s.jobs)
    requires PhaseOf(s, p).id !in Live(s.registry, now) && |Live(s.registry, now)| + |Outstanding(s.jobs)| < 128
    ensures var t, phase := Happen(s, Reserve(p), now), PhaseOf(s, p);
      t == System(t.registry, s.jobs, s.producers[p := Holding(phase.id, phase.started, now)], now)
  {
    SizeOfOutstanding(s.jobs);
    PurgedIsLive(s.registry, now);
  }

  lemma EnqueueWaits(s: System, p: Producer, now: int)
    requires PhaseOf(s, p).Holding? && now < PhaseOf(s, p).started + 1_000
    requires PhaseOf(s, p).id !in Outstanding(s.jobs) && PhaseOf(s, p).id !in s.jobs.finished
    ensures var phase := PhaseOf(s, p);
      Happen(s, Enqueue(p), now) == System(
        s.registry, s.jobs.(wait := s.jobs.wait + {phase.id}),
        s.producers[p := Enqueued(phase.id, phase.started, phase.at)], now)
  {
  }

  lemma ReleaseForgets(s: System, p: Producer, now: int)
    requires PhaseOf(s, p).Enqueued? && now < PhaseOf(s, p).started + 1_000
    ensures var t := Happen(s, Release(p), now);
      t == System(t.registry, s.jobs, s.producers[p := Resting], now) && PhaseOf(s, p).id !in t.registry.ends
  {
  }

  /** What becomes of a job that nobody has: looked for, reserved, enqueued and released within a second, it waits
      once, whatever was finished under its id is gone, and no reservation of it is left. */
  lemma JobIsScheduled(s: System, p: Producer, id: Id, started: int, a: int, b: int, c: int, d: int)
    requires Single(s.jobs) && PhaseOf(s, p) == Resting && id !in Outstanding(s.jobs)
    requires started <= a <= b <= c <= d < started + 1_000
    requires id !in Live(s.registry, b) && |Live(s.registry, b)| + |Outstanding(s.jobs)| < 128
    ensures
      var t := Happen(Happen(Happen(Happen(s, Look(p, id, started), a), Reserve(p), b), Enqueue(p), c), Release(p), d);
      && t.jobs == s.jobs.(wait := s.jobs.wait + {id}, finished := s.jobs.finished - {id})
      && PhaseOf(t, p) == Resting && id !in t.registry.ends
      && (forall q: Producer | q != p :: PhaseOf(t, q) == PhaseOf(s, q))
  {
    LookFinds(s, p, id, started, a);
    var looked := Happen(s, Look(p, id, started), a);
    assert Outstanding(looked.jobs) == Outstanding(s.jobs);
    ReserveIsAdmitted(looked, p, b);
    var held := Happen(looked, Reserve(p), b);
    EnqueueWaits(held, p, c);
    ReleaseForgets(Happen(held, Enqueue(p), c), p, d);
  }

  datatype Whereabouts = Nowhere | Waiting | Active | Delayed | Prioritized | Finished

  function Where(j: Jobs, id: Id): Whereabouts {
    if id in j.wait then Waiting
    else if id in j.active then Active
    else if id in j.delayed then Delayed
    else if id in j.prioritized then Prioritized
    else if id in j.finished then Finished
    else Nowhere
  }

  /** Where a move takes its job from there; what is somewhere else stays. */
  function Taken(e: Event, from: Whereabouts): Whereabouts {
    match e
    case Pick(_) => if from == Waiting || from == Prioritized then Active else from
    case Retry(_) => if from == Active then Delayed else from
    case Promote(_) => if from == Delayed then Waiting else from
    case Stall(_) => if from == Active then Waiting else from
    case Finish(_) => if from == Active then Finished else from
    case Remove(_) => if from == Finished then Nowhere else from
    case _ => from
  }

  /** A worker's move takes its own job from one list to the next and loses none; no other job is moved. */
  lemma MovesLoseNothing(s: System, e: Event, now: int, id: Id)
    requires Single(s.jobs) && (e.Pick? || e.Retry? || e.Promote? || e.Stall? || e.Finish? || e.Remove?)
    ensures Where(Happen(s, e, now).jobs, id) == if id == e.id then Taken(e, Where(s.jobs, id)) else Where(s.jobs, id)
    ensures Happen(s, e, now).producers == s.producers && Happen(s, e, now).registry == s.registry
  {
  }

  /** What is outstanding, or comes too late, is left alone; a run that stops leaves its reservation to expire. */
  lemma NothingIsScheduled(s: System, p: Producer, id: Id, started: int, now: int)
    requires PhaseOf(s, p) == Resting
    ensures id in Outstanding(s.jobs) || !(started <= now < started + 1_000) ==>
      Happen(s, Look(p, id, started), now) == s.(clock := now)
    ensures var t := Happen(s, Stop(p), now);
      t.jobs == s.jobs && t.registry == s.registry && forall q: Producer | q != p :: PhaseOf(t, q) == PhaseOf(s, q)
  {
  }

  /* ---- the script as it runs ---- */

  class AdmissionScript {
    var registry: Registry
    var jobs: Jobs

    method Run(id: Id, now: int) returns (admission: Admission)
      modifies this`registry
      ensures (registry, admission) == Admit(old(registry), jobs, id, now)
    {
      registry := Purged(registry, now);
      if id in registry.ends {
        return Duplicate;
      }
      var count := |registry.ends| + |jobs.wait| + |jobs.active| + |jobs.delayed| + |jobs.prioritized|;
      if count >= CAPACITY {
        return Full;
      }
      registry := Registry(registry.ends[id := now + RESERVATION], now + REGISTRY_TTL);
      return Admission.Admitted;
    }
  }
}
