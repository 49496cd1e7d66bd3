/** The replica-local limiter in front of the shared one: apps/api/src/security/rate-limit.ts. */
module LocalLimiter {
  import opened Basics
  import opened Division

  datatype Counter = SessionCounter | AutocompleteCounter | MutationCounter

  datatype Config = Config(
    windowMs: int, ipCapacity: nat, guestCapacity: nat, sessionsPerIp: nat, autocompletePerIp: nat,
    mutationsPerIp: nat, autocompletePerGuest: nat, mutationsPerGuest: nat)

  datatype Entry = Entry(autocomplete: nat, mutation: nat, session: nat)

  const EMPTY: Entry := Entry(0, 0, 0)

  function Of(e: Entry, c: Counter): nat {
    match c
    case SessionCounter => e.session
    case AutocompleteCounter => e.autocomplete
    case MutationCounter => e.mutation
  }

  function Raised(e: Entry, c: Counter): Entry {
    match c
    case SessionCounter => e.(session := e.session + 1)
    case AutocompleteCounter => e.(autocomplete := e.autocomplete + 1)
    case MutationCounter => e.(mutation := e.mutation + 1)
  }

  datatype Window = Window(bucket: int, entries: map<string, Entry>)

  function Turned(w: Window, bucket: int): Window { if w.bucket == bucket then w else Window(bucket, map[]) }

  function EntryOf(w: Window, identity: string): Entry { if identity in w.entries then w.entries[identity] else EMPTY }

  predicate Refuses(w: Window, capacity: nat, identity: string, c: Counter, limit: nat) {
    (identity !in w.entries && |w.entries| >= capacity) || Of(EntryOf(w, identity), c) >= limit
  }

  function Counted(w: Window, identity: string, c: Counter): Window {
    w.(entries := w.entries[identity := Raised(EntryOf(w, identity), c)])
  }

  datatype Replica = Replica(ips: Window, guests: Window)

  const START: Replica := Replica(Window(-1, map[]), Window(-1, map[]))

  /** Whose requests an entry counts: of an address, or of a guest. */
  datatype Identity = Identity(guest: bool, name: string, counter: Counter)

  function Limit(config: Config, id: Identity): nat {
    match id.counter
    case SessionCounter => config.sessionsPerIp
    case AutocompleteCounter => if id.guest then config.autocompletePerGuest else config.autocompletePerIp
    case MutationCounter => if id.guest then config.mutationsPerGuest else config.mutationsPerIp
  }

  datatype Shared = NotConfigured | Degraded | SharedAllowed | SharedDenied(retryAfter: int)

  /** A limited request is told in how many seconds to come again. */
  datatype Verdict = Passed | Limited(retryAfter: int) | Unauthenticated

  /** A request of a counted kind; only the creation of a session needs no guest. */
  datatype Call = Call(counter: Counter, ip: string, guest: Option<string>, now: int, shared: Shared)

  predicate HasGuest(c: Call) { !c.counter.SessionCounter? && c.guest.Some? }

  /** The local part: both windows turn, all checks are made, and only then both entries are raised. */
  function Admit(config: Config, r: Replica, c: Call): (Replica, bool)
    requires config.windowMs > 0
  {
    var bucket := c.now / config.windowMs;
    var t := Replica(Turned(r.ips, bucket), Turned(r.guests, bucket));
    if Refuses(t.ips, config.ipCapacity, c.ip, c.counter, Limit(config, Identity(false, c.ip, c.counter)))
       || (HasGuest(c)
           && Refuses(t.guests, config.guestCapacity, c.guest.value, c.counter, Limit(config, Identity(true, c.guest.value, c.counter))))
    then (t, false)
    else
      (Replica(Counted(t.ips, c.ip, c.counter),
               if HasGuest(c) then Counted(t.guests, c.guest.value, c.counter) else t.guests), true)
  }

  /** The whole seconds up to the end of the window, rounded up, and at least one. */
  function RetryAfter(config: Config, now: int): int
    requires config.windowMs > 0
  {
    var left := (now / config.windowMs + 1) * config.windowMs - now;
    if left <= 1_000 then 1 else (left + 999) / 1_000
  }

  /** Who waits as long as told finds the next window, and who waits a second less does not. */
  lemma RetryAfterIsExact(config: Config, now: int)
    requires config.windowMs > 0 && now >= 0
    ensures var bucket, seconds := now / config.windowMs, RetryAfter(config, now);
      && seconds >= 1
      && (now + 1_000 * seconds) / config.windowMs > bucket
      && (now + 1_000 * (seconds - 1)) / config.windowMs == bucket
  {
    var w, bucket, seconds := config.windowMs, now / config.windowMs, RetryAfter(config, now);
    QuotientBounds(now, w);
    QuotientUnique((bucket + 1) * w, w, bucket + 1);
    DivideMonotone((bucket + 1) * w, now + 1_000 * seconds, w);
    QuotientUnique(now + 1_000 * (seconds - 1), w, bucket);
  }

  /** The shared limiter may refuse what was admitted here, never the other way round; when it is degraded the
      local decision stands. */
  function Handle(config: Config, r: Replica, c: Call): (Replica, Verdict)
    requires config.windowMs > 0
  {
    var bucket := c.now / config.windowMs;
    if !c.counter.SessionCounter? && c.guest.None? then
      (Replica(Turned(r.ips, bucket), Turned(r.guests, bucket)), Unauthenticated)
    else
      var (after, admitted) := Admit(config, r, c);
      (after, if !admitted then Limited(RetryAfter(config, c.now))
              else if c.shared.SharedDenied? then Limited(c.shared.retryAfter)
              else Passed)
  }

  /* ---- runs of one replica ---- */

  function After(config: Config, calls: seq<Call>): Replica
    requires config.windowMs > 0
  {
    if calls == [] then START else Handle(config, After(config, calls[..|calls| - 1]), calls[|calls| - 1]).0
  }

  predicate Concerns(c: Call, id: Identity) {
    c.counter == id.counter && if id.guest then HasGuest(c) && c.guest.value == id.name else c.ip == id.name
  }

  /** How many requests of an identity passed in a window. */
  function PassedIn(config: Config, calls: seq<Call>, id: Identity, bucket: int): nat
    requires config.windowMs > 0
  {
    if calls == [] then 0
    else
      var front, last := calls[..|calls| - 1], calls[|calls| - 1];
      PassedIn(config, front, id, bucket)
      + if Concerns(last, id) && last.now / config.windowMs == bucket && Handle(config, After(config, front), last).1 == Passed
        then 1 else 0
  }

  function CountOf(r: Replica, id: Identity): nat {
    Of(EntryOf(if id.guest then r.guests else r.ips, id.name), id.counter)
  }

  predicate Fits(config: Config, r: Replica) {
    |r.ips.entries| <= config.ipCapacity && |r.guests.entries| <= config.guestCapacity
  }

  ghost predicate Bounded(config: Config, calls: seq<Call>)
    requires config.windowMs > 0
  {
    forall id, bucket :: PassedIn(config, calls, id, bucket) <= Limit(config, id)
  }

  /** The window in force has counted at least what passed in it, and no later window has begun. */
  ghost predicate InForce(config: Config, calls: seq<Call>, bucket: int)
    requires config.windowMs > 0
  {
    var r := After(config, calls);
    && r.ips.bucket == r.guests.bucket == bucket
    && (forall id :: PassedIn(config, calls, id, bucket) <= CountOf(r, id))
    && (forall id, later | later > bucket :: PassedIn(config, calls, id, later) == 0)
  }

  /** A refused request changes no count: whatever check fails, no entry of any identity is raised. */
  lemma RefusalCountsNothing(config: Config, r: Replica, c: Call, id: Identity)
    requires config.windowMs > 0 && !Admit(config, r, c).1
    ensures CountOf(Admit(config, r, c).0, id)
         == CountOf(Replica(Turned(r.ips, c.now / config.windowMs), Turned(r.guests, c.now / config.windowMs)), id)
  {
  }

  /** An admitted request raises its identities by one, from below their limits, and no other. */
  lemma AdmissionCountsOnce(config: Config, r: Replica, c: Call, id: Identity)
    requires config.windowMs > 0 && Admit(config, r, c).1
    ensures
      var before := CountOf(Replica(Turned(r.ips, c.now / config.windowMs), Turned(r.guests, c.now / config.windowMs)), id);
      && CountOf(Admit(config, r, c).0, id) == before + (if Concerns(c, id) then 1 else 0)
      && (Concerns(c, id) ==> before < Limit(config, id))
  {
  }

  lemma AdmissionFits(config: Config, r: Replica, c: Call)
    requires config.windowMs > 0 && Fits(config, r)
    ensures Fits(config, Admit(config, r, c).0)
  {
    var bucket := c.now / config.windowMs;
    var ips, guests := Turned(r.ips, bucket), Turned(r.guests, bucket);
    CountedSize(ips, c.ip, c.counter);
    if HasGuest(c) {
      CountedSize(guests, c.guest.value, c.counter);
    }
  }

  lemma CountedSize(w: Window, identity: string, c: Counter)
    ensures |Counted(w, identity, c).entries| == if identity in w.entries then |w.entries| else |w.entries| + 1
  {
    var after := Counted(w, identity, c).entries;
    assert after.Keys == w.entries.Keys + {identity};
  }

  /** What one more call, in a window at least as late as the one in force, does to one identity. */
  lemma CallCounts(config: Config, calls: seq<Call>, c: Call, bucket: int, id: Identity, b: int)
    requires config.windowMs > 0 && Bounded(config, calls) && InForce(config, calls, bucket) && bucket <= c.now / config.windowMs
    ensures var all, now := calls + [c], c.now / config.windowMs;
      && PassedIn(config, all, id, b) <= Limit(config, id)
      && (b == now ==> PassedIn(config, all, id, b) <= CountOf(After(config, all), id))
      && (b > now ==> PassedIn(config, all, id, b) == 0)
  {
    var r, all := After(config, calls), calls + [c];
    assert all[..|all| - 1] == calls && all[|all| - 1] == c;
    assert PassedIn(config, calls, id, bucket) <= CountOf(r, id);
    assert PassedIn(config, calls, id, b) <= Limit(config, id);
    if Admit(config, r, c).1 {
      AdmissionCountsOnce(config, r, c, id);
    } else {
      RefusalCountsNothing(config, r, c, id);
    }
  }

  lemma CallKeeps(config: Config, calls: seq<Call>, c: Call, bucket: int)
    requires config.windowMs > 0 && Bounded(config, calls) && InForce(config, calls, bucket) && bucket <= c.now / config.windowMs
    ensures Bounded(config, calls + [c]) && InForce(config, calls + [c], c.now / config.windowMs)
  {
    var now, all := c.now / config.windowMs, calls + [c];
    assert all[..|all| - 1] == calls;
    forall id, b
      ensures PassedIn(config, all, id, b) <= Limit(config, id)
      ensures b == now ==> PassedIn(config, all, id, b) <= CountOf(After(config, all), id)
      ensures b > now ==> PassedIn(config, all, id, b) == 0
    {
      CallCounts(config, calls, c, bucket, id, b);
    }
  }

  function BucketInForce(config: Config, calls: seq<Call>): int
    requires config.windowMs > 0
  {
    if calls == [] then -1 else calls[|calls| - 1].now / config.windowMs
  }

  lemma BucketsRise(config: Config, calls: seq<Call>, c: Call)
    requires config.windowMs > 0 && c.now >= 0
    requires calls != [] ==> 0 <= calls[|calls| - 1].now <= c.now
    ensures BucketInForce(config, calls) <= c.now / config.windowMs
  {
    DivideMonotone(if calls == [] then 0 else calls[|calls| - 1].now, c.now, config.windowMs);
  }

  /** The replica's clock does not run backwards. */
  ghost predicate Timely(calls: seq<Call>) {
    && (forall c <- calls :: c.now >= 0)
    && forall i, j | 0 <= i < j < |calls| :: calls[i].now <= calls[j].now
  }

  lemma FrontIsTimely(calls: seq<Call>)
    requires Timely(calls) && calls != []
    ensures Timely(calls[..|calls| - 1]) && calls[|calls| - 1].now >= 0
    ensures |calls| > 1 ==> 0 <= calls[|calls| - 2].now <= calls[|calls| - 1].now
  {
    forall c | c in calls[..|calls| - 1] ensures c in calls {}
    assert calls[|calls| - 1] in calls;
  }

  lemma HandleFits(config: Config, r: Replica, c: Call)
    requires config.windowMs > 0 && Fits(config, r)
    ensures Fits(config, Handle(config, r, c).0)
  {
    AdmissionFits(config, r, c);
  }

  /** For every identity no more requests pass in a window than its limit, and the entries never outgrow
      their capacity. */
  lemma {:induction false} EveryRunHolds(config: Config, calls: seq<Call>)
    requires config.windowMs > 0 && Timely(calls)
    ensures Bounded(config, calls) && InForce(config, calls, BucketInForce(config, calls))
    ensures
      |After(config, calls).ips.entries| <= config.ipCapacity && |After(config, calls).guests.entries| <= config.guestCapacity
  {
    if calls != [] {
      var front, last := calls[..|calls| - 1], calls[|calls| - 1];
      assert calls == front + [last];
      FrontIsTimely(calls);
      EveryRunHolds(config, front);
      BucketsRise(config, front, last);
      CallKeeps(config, front, last, BucketInForce(config, front));
      HandleFits(config, After(config, front), last);
    }
  }

  /* ---- the verdict, in the requests that were admitted before ---- */

  /** The requests that the local checks admitted, whatever the shared limiter said then. */
  function AdmittedCalls(config: Config, calls: seq<Call>): seq<Call>
    requires config.windowMs > 0
  {
    if calls == [] then []
    else
      var front, last := calls[..|calls| - 1], calls[|calls| - 1];
      var rest := AdmittedCalls(config, front);
      if (last.counter != SessionCounter && last.guest == None) || !Admit(config, After(config, front), last).1 then rest
      else rest + [last]
  }

  /** How many of them in a window are of the kind and from the address. */
  function FromAddress(admitted: seq<Call>, c: Counter, ip: string, window: int, bucket: int): nat
    requires window > 0
  {
    if admitted == [] then 0
    else
      var last := admitted[|admitted| - 1];
      FromAddress(admitted[..|admitted| - 1], c, ip, window, bucket)
      + if last.now / window == bucket && last.counter == c && last.ip == ip then 1 else 0
  }

  /** How many are of the kind and by the guest; creating a session is nobody's. */
  function FromGuest(admitted: seq<Call>, c: Counter, guest: string, window: int, bucket: int): nat
    requires window > 0
  {
    if admitted == [] then 0
    else
      var last := admitted[|admitted| - 1];
      FromGuest(admitted[..|admitted| - 1], c, guest, window, bucket)
      + if last.now / window == bucket && last.counter == c && last.counter != SessionCounter && last.guest == Some(guest)
        then 1 else 0
  }

  function Addresses(admitted: seq<Call>, window: int, bucket: int): set<string>
    requires window > 0
  {
    if admitted == [] then {}
    else
      var last := admitted[|admitted| - 1];
      Addresses(admitted[..|admitted| - 1], window, bucket) + if last.now / window == bucket then {last.ip} else {}
  }

  function Guests(admitted: seq<Call>, window: int, bucket: int): set<string>
    requires window > 0
  {
    if admitted == [] then {}
    else
      var last := admitted[|admitted| - 1];
      Guests(admitted[..|admitted| - 1], window, bucket)
      + if last.now / window == bucket && last.counter != SessionCounter && last.guest.Some? then {last.guest.value} else {}
  }

  ghost predicate WindowTells(
    w: Window, bucket: int, names: set<string>, count: (Counter, string) -> nat)
  {
    w.bucket == bucket && w.entries.Keys == names && forall c, name :: Of(EntryOf(w, name), c) == count(c, name)
  }

  /** Both windows hold what was admitted in the window `bucket`. */
  ghost predicate Tells(r: Replica, admitted: seq<Call>, window: int, bucket: int)
    requires window > 0
  {
    && WindowTells(r.ips, bucket, Addresses(admitted, window, bucket),
                   (c, name) => FromAddress(admitted, c, name, window, bucket))
    && WindowTells(r.guests, bucket, Guests(admitted, window, bucket),
                   (c, name) => FromGuest(admitted, c, name, window, bucket))
  }

  ghost predicate NoneLater(admitted: seq<Call>, window: int, bucket: int)
    requires window > 0
  {
    forall i | 0 <= i < |admitted| :: admitted[i].now / window <= bucket
  }

  lemma {:induction false} NothingYet(admitted: seq<Call>, window: int, bucket: int, later: int)
    requires window > 0 && NoneLater(admitted, window, bucket) && bucket < later
    ensures Addresses(admitted, window, later) == {} && Guests(admitted, window, later) == {}
    ensures forall c, name :: FromAddress(admitted, c, name, window, later) == 0
    ensures forall c, name :: FromGuest(admitted, c, name, window, later) == 0
  {
    if admitted != [] {
      NothingYet(admitted[..|admitted| - 1], window, bucket, later);
    }
  }

  lemma TurnTells(r: Replica, admitted: seq<Call>, window: int, bucket: int, now: int)
    requires window > 0 && Tells(r, admitted, window, bucket) && NoneLater(admitted, window, bucket) && bucket <= now
    ensures Tells(Replica(Turned(r.ips, now), Turned(r.guests, now)), admitted, window, now)
    ensures NoneLater(admitted, window, now)
  {
    if bucket < now {
      NothingYet(admitted, window, bucket, now);
    }
  }

  lemma CountedTells(w: Window, name: string, c: Counter)
    ensures Counted(w, name, c).bucket == w.bucket && Counted(w, name, c).entries.Keys == w.entries.Keys + {name}
    ensures forall other, k ::
      Of(EntryOf(Counted(w, name, c), other), k) == Of(EntryOf(w, other), k) + if other == name && k == c then 1 else 0
  {
  }

  lemma AdmitTells(r: Replica, admitted: seq<Call>, window: int, c: Call)
    requires window > 0 && Tells(r, admitted, window, c.now / window) && NoneLater(admitted, window, c.now / window)
    ensures
      var after :=
        Replica(Counted(r.ips, c.ip, c.counter), if HasGuest(c) then Counted(r.guests, c.guest.value, c.counter) else r.guests);
      Tells(after, admitted + [c], window, c.now / window) && NoneLater(admitted + [c], window, c.now / window)
  {
    assert (admitted + [c])[..|admitted|] == admitted;
    CountedTells(r.ips, c.ip, c.counter);
    if HasGuest(c) {
      CountedTells(r.guests, c.guest.value, c.counter);
    }
  }

  lemma HandleCases(config: Config, r: Replica, c: Call)
    requires config.windowMs > 0
    ensures
      var t := Replica(Turned(r.ips, c.now / config.windowMs), Turned(r.guests, c.now / config.windowMs));
      Handle(config, r, c).0 ==
      if (c.counter == SessionCounter || c.guest != None) && Admit(config, r, c).1
      then Replica(Counted(t.ips, c.ip, c.counter), if HasGuest(c) then Counted(t.guests, c.guest.value, c.counter) else t.guests)
      else t
  {
  }

  lemma HandleTells(config: Config, r: Replica, admitted: seq<Call>, c: Call, bucket: int)
    requires config.windowMs > 0 && Tells(r, admitted, config.windowMs, bucket)
    requires NoneLater(admitted, config.windowMs, bucket) && bucket <= c.now / config.windowMs
    ensures
      var counted := (c.counter == SessionCounter || c.guest != None) && Admit(config, r, c).1;
      var all := if counted then admitted + [c] else admitted;
      && Tells(Handle(config, r, c).0, all, config.windowMs, c.now / config.windowMs)
      && NoneLater(all, config.windowMs, c.now / config.windowMs)
  {
    var w := config.windowMs;
    HandleCases(config, r, c);
    TurnTells(r, admitted, w, bucket, c.now / w);
    if (c.counter == SessionCounter || c.guest != None) && Admit(config, r, c).1 {
      AdmitTells(Replica(Turned(r.ips, c.now / w), Turned(r.guests, c.now / w)), admitted, w, c);
    }
  }

  lemma {:induction false} EveryRunTells(config: Config, calls: seq<Call>)
    requires config.windowMs > 0 && Timely(calls)
    ensures Tells(After(config, calls), AdmittedCalls(config, calls), config.windowMs, BucketInForce(config, calls))
    ensures NoneLater(AdmittedCalls(config, calls), config.windowMs, BucketInForce(config, calls))
  {
    if calls != [] {
      var front, last := calls[..|calls| - 1], calls[|calls| - 1];
      FrontIsTimely(calls);
      EveryRunTells(config, front);
      BucketsRise(config, front, last);
      HandleTells(config, After(config, front), AdmittedCalls(config, front), last, BucketInForce(config, front));
    }
  }

  /** What a request is answered, from the requests that were admitted in its window. */
  ghost predicate AnsweredBy(config: Config, admitted: seq<Call>, c: Call, verdict: Verdict)
    requires config.windowMs > 0
  {
    var w, bucket := config.windowMs, c.now / config.windowMs;
    var byIp := FromAddress(admitted, c.counter, c.ip, w, bucket);
    var ips := Addresses(admitted, w, bucket);
    var newcomer := c.ip !in ips && |ips| >= config.ipCapacity;
    if c.counter == SessionCounter then
      JudgedBy(config, c, newcomer || byIp >= config.sessionsPerIp, verdict)
    else if c.guest == None then verdict == Unauthenticated
    else
      var name := c.guest.value;
      var byGuest, guests := FromGuest(admitted, c.counter, name, w, bucket), Guests(admitted, w, bucket);
      var newGuest := name !in guests && |guests| >= config.guestCapacity;
      JudgedBy(
        config, c,
        || newcomer || newGuest
        || (c.counter == AutocompleteCounter && (byIp >= config.autocompletePerIp || byGuest >= config.autocompletePerGuest))
        || (c.counter == MutationCounter && (byIp >= config.mutationsPerIp || byGuest >= config.mutationsPerGuest)),
        verdict)
  }

  /** A local denial is final; otherwise the shared limiter may deny, and when it is not there or degraded the request
      passes. */
  ghost predicate JudgedBy(config: Config, c: Call, denied: bool, verdict: Verdict)
    requires config.windowMs > 0
  {
    if denied then
      verdict.Limited? && 1 <= verdict.retryAfter
      && (c.now + 1_000 * verdict.retryAfter) / config.windowMs > c.now / config.windowMs
      && (c.now + 1_000 * (verdict.retryAfter - 1)) / config.windowMs == c.now / config.windowMs
    else
      match c.shared
      case SharedDenied(seconds) => verdict == Limited(seconds)
      case _ => verdict == Passed
  }

  /** One check, from what its window holds. */
  lemma CheckDecides(w: Window, bucket: int, names: set<string>, count: (Counter, string) -> nat, capacity: nat,
                     name: string, c: Counter, limit: nat)
    requires WindowTells(w, bucket, names, count)
    ensures Refuses(w, capacity, name, c, limit) <==> (name !in names && |names| >= capacity) || count(c, name) >= limit
  {
    assert |w.entries| == |w.entries.Keys|;
  }

  lemma RefusalDecides(config: Config, r: Replica, c: Call, denied: bool)
    requires config.windowMs > 0 && c.now >= 0 && (c.counter == SessionCounter || c.guest != None)
    requires denied <==> !Admit(config, r, c).1
    ensures JudgedBy(config, c, denied, Handle(config, r, c).1)
  {
    RetryAfterIsExact(config, c.now);
  }

  lemma AdmitDecides(config: Config, r: Replica, c: Call)
    requires config.windowMs > 0
    ensures
      var ips, guests := Turned(r.ips, c.now / config.windowMs), Turned(r.guests, c.now / config.windowMs);
      !Admit(config, r, c).1 <==>
        || Refuses(ips, config.ipCapacity, c.ip, c.counter, Limit(config, Identity(false, c.ip, c.counter)))
        || (HasGuest(c)
            && Refuses(guests, config.guestCapacity, c.guest.value, c.counter,
                       Limit(config, Identity(true, c.guest.value, c.counter))))
  {
  }

  lemma ChecksDecide(config: Config, r: Replica, admitted: seq<Call>, c: Call)
    requires config.windowMs > 0 && c.now >= 0
    requires
      Tells(Replica(Turned(r.ips, c.now / config.windowMs), Turned(r.guests, c.now / config.windowMs)), admitted,
            config.windowMs, c.now / config.windowMs)
    ensures AnsweredBy(config, admitted, c, Handle(config, r, c).1)
  {
    var w, bucket := config.windowMs, c.now / config.windowMs;
    AdmitDecides(config, r, c);
    CheckDecides(
      Turned(r.ips, bucket), bucket, Addresses(admitted, w, bucket),
      (k, name) => FromAddress(admitted, k, name, w, bucket), config.ipCapacity, c.ip, c.counter,
      Limit(config, Identity(false, c.ip, c.counter)));
    if HasGuest(c) {
      CheckDecides(
        Turned(r.guests, bucket), bucket, Guests(admitted, w, bucket),
        (k, name) => FromGuest(admitted, k, name, w, bucket), config.guestCapacity, c.guest.value, c.counter,
        Limit(config, Identity(true, c.guest.value, c.counter)));
    }
    if c.counter == SessionCounter || c.guest != None {
      RefusalDecides(config, r, c, !Admit(config, r, c).1);
    }
  }

  /** A request is denied exactly when its address or its guest has had the admissions of the window, counted over the
      requests that were admitted, or is new to a store that is full; otherwise the shared decision stands. */
  lemma VerdictIsExact(config: Config, calls: seq<Call>, c: Call)
    requires config.windowMs > 0 && Timely(calls + [c])
    ensures AnsweredBy(config, AdmittedCalls(config, calls), c, Handle(config, After(config, calls), c).1)
  {
    var all := calls + [c];
    assert all[..|all| - 1] == calls && all[|all| - 1] == c;
    FrontIsTimely(all);
    EveryRunTells(config, calls);
    BucketsRise(config, calls, c);
    TurnTells(
      After(config, calls), AdmittedCalls(config, calls), config.windowMs, BucketInForce(config, calls),
      c.now / config.windowMs);
    ChecksDecide(config, After(config, calls), AdmittedCalls(config, calls), c);
  }

  /* ---- several replicas ---- */

  function PassedSomewhere(config: Config, replicas: seq<seq<Call>>, id: Identity, bucket: int): nat
    requires config.windowMs > 0
  {
    if replicas == [] then 0
    else
      PassedSomewhere(config, replicas[..|replicas| - 1], id, bucket)
      + PassedIn(config, replicas[|replicas| - 1], id, bucket)
  }

  lemma MultiplyOneMore(n: nat, limit: nat)
    ensures n * limit + limit == (n + 1) * limit
  {
  }

  /** Also while the shared limiter is degraded an identity passes at most replicas times limit in a window. */
  lemma {:induction false} DegradedBound(config: Config, replicas: seq<seq<Call>>, id: Identity, bucket: int)
    requires config.windowMs > 0 && forall i | 0 <= i < |replicas| :: Timely(replicas[i])
    ensures PassedSomewhere(config, replicas, id, bucket) <= |replicas| * Limit(config, id)
  {
    if replicas != [] {
      var n := |replicas| - 1;
      DegradedBound(config, replicas[..n], id, bucket);
      EveryRunHolds(config, replicas[n]);
      MultiplyOneMore(n, Limit(config, id));
    }
  }

  /* ---- the middleware as it runs ---- */

  class RateLimitControl {
    const config: Config
    var ips: Window
    var guests: Window

    constructor (config: Config)
      ensures this.config == config && Contents() == START
    {
      this.config := config;
      ips, guests := Window(-1, map[]), Window(-1, map[]);
    }

    function Contents(): Replica
      reads this
    {
      Replica(ips, guests)
    }

    method TurnWindows(bucket: int)
      modifies this
      ensures ips == Turned(old(ips), bucket) && guests == Turned(old(guests), bucket)
    {
      if ips.bucket != bucket {
        ips := Window(bucket, map[]);
      }
      if guests.bucket != bucket {
        guests := Window(bucket, map[]);
      }
    }

    method HandleCall(c: Call) returns (verdict: Verdict)
      requires config.windowMs > 0
      modifies this
      ensures (Contents(), verdict) == Handle(config, old(Contents()), c)
    {
      TurnWindows(c.now / config.windowMs);
      var counted := !c.counter.SessionCounter?;
      if counted && c.guest.None? {
        return Unauthenticated;
      }
      var denied := Refuses(ips, config.ipCapacity, c.ip, c.counter, Limit(config, Identity(false, c.ip, c.counter)));
      if counted && !denied {
        denied :=
          Refuses(guests, config.guestCapacity, c.guest.value, c.counter, Limit(config, Identity(true, c.guest.value, c.counter)));
      }
      if denied {
        return Limited(RetryAfter(config, c.now));
      }
      ips := Counted(ips, c.ip, c.counter);
      if counted {
        guests := Counted(guests, c.guest.value, c.counter);
      }
      return if c.shared.SharedDenied? then Limited(c.shared.retryAfter) else Passed;
    }
  }
}
