/** The shared rate limiter's script (packages/cache/src/limiter/redis.ts). Times are milliseconds of the Redis
    clock; a key is dead once its expiry has come. */
module SharedLimiter {
  import opened Basics

  datatype Kind = SessionKind | AutocompleteKind | MutationKind

  /** Whose admissions a counter counts: under one key version, per address or per guest. */
  datatype Identity = Identity(version: string, kind: Kind, guest: bool, digest: string)

  datatype Key = Key(bucket: int, id: Identity)

  datatype Counter = Counter(count: nat, expiry: int)

  /** `registry` holds the expiries of the counter keys and is itself a key with an expiry. */
  datatype Store = Store(counters: map<Key, Counter>, registry: map<Key, int>, registryExpiry: int)

  const WINDOW: int := 60_000
  const TTL: int := 61_000
  const MAXIMUM_KEYS: nat := 19_998

  function Limit(id: Identity): nat {
    match id.kind
    case SessionKind => if id.guest then 0 else 10
    case AutocompleteKind => if id.guest then 120 else 300
    case MutationKind => if id.guest then 30 else 120
  }

  /** A session is created by an address alone; everything else also counts its guest. */
  datatype Request = Request(version: string, kind: Kind, ip: string, guestDigest: string)

  function IpKey(r: Request, now: int): Key { Key(now / 1000 / 60, Identity(r.version, r.kind, false, r.ip)) }

  function GuestKey(r: Request, now: int): Option<Key> {
    if r.kind.SessionKind? then None
    else Some(Key(now / 1000 / 60, Identity(r.version, r.kind, true, r.guestDigest)))
  }

  function Count(s: Store, k: Key, now: int): nat {
    if k in s.counters && now < s.counters[k].expiry then s.counters[k].count else 0
  }

  /** ZREMRANGEBYSCORE on what is left of the registry. */
  function Purged(s: Store, now: int): map<Key, int> {
    if s.registryExpiry <= now then map[] else map k | k in s.registry && now < s.registry[k] :: s.registry[k]
  }

  function Bump(s: Store, k: Key, now: int): Store {
    s.(counters := s.counters[k := Counter(Count(s, k, now) + 1, now + TTL)], registry := s.registry[k := now + TTL])
  }

  function BothBumped(s: Store, ip: Key, guest: Option<Key>, now: int): Store {
    var bumped := Bump(s, ip, now);
    if guest.Some? then Bump(bumped, guest.value, now) else bumped
  }

  function Bumped(s: Store, ip: Key, guest: Option<Key>, now: int): Store {
    BothBumped(s, ip, guest, now).(registryExpiry := now + TTL)
  }

  function Needed(s: Store, k: Key, now: int): nat { if Count(s, k, now) == 0 then 1 else 0 }

  function NeededFor(s: Store, k: Option<Key>, now: int): nat { if k.None? then 0 else Needed(s, k.value, now) }

  datatype Decision = Allowed | Denied(retryAfter: int)

  /** The script as one atomic step. */
  function Consume(s: Store, r: Request, now: int): (Store, Decision) {
    var ip, guest := IpKey(r, now), GuestKey(r, now);
    var reset := 60 - now / 1000 % 60;
    if Count(s, ip, now) >= Limit(ip.id) || (guest.Some? && Count(s, guest.value, now) >= Limit(guest.value.id)) then
      (s, Denied(reset))
    else
      var purged := s.(registry := Purged(s, now));
      if |purged.registry| + Needed(s, ip, now) + NeededFor(s, guest, now) > MAXIMUM_KEYS then (purged, Denied(reset))
      else (Bumped(purged, ip, guest, now), Allowed)
  }

  /* ---- runs ---- */

  datatype Admission = Admission(at: int, ip: Key, guest: Option<Key>)

  /** The store with the admissions so far and the time of the last call, by whatever replica. */
  datatype Limiter = Limiter(store: Store, log: seq<Admission>, clock: int)

  datatype Call = Call(request: Request, at: int)

  function Happen(l: Limiter, c: Call): Limiter {
    var (after, decision) := Consume(l.store, c.request, c.at);
    Limiter(after,
            if decision.Allowed? then l.log + [Admission(c.at, IpKey(c.request, c.at), GuestKey(c.request, c.at))] else l.log,
            c.at)
  }

  /** Calls in the order of Redis time; one that is out of order does not occur. */
  function After(calls: seq<Call>): Limiter {
    if calls == [] then Limiter(Store(map[], map[], 0), [], 0)
    else
      var before := After(calls[..|calls| - 1]);
      if before.clock <= calls[|calls| - 1].at then Happen(before, calls[|calls| - 1]) else before
  }

  predicate Uses(a: Admission, k: Key) { a.ip == k || a.guest == Some(k) }

  /** How many admissions used the key. */
  function Admitted(log: seq<Admission>, k: Key): nat {
    if log == [] then 0 else Admitted(log[..|log| - 1], k) + if Uses(log[|log| - 1], k) then 1 else 0
  }

  /* ---- what holds ---- */

  /** Every counter is the number of its admissions, outlives its window, and its key is registered while
      it lives. */
  ghost predicate Counts(s: Store, log: seq<Admission>) {
    && (forall k <- s.counters :: s.counters[k].count == Admitted(log, k) && 0 < Admitted(log, k) <= Limit(k.id))
    && (forall k | k !in s.counters :: Admitted(log, k) == 0)
    && (forall k <- s.counters :: s.counters[k].expiry >= k.bucket * WINDOW + TTL)
  }

  ghost predicate Registered(s: Store, now: int) {
    && (forall k <- s.counters | now < s.counters[k].expiry :: k in s.registry && s.registry[k] == s.counters[k].expiry)
    && (forall k <- s.registry :: s.registry[k] <= s.registryExpiry)
    && |s.registry| <= MAXIMUM_KEYS
  }

  ghost predicate Logged(log: seq<Admission>) {
    forall i | 0 <= i < |log| ::
      log[i].ip.bucket == log[i].at / WINDOW && (log[i].guest.Some? ==> log[i].guest.value.bucket == log[i].at / WINDOW)
  }

  ghost predicate Holds(l: Limiter) {
    l.clock >= 0 && l.store.registryExpiry <= l.clock + TTL && Counts(l.store, l.log) && Registered(l.store, l.clock) && Logged(l.log)
  }

  lemma BucketOf(now: int)
    requires now >= 0
    ensures now / 1000 / 60 == now / WINDOW
    ensures now / WINDOW * WINDOW <= now < now / WINDOW * WINDOW + WINDOW
  {
  }

  /** In its own window a counter never dies: the script reads the true number of admissions. */
  lemma CountIsTrue(s: Store, log: seq<Admission>, k: Key, now: int)
    requires Counts(s, log) && now >= 0 && k.bucket == now / 1000 / 60
    ensures Count(s, k, now) == Admitted(log, k)
  {
    BucketOf(now);
  }

  lemma PurgeKeepsRegistered(s: Store, before: int, now: int)
    requires Registered(s, before) && before <= now
    ensures Registered(s.(registry := Purged(s, now)), now)
    ensures forall k <- s.counters | now < s.counters[k].expiry :: k in Purged(s, now)
  {
    assert Purged(s, now).Keys <= s.registry.Keys;
    SubsetSize(Purged(s, now).Keys, s.registry.Keys);
  }

  /** Between two admissions to it the registry may exceed its own expiry only by what is due. */
  ghost predicate Filling(s: Store, now: int) {
    && (forall k <- s.counters | now < s.counters[k].expiry :: k in s.registry && s.registry[k] == s.counters[k].expiry)
    && (forall k <- s.registry :: s.registry[k] <= now + TTL)
  }

  lemma BumpFills(s: Store, k: Key, now: int)
    requires Filling(s, now)
    ensures Filling(Bump(s, k, now), now)
  {
  }

  lemma BumpLeavesOthers(s: Store, k: Key, now: int)
    ensures forall other | other != k :: Count(Bump(s, k, now), other, now) == Count(s, other, now)
  {
  }

  lemma BumpRegisters(s: Store, k: Key, now: int)
    requires Filling(s, now)
    ensures |Bump(s, k, now).registry| <= |s.registry| + Needed(s, k, now)
  {
    var r := s.registry[k := now + TTL];
    if k in s.registry {
      assert r.Keys == s.registry.Keys;
    } else {
      assert r.Keys == s.registry.Keys + {k};
    }
  }

  lemma BumpKeepsFilling(s: Store, k: Key, now: int)
    requires Filling(s, now)
    ensures Filling(Bump(s, k, now), now)
    ensures |Bump(s, k, now).registry| <= |s.registry| + Needed(s, k, now)
    ensures forall other | other != k :: Count(Bump(s, k, now), other, now) == Count(s, other, now)
  {
    BumpFills(s, k, now);
    BumpLeavesOthers(s, k, now);
    BumpRegisters(s, k, now);
  }

  lemma LogGrows(log: seq<Admission>, a: Admission)
    ensures forall k :: Admitted(log + [a], k) == Admitted(log, k) + if Uses(a, k) then 1 else 0
  {
    assert (log + [a])[..|log|] == log;
  }

  lemma KeyIsBumped(s: Store, ip: Key, guest: Option<Key>, now: int, k: Key)
    requires guest != Some(ip)
    ensures var both := BothBumped(s, ip, guest, now);
      && (k in both.counters <==> k in s.counters || k == ip || guest == Some(k))
      && (k in both.counters ==>
            both.counters[k] ==
            if k == ip || guest == Some(k) then Counter(Count(s, k, now) + 1, now + TTL) else s.counters[k])
  {
  }

  /** Bumping the counters of an admission counts it. */
  lemma BumpsCount(s: Store, log: seq<Admission>, ip: Key, guest: Option<Key>, now: int)
    requires Counts(s, log) && now >= 0
    requires ip.bucket == now / 1000 / 60 && Count(s, ip, now) < Limit(ip.id)
    requires guest.Some? ==>
      guest.value.bucket == now / 1000 / 60 && guest.value != ip && Count(s, guest.value, now) < Limit(guest.value.id)
    ensures Counts(BothBumped(s, ip, guest, now), log + [Admission(now, ip, guest)])
  {
    var both, log' := BothBumped(s, ip, guest, now), log + [Admission(now, ip, guest)];
    LogGrows(log, Admission(now, ip, guest));
    BucketOf(now);
    forall k
      ensures k in both.counters ==>
        && both.counters[k].count == Admitted(log', k) && 0 < Admitted(log', k) <= Limit(k.id)
        && both.counters[k].expiry >= k.bucket * WINDOW + TTL
      ensures k !in both.counters ==> Admitted(log', k) == 0
    {
      KeyIsBumped(s, ip, guest, now, k);
      if k == ip || guest == Some(k) {
        CountIsTrue(s, log, k, now);
      }
    }
  }

  lemma AdmissionKeeps(s: Store, ip: Key, guest: Option<Key>, now: int)
    requires Filling(s, now) && |s.registry| + Needed(s, ip, now) + NeededFor(s, guest, now) <= MAXIMUM_KEYS
    requires guest.Some? ==> guest.value != ip
    ensures Registered(BothBumped(s, ip, guest, now).(registryExpiry := now + TTL), now)
  {
    BumpKeepsFilling(s, ip, now);
    if guest.Some? {
      BumpKeepsFilling(Bump(s, ip, now), guest.value, now);
    }
  }

  function PurgedStore(s: Store, now: int): Store { s.(registry := Purged(s, now)) }

  /** What the script has established when it admits, and what it then writes. */
  lemma ConsumeCases(s: Store, r: Request, now: int)
    ensures var ip, guest, purged := IpKey(r, now), GuestKey(r, now), PurgedStore(s, now);
      var (after, decision) := Consume(s, r, now);
      if decision.Allowed? then
        && after == Bumped(purged, ip, guest, now)
        && Count(purged, ip, now) < Limit(ip.id)
        && (guest.Some? ==> Count(purged, guest.value, now) < Limit(guest.value.id))
        && |purged.registry| + Needed(purged, ip, now) + NeededFor(purged, guest, now) <= MAXIMUM_KEYS
      else after == s || after == purged
  {
  }

  lemma AllowedKeeps(s: Store, log: seq<Admission>, ip: Key, guest: Option<Key>, now: int)
    requires now >= 0 && Counts(s, log) && Logged(log) && Filling(s, now)
    requires ip.bucket == now / 1000 / 60 && Count(s, ip, now) < Limit(ip.id)
    requires guest.Some? ==>
      guest.value.bucket == now / 1000 / 60 && guest.value != ip && Count(s, guest.value, now) < Limit(guest.value.id)
    requires |s.registry| + Needed(s, ip, now) + NeededFor(s, guest, now) <= MAXIMUM_KEYS
    ensures Holds(Limiter(Bumped(s, ip, guest, now), log + [Admission(now, ip, guest)], now))
  {
    BumpsCount(s, log, ip, guest, now);
    AdmissionKeeps(s, ip, guest, now);
    BucketOf(now);
  }

  lemma PurgedFills(s: Store, before: int, now: int)
    requires Registered(s, before) && before <= now && s.registryExpiry <= before + TTL
    ensures Registered(PurgedStore(s, now), now) && Filling(PurgedStore(s, now), now)
  {
    PurgeKeepsRegistered(s, before, now);
  }

  lemma CallKeeps(l: Limiter, c: Call)
    requires Holds(l) && l.clock <= c.at
    ensures Holds(Happen(l, c))
  {
    PurgedFills(l.store, l.clock, c.at);
    ConsumeCases(l.store, c.request, c.at);
    if Consume(l.store, c.request, c.at).1.Allowed? {
      AllowedKeeps(PurgedStore(l.store, c.at), l.log, IpKey(c.request, c.at), GuestKey(c.request, c.at), c.at);
    }
  }

  lemma {:induction false} EveryRunHolds(calls: seq<Call>)
    ensures Holds(After(calls))
  {
    if calls != [] {
      var before := After(calls[..|calls| - 1]);
      EveryRunHolds(calls[..|calls| - 1]);
      if before.clock <= calls[|calls| - 1].at {
        CallKeeps(before, calls[|calls| - 1]);
      }
    }
  }

  /** For any number of replicas the counter that a call reads is the number of admissions in the current
      window, so an identity is admitted at most as often as its limit in a window; and at no time do more
      counter keys live than the capacity, over all key versions together. */
  lemma CountersAreExact(calls: seq<Call>, k: Key, now: int)
    requires After(calls).clock <= now
    ensures k.bucket == now / 1000 / 60 ==> Count(After(calls).store, k, now) == Admitted(After(calls).log, k)
    ensures Admitted(After(calls).log, k) <= Limit(k.id)
    ensures |set key | key in After(calls).store.counters && now < After(calls).store.counters[key].expiry| <= MAXIMUM_KEYS
  {
    EveryRunHolds(calls);
    var l := After(calls);
    if k.bucket == now / 1000 / 60 {
      CountIsTrue(l.store, l.log, k, now);
    }
    var live := set key | key in l.store.counters && now < l.store.counters[key].expiry;
    SubsetSize(live, l.store.registry.Keys);
  }

  /* ---- the decision, in the calls that were admitted before ---- */

  /** The calls that were admitted. */
  function Passed(calls: seq<Call>): seq<Call> {
    if calls == [] then []
    else
      var front, last := calls[..|calls| - 1], calls[|calls| - 1];
      if After(front).clock <= last.at && Consume(After(front).store, last.request, last.at).1.Allowed?
      then Passed(front) + [last] else Passed(front)
  }

  predicate SameKind(c: Call, r: Request, minute: int) {
    c.at / 60_000 == minute && c.request.version == r.version && c.request.kind == r.kind
  }

  /** How many of the calls in a minute came from the request's address for the same kind. */
  function FromAddress(passed: seq<Call>, r: Request, minute: int): nat {
    if passed == [] then 0
    else
      var last := passed[|passed| - 1];
      FromAddress(passed[..|passed| - 1], r, minute)
      + if SameKind(last, r, minute) && last.request.ip == r.ip then 1 else 0
  }

  /** How many were made by its guest. */
  function FromGuest(passed: seq<Call>, r: Request, minute: int): nat {
    if passed == [] then 0
    else
      var last := passed[|passed| - 1];
      FromGuest(passed[..|passed| - 1], r, minute)
      + if SameKind(last, r, minute) && last.request.guestDigest == r.guestDigest then 1 else 0
  }

  /** The counter keys of a call: its address's, and its guest's unless it creates a session. */
  function KeysOf(c: Call): set<Key> {
    {Key(c.at / 60_000, Identity(c.request.version, c.request.kind, false, c.request.ip))}
    + if c.request.kind == SessionKind then {}
      else {Key(c.at / 60_000, Identity(c.request.version, c.request.kind, true, c.request.guestDigest))}
  }

  /** The counter keys that were used in the last 61 seconds. */
  function InUse(passed: seq<Call>, now: int): set<Key> {
    if passed == [] then {}
    else
      var last := passed[|passed| - 1];
      InUse(passed[..|passed| - 1], now) + if now < last.at + 61_000 then KeysOf(last) else {}
  }

  predicate Alive(s: Store, k: Key, now: int) { k in s.counters && now < s.counters[k].expiry }

  ghost predicate TellsLog(log: seq<Admission>, passed: seq<Call>) {
    && |log| == |passed|
    && forall i | 0 <= i < |log| ::
         log[i] == Admission(passed[i].at, IpKey(passed[i].request, passed[i].at), GuestKey(passed[i].request, passed[i].at))
  }

  ghost predicate TellsStore(s: Store, clock: int, passed: seq<Call>) {
    && (forall k, now | clock <= now :: Alive(s, k, now) <==> k in InUse(passed, now))
    && (forall k <- s.counters :: s.counters[k].expiry <= clock + 61_000)
    && (forall k <- s.registry :: k in s.counters && s.registry[k] == s.counters[k].expiry)
    && (forall i | 0 <= i < |passed| :: passed[i].at >= 0)
  }

  lemma KeysAre(c: Call)
    requires c.at >= 0
    ensures KeysOf(c)
         == {IpKey(c.request, c.at)}
            + if GuestKey(c.request, c.at).Some? then {GuestKey(c.request, c.at).value} else {}
  {
    BucketOf(c.at);
  }

  lemma BumpedAlive(s: Store, ip: Key, guest: Option<Key>, at: int, k: Key, now: int)
    requires at <= now && (k in s.counters ==> s.counters[k].expiry <= at + 61_000)
    ensures Alive(Bumped(s, ip, guest, at), k, now)
       <==> Alive(s, k, now) || (now < at + 61_000 && (k == ip || Some(k) == guest))
    ensures k in Bumped(s, ip, guest, at).counters ==> Bumped(s, ip, guest, at).counters[k].expiry <= at + 61_000
  {
  }

  lemma AdmissionTells(s: Store, clock: int, passed: seq<Call>, c: Call)
    requires TellsStore(s, clock, passed) && clock <= c.at && 0 <= c.at
    ensures TellsStore(Bumped(s, IpKey(c.request, c.at), GuestKey(c.request, c.at), c.at), c.at, passed + [c])
  {
    var ip, guest := IpKey(c.request, c.at), GuestKey(c.request, c.at);
    var after := Bumped(s, ip, guest, c.at);
    assert (passed + [c])[..|passed|] == passed;
    KeysAre(c);
    forall k, now | c.at <= now ensures Alive(after, k, now) <==> k in InUse(passed + [c], now) {
      BumpedAlive(s, ip, guest, c.at, k, now);
      assert Alive(s, k, now) <==> k in InUse(passed, now);
    }
    forall k | k in after.counters ensures after.counters[k].expiry <= c.at + 61_000 {
      BumpedAlive(s, ip, guest, c.at, k, c.at);
    }
  }

  lemma PurgeTells(s: Store, clock: int, passed: seq<Call>, now: int)
    requires TellsStore(s, clock, passed) && clock <= now
    ensures TellsStore(PurgedStore(s, now), now, passed) && TellsStore(s, now, passed)
  {
    forall k, later | now <= later
      ensures Alive(s, k, later) <==> k in InUse(passed, later)
      ensures Alive(PurgedStore(s, now), k, later) <==> Alive(s, k, later) {}
  }

  lemma LogTells(log: seq<Admission>, passed: seq<Call>, c: Call)
    requires TellsLog(log, passed)
    ensures TellsLog(log + [Admission(c.at, IpKey(c.request, c.at), GuestKey(c.request, c.at))], passed + [c])
  {
  }

  lemma {:induction false} EveryRunTells(calls: seq<Call>)
    ensures TellsLog(After(calls).log, Passed(calls)) && TellsStore(After(calls).store, After(calls).clock, Passed(calls))
  {
    if calls != [] {
      var front, last := calls[..|calls| - 1], calls[|calls| - 1];
      EveryRunTells(front);
      EveryRunHolds(front);
      var before := After(front);
      if before.clock <= last.at {
        PurgeTells(before.store, before.clock, Passed(front), last.at);
        ConsumeCases(before.store, last.request, last.at);
        if Consume(before.store, last.request, last.at).1.Allowed? {
          AdmissionTells(PurgedStore(before.store, last.at), last.at, Passed(front), last);
          LogTells(before.log, Passed(front), last);
        }
      }
    }
  }

  lemma {:induction false} AdmittedAre(log: seq<Admission>, passed: seq<Call>, r: Request, now: int)
    requires TellsLog(log, passed) && now >= 0 && forall i | 0 <= i < |passed| :: passed[i].at >= 0
    ensures Admitted(log, IpKey(r, now)) == FromAddress(passed, r, now / 60_000)
    ensures r.kind != SessionKind ==>
      GuestKey(r, now).Some? && Admitted(log, GuestKey(r, now).value) == FromGuest(passed, r, now / 60_000)
  {
    BucketOf(now);
    if log != [] {
      AdmittedAre(log[..|log| - 1], passed[..|passed| - 1], r, now);
      BucketOf(passed[|passed| - 1].at);
    }
  }

  /** What is registered at the moment is what was in use. */
  lemma RegisteredIsInUse(s: Store, clock: int, passed: seq<Call>, now: int)
    requires TellsStore(s, clock, passed) && Registered(s, clock) && clock <= now
    ensures Purged(s, now).Keys == InUse(passed, now)
  {
    forall k ensures k in Purged(s, now) <==> k in InUse(passed, now) {
      assert Alive(s, k, now) <==> k in InUse(passed, now);
    }
  }

  /** What the script decides, from the counts it reads and the number of keys in use. */
  ghost predicate DecidedBy(r: Request, now: int, address: nat, guest: nat, inUse: nat, decision: Decision) {
    && (decision.Denied? <==>
          || (match r.kind
              case SessionKind => address >= 10
              case AutocompleteKind => address >= 300 || guest >= 120
              case MutationKind => address >= 120 || guest >= 30)
          || inUse + (if address == 0 then 1 else 0) + (if r.kind != SessionKind && guest == 0 then 1 else 0) > 19_998)
    && (decision.Denied? ==>
          1 <= decision.retryAfter <= 60 && now / 1000 + decision.retryAfter == (now / 60_000 + 1) * 60)
  }

  lemma ScriptDecides(s: Store, r: Request, now: int, address: nat, guest: nat, inUse: nat)
    requires now >= 0 && Count(s, IpKey(r, now), now) == address && |Purged(s, now)| == inUse
    requires r.kind != SessionKind ==> GuestKey(r, now).Some? && Count(s, GuestKey(r, now).value, now) == guest
    ensures DecidedBy(r, now, address, guest, inUse, Consume(s, r, now).1)
  {
    BucketOf(now);
  }

  /** A call is denied exactly when its address or its guest has used up the minute, counted over the calls that were
      admitted, or the counter keys in use leave no room for those it would add; and it is told how many seconds
      the minute still lasts. */
  lemma DenialIsExact(calls: seq<Call>, r: Request, now: int)
    requires After(calls).clock <= now
    ensures
      var passed := Passed(calls);
      DecidedBy(
        r, now, FromAddress(passed, r, now / 60_000), FromGuest(passed, r, now / 60_000), |InUse(passed, now)|,
        Consume(After(calls).store, r, now).1)
  {
    EveryRunTells(calls);
    EveryRunHolds(calls);
    var l := After(calls);
    AdmittedAre(l.log, Passed(calls), r, now);
    BucketOf(now);
    CountIsTrue(l.store, l.log, IpKey(r, now), now);
    if r.kind != SessionKind {
      CountIsTrue(l.store, l.log, GuestKey(r, now).value, now);
    }
    RegisteredIsInUse(l.store, l.clock, Passed(calls), now);
    assert |Purged(l.store, now)| == |Purged(l.store, now).Keys|;
    ScriptDecides(
      l.store, r, now, FromAddress(Passed(calls), r, now / 60_000), FromGuest(Passed(calls), r, now / 60_000),
      |InUse(Passed(calls), now)|);
  }

  /* ---- any sixty seconds ---- */

  /** How many calls of a kind passed from the request's address in the sixty seconds from `from` on. */
  function AddressBetween(passed: seq<Call>, r: Request, from: int): nat {
    if passed == [] then 0
    else
      var last := passed[|passed| - 1];
      AddressBetween(passed[..|passed| - 1], r, from)
      + if from <= last.at < from + 60_000 && last.request.version == r.version && last.request.kind == r.kind
           && last.request.ip == r.ip then 1 else 0
  }

  function GuestBetween(passed: seq<Call>, r: Request, from: int): nat {
    if passed == [] then 0
    else
      var last := passed[|passed| - 1];
      GuestBetween(passed[..|passed| - 1], r, from)
      + if from <= last.at < from + 60_000 && last.request.version == r.version && last.request.kind == r.kind
           && last.request.guestDigest == r.guestDigest then 1 else 0
  }

  lemma {:induction false} TwoWindows(passed: seq<Call>, r: Request, from: int)
    ensures AddressBetween(passed, r, from)
         <= FromAddress(passed, r, from / 60_000) + FromAddress(passed, r, from / 60_000 + 1)
    ensures GuestBetween(passed, r, from) <= FromGuest(passed, r, from / 60_000) + FromGuest(passed, r, from / 60_000 + 1)
  {
    if passed != [] {
      TwoWindows(passed[..|passed| - 1], r, from);
    }
  }

  /** In a minute of the clock the calls that passed are within the limits. */
  lemma MinuteIsLimited(calls: seq<Call>, r: Request, minute: int)
    requires minute >= 0
    ensures FromAddress(Passed(calls), r, minute)
         <= match r.kind case SessionKind => 10 case AutocompleteKind => 300 case MutationKind => 120
    ensures r.kind != SessionKind ==> FromGuest(Passed(calls), r, minute) <= if r.kind == AutocompleteKind then 120 else 30
  {
    EveryRunTells(calls);
    AdmittedAre(After(calls).log, Passed(calls), r, minute * 60_000);
    CountersAreExact(calls, IpKey(r, minute * 60_000), After(calls).clock);
    if r.kind != SessionKind {
      CountersAreExact(calls, GuestKey(r, minute * 60_000).value, After(calls).clock);
    }
  }

  /** In any sixty seconds an address and a guest pass at most twice their limits. */
  lemma TwiceTheLimit(calls: seq<Call>, r: Request, from: int)
    requires from >= 0
    ensures AddressBetween(Passed(calls), r, from)
         <= match r.kind case SessionKind => 20 case AutocompleteKind => 600 case MutationKind => 240
    ensures r.kind != SessionKind ==>
      GuestBetween(Passed(calls), r, from) <= if r.kind == AutocompleteKind then 240 else 60
  {
    TwoWindows(Passed(calls), r, from);
    MinuteIsLimited(calls, r, from / 60_000);
    MinuteIsLimited(calls, r, from / 60_000 + 1);
  }

  /* ---- the script as it runs ---- */

  class Redis {
    var counters: map<Key, Counter>
    var registry: map<Key, int>
    var registryExpiry: int

    function Contents(): Store
      reads this
    {
      Store(counters, registry, registryExpiry)
    }

    /** INCR, PEXPIRE and ZADD of one counter. */
    method Increment(k: Key, now: int)
      modifies this`counters, this`registry
      ensures Contents() == Bump(old(Contents()), k, now)
    {
      var count := Count(Contents(), k, now);
      counters := counters[k := Counter(count + 1, now + TTL)];
      registry := registry[k := now + TTL];
    }

    method Run(r: Request, now: int) returns (decision: Decision)
      modifies this
      ensures (Contents(), decision) == Consume(old(Contents()), r, now)
    {
      var ip, guest := IpKey(r, now), GuestKey(r, now);
      var reset := 60 - now / 1000 % 60;
      var currentIp := Count(Contents(), ip, now);
      var currentGuest := if guest.Some? then Count(Contents(), guest.value, now) else 0;
      if currentIp >= Limit(ip.id) || (guest.Some? && currentGuest >= Limit(guest.value.id)) {
        return Denied(reset);
      }
      var needed := (if currentIp == 0 then 1 else 0) + if guest.Some? && currentGuest == 0 then 1 else 0;
      registry := Purged(Contents(), now);
      if |registry| + needed > MAXIMUM_KEYS {
        return Denied(reset);
      }
      Increment(ip, now);
      if guest.Some? {
        Increment(guest.value, now);
      }
      registryExpiry := now + TTL;
      return Allowed;
    }
  }
}
