/** The suggestion cache in front of the database: the script and the adapters of
    packages/cache/src/suggestions/redis.ts, and readAttemptSuggestions of
    packages/database/src/gameplay/suggestions.ts. */
module SuggestionCache {
  import opened Basics
  import opened SuggestionIndex
  import G = GameplayLedger
  import AttemptEngine

  const TTL: int := 172_800_000
  const CAPACITY: nat := 15

  datatype Value = Value(raw: Stored, expiry: int)

  /** The cached texts by revision, and the registry of their ends, which is itself a key with an expiry. */
  datatype Cache = Cache(values: map<string, Value>, registry: map<string, int>, registryExpiry: int)

  function Purged(c: Cache, now: int): map<string, int> {
    if c.registryExpiry <= now then map[] else map k | k in c.registry && now < c.registry[k] :: c.registry[k]
  }

  /** The script as one atomic step; false when the registry is full. */
  function Set(c: Cache, revision: string, raw: Stored, now: int): (Cache, bool) {
    var purged := Purged(c, now);
    if revision !in purged && |purged| >= CAPACITY then (c.(registry := purged), false)
    else
      (Cache(c.values[revision := Value(raw, now + TTL)], purged[revision := now + TTL], now + TTL), true)
  }

  predicate LiveKey(c: Cache, revision: string, now: int) {
    revision in c.values && now < c.values[revision].expiry
  }

  /** The reader: a dead key, a text that does not parse and a foreign index are all misses. */
  ghost function Get(c: Cache, revision: string, now: int, short: Index -> bool): Option<Index> {
    if !LiveKey(c, revision, now) then None
    else
      match Parse(c.values[revision].raw, short)
      case None => None
      case Some(x) => if x.revision == revision then Some(x) else None
  }

  /* ---- runs ---- */

  /** Published content never changes: one index per revision, ranked by its row numbers. */
  type Published = map<string, Index>

  ghost predicate Numbered(x: Index) { forall i | 0 <= i < |x.entities| :: x.entities[i].rank == i }

  ghost predicate PublishedFits(p: Published) { forall r <- p :: p[r].revision == r && Numbered(p[r]) }

  /** The worker stores what it reads from the database; anything may be evicted, or be overwritten with a text
      that the reader rejects. */
  datatype Event = Warm(revision: string) | Evict(revision: string) | Corrupt(revision: string, raw: Stored)

  datatype Timed = Timed(event: Event, at: int)

  ghost predicate Rejectable(raw: Stored, revision: string, short: Index -> bool) {
    Parse(raw, short).None? || Parse(raw, short).value.revision != revision
  }

  ghost function Happen(p: Published, c: Cache, e: Event, now: int, short: Index -> bool): Cache {
    match e
    case Warm(revision) =>
      if revision !in p || Serialize(p[revision], short).None? then c
      else Set(c, revision, Serialize(p[revision], short).value, now).0
    case Evict(revision) => c.(values := map k | k in c.values && k != revision :: c.values[k])
    case Corrupt(revision, raw) =>
      if revision in c.values && Rejectable(raw, revision, short)
      then c.(values := c.values[revision := c.values[revision].(raw := raw)]) else c
  }

  datatype Moment = Moment(cache: Cache, clock: int)

  ghost function After(p: Published, events: seq<Timed>, short: Index -> bool): Moment {
    if events == [] then Moment(Cache(map[], map[], 0), 0)
    else
      var before, last := After(p, events[..|events| - 1], short), events[|events| - 1];
      if before.clock <= last.at then Moment(Happen(p, before.cache, last.event, last.at, short), last.at) else before
  }

  /** What the reader would accept is the published index in canonical order. */
  ghost predicate Honest(p: Published, c: Cache, short: Index -> bool) {
    forall r <- c.values ::
      Rejectable(c.values[r].raw, r, short) || (r in p && Parse(c.values[r].raw, short) == Validate(p[r]))
  }

  ghost predicate Registered(c: Cache, now: int) {
    && (forall r <- c.values | now < c.values[r].expiry :: r in c.registry && c.registry[r] == c.values[r].expiry)
    && (forall r <- c.registry :: c.registry[r] <= c.registryExpiry)
    && c.registryExpiry <= now + TTL
    && |c.registry| <= CAPACITY
  }

  lemma WarmIsHonest(p: Published, c: Cache, revision: string, now: int, short: Index -> bool)
    requires Honest(p, c, short) && revision in p && Serialize(p[revision], short).Some?
    ensures Honest(p, Set(c, revision, Serialize(p[revision], short).value, now).0, short)
  {
    ParseUndoesSerialize(p[revision], short);
  }

  lemma PurgedShrinks(c: Cache, now: int)
    ensures Purged(c, now).Keys <= c.registry.Keys && |Purged(c, now)| <= |c.registry|
  {
    SubsetSize(Purged(c, now).Keys, c.registry.Keys);
  }

  lemma OneMoreKey(registry: map<string, int>, revision: string, end: int)
    ensures |registry[revision := end]| == if revision in registry then |registry| else |registry| + 1
  {
    var after := registry[revision := end];
    assert after.Keys == registry.Keys + {revision};
  }

  lemma SetKeepsRegistered(c: Cache, revision: string, raw: Stored, before: int, now: int)
    requires Registered(c, before) && before <= now
    ensures Registered(Set(c, revision, raw, now).0, now)
  {
    PurgedShrinks(c, now);
    OneMoreKey(Purged(c, now), revision, now + TTL);
  }

  lemma EventKeeps(p: Published, c: Cache, e: Event, before: int, now: int, short: Index -> bool)
    requires PublishedFits(p) && Honest(p, c, short) && Registered(c, before) && before <= now
    ensures Honest(p, Happen(p, c, e, now, short), short) && Registered(Happen(p, c, e, now, short), now)
  {
    if e.Warm? && e.revision in p && Serialize(p[e.revision], short).Some? {
      WarmIsHonest(p, c, e.revision, now, short);
      SetKeepsRegistered(c, e.revision, Serialize(p[e.revision], short).value, before, now);
    }
  }

  lemma {:induction false} EveryRunHolds(p: Published, events: seq<Timed>, short: Index -> bool)
    requires PublishedFits(p)
    ensures Honest(p, After(p, events, short).cache, short)
    ensures Registered(After(p, events, short).cache, After(p, events, short).clock)
  {
    if events != [] {
      var before, last := After(p, events[..|events| - 1], short), events[|events| - 1];
      EveryRunHolds(p, events[..|events| - 1], short);
      if before.clock <= last.at {
        EventKeeps(p, before.cache, last.event, before.clock, last.at, short);
      }
    }
  }

  /** At no time do more than fifteen cache keys live. */
  lemma LiveKeysAreBounded(p: Published, events: seq<Timed>, short: Index -> bool, now: int)
    requires PublishedFits(p) && After(p, events, short).clock <= now
    ensures |set r | r in After(p, events, short).cache.values && LiveKey(After(p, events, short).cache, r, now)| <= 15
  {
    EveryRunHolds(p, events, short);
    var c := After(p, events, short).cache;
    SubsetSize((set r | r in c.values && LiveKey(c, r, now)), c.registry.Keys);
  }

  /* ---- the script and the reader, exactly ---- */

  /** How many registered revisions are alive. */
  ghost function AliveOthers(c: Cache, revision: string, now: int): set<string> {
    set r | r in c.registry && now < c.registry[r] && now < c.registryExpiry && r != revision
  }

  /** The script stores unless fifteen other revisions are alive; what it stores is alive for two days from then on,
      whatever was there before; and no other text changes. */
  lemma SetStoresExactly(c: Cache, revision: string, raw: Stored, now: int)
    ensures
      var (after, stored) := Set(c, revision, raw, now);
      var known := revision in c.registry && now < c.registry[revision] && now < c.registryExpiry;
      && (stored <==> known || |AliveOthers(c, revision, now)| < 15)
      && (!stored ==> after.values == c.values)
      && (stored ==>
            && after.values == c.values[revision := Value(raw, now + 172_800_000)]
            && revision in after.registry && after.registry[revision] == now + 172_800_000
            && (forall t: int :: LiveKey(after, revision, t) <==> t < now + 172_800_000))
  {
    var purged := Purged(c, now);
    if revision !in purged {
      assert purged.Keys == AliveOthers(c, revision, now);
    }
  }

  /** A published index that was stored is read, as long as its text lives and nobody touches it. */
  lemma StoredIsRead(p: Published, c: Cache, revision: string, now: int, later: int, short: Index -> bool)
    requires PublishedFits(p) && revision in p && Serialize(p[revision], short).Some?
    requires Set(c, revision, Serialize(p[revision], short).value, now).1 && later < now + 172_800_000
    ensures Get(Set(c, revision, Serialize(p[revision], short).value, now).0, revision, later, short) == Validate(p[revision])
  {
    ParseUndoesSerialize(p[revision], short);
  }

  /* ---- reading suggestions ---- */

  /** What the cache said: there is none, the adapter threw, or it answered. */
  datatype Answer = NoCache | CacheThrew | Answered(index: Option<Index>)

  datatype Reply = BadQuery | NotFound | Found(items: seq<Suggestion>)

  /** readAttemptSuggestions behind the authorization; `lower` is the query in lower case. */
  function Read(p: Published, revision: Option<string>, query: string, lower: string, answer: Answer): Reply {
    if |query| < 1 || |query| > 80 then BadQuery
    else if revision.None? then NotFound
    else
      var cached := if answer.Answered? then answer.index else None;
      match if cached.Some? then cached else if revision.value in p then Some(p[revision.value]) else None
      case None => NotFound
      case Some(index) => Found(Filter(index, lower))
  }

  /** A query of 1 to 80 characters, an authorized revision and its index, from the cache or published, give the
      filtered suggestions; anything else an error or nothing. */
  lemma ReadIs(p: Published, revision: Option<string>, query: string, lower: string, answer: Answer)
    ensures Read(p, revision, query, lower, answer) == BadQuery <==> !(1 <= |query| <= 80)
    ensures
      var hit := answer.Answered? && answer.index.Some?;
      Read(p, revision, query, lower, answer).Found? <==>
        1 <= |query| <= 80 && revision.Some? && (hit || revision.value in p)
    ensures Read(p, revision, query, lower, answer).Found? ==>
      Read(p, revision, query, lower, answer).items ==
      Filter(if answer.Answered? && answer.index.Some? then answer.index.value else p[revision.value], lower)
  {
  }

  lemma CanonicalFiltersAlike(x: Index, lower: string)
    requires Numbered(x) && Validate(x).Some?
    ensures Filter(Validate(x).value, lower) == Filter(x, lower)
  {
    ValidateIsIdempotent(x);
    FilterIgnoresOrder(Validate(x).value, x, lower);
  }

  /** The cache is transparent: with any mix of warming, expiry, eviction, rejectable corruption, misses and
      failures a guest gets the answer that the database alone would give. */
  lemma CacheIsTransparent(
    p: Published, events: seq<Timed>, short: Index -> bool, now: int, revision: Option<string>, query: string,
    lower: string, answer: Answer)
    requires PublishedFits(p)
    requires answer.Answered? && answer.index.Some? && revision.Some? ==>
      answer.index == Get(After(p, events, short).cache, revision.value, now, short)
    ensures Read(p, revision, query, lower, answer) == Read(p, revision, query, lower, NoCache)
  {
    if answer.Answered? && answer.index.Some? && revision.Some? {
      EveryRunHolds(p, events, short);
      var c := After(p, events, short).cache;
      assert Parse(c.values[revision.value].raw, short) == Validate(p[revision.value]);
      CanonicalFiltersAlike(p[revision.value], lower);
    }
  }

  /* ---- who may ask ---- */

  /** authorizeAttemptSuggestions: the guest's own running game of the current case, after what is due. */
  function Authorize(world: G.World, db: G.Db, guest: G.Id, id: G.Id, now: G.Time): (G.Db, Option<G.Id>) {
    if guest !in world.guests || !G.Owned(world, db, id, guest) then (db, None)
    else
      var after := G.ExpireIfClosed(world, db, id, now);
      var row := after.attempts[id];
      if row.at.state != AttemptEngine.Active || world.CurrentRevision(now) != Some(row.revision) then (after, None)
      else (after, Some(row.revision))
  }

  /** Suggestions are given for the case of the day only, to its player only, and never once the window has
      closed; asking changes nothing but the expiry that is due. */
  lemma AuthorizedIsPlaying(world: G.World, db: G.Db, guest: G.Id, id: G.Id, now: G.Time)
    requires world.Valid()
    ensures var (after, r) := Authorize(world, db, guest, id, now);
      r.Some? ==>
        && G.Owned(world, db, id, guest) && db.attempts[id].revision == r.value
        && world.revisions[r.value].OpensAt() <= now < world.revisions[r.value].ClosesAt()
        && after == db && db.attempts[id].at.state == AttemptEngine.Active
    ensures
      Authorize(world, db, guest, id, now).1.Some? <==>
        && guest in world.guests && G.Owned(world, db, id, guest) && db.attempts[id].at.state == AttemptEngine.Active
        && world.revisions[db.attempts[id].revision].slot == now / 86_400_000
    ensures var (after, r) := Authorize(world, db, guest, id, now);
      after == db || (G.Owned(world, db, id, guest) && after == G.ExpireIfClosed(world, db, id, now))
  {
  }

  /* ---- the script as it runs ---- */

  class CacheScript {
    var values: map<string, Value>
    var registry: map<string, int>
    var registryExpiry: int

    function Contents(): Cache
      reads this
    {
      Cache(values, registry, registryExpiry)
    }

    method Run(revision: string, raw: Stored, now: int) returns (stored: bool)
      modifies this
      ensures (Contents(), stored) == Set(old(Contents()), revision, raw, now)
    {
      registry := Purged(Contents(), now);
      var known := revision in registry;
      if !known && |registry| >= CAPACITY {
        return false;
      }
      registry := registry[revision := now + TTL];
      registryExpiry := now + TTL;
      values := values[revision := Value(raw, now + TTL)];
      return true;
    }
  }
}
