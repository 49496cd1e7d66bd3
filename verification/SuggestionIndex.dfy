/** The canonical suggestion index (packages/cache/src/suggestions.ts) and the filter over it
    (packages/database/src/gameplay/suggestions.ts). */
module SuggestionIndex {
  import opened Basics
  import opened Sorting

  datatype Entity = Entity(
    id: string, name: string, role: string, aliases: seq<string>, searchName: string, searchRole: string,
    searchAliases: seq<string>, rank: int)

  datatype Index = Index(revision: string, entities: seq<Entity>)

  const MAX_ENTITIES: int := 1_000
  const MAX_ALIASES: nat := 32

  /* ---- what is valid ---- */

  predicate Text(s: string, max: nat) {
    1 <= |s| <= max && forall i | 0 <= i < |s| :: ' ' <= s[i] && s[i] as int != 127
  }

  predicate Alphanumeric(c: char) { 'a' <= c <= 'z' || 'A' <= c <= 'Z' || '0' <= c <= '9' }

  predicate Identifier(s: string) {
    Text(s, 128) && Alphanumeric(s[0]) && forall i | 0 <= i < |s| :: Alphanumeric(s[i]) || s[i] == '_' || s[i] == '-'
  }

  predicate Texts(s: seq<string>) { |s| <= MAX_ALIASES && forall i | 0 <= i < |s| :: Text(s[i], 512) }

  predicate EntityFits(e: Entity) {
    && Identifier(e.id) && 0 <= e.rank < MAX_ENTITIES
    && Texts(e.aliases) && Texts(e.searchAliases) && |e.aliases| == |e.searchAliases|
    && Text(e.name, 512) && Text(e.role, 512) && Text(e.searchName, 512) && Text(e.searchRole, 512)
  }

  predicate HexDigits(s: string) {
    forall i | 0 <= i < |s| :: '0' <= s[i] <= '9' || 'a' <= s[i] <= 'f'
  }

  /** A canonical lower-case UUID. */
  predicate RevisionFits(s: string) {
    && |s| == 36 && s[8] == '-' && s[13] == '-' && s[18] == '-' && s[23] == '-'
    && HexDigits(s[..8]) && HexDigits(s[9..13]) && HexDigits(s[14..18]) && HexDigits(s[19..23]) && HexDigits(s[24..])
  }

  ghost predicate IdsDiffer(es: seq<Entity>) { forall i, j | 0 <= i < j < |es| :: es[i].id != es[j].id }

  ghost predicate RanksDiffer(es: seq<Entity>) { forall i, j | 0 <= i < j < |es| :: es[i].rank != es[j].rank }

  ghost predicate IndexFits(x: Index) {
    && RevisionFits(x.revision) && |x.entities| <= MAX_ENTITIES
    && (forall i | 0 <= i < |x.entities| :: EntityFits(x.entities[i]))
    && IdsDiffer(x.entities) && RanksDiffer(x.entities)
  }

  /* ---- the order of the ranks ---- */

  predicate RanksBefore(a: Entity, b: Entity) { a.rank < b.rank }

  function SortByRank(es: seq<Entity>): seq<Entity> { SortBy(es, RanksBefore) }

  ghost predicate Rising(es: seq<Entity>) { Ordered(es, RanksBefore) }

  lemma SortedByRank(es: seq<Entity>)
    requires RanksDiffer(es)
    ensures multiset(SortByRank(es)) == multiset(es) && Rising(SortByRank(es))
  {
    SortKeeps(es, RanksBefore);
    SortOrders(es, RanksBefore);
  }

  /* ---- validate, serialize, parse ---- */

  ghost function Validate(x: Index): Option<Index> {
    if IndexFits(x) then Some(Index(x.revision, SortByRank(x.entities))) else None
  }

  lemma FitsByMultiset(x: Index, y: Index)
    requires IndexFits(x) && y.revision == x.revision && multiset(y.entities) == multiset(x.entities) && Rising(y.entities)
    ensures IndexFits(y)
  {
    assert |y.entities| == |multiset(y.entities)| == |x.entities|;
    forall i | 0 <= i < |y.entities| ensures EntityFits(y.entities[i]) {
      assert y.entities[i] in multiset(x.entities);
    }
    forall i, j | 0 <= i < j < |y.entities| ensures y.entities[i].id != y.entities[j].id {
      SameIdSameEntity(x, y.entities[i], y.entities[j]);
    }
  }

  lemma SameIdSameEntity(x: Index, a: Entity, b: Entity)
    requires IdsDiffer(x.entities) && a in multiset(x.entities) && b in multiset(x.entities) && a.rank != b.rank
    ensures a.id != b.id
  {
    var i :| 0 <= i < |x.entities| && x.entities[i] == a;
    var j :| 0 <= j < |x.entities| && x.entities[j] == b;
    assert i < j || j < i;
  }

  /** Validating again changes nothing: the result is valid and already in order. */
  lemma ValidateIsIdempotent(x: Index)
    requires Validate(x).Some?
    ensures Validate(Validate(x).value) == Validate(x)
    ensures multiset(Validate(x).value.entities) == multiset(x.entities) && Rising(Validate(x).value.entities)
    ensures var es := Validate(x).value.entities; forall i, j | 0 <= i < j < |es| :: es[i].rank < es[j].rank
  {
    var y := Validate(x).value;
    SortedByRank(x.entities);
    FitsByMultiset(x, y);
    SortedByRank(y.entities);
    OrderIsUnique(SortByRank(y.entities), y.entities, RanksBefore);
  }

  /** The stored text, as far as it matters: text that is no JSON of the right shape, or the text of an index. */
  datatype Stored = Garbage | TextOf(index: Index)

  /** `Short` tells whether the JSON text of an index is within the byte limit. */
  ghost function Serialize(x: Index, short: Index -> bool): Option<Stored> {
    match Validate(x)
    case None => None
    case Some(y) => if short(y) then Some(TextOf(y)) else None
  }

  ghost function Parse(raw: Stored, short: Index -> bool): Option<Index> {
    match raw
    case Garbage => None
    case TextOf(x) => if short(x) then Validate(x) else None
  }

  /** Whatever was serialized is read back as the same entities in the order of their ranks. */
  lemma ParseUndoesSerialize(x: Index, short: Index -> bool)
    requires Serialize(x, short).Some?
    ensures var r := Parse(Serialize(x, short).value, short);
      && r.Some? && r == Validate(x) && r.value.revision == x.revision
      && multiset(r.value.entities) == multiset(x.entities)
      && (forall i, j | 0 <= i < j < |r.value.entities| :: r.value.entities[i].rank < r.value.entities[j].rank)
  {
    ValidateIsIdempotent(x);
  }

  /** The loop over the entities with its sets of ids and ranks. */
  method EntitiesFit(entities: seq<Entity>) returns (fit: bool)
    ensures fit <==>
      (forall i | 0 <= i < |entities| :: EntityFits(entities[i])) && IdsDiffer(entities) && RanksDiffer(entities)
  {
    var ids: set<string>, ranks: set<int> := {}, {};
    for i := 0 to |entities|
      invariant forall j | 0 <= j < i :: EntityFits(entities[j])
      invariant IdsDiffer(entities[..i]) && RanksDiffer(entities[..i])
      invariant forall id :: id in ids <==> exists j :: 0 <= j < i && entities[j].id == id
      invariant forall rank :: rank in ranks <==> exists j :: 0 <= j < i && entities[j].rank == rank
    {
      var entity := entities[i];
      if !EntityFits(entity) || entity.id in ids || entity.rank in ranks {
        return false;
      }
      ids, ranks := ids + {entity.id}, ranks + {entity.rank};
    }
    assert entities[..|entities|] == entities;
    return true;
  }

  /** validate: the loop fills the sets of ids and ranks seen so far. */
  method ValidateIndex(x: Index) returns (r: Option<Index>)
    ensures r == Validate(x)
  {
    if !RevisionFits(x.revision) || |x.entities| > MAX_ENTITIES {
      return None;
    }
    var fit := EntitiesFit(x.entities);
    if !fit {
      return None;
    }
    return Some(Index(x.revision, SortByRank(x.entities)));
  }

  /* ---- the filter ---- */

  predicate StartsWith(s: string, q: string) { |q| <= |s| && s[..|q|] == q }

  predicate Includes(s: string, q: string) { StartsWith(s, q) || (s != [] && Includes(s[1..], q)) }

  predicate Matches(e: Entity, q: string) {
    Includes(e.searchName, q) || Includes(e.searchRole, q) || exists i :: 0 <= i < |e.searchAliases| && Includes(e.searchAliases[i], q)
  }

  function Class(e: Entity, q: string): int {
    if e.searchName == q then 0
    else if q in e.searchAliases then 1
    else if StartsWith(e.searchName, q) then 2
    else if StartsWith(e.searchRole, q) then 3
    else 4
  }

  predicate Before(a: Entity, b: Entity, q: string) {
    Class(a, q) < Class(b, q) || (Class(a, q) == Class(b, q) && a.rank < b.rank)
  }

  function Matching(es: seq<Entity>, q: string): seq<Entity> {
    if es == [] then []
    else Matching(es[..|es| - 1], q) + if Matches(es[|es| - 1], q) then [es[|es| - 1]] else []
  }

  function Ranking(q: string): (Entity, Entity) -> bool { (a, b) => Before(a, b, q) }

  datatype Suggestion = Suggestion(id: string, name: string, role: string, aliases: seq<string>)

  function Project(e: Entity): Suggestion { Suggestion(e.id, e.name, e.role, e.aliases) }

  function First(es: seq<Entity>): seq<Entity> { if |es| <= 20 then es else es[..20] }

  /** filterSuggestionIndex; `q` is the query in lower case. */
  function Filter(x: Index, q: string): seq<Suggestion> {
    var best := First(SortBy(Matching(x.entities, q), Ranking(q)));
    seq(|best|, i requires 0 <= i < |best| => Project(best[i]))
  }

  /** The matches are a part of the entities, each as often as before, and their ranks still differ. */
  lemma {:induction false} MatchingCounts(es: seq<Entity>, q: string, e: Entity)
    ensures multiset(Matching(es, q))[e] == if Matches(e, q) then multiset(es)[e] else 0
  {
    if es != [] {
      var front, last := es[..|es| - 1], es[|es| - 1];
      MatchingCounts(front, q, e);
      assert es == front + [last];
    }
  }

  lemma {:induction false} MatchingRanks(es: seq<Entity>, q: string)
    requires RanksDiffer(es)
    ensures RanksDiffer(Matching(es, q))
  {
    if es != [] {
      var front, last := es[..|es| - 1], es[|es| - 1];
      MatchingRanks(front, q);
      var m := Matching(front, q);
      forall i | 0 <= i < |m| ensures m[i].rank != last.rank {
        MatchingCounts(front, q, m[i]);
        assert m[i] in multiset(m);
        assert m[i] in multiset(front);
        var j :| 0 <= j < |front| && front[j] == m[i];
        assert es[j].rank != es[|es| - 1].rank;
      }
    }
  }

  /** The result is the projection of the first twenty matches in the strict order of match class and rank. */
  lemma FilterIsFirstTwenty(x: Index, q: string) returns (order: seq<Entity>)
    requires RanksDiffer(x.entities)
    ensures Ordered(order, Ranking(q))
    ensures forall e :: multiset(order)[e] == if Matches(e, q) then multiset(x.entities)[e] else 0
    ensures |Filter(x, q)| == if |order| <= 20 then |order| else 20
    ensures forall i | 0 <= i < |Filter(x, q)| :: Filter(x, q)[i] == Project(order[i])
  {
    var matching := Matching(x.entities, q);
    order := SortBy(matching, Ranking(q));
    MatchingRanks(x.entities, q);
    SortKeeps(matching, Ranking(q));
    SortOrders(matching, Ranking(q));
    forall e ensures multiset(order)[e] == if Matches(e, q) then multiset(x.entities)[e] else 0 {
      MatchingCounts(x.entities, q, e);
    }
  }

  /** And it depends on the entities only, not on the order in which they are stored. */
  lemma FilterIgnoresOrder(x: Index, y: Index, q: string)
    requires RanksDiffer(x.entities) && RanksDiffer(y.entities) && multiset(x.entities) == multiset(y.entities)
    ensures Filter(x, q) == Filter(y, q)
  {
    var a := FilterIsFirstTwenty(x, q);
    var b := FilterIsFirstTwenty(y, q);
    assert multiset(a) == multiset(b);
    OrderIsUnique(a, b, Ranking(q));
  }

  /* ---- the filter in plain conditions ---- */

  predicate StandsAt(s: string, q: string, i: int) {
    0 <= i && i + |q| <= |s| && forall k | 0 <= k < |q| :: s[i + k] == q[k]
  }

  ghost predicate Contains(s: string, q: string) { exists i :: StandsAt(s, q, i) }

  ghost predicate Hits(e: Entity, q: string) {
    || Contains(e.searchName, q)
    || Contains(e.searchRole, q)
    || exists i :: 0 <= i < |e.searchAliases| && Contains(e.searchAliases[i], q)
  }

  predicate NamedAlias(e: Entity, q: string) { exists i :: 0 <= i < |e.searchAliases| && e.searchAliases[i] == q }

  predicate Begins(s: string, q: string) { |q| <= |s| && forall i | 0 <= i < |q| :: s[i] == q[i] }

  /** Exact names first, then exact aliases, then names that begin so, then roles that begin so, then the rest; within
      each the smaller rank. */
  predicate Comes(a: Entity, b: Entity, q: string) {
    if a.searchName == q || b.searchName == q then a.searchName == q && (b.searchName == q ==> a.rank < b.rank)
    else if NamedAlias(a, q) || NamedAlias(b, q) then NamedAlias(a, q) && (NamedAlias(b, q) ==> a.rank < b.rank)
    else if Begins(a.searchName, q) || Begins(b.searchName, q) then
      Begins(a.searchName, q) && (Begins(b.searchName, q) ==> a.rank < b.rank)
    else if Begins(a.searchRole, q) || Begins(b.searchRole, q) then
      Begins(a.searchRole, q) && (Begins(b.searchRole, q) ==> a.rank < b.rank)
    else a.rank < b.rank
  }

  /** The suggestions are the public columns of entities that hit, twenty at most, in that order; and a hit that is
      left out comes after all of a full list. */
  ghost predicate Suggests(es: seq<Entity>, q: string, picked: seq<Entity>, items: seq<Suggestion>) {
    && |items| == |picked| && |items| <= 20
    && (forall i | 0 <= i < |items| ::
          items[i] == Suggestion(picked[i].id, picked[i].name, picked[i].role, picked[i].aliases))
    && (forall e <- picked :: e in es && Hits(e, q))
    && (forall i, j | 0 <= i < j < |picked| :: Comes(picked[i], picked[j], q))
    && (forall e <- es | Hits(e, q) && e !in picked :: |items| == 20 && forall p <- picked :: Comes(p, e, q))
  }

  lemma {:induction false} IncludesIsContains(s: string, q: string)
    ensures Includes(s, q) <==> Contains(s, q)
  {
    assert StartsWith(s, q) <==> StandsAt(s, q, 0);
    if s != [] {
      IncludesIsContains(s[1..], q);
      forall i: int ensures i > 0 ==> (StandsAt(s, q, i) <==> StandsAt(s[1..], q, i - 1)) {
        ShiftedStands(s, q, i);
      }
      if Contains(s[1..], q) {
        var i :| StandsAt(s[1..], q, i);
        assert StandsAt(s, q, i + 1);
      }
      if Contains(s, q) {
        var i :| StandsAt(s, q, i);
        assert i == 0 || StandsAt(s[1..], q, i - 1);
      }
    }
  }

  lemma StandsIsSlice(s: string, q: string, i: int)
    requires 0 <= i && i + |q| <= |s|
    ensures StandsAt(s, q, i) <==> s[i..i + |q|] == q
  {
  }

  lemma ShiftedStands(s: string, q: string, i: int)
    requires s != []
    ensures i > 0 ==> (StandsAt(s, q, i) <==> StandsAt(s[1..], q, i - 1))
  {
    if i > 0 && i + |q| <= |s| {
      StandsIsSlice(s, q, i);
      StandsIsSlice(s[1..], q, i - 1);
      assert s[i..i + |q|] == s[1..][i - 1..i - 1 + |q|];
    }
  }

  lemma MatchesHits(e: Entity, q: string)
    ensures Matches(e, q) <==> Hits(e, q)
  {
    IncludesIsContains(e.searchName, q);
    IncludesIsContains(e.searchRole, q);
    forall i | 0 <= i < |e.searchAliases| ensures Includes(e.searchAliases[i], q) <==> Contains(e.searchAliases[i], q) {
      IncludesIsContains(e.searchAliases[i], q);
    }
  }

  lemma StartsIsBegins(s: string, q: string)
    ensures StartsWith(s, q) <==> Begins(s, q)
  {
  }

  lemma BeforeIsComes(a: Entity, b: Entity, q: string)
    ensures Before(a, b, q) <==> Comes(a, b, q)
  {
    StartsIsBegins(a.searchName, q);
    StartsIsBegins(b.searchName, q);
    StartsIsBegins(a.searchRole, q);
    StartsIsBegins(b.searchRole, q);
    assert q in a.searchAliases <==> NamedAlias(a, q);
    assert q in b.searchAliases <==> NamedAlias(b, q);
  }

  lemma FirstHolds(order: seq<Entity>, j: nat)
    requires j < |order|
    ensures j < 20 ==> order[j] in First(order)
  {
    if j < 20 {
      assert First(order)[j] == order[j];
    }
  }

  /** Who is left out of the first twenty comes after them. */
  lemma LeftOutComesLater(order: seq<Entity>, q: string, e: Entity)
    requires Ordered(order, Ranking(q)) && e in order && e !in First(order)
    ensures |First(order)| == 20 && forall p <- First(order) :: Comes(p, e, q)
  {
    var j :| 0 <= j < |order| && order[j] == e;
    FirstHolds(order, j);
    forall p <- First(order) ensures Comes(p, e, q) {
      var i :| 0 <= i < 20 && order[..20][i] == p;
      assert Ranking(q)(order[i], order[j]);
      BeforeIsComes(p, e, q);
    }
  }

  /** The filter, without its classes. */
  lemma FilterSuggests(x: Index, q: string) returns (picked: seq<Entity>)
    requires RanksDiffer(x.entities)
    ensures Suggests(x.entities, q, picked, Filter(x, q))
  {
    var order := FilterIsFirstTwenty(x, q);
    picked := First(order);
    forall e ensures e in order <==> e in x.entities && Hits(e, q) {
      MatchesHits(e, q);
      assert e in order <==> e in multiset(order);
      assert e in x.entities <==> e in multiset(x.entities);
      assert multiset(order)[e] == if Matches(e, q) then multiset(x.entities)[e] else 0;
    }
    forall i, j | 0 <= i < j < |picked| ensures Comes(picked[i], picked[j], q) {
      assert Ranking(q)(order[i], order[j]);
      BeforeIsComes(order[i], order[j], q);
    }
    forall e <- x.entities | Hits(e, q) && e !in picked ensures |picked| == 20 && forall p <- picked :: Comes(p, e, q) {
      LeftOutComesLater(order, q, e);
    }
    forall e <- picked ensures e in order {}
  }

  /** If an entity has the very name that was asked for, such an entity is the first suggestion. */
  lemma ExactNameComesFirst(x: Index, q: string, e: Entity)
    requires RanksDiffer(x.entities) && e in x.entities && e.searchName == q
    ensures Filter(x, q) != []
    ensures exists first <- x.entities ::
      first.searchName == q && Filter(x, q)[0] == Suggestion(first.id, first.name, first.role, first.aliases)
  {
    var picked := FilterSuggests(x, q);
    assert StandsAt(e.searchName, q, 0);
    assert Contains(e.searchName, q);
    assert picked != [];
    assert picked[0] in picked;
    if e in picked {
      var i :| 0 <= i < |picked| && picked[i] == e;
      assert i > 0 ==> Comes(picked[0], picked[i], q);
    }
  }

  /* ---- what is valid, in plain conditions ---- */

  ghost predicate Printable(s: string, max: nat) {
    0 < |s| <= max && forall c <- s :: 32 <= c as int && c as int != 127
  }

  ghost predicate WordChar(c: char) {
    48 <= c as int <= 57 || 65 <= c as int <= 90 || 97 <= c as int <= 122
  }

  /** At most a thousand entities with different ids and different ranks below a thousand; at most 32 aliases, each with
      its search text; texts of 1 to 512 printable characters, ids of 1 to 128 word characters. */
  ghost predicate PlainlyValid(x: Index) {
    && |x.revision| == 36
    && (forall i | 0 <= i < 36 ::
          if i in {8, 13, 18, 23} then x.revision[i] as int == 45
          else 48 <= x.revision[i] as int <= 57 || 97 <= x.revision[i] as int <= 102)
    && |x.entities| <= 1000
    && (forall e <- x.entities ::
          && Printable(e.id, 128) && WordChar(e.id[0]) && (forall c <- e.id :: WordChar(c) || c as int == 45 || c as int == 95)
          && 0 <= e.rank < 1000 && |e.aliases| == |e.searchAliases| <= 32
          && Printable(e.name, 512) && Printable(e.role, 512) && Printable(e.searchName, 512) && Printable(e.searchRole, 512)
          && (forall s <- e.aliases :: Printable(s, 512)) && (forall s <- e.searchAliases :: Printable(s, 512)))
    && (forall i, j | 0 <= i < j < |x.entities| :: x.entities[i].id != x.entities[j].id && x.entities[i].rank != x.entities[j].rank)
  }

  lemma TextIsPrintable(s: string, max: nat)
    ensures Text(s, max) <==> Printable(s, max)
  {
    if Text(s, max) {
      forall c <- s ensures 32 <= c as int && c as int != 127 {}
    }
    if Printable(s, max) {
      forall i | 0 <= i < |s| ensures ' ' <= s[i] && s[i] as int != 127 {
        assert s[i] in s;
      }
    }
  }

  lemma IdentifierIsPlain(s: string)
    ensures Identifier(s) <==>
      Printable(s, 128) && WordChar(s[0]) && (forall c <- s :: WordChar(c) || c as int == 45 || c as int == 95)
  {
    TextIsPrintable(s, 128);
    forall i | 0 <= i < |s| ensures s[i] in s {}
  }

  lemma TextsArePrintable(s: seq<string>)
    ensures Texts(s) <==> |s| <= 32 && forall t <- s :: Printable(t, 512)
  {
    forall i | 0 <= i < |s| ensures s[i] in s && (Text(s[i], 512) <==> Printable(s[i], 512)) {
      TextIsPrintable(s[i], 512);
    }
  }

  lemma EntityIsPlain(e: Entity)
    ensures EntityFits(e) <==>
      && Printable(e.id, 128) && WordChar(e.id[0]) && (forall c <- e.id :: WordChar(c) || c as int == 45 || c as int == 95)
      && 0 <= e.rank < 1000 && |e.aliases| == |e.searchAliases| <= 32
      && Printable(e.name, 512) && Printable(e.role, 512) && Printable(e.searchName, 512) && Printable(e.searchRole, 512)
      && (forall s <- e.aliases :: Printable(s, 512)) && (forall s <- e.searchAliases :: Printable(s, 512))
  {
    IdentifierIsPlain(e.id);
    TextIsPrintable(e.name, 512);
    TextIsPrintable(e.role, 512);
    TextIsPrintable(e.searchName, 512);
    TextIsPrintable(e.searchRole, 512);
    TextsArePrintable(e.aliases);
    TextsArePrintable(e.searchAliases);
  }

  lemma RevisionIsPlain(s: string)
    ensures RevisionFits(s) <==>
      && |s| == 36
      && (forall i | 0 <= i < 36 ::
            if i in {8, 13, 18, 23} then s[i] as int == 45 else 48 <= s[i] as int <= 57 || 97 <= s[i] as int <= 102)
  {
    if |s| == 36 {
      HexAt(s, 0, 8);
      HexAt(s, 9, 13);
      HexAt(s, 14, 18);
      HexAt(s, 19, 23);
      HexAt(s, 24, 36);
      assert s[24..36] == s[24..] && s[0..8] == s[..8];
    }
  }

  lemma HexAt(s: string, a: nat, b: nat)
    requires a <= b <= |s|
    ensures HexDigits(s[a..b]) <==> forall i | a <= i < b :: 48 <= s[i] as int <= 57 || 97 <= s[i] as int <= 102
  {
    forall i | a <= i < b ensures s[a..b][i - a] == s[i] {}
  }

  /** validate accepts exactly the plainly valid indexes. */
  lemma ValidIsPlain(x: Index)
    ensures Validate(x).Some? <==> PlainlyValid(x)
  {
    RevisionIsPlain(x.revision);
    forall i | 0 <= i < |x.entities| ensures x.entities[i] in x.entities {
      EntityIsPlain(x.entities[i]);
    }
    forall e <- x.entities ensures EntityFits(e) <==>
      && Printable(e.id, 128) && WordChar(e.id[0]) && (forall c <- e.id :: WordChar(c) || c as int == 45 || c as int == 95)
      && 0 <= e.rank < 1000 && |e.aliases| == |e.searchAliases| <= 32
      && Printable(e.name, 512) && Printable(e.role, 512) && Printable(e.searchName, 512) && Printable(e.searchRole, 512)
      && (forall s <- e.aliases :: Printable(s, 512)) && (forall s <- e.searchAliases :: Printable(s, 512))
    {
      EntityIsPlain(e);
    }
  }
}
