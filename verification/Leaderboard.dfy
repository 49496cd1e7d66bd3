/** The daily leaderboard: competition ranks (packages/domain/src/leaderboard.ts) and pages that follow a
    position (packages/database/src/gameplay/leaderboard.ts) while rows are still being inserted. */
module Leaderboard {
  import opened Basics
  import opened Sorting
  import opened AttemptEngine
  import opened GameplayLedger
  import opened GameplayInvariant
  import opened GameplayHistory
  import opened GameplayTheorems

  /** The ordering columns of a row. The attempt id is a number in the order of its canonical text. */
  datatype Position = Position(e: int, W: int, elapsed: int, id: Id)

  /** comparePerformance < 0 and == 0 */
  predicate Better(a: Position, b: Position) {
    || a.e < b.e
    || (a.e == b.e && a.W < b.W)
    || (a.e == b.e && a.W == b.W && a.elapsed < b.elapsed)
  }

  predicate SamePerformance(a: Position, b: Position) {
    a.e == b.e && a.W == b.W && a.elapsed == b.elapsed
  }

  /** comparePaginationOrder < 0 */
  predicate Less(a: Position, b: Position) {
    Better(a, b) || (SamePerformance(a, b) && a.id < b.id)
  }

  ghost predicate Ascending(s: seq<Position>) { forall i, j | 0 <= i < j < |s| :: Less(s[i], s[j]) }

  ghost function Members(s: seq<Position>): set<Position> { set p | p in s }

  /** The rows of a table in pagination order. */
  ghost predicate Lists(s: seq<Position>, table: set<Position>) {
    Ascending(s) && forall p :: p in s <==> p in table
  }

  lemma EmptyListing(s: seq<Position>, table: set<Position>)
    requires Lists(s, table)
    ensures s == [] <==> table == {}
  {
    if s != [] {
      assert s[0] in s;
    }
  }

  lemma {:induction false} ListingIsUnique(s: seq<Position>, t: seq<Position>, table: set<Position>)
    requires Lists(s, table) && Lists(t, table)
    ensures s == t
  {
    EmptyListing(s, table);
    EmptyListing(t, table);
    if s != [] {
      FirstIsLeast(s, table, t[0]);
      FirstIsLeast(t, table, s[0]);
      TailLists(s, table);
      TailLists(t, table);
      ListingIsUnique(s[1..], t[1..], table - {s[0]});
    }
  }

  lemma FirstIsLeast(s: seq<Position>, table: set<Position>, p: Position)
    requires Lists(s, table) && p in table
    ensures s != [] && (p == s[0] || Less(s[0], p))
  {
    var i :| 0 <= i < |s| && s[i] == p;
  }

  lemma TailLists(s: seq<Position>, table: set<Position>)
    requires Lists(s, table) && s != []
    ensures Lists(s[1..], table - {s[0]})
  {
    assert s == [s[0]] + s[1..];
  }

  lemma LessIsStrict()
    ensures StrictOrder(Less)
  {
  }

  lemma OrderedIsAscending(s: seq<Position>)
    ensures Ordered(s, Less) <==> Ascending(s)
  {
  }

  /** [...candidates].sort(comparePaginationOrder) */
  function Sorted(candidates: seq<Position>): seq<Position> { SortBy(candidates, Less) }

  ghost predicate Distinct(s: seq<Position>) { forall i, j | 0 <= i < j < |s| :: s[i].id != s[j].id }

  lemma SortedLists(candidates: seq<Position>)
    requires Distinct(candidates)
    ensures Lists(Sorted(candidates), Members(candidates)) && |Sorted(candidates)| == |candidates|
  {
    LessIsStrict();
    SortKeeps(candidates, Less);
    SortOrders(candidates, Less);
    OrderedIsAscending(Sorted(candidates));
    forall p ensures p in Sorted(candidates) <==> p in Members(candidates) {
      assert p in Sorted(candidates) <==> p in multiset(Sorted(candidates));
      assert p in candidates <==> p in multiset(candidates);
    }
    assert |Sorted(candidates)| == |multiset(Sorted(candidates))|;
  }

  /* ---- ranks ---- */

  ghost function Ahead(table: set<Position>, p: Position): set<Position> { set q | q in table && Better(q, p) }

  /** SQL rank(): one more than the number of strictly better rows. */
  ghost function Rank(table: set<Position>, p: Position): nat { 1 + |Ahead(table, p)| }

  lemma LastIsNew(s: seq<Position>)
    requires Ascending(s) && s != []
    ensures s[|s| - 1] !in s[..|s| - 1]
  {
    var front, last := s[..|s| - 1], s[|s| - 1];
    forall p | p in front ensures p != last {
      var i :| 0 <= i < |front| && front[i] == p;
      assert Less(s[i], last);
    }
  }

  lemma {:induction false} CountMembers(s: seq<Position>)
    requires Ascending(s)
    ensures |Members(s)| == |s|
  {
    if s != [] {
      var front, last := s[..|s| - 1], s[|s| - 1];
      CountMembers(front);
      assert s == front + [last];
      assert Members(s) == Members(front) + {last};
      LastIsNew(s);
    }
  }

  /** A row that differs in performance from the one before it has exactly the rows before it ahead. */
  lemma AheadOfFirst(s: seq<Position>, table: set<Position>, i: nat)
    requires Lists(s, table) && i < |s| && (i > 0 ==> !SamePerformance(s[i - 1], s[i]))
    ensures Rank(table, s[i]) == i + 1
  {
    forall q ensures q in Ahead(table, s[i]) <==> q in Members(s[..i]) {
      if q in Ahead(table, s[i]) {
        var j :| 0 <= j < |s| && s[j] == q;
        assert j > i ==> Less(s[i], s[j]);
        assert s[..i][j] == q;
      }
      if q in Members(s[..i]) {
        var j :| 0 <= j < i && s[..i][j] == q;
        assert s[j] in s;
        assert Less(s[j], s[i]) && (j < i - 1 ==> Less(s[j], s[i - 1])) && Less(s[i - 1], s[i]);
      }
    }
    assert Ahead(table, s[i]) == Members(s[..i]);
    CountMembers(s[..i]);
  }

  lemma SameRank(table: set<Position>, p: Position, q: Position)
    requires SamePerformance(p, q)
    ensures Rank(table, p) == Rank(table, q)
  {
    assert Ahead(table, p) == Ahead(table, q);
  }

  datatype Ranked = Ranked(position: Position, rank: nat)

  function Positions(rows: seq<Ranked>): seq<Position> { seq(|rows|, i requires 0 <= i < |rows| => rows[i].position) }

  /** The rows with their ranks in a table. */
  ghost function RankAll(table: set<Position>, items: seq<Position>): seq<Ranked> {
    seq(|items|, i requires 0 <= i < |items| => Ranked(items[i], Rank(table, items[i])))
  }

  /* in the columns */

  /** The first column that differs decides: less evidence, fewer wrong guesses, less time. */
  predicate Outranks(a: Position, b: Position) {
    if a.e != b.e then a.e < b.e else if a.W != b.W then a.W < b.W else a.elapsed < b.elapsed
  }

  /** And at last the smaller id. */
  predicate Precedes(a: Position, b: Position) {
    if a.e != b.e then a.e < b.e
    else if a.W != b.W then a.W < b.W
    else if a.elapsed != b.elapsed then a.elapsed < b.elapsed
    else a.id < b.id
  }

  /** Who has less evidence, or as much and fewer wrong guesses, or as many and less time, stands earlier with a
      smaller rank; equal results share a rank, and the smaller id stands first. */
  ghost predicate ByColumns(rows: seq<Ranked>) {
    forall i, j | 0 <= i < |rows| && 0 <= j < |rows| ::
      var a, b := rows[i].position, rows[j].position;
      && (Outranks(a, b) ==> i < j && rows[i].rank < rows[j].rank)
      && (a.e == b.e && a.W == b.W && a.elapsed == b.elapsed ==> rows[i].rank == rows[j].rank && (a.id < b.id ==> i < j))
  }

  lemma ColumnsDecide(a: Position, b: Position)
    ensures (Better(a, b) <==> Outranks(a, b)) && (Less(a, b) <==> Precedes(a, b))
  {
  }

  /** Who is outranked has everybody ahead who is ahead of the other, and the other. */
  lemma OutrankedIsLower(table: set<Position>, p: Position, q: Position)
    requires p in table && Better(p, q)
    ensures Rank(table, p) < Rank(table, q)
  {
    SubsetSize(Ahead(table, p) + {p}, Ahead(table, q));
  }

  lemma RankedByColumns(rows: seq<Ranked>, table: set<Position>)
    requires Ascending(Positions(rows))
    requires forall row <- rows :: row.position in table && row.rank == Rank(table, row.position)
    ensures ByColumns(rows)
  {
    forall i, j | 0 <= i < |rows| && 0 <= j < |rows|
      ensures Outranks(rows[i].position, rows[j].position) ==> i < j && rows[i].rank < rows[j].rank
      ensures
        var a, b := rows[i].position, rows[j].position;
        a.e == b.e && a.W == b.W && a.elapsed == b.elapsed ==> rows[i].rank == rows[j].rank && (a.id < b.id ==> i < j)
    {
      RankedPair(rows, table, i, j);
    }
  }

  lemma RankedPair(rows: seq<Ranked>, table: set<Position>, i: nat, j: nat)
    requires Ascending(Positions(rows)) && i < |rows| && j < |rows|
    requires forall row <- rows :: row.position in table && row.rank == Rank(table, row.position)
    ensures Outranks(rows[i].position, rows[j].position) ==> i < j && rows[i].rank < rows[j].rank
    ensures
      var a, b := rows[i].position, rows[j].position;
      a.e == b.e && a.W == b.W && a.elapsed == b.elapsed ==> rows[i].rank == rows[j].rank && (a.id < b.id ==> i < j)
  {
    var a, b := rows[i].position, rows[j].position;
    assert rows[i] in rows && rows[j] in rows && Positions(rows)[i] == a && Positions(rows)[j] == b;
    ColumnsDecide(a, b);
    if Better(a, b) {
      OutrankedIsLower(table, a, b);
    }
    if SamePerformance(a, b) {
      SameRank(table, a, b);
    }
  }

  /** assertLeaderboardCandidate; every candidate of this type is a solved attempt. */
  predicate FitsBoard(p: Position) {
    0 <= p.e <= 4 && 0 <= p.W <= p.e * 3 + 2 && 0 <= p.elapsed <= MAX_SAFE_INTEGER
  }

  /** A candidate is accepted exactly if some game can end so, solved at this level with so many wrong guesses, and its
      time is a safe integer that is not negative. */
  lemma AcceptedIsPlayable(p: Position)
    ensures FitsBoard(p) <==>
      0 <= p.elapsed <= 9_007_199_254_740_991 && exists w: int :: Reachable(Snapshot(Solved, p.e, w, p.W))
  {
    forall w: int ensures Reachable(Snapshot(Solved, p.e, w, p.W)) <==> ValidSnapshot(Snapshot(Solved, p.e, w, p.W)) {
      SnapshotCheckIsExact(Snapshot(Solved, p.e, w, p.W));
    }
    if FitsBoard(p) {
      var w := if p.W <= 3 * p.e then 0 else p.W - 3 * p.e;
      assert ValidSnapshot(Snapshot(Solved, p.e, w, p.W));
    }
  }

  /** rankLeaderboard: throws on an unreachable candidate or a repeated attempt; otherwise lists all of them in
      pagination order, each with its competition rank. */
  method RankLeaderboard(candidates: seq<Position>) returns (r: Option<seq<Ranked>>)
    ensures r.Some? <==> (forall p <- candidates :: FitsBoard(p)) && Distinct(candidates)
    ensures r.Some? ==>
      && |r.value| == |candidates|
      && Lists(seq(|r.value|, i requires 0 <= i < |r.value| => r.value[i].position), Members(candidates))
      && (forall i | 0 <= i < |r.value| :: r.value[i].rank == Rank(Members(candidates), r.value[i].position))
      && ByColumns(r.value)
  {
    var ids: set<Id> := {};
    for i := 0 to |candidates|
      invariant forall j | 0 <= j < i :: FitsBoard(candidates[j])
      invariant Distinct(candidates[..i])
      invariant forall id :: id in ids <==> exists j :: 0 <= j < i && candidates[j].id == id
    {
      if !FitsBoard(candidates[i]) {
        return None;
      }
      if candidates[i].id in ids {
        return None;
      }
      ids := ids + {candidates[i].id};
    }
    assert candidates[..|candidates|] == candidates;
    var ordered := Sorted(candidates);
    SortedLists(candidates);
    var ranked: seq<Ranked> := [];
    var previous := 0;
    for i := 0 to |ordered|
      invariant |ranked| == i
      invariant forall j | 0 <= j < i ::
        ranked[j].position == ordered[j] && ranked[j].rank == Rank(Members(candidates), ordered[j])
      invariant i > 0 ==> previous == Rank(Members(candidates), ordered[i - 1])
    {
      var rank := if i > 0 && SamePerformance(ordered[i - 1], ordered[i]) then previous else i + 1;
      if i > 0 && SamePerformance(ordered[i - 1], ordered[i]) {
        SameRank(Members(candidates), ordered[i - 1], ordered[i]);
      } else {
        AheadOfFirst(ordered, Members(candidates), i);
      }
      previous := rank;
      ranked := ranked + [Ranked(ordered[i], rank)];
    }
    assert seq(|ranked|, i requires 0 <= i < |ranked| => ranked[i].position) == ordered;
    assert Positions(ranked) == ordered;
    RankedByColumns(ranked, Members(candidates));
    return Some(ranked);
  }

  /* ---- pages ---- */

  ghost function Behind(table: set<Position>, cursor: Option<Position>): set<Position> {
    set p | p in table && (cursor.None? || Less(cursor.value, p))
  }

  /** One page: the first rows behind the cursor, and the last of them as the next cursor when the query for
      one row more found it. */
  ghost predicate IsPage(
    table: set<Position>, cursor: Option<Position>, limit: nat, items: seq<Position>, next: Option<Position>)
  {
    exists rows :: IsPageOf(rows, table, cursor, limit, items, next)
  }

  ghost predicate IsPageOf(
    rows: seq<Position>, table: set<Position>, cursor: Option<Position>, limit: nat, items: seq<Position>,
    next: Option<Position>)
  {
    && limit >= 1
    && Lists(rows, Behind(table, cursor))
    && items == (if |rows| <= limit then rows else rows[..limit])
    && next == (if |rows| <= limit then None else Some(rows[limit - 1]))
  }

  lemma InsertLists(s: seq<Position>, p: Position, table: set<Position>)
    requires Lists(s, table) && p !in table
    ensures Lists(InsertBy(s, p, Less), table + {p})
  {
    LessIsStrict();
    OrderedIsAscending(s);
    forall y | y in multiset(s) ensures Less(p, y) || Less(y, p) {
      assert y in s;
    }
    InsertOrders(s, p, Less);
    InsertAdds(s, p, Less);
    var t := InsertBy(s, p, Less);
    OrderedIsAscending(t);
    forall q ensures q in t <==> q in table + {p} {
      assert q in t <==> q in multiset(t);
      assert q in s <==> q in multiset(s);
    }
  }

  lemma {:induction false} ListingExists(table: set<Position>)
    ensures exists s :: Lists(s, table)
    decreases |table|
  {
    if table == {} {
      assert Lists([], table);
    } else {
      var p :| p in table;
      ListingExists(table - {p});
      var s :| Lists(s, table - {p});
      InsertLists(s, p, table - {p});
      assert table - {p} + {p} == table;
    }
  }

  /** The page in columns: rows that come after the cursor, as many as the limit allows; what is left out comes after
      all of them; and there is a next position, the last row, exactly when something is left out. */
  ghost predicate NextByColumns(
    table: set<Position>, cursor: Option<Position>, limit: int, items: seq<Position>, next: Option<Position>)
  {
    var behind := set p | p in table && (cursor.None? || Precedes(cursor.value, p));
    && |items| <= limit
    && (forall p <- items :: p in behind)
    && (forall p <- behind | p !in items :: |items| == limit && forall q <- items :: Precedes(q, p))
    && (next.Some? <==> exists p <- behind :: p !in items)
    && (next.Some? ==> items != [] && next.value == items[|items| - 1])
  }

  lemma PageByColumns(
    table: set<Position>, cursor: Option<Position>, limit: nat, items: seq<Position>, next: Option<Position>)
    requires IsPage(table, cursor, limit, items, next)
    ensures NextByColumns(table, cursor, limit, items, next) && ByColumns(RankAll(table, items))
    ensures forall row <- RankAll(table, items) :: row.rank == 1 + |set q | q in table && Outranks(q, row.position)|
  {
    PageFacts(table, cursor, limit, items, next);
    PageIsFull(table, cursor, limit, items, next);
    assert Positions(RankAll(table, items)) == items;
    RankedByColumns(RankAll(table, items), table);
    forall row <- RankAll(table, items) ensures row.rank == 1 + |set q | q in table && Outranks(q, row.position)| {
      AheadByColumns(table, row.position);
    }
  }

  lemma AheadByColumns(table: set<Position>, p: Position)
    ensures Ahead(table, p) == set q | q in table && Outranks(q, p)
  {
    forall q ensures Better(q, p) <==> Outranks(q, p) {
      ColumnsDecide(q, p);
    }
  }

  lemma PageIsFull(
    table: set<Position>, cursor: Option<Position>, limit: nat, items: seq<Position>, next: Option<Position>)
    requires IsPage(table, cursor, limit, items, next)
    ensures NextByColumns(table, cursor, limit, items, next)
  {
    var rows :| IsPageOf(rows, table, cursor, limit, items, next);
    forall a: Position, b: Position ensures Less(a, b) <==> Precedes(a, b) {
      ColumnsDecide(a, b);
    }
    assert Behind(table, cursor) == set p | p in table && (cursor.None? || Precedes(cursor.value, p));
    forall p <- items ensures p in rows {}
    forall p <- Behind(table, cursor) | p !in items ensures |items| == limit && forall q <- items :: Less(q, p) {
      var i :| 0 <= i < |rows| && rows[i] == p;
      LeftOut(rows, limit, i);
    }
    if next.Some? {
      LeftOut(rows, limit, limit);
      assert rows[limit] in rows;
    }
  }

  lemma LeftOut(rows: seq<Position>, limit: nat, i: nat)
    requires Ascending(rows) && i < |rows| && limit >= 1
    ensures i >= limit ==> rows[i] !in rows[..limit] && forall q <- rows[..limit] :: Less(q, rows[i])
    ensures i < limit <= |rows| ==> rows[i] in rows[..limit]
  {
    if i >= limit {
      forall q <- rows[..limit] ensures Less(q, rows[i]) {
        var j :| 0 <= j < limit && rows[..limit][j] == q;
        assert Less(rows[j], rows[i]);
      }
    } else if limit <= |rows| {
      assert rows[..limit][i] == rows[i];
    }
  }

  /** readDailyLeaderboardPage on the rows of the slot: refused when the limit is out of range or the cursor is
      not one of the rows. Every item comes with its rank among all rows of the slot, not only those behind the
      cursor. */
  ghost function ReadPage(table: set<Position>, cursor: Option<Position>, limit: int)
    : (r: Option<(seq<Ranked>, Option<Position>)>)
    ensures r.None? <==> !(1 <= limit <= 100) || (cursor.Some? && cursor.value !in table)
    ensures r.Some? ==> IsPage(table, cursor, limit, Positions(r.value.0), r.value.1)
    ensures r.Some? ==> forall row <- r.value.0 :: row.rank == 1 + |set q | q in table && Outranks(q, row.position)|
    ensures r.Some? ==> ByColumns(r.value.0)
    ensures r.Some? ==> NextByColumns(table, cursor, limit, Positions(r.value.0), r.value.1)
  {
    if !(1 <= limit <= 100) || (cursor.Some? && cursor.value !in table) then None
    else
      ListingExists(Behind(table, cursor));
      var rows :| Lists(rows, Behind(table, cursor));
      var items := if |rows| <= limit then rows else rows[..limit];
      var next := if |rows| <= limit then None else Some(rows[limit - 1]);
      assert IsPageOf(rows, table, cursor, limit, items, next);
      assert Positions(RankAll(table, items)) == items;
      PageByColumns(table, cursor, limit, items, next);
      Some((RankAll(table, items), next))
  }

  /** A reader's pages: page by page the table it was read from, its limit, its items and its next cursor. */
  datatype Page = Page(table: set<Position>, limit: nat, items: seq<Position>, next: Option<Position>)

  /** The cursor behind the pages read so far. */
  function Cursor(pages: seq<Page>): Option<Position> {
    if pages == [] then None else pages[|pages| - 1].next
  }

  /** The pages follow one another, and rows are only ever added in between. */
  ghost predicate Follow(pages: seq<Page>) {
    pages == [] ||
    (var earlier, last := pages[..|pages| - 1], pages[|pages| - 1];
     && Follow(earlier)
     && IsPage(last.table, Cursor(earlier), last.limit, last.items, last.next)
     && (earlier != [] ==> Cursor(earlier).Some? && earlier[|earlier| - 1].table <= last.table))
  }

  function Items(pages: seq<Page>): seq<Position> {
    if pages == [] then [] else Items(pages[..|pages| - 1]) + pages[|pages| - 1].items
  }

  /** Not behind the cursor: everything, once there is no further page. */
  predicate UpTo(next: Option<Position>, p: Position) {
    next.None? || p == next.value || Less(p, next.value)
  }

  lemma PageFacts(
    table: set<Position>, cursor: Option<Position>, limit: nat, items: seq<Position>, next: Option<Position>)
    requires IsPage(table, cursor, limit, items, next)
    ensures Ascending(items)
    ensures forall p <- items :: p in table && (cursor.None? || Less(cursor.value, p))
    ensures forall p | p in table && (cursor.None? || Less(cursor.value, p)) ::
      p in items <==> UpTo(next, p)
    ensures next.Some? ==> next.value in items
  {
    var rows :| IsPageOf(rows, table, cursor, limit, items, next);
    forall p <- items ensures p in rows {}
    if next.Some? {
      forall p | p in Behind(table, cursor) ensures p in items <==> p == next.value || Less(p, next.value) {
        var i :| 0 <= i < |rows| && rows[i] == p;
        PositionsCompare(rows, i, limit);
      }
    }
  }

  lemma PositionsCompare(rows: seq<Position>, i: nat, limit: nat)
    requires Ascending(rows) && 1 <= limit < |rows| && i < |rows|
    ensures rows[i] in rows[..limit] <==> rows[i] == rows[limit - 1] || Less(rows[i], rows[limit - 1])
  {
    if i < limit {
      assert rows[..limit][i] == rows[i];
    } else {
      assert Less(rows[limit - 1], rows[i]);
      forall j | 0 <= j < limit ensures rows[..limit][j] != rows[i] {
        assert Less(rows[j], rows[i]);
      }
    }
  }

  /** Positions only rise from page to page. */
  lemma {:induction false} PagesAscend(pages: seq<Page>)
    requires Follow(pages) && pages != []
    ensures Ascending(Items(pages))
    ensures forall p <- Items(pages) :: UpTo(Cursor(pages), p)
  {
    var earlier, last := pages[..|pages| - 1], pages[|pages| - 1];
    PageFacts(last.table, Cursor(earlier), last.limit, last.items, last.next);
    if earlier == [] {
      assert Items(earlier) == [];
      assert Items(pages) == last.items;
    } else {
      PagesAscend(earlier);
      AppendAscends(Items(earlier), last.items, Cursor(earlier).value);
      UpToGrows(Items(earlier), Cursor(earlier).value, last.items, last.next);
    }
  }

  lemma UpToGrows(s: seq<Position>, cursor: Position, items: seq<Position>, next: Option<Position>)
    requires forall p <- s :: UpTo(Some(cursor), p)
    requires forall p <- items :: Less(cursor, p) && UpTo(next, p)
    requires next.Some? ==> next.value in items
    ensures forall p <- s + items :: UpTo(next, p)
  {
  }

  lemma AppendAscends(s: seq<Position>, t: seq<Position>, cursor: Position)
    requires Ascending(s) && Ascending(t)
    requires forall p <- s :: p == cursor || Less(p, cursor)
    requires forall p <- t :: Less(cursor, p)
    ensures Ascending(s + t)
  {
    forall i, j | 0 <= i < j < |s + t| ensures Less((s + t)[i], (s + t)[j]) {
      if i < |s| <= j {
        assert s[i] in s && t[j - |s|] in t;
      }
    }
  }

  /** A row that was there when the reading began is on one of the pages as soon as they reach it. */
  lemma {:induction false} PagesMissNothing(pages: seq<Page>, p: Position)
    requires Follow(pages) && pages != [] && p in pages[0].table && UpTo(Cursor(pages), p)
    ensures p in Items(pages)
  {
    var earlier, last := pages[..|pages| - 1], pages[|pages| - 1];
    PageFacts(last.table, Cursor(earlier), last.limit, last.items, last.next);
    if earlier != [] {
      TablesGrow(pages);
      if UpTo(Cursor(earlier), p) {
        PagesMissNothing(earlier, p);
      }
    }
  }

  lemma {:induction false} TablesGrow(pages: seq<Page>)
    requires Follow(pages) && pages != []
    ensures pages[0].table <= pages[|pages| - 1].table
    ensures forall p <- Items(pages) :: p in pages[|pages| - 1].table
  {
    var earlier, last := pages[..|pages| - 1], pages[|pages| - 1];
    PageFacts(last.table, Cursor(earlier), last.limit, last.items, last.next);
    if earlier == [] {
      assert Items(earlier) == [];
    } else {
      TablesGrow(earlier);
    }
  }

  /** The cursor that a page gave out is still found in the table, so the next page is never refused. */
  lemma CursorStaysValid(pages: seq<Page>, table: set<Position>)
    requires Follow(pages) && Cursor(pages).Some? && pages[|pages| - 1].table <= table
    ensures Cursor(pages).value in table
  {
    var earlier, last := pages[..|pages| - 1], pages[|pages| - 1];
    PageFacts(last.table, Cursor(earlier), last.limit, last.items, last.next);
  }

  lemma {:induction false} Occurrence(s: seq<Position>, p: Position)
    requires Ascending(s)
    ensures multiset(s)[p] == if p in s then 1 else 0
  {
    if s != [] {
      var front, last := s[..|s| - 1], s[|s| - 1];
      Occurrence(front, p);
      LastIsNew(s);
      assert s == front + [last];
    }
  }

  /** Pagination under concurrent inserts, with any limits: the positions strictly rise, so no row comes
      twice; every row of the first page's table comes exactly once when the reader has come to the end; and
      every row that comes is a row of the table. */
  lemma PaginationIsSound(pages: seq<Page>)
    requires Follow(pages) && pages != []
    ensures Ascending(Items(pages))
    ensures forall p :: multiset(Items(pages))[p] <= 1
    ensures Cursor(pages).None? ==> forall p <- pages[0].table :: multiset(Items(pages))[p] == 1
    ensures forall p <- Items(pages) :: p in pages[|pages| - 1].table
  {
    PagesAscend(pages);
    TablesGrow(pages);
    forall p ensures multiset(Items(pages))[p] == if p in Items(pages) then 1 else 0 {
      Occurrence(Items(pages), p);
    }
    if Cursor(pages).None? {
      forall p <- pages[0].table ensures p in Items(pages) {
        PagesMissNothing(pages, p);
      }
    }
  }

  /** On a table that does not change the pages up to the end are the whole listing, the one that
      rankLeaderboard gives. */
  lemma PagesOfFixedTable(pages: seq<Page>, candidates: seq<Position>)
    requires Follow(pages) && pages != [] && Cursor(pages).None? && Distinct(candidates)
    requires pages[0].table == Members(candidates) && pages[|pages| - 1].table == Members(candidates)
    ensures Items(pages) == Sorted(candidates)
  {
    PaginationIsSound(pages);
    forall p ensures p in Items(pages) <==> p in Members(candidates) {
      Occurrence(Items(pages), p);
    }
    SortedLists(candidates);
    ListingIsUnique(Items(pages), Sorted(candidates), Members(candidates));
  }

  /* ---- the ranks on the pages ---- */

  /** What the pages show: every row with its rank in the table that its page was read from. */
  ghost function RankedItems(pages: seq<Page>): seq<Ranked> {
    if pages == [] then []
    else RankedItems(pages[..|pages| - 1]) + RankAll(pages[|pages| - 1].table, pages[|pages| - 1].items)
  }

  lemma {:induction false} RankedItemsAreItems(pages: seq<Page>)
    ensures Positions(RankedItems(pages)) == Items(pages)
  {
    if pages != [] {
      RankedItemsAreItems(pages[..|pages| - 1]);
    }
  }

  /** Who comes later, in a table with more rows, has no better rank. */
  lemma RankRises(earlier: set<Position>, p: Position, later: set<Position>, q: Position)
    requires earlier <= later && (p == q || Less(p, q))
    ensures Rank(earlier, p) <= Rank(later, q)
  {
    SubsetSize(Ahead(earlier, p), Ahead(later, q));
  }

  /** A shown rank was counted in a table that all later tables include. */
  lemma {:induction false} RanksAreEarlier(pages: seq<Page>, i: nat, table: set<Position>, q: Position)
    requires Follow(pages) && pages != [] && pages[|pages| - 1].table <= table
    requires i < |RankedItems(pages)| && Less(RankedItems(pages)[i].position, q)
    ensures RankedItems(pages)[i].rank <= Rank(table, q)
  {
    var earlier, last := pages[..|pages| - 1], pages[|pages| - 1];
    if i < |RankedItems(earlier)| {
      RanksAreEarlier(earlier, i, table, q);
    } else {
      RankRises(last.table, RankedItems(pages)[i].position, table, q);
    }
  }

  /** Down the pages ranks never fall, although rows are inserted while they are read. */
  lemma {:induction false} RanksRise(pages: seq<Page>, i: nat, j: nat)
    requires Follow(pages) && i < j < |RankedItems(pages)|
    ensures RankedItems(pages)[i].rank <= RankedItems(pages)[j].rank
  {
    var earlier, last := pages[..|pages| - 1], pages[|pages| - 1];
    var n := |RankedItems(earlier)|;
    if j < n {
      RanksRise(earlier, i, j);
    } else {
      PagesAscend(pages);
      RankedItemsAreItems(pages);
      assert Less(Items(pages)[i], Items(pages)[j]);
      if i < n {
        assert earlier != [];
        RanksAreEarlier(earlier, i, last.table, RankedItems(pages)[j].position);
      } else {
        RankRises(last.table, RankedItems(pages)[i].position, last.table, RankedItems(pages)[j].position);
      }
    }
  }

  /* ---- the rows that gameplay inserts ---- */

  ghost function SlotTable(board: map<Id, BoardRow>, slot: int): set<Position> {
    set id | id in board && board[id].slot == slot :: Position(board[id].e, board[id].W, board[id].elapsed, id)
  }

  lemma BoardRowIsDue(
    world: World, attempts: Attempts, id: Id, finals: map<Id, Final>, board: map<Id, BoardRow>,
    contributions: map<(Id, string), Contribution>)
    requires RowsFit(world, attempts) && LedgerExact(world, attempts, finals, board, contributions)
    ensures id in board ==> id in attempts && attempts[id].at.state == Solved && RowFits(world, attempts[id])
    ensures id in attempts && RowFits(world, attempts[id]) ==> Lookup(board, id) == DueEffects(world, attempts[id]).board
  {
    if id in attempts {
      assert Settled(world, attempts[id], id, finals, board, contributions);
    }
  }

  lemma BoardRowStays(world: World, a: Db, b: Db, id: Id)
    requires RowsFit(world, a.attempts) && LedgerExact(world, a.attempts, a.finals, a.board, a.contributions)
    requires RowsFit(world, b.attempts) && LedgerExact(world, b.attempts, b.finals, b.board, b.contributions)
    requires Evolves(a, b) && id in a.board
    ensures id in b.board && b.board[id] == a.board[id]
  {
    BoardRowIsDue(world, a.attempts, id, a.finals, a.board, a.contributions);
    assert RowEvolves(a.attempts[id], b.attempts[id]);
    BoardRowIsDue(world, b.attempts, id, b.finals, b.board, b.contributions);
  }

  /** Leaderboard rows are never changed or removed, so the tables of a slot grow as pagination expects. */
  lemma BoardOnlyGrows(world: World, a: Db, b: Db, slot: int)
    requires Inv(world, a) && Inv(world, b) && Evolves(a, b)
    ensures SlotTable(a.board, slot) <= SlotTable(b.board, slot)
  {
    forall id <- a.board ensures id in b.board && b.board[id] == a.board[id] {
      BoardRowStays(world, a, b, id);
    }
  }

  lemma LaterBoardsGrow(world: World, db: Db, later: seq<Step>, slot: int)
    requires Inv(world, db)
    ensures SlotTable(db.board, slot) <= SlotTable(TakeAll(world, db, later).board, slot)
  {
    LaterEvolves(world, db, later);
    BoardOnlyGrows(world, db, TakeAll(world, db, later), slot);
  }

  lemma DueRowFits(world: World, row: Attempt)
    requires RowFits(world, row) && row.at.state == Solved && DueEffects(world, row).board.Some?
    ensures var b := DueEffects(world, row).board.value;
      0 <= b.e <= 4 && 0 <= b.W <= b.e * 3 + 2 && 0 <= b.elapsed <= DAY
  {
  }

  /** And every row there is acceptable to rankLeaderboard: a solved game within the reachable counters, played
      within one day. */
  lemma BoardRowsFit(world: World, db: Db, slot: int, p: Position)
    requires Inv(world, db) && p in SlotTable(db.board, slot)
    ensures FitsBoard(p) && p.elapsed <= DAY
  {
    BoardRowIsDue(world, db.attempts, p.id, db.finals, db.board, db.contributions);
    DueRowFits(world, db.attempts[p.id]);
  }
}
