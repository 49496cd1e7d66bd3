/** The leaderboard from the table to the screen: the pages of the server, the signed cursors between them, and
    the list that the browser accumulates. */
module BoardReading {
  import opened Basics
  import opened Leaderboard
  import P = PageAccumulator
  import C = CursorCodec

  const LIMIT: nat := 25

  /** How positions travel as texts. */
  datatype Codec = Codec(write: Position -> string, read: string -> Option<Position>)

  /** The server reads back every cursor that it may give out. */
  ghost predicate Faithful(c: Codec) { forall p | FitsBoard(p) :: c.read(c.write(p)) == Some(p) }

  /* ---- the signed cursors are faithful ---- */

  /** The texts of attempt ids. */
  datatype Names = Names(text: nat -> string, id: string -> Option<nat>)

  ghost predicate Canonical(names: Names) { forall id: nat :: names.id(names.text(id)) == Some(id) }

  function ToText(names: Names, p: Position): C.Position { C.Position(names.text(p.id), p.e, p.W, p.elapsed) }

  function FromText(names: Names, p: C.Position): Option<Position> {
    match names.id(p.attempt)
    case None => None
    case Some(id) => Some(Position(p.e, p.W, p.elapsed, id))
  }

  /** encodeCursor under the keys of the writer, decodeCursor under those of the reader. */
  function Signing(c: C.Codec, names: Names, slot: string, writer: C.Keys, reader: C.Keys): Codec {
    Codec(p => C.EncodeCursor(c, writer, slot, ToText(names, p)),
          s => match C.DecodeCursor(c, reader, slot, s)
               case None => None
               case Some(p) => FromText(names, p))
  }

  /** JSON undoes itself on every payload that the cursor schema allows: a position on the board. */
  ghost predicate Parses(c: C.Codec, names: Names, slot: string) {
    forall p | FitsBoard(p) :: C.Sound(c, C.Payload(slot, ToText(names, p)))
  }

  /** Page cursors are read back, with the same keys and after the writer's key has become the previous one. */
  lemma SigningIsFaithful(c: C.Codec, names: Names, slot: string, writer: C.Keys, reader: C.Keys)
    requires C.KeysFit(writer) && C.KeysFit(reader) && Parses(c, names, slot) && Canonical(names)
    requires reader == writer || reader.previous == Some(writer.active)
    ensures Faithful(Signing(c, names, slot, writer, reader))
  {
    var codec := Signing(c, names, slot, writer, reader);
    forall p | FitsBoard(p) ensures codec.read(codec.write(p)) == Some(p) {
      C.CursorRoundTrip(c, writer, slot, ToText(names, p), reader, slot);
    }
  }

  /* ---- pages, cursors and the list ---- */

  function Read(c: Codec, cursor: Option<string>): Option<Position> {
    if cursor.None? then None else c.read(cursor.value)
  }

  function Written(c: Codec, next: Option<Position>): Option<string> {
    if next.None? then None else Some(c.write(next.value))
  }

  /** The answer to a request is a page of the board as it then was, with the ranks on that board. */
  ghost predicate ServedFrom(c: Codec, load: P.Load, page: Page) {
    && load.answer == Some(P.Answer(RankAll(page.table, page.items), Written(c, page.next)))
    && page.limit == LIMIT && (forall p <- page.table :: FitsBoard(p))
    && (load.cursor.Some? ==> Read(c, load.cursor).Some?)
    && IsPage(page.table, Read(c, load.cursor), page.limit, page.items, page.next)
  }

  /** The shown requests were served, one after the other, from tables to which rows were only added. */
  ghost predicate Served(c: Codec, r: P.Reporting, chain: seq<nat>, pages: seq<Page>) {
    && |pages| == |chain|
    && (forall i | 0 <= i < |chain| :: chain[i] < |r.loads| && ServedFrom(c, r.loads[chain[i]], pages[i]))
    && (forall i, j | 0 <= i && j == i + 1 && j < |pages| :: pages[i].table <= pages[j].table)
  }

  lemma {:induction false} ChainIsWalk(c: Codec, r: P.Reporting, chain: seq<nat>, slot: Option<P.Slot>, pages: seq<Page>)
    requires Faithful(c) && P.IsChain(r, chain, slot) && Served(c, r, chain, pages)
    ensures Follow(pages) && RankedItems(pages) == P.ItemsOf(r, chain)
  {
    if chain != [] {
      var n := |chain| - 1;
      ShorterChain(r, chain, slot);
      ShorterServed(c, r, chain, pages);
      ChainIsWalk(c, r, chain[..n], slot, pages[..n]);
      if n > 0 {
        CursorsMeet(c, r, chain, slot, pages, n - 1, n);
      }
      assert ServedFrom(c, r.loads[chain[n]], pages[n]);
      LastPageFollows(c, r, chain, pages);
    }
  }

  lemma ShorterServed(c: Codec, r: P.Reporting, chain: seq<nat>, pages: seq<Page>)
    requires Served(c, r, chain, pages) && chain != []
    ensures Served(c, r, chain[..|chain| - 1], pages[..|chain| - 1])
  {
  }

  /** One more page behind pages that follow one another. */
  lemma LastPageFollows(c: Codec, r: P.Reporting, chain: seq<nat>, pages: seq<Page>)
    requires chain != [] && |pages| == |chain|
    requires var n := |chain| - 1;
      && Follow(pages[..n]) && RankedItems(pages[..n]) == P.ItemsOf(r, chain[..n])
      && chain[n] < |r.loads| && ServedFrom(c, r.loads[chain[n]], pages[n])
      && (n == 0 ==> r.loads[chain[n]].cursor.None?)
      && (n > 0 ==> && pages[n - 1].next.Some? && Read(c, r.loads[chain[n]].cursor) == pages[n - 1].next
                    && pages[n - 1].table <= pages[n].table)
    ensures Follow(pages) && RankedItems(pages) == P.ItemsOf(r, chain)
  {
    var n := |chain| - 1;
    assert n > 0 ==> pages[..n][n - 1] == pages[n - 1];
  }

  lemma ShorterChain(r: P.Reporting, chain: seq<nat>, slot: Option<P.Slot>)
    requires P.IsChain(r, chain, slot) && chain != []
    ensures P.IsChain(r, chain[..|chain| - 1], slot)
  {
    var front := chain[..|chain| - 1];
    forall i, j | 0 <= i && j == i + 1 && j < |front| ensures P.Linked(r.loads[front[i]], r.loads[front[j]]) {
      assert P.Linked(r.loads[chain[i]], r.loads[chain[j]]);
    }
  }

  /** A request asks for what is behind the position at which the page before it ended. */
  lemma CursorsMeet(c: Codec, r: P.Reporting, chain: seq<nat>, slot: Option<P.Slot>, pages: seq<Page>, i: nat, j: nat)
    requires Faithful(c) && P.IsChain(r, chain, slot) && Served(c, r, chain, pages) && j == i + 1 && j < |chain|
    ensures pages[i].next.Some? && Read(c, r.loads[chain[j]].cursor) == pages[i].next
  {
    assert P.Linked(r.loads[chain[i]], r.loads[chain[j]]);
    assert ServedFrom(c, r.loads[chain[i]], pages[i]);
    var load := r.loads[chain[i]];
    PageFacts(pages[i].table, Read(c, load.cursor), pages[i].limit, pages[i].items, pages[i].next);
  }

  /** What a reading shows. */
  ghost predicate ShowsBoard(entries: seq<Ranked>, pages: seq<Page>) {
    var shown := Positions(entries);
    && Ascending(shown)
    && (forall p :: multiset(shown)[p] <= 1)
    && (forall i, j | 0 <= i < j < |entries| :: entries[i].rank <= entries[j].rank)
    && (pages != [] ==> forall p <- shown :: p in pages[|pages| - 1].table)
    && (pages != [] && Cursor(pages).None? ==> forall p <- pages[0].table :: multiset(shown)[p] == 1)
  }

  lemma PagesShowBoard(pages: seq<Page>)
    requires Follow(pages) && pages != []
    ensures ShowsBoard(RankedItems(pages), pages)
  {
    PaginationIsSound(pages);
    RankedItemsAreItems(pages);
    forall i, j | 0 <= i < j < |RankedItems(pages)| ensures RankedItems(pages)[i].rank <= RankedItems(pages)[j].rank {
      RanksRise(pages, i, j);
    }
  }

  /** Whatever the interleaving of selecting, refreshing, loading more, resetting, errors and late answers, and
      while games are still being solved: the shown list rises strictly, shows no row twice, its ranks never
      fall, and once there is no further page it shows every row that was on the board when its first page was
      read. */
  lemma ShownListIsTheBoard(c: Codec, events: seq<P.Event>, pages: seq<Page>)
    requires Faithful(c) && P.After(events).chain != []
    requires Served(c, P.After(events), P.After(events).chain, pages)
    ensures var r := P.After(events);
      && r.entries == RankedItems(pages) && ShowsBoard(r.entries, pages)
      && (r.next.NoMore? <==> Cursor(pages).None?)
  {
    var r := P.After(events);
    P.EntriesAreOneChain(events);
    ChainIsWalk(c, r, r.chain, r.slot, pages);
    PagesShowBoard(pages);
    assert ServedFrom(c, r.loads[r.chain[|pages| - 1]], pages[|pages| - 1]);
  }
}
