/** The synchronizer as it runs against a board, and what a second run finds to do. */
module TrelloSynchronizer {
  import opened Common
  import opened TrelloNotes
  import opened TrelloSync

  class TrelloBoard {
    var lists: seq<TList>
    var cards: seq<TCard>
    var nextId: nat

    constructor ()
      ensures Contents() == Board([], [], 0)
    {
      lists, cards, nextId := [], [], 0;
    }

    function Contents(): Board
      reads this
    {
      Board(lists, cards, nextId)
    }

    method PostList(name: string) returns (made: TList)
      modifies this
      ensures made == TList(old(nextId), name, false)
      ensures Contents() == Board(old(lists) + [made], old(cards), old(nextId) + 1)
    {
      made := TList(nextId, name, false);
      lists, nextId := lists + [made], nextId + 1;
    }

    method PutListClosed(id: nat)
      modifies `lists
      ensures lists == CloseList(old(lists), id)
    {
      lists := CloseList(lists, id);
    }

    method PostCard(card: RoadmapCard, listId: nat)
      modifies this
      ensures Contents() == Board(old(lists), old(cards) + [NewCard(card, old(nextId), listId)], old(nextId) + 1)
    {
      cards, nextId := cards + [NewCard(card, nextId, listId)], nextId + 1;
    }

    method PutCardDesc(id: nat, desc: string)
      modifies `cards
      ensures cards == SetDesc(old(cards), id, desc)
    {
      cards := SetDesc(cards, id, desc);
    }
  }

  class Synchronizer {
    const board: TrelloBoard
    const roadmap: seq<RoadmapCard>

    constructor (board: TrelloBoard, roadmap: seq<RoadmapCard>)
      ensures this.board == board && this.roadmap == roadmap
    {
      this.board, this.roadmap := board, roadmap;
    }

    method AddMissingLists(names: seq<string>) returns (lists: map<string, TList>, created: nat)
      modifies board
      ensures (board.Contents(), lists, created)
        == AddLists(old(board.Contents()), ActiveLists(old(board.lists)), 0, names)
    {
      hide ActiveLists;
      lists := ActiveLists(board.lists);
      created := 0;
      for i := 0 to |names|
        invariant AddLists(board.Contents(), lists, created, names[i..])
               == AddLists(old(board.Contents()), ActiveLists(old(board.lists)), 0, names)
      {
        var name := names[i];
        assert names[i..][0] == name && names[i..][1..] == names[i + 1..];
        if name !in lists {
          var made := board.PostList(name);
          lists := lists[name := made];
          created := created + 1;
        }
      }
    }

    /** One turn of the loop over the roadmap. */
    method UpdateCard(lists: map<string, TList>, existing: map<string, TCard>, card: RoadmapCard)
      returns (created: nat, updated: nat)
      requires card.listName in lists
      requires Lookup(board.cards, card.code) == if card.code in existing then Some(existing[card.code]) else None
      modifies board
      ensures CardSync(board.Contents(), created, updated) == SyncCard(old(board.Contents()), lists, card)
    {
      created, updated := 0, 0;
      if card.code !in existing {
        board.PostCard(card, lists[card.listName].id);
        created := 1;
      } else {
        var found := existing[card.code];
        var desc := WithPreservedNotes(found.desc, card);
        if desc != found.desc {
          board.PutCardDesc(found.id, desc);
          updated := 1;
        }
      }
    }

    /** The cards are read once; a card is looked up in that snapshot although the board changes as
        the loop goes on, and finds what the board holds then. */
    method UpdateCards(lists: map<string, TList>) returns (created: nat, updated: nat)
      requires CardIdsOk(board.cards, board.nextId) && DistinctCodes(roadmap)
      requires Homed(roadmap, lists)
      modifies board
      ensures CardSync(board.Contents(), created, updated) == SyncCards(old(board.Contents()), lists, roadmap)
    {
      hide SyncCard, Lookup, CardIdsOk, Occurs, CardsKept, Clean, Refreshed, ExistingCards;
      var existing := ExistingCards(board.cards);
      ghost var start := board.Contents();
      created, updated := 0, 0;
      for i := 0 to |roadmap|
        invariant CardIdsOk(board.cards, board.nextId)
        invariant
          var rest := SyncCards(board.Contents(), lists, roadmap[i..]);
          SyncCards(start, lists, roadmap) == CardSync(rest.board, created + rest.created, updated + rest.updated)
        invariant forall k :: i <= k < |roadmap| ==>
          Lookup(board.cards, roadmap[k].code) == Lookup(start.cards, roadmap[k].code)
      {
        var card := roadmap[i];
        ghost var before := board.Contents();
        assert roadmap[i..][0] == card && roadmap[i..][1..] == roadmap[i + 1..];
        ExistingIsLookup(start.cards, card.code);
        SyncCardRefreshes(before, lists, card);
        var c, u := UpdateCard(lists, existing, card);
        created, updated := created + c, updated + u;
      }
    }

    method ArchiveLegacyLists(lists: map<string, TList>, order: seq<string>) returns (archived: nat)
      modifies board
      ensures (board.lists, archived) == ArchiveLists(old(board.lists), lists, 0, order)
      ensures board.cards == old(board.cards) && board.nextId == old(board.nextId)
    {
      archived := 0;
      for i := 0 to |order|
        invariant ArchiveLists(board.lists, lists, archived, order[i..])
          == ArchiveLists(old(board.lists), lists, 0, order)
        invariant board.cards == old(board.cards) && board.nextId == old(board.nextId)
      {
        assert order[i..][0] == order[i] && order[i..][1..] == order[i + 1..];
        if order[i] in lists {
          board.PutListClosed(lists[order[i]].id);
          archived := archived + 1;
        }
      }
    }

    method SyncBoard(order: seq<string>) returns (t: Tally)
      requires SyncInput(board.Contents(), roadmap, order)
      modifies board
      ensures (board.Contents(), t) == Sync(old(board.Contents()), roadmap, order)
    {
      RoadmapListsThere(board.Contents(), roadmap);
      NamesAreNamed();
      AddListsAdds(board.Contents(), ActiveLists(board.lists), 0, LIST_NAMES);
      var lists, createdLists := AddMissingLists(LIST_NAMES);
      var created, updated := UpdateCards(lists);
      var archived := ArchiveLegacyLists(lists, order);
      t := Tally(createdLists, created, updated, archived);
    }
  }

  // ---- what one synchronization leaves ----

  /** The lists and cards that a synchronization has made the board hold. */
  ghost predicate Settled(b: Board, roadmap: seq<RoadmapCard>) {
    && BoardOk(b)
    && (forall i :: 0 <= i < |LIST_NAMES| ==> LIST_NAMES[i] in ActiveLists(b.lists))
    && (forall k :: 0 <= k < |roadmap| ==> Refreshed(b, roadmap[k]))
  }

  /** At most one open list per legacy name. */
  ghost predicate LegacyOnce(lists: seq<TList>) {
    forall name <- LEGACY_LIST_NAMES :: OpenCount(lists, name) <= 1
  }

  /** How many lists of a name are open afterwards: a missing one was added, one legacy list of each
      name was archived, and no other list was touched. */
  function ExpectedOpen(before: nat, name: string): nat {
    if name in LEGACY_LIST_NAMES && before > 0 then before - 1 else before
  }

  lemma AddedLists(b: Board)
    requires BoardOk(b)
    ensures
      var (b1, active, created) := AddLists(b, ActiveLists(b.lists), 0, LIST_NAMES);
      && Synced(b1, active) && b1.cards == b.cards
      && (forall i :: 0 <= i < |LIST_NAMES| ==> LIST_NAMES[i] in active)
      && (forall n :: n !in LIST_NAMES ==> OpenCount(b1.lists, n) == OpenCount(b.lists, n))
  {
    NamesAreNamed();
    AddListsAdds(b, ActiveLists(b.lists), 0, LIST_NAMES);
  }

  /** Active lists are open, so all of them can be archived. */
  lemma ActiveArePending(lists: seq<TList>, order: seq<string>)
    requires LegacyOrder(order)
    ensures Pending(lists, ActiveLists(lists), order)
  {
  }

  lemma RoadmapCodes(roadmap: seq<RoadmapCard>)
    requires RoadmapOk(roadmap)
    ensures DistinctCodes(roadmap)
  {
  }

  /** The effect on the lists, name by name. */
  lemma ListsAfterSync(b: Board, roadmap: seq<RoadmapCard>, order: seq<string>, name: string)
    requires SyncInput(b, roadmap, order)
    ensures
      var b' := Sync(b, roadmap, order).0;
      && (name !in LIST_NAMES && name != "" ==>
            OpenCount(b'.lists, name) == ExpectedOpen(OpenCount(b.lists, name), name))
      && (name in LIST_NAMES ==> OpenCount(b'.lists, name) > 0)
      && ListIdsOk(b'.lists, b'.nextId)
  {
    RoadmapListsThere(b, roadmap);
    RoadmapCodes(roadmap);
    AddedLists(b);
    var (b1, active, created) := AddLists(b, ActiveLists(b.lists), 0, LIST_NAMES);
    SyncCardsKeeps(b1, active, roadmap, false);
    var b2 := SyncCards(b1, active, roadmap).board;
    ActiveArePending(b1.lists, order);
    ArchiveCounts(b1.lists, b2.nextId, active, 0, order, name);
    NamesAreNamed();
    if name != "" {
      ActiveIsOpen(b1.lists, name);
    }
  }

  /** The effect on the cards: those there keep everything but their descriptions, and of these the
      notes if the headers hold no marker; and every card of the roadmap is there, refreshed. */
  lemma CardsAfterSync(b: Board, roadmap: seq<RoadmapCard>, order: seq<string>)
    requires SyncInput(b, roadmap, order)
    ensures
      var b' := Sync(b, roadmap, order).0;
      && CardsKept(b.cards, b'.cards, AllClean(roadmap))
      && CardIdsOk(b'.cards, b'.nextId)
      && (forall k :: 0 <= k < |roadmap| ==> Refreshed(b', roadmap[k]))
  {
    RoadmapListsThere(b, roadmap);
    RoadmapCodes(roadmap);
    AddedLists(b);
    var (b1, active, created) := AddLists(b, ActiveLists(b.lists), 0, LIST_NAMES);
    SyncCardsKeeps(b1, active, roadmap, AllClean(roadmap));
    forall k | 0 <= k < |roadmap|
      ensures Refreshed(SyncCards(b1, active, roadmap).board, roadmap[k])
    {
      SyncCardsRefreshes(b1, active, roadmap, k);
    }
  }

  lemma SyncSettles(b: Board, roadmap: seq<RoadmapCard>, order: seq<string>)
    requires SyncInput(b, roadmap, order)
    ensures Settled(Sync(b, roadmap, order).0, roadmap)
  {
    var b' := Sync(b, roadmap, order).0;
    CardsAfterSync(b, roadmap, order);
    ListsAfterSync(b, roadmap, order, LIST_NAMES[0]);
    NamesAreNamed();
    forall i | 0 <= i < |LIST_NAMES|
      ensures LIST_NAMES[i] in ActiveLists(b'.lists)
    {
      ListsAfterSync(b, roadmap, order, LIST_NAMES[i]);
      ActiveIsOpen(b'.lists, LIST_NAMES[i]);
    }
  }

  /** What there is to do on a settled board. */
  lemma SettledBoardIsLeftAlone(b: Board, roadmap: seq<RoadmapCard>, order: seq<string>)
    requires SyncInput(b, roadmap, order) && Settled(b, roadmap)
    ensures
      var (b', t) := Sync(b, roadmap, order);
      && t.createdLists == 0 && t.createdCards == 0
      && (t.updatedCards == 0 <==> AllClean(roadmap))
      && (t.archivedLists == 0 <==> forall name <- LEGACY_LIST_NAMES :: OpenCount(b.lists, name) == 0)
      && (t == NOTHING ==> b' == b)
  {
    var active := ActiveLists(b.lists);
    RoadmapListsThere(b, roadmap);
    RoadmapCodes(roadmap);
    NothingToAdd(b, active, 0, LIST_NAMES);
    SyncCardsAgain(b, active, roadmap);
    ArchivesExactly(b.lists, active, 0, order);
    NoneActiveIsNoneOpen(b.lists, order);
  }

  lemma NoneActiveIsNoneOpen(lists: seq<TList>, order: seq<string>)
    requires LegacyOrder(order)
    ensures (forall i :: 0 <= i < |order| ==> order[i] !in ActiveLists(lists))
       <==> (forall name <- LEGACY_LIST_NAMES :: OpenCount(lists, name) == 0)
  {
    assert "" !in LEGACY_LIST_NAMES;
    forall name | name in LEGACY_LIST_NAMES
      ensures name in ActiveLists(lists) <==> OpenCount(lists, name) > 0
    {
      ActiveIsOpen(lists, name);
    }
    forall name | name in LEGACY_LIST_NAMES
      ensures exists i :: 0 <= i < |order| && order[i] == name
    {
      assert name in order;
    }
    assert forall i :: 0 <= i < |order| ==> order[i] in LEGACY_LIST_NAMES;
  }

  /** From any board, a second synchronization creates nothing; it updates nothing exactly when no
      generated header holds the marker; it archives nothing exactly when the board had at most one
      open list per legacy name; and when it does none of these it changes nothing at all. */
  lemma SecondSyncExactly(b: Board, roadmap: seq<RoadmapCard>, order: seq<string>, order': seq<string>)
    requires SyncInput(b, roadmap, order) && LegacyOrder(order')
    ensures SyncInput(Sync(b, roadmap, order).0, roadmap, order')
    ensures
      var once := Sync(b, roadmap, order).0;
      var (twice, t) := Sync(once, roadmap, order');
      && t.createdLists == 0 && t.createdCards == 0
      && (t.updatedCards == 0 <==> AllClean(roadmap))
      && (t.archivedLists == 0 <==> LegacyOnce(b.lists))
      && (AllClean(roadmap) && LegacyOnce(b.lists) ==> twice == once)
  {
    SyncSettles(b, roadmap, order);
    var once := Sync(b, roadmap, order).0;
    SettledBoardIsLeftAlone(once, roadmap, order');
    LegacyLeft(b, roadmap, order);
  }

  lemma LegacyLeft(b: Board, roadmap: seq<RoadmapCard>, order: seq<string>)
    requires SyncInput(b, roadmap, order)
    ensures (forall name <- LEGACY_LIST_NAMES :: OpenCount(Sync(b, roadmap, order).0.lists, name) == 0) <==>
        LegacyOnce(b.lists)
  {
    NamesAreNamed();
    assert "" !in LEGACY_LIST_NAMES;
    forall name | name in LEGACY_LIST_NAMES
      ensures OpenCount(Sync(b, roadmap, order).0.lists, name) == ExpectedOpen(OpenCount(b.lists, name), name)
    {
      ListsAfterSync(b, roadmap, order, name);
    }
  }

  // ---- the cards that a synchronization adds ----

  /** A card as it is created: under its code and title, with an empty notes section, marked complete exactly when the
      roadmap says it is done, in that list. */
  predicate CreatedFor(made: TCard, card: RoadmapCard, listId: nat) {
    && made.name == card.code + " · " + card.title && made.desc == Description(card, "")
    && (made.dueComplete <==> card.status == "Готово")
    && made.listId == listId && !made.closed
  }

  lemma FirstCardStays(b: Board, active: map<string, TList>, roadmap: seq<RoadmapCard>)
    requires CardIdsOk(b.cards, b.nextId) && DistinctCodes(roadmap) && Homed(roadmap, active) && roadmap != []
    requires Lookup(b.cards, roadmap[0].code).None?
    ensures
      var cards := SyncCards(b, active, roadmap).board.cards;
      |b.cards| < |cards| && CreatedFor(cards[|b.cards|], roadmap[0], active[roadmap[0].listName].id)
  {
    hide CardIdsOk, Occurs, Clean, Notes, Description;
    var card := roadmap[0];
    SyncCardRefreshes(b, active, card);
    var b1 := SyncCard(b, active, card).board;
    SyncCardsKeeps(b1, active, roadmap[1..], false);
    ForeignCodesKept(b1, active, roadmap[1..], card.code);
    NewIsFound(b, active, card);
    var cards := SyncCards(b1, active, roadmap[1..]).board.cards;
    var made := b1.cards[|b.cards|];
    StillThere(cards, SyncCards(b1, active, roadmap[1..]).board.nextId, |b.cards|, made);
  }

  lemma NewIsFound(b: Board, active: map<string, TList>, card: RoadmapCard)
    requires card.listName in active && !Occurs(card.code, SEPARATOR) && Lookup(b.cards, card.code).None?
    ensures
      var b1 := SyncCard(b, active, card).board;
      && |b1.cards| == |b.cards| + 1 && Lookup(b1.cards, card.code) == Some(b1.cards[|b.cards|])
      && CreatedFor(b1.cards[|b.cards|], card, active[card.listName].id)
  {
    NameCarriesCodeExactly(card);
    LookupAfterAppend(b.cards, NewCard(card, b.nextId, active[card.listName].id), card.code);
  }

  /** A card that is on the board is where its id is. */
  lemma StillThere(cards: seq<TCard>, nextId: nat, k: nat, made: TCard)
    requires CardIdsOk(cards, nextId) && k < |cards| && made in cards && cards[k].id == made.id
    ensures cards[k] == made
  {
  }

  /** The card was made for an entry whose code no open card had before. */
  predicate Added(before: seq<TCard>, made: TCard, active: map<string, TList>, roadmap: seq<RoadmapCard>)
    requires Homed(roadmap, active)
  {
    exists i :: 0 <= i < |roadmap| && Lookup(before, roadmap[i].code).None? &&
      CreatedFor(made, roadmap[i], active[roadmap[i].listName].id)
  }

  lemma AddedByRest(before: seq<TCard>, later: seq<TCard>, made: TCard, active: map<string, TList>,
                    roadmap: seq<RoadmapCard>)
    requires roadmap != [] && Homed(roadmap, active) && DistinctCodes(roadmap)
    requires Added(later, made, active, roadmap[1..])
    requires forall code :: code != roadmap[0].code ==> Lookup(later, code) == Lookup(before, code)
    ensures Added(before, made, active, roadmap)
  {
    hide CreatedFor, Lookup, Occurs;
    var rest := roadmap[1..];
    var j :| 0 <= j < |rest| && Lookup(later, rest[j].code).None? &&
        CreatedFor(made, rest[j], active[rest[j].listName].id);
    assert rest[j] == roadmap[j + 1];
  }

  lemma {:induction false} AddedCards(b: Board, active: map<string, TList>, roadmap: seq<RoadmapCard>, k: nat)
    requires CardIdsOk(b.cards, b.nextId) && DistinctCodes(roadmap) && Homed(roadmap, active)
    requires |b.cards| <= k < |SyncCards(b, active, roadmap).board.cards|
    ensures Added(b.cards, SyncCards(b, active, roadmap).board.cards[k], active, roadmap)
    decreases |roadmap|
  {
    hide CardIdsOk, Occurs, Clean, Notes, CreatedFor, Lookup, CardsKept, Refreshed;
    var card := roadmap[0];
    var b1 := SyncCard(b, active, card).board;
    SyncCardRefreshes(b, active, card);
    if |b1.cards| <= k {
      AddedCards(b1, active, roadmap[1..], k);
      AddedByRest(b.cards, b1.cards, SyncCards(b1, active, roadmap[1..]).board.cards[k], active, roadmap);
    } else {
      FirstCardStays(b, active, roadmap);
    }
  }

  lemma {:induction false} OthersStayOpen(lists: seq<TList>, nextId: nat, active: map<string, TList>, archived: nat,
                                          names: seq<string>, l: TList)
    requires ListIdsOk(lists, nextId) && Pending(lists, active, names) && l in lists && l.name !in names
    ensures l in ArchiveLists(lists, active, archived, names).0
    decreases |names|
  {
    if names != [] {
      if names[0] in active {
        CloseKeepsPending(lists, nextId, active, names);
        var k :| 0 <= k < |lists| && lists[k] == l;
        var closed := CloseList(lists, active[names[0]].id);
        assert closed[k] == l;
        OthersStayOpen(closed, nextId, active, archived + 1, names[1..], l);
      } else {
        OthersStayOpen(lists, nextId, active, archived, names[1..], l);
      }
    }
  }

  /** Every card that a synchronization adds is that of a roadmap entry whose code no open card had, and lies in an
      open list of the entry's own name. */
  lemma NewCardsAreFiled(b: Board, roadmap: seq<RoadmapCard>, order: seq<string>, k: nat)
    requires SyncInput(b, roadmap, order) && |b.cards| <= k < |Sync(b, roadmap, order).0.cards|
    ensures
      var b' := Sync(b, roadmap, order).0;
      exists i, l :: 0 <= i < |roadmap| && Lookup(b.cards, roadmap[i].code).None? &&
        l in b'.lists && !l.closed && l.name == roadmap[i].listName && CreatedFor(b'.cards[k], roadmap[i], l.id)
  {
    RoadmapListsThere(b, roadmap);
    RoadmapCodes(roadmap);
    AddedLists(b);
    var (b1, active, created) := AddLists(b, ActiveLists(b.lists), 0, LIST_NAMES);
    AddedCards(b1, active, roadmap, k);
    var b2 := SyncCards(b1, active, roadmap).board;
    SyncCardsKeeps(b1, active, roadmap, false);
    var i :| 0 <= i < |roadmap| && Lookup(b1.cards, roadmap[i].code).None? &&
        CreatedFor(b2.cards[k], roadmap[i], active[roadmap[i].listName].id);
    var l := active[roadmap[i].listName];
    ActiveArePending(b1.lists, order);
    NamesAreNamed();
    OthersStayOpen(b2.lists, b2.nextId, active, 0, order, l);
    assert l in Sync(b, roadmap, order).0.lists;
  }
}
