/** Synchronizing a Trello board with the roadmap (tools/trello/sync_board.py).

    The board answers as the requests imply: new lists and cards are appended and keep their place, a
    card's description and a list's `closed` flag are replaced in place, cards stay listed when their
    list is archived. */
module TrelloSync {
  import opened Common
  import opened TrelloNotes

  datatype TList = TList(id: nat, name: string, closed: bool)

  datatype TCard = TCard(id: nat, listId: nat, name: string, desc: string, dueComplete: bool, closed: bool)

  datatype Tally = Tally(createdLists: nat, createdCards: nat, updatedCards: nat, archivedLists: nat)

  const NOTHING := Tally(0, 0, 0, 0)

  const LIST_NAMES := [
    "📍 Сейчас", "✅ Stage 0 — Telegram prototype", "🚧 Stage 1 — Sales infrastructure",
    "🗂 Stage 2 — AI manager", "🗂 Stage 3 — Quality and optimization", "📦 Архив"]

  const LEGACY_LIST_NAMES := {"Нужно сделать", "В процессе", "Готово", "Бэклог", "В работе", "На проверке"}

  /** Lists that are neither closed nor nameless, by name; a later one replaces an earlier one. */
  function ActiveLists(lists: seq<TList>): (r: map<string, TList>)
    ensures forall name <- r :: r[name].name == name && name != "" && !r[name].closed && r[name] in lists
  {
    if lists == [] then map[]
    else
      var last := lists[|lists| - 1];
      var before := ActiveLists(lists[..|lists| - 1]);
      if last.closed || last.name == "" then before else before[last.name := last]
  }

  /** Open cards by code; a later one replaces an earlier one. */
  function ExistingCards(cards: seq<TCard>): map<string, TCard> {
    if cards == [] then map[]
    else
      var last := cards[|cards| - 1];
      var before := ExistingCards(cards[..|cards| - 1]);
      if last.closed then before else before[CodeOf(last.name) := last]
  }

  /** The last open card of a code. */
  function Lookup(cards: seq<TCard>, code: string): (r: Option<TCard>)
    ensures r.Some? ==> r.value in cards && !r.value.closed && CodeOf(r.value.name) == code
  {
    if cards == [] then None
    else
      var last := cards[|cards| - 1];
      if !last.closed && CodeOf(last.name) == code then Some(last) else Lookup(cards[..|cards| - 1], code)
  }

  function SetDesc(cards: seq<TCard>, id: nat, desc: string): (r: seq<TCard>)
    ensures |r| == |cards|
    ensures forall i :: 0 <= i < |cards| ==> r[i] == if cards[i].id == id then cards[i].(desc := desc) else cards[i]
  {
    if cards == [] then []
    else
      var last := cards[|cards| - 1];
      SetDesc(cards[..|cards| - 1], id, desc) + [if last.id == id then last.(desc := desc) else last]
  }

  function CloseList(lists: seq<TList>, id: nat): (r: seq<TList>)
    ensures |r| == |lists|
    ensures forall i :: 0 <= i < |lists| ==> r[i] == if lists[i].id == id then lists[i].(closed := true) else lists[i]
  {
    if lists == [] then []
    else
      var last := lists[|lists| - 1];
      CloseList(lists[..|lists| - 1], id) + [if last.id == id then last.(closed := true) else last]
  }

  function NewCard(card: RoadmapCard, id: nat, listId: nat): TCard {
    TCard(id, listId, CardName(card), Description(card, ""), card.status == "Готово", false)
  }

  datatype Board = Board(lists: seq<TList>, cards: seq<TCard>, nextId: nat)

  /** The missing lists are created, and known under their names from then on. */
  function AddLists(b: Board, active: map<string, TList>, created: nat, names: seq<string>)
    : (Board, map<string, TList>, nat)
    decreases |names|
  {
    if names == [] then (b, active, created)
    else if names[0] in active then AddLists(b, active, created, names[1..])
    else
      var made := TList(b.nextId, names[0], false);
      AddLists(b.(lists := b.lists + [made], nextId := b.nextId + 1), active[names[0] := made], created + 1, names[1..])
  }

  /** The board afterwards, and how many cards were created and updated. */
  datatype CardSync = CardSync(board: Board, created: nat, updated: nat)

  /** One card of the roadmap, against the cards as they are now. */
  function SyncCard(b: Board, active: map<string, TList>, card: RoadmapCard): CardSync
    requires card.listName in active
  {
    match Lookup(b.cards, card.code)
    case None =>
      CardSync(b.(cards := b.cards + [NewCard(card, b.nextId, active[card.listName].id)], nextId := b.nextId + 1), 1, 0)
    case Some(found) =>
      var desc := WithPreservedNotes(found.desc, card);
      if desc == found.desc then CardSync(b, 0, 0)
      else CardSync(b.(cards := SetDesc(b.cards, found.id, desc)), 0, 1)
  }

  /** Every card of the roadmap has its list. */
  predicate Homed(roadmap: seq<RoadmapCard>, active: map<string, TList>) {
    forall k :: 0 <= k < |roadmap| ==> roadmap[k].listName in active
  }

  function SyncCards(b: Board, active: map<string, TList>, roadmap: seq<RoadmapCard>): CardSync
    requires Homed(roadmap, active)
    decreases |roadmap|
  {
    if roadmap == [] then CardSync(b, 0, 0)
    else
      var first := SyncCard(b, active, roadmap[0]);
      var rest := SyncCards(first.board, active, roadmap[1..]);
      CardSync(rest.board, first.created + rest.created, first.updated + rest.updated)
  }

  function ArchiveLists(lists: seq<TList>, active: map<string, TList>, archived: nat, names: seq<string>)
    : (seq<TList>, nat)
    decreases |names|
  {
    if names == [] then (lists, archived)
    else if names[0] in active then ArchiveLists(CloseList(lists, active[names[0]].id), active, archived + 1,
        names[1..])
    else ArchiveLists(lists, active, archived, names[1..])
  }

  /** Codes are distinct and hold no separator; every card's list is one of the six. */
  predicate RoadmapOk(roadmap: seq<RoadmapCard>) {
    && (forall i, j :: 0 <= i < j < |roadmap| ==> roadmap[i].code != roadmap[j].code)
    && (forall i :: 0 <= i < |roadmap| ==> !Occurs(roadmap[i].code, SEPARATOR) && roadmap[i].listName in LIST_NAMES)
  }

  /** Ids are unique and below the next one. */
  predicate ListIdsOk(lists: seq<TList>, nextId: nat) {
    && (forall i, j :: 0 <= i < j < |lists| ==> lists[i].id != lists[j].id)
    && (forall i :: 0 <= i < |lists| ==> lists[i].id < nextId)
  }

  predicate CardIdsOk(cards: seq<TCard>, nextId: nat) {
    && (forall i, j :: 0 <= i < j < |cards| ==> cards[i].id != cards[j].id)
    && (forall i :: 0 <= i < |cards| ==> cards[i].id < nextId)
  }

  predicate BoardOk(b: Board) {
    ListIdsOk(b.lists, b.nextId) && CardIdsOk(b.cards, b.nextId)
  }

  /** The legacy names, in the order in which the set happens to be iterated. */
  ghost predicate LegacyOrder(order: seq<string>) {
    && (forall name :: name in order <==> name in LEGACY_LIST_NAMES)
    && (forall i, j :: 0 <= i < j < |order| ==> order[i] != order[j])
  }

  // ---- creating lists ----

  predicate Synced(b: Board, active: map<string, TList>) {
    active == ActiveLists(b.lists) && BoardOk(b)
  }

  /** How many open lists have the name. */
  function OpenCount(lists: seq<TList>, name: string): nat {
    if lists == [] then 0
    else
      var last := lists[|lists| - 1];
      OpenCount(lists[..|lists| - 1], name) + if !last.closed && last.name == name then 1 else 0
  }

  lemma AppendedList(b: Board, active: map<string, TList>, name: string)
    requires Synced(b, active) && name != ""
    ensures
      var made := TList(b.nextId, name, false);
      var b' := b.(lists := b.lists + [made], nextId := b.nextId + 1);
      Synced(b', active[name := made]) &&
          forall n :: OpenCount(b'.lists, n) == OpenCount(b.lists, n) + if n == name then 1 else 0
  {
    var made := TList(b.nextId, name, false);
    assert (b.lists + [made])[..|b.lists|] == b.lists;
  }

  lemma {:induction false} AddListsAdds(b: Board, active: map<string, TList>, created: nat, names: seq<string>)
    requires Synced(b, active)
    requires forall i :: 0 <= i < |names| ==> names[i] != ""
    ensures
      var (b', active', created') := AddLists(b, active, created, names);
      && Synced(b', active') && b'.cards == b.cards
      && (forall i :: 0 <= i < |names| ==> names[i] in active')
      && (forall name <- active :: name in active')
      && (forall n :: n !in names ==> OpenCount(b'.lists, n) == OpenCount(b.lists, n))
    decreases |names|
  {
    hide Synced, ActiveLists, OpenCount;
    if names != [] {
      assert names == [names[0]] + names[1..];
      if names[0] in active {
        AddListsAdds(b, active, created, names[1..]);
      } else {
        var made := TList(b.nextId, names[0], false);
        AppendedList(b, active, names[0]);
        AddListsAdds(b.(lists := b.lists + [made], nextId := b.nextId + 1), active[names[0] := made], created + 1,
            names[1..]);
      }
    }
  }

  lemma {:induction false} NothingToAdd(b: Board, active: map<string, TList>, created: nat, names: seq<string>)
    requires forall i :: 0 <= i < |names| ==> names[i] in active
    ensures AddLists(b, active, created, names) == (b, active, created)
    decreases |names|
  {
    if names != [] {
      NothingToAdd(b, active, created, names[1..]);
    }
  }

  lemma NamesAreNamed()
    ensures forall i :: 0 <= i < |LIST_NAMES| ==> LIST_NAMES[i] != ""
    ensures forall i :: 0 <= i < |LIST_NAMES| ==> LIST_NAMES[i] !in LEGACY_LIST_NAMES
    ensures forall name :: name in LIST_NAMES ==> name !in LEGACY_LIST_NAMES
  {
  }

  // ---- synchronizing cards ----

  lemma {:induction false} ExistingIsLookup(cards: seq<TCard>, code: string)
    ensures code in ExistingCards(cards) <==> Lookup(cards, code).Some?
    ensures code in ExistingCards(cards) ==> Lookup(cards, code) == Some(ExistingCards(cards)[code])
    decreases |cards|
  {
    if cards != [] {
      ExistingIsLookup(cards[..|cards| - 1], code);
    }
  }

  lemma {:induction false} LookupAfterSetDesc(cards: seq<TCard>, id: nat, desc: string, code: string)
    ensures Lookup(SetDesc(cards, id, desc), code)
         == match Lookup(cards, code)
            case None => None
            case Some(x) => Some(if x.id == id then x.(desc := desc) else x)
    decreases |cards|
  {
    if cards != [] {
      var n := |cards| - 1;
      LookupAfterSetDesc(cards[..n], id, desc, code);
      assert SetDesc(cards, id, desc)[..n] == SetDesc(cards[..n], id, desc);
    }
  }

  lemma LookupAfterAppend(cards: seq<TCard>, made: TCard, code: string)
    ensures Lookup(cards + [made], code) == if !made.closed && CodeOf(made.name) == code then Some(made)
      else Lookup(cards, code)
  {
    assert (cards + [made])[..|cards|] == cards;
  }

  /** Two cards found under different codes have different ids. */
  lemma FoundApart(cards: seq<TCard>, nextId: nat, x: TCard, y: TCard)
    requires CardIdsOk(cards, nextId) && x in cards && y in cards && x != y
    ensures x.id != y.id
  {
    var i :| 0 <= i < |cards| && cards[i] == x;
    var j :| 0 <= j < |cards| && cards[j] == y;
    assert i != j;
  }

  /** The card is on the board with a description that was refreshed from this roadmap card. */
  ghost predicate Refreshed(b: Board, card: RoadmapCard) {
    var found := Lookup(b.cards, card.code);
    found.Some? && exists notes :: found.value.desc == Description(card, notes)
  }

  ghost predicate AllRefreshed(b: Board, roadmap: seq<RoadmapCard>) {
    forall k :: 0 <= k < |roadmap| ==> Refreshed(b, roadmap[k])
  }

  /** What a card step does to the cards: those there keep everything but, if found, the description
      and of that the notes; at most one is appended. */
  predicate CardsKept(cards: seq<TCard>, cards': seq<TCard>, clean: bool) {
    && |cards| <= |cards'|
    && forall k :: 0 <= k < |cards| ==>
         cards'[k] == cards[k].(desc := cards'[k].desc) && (clean ==> Notes(cards'[k].desc) == Notes(cards[k].desc))
  }

  predicate Clean(card: RoadmapCard) {
    !Occurs(Header(card), MARKER)
  }

  lemma SyncCardRefreshes(b: Board, active: map<string, TList>, card: RoadmapCard)
    requires card.listName in active && CardIdsOk(b.cards, b.nextId) && !Occurs(card.code, SEPARATOR)
    ensures
      var b' := SyncCard(b, active, card).board;
      && Refreshed(b', card)
      && CardIdsOk(b'.cards, b'.nextId) && b'.lists == b.lists && b.nextId <= b'.nextId
      && CardsKept(b.cards, b'.cards, Clean(card))
      && (forall code :: code != card.code ==> Lookup(b'.cards, code) == Lookup(b.cards, code))
  {
    var b' := SyncCard(b, active, card).board;
    NameCarriesCodeExactly(card);
    match Lookup(b.cards, card.code)
    case None =>
      var made := NewCard(card, b.nextId, active[card.listName].id);
      forall code
        ensures Lookup(b'.cards, code) == if code == card.code then Some(made) else Lookup(b.cards, code)
      {
        LookupAfterAppend(b.cards, made, code);
      }
    case Some(found) =>
      var desc := WithPreservedNotes(found.desc, card);
      RefreshIsFixpointExactly(card, found.desc);
      if desc != found.desc {
        SetDescRefreshes(b, card, found, desc);
      }
  }

  /** Only the card that was found has its id. */
  lemma OnlyFound(cards: seq<TCard>, nextId: nat, found: TCard)
    requires CardIdsOk(cards, nextId) && found in cards
    ensures forall k :: 0 <= k < |cards| && cards[k].id == found.id ==> cards[k] == found
  {
    var j :| 0 <= j < |cards| && cards[j] == found;
    forall k | 0 <= k < |cards| && cards[k].id == found.id
      ensures k == j
    {
    }
  }

  /** A card found under another code is not the one whose description is replaced. */
  lemma OtherCodeKept(cards: seq<TCard>, nextId: nat, found: TCard, desc: string, code: string)
    requires CardIdsOk(cards, nextId) && found in cards && CodeOf(found.name) != code
    ensures Lookup(SetDesc(cards, found.id, desc), code) == Lookup(cards, code)
  {
    LookupAfterSetDesc(cards, found.id, desc, code);
    var other := Lookup(cards, code);
    hide CodeOf, CardIdsOk;
    if other.Some? {
      FoundApart(cards, nextId, found, other.value);
    }
  }

  lemma SetDescKeeps(cards: seq<TCard>, nextId: nat, found: TCard, desc: string, clean: bool)
    requires CardIdsOk(cards, nextId) && found in cards && (clean ==> Notes(desc) == Notes(found.desc))
    ensures CardIdsOk(SetDesc(cards, found.id, desc), nextId) && CardsKept(cards, SetDesc(cards, found.id, desc), clean)
  {
    hide Notes;
    OnlyFound(cards, nextId, found);
  }

  lemma SetDescRefreshes(b: Board, card: RoadmapCard, found: TCard, desc: string)
    requires CardIdsOk(b.cards, b.nextId) && Lookup(b.cards, card.code) == Some(found)
    requires desc == WithPreservedNotes(found.desc, card)
    requires Clean(card) ==> Notes(desc) == Notes(found.desc)
    ensures
      var cards' := SetDesc(b.cards, found.id, desc);
      && Lookup(cards', card.code) == Some(found.(desc := desc))
      && CardIdsOk(cards', b.nextId) && CardsKept(b.cards, cards', Clean(card))
      && (forall code :: code != card.code ==> Lookup(cards', code) == Lookup(b.cards, code))
  {
    SetDescKeeps(b.cards, b.nextId, found, desc, Clean(card));
    LookupAfterSetDesc(b.cards, found.id, desc, card.code);
    hide CardIdsOk, CardsKept, Notes, Clean, CodeOf;
    forall code | code != card.code
      ensures Lookup(SetDesc(b.cards, found.id, desc), code) == Lookup(b.cards, code)
    {
      OtherCodeKept(b.cards, b.nextId, found, desc, code);
    }
  }

  lemma CardsKeptTrans(a: seq<TCard>, b: seq<TCard>, c: seq<TCard>, clean: bool)
    requires CardsKept(a, b, clean) && CardsKept(b, c, clean)
    ensures CardsKept(a, c, clean)
  {
    forall k | 0 <= k < |a|
      ensures c[k] == a[k].(desc := c[k].desc) && (clean ==> Notes(c[k].desc) == Notes(a[k].desc))
    {
      assert b[k] == a[k].(desc := b[k].desc);
      assert c[k] == b[k].(desc := c[k].desc);
    }
  }

  predicate AllClean(roadmap: seq<RoadmapCard>) {
    forall k :: 0 <= k < |roadmap| ==> Clean(roadmap[k])
  }

  predicate DistinctCodes(roadmap: seq<RoadmapCard>) {
    && (forall i, j :: 0 <= i < j < |roadmap| ==> roadmap[i].code != roadmap[j].code)
    && (forall i :: 0 <= i < |roadmap| ==> !Occurs(roadmap[i].code, SEPARATOR))
  }

  lemma {:induction false} SyncCardsKeeps(b: Board, active: map<string, TList>, roadmap: seq<RoadmapCard>, clean: bool)
    requires CardIdsOk(b.cards, b.nextId) && DistinctCodes(roadmap) && (clean ==> AllClean(roadmap))
    requires Homed(roadmap, active)
    ensures
      var b' := SyncCards(b, active, roadmap).board;
      && CardIdsOk(b'.cards, b'.nextId) && b'.lists == b.lists && b.nextId <= b'.nextId
      && CardsKept(b.cards, b'.cards, clean)
    decreases |roadmap|
  {
    if roadmap != [] {
      hide CardIdsOk, Occurs, SyncCard, Clean, Notes;
      SyncCardRefreshes(b, active, roadmap[0]);
      var b1 := SyncCard(b, active, roadmap[0]).board;
      SyncCardsKeeps(b1, active, roadmap[1..], clean);
      assert CardsKept(b.cards, b1.cards, clean);
      CardsKeptTrans(b.cards, b1.cards, SyncCards(b1, active, roadmap[1..]).board.cards, clean);
    }
  }

  /** No card of the roadmap has the code. */
  predicate Foreign(roadmap: seq<RoadmapCard>, code: string) {
    forall k :: 0 <= k < |roadmap| ==> roadmap[k].code != code
  }

  lemma {:induction false} ForeignCodesKept(b: Board, active: map<string, TList>, roadmap: seq<RoadmapCard>,
                                            code: string)
    requires CardIdsOk(b.cards, b.nextId) && DistinctCodes(roadmap) && Foreign(roadmap, code)
    requires Homed(roadmap, active)
    ensures Lookup(SyncCards(b, active, roadmap).board.cards, code) == Lookup(b.cards, code)
    decreases |roadmap|
  {
    if roadmap != [] {
      hide CardIdsOk, Occurs, SyncCard, Lookup, CardsKept;
      SyncCardRefreshes(b, active, roadmap[0]);
      ForeignCodesKept(SyncCard(b, active, roadmap[0]).board, active, roadmap[1..], code);
    }
  }

  lemma {:induction false} SyncCardsRefreshes(b: Board, active: map<string, TList>, roadmap: seq<RoadmapCard>, k: nat)
    requires CardIdsOk(b.cards, b.nextId) && DistinctCodes(roadmap) && k < |roadmap|
    requires Homed(roadmap, active)
    ensures Refreshed(SyncCards(b, active, roadmap).board, roadmap[k])
    decreases |roadmap|
  {
    hide CardIdsOk, Occurs, SyncCard, Lookup, CardsKept;
    var card, rest := roadmap[0], roadmap[1..];
    SyncCardRefreshes(b, active, card);
    var b1 := SyncCard(b, active, card).board;
    if k == 0 {
      ForeignCodesKept(b1, active, rest, card.code);
    } else {
      SyncCardsRefreshes(b1, active, rest, k - 1);
    }
  }

  /** A card that was refreshed before is not created again, and updated again exactly when its
      header holds the marker. */
  lemma SyncCardAgain(b: Board, active: map<string, TList>, card: RoadmapCard)
    requires card.listName in active && Refreshed(b, card)
    ensures
      var r := SyncCard(b, active, card);
      && r.created == 0
      && (r.updated == 0 <==> Clean(card))
      && (Clean(card) ==> r.board == b)
  {
    var found := Lookup(b.cards, card.code).value;
    var notes :| found.desc == Description(card, notes);
    NotesReadBackExactly(card, notes);
    SameNotes(card, Notes(found.desc), notes);
  }

  lemma AllCleanSplit(roadmap: seq<RoadmapCard>)
    requires roadmap != []
    ensures AllClean(roadmap) <==> Clean(roadmap[0]) && AllClean(roadmap[1..])
  {
    assert forall k :: 0 <= k < |roadmap[1..]| ==> roadmap[1..][k] == roadmap[k + 1];
    assert forall k :: 1 <= k < |roadmap| ==> roadmap[k] == roadmap[1..][k - 1];
  }

  lemma RestOfRoadmap(active: map<string, TList>, roadmap: seq<RoadmapCard>)
    requires roadmap != [] && DistinctCodes(roadmap)
    requires Homed(roadmap, active)
    ensures DistinctCodes(roadmap[1..]) && Homed(roadmap[1..], active)
    ensures !Occurs(roadmap[0].code, SEPARATOR)
  {
  }

  lemma OthersStayRefreshed(b: Board, b': Board, roadmap: seq<RoadmapCard>)
    requires roadmap != [] && DistinctCodes(roadmap)
    requires AllRefreshed(b, roadmap)
    requires forall code :: code != roadmap[0].code ==> Lookup(b'.cards, code) == Lookup(b.cards, code)
    ensures AllRefreshed(b', roadmap[1..])
  {
    hide Lookup, Occurs, Description;
    forall k | 1 <= k < |roadmap|
      ensures Refreshed(b', roadmap[k])
    {
      assert Refreshed(b, roadmap[k]) && Lookup(b'.cards, roadmap[k].code) == Lookup(b.cards, roadmap[k].code);
    }
  }

  lemma FirstCardAgain(b: Board, active: map<string, TList>, roadmap: seq<RoadmapCard>)
    requires CardIdsOk(b.cards, b.nextId) && roadmap != [] && DistinctCodes(roadmap)
    requires Homed(roadmap, active) && AllRefreshed(b, roadmap)
    ensures
      var first := SyncCard(b, active, roadmap[0]);
      && CardIdsOk(first.board.cards, first.board.nextId) && first.board.lists == b.lists
      && first.created == 0 && (first.updated == 0 <==> Clean(roadmap[0])) && (Clean(roadmap[0]) ==> first.board == b)
      && AllRefreshed(first.board, roadmap[1..])
  {
    hide CardIdsOk, Clean, SyncCard, Refreshed, AllClean, Occurs, Lookup, CardsKept;
    SyncCardRefreshes(b, active, roadmap[0]);
    SyncCardAgain(b, active, roadmap[0]);
    OthersStayRefreshed(b, SyncCard(b, active, roadmap[0]).board, roadmap);
  }

  /** Nothing was created, and something was updated exactly when a header holds the marker. */
  predicate Quiet(b: Board, roadmap: seq<RoadmapCard>, r: CardSync) {
    && r.created == 0
    && (r.updated == 0 <==> AllClean(roadmap))
    && (AllClean(roadmap) ==> r.board == b)
    && r.board.lists == b.lists
  }

  lemma QuietTogether(b: Board, roadmap: seq<RoadmapCard>, first: CardSync, rest: CardSync)
    requires roadmap != [] && first.board.lists == b.lists
    requires first.created == 0 && (first.updated == 0 <==> Clean(roadmap[0]))
    requires (Clean(roadmap[0]) ==> first.board == b)
    requires Quiet(first.board, roadmap[1..], rest)
    ensures Quiet(b, roadmap, CardSync(rest.board, first.created + rest.created, first.updated + rest.updated))
  {
    AllCleanSplit(roadmap);
    hide AllClean, Clean;
  }

  lemma {:induction false} SyncCardsAgain(b: Board, active: map<string, TList>, roadmap: seq<RoadmapCard>)
    requires CardIdsOk(b.cards, b.nextId) && DistinctCodes(roadmap)
    requires Homed(roadmap, active) && AllRefreshed(b, roadmap)
    ensures Quiet(b, roadmap, SyncCards(b, active, roadmap))
    decreases |roadmap|
  {
    hide *;
    if roadmap == [] {
      QuietAtEnd(b, active, roadmap);
    } else {
      FirstCardAgain(b, active, roadmap);
      RestOfRoadmap(active, roadmap);
      SyncCardsSplit(b, active, roadmap);
      var first := SyncCard(b, active, roadmap[0]);
      SyncCardsAgain(first.board, active, roadmap[1..]);
      QuietTogether(b, roadmap, first, SyncCards(first.board, active, roadmap[1..]));
    }
  }

  lemma QuietAtEnd(b: Board, active: map<string, TList>, roadmap: seq<RoadmapCard>)
    requires roadmap == []
    ensures Quiet(b, roadmap, SyncCards(b, active, roadmap))
  {
  }

  lemma SyncCardsSplit(b: Board, active: map<string, TList>, roadmap: seq<RoadmapCard>)
    requires roadmap != [] && Homed(roadmap, active)
    ensures roadmap[0].listName in active && Homed(roadmap[1..], active)
    ensures
      var first := SyncCard(b, active, roadmap[0]);
      var rest := SyncCards(first.board, active, roadmap[1..]);
      SyncCards(b, active, roadmap) == CardSync(rest.board, first.created + rest.created, first.updated + rest.updated)
  {
    hide SyncCard;
  }

  // ---- archiving ----

  lemma {:induction false} ActiveIsOpen(lists: seq<TList>, name: string)
    requires name != ""
    ensures name in ActiveLists(lists) <==> OpenCount(lists, name) > 0
    decreases |lists|
  {
    if lists != [] {
      ActiveIsOpen(lists[..|lists| - 1], name);
    }
  }

  lemma CloseNothing(lists: seq<TList>, id: nat)
    requires forall i :: 0 <= i < |lists| ==> lists[i].id != id
    ensures CloseList(lists, id) == lists
  {
  }

  lemma CloseSplit(lists: seq<TList>, id: nat)
    requires lists != []
    ensures
      var n := |lists| - 1;
      CloseList(lists, id)[..n] == CloseList(lists[..n], id) &&
          CloseList(lists, id)[n] == (if lists[n].id == id then lists[n].(closed := true) else lists[n])
  {
  }

  lemma CountSplit(lists: seq<TList>, name: string)
    requires lists != []
    ensures
      var last := lists[|lists| - 1];
      OpenCount(lists, name)
        == OpenCount(lists[..|lists| - 1], name) + if !last.closed && last.name == name then 1 else 0
  {
  }

  lemma FewerIds(lists: seq<TList>, nextId: nat)
    requires ListIdsOk(lists, nextId) && lists != []
    ensures ListIdsOk(lists[..|lists| - 1], nextId)
    ensures forall k :: 0 <= k < |lists| - 1 ==> lists[k].id != lists[|lists| - 1].id
  {
  }

  /** Closing an open list takes one from the count of its name. */
  lemma {:induction false} CloseCounts(lists: seq<TList>, nextId: nat, k: nat, name: string)
    requires ListIdsOk(lists, nextId) && k < |lists| && !lists[k].closed
    ensures OpenCount(CloseList(lists, lists[k].id), name)
         == OpenCount(lists, name) - if lists[k].name == name then 1 else 0
    decreases |lists|
  {
    hide *;
    var n := |lists| - 1;
    var closed := CloseList(lists, lists[k].id);
    CloseSplit(lists, lists[k].id);
    FewerIds(lists, nextId);
    CountSplit(lists, name);
    CountSplit(closed, name);
    if k == n {
      CloseNothing(lists[..n], lists[k].id);
    } else {
      CloseCounts(lists[..n], nextId, k, name);
    }
  }

  /** The lists still to be archived are there and open. */
  predicate Pending(lists: seq<TList>, active: map<string, TList>, names: seq<string>) {
    && (forall i, j :: 0 <= i < j < |names| ==> names[i] != names[j])
    && (forall i :: 0 <= i < |names| && names[i] in active ==>
          active[names[i]].name == names[i] && !active[names[i]].closed && active[names[i]] in lists)
  }

  lemma CloseKeepsPending(lists: seq<TList>, nextId: nat, active: map<string, TList>, names: seq<string>)
    requires ListIdsOk(lists, nextId) && names != [] && Pending(lists, active, names) && names[0] in active
    ensures Pending(CloseList(lists, active[names[0]].id), active, names[1..])
    ensures ListIdsOk(CloseList(lists, active[names[0]].id), nextId)
  {
    var closed := CloseList(lists, active[names[0]].id);
    var k :| 0 <= k < |lists| && lists[k] == active[names[0]];
    forall i | 1 <= i < |names| && names[i] in active
      ensures active[names[i]] in closed
    {
      var j :| 0 <= j < |lists| && lists[j] == active[names[i]];
      assert j != k;
      assert closed[j] == lists[j];
    }
  }

  lemma {:induction false} ArchiveCounts(lists: seq<TList>, nextId: nat, active: map<string, TList>, archived: nat,
                                         names: seq<string>, name: string)
    requires ListIdsOk(lists, nextId) && Pending(lists, active, names)
    ensures
      var (lists', archived') := ArchiveLists(lists, active, archived, names);
      && ListIdsOk(lists', nextId)
      && OpenCount(lists', name) == OpenCount(lists, name) - if name in names && name in active then 1 else 0
    decreases |names|
  {
    hide ListIdsOk, OpenCount;
    if names != [] {
      assert names == [names[0]] + names[1..];
      if names[0] in active {
        var x := active[names[0]];
        var k :| 0 <= k < |lists| && lists[k] == x;
        CloseCounts(lists, nextId, k, name);
        CloseKeepsPending(lists, nextId, active, names);
        ArchiveCounts(CloseList(lists, x.id), nextId, active, archived + 1, names[1..], name);
      } else {
        ArchiveCounts(lists, nextId, active, archived, names[1..], name);
      }
    }
  }

  lemma {:induction false} ArchivesExactly(lists: seq<TList>, active: map<string, TList>, archived: nat,
                                           names: seq<string>)
    ensures
      var (lists', archived') := ArchiveLists(lists, active, archived, names);
      && archived' >= archived
      && (archived' == archived <==> forall i :: 0 <= i < |names| ==> names[i] !in active)
      && (archived' == archived ==> lists' == lists)
    decreases |names|
  {
    if names != [] {
      ArchivesExactly(if names[0] in active then CloseList(lists, active[names[0]].id) else lists, active,
                      if names[0] in active then archived + 1 else archived, names[1..]);
      assert names == [names[0]] + names[1..];
    }
  }

  // ---- the whole synchronization ----

  ghost predicate SyncInput(b: Board, roadmap: seq<RoadmapCard>, order: seq<string>) {
    BoardOk(b) && RoadmapOk(roadmap) && LegacyOrder(order)
  }

  /** The active lists after the missing ones were created hold every list of the roadmap. */
  lemma RoadmapListsThere(b: Board, roadmap: seq<RoadmapCard>)
    requires BoardOk(b) && RoadmapOk(roadmap)
    ensures Homed(roadmap, AddLists(b, ActiveLists(b.lists), 0, LIST_NAMES).1)
  {
    NamesAreNamed();
    AddListsAdds(b, ActiveLists(b.lists), 0, LIST_NAMES);
  }

  ghost function Sync(b: Board, roadmap: seq<RoadmapCard>, order: seq<string>): (Board, Tally)
    requires SyncInput(b, roadmap, order)
  {
    RoadmapListsThere(b, roadmap);
    var (b1, active, created) := AddLists(b, ActiveLists(b.lists), 0, LIST_NAMES);
    var r := SyncCards(b1, active, roadmap);
    var (lists, archived) := ArchiveLists(r.board.lists, active, 0, order);
    (r.board.(lists := lists), Tally(created, r.created, r.updated, archived))
  }
}
