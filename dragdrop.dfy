/** The drag-and-drop logic shared by the front ends (`lib/drag-drop/logic.ts`): locating
    the list a card sits in, turning a drop into a `DragDropResult`, computing a same-list
    reorder with two `splice` calls, and the two optimistic board updates. The front ends
    differ only in how they read the ids a drop hands them; those parts are in the
    per-front-end modules. */
module DragDrop {
  import opened Base
  import opened Grouping

  /** The card, list and board shapes the board view holds; the drag-drop logic reads
      only the ids and copies every other field unchanged. */
  datatype Card = Card(id: Id, title: string, description: Option<string>, position: int, completed: bool)

  datatype List = List(id: Id, title: string, position: int, cards: seq<Card>)

  datatype Board = Board(id: Id, title: string, description: Option<string>, lists: seq<List>)

  datatype DragDropResult = DragDropResult(
    cardId: Id, droppableId: string, sourceListId: Id, targetListId: Id, isSameList: bool, card: Card)

  datatype ReorderResult = ReorderResult(reorderedIds: seq<Id>, reorderedCards: seq<Card>)

  function CardIdOf(c: Card): Id { c.id }

  function CardItself(c: Card): Card { c }

  /** `cards.map(c => c.id)` */
  function CardIds(cards: seq<Card>): (ids: seq<Id>)
    ensures |ids| == |cards| && forall i | 0 <= i < |cards| :: ids[i] == cards[i].id
  {
    Mapped(cards, CardIdOf)
  }

  /** `list.cards.some(card => card.id === cardId)` */
  predicate HasCard(l: List, cardId: Id) {
    exists c | c in l.cards :: c.id == cardId
  }

  /** `lists.find(list => list.cards.some(card => card.id === cardId))` */
  function FindListWithCard(lists: seq<List>, cardId: Id): (r: Option<List>)
    ensures r.None? <==> forall i | 0 <= i < |lists| :: !HasCard(lists[i], cardId)
    ensures r.Some? ==> exists i | 0 <= i < |lists| ::
      lists[i] == r.value && HasCard(r.value, cardId)
      && forall k | 0 <= k < i :: !HasCard(lists[k], cardId)
  {
    if lists == [] then None
    else if HasCard(lists[0], cardId) then Some(lists[0])
    else
      FindListWithCard(lists[1..], cardId)
  }

  /** `lists.find(...)?.id ?? null`: the id of the first list holding the card. */
  function ListOfCard(lists: seq<List>, cardId: Id): (r: Option<Id>)
    ensures r.None? <==> forall i | 0 <= i < |lists| :: !HasCard(lists[i], cardId)
    ensures r.Some? ==> exists i | 0 <= i < |lists| ::
      lists[i].id == r.value && HasCard(lists[i], cardId)
      && forall k | 0 <= k < i :: !HasCard(lists[k], cardId)
  {
    var l := FindListWithCard(lists, cardId);
    if l.Some? then Some(l.value.id) else None
  }

  /** `c` is the first card of `cards` with id `cardId`. */
  ghost predicate FirstWithId(cards: seq<Card>, cardId: Id, c: Card) {
    exists i | 0 <= i < |cards| :: cards[i] == c && c.id == cardId
      && forall k | 0 <= k < i :: cards[k].id != cardId
  }

  /** `cards.find(c => c.id === cardId)` */
  function FindCard(cards: seq<Card>, cardId: Id): (r: Option<Card>)
    ensures r.None? <==> forall c | c in cards :: c.id != cardId
    ensures r.Some? ==> r.value in cards && r.value.id == cardId
    ensures r.Some? ==> FirstWithId(cards, cardId, r.value)
  {
    if cards == [] then None
    else if cards[0].id == cardId then Some(cards[0])
    else FindCard(cards[1..], cardId)
  }

  /** What `parseDragEvent` answers for the (already normalised) dragged card id and the
      resolved drop target: nothing unless some list holds the card and the target is a
      non-empty id (`!targetListId` rejects both `null` and `""`); otherwise the first
      card with the id in the first list holding it, that list, the target, and whether
      the two lists are the same. */
  ghost predicate ParseOutcome(cardId: Id, droppableId: string, board: Board, target: Option<Id>, r: Option<DragDropResult>) {
    && (r.Some? <==>
         (exists i | 0 <= i < |board.lists| :: HasCard(board.lists[i], cardId))
         && target.Some? && target.value != "")
    && (r.Some? ==>
         && r.value.cardId == cardId
         && r.value.droppableId == droppableId
         && r.value.targetListId == target.value
         && r.value.card.id == cardId
         && (r.value.isSameList <==> r.value.sourceListId == r.value.targetListId)
         && exists i | 0 <= i < |board.lists| ::
              board.lists[i].id == r.value.sourceListId && r.value.card in board.lists[i].cards
              && FirstWithId(board.lists[i].cards, cardId, r.value.card)
              && forall k | 0 <= k < i :: !HasCard(board.lists[k], cardId))
  }

  /** The body of `parseDragEvent` after the front end has normalised the card id and
      resolved the drop target. */
  function Parsed(cardId: Id, droppableId: string, board: Board, targetListId: Option<Id>): (r: Option<DragDropResult>)
    ensures ParseOutcome(cardId, droppableId, board, targetListId, r)
  {
    var sourceList := FindListWithCard(board.lists, cardId);
    if sourceList.None? then None
    else if targetListId.None? || targetListId.value == "" then None
    else
      var card := FindCard(sourceList.value.cards, cardId);
      if card.None? then None
      else
        Some(DragDropResult(cardId, droppableId, sourceList.value.id, targetListId.value,
                            sourceList.value.id == targetListId.value, card.value))
  }

  /** What `calculateReorder` promises: nothing when either id is not in the list;
      otherwise the new id order is a permutation of the old one with the dragged card at
      the index the dropped-on card had, every other pair of cards in its old relative
      order, and each id paired with the card that `new Map(cards.map(c => [c.id, c]))`
      holds for it, which is the last card with that id. */
  ghost predicate Reordering(cards: seq<Card>, dragged: Id, droppedOn: Id, r: Option<ReorderResult>) {
    var ids := CardIds(cards);
    && (r.None? <==> dragged !in ids || droppedOn !in ids)
    && (r.Some? ==>
         var ro := r.value.reorderedIds;
         && |ro| == |ids|
         && multiset(ro) == multiset(ids)
         && ro[IndexOf(ids, droppedOn)] == dragged
         && (forall a, b | a != dragged && b != dragged && Before(ro, a, b) :: Before(ids, a, b))
         && |r.value.reorderedCards| == |ro|
         && forall i | 0 <= i < |ro| :: Some(r.value.reorderedCards[i]) == LastBy(cards, CardIdOf, ro[i]))
  }

  /** The two splices move the element at `oldIndex` to `newIndex`: the result is a
      permutation, `x` ends at `newIndex`, and the other elements keep their order. */
  lemma SpliceMoves(ids: seq<Id>, oldIndex: nat, newIndex: nat, x: Id)
    requires oldIndex < |ids| && newIndex < |ids| && ids[oldIndex] == x
    ensures var ro := InsertAt(RemoveAt(ids, oldIndex), newIndex, x);
      && |ro| == |ids|
      && multiset(ro) == multiset(ids)
      && ro[newIndex] == x
      && forall a, b | a != x && b != x && Before(ro, a, b) :: Before(ids, a, b)
  {
    var removed := RemoveAt(ids, oldIndex);
    var ro := InsertAt(removed, newIndex, x);
    RemoveAtMultiset(ids, oldIndex);
    InsertAtMultiset(removed, newIndex, x);
    forall a, b | a != x && b != x && Before(ro, a, b) ensures Before(ids, a, b) {
      InsertAtBefore(removed, newIndex, x, a, b);
      RemoveAtBefore(ids, oldIndex, a, b);
    }
  }

  /** A permutation of the card ids only names ids the id-to-card map holds. */
  lemma MapCoversReordered(cards: seq<Card>, cardMap: map<Id, Card>, ro: seq<Id>)
    requires Indexed(cardMap, cards, CardIdOf, CardItself)
    requires multiset(ro) == multiset(CardIds(cards))
    ensures forall i | 0 <= i < |ro| :: ro[i] in cardMap && Some(cardMap[ro[i]]) == LastBy(cards, CardIdOf, ro[i])
  {
    var cardIds := CardIds(cards);
    forall i | 0 <= i < |ro|
      ensures ro[i] in cardMap && Some(cardMap[ro[i]]) == LastBy(cards, CardIdOf, ro[i])
    {
      LastByPresent(cards, CardIdOf, ro[i]);
      assert ro[i] in multiset(cardIds);
      var k :| 0 <= k < |cardIds| && cardIds[k] == ro[i];
      assert CardIdOf(cards[k]) == ro[i];
    }
  }

  /** `calculateReorder`: remove the dragged id from a copy of the id list, insert it again
      at the dropped-on card's old index, and look each id up in a map from id to card. */
  method CalculateReorder(cards: seq<Card>, draggedCardId: Id, droppedOnCardId: Id) returns (r: Option<ReorderResult>)
    ensures Reordering(cards, draggedCardId, droppedOnCardId, r)
  {
    var cardIds := CardIds(cards);
    var oldIndex := IndexOf(cardIds, draggedCardId);
    var newIndex := IndexOf(cardIds, droppedOnCardId);
    if oldIndex == -1 || newIndex == -1 {
      return None;
    }
    var reorderedIds := cardIds;
    reorderedIds := RemoveAt(reorderedIds, oldIndex);
    reorderedIds := InsertAt(reorderedIds, newIndex, draggedCardId);
    SpliceMoves(cardIds, oldIndex, newIndex, draggedCardId);
    var cardMap := IndexBy(cards, CardIdOf, CardItself);
    MapCoversReordered(cards, cardMap, reorderedIds);
    var reorderedCards := seq(|reorderedIds|, i requires 0 <= i < |reorderedIds| && reorderedIds[i] in cardMap =>
      cardMap[reorderedIds[i]]);
    r := Some(ReorderResult(reorderedIds, reorderedCards));
  }

  /** The reordered cards carry the reordered ids, so the list a reorder produces holds
      the same card ids as before, each as often. */
  lemma ReorderedCardIds(cards: seq<Card>, dragged: Id, droppedOn: Id, r: Option<ReorderResult>)
    requires Reordering(cards, dragged, droppedOn, r) && r.Some?
    ensures CardIds(r.value.reorderedCards) == r.value.reorderedIds
    ensures multiset(CardIds(r.value.reorderedCards)) == multiset(CardIds(cards))
  {
    var ro := r.value.reorderedIds;
    forall i | 0 <= i < |ro| ensures r.value.reorderedCards[i].id == ro[i] {
      assert Some(r.value.reorderedCards[i]) == LastBy(cards, CardIdOf, ro[i]);
    }
  }

  /** The optimistic same-list update: the lists whose id is the target get the reordered
      cards, every other list and every other field is kept. */
  function CreateReorderUpdate(board: Board, result: DragDropResult, reorderedCards: seq<Card>): (b: Board)
    ensures b.id == board.id && b.title == board.title && b.description == board.description
    ensures |b.lists| == |board.lists|
  {
    board.(lists := Mapped(board.lists, (l: List) =>
      if l.id == result.targetListId then l.(cards := reorderedCards) else l))
  }

  /** A reorder changes the cards of the target list and nothing else. */
  lemma ReorderUpdateTouchesTarget(board: Board, result: DragDropResult, reorderedCards: seq<Card>, i: int)
    requires 0 <= i < |board.lists|
    ensures var l, l' := board.lists[i], CreateReorderUpdate(board, result, reorderedCards).lists[i];
      && l'.id == l.id && l'.title == l.title && l'.position == l.position
      && l'.cards == (if l.id == result.targetListId then reorderedCards else l.cards)
  {
  }

  /** `cards.filter(c => c.id !== cardId)` */
  function WithoutCard(cards: seq<Card>, cardId: Id): (r: seq<Card>)
    ensures forall c {:trigger c in r} :: c in r <==> c in cards && c.id != cardId
    ensures |r| <= |cards|
  {
    if cards == [] then []
    else if cards[0].id == cardId then WithoutCard(cards[1..], cardId)
    else [cards[0]] + WithoutCard(cards[1..], cardId)
  }

  /** Filtering out a card whose id occurs once shortens the list by one. */
  lemma {:induction false} WithoutCardRemovesOne(cards: seq<Card>, cardId: Id)
    requires NoDup(CardIds(cards)) && cardId in CardIds(cards)
    ensures |WithoutCard(cards, cardId)| == |cards| - 1
  {
    var ids := CardIds(cards);
    if cards[0].id == cardId {
      forall i | 0 <= i < |cards[1..]| ensures cards[1..][i].id != cardId {
        assert ids[i + 1] != ids[0];
      }
      WithoutCardTail(cards[1..], cardId);
    } else {
      var k :| 0 <= k < |ids| && ids[k] == cardId;
      assert CardIds(cards[1..]) == ids[1..];
      assert ids[1..][k - 1] == cardId;
      WithoutCardRemovesOne(cards[1..], cardId);
    }
  }

  /** Filtering out a card keeps the order of the others: two remaining cards come in the
      filtered list in the order they came before, and only then. */
  lemma WithoutCardBefore(cards: seq<Card>, cardId: Id, a: Card, b: Card)
    requires a.id != cardId && b.id != cardId
    ensures Before(WithoutCard(cards, cardId), a, b) <==> Before(cards, a, b)
  {
    var w := WithoutCard(cards, cardId);
    if Before(w, a, b) {
      var i, j :| 0 <= i < j < |w| && w[i] == a && w[j] == b;
      var p, q := WithoutCardBeforeWas(cards, cardId, i, j);
    }
    if Before(cards, a, b) {
      var i, j :| 0 <= i < j < |cards| && cards[i] == a && cards[j] == b;
      var p, q := WithoutCardBeforeKept(cards, cardId, i, j);
    }
  }

  /** Where the cards at indices `i <= j` of the filtered list came from. */
  lemma {:induction false} WithoutCardBeforeWas(cards: seq<Card>, cardId: Id, i: int, j: int)
    returns (p: int, q: int)
    requires 0 <= i <= j < |WithoutCard(cards, cardId)|
    ensures 0 <= p <= q < |cards| && (i < j ==> p < q)
    ensures cards[p] == WithoutCard(cards, cardId)[i] && cards[q] == WithoutCard(cards, cardId)[j]
  {
    var rest := cards[1..];
    var t := WithoutCard(rest, cardId);
    if cards[0].id == cardId {
      p, q := WithoutCardBeforeWas(rest, cardId, i, j);
      p, q := p + 1, q + 1;
    } else {
      if j == 0 {
        p, q := 0, 0;
      } else if i == 0 {
        var _, q' := WithoutCardBeforeWas(rest, cardId, j - 1, j - 1);
        p, q := 0, q' + 1;
      } else {
        p, q := WithoutCardBeforeWas(rest, cardId, i - 1, j - 1);
        p, q := p + 1, q + 1;
      }
    }
  }

  /** Where the cards at indices `i <= j`, when the filter keeps them, end up. */
  lemma {:induction false} WithoutCardBeforeKept(cards: seq<Card>, cardId: Id, i: int, j: int)
    returns (p: int, q: int)
    requires 0 <= i <= j < |cards| && cards[i].id != cardId && cards[j].id != cardId
    ensures 0 <= p <= q < |WithoutCard(cards, cardId)| && (i < j ==> p < q)
    ensures WithoutCard(cards, cardId)[p] == cards[i] && WithoutCard(cards, cardId)[q] == cards[j]
  {
    var rest := cards[1..];
    var t := WithoutCard(rest, cardId);
    if j == 0 {
      p, q := 0, 0;
    } else if i == 0 {
      var _, q' := WithoutCardBeforeKept(rest, cardId, j - 1, j - 1);
      p, q := 0, q' + 1;
    } else if cards[0].id == cardId {
      p, q := WithoutCardBeforeKept(rest, cardId, i - 1, j - 1);
    } else {
      p, q := WithoutCardBeforeKept(rest, cardId, i - 1, j - 1);
      p, q := p + 1, q + 1;
    }
  }

  /** Filtering out an id no card has keeps every card. */
  lemma {:induction false} WithoutCardTail(cards: seq<Card>, cardId: Id)
    requires forall i | 0 <= i < |cards| :: cards[i].id != cardId
    ensures WithoutCard(cards, cardId) == cards
  {
    if cards != [] {
      WithoutCardTail(cards[1..], cardId);
    }
  }

  /** The list as `createCrossListUpdate` rewrites it: the source list loses the card; a
      target list that is not also the source gains it at the end; any other list is kept. */
  function CrossListed(l: List, result: DragDropResult): List {
    if l.id == result.sourceListId then l.(cards := WithoutCard(l.cards, result.cardId))
    else if l.id == result.targetListId then l.(cards := l.cards + [result.card])
    else l
  }

  /** The optimistic cross-list update. */
  function CreateCrossListUpdate(board: Board, result: DragDropResult): (b: Board)
    ensures b.id == board.id && b.title == board.title && b.description == board.description
    ensures |b.lists| == |board.lists|
    ensures forall i | 0 <= i < |board.lists| ::
      b.lists[i].id == board.lists[i].id && b.lists[i].title == board.lists[i].title
      && b.lists[i].position == board.lists[i].position
    ensures forall i | 0 <= i < |board.lists| && board.lists[i].id == result.sourceListId ::
      b.lists[i].cards == WithoutCard(board.lists[i].cards, result.cardId)
      && !HasCard(b.lists[i], result.cardId)
    ensures forall i | 0 <= i < |board.lists| && board.lists[i].id != result.sourceListId
                        && board.lists[i].id == result.targetListId ::
      b.lists[i].cards == board.lists[i].cards + [result.card]
    ensures forall i | 0 <= i < |board.lists| && board.lists[i].id != result.sourceListId
                        && board.lists[i].id != result.targetListId ::
      b.lists[i] == board.lists[i]
  {
    board.(lists := Mapped(board.lists, (l: List) => CrossListed(l, result)))
  }

  /** `else if` makes a cross-list update onto the card's own list drop the card: the
      list is filtered and nothing is appended. */
  lemma CrossListSameListDrops(board: Board, result: DragDropResult, i: int)
    requires 0 <= i < |board.lists| && result.sourceListId == result.targetListId
    requires board.lists[i].id == result.targetListId
    ensures !HasCard(CreateCrossListUpdate(board, result).lists[i], result.cardId)
  {
  }

  /** The number of cards on a board. */
  function CardCount(lists: seq<List>): nat {
    if lists == [] then 0 else |lists[0].cards| + CardCount(lists[1..])
  }

  function ListIds(lists: seq<List>): (ids: seq<Id>)
    ensures |ids| == |lists| && forall i | 0 <= i < |lists| :: ids[i] == lists[i].id
  {
    Mapped(lists, (l: List) => l.id)
  }

  /** Across lists with distinct ids where the source list holds the moved card once, a
      cross-list update takes one card away for a source list present and adds one for a
      different target list present. */
  lemma {:induction false} CrossListCount(lists: seq<List>, result: DragDropResult)
    requires NoDup(ListIds(lists)) && result.sourceListId != result.targetListId
    requires forall i | 0 <= i < |lists| && lists[i].id == result.sourceListId ::
      NoDup(CardIds(lists[i].cards)) && result.cardId in CardIds(lists[i].cards)
    ensures CardCount(Mapped(lists, (l: List) => CrossListed(l, result)))
      == CardCount(lists)
         + (if result.targetListId in ListIds(lists) then 1 else 0)
         - (if result.sourceListId in ListIds(lists) then 1 else 0)
  {
    if lists != [] {
      var rest := lists[1..];
      MappedTail(lists, (l: List) => CrossListed(l, result));
      MappedTail(lists, (l: List) => l.id);
      NoDupTail(ListIds(lists));
      assert ListIds(lists) == [lists[0].id] + ListIds(rest);
      forall i | 0 <= i < |rest| && rest[i].id == result.sourceListId
        ensures NoDup(CardIds(rest[i].cards)) && result.cardId in CardIds(rest[i].cards)
      {
        assert rest[i] == lists[i + 1];
      }
      CrossListCount(rest, result);
      if lists[0].id == result.sourceListId {
        WithoutCardRemovesOne(lists[0].cards, result.cardId);
      }
    }
  }

  /** A move between two different lists of a board whose list ids are distinct, when the
      source list holds the card once and the target list is on the board, keeps the
      number of cards on the board. */
  lemma CrossListKeepsCount(board: Board, result: DragDropResult)
    requires NoDup(ListIds(board.lists)) && result.sourceListId != result.targetListId
    requires result.sourceListId in ListIds(board.lists) && result.targetListId in ListIds(board.lists)
    requires forall i | 0 <= i < |board.lists| && board.lists[i].id == result.sourceListId ::
      NoDup(CardIds(board.lists[i].cards)) && result.cardId in CardIds(board.lists[i].cards)
    ensures CardCount(CreateCrossListUpdate(board, result).lists) == CardCount(board.lists)
  {
    CrossListCount(board.lists, result);
  }
}
