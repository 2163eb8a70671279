/** How the solidstart front end reads the ids a drop hands it: droppable ids carry a
    `list-` or `card-` prefix, which it strips before looking a card or list up, and the
    dragged card's id may carry the `card-` prefix too. */
module DragDropSolidStart {
  import opened Base
  import DragDrop

  /** `id.startsWith('card-') ? id.replace('card-', '') : id` */
  function StripCardPrefix(id: string): (r: string)
    ensures StartsWith(id, "card-") ==> "card-" + r == id
    ensures !StartsWith(id, "card-") ==> r == id
  {
    if StartsWith(id, "card-") then ReplaceFirst(id, "card-") else id
  }

  /** `resolveTargetListId`: a list drop names the list after its prefix; a card drop names
      the first list holding the card after its prefix; any other id names nothing. */
  function ResolveTargetListId(droppableId: string, board: DragDrop.Board): (r: Option<Id>)
    ensures StartsWith(droppableId, "list-") ==> r.Some? && "list-" + r.value == droppableId
    ensures !StartsWith(droppableId, "list-") && StartsWith(droppableId, "card-") ==>
      r == DragDrop.ListOfCard(board.lists, DropPrefix(droppableId, "card-"))
    ensures !StartsWith(droppableId, "list-") && !StartsWith(droppableId, "card-") ==> r.None?
  {
    if StartsWith(droppableId, "list-") then Some(ReplaceFirst(droppableId, "list-"))
    else if StartsWith(droppableId, "card-") then
      DragDrop.ListOfCard(board.lists, ReplaceFirst(droppableId, "card-"))
    else None
  }

  /** `list-<id>` resolves to `<id>`, and `card-<id>` to the first list holding card `<id>`. */
  lemma ResolvePrefixed(x: string, board: DragDrop.Board)
    ensures ResolveTargetListId("list-" + x, board) == Some(x)
    ensures ResolveTargetListId("card-" + x, board) == DragDrop.ListOfCard(board.lists, x)
  {
    assert ("list-" + x)[..5] == "list-";
    assert ("card-" + x)[..5] == "card-";
    assert ("card-" + x)[..5] != "list-" by { assert ("card-" + x)[0] == 'c'; }
    assert ("list-" + x)[5..] == x;
    assert ("card-" + x)[5..] == x;
  }

  /** `parseDragEvent`, with the dragged card's `card-` prefix stripped. */
  function ParseDragEvent(cardId: string, droppableId: string, board: DragDrop.Board): (r: Option<DragDrop.DragDropResult>)
    ensures DragDrop.ParseOutcome(StripCardPrefix(cardId), droppableId, board, ResolveTargetListId(droppableId, board), r)
  {
    DragDrop.Parsed(StripCardPrefix(cardId), droppableId, board, ResolveTargetListId(droppableId, board))
  }

  /** A dragged card is found whether or not its id carries the `card-` prefix. */
  lemma ParsePrefixedCard(x: string, droppableId: string, board: DragDrop.Board)
    requires !StartsWith(x, "card-")
    ensures ParseDragEvent("card-" + x, droppableId, board) == ParseDragEvent(x, droppableId, board)
  {
    assert ("card-" + x)[..5] == "card-";
    assert ("card-" + x)[5..] == x;
  }

  /** `calculateReorder`, with the dropped-on card's `card-` prefix stripped; the dragged
      card's id is used as given. */
  method CalculateReorder(cards: seq<DragDrop.Card>, draggedCardId: Id, droppedOnCardId: Id)
    returns (r: Option<DragDrop.ReorderResult>)
    ensures DragDrop.Reordering(cards, draggedCardId, StripCardPrefix(droppedOnCardId), r)
  {
    var actualDroppedOnCardId := StripCardPrefix(droppedOnCardId);
    r := DragDrop.CalculateReorder(cards, draggedCardId, actualDroppedOnCardId);
  }
}

/** How the tanstack-solid front end reads the ids a drop hands it: a droppable id with the
    `list-` prefix names the list after it; any other droppable id is a bare card id. */
module DragDropTanstackSolid {
  import opened Base
  import DragDrop

  /** `resolveTargetListId`: `droppableId.substring(5)` for a list drop, else the first
      list holding a card with the droppable id. */
  function ResolveTargetListId(droppableId: string, board: DragDrop.Board): (r: Option<Id>)
    ensures StartsWith(droppableId, "list-") ==> r.Some? && "list-" + r.value == droppableId
    ensures !StartsWith(droppableId, "list-") ==> r == DragDrop.ListOfCard(board.lists, droppableId)
  {
    if StartsWith(droppableId, "list-") then Some(droppableId[5..])
    else DragDrop.ListOfCard(board.lists, droppableId)
  }

  /** A list drop resolves to the id after the prefix, and a bare card id that does not
      look like a list drop resolves to the first list holding it. */
  lemma ResolveDrop(x: string, board: DragDrop.Board)
    ensures ResolveTargetListId("list-" + x, board) == Some(x)
    ensures !StartsWith(x, "list-") ==> ResolveTargetListId(x, board) == DragDrop.ListOfCard(board.lists, x)
  {
    assert ("list-" + x)[..5] == "list-";
    assert ("list-" + x)[5..] == x;
  }

  /** `parseDragEvent`: ids are used as given. */
  function ParseDragEvent(cardId: Id, droppableId: string, board: DragDrop.Board): (r: Option<DragDrop.DragDropResult>)
    ensures DragDrop.ParseOutcome(cardId, droppableId, board, ResolveTargetListId(droppableId, board), r)
  {
    DragDrop.Parsed(cardId, droppableId, board, ResolveTargetListId(droppableId, board))
  }

  /** Dropping a card on a card of its own list is a same-list drop. */
  lemma DropOnNeighbourIsSameList(cardId: Id, other: Id, board: DragDrop.Board, i: int)
    requires 0 <= i < |board.lists| && board.lists[i].id != ""
    requires DragDrop.HasCard(board.lists[i], cardId) && DragDrop.HasCard(board.lists[i], other)
    requires forall k | 0 <= k < |board.lists| && k != i ::
      !DragDrop.HasCard(board.lists[k], cardId) && !DragDrop.HasCard(board.lists[k], other)
    requires !StartsWith(other, "list-")
    ensures ParseDragEvent(cardId, other, board).Some?
    ensures ParseDragEvent(cardId, other, board).value.isSameList
  {
    var t := DragDrop.ListOfCard(board.lists, other);
    var r := ParseDragEvent(cardId, other, board);
    assert t == Some(board.lists[i].id);
    var j :| 0 <= j < |board.lists| && board.lists[j].id == r.value.sourceListId
      && r.value.card in board.lists[j].cards
      && forall k | 0 <= k < j :: !DragDrop.HasCard(board.lists[k], cardId);
    assert DragDrop.HasCard(board.lists[j], cardId);
  }
}

/** How the nextjs front end reads the ids a drop hands it (the top-level
    `src/lib/drag-drop/logic.ts` is the same code): a list drop's droppable id is returned
    whole, prefix included, and a card drop looks up a card whose id is the whole
    droppable id. */
module DragDropNextjs {
  import opened Base
  import DragDrop

  /** `resolveTargetListId`: the droppable id itself for a list drop, the first list holding
      a card with the droppable id for a card drop, nothing otherwise. */
  function ResolveTargetListId(droppableId: string, board: DragDrop.Board): (r: Option<Id>)
    ensures StartsWith(droppableId, "list-") ==> r == Some(droppableId)
    ensures !StartsWith(droppableId, "list-") && StartsWith(droppableId, "card-") ==>
      r == DragDrop.ListOfCard(board.lists, droppableId)
    ensures !StartsWith(droppableId, "list-") && !StartsWith(droppableId, "card-") ==> r.None?
  {
    if StartsWith(droppableId, "list-") then Some(droppableId)
    else if StartsWith(droppableId, "card-") then DragDrop.ListOfCard(board.lists, droppableId)
    else None
  }

  /** A list drop keeps its prefix, so it names the list only when the list's own id
      carries the prefix; a card drop finds a list only when a card's id carries it. */
  lemma ResolveKeepsPrefix(x: string, board: DragDrop.Board)
    ensures ResolveTargetListId("list-" + x, board) == Some("list-" + x)
    ensures ResolveTargetListId("card-" + x, board) == DragDrop.ListOfCard(board.lists, "card-" + x)
  {
    assert ("list-" + x)[..5] == "list-";
    assert ("card-" + x)[..5] == "card-";
    assert ("card-" + x)[..5] != "list-" by { assert ("card-" + x)[0] == 'c'; }
  }

  /** `parseDragEvent`: ids are used as given. */
  function ParseDragEvent(cardId: Id, droppableId: string, board: DragDrop.Board): (r: Option<DragDrop.DragDropResult>)
    ensures DragDrop.ParseOutcome(cardId, droppableId, board, ResolveTargetListId(droppableId, board), r)
  {
    DragDrop.Parsed(cardId, droppableId, board, ResolveTargetListId(droppableId, board))
  }

  /** A drop on a list is a same-list drop exactly when the card's list id is the whole
      droppable id, prefix included. */
  lemma ListDropSameList(cardId: Id, x: string, board: DragDrop.Board)
    requires ParseDragEvent(cardId, "list-" + x, board).Some?
    ensures var r := ParseDragEvent(cardId, "list-" + x, board).value;
      r.targetListId == "list-" + x && (r.isSameList <==> r.sourceListId == "list-" + x)
  {
    ResolveKeepsPrefix(x, board);
  }
}
