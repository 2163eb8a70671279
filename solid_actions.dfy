/** The drag-and-drop server actions of the SolidStart app
    (kanban-solidstart/src/api/drag-drop-actions.ts): moving a card to another list, and
    writing the positions of a reordered list. Store failures are answered with
    `success: false` rather than raised. */
module SolidActions {
  import opened Base
  import opened Store

  /** A drop target id names a list directly (`list-...`) or, when a card was the target,
      with the card prefix: `normalizeListId` keeps the first and strips a leading `card-`
      from anything else. */
  function NormalizeListId(id: string): (r: string)
    ensures StartsWith(id, "list-") ==> r == id
    ensures !StartsWith(id, "list-") && StartsWith(id, "card-") ==> "card-" + r == id
    ensures !StartsWith(id, "list-") && !StartsWith(id, "card-") ==> r == id
  {
    if StartsWith(id, "list-") then id
    else if StartsWith(id, "card-") then DropPrefix(id, "card-")
    else id
  }

  /** Exactly one `card-` prefix is removed: prefixing any id with `card-` and normalising
      gives the id back. */
  lemma NormalizeStripsOnePrefix(id: string)
    ensures NormalizeListId("card-" + id) == id
  {
    assert !StartsWith("card-" + id, "list-") by {
      assert ("card-" + id)[0] == 'c';
    }
    assert ("card-" + id)[..5] == "card-";
  }

  /** The normalisation is not idempotent: a doubled prefix loses only its first copy. */
  lemma NormalizeKeepsSecondPrefix(x: string)
    ensures NormalizeListId("card-" + ("card-" + x)) == "card-" + x
  {
    NormalizeStripsOnePrefix("card-" + x);
  }

  datatype ListMove = Moved(listId: Id) | ListMoveFailed(error: string)

  /** `updateCardListAction`: writes only the card's `list_id`, and on success reports the
      normalised target it wrote. The store failing on `cardId` is answered with a message. */
  method UpdateCardListAction(db: Db, cardId: Id, targetId: string, refused: set<Id>) returns (r: ListMove)
    modifies db`cards
    ensures cardId in refused ==>
      r == ListMoveFailed("Failed to move card. Please try again.") && db.cards == old(db.cards)
    ensures cardId !in refused ==>
      r == Moved(NormalizeListId(targetId)) && db.cards == SetList(old(db.cards), cardId, r.listId)
  {
    var normalizedTarget := NormalizeListId(targetId);
    if cardId in refused {
      return ListMoveFailed("Failed to move card. Please try again.");
    }
    db.UpdateList(cardId, normalizedTarget);
    r := Moved(normalizedTarget);
  }

  datatype Outcome = Success | Failed(error: string)

  /** `updateCardPositionsAction`: `position := i` for `cardIds[i]` inside one transaction;
      any store failure rolls back every write and is answered with a message. */
  method UpdateCardPositionsAction(db: Db, cardIds: seq<Id>, refused: set<Id>) returns (r: Outcome)
    modifies db`cards
    ensures r.Success? <==> forall id | id in cardIds :: id !in refused
    ensures r.Success? ==> db.cards == Reindexed(old(db.cards), cardIds)
    ensures r.Failed? ==> r == Failed("Failed to reorder cards. Please try again.") && db.cards == old(db.cards)
  {
    var snapshot := db.cards;
    var k := db.WritePositions(cardIds, refused);
    if k < |cardIds| {
      db.cards := snapshot;
      return Failed("Failed to reorder cards. Please try again.");
    }
    assert cardIds[..k] == cardIds;
    r := Success;
  }
}
