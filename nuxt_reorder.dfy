/** The bulk reorder of the Nuxt app (kanban-nuxt/server/api/cards/reorder.post.ts): after
    an input check, one transaction sets `position := i` on the card `cardIds[i]` for each i.
    The `listId` of the request is checked for presence but not used to filter. */
module NuxtReorder {
  import opened Base
  import opened Store

  /** The `cardIds` field of the JSON body. */
  datatype IdsField = Missing | NotArray | Array(ids: seq<Id>)

  datatype ReorderPayload = ReorderPayload(cardIds: IdsField, listId: Option<string>)

  datatype Response = Success | Failure(status: int, message: string)

  /** `cardIds` is an array and `listId` is a non-empty string. */
  predicate Complete(body: ReorderPayload) {
    body.cardIds.Array? && body.listId.Some? && body.listId.value != ""
  }

  /** The handler; a write to a card in `refused` fails and rolls the transaction back. */
  method Reorder(db: Db, body: ReorderPayload, refused: set<Id>) returns (r: Response)
    modifies db`cards
    ensures !Complete(body) ==> r == Failure(400, "Missing required fields") && db.cards == old(db.cards)
    ensures Complete(body) ==> (r.Success? <==> forall id | id in body.cardIds.ids :: id !in refused)
    ensures Complete(body) && r.Success? ==> db.cards == Reindexed(old(db.cards), body.cardIds.ids)
    ensures Complete(body) && r.Failure? ==> r == Failure(500, "Failed to reorder cards") && db.cards == old(db.cards)
  {
    if !Complete(body) {
      return Failure(400, "Missing required fields");
    }
    var ids := body.cardIds.ids;
    var snapshot := db.cards;
    var k := db.WritePositions(ids, refused);
    if k < |ids| {
      db.cards := snapshot;
      return Failure(500, "Failed to reorder cards");
    }
    assert ids[..k] == ids;
    r := Success;
  }

  /** The reorder's effect on one card: a card named in `cardIds` takes the LAST index that
      names it, whatever list it is in; every other card keeps its row; and only `position`
      is ever written. */
  lemma ReorderEffect(cards: map<Id, CardRow>, ids: seq<Id>, id: Id)
    requires id in cards
    ensures var m := Reindexed(cards, ids);
      && m[id].listId == cards[id].listId && m[id].completed == cards[id].completed
      && (id in ids ==> m[id].position == LastIndex(ids, id)
                        && forall k | 0 <= k < |ids| && ids[k] == id :: k <= m[id].position)
      && (id !in ids ==> m[id] == cards[id])
  {
    ReindexedAt(cards, ids, id);
  }
}
