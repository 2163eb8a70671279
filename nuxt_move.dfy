/** The renumbering card move of the Nuxt app (kanban-nuxt/server/api/cards/move.post.ts).
    After checking the payload, one transaction reassigns the card's list, renumbers the
    source list 0, 1, ... in its current position order, takes the target list in position
    order, removes the card from it, splices the card in at `newPosition`, and renumbers
    the result. A failing write rolls the whole transaction back.

    Which of two cards of equal position the ORDER BY lists first is not fixed, so the
    method reports its choices as ghost out-parameters and its postcondition holds for
    any of them. */
module NuxtMove {
  import opened Base
  import opened Store

  /** The JSON body; a field the client left out is `None`. */
  datatype MovePayload = MovePayload(
    cardId: Option<string>,
    sourceListId: string,
    targetListId: Option<string>,
    newPosition: Option<int>)

  datatype Response = Success | Failure(status: int, message: string)

  /** A JavaScript string value that is truthy: present and non-empty. */
  predicate Truthy(s: Option<string>) {
    s.Some? && s.value != ""
  }

  /** The request passes the check for required fields. */
  predicate Complete(body: MovePayload) {
    Truthy(body.cardId) && Truthy(body.targetListId) && body.newPosition.Some?
  }

  /** The table after the first statement of the transaction. */
  function Reassigned(cards: map<Id, CardRow>, cardId: Id, source: Id, target: Id): (r: map<Id, CardRow>)
    ensures source != target ==> r == SetList(cards, cardId, target)
    ensures source == target ==> r == cards
  {
    if source != target then SetList(cards, cardId, target) else cards
  }

  /** The first statement changes at most one card's list and nothing else. */
  lemma ReassignedRows(cards: map<Id, CardRow>, cardId: Id, source: Id, target: Id)
    ensures var c1 := Reassigned(cards, cardId, source, target);
      && c1.Keys == cards.Keys
      && forall id | id in cards :: c1[id] == cards[id].(listId := c1[id].listId)
  {
  }

  /** The new order of the target list: its cards without the moved one, with the moved
      one spliced in at `newPosition`. */
  function TargetOrder(targetCards: seq<Id>, cardId: Id, newPosition: int): (order: seq<Id>)
    ensures |order| == |Without(targetCards, cardId)| + 1
    ensures order[SpliceStart(|Without(targetCards, cardId)|, newPosition)] == cardId
  {
    InsertAt(Without(targetCards, cardId), newPosition, cardId)
  }

  /** The two SELECTs returned `sourceOrder` and then `targetCards`. */
  ghost predicate Selections(cards: map<Id, CardRow>, cardId: Id, source: Id, target: Id,
                             sourceOrder: seq<Id>, targetCards: seq<Id>)
  {
    var c1 := Reassigned(cards, cardId, source, target);
    Listing(c1, source, sourceOrder) && Listing(Reindexed(c1, sourceOrder), target, targetCards)
  }

  /** The table a committed move leaves, given the two SELECT results. */
  ghost function Committed(cards: map<Id, CardRow>, cardId: Id, source: Id, target: Id, newPosition: int,
                           sourceOrder: seq<Id>, targetCards: seq<Id>): map<Id, CardRow>
  {
    var c1 := Reassigned(cards, cardId, source, target);
    Reindexed(Reindexed(c1, sourceOrder), TargetOrder(targetCards, cardId, newPosition))
  }

  /** The ids the transaction writes, in order: the moved card's list (when it changes),
      the source list's renumbering, the target list's renumbering. */
  function Written(cardId: Id, source: Id, target: Id, newPosition: int,
                   sourceOrder: seq<Id>, targetCards: seq<Id>): seq<Id>
  {
    (if source != target then [cardId] else []) + sourceOrder + TargetOrder(targetCards, cardId, newPosition)
  }

  /** No id of `ids` is refused. */
  predicate Clear(ids: seq<Id>, refused: set<Id>) {
    forall id | id in ids :: id !in refused
  }

  /** The writes are clear exactly when each of the three groups is. */
  lemma WrittenClear(cardId: Id, source: Id, target: Id, newPosition: int,
                     sourceOrder: seq<Id>, targetCards: seq<Id>, refused: set<Id>)
    ensures Clear(Written(cardId, source, target, newPosition, sourceOrder, targetCards), refused) <==>
      && (source != target ==> cardId !in refused)
      && Clear(sourceOrder, refused)
      && Clear(TargetOrder(targetCards, cardId, newPosition), refused)
  {
    var first: seq<Id> := if source != target then [cardId] else [];
    var order := TargetOrder(targetCards, cardId, newPosition);
    assert Written(cardId, source, target, newPosition, sourceOrder, targetCards) == first + sourceOrder + order;
    assert forall id :: id in first + sourceOrder + order <==> id in first || id in sourceOrder || id in order;
  }

  /** `WritePositions` stopped at `k`: the ids are clear exactly when it wrote them all. */
  lemma ClearAt(ids: seq<Id>, refused: set<Id>, k: nat)
    requires k <= |ids| && (forall i | 0 <= i < k :: ids[i] !in refused) && (k < |ids| ==> ids[k] in refused)
    ensures Clear(ids, refused) <==> k == |ids|
  {
    if k == |ids| {
      forall id | id in ids ensures id !in refused {
        var i :| 0 <= i < |ids| && ids[i] == id;
      }
    }
  }

  /** The transaction's statements, which stop at the first failing write. */
  method Transaction(db: Db, cardId: Id, source: Id, target: Id, newPosition: int, refused: set<Id>)
    returns (ok: bool, ghost sourceOrder: seq<Id>, ghost targetCards: seq<Id>)
    modifies db`cards
    ensures ok ==>
      && Selections(old(db.cards), cardId, source, target, sourceOrder, targetCards)
      && db.cards == Committed(old(db.cards), cardId, source, target, newPosition, sourceOrder, targetCards)
    ensures ok <==> forall id | id in Written(cardId, source, target, newPosition, sourceOrder, targetCards) :: id !in refused
  {
    sourceOrder, targetCards := [], [];
    if source != target {
      if cardId in refused {
        WrittenClear(cardId, source, target, newPosition, sourceOrder, targetCards, refused);
        return false, sourceOrder, targetCards;
      }
      db.UpdateList(cardId, target);
    }
    var ids := db.SelectCardsOfList(source);
    sourceOrder := ids;
    var k := db.WritePositions(ids, refused);
    ClearAt(ids, refused, k);
    if k < |ids| {
      WrittenClear(cardId, source, target, newPosition, sourceOrder, targetCards, refused);
      return false, sourceOrder, targetCards;
    }
    assert ids[..k] == ids;
    ids := db.SelectCardsOfList(target);
    targetCards := ids;
    var order := TargetOrder(ids, cardId, newPosition);
    k := db.WritePositions(order, refused);
    ClearAt(order, refused, k);
    WrittenClear(cardId, source, target, newPosition, sourceOrder, targetCards, refused);
    ok := k == |order|;
    assert ok ==> order[..k] == order;
  }

  /** The handler. An incomplete payload is answered with 400 before any write. A write to a
      card in `refused` fails; the transaction then rolls back and the answer is 500. */
  method Move(db: Db, body: MovePayload, refused: set<Id>)
    returns (r: Response, ghost sourceOrder: seq<Id>, ghost targetCards: seq<Id>)
    modifies db`cards
    ensures !Complete(body) ==> r == Failure(400, "Missing required fields") && db.cards == old(db.cards)
    ensures Complete(body) && r.Failure? ==> r == Failure(500, "Failed to move card") && db.cards == old(db.cards)
    ensures Complete(body) && r.Success? ==>
      var cardId, target := body.cardId.value, body.targetListId.value;
      && Selections(old(db.cards), cardId, body.sourceListId, target, sourceOrder, targetCards)
      && db.cards == Committed(old(db.cards), cardId, body.sourceListId, target, body.newPosition.value,
                               sourceOrder, targetCards)
    ensures Complete(body) ==>
      var written := Written(body.cardId.value, body.sourceListId, body.targetListId.value, body.newPosition.value,
                             sourceOrder, targetCards);
      r.Success? <==> forall id | id in written :: id !in refused
  {
    sourceOrder, targetCards := [], [];
    if !Complete(body) {
      return Failure(400, "Missing required fields"), sourceOrder, targetCards;
    }
    var snapshot := db.cards;
    var ok;
    ok, sourceOrder, targetCards :=
      Transaction(db, body.cardId.value, body.sourceListId, body.targetListId.value, body.newPosition.value, refused);
    if !ok {
      db.cards := snapshot;
      return Failure(500, "Failed to move card"), sourceOrder, targetCards;
    }
    r := Success;
  }

  // ---------------------------------------------------------------------------
  // What a committed move means

  /** Only `list_id` of the moved card and `position` values change; `completed`, titles,
      descriptions and assignees are never written. */
  lemma {:induction false} CommittedChangesOnlyPositions(cards: map<Id, CardRow>, cardId: Id, source: Id, target: Id,
                                                         newPosition: int, sourceOrder: seq<Id>, targetCards: seq<Id>, id: Id)
    requires id in cards
    ensures var m := Committed(cards, cardId, source, target, newPosition, sourceOrder, targetCards);
      && m.Keys == cards.Keys
      && m[id].listId == (if id == cardId && source != target then target else cards[id].listId)
      && m[id] == cards[id].(listId := m[id].listId, position := m[id].position)
  {
  }

  /** With a source list different from the target, the second renumbering does not touch
      the cards of the source list. */
  lemma TargetPassSparesSource(cards: map<Id, CardRow>, cardId: Id, source: Id, target: Id, newPosition: int,
                               sourceOrder: seq<Id>, targetCards: seq<Id>, id: Id)
    requires source != target
    requires Selections(cards, cardId, source, target, sourceOrder, targetCards)
    requires InList(Reindexed(Reassigned(cards, cardId, source, target), sourceOrder), id, source)
    ensures Committed(cards, cardId, source, target, newPosition, sourceOrder, targetCards)[id]
         == Reindexed(Reassigned(cards, cardId, source, target), sourceOrder)[id]
  {
    var c1 := Reassigned(cards, cardId, source, target);
    var c2 := Reindexed(c1, sourceOrder);
    var order := TargetOrder(targetCards, cardId, newPosition);
    assert InList(c1, id, source);
    assert id != cardId;
    assert id !in order by {
      InsertAtMembers(Without(targetCards, cardId), newPosition, cardId, id);
    }
    ReindexedAt(c2, order, id);
  }

  /** With a source list different from the target, the source list's rows are those the
      first renumbering left. */
  lemma SourceAfterFirstPass(cards: map<Id, CardRow>, cardId: Id, source: Id, target: Id, newPosition: int,
                             sourceOrder: seq<Id>, targetCards: seq<Id>)
    requires source != target
    requires Selections(cards, cardId, source, target, sourceOrder, targetCards)
    ensures var c2 := Reindexed(Reassigned(cards, cardId, source, target), sourceOrder);
            var m := Committed(cards, cardId, source, target, newPosition, sourceOrder, targetCards);
      forall id | InList(c2, id, source) :: m[id] == c2[id]
  {
    var c2 := Reindexed(Reassigned(cards, cardId, source, target), sourceOrder);
    forall id | InList(c2, id, source)
      ensures Committed(cards, cardId, source, target, newPosition, sourceOrder, targetCards)[id] == c2[id]
    {
      TargetPassSparesSource(cards, cardId, source, target, newPosition, sourceOrder, targetCards, id);
    }
  }

  /** With a source list different from the target, the source list is renumbered
      0, 1, ..., k - 1 along `sourceOrder` and no two of its cards swap their previous order. */
  lemma SourceRenumbered(cards: map<Id, CardRow>, cardId: Id, source: Id, target: Id, newPosition: int,
                         sourceOrder: seq<Id>, targetCards: seq<Id>)
    requires source != target
    requires Selections(cards, cardId, source, target, sourceOrder, targetCards)
    ensures var m := Committed(cards, cardId, source, target, newPosition, sourceOrder, targetCards);
      && Ranked(m, source, 0)
      && (forall i | 0 <= i < |sourceOrder| :: m[sourceOrder[i]].position == i)
      && (forall a, b | InList(m, a, source) && InList(m, b, source) && m[a].position < m[b].position ::
            cards[a].position <= cards[b].position)
  {
    var c1 := Reassigned(cards, cardId, source, target);
    var c2 := Reindexed(c1, sourceOrder);
    var m := Reindexed(c2, TargetOrder(targetCards, cardId, newPosition));
    assert m == Committed(cards, cardId, source, target, newPosition, sourceOrder, targetCards);
    assert m.Keys == c2.Keys && forall id | id in c2 :: m[id].listId == c2[id].listId;
    SourceAfterFirstPass(cards, cardId, source, target, newPosition, sourceOrder, targetCards);
    RenumberedThenSpared(c1, source, sourceOrder, m);
    ReassignedRows(cards, cardId, source, target);
    forall a, b | InList(m, a, source) && InList(m, b, source) && m[a].position < m[b].position
      ensures cards[a].position <= cards[b].position
    {
      assert a in cards && b in cards;
      assert c1[a].position <= c1[b].position;
    }
  }

  /** A card renumbered by a sequence without repetitions precedes another in position
      exactly when it precedes it in the sequence. */
  lemma ReindexedBefore(cards: map<Id, CardRow>, ids: seq<Id>, a: Id, b: Id)
    requires NoDup(ids) && a in ids && b in ids && a in cards && b in cards
    requires Reindexed(cards, ids)[a].position < Reindexed(cards, ids)[b].position
    ensures Before(ids, a, b)
  {
    var i :| 0 <= i < |ids| && ids[i] == a;
    var j :| 0 <= j < |ids| && ids[j] == b;
    ReindexedNoDup(cards, ids, i);
    ReindexedNoDup(cards, ids, j);
  }

  /** An ORDER BY result lists a card before another only if its position is not greater. */
  lemma SortedBefore(s: seq<Id>, rank: map<Id, int>, a: Id, b: Id)
    requires SortedBy(s, rank) && Before(s, a, b)
    ensures a in rank && b in rank && rank[a] <= rank[b]
  {
    var i, j :| 0 <= i < j < |s| && s[i] == a && s[j] == b;
  }

  /** The renumbered target sequence holds every card of the target list once, the moved
      card included. */
  lemma TargetOrderMembers(c2: map<Id, CardRow>, cardId: Id, target: Id, newPosition: int, targetCards: seq<Id>)
    requires Listing(c2, target, targetCards) && InList(c2, cardId, target)
    ensures var order := TargetOrder(targetCards, cardId, newPosition);
      && NoDup(order)
      && (forall id :: id in order <==> InList(c2, id, target))
      && |Without(targetCards, cardId)| == |targetCards| - 1
  {
    var others := Without(targetCards, cardId);
    var order := TargetOrder(targetCards, cardId, newPosition);
    var i :| 0 <= i < |targetCards| && targetCards[i] == cardId;
    WithoutRemovesOne(targetCards, cardId, i);
    WithoutNoDup(targetCards, cardId);
    InsertAtNoDup(others, newPosition, cardId);
    forall id ensures id in order <==> InList(c2, id, target) {
      InsertAtMembers(others, newPosition, cardId, id);
    }
  }

  /** Two other cards of the target list keep their order in the target renumbering. */
  lemma TargetPairOrder(c2: map<Id, CardRow>, m: map<Id, CardRow>, cardId: Id, target: Id, newPosition: int,
                        targetCards: seq<Id>, a: Id, b: Id)
    requires Listing(c2, target, targetCards) && InList(c2, cardId, target)
    requires m == Reindexed(c2, TargetOrder(targetCards, cardId, newPosition))
    requires InList(c2, a, target) && InList(c2, b, target) && a != cardId && b != cardId
    requires m[a].position < m[b].position
    ensures c2[a].position <= c2[b].position
  {
    var others := Without(targetCards, cardId);
    var order := TargetOrder(targetCards, cardId, newPosition);
    TargetOrderMembers(c2, cardId, target, newPosition, targetCards);
    ReindexedBefore(c2, order, a, b);
    InsertAtBefore(others, newPosition, cardId, a, b);
    WithoutBefore(targetCards, cardId, a, b);
    SortedBefore(targetCards, Positions(c2), a, b);
  }

  /** Before the target renumbering, two cards of the target list other than the moved one
      stand in their original order. */
  lemma FirstPassKeepsTargetOrder(cards: map<Id, CardRow>, cardId: Id, source: Id, target: Id,
                                  sourceOrder: seq<Id>, a: Id, b: Id)
    requires Listing(Reassigned(cards, cardId, source, target), source, sourceOrder)
    requires var c1 := Reassigned(cards, cardId, source, target);
      InList(c1, a, target) && InList(c1, b, target) && a != cardId && b != cardId
    requires var c2 := Reindexed(Reassigned(cards, cardId, source, target), sourceOrder);
      c2[a].position <= c2[b].position && a != b
    requires source == target ==> Distinct(Reindexed(Reassigned(cards, cardId, source, target), sourceOrder), target)
    ensures cards[a].position <= cards[b].position
  {
    var c1 := Reassigned(cards, cardId, source, target);
    if source != target {
      // Neither card is in the source list, so the first renumbering left them alone.
      ReindexedAt(c1, sourceOrder, a);
      ReindexedAt(c1, sourceOrder, b);
    } else {
      // Both were renumbered along `sourceOrder`, which followed the old positions.
      assert a in sourceOrder && b in sourceOrder;
      var i :| 0 <= i < |sourceOrder| && sourceOrder[i] == a;
      var j :| 0 <= j < |sourceOrder| && sourceOrder[j] == b;
      ReindexedNoDup(c1, sourceOrder, i);
      ReindexedNoDup(c1, sourceOrder, j);
      assert i < j;
      assert Positions(c1)[sourceOrder[i]] <= Positions(c1)[sourceOrder[j]];
    }
  }

  /** The target list is ranked from 0 after the move and holds the moved card at
      `newPosition` clamped as `splice` clamps it. */
  lemma TargetPlaced(cards: map<Id, CardRow>, cardId: Id, source: Id, target: Id, newPosition: int,
                     sourceOrder: seq<Id>, targetCards: seq<Id>)
    requires cardId in cards && (source != target || cards[cardId].listId == target)
    requires Selections(cards, cardId, source, target, sourceOrder, targetCards)
    ensures var m := Committed(cards, cardId, source, target, newPosition, sourceOrder, targetCards);
      && Ranked(m, target, 0)
      && m[cardId].listId == target
      && m[cardId].position == SpliceStart(|targetCards| - 1, newPosition)
  {
    var c1 := Reassigned(cards, cardId, source, target);
    var c2 := Reindexed(c1, sourceOrder);
    var order := TargetOrder(targetCards, cardId, newPosition);
    var m := Reindexed(c2, order);
    assert m == Committed(cards, cardId, source, target, newPosition, sourceOrder, targetCards);
    assert InList(c2, cardId, target);
    TargetOrderMembers(c2, cardId, target, newPosition, targetCards);
    ReindexedRanked(c2, target, order);
    var p := SpliceStart(|Without(targetCards, cardId)|, newPosition);
    assert order[p] == cardId;
    assert m[order[p]].position == p;
  }

  /** Two cards of the target list other than the moved one keep their order. */
  lemma TargetPairKept(cards: map<Id, CardRow>, cardId: Id, source: Id, target: Id, newPosition: int,
                       sourceOrder: seq<Id>, targetCards: seq<Id>, a: Id, b: Id)
    requires cardId in cards && (source != target || cards[cardId].listId == target)
    requires Selections(cards, cardId, source, target, sourceOrder, targetCards)
    requires var m := Committed(cards, cardId, source, target, newPosition, sourceOrder, targetCards);
      InList(m, a, target) && InList(m, b, target) && a != cardId && b != cardId && m[a].position < m[b].position
    ensures cards[a].position <= cards[b].position
  {
    var c1 := Reassigned(cards, cardId, source, target);
    var c2 := Reindexed(c1, sourceOrder);
    var m := Reindexed(c2, TargetOrder(targetCards, cardId, newPosition));
    assert m == Committed(cards, cardId, source, target, newPosition, sourceOrder, targetCards);
    assert InList(c2, cardId, target);
    assert InList(c2, a, target) && InList(c2, b, target);
    if source == target {
      ListingRenumbered(c1, source, sourceOrder);
    }
    TargetPairOrder(c2, m, cardId, target, newPosition, targetCards, a, b);
    FirstPassKeepsTargetOrder(cards, cardId, source, target, sourceOrder, a, b);
  }

  /** The target list (which holds the moved card, whether or not the lists differ) is
      renumbered 0, 1, ..., m - 1; the moved card occurs once and sits at `newPosition`
      clamped as `splice` clamps it (appended when `newPosition` is at least the number of
      other cards); and no two other cards swap their previous order. */
  lemma TargetRenumbered(cards: map<Id, CardRow>, cardId: Id, source: Id, target: Id, newPosition: int,
                         sourceOrder: seq<Id>, targetCards: seq<Id>)
    requires cardId in cards && (source != target || cards[cardId].listId == target)
    requires Selections(cards, cardId, source, target, sourceOrder, targetCards)
    ensures var m := Committed(cards, cardId, source, target, newPosition, sourceOrder, targetCards);
      && Ranked(m, target, 0)
      && m[cardId].listId == target
      && m[cardId].position == SpliceStart(|targetCards| - 1, newPosition)
      && (forall a, b | InList(m, a, target) && InList(m, b, target) && a != cardId && b != cardId
                        && m[a].position < m[b].position :: cards[a].position <= cards[b].position)
  {
    TargetPlaced(cards, cardId, source, target, newPosition, sourceOrder, targetCards);
    var m := Committed(cards, cardId, source, target, newPosition, sourceOrder, targetCards);
    forall a, b | InList(m, a, target) && InList(m, b, target) && a != cardId && b != cardId
                  && m[a].position < m[b].position
      ensures cards[a].position <= cards[b].position
    {
      TargetPairKept(cards, cardId, source, target, newPosition, sourceOrder, targetCards, a, b);
    }
  }
}
