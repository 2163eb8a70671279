/** The shift-based card move of the Qwik City app (kanban-qwikcity/src/db/actions.ts).
    A move looks the card up, then issues ranged `position ± 1` UPDATE statements that
    close the gap in the old list and open a slot in the new one (or shift the sub-range
    between the old and the new position within one list), and finally writes the card
    itself. The statements run one after another without a transaction.

    `Moved` and `Repositioned` state the resulting cards table; the lemmas below say what
    that means for each card, and `MoveAcrossKeepsRanked`/`MoveWithinKeepsRanked` prove
    that a list whose positions were distinct and gap-free stays so. */
module ShiftMove {
  import opened Base
  import opened Store

  /** The rows that `WHERE list_id = l AND position >= lo [AND position < hi]` selects. */
  predicate InRange(c: CardRow, l: Id, lo: int, hi: Option<int>) {
    c.listId == l && lo <= c.position && (hi.None? || c.position < hi.value)
  }

  /** `UPDATE cards SET position = position + delta WHERE list_id = l AND position >= lo
      [AND position < hi]`: the selected rows move by `delta`, every other row is kept. */
  function Shifted(cards: map<Id, CardRow>, l: Id, lo: int, hi: Option<int>, delta: int): (r: map<Id, CardRow>)
    ensures r.Keys == cards.Keys
    ensures forall id | id in cards && InRange(cards[id], l, lo, hi) ::
      r[id] == cards[id].(position := cards[id].position + delta)
    ensures forall id | id in cards && !InRange(cards[id], l, lo, hi) :: r[id] == cards[id]
  {
    map id | id in cards ::
      if InRange(cards[id], l, lo, hi) then cards[id].(position := cards[id].position + delta) else cards[id]
  }

  /** The message of the error thrown for an unknown card. */
  function NotFound(cardId: Id): string {
    "Card " + cardId + " not found"
  }

  /** The cards table after `updateCardListAndPosition(cardId, newListId, newPosition)`. */
  function Moved(cards: map<Id, CardRow>, cardId: Id, newListId: Id, newPosition: int): map<Id, CardRow>
    requires cardId in cards
  {
    var c := cards[cardId];
    if c.listId != newListId then
      var closed := Shifted(cards, c.listId, c.position + 1, None, -1);
      var widened := Shifted(closed, newListId, newPosition, None, 1);
      widened[cardId := widened[cardId].(listId := newListId, position := newPosition)]
    else
      var shifted :=
        if newPosition < c.position then Shifted(cards, c.listId, newPosition, Some(c.position), 1)
        else if newPosition > c.position then Shifted(cards, c.listId, c.position + 1, Some(newPosition + 1), -1)
        else cards;
      shifted[cardId := shifted[cardId].(position := newPosition)]
  }

  /** The cards table after `updateCardPosition(cardId, newPosition)`. */
  function Repositioned(cards: map<Id, CardRow>, cardId: Id, newPosition: int): map<Id, CardRow>
    requires cardId in cards
  {
    var c := cards[cardId];
    if newPosition == c.position then cards
    else
      var shifted :=
        if newPosition < c.position then Shifted(cards, c.listId, newPosition, Some(c.position), 1)
        else Shifted(cards, c.listId, c.position + 1, Some(newPosition + 1), -1);
      shifted[cardId := shifted[cardId].(position := newPosition)]
  }

  /** One ranged UPDATE statement. */
  method ShiftPositions(db: Db, l: Id, lo: int, hi: Option<int>, delta: int)
    modifies db`cards
    ensures db.cards == Shifted(old(db.cards), l, lo, hi, delta)
  {
    db.cards := Shifted(db.cards, l, lo, hi, delta);
  }

  /** The statements of a move to another list: close the gap, open the slot, write the card. */
  method MoveAcross(db: Db, cardId: Id, newListId: Id, newPosition: int)
    requires cardId in db.cards && db.cards[cardId].listId != newListId
    modifies db`cards
    ensures db.cards == Moved(old(db.cards), cardId, newListId, newPosition)
  {
    var card := db.cards[cardId];
    var oldListId, oldPosition := card.listId, card.position;
    ShiftPositions(db, oldListId, oldPosition + 1, None, -1);
    ShiftPositions(db, newListId, newPosition, None, 1);
    db.cards := db.cards[cardId := db.cards[cardId].(listId := newListId, position := newPosition)];
  }

  /** The statements of a move within the card's list: shift the sub-range, write the card. */
  method MoveWithin(db: Db, cardId: Id, newPosition: int)
    requires cardId in db.cards
    modifies db`cards
    ensures db.cards == Moved(old(db.cards), cardId, old(db.cards)[cardId].listId, newPosition)
  {
    var card := db.cards[cardId];
    var oldListId, oldPosition := card.listId, card.position;
    if newPosition < oldPosition {
      ShiftPositions(db, oldListId, newPosition, Some(oldPosition), 1);
    } else if newPosition > oldPosition {
      // `position <= newPosition` on integers is `position < newPosition + 1`
      ShiftPositions(db, oldListId, oldPosition + 1, Some(newPosition + 1), -1);
    }
    db.UpdatePosition(cardId, newPosition);
  }

  /** `updateCardListAndPosition`: an unknown card raises before any write; otherwise the
      cards table becomes `Moved(...)` and no other table is touched. */
  method UpdateCardListAndPosition(db: Db, cardId: Id, newListId: Id, newPosition: int)
    returns (r: Result<(), string>)
    modifies db`cards
    ensures cardId !in old(db.cards) ==> r == Err(NotFound(cardId)) && db.cards == old(db.cards)
    ensures cardId in old(db.cards) ==>
      r == Ok(()) && db.cards == Moved(old(db.cards), cardId, newListId, newPosition)
  {
    if cardId !in db.cards {
      return Err(NotFound(cardId));
    }
    if db.cards[cardId].listId != newListId {
      MoveAcross(db, cardId, newListId, newPosition);
    } else {
      MoveWithin(db, cardId, newPosition);
    }
    r := Ok(());
  }

  /** `updateCardPosition`: the same-list branch of the move, returning early without any
      write when the position does not change. */
  method UpdateCardPosition(db: Db, cardId: Id, newPosition: int) returns (r: Result<(), string>)
    modifies db`cards
    ensures cardId !in old(db.cards) ==> r == Err(NotFound(cardId)) && db.cards == old(db.cards)
    ensures cardId in old(db.cards) ==>
      r == Ok(()) && db.cards == Repositioned(old(db.cards), cardId, newPosition)
  {
    if cardId !in db.cards {
      return Err(NotFound(cardId));
    }
    var card := db.cards[cardId];
    var listId, oldPosition := card.listId, card.position;
    if newPosition == oldPosition {
      return Ok(());
    }
    if newPosition < oldPosition {
      ShiftPositions(db, listId, newPosition, Some(oldPosition), 1);
    } else {
      ShiftPositions(db, listId, oldPosition + 1, Some(newPosition + 1), -1);
    }
    db.UpdatePosition(cardId, newPosition);
    r := Ok(());
  }

  // ---------------------------------------------------------------------------
  // What a move does to each card

  /** After any move the card is in `newListId` at `newPosition`, and nothing else about
      it (title, description, assignee, completed) has changed. */
  lemma MovedPlacesCard(cards: map<Id, CardRow>, cardId: Id, newListId: Id, newPosition: int)
    requires cardId in cards
    ensures var m := Moved(cards, cardId, newListId, newPosition);
      && m.Keys == cards.Keys
      && m[cardId] == cards[cardId].(listId := newListId, position := newPosition)
  {
  }

  /** Cross-list move, old list: every other card at or after `oldPosition + 1` moves up
      by one; the other cards of the old list keep their positions. */
  lemma MovedClosesGap(cards: map<Id, CardRow>, cardId: Id, newListId: Id, newPosition: int, id: Id)
    requires cardId in cards && cards[cardId].listId != newListId
    requires id in cards && id != cardId && cards[id].listId == cards[cardId].listId
    ensures var m := Moved(cards, cardId, newListId, newPosition);
      m[id] == if cards[id].position >= cards[cardId].position + 1
               then cards[id].(position := cards[id].position - 1) else cards[id]
  {
  }

  /** Cross-list move, new list: every card at or after `newPosition` moves down by one;
      the cards before it keep their positions. */
  lemma MovedOpensSlot(cards: map<Id, CardRow>, cardId: Id, newListId: Id, newPosition: int, id: Id)
    requires cardId in cards && cards[cardId].listId != newListId
    requires id in cards && cards[id].listId == newListId
    ensures var m := Moved(cards, cardId, newListId, newPosition);
      m[id] == if cards[id].position >= newPosition
               then cards[id].(position := cards[id].position + 1) else cards[id]
  {
  }

  /** Same-list move upward (`newPosition < oldPosition`): exactly the other cards with
      `newPosition <= position < oldPosition` move down by one. */
  lemma MovedUp(cards: map<Id, CardRow>, cardId: Id, newPosition: int, id: Id)
    requires cardId in cards && newPosition < cards[cardId].position
    requires id in cards && id != cardId && cards[id].listId == cards[cardId].listId
    ensures var m := Moved(cards, cardId, cards[cardId].listId, newPosition);
      m[id] == if newPosition <= cards[id].position < cards[cardId].position
               then cards[id].(position := cards[id].position + 1) else cards[id]
  {
  }

  /** Same-list move downward (`newPosition > oldPosition`): exactly the other cards with
      `oldPosition < position <= newPosition` move up by one. */
  lemma MovedDown(cards: map<Id, CardRow>, cardId: Id, newPosition: int, id: Id)
    requires cardId in cards && newPosition > cards[cardId].position
    requires id in cards && id != cardId && cards[id].listId == cards[cardId].listId
    ensures var m := Moved(cards, cardId, cards[cardId].listId, newPosition);
      m[id] == if cards[cardId].position < cards[id].position <= newPosition
               then cards[id].(position := cards[id].position - 1) else cards[id]
  {
  }

  /** Cards of lists other than the old and the new list are untouched, no card changes
      list except the moved one, and `completed` is never written. */
  lemma MovedFrame(cards: map<Id, CardRow>, cardId: Id, newListId: Id, newPosition: int, id: Id)
    requires cardId in cards && id in cards
    ensures var m := Moved(cards, cardId, newListId, newPosition);
      && m[id].completed == cards[id].completed
      && (id != cardId ==> m[id] == cards[id].(position := m[id].position))
      && (cards[id].listId != cards[cardId].listId && cards[id].listId != newListId ==> m[id] == cards[id])
  {
  }

  /** `updateCardPosition` with the current position changes nothing. */
  lemma RepositionedUnchanged(cards: map<Id, CardRow>, cardId: Id)
    requires cardId in cards
    ensures Repositioned(cards, cardId, cards[cardId].position) == cards
  {
  }

  /** `updateCardPosition` is the same-list case of `updateCardListAndPosition`. */
  lemma RepositionedIsSameListMove(cards: map<Id, CardRow>, cardId: Id, newPosition: int)
    requires cardId in cards
    ensures Repositioned(cards, cardId, newPosition) == Moved(cards, cardId, cards[cardId].listId, newPosition)
  {
    if newPosition == cards[cardId].position {
      assert cards[cardId := cards[cardId].(position := newPosition)] == cards;
    }
  }

  // ---------------------------------------------------------------------------
  // A move keeps every list ranked (`Store.Ranked`)

  /** Where a cross-list move leaves the card `id`: the moved card goes to the slot, the
      cards after it in the old list move up, those from the slot on in the new list move down. */
  ghost predicate AcrossEffect(cards: map<Id, CardRow>, m: map<Id, CardRow>, cardId: Id, l2: Id, np: int)
    requires cardId in cards
  {
    var l1, op := cards[cardId].listId, cards[cardId].position;
    && m.Keys == cards.Keys
    && forall id | id in cards ::
      && m[id].listId == (if id == cardId then l2 else cards[id].listId)
      && m[id].position ==
        if id == cardId then np
        else if cards[id].listId == l1 && cards[id].position >= op + 1 then cards[id].position - 1
        else if cards[id].listId == l2 && cards[id].position >= np then cards[id].position + 1
        else cards[id].position
  }

  /** Where a same-list move leaves the card `id`. */
  ghost predicate WithinEffect(cards: map<Id, CardRow>, m: map<Id, CardRow>, cardId: Id, np: int)
    requires cardId in cards
  {
    var l, op := cards[cardId].listId, cards[cardId].position;
    && m.Keys == cards.Keys
    && forall id | id in cards ::
      && m[id].listId == cards[id].listId
      && m[id].position ==
        if id == cardId then np
        else if cards[id].listId == l && np <= cards[id].position < op then cards[id].position + 1
        else if cards[id].listId == l && op < cards[id].position <= np then cards[id].position - 1
        else cards[id].position
  }

  lemma MovedAcrossEffect(cards: map<Id, CardRow>, cardId: Id, l2: Id, np: int)
    requires cardId in cards && cards[cardId].listId != l2
    ensures AcrossEffect(cards, Moved(cards, cardId, l2, np), cardId, l2, np)
  {
  }

  lemma MovedWithinEffect(cards: map<Id, CardRow>, cardId: Id, np: int)
    requires cardId in cards
    ensures WithinEffect(cards, Moved(cards, cardId, cards[cardId].listId, np), cardId, np)
  {
  }

  /** The dense half of `AcrossSourceRanked`, for the one card `a`. */
  lemma AcrossSourceDenseAt(cards: map<Id, CardRow>, m: map<Id, CardRow>, cardId: Id, l2: Id, np: int, base: int, a: Id)
    requires cardId in cards && cards[cardId].listId != l2
    requires AcrossEffect(cards, m, cardId, l2, np)
    requires Ranked(cards, cards[cardId].listId, base)
    requires InList(m, a, cards[cardId].listId)
    ensures base <= m[a].position
    ensures m[a].position > base ==> Occupied(m, cards[cardId].listId, m[a].position - 1)
  {
    var l1, op := cards[cardId].listId, cards[cardId].position;
    var pa := cards[a].position;
    assert a != cardId && InList(cards, a, l1);
    assert pa != op;
    if m[a].position > base {
      var b;
      if pa < op || pa - 1 > op {
        b := Predecessor(cards, l1, base, a);
      } else {
        b := Predecessor(cards, l1, base, cardId);
      }
      assert InList(m, b, l1) && m[b].position == m[a].position - 1;
    }
  }

  lemma AcrossSourceRanked(cards: map<Id, CardRow>, m: map<Id, CardRow>, cardId: Id, l2: Id, np: int, base: int)
    requires cardId in cards && cards[cardId].listId != l2
    requires AcrossEffect(cards, m, cardId, l2, np)
    requires Ranked(cards, cards[cardId].listId, base)
    ensures Ranked(m, cards[cardId].listId, base)
  {
    var l1 := cards[cardId].listId;
    forall a | InList(m, a, l1)
      ensures base <= m[a].position && (m[a].position > base ==> Occupied(m, l1, m[a].position - 1))
    {
      AcrossSourceDenseAt(cards, m, cardId, l2, np, base, a);
    }
    forall a, b | InList(m, a, l1) && InList(m, b, l1) && a != b
      ensures m[a].position != m[b].position
    {
      assert InList(cards, a, l1) && InList(cards, b, l1) && a != cardId && b != cardId;
    }
  }

  /** The dense half of `AcrossTargetRanked` for the moved card. */
  lemma AcrossTargetDenseMoved(cards: map<Id, CardRow>, m: map<Id, CardRow>, cardId: Id, l2: Id, np: int, base: int)
    requires cardId in cards && cards[cardId].listId != l2
    requires AcrossEffect(cards, m, cardId, l2, np)
    requires base <= np && (np > base ==> Occupied(cards, l2, np - 1))
    ensures base <= m[cardId].position
    ensures m[cardId].position > base ==> Occupied(m, l2, m[cardId].position - 1)
  {
    if np > base {
      var b :| InList(cards, b, l2) && cards[b].position == np - 1;
      assert InList(m, b, l2) && m[b].position == np - 1;
    }
  }

  /** The dense half of `AcrossTargetRanked` for a card already in the new list. */
  lemma AcrossTargetDenseOther(cards: map<Id, CardRow>, m: map<Id, CardRow>, cardId: Id, l2: Id, np: int, base: int, a: Id)
    requires cardId in cards && cards[cardId].listId != l2
    requires AcrossEffect(cards, m, cardId, l2, np)
    requires Dense(cards, l2, base) && base <= np
    requires InList(m, a, l2) && a != cardId
    ensures base <= m[a].position && (m[a].position > base ==> Occupied(m, l2, m[a].position - 1))
  {
    var pa := cards[a].position;
    assert InList(cards, a, l2);
    if m[a].position > base {
      if pa == np {
        assert InList(m, cardId, l2) && m[cardId].position == m[a].position - 1;
      } else {
        var b := Predecessor(cards, l2, base, a);
        assert InList(m, b, l2) && m[b].position == m[a].position - 1;
      }
    }
  }

  lemma AcrossTargetRanked(cards: map<Id, CardRow>, m: map<Id, CardRow>, cardId: Id, l2: Id, np: int, base: int)
    requires cardId in cards && cards[cardId].listId != l2
    requires AcrossEffect(cards, m, cardId, l2, np)
    requires Ranked(cards, l2, base)
    requires base <= np && (np > base ==> Occupied(cards, l2, np - 1))
    ensures Ranked(m, l2, base)
  {
    forall a | InList(m, a, l2)
      ensures base <= m[a].position && (m[a].position > base ==> Occupied(m, l2, m[a].position - 1))
    {
      if a == cardId {
        AcrossTargetDenseMoved(cards, m, cardId, l2, np, base);
      } else {
        AcrossTargetDenseOther(cards, m, cardId, l2, np, base, a);
      }
    }
    AcrossTargetDistinct(cards, m, cardId, l2, np);
  }

  /** The distinct half of `AcrossTargetRanked`. */
  lemma AcrossTargetDistinct(cards: map<Id, CardRow>, m: map<Id, CardRow>, cardId: Id, l2: Id, np: int)
    requires cardId in cards && cards[cardId].listId != l2
    requires AcrossEffect(cards, m, cardId, l2, np)
    requires Distinct(cards, l2)
    ensures Distinct(m, l2)
  {
    forall a, b | InList(m, a, l2) && InList(m, b, l2) && a != b
      ensures m[a].position != m[b].position
    {
      if a != cardId && b != cardId {
        assert InList(cards, a, l2) && InList(cards, b, l2);
      }
    }
  }

  /** The dense half of `WithinUpRanked` for the moved card. */
  lemma WithinUpDenseMoved(cards: map<Id, CardRow>, m: map<Id, CardRow>, cardId: Id, np: int, base: int)
    requires cardId in cards && np < cards[cardId].position
    requires WithinEffect(cards, m, cardId, np)
    requires Ranked(cards, cards[cardId].listId, base)
    requires Occupied(cards, cards[cardId].listId, np)
    ensures base <= m[cardId].position
    ensures m[cardId].position > base ==> Occupied(m, cards[cardId].listId, m[cardId].position - 1)
  {
    var l := cards[cardId].listId;
    var d :| InList(cards, d, l) && cards[d].position == np;
    assert base <= np;
    if np > base {
      var b := Predecessor(cards, l, base, d);
      assert InList(m, b, l) && m[b].position == np - 1;
    }
  }

  /** The dense half of `WithinUpRanked` for a card other than the moved one. */
  lemma WithinUpDenseOther(cards: map<Id, CardRow>, m: map<Id, CardRow>, cardId: Id, np: int, base: int, a: Id)
    requires cardId in cards && np < cards[cardId].position
    requires WithinEffect(cards, m, cardId, np)
    requires Ranked(cards, cards[cardId].listId, base)
    requires Occupied(cards, cards[cardId].listId, np)
    requires InList(m, a, cards[cardId].listId) && a != cardId
    ensures base <= m[a].position
    ensures m[a].position > base ==> Occupied(m, cards[cardId].listId, m[a].position - 1)
  {
    var l, op := cards[cardId].listId, cards[cardId].position;
    var pa := cards[a].position;
    assert InList(cards, a, l);
    var d :| InList(cards, d, l) && cards[d].position == np;
    assert base <= np;
    assert pa != op;
    if m[a].position > base {
      if pa == np {
        assert InList(m, cardId, l) && m[cardId].position == m[a].position - 1;
      } else if pa - 1 == op {
        var c := Predecessor(cards, l, base, cardId);
        assert InList(m, c, l) && m[c].position == m[a].position - 1;
      } else {
        var b := Predecessor(cards, l, base, a);
        assert InList(m, b, l) && m[b].position == m[a].position - 1;
      }
    }
  }

  /** The distinct half of a same-list move, either direction. */
  lemma WithinDistinct(cards: map<Id, CardRow>, m: map<Id, CardRow>, cardId: Id, np: int)
    requires cardId in cards
    requires WithinEffect(cards, m, cardId, np)
    requires Distinct(cards, cards[cardId].listId)
    ensures Distinct(m, cards[cardId].listId)
  {
    var l := cards[cardId].listId;
    forall a, b | InList(m, a, l) && InList(m, b, l) && a != b
      ensures m[a].position != m[b].position
    {
      assert InList(cards, a, l) && InList(cards, b, l);
    }
  }

  lemma WithinUpRanked(cards: map<Id, CardRow>, m: map<Id, CardRow>, cardId: Id, np: int, base: int)
    requires cardId in cards && np < cards[cardId].position
    requires WithinEffect(cards, m, cardId, np)
    requires Ranked(cards, cards[cardId].listId, base)
    requires Occupied(cards, cards[cardId].listId, np)
    ensures Ranked(m, cards[cardId].listId, base)
  {
    var l := cards[cardId].listId;
    forall a | InList(m, a, l)
      ensures base <= m[a].position && (m[a].position > base ==> Occupied(m, l, m[a].position - 1))
    {
      if a == cardId {
        WithinUpDenseMoved(cards, m, cardId, np, base);
      } else {
        WithinUpDenseOther(cards, m, cardId, np, base, a);
      }
    }
    WithinDistinct(cards, m, cardId, np);
  }

  /** The dense half of `WithinDownRanked` for the moved card. */
  lemma WithinDownDenseMoved(cards: map<Id, CardRow>, m: map<Id, CardRow>, cardId: Id, np: int, base: int)
    requires cardId in cards && np > cards[cardId].position
    requires WithinEffect(cards, m, cardId, np)
    requires Ranked(cards, cards[cardId].listId, base)
    requires Occupied(cards, cards[cardId].listId, np)
    ensures base <= m[cardId].position
    ensures m[cardId].position > base ==> Occupied(m, cards[cardId].listId, m[cardId].position - 1)
  {
    var l := cards[cardId].listId;
    assert InList(cards, cardId, l);
    var d :| InList(cards, d, l) && cards[d].position == np;
    assert InList(m, d, l) && m[d].position == np - 1;
  }

  /** The dense half of `WithinDownRanked` for a card the move shifts up. */
  lemma WithinDownDenseShifted(cards: map<Id, CardRow>, m: map<Id, CardRow>, cardId: Id, np: int, base: int, a: Id)
    requires cardId in cards && np > cards[cardId].position
    requires WithinEffect(cards, m, cardId, np)
    requires Ranked(cards, cards[cardId].listId, base)
    requires InList(m, a, cards[cardId].listId)
    requires a != cardId && cards[cardId].position < cards[a].position <= np
    ensures base <= m[a].position
    ensures m[a].position > base ==> Occupied(m, cards[cardId].listId, m[a].position - 1)
  {
    var l, op := cards[cardId].listId, cards[cardId].position;
    var pa := cards[a].position;
    assert InList(cards, a, l) && InList(cards, cardId, l);
    assert base <= op;
    if pa - 1 > base {
      if pa - 1 == op {
        var c := Predecessor(cards, l, base, cardId);
        assert InList(m, c, l) && m[c].position == m[a].position - 1;
      } else {
        var b := Predecessor(cards, l, base, a);
        assert InList(m, b, l) && m[b].position == m[a].position - 1;
      }
    }
  }

  /** The dense half of `WithinDownRanked` for a card the move leaves in place. */
  lemma WithinDownDenseKept(cards: map<Id, CardRow>, m: map<Id, CardRow>, cardId: Id, np: int, base: int, a: Id)
    requires cardId in cards && np > cards[cardId].position
    requires WithinEffect(cards, m, cardId, np)
    requires Ranked(cards, cards[cardId].listId, base)
    requires InList(m, a, cards[cardId].listId)
    requires a != cardId && !(cards[cardId].position < cards[a].position <= np)
    ensures base <= m[a].position
    ensures m[a].position > base ==> Occupied(m, cards[cardId].listId, m[a].position - 1)
  {
    var l, op := cards[cardId].listId, cards[cardId].position;
    var pa := cards[a].position;
    assert InList(cards, a, l) && InList(cards, cardId, l);
    assert pa != op;
    assert m[a].position == pa;
    if pa > base {
      if pa - 1 == np {
        assert InList(m, cardId, l) && m[cardId].position == m[a].position - 1;
      } else {
        var b := Predecessor(cards, l, base, a);
        assert InList(m, b, l) && m[b].position == m[a].position - 1;
      }
    }
  }

  lemma WithinDownRanked(cards: map<Id, CardRow>, m: map<Id, CardRow>, cardId: Id, np: int, base: int)
    requires cardId in cards && np > cards[cardId].position
    requires WithinEffect(cards, m, cardId, np)
    requires Ranked(cards, cards[cardId].listId, base)
    requires Occupied(cards, cards[cardId].listId, np)
    ensures Ranked(m, cards[cardId].listId, base)
  {
    var l := cards[cardId].listId;
    forall a | InList(m, a, l)
      ensures base <= m[a].position && (m[a].position > base ==> Occupied(m, l, m[a].position - 1))
    {
      if a == cardId {
        WithinDownDenseMoved(cards, m, cardId, np, base);
      } else if cards[cardId].position < cards[a].position <= np {
        WithinDownDenseShifted(cards, m, cardId, np, base, a);
      } else {
        WithinDownDenseKept(cards, m, cardId, np, base, a);
      }
    }
    WithinDistinct(cards, m, cardId, np);
  }

  /** A cross-list move into a slot at most one past the end of the new list keeps both
      lists ranked. */
  lemma MoveAcrossKeepsRanked(cards: map<Id, CardRow>, cardId: Id, newListId: Id, newPosition: int, base: int)
    requires cardId in cards && cards[cardId].listId != newListId
    requires Ranked(cards, cards[cardId].listId, base) && Ranked(cards, newListId, base)
    requires base <= newPosition && (newPosition > base ==> Occupied(cards, newListId, newPosition - 1))
    ensures Ranked(Moved(cards, cardId, newListId, newPosition), cards[cardId].listId, base)
    ensures Ranked(Moved(cards, cardId, newListId, newPosition), newListId, base)
  {
    var m := Moved(cards, cardId, newListId, newPosition);
    MovedAcrossEffect(cards, cardId, newListId, newPosition);
    AcrossSourceRanked(cards, m, cardId, newListId, newPosition, base);
    AcrossTargetRanked(cards, m, cardId, newListId, newPosition, base);
  }

  /** A same-list move to a position some card of the list holds keeps the list ranked. */
  lemma MoveWithinKeepsRanked(cards: map<Id, CardRow>, cardId: Id, newPosition: int, base: int)
    requires cardId in cards
    requires Ranked(cards, cards[cardId].listId, base)
    requires Occupied(cards, cards[cardId].listId, newPosition)
    ensures Ranked(Moved(cards, cardId, cards[cardId].listId, newPosition), cards[cardId].listId, base)
  {
    var m := Moved(cards, cardId, cards[cardId].listId, newPosition);
    MovedWithinEffect(cards, cardId, newPosition);
    if newPosition < cards[cardId].position {
      WithinUpRanked(cards, m, cardId, newPosition, base);
    } else if newPosition > cards[cardId].position {
      WithinDownRanked(cards, m, cardId, newPosition, base);
    } else {
      assert m == cards;
    }
  }
}
