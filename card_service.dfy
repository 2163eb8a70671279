/** The card service of the datastar app (kanban-datastar/pkg/services/card_service.go).
    Each operation issues its statements one after another without a transaction, so a
    failing statement leaves the writes before it in place. `failing` names the statements
    that fail; `refusedTags` the tag ids whose association insert fails, which the service
    ignores. */
module CardService {
  import opened Base
  import opened Store
  import opened Sqlc

  /** No list before index `i` is titled `"Todo"`. */
  predicate NoTodoBefore(lists: seq<GetListsByBoardIdRow>, i: nat)
    requires i <= |lists|
  {
    forall k | 0 <= k < i :: lists[k].title != "Todo"
  }

  /** The id the Todo search loop settles on: that of the first list titled `"Todo"` (the loop
      breaks there), or `""` when no list has that title. */
  function FirstTodoId(lists: seq<GetListsByBoardIdRow>): (id: Id)
    ensures NoTodoBefore(lists, |lists|) ==> id == ""
    ensures forall i | 0 <= i < |lists| && lists[i].title == "Todo" && NoTodoBefore(lists, i) :: id == lists[i].id
  {
    if lists == [] then ""
    else if lists[0].title == "Todo" then lists[0].id
    else
      var rest := lists[1..];
      assert forall i | 1 <= i <= |lists| :: NoTodoBefore(lists, i) ==> NoTodoBefore(rest, i - 1);
      FirstTodoId(rest)
  }

  /** `for _, tagID := range tagIDs { _ = CreateCardTag(...) }`: a pair already present (the
      composite primary key) or a refused tag id makes that insert fail, and the failure is
      dropped. */
  method InsertCardTags(db: Db, cardId: Id, tagIds: seq<Id>, refusedTags: set<Id>)
    modifies db`cardTags
    ensures db.cardTags == old(db.cardTags) + TagPairs(cardId, tagIds, refusedTags)
  {
    for i := 0 to |tagIds|
      invariant db.cardTags == old(db.cardTags) + TagPairs(cardId, tagIds[..i], refusedTags)
    {
      var tagId := tagIds[i];
      if tagId !in refusedTags && (cardId, tagId) !in db.cardTags {
        db.cardTags := db.cardTags + {(cardId, tagId)};
      }
      assert tagIds[..i + 1] == tagIds[..i] + [tagId];
    }
    assert tagIds[..|tagIds|] == tagIds;
  }

  /** The Todo list `CreateCard` settles on, `""` when it finds none. */
  function TodoOf(q: Queries, boardId: Id): Id {
    var lists := q.getListsByBoardId(boardId);
    if lists.Ok? then FirstTodoId(lists.value) else ""
  }

  /** The search loop of `CreateCard`: the id of the first list titled `"Todo"`. */
  method FindTodoList(lists: seq<GetListsByBoardIdRow>) returns (todoListId: Id)
    ensures todoListId == FirstTodoId(lists)
  {
    todoListId := "";
    var i := 0;
    while i < |lists|
      invariant i <= |lists|
      invariant todoListId == "" && NoTodoBefore(lists, i)
    {
      if lists[i].title == "Todo" {
        todoListId := lists[i].id;
        return;
      }
      i := i + 1;
    }
  }

  /** `CreateCard`: look up the board's lists, take the first Todo list, ask for its largest
      position, insert the card one past it, then try each tag association. */
  method CreateCard(db: Db, q: Queries, boardId: Id, title: string, description: string, assigneeId: string,
                    tagIds: seq<Id>, cardId: Id, now: int, failing: set<Stmt>, refusedTags: set<Id>)
    returns (r: Result<Id, DbError>)
    modifies db`cards, db`cardTags
    ensures r.Err? ==> db.cards == old(db.cards) && db.cardTags == old(db.cardTags)
    ensures q.getListsByBoardId(boardId).Err? ==> r == Err(q.getListsByBoardId(boardId).error)
    ensures q.getListsByBoardId(boardId).Ok? && TodoOf(q, boardId) == "" ==> r == Err(ErrNoRows)
    ensures var todo := TodoOf(q, boardId);
      todo != "" && q.getMaxPositionInList(todo).Err? ==> r == Err(q.getMaxPositionInList(todo).error)
    ensures var todo := TodoOf(q, boardId);
      todo != "" && q.getMaxPositionInList(todo).Ok? && (Stmt.CreateCard in failing || cardId in old(db.cards)) ==>
        r == Err(Failed(Stmt.CreateCard))
    ensures var todo := TodoOf(q, boardId);
      r.Ok? <==> todo != "" && q.getMaxPositionInList(todo).Ok? && Stmt.CreateCard !in failing && cardId !in old(db.cards)
    ensures var todo := TodoOf(q, boardId);
      r.Ok? ==>
        && r.value == cardId
        && db.cards == old(db.cards)[cardId := CardRow(todo, title, NullIfEmpty(description), NullIfEmpty(assigneeId),
                                                       q.getMaxPositionInList(todo).value + 1, false, now)]
        && db.cardTags == old(db.cardTags) + TagPairs(cardId, tagIds, refusedTags)
  {
    var listsResult := q.getListsByBoardId(boardId);
    if listsResult.Err? {
      return Err(listsResult.error);
    }
    var lists := listsResult.value;

    var todoListId := FindTodoList(lists);
    if todoListId == "" {
      return Err(ErrNoRows);
    }

    var maxPos := q.getMaxPositionInList(todoListId);
    if maxPos.Err? {
      return Err(maxPos.error);
    }
    var nextPosition := maxPos.value + 1;

    if Stmt.CreateCard in failing || cardId in db.cards {
      return Err(Failed(Stmt.CreateCard));
    }
    db.cards := db.cards[cardId := CardRow(todoListId, title, NullIfEmpty(description), NullIfEmpty(assigneeId),
                                           nextPosition, false, now)];
    InsertCardTags(db, cardId, tagIds, refusedTags);
    r := Ok(cardId);
  }

  /** When `GetMaxPositionInList` answers the largest position of a non-empty ranked Todo
      list, the card `CreateCard` inserts comes after every card of that list and the list
      stays ranked. */
  lemma CreatedCardLast(cards: map<Id, CardRow>, todo: Id, base: int, maxPos: int, cardId: Id,
                        title: string, description: string, assigneeId: string, now: int)
    requires Ranked(cards, todo, base) && cardId !in cards
    requires Occupied(cards, todo, maxPos) && forall a | InList(cards, a, todo) :: cards[a].position <= maxPos
    ensures var m := cards[cardId := CardRow(todo, title, NullIfEmpty(description), NullIfEmpty(assigneeId),
                                             maxPos + 1, false, now)];
      && Ranked(m, todo, base)
      && forall a | InList(cards, a, todo) :: m[a].position < m[cardId].position
  {
    AppendedRanked(cards, todo, base, cardId,
                   CardRow(todo, title, NullIfEmpty(description), NullIfEmpty(assigneeId), maxPos + 1, false, now));
  }

  /** `UpdateCard`: update the card's fields, delete all its associations, then try each
      given tag. A failing update or delete returns its error and keeps what ran. */
  method UpdateCard(db: Db, cardId: Id, title: string, description: string, assigneeId: string,
                    tagIds: seq<Id>, failing: set<Stmt>, refusedTags: set<Id>)
    returns (r: Result<(), DbError>)
    modifies db`cards, db`cardTags
    ensures Stmt.UpdateCard in failing ==>
      r == Err(Failed(Stmt.UpdateCard)) && db.cards == old(db.cards) && db.cardTags == old(db.cardTags)
    ensures Stmt.UpdateCard !in failing ==>
      db.cards == Edited(old(db.cards), cardId, title, NullIfEmpty(description), NullIfEmpty(assigneeId))
    ensures Stmt.UpdateCard !in failing && DeleteCardTags in failing ==>
      r == Err(Failed(DeleteCardTags)) && db.cardTags == old(db.cardTags)
    ensures Stmt.UpdateCard !in failing && DeleteCardTags !in failing ==>
      r == Ok(()) && db.cardTags == Untagged(old(db.cardTags), cardId) + TagPairs(cardId, tagIds, refusedTags)
  {
    if Stmt.UpdateCard in failing {
      return Err(Failed(Stmt.UpdateCard));
    }
    db.cards := Edited(db.cards, cardId, title, NullIfEmpty(description), NullIfEmpty(assigneeId));
    if DeleteCardTags in failing {
      return Err(Failed(DeleteCardTags));
    }
    db.cardTags := Untagged(db.cardTags, cardId);
    InsertCardTags(db, cardId, tagIds, refusedTags);
    r := Ok(());
  }

  /** `UpdateCardList`: look the target list up, set `completed` from whether its title is
      `"Done"` (a failure of that statement is ignored), then set the card's list. */
  method UpdateCardList(db: Db, q: Queries, cardId: Id, newListId: Id, failing: set<Stmt>)
    returns (r: Result<(), DbError>)
    modifies db`cards
    ensures q.getListByListId(newListId).Err? ==>
      r == Err(q.getListByListId(newListId).error) && db.cards == old(db.cards)
    ensures q.getListByListId(newListId).Ok? ==>
      var flagged := if UpdateCardCompleted in failing then old(db.cards)
                     else SetCompleted(old(db.cards), cardId, q.getListByListId(newListId).value.title == "Done");
      && (Stmt.UpdateCardList in failing ==> r == Err(Failed(Stmt.UpdateCardList)) && db.cards == flagged)
      && (Stmt.UpdateCardList !in failing ==> r == Ok(()) && db.cards == SetList(flagged, cardId, newListId))
  {
    var list := q.getListByListId(newListId);
    if list.Err? {
      return Err(list.error);
    }
    if UpdateCardCompleted !in failing {
      if list.value.title == "Done" {
        db.UpdateCompleted(cardId, true);
      } else {
        db.UpdateCompleted(cardId, false);
      }
    }
    if Stmt.UpdateCardList in failing {
      return Err(Failed(Stmt.UpdateCardList));
    }
    db.UpdateList(cardId, newListId);
    r := Ok(());
  }

  /** A card moved by a complete `UpdateCardList` is in the new list, is completed exactly when
      that list is titled `"Done"`, and keeps its position and every other column. */
  lemma MovedCardFlag(cards: map<Id, CardRow>, cardId: Id, newListId: Id, title: string)
    requires cardId in cards
    ensures var m := SetList(SetCompleted(cards, cardId, title == "Done"), cardId, newListId);
      && m.Keys == cards.Keys
      && m[cardId].listId == newListId
      && (m[cardId].completed <==> title == "Done")
      && m[cardId] == cards[cardId].(listId := m[cardId].listId, completed := m[cardId].completed)
      && forall k | k in cards && k != cardId :: m[k] == cards[k]
  {
  }

  /** `UpdateCardPositions`: `position := i` for `cardIDs[i]` in turn, returning at the first
      failing write with the earlier writes kept. */
  method UpdateCardPositions(db: Db, cardIds: seq<Id>, refused: set<Id>) returns (r: Result<(), DbError>)
    modifies db`cards
    ensures r.Ok? <==> forall id | id in cardIds :: id !in refused
    ensures r.Ok? ==> db.cards == Reindexed(old(db.cards), cardIds)
    ensures r.Err? ==> r == Err(Failed(UpdateCardPosition))
    ensures r.Err? ==>
      exists k | 0 <= k < |cardIds| ::
        && cardIds[k] in refused && (forall i | 0 <= i < k :: cardIds[i] !in refused)
        && db.cards == Reindexed(old(db.cards), cardIds[..k])
  {
    var k := db.WritePositions(cardIds, refused);
    if k < |cardIds| {
      return Err(Failed(UpdateCardPosition));
    }
    assert cardIds[..k] == cardIds;
    r := Ok(());
  }
}
