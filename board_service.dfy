/** The board service of the datastar app (kanban-datastar/pkg/services/board_service.go):
    creating a board with its four default lists, and collecting a board's rows into the
    nested view. Ids and the clock are parameters; an insert fails when its id is in
    `refused` or already taken. */
module BoardService {
  import opened Base
  import opened Store
  import opened Sqlc
  import opened BoardView

  /** How many list inserts succeed before the first one fails: an insert fails when its id
      is refused, already in the table, or used by an earlier list of the same board. */
  function ListsWritten(taken: set<Id>, ids: seq<Id>, refused: set<Id>): (k: nat)
    ensures k <= |ids|
    ensures forall i | 0 <= i < k :: ids[i] !in refused && ids[i] !in taken && ids[i] !in ids[..i]
    ensures k < |ids| ==> ids[k] in refused || ids[k] in taken || ids[k] in ids[..k]
  {
    if ids == [] then 0
    else
      var n := |ids| - 1;
      var k := ListsWritten(taken, ids[..n], refused);
      if k < n then k
      else if ids[n] in refused || ids[n] in taken || ids[n] in ids[..n] then n
      else |ids|
  }

  /** When every list insert succeeds, the board gets the four default lists, Todo,
      In-Progress, QA and Done, at positions 1 to 4, each under its own id. */
  lemma AllListsCreated(taken: set<Id>, boardId: Id, ids: seq<Id>, refused: set<Id>, now: int)
    requires |ids| == |ListTitles| && ListsWritten(taken, ids, refused) == |ids|
    ensures NoDup(ids) && forall id | id in ids :: id !in taken && id !in refused
    ensures forall i | 0 <= i < |ids| :: DefaultLists(boardId, ids, now)[ids[i]] == ListRow(boardId, ListTitles[i], i + 1, now)
  {
    forall a, b | 0 <= a < b < |ids| ensures ids[a] != ids[b] {
      assert ids[b] !in ids[..b];
      assert ids[..b][a] == ids[a];
    }
    DefaultListsAt(boardId, ids, now);
  }

  /** `CreateBoard`: insert the board, then its four lists one by one. There is no
      transaction: a failing list insert returns `("", err)` and leaves the board and the
      lists written before it. */
  method CreateBoard(db: Db, title: string, description: string, boardId: Id, listIds: seq<Id>, now: int,
                     refused: set<Id>)
    returns (id: Id, err: Option<DbError>)
    requires |listIds| == |ListTitles|
    modifies db`boards, db`lists
    ensures boardId in refused || boardId in old(db.boards) ==>
      id == "" && err == Some(Failed(Stmt.CreateBoard)) && db.boards == old(db.boards) && db.lists == old(db.lists)
    ensures boardId !in refused && boardId !in old(db.boards) ==>
      var k := ListsWritten(old(db.lists).Keys, listIds, refused);
      && db.boards == old(db.boards)[boardId := BoardRow(title, NullIfEmpty(description), now)]
      && db.lists == old(db.lists) + DefaultLists(boardId, listIds[..k], now)
      && (k == |listIds| ==> id == boardId && err.None?)
      && (k < |listIds| ==> id == "" && err == Some(Failed(CreateList)))
  {
    if boardId in refused || boardId in db.boards {
      return "", Some(Failed(Stmt.CreateBoard));
    }
    db.boards := db.boards[boardId := BoardRow(title, NullIfEmpty(description), now)];
    var k := InsertDefaultLists(db, boardId, listIds, now, refused);
    if k < |listIds| {
      return "", Some(Failed(CreateList));
    }
    id, err := boardId, None;
  }

  /** The first `k` list inserts succeed. */
  predicate Insertable(taken: set<Id>, ids: seq<Id>, refused: set<Id>, k: nat)
    requires k <= |ids|
  {
    forall i | 0 <= i < k :: ids[i] !in refused && ids[i] !in taken && ids[i] !in ids[..i]
  }

  /** One more successful insert. */
  lemma InsertableStep(taken: set<Id>, ids: seq<Id>, refused: set<Id>, k: nat)
    requires k < |ids| && Insertable(taken, ids, refused, k)
    requires ids[k] !in refused && ids[k] !in taken && ids[k] !in ids[..k]
    ensures Insertable(taken, ids, refused, k + 1)
  {
  }

  /** `ListsWritten` is the index of the first insert that fails. */
  lemma ListsWrittenAt(taken: set<Id>, ids: seq<Id>, refused: set<Id>, k: nat)
    requires k <= |ids| && Insertable(taken, ids, refused, k)
    requires k < |ids| ==> ids[k] in refused || ids[k] in taken || ids[k] in ids[..k]
    ensures ListsWritten(taken, ids, refused) == k
  {
  }

  /** One more default list is the previous ones with list `k` added. */
  lemma DefaultListsStep(boardId: Id, ids: seq<Id>, k: nat, now: int)
    requires k < |ids| <= |ListTitles|
    ensures DefaultLists(boardId, ids[..k + 1], now)
         == DefaultLists(boardId, ids[..k], now)[ids[k] := ListRow(boardId, ListTitles[k], k + 1, now)]
  {
    assert ids[..k + 1][..k] == ids[..k];
  }

  /** Adding list `k` to the table is adding it to the lists already written. */
  lemma WriteNextList(lists: map<Id, ListRow>, before: map<Id, ListRow>, boardId: Id, ids: seq<Id>, k: nat, now: int)
    requires k < |ids| <= |ListTitles|
    requires lists == before + DefaultLists(boardId, ids[..k], now)
    ensures lists[ids[k] := ListRow(boardId, ListTitles[k], k + 1, now)]
         == before + DefaultLists(boardId, ids[..k + 1], now)
  {
    DefaultListsStep(boardId, ids, k, now);
  }

  /** The list loop of `CreateBoard`: insert list `i` with title `ListTitles[i]` and position
      `i + 1`, stopping at the first insert that fails; `k` inserts succeed. */
  method InsertDefaultLists(db: Db, boardId: Id, listIds: seq<Id>, now: int, refused: set<Id>) returns (k: nat)
    requires |listIds| == |ListTitles|
    modifies db`lists
    ensures k == ListsWritten(old(db.lists).Keys, listIds, refused)
    ensures db.lists == old(db.lists) + DefaultLists(boardId, listIds[..k], now)
  {
    ghost var taken := old(db.lists).Keys;
    k := 0;
    while k < |listIds|
      invariant k <= |listIds|
      invariant Insertable(taken, listIds, refused, k)
      invariant db.lists == old(db.lists) + DefaultLists(boardId, listIds[..k], now)
    {
      var listId := listIds[k];
      if listId in refused || listId in db.lists {
        assert listId in refused || listId in taken || listId in listIds[..k];
        ListsWrittenAt(taken, listIds, refused, k);
        return;
      }
      assert listId !in taken && listId !in DefaultLists(boardId, listIds[..k], now);
      assert listId !in listIds[..k];
      InsertableStep(taken, listIds, refused, k);
      WriteNextList(db.lists, old(db.lists), boardId, listIds, k, now);
      db.lists := db.lists[listId := ListRow(boardId, ListTitles[k], k + 1, now)];
      k := k + 1;
    }
    ListsWrittenAt(taken, listIds, refused, k);
  }

  function ListRowId(l: GetListsByBoardIdRow): Id { l.id }

  function CardRowId(c: GetCardsByListIdsRow): Id { c.id }

  /** The card rows as `GetBoardDetails` obtains them: not asked for when there is no list. */
  function CardsAnswer(q: Queries, lists: seq<GetListsByBoardIdRow>): Result<seq<GetCardsByListIdsRow>, DbError> {
    if lists == [] then Ok([]) else q.getCardsByListIds(Mapped(lists, ListRowId))
  }

  /** The association rows: not asked for when there is no card. */
  function CardTagsAnswer(q: Queries, cards: seq<GetCardsByListIdsRow>): Result<seq<GetTagsByCardIdsRow>, DbError> {
    if cards == [] then Ok([]) else q.getTagsByCardIds(Mapped(cards, CardRowId))
  }

  /** The comment rows: not asked for when there is no card. */
  function CommentsAnswer(q: Queries, cards: seq<GetCardsByListIdsRow>): Result<seq<Comment>, DbError> {
    if cards == [] then Ok([]) else q.getCommentsByCardIds(Mapped(cards, CardRowId))
  }

  /** `GetBoardDetails`: run the queries in order, stopping at the first error, which is
      returned with an empty view and no users or tags; otherwise build the view. */
  method GetBoardDetails(q: Queries, boardId: Id)
    returns (details: BoardDetails, users: seq<User>, tags: seq<GetTagsRow>, err: Option<DbError>)
    ensures err.Some? ==> details == BoardDetails("", "", "", []) && users == [] && tags == []
    ensures q.getBoard(boardId).Err? ==> err == Some(q.getBoard(boardId).error)
    ensures q.getBoard(boardId).Ok? && q.getListsByBoardId(boardId).Err? ==> err == Some(q.getListsByBoardId(boardId).error)
    ensures q.getBoard(boardId).Ok? && q.getListsByBoardId(boardId).Ok? && q.getUsers.Err? ==> err == Some(q.getUsers.error)
    ensures q.getBoard(boardId).Ok? && q.getListsByBoardId(boardId).Ok? && q.getUsers.Ok? && q.getTags.Err? ==>
      err == Some(q.getTags.error)
    ensures q.getBoard(boardId).Ok? && q.getListsByBoardId(boardId).Ok? && q.getUsers.Ok? && q.getTags.Ok? ==>
      var cards := CardsAnswer(q, q.getListsByBoardId(boardId).value);
      && (cards.Err? ==> err == Some(cards.error))
      && (cards.Ok? && CardTagsAnswer(q, cards.value).Err? ==> err == Some(CardTagsAnswer(q, cards.value).error))
      && (cards.Ok? && CardTagsAnswer(q, cards.value).Ok? && CommentsAnswer(q, cards.value).Err? ==>
            err == Some(CommentsAnswer(q, cards.value).error))
      && (cards.Ok? && CardTagsAnswer(q, cards.value).Ok? && CommentsAnswer(q, cards.value).Ok? ==>
            && err.None?
            && users == q.getUsers.value && tags == q.getTags.value
            && details == Details(q.getBoard(boardId).value, q.getListsByBoardId(boardId).value, cards.value,
                                  CardTagsAnswer(q, cards.value).value, CommentsAnswer(q, cards.value).value,
                                  q.getUsers.value, q.getTags.value))
  {
    details, users, tags := BoardDetails("", "", "", []), [], [];
    var boardData := q.getBoard(boardId);
    if boardData.Err? {
      return details, users, tags, Some(boardData.error);
    }
    var lists := q.getListsByBoardId(boardId);
    if lists.Err? {
      return details, users, tags, Some(lists.error);
    }
    var userRows := q.getUsers;
    if userRows.Err? {
      return details, users, tags, Some(userRows.error);
    }
    var tagRows := q.getTags;
    if tagRows.Err? {
      return details, users, tags, Some(tagRows.error);
    }

    var listIds := [];
    for i := 0 to |lists.value|
      invariant listIds == Mapped(lists.value[..i], ListRowId)
    {
      listIds := listIds + [lists.value[i].id];
    }
    assert lists.value[..|lists.value|] == lists.value;

    var cards := [];
    if |listIds| > 0 {
      var answer := q.getCardsByListIds(listIds);
      if answer.Err? {
        return details, users, tags, Some(answer.error);
      }
      cards := answer.value;
    }

    var cardIds := [];
    for i := 0 to |cards|
      invariant cardIds == Mapped(cards[..i], CardRowId)
    {
      cardIds := cardIds + [cards[i].id];
    }
    assert cards[..|cards|] == cards;

    var cardTags := [];
    if |cardIds| > 0 {
      var answer := q.getTagsByCardIds(cardIds);
      if answer.Err? {
        return details, users, tags, Some(answer.error);
      }
      cardTags := answer.value;
    }

    var comments := [];
    if |cardIds| > 0 {
      var answer := q.getCommentsByCardIds(cardIds);
      if answer.Err? {
        return details, users, tags, Some(answer.error);
      }
      comments := answer.value;
    }

    details := BuildBoardDetails(boardData.value, lists.value, cards, cardTags, comments, userRows.value, tagRows.value);
    users, tags, err := userRows.value, tagRows.value, None;
  }
}
