/** The data layer of the vanilla app (kanban-vanilla/src/lib/api.ts): reading a board with
    its lists, cards, tags and comments, and the create, update and reposition writes.
    Ids and the clock are parameters. Which rows the store refuses is a parameter too; a
    refused statement throws, and a transaction then rolls back. */
module VanillaApi {
  import opened Base
  import opened Store
  import opened Grouping

  /** What a call throws: the error the code raises itself, or a failure of the store. */
  datatype Failure = Thrown(message: string) | StoreFailure

  // ---------------------------------------------------------------------------
  // The rows the selects of `getBoard` return

  datatype BoardSummary = BoardSummary(id: Id, title: string, description: Option<string>)
  datatype ListSummary = ListSummary(id: Id, title: string, position: int)
  datatype CardSelected = CardSelected(
    id: Id, title: string, description: Option<string>, position: int, completed: bool,
    assigneeId: Option<Id>, listId: Id)
  datatype TagJoined = TagJoined(cardId: Id, tagId: Id, tagName: string, tagColor: string)
  datatype CommentSelected = CommentSelected(id: Id, cardId: Id, userId: Id, text: string, createdAt: int)

  // The nested view `getBoard` returns

  datatype TagEntry = TagEntry(id: Id, name: string, color: string)
  datatype CommentEntry = CommentEntry(id: Id, userId: Id, text: string, createdAt: int)
  datatype CardDetails = CardDetails(
    id: Id, title: string, description: Option<string>, position: int, completed: bool,
    assigneeId: Option<Id>, tags: seq<TagEntry>, comments: seq<CommentEntry>)
  datatype ListDetails = ListDetails(id: Id, title: string, position: int, cards: seq<CardDetails>)
  datatype BoardDetails = BoardDetails(id: Id, title: string, description: Option<string>, lists: seq<ListDetails>)

  function CardListOf(c: CardSelected): Id { c.listId }
  function TagCardOf(t: TagJoined): Id { t.cardId }
  function CommentCardOf(c: CommentSelected): Id { c.cardId }
  function TagEntryOf(t: TagJoined): TagEntry { TagEntry(t.tagId, t.tagName, t.tagColor) }
  function CommentEntryOf(c: CommentSelected): CommentEntry { CommentEntry(c.id, c.userId, c.text, c.createdAt) }

  /** The list rows of board `boardId`. */
  function ListsOfBoard(lists: map<Id, ListRow>, boardId: Id): (rows: set<ListSummary>)
    ensures forall x :: x in rows <==>
      x.id in lists && lists[x.id].boardId == boardId && x == ListSummary(x.id, lists[x.id].title, lists[x.id].position)
  {
    set id | id in lists && lists[id].boardId == boardId :: ListSummary(id, lists[id].title, lists[id].position)
  }

  /** The card rows whose list is among `listIds`. */
  function CardsOfLists(cards: map<Id, CardRow>, listIds: set<Id>): (rows: set<CardSelected>)
    ensures forall x :: x in rows <==> x.id in cards && cards[x.id].listId in listIds && x == CardSelectedOf(cards, x.id)
  {
    set id | id in cards && cards[id].listId in listIds :: CardSelectedOf(cards, id)
  }

  function CardSelectedOf(cards: map<Id, CardRow>, id: Id): CardSelected
    requires id in cards
  {
    var c := cards[id];
    CardSelected(id, c.title, c.description, c.position, c.completed, c.assigneeId, c.listId)
  }

  /** `card_tags INNER JOIN tags ON tag_id = tags.id WHERE card_id IN cardIds`. */
  function TagsOfCards(cardTags: set<(Id, Id)>, tags: map<Id, TagRow>, cardIds: set<Id>): (rows: set<TagJoined>)
    ensures forall x :: x in rows <==>
      (x.cardId, x.tagId) in cardTags && x.cardId in cardIds && x.tagId in tags &&
      x.tagName == tags[x.tagId].name && x.tagColor == tags[x.tagId].color
  {
    set p | p in cardTags && p.0 in cardIds && p.1 in tags :: TagJoined(p.0, p.1, tags[p.1].name, tags[p.1].color)
  }

  /** The comment rows of the cards `cardIds`. */
  function CommentsOfCards(comments: map<Id, CommentRow>, cardIds: set<Id>): (rows: set<CommentSelected>)
    ensures forall x :: x in rows <==>
      x.id in comments && comments[x.id].cardId in cardIds &&
      x == CommentSelected(x.id, comments[x.id].cardId, comments[x.id].userId, comments[x.id].text, comments[x.id].createdAt)
  {
    set id | id in comments && comments[id].cardId in cardIds ::
      CommentSelected(id, comments[id].cardId, comments[id].userId, comments[id].text, comments[id].createdAt)
  }

  /** `rows` is a possible answer to a select returning exactly `keys`: each once, in some order. */
  ghost predicate Enumerates<K(!new)>(rows: seq<K>, keys: set<K>) {
    NoDup(rows) && forall x :: x in rows <==> x in keys
  }

  /** The list select: the board's lists once each, by ascending position. */
  ghost predicate ListsSelected(lists: map<Id, ListRow>, boardId: Id, rows: seq<ListSummary>) {
    && Enumerates(rows, ListsOfBoard(lists, boardId))
    && forall i, j | 0 <= i < j < |rows| :: rows[i].position <= rows[j].position
  }

  /** The card select: the cards of the selected lists once each, by ascending position. */
  ghost predicate CardsSelected(cards: map<Id, CardRow>, listRows: seq<ListSummary>, rows: seq<CardSelected>) {
    && Enumerates(rows, CardsOfLists(cards, set l | l in listRows :: l.id))
    && forall i, j | 0 <= i < j < |rows| :: rows[i].position <= rows[j].position
  }

  /** The tag join: every association of a selected card with an existing tag, once each,
      in no particular order (the query has no ORDER BY). */
  ghost predicate TagsSelected(cardTags: set<(Id, Id)>, tags: map<Id, TagRow>, cardRows: seq<CardSelected>,
                               rows: seq<TagJoined>) {
    Enumerates(rows, TagsOfCards(cardTags, tags, set c | c in cardRows :: c.id))
  }

  /** The comment select: the comments of the selected cards once each, by ascending creation time. */
  ghost predicate CommentsSelected(comments: map<Id, CommentRow>, cardRows: seq<CardSelected>, rows: seq<CommentSelected>) {
    && Enumerates(rows, CommentsOfCards(comments, set c | c in cardRows :: c.id))
    && forall i, j | 0 <= i < j < |rows| :: rows[i].createdAt <= rows[j].createdAt
  }

  /** One card of the view: its columns, and its groups of tags and comments, `[]` when the
      map has none for it. */
  function CardDetailsOf(c: CardSelected, tagsByCard: map<Id, seq<TagJoined>>,
                         commentsByCard: map<Id, seq<CommentSelected>>): CardDetails {
    CardDetails(c.id, c.title, c.description, c.position, c.completed, c.assigneeId,
      Mapped(Find(tagsByCard, c.id), TagEntryOf), Mapped(Find(commentsByCard, c.id), CommentEntryOf))
  }

  /** One list of the view: its columns and the card rows of that list, in row order. */
  function ListDetailsOf(l: ListSummary, cardRows: seq<CardSelected>, tagsByCard: map<Id, seq<TagJoined>>,
                         commentsByCard: map<Id, seq<CommentSelected>>): ListDetails {
    ListDetails(l.id, l.title, l.position,
      Mapped(Group(cardRows, CardListOf, l.id), c => CardDetailsOf(c, tagsByCard, commentsByCard)))
  }

  /** The final assembly of `getBoard`: the board with each list row and its cards. */
  function Assembled(board: BoardSummary, listRows: seq<ListSummary>, cardRows: seq<CardSelected>,
                     tagsByCard: map<Id, seq<TagJoined>>, commentsByCard: map<Id, seq<CommentSelected>>): BoardDetails {
    BoardDetails(board.id, board.title, board.description,
      Mapped(listRows, l => ListDetailsOf(l, cardRows, tagsByCard, commentsByCard)))
  }

  /** `getBoard`: `None` (null) for an unknown board; otherwise the board's lists by position,
      their cards by position, and each card's tags and comments. A board without lists
      returns at once with no lists, and a board without cards does not query tags or comments. */
  method GetBoard(db: Db, boardId: Id)
    returns (r: Option<BoardDetails>, ghost listRows: seq<ListSummary>, ghost cardRows: seq<CardSelected>,
             ghost tagRows: seq<TagJoined>, ghost commentRows: seq<CommentSelected>,
             ghost tagsByCard: map<Id, seq<TagJoined>>, ghost commentsByCard: map<Id, seq<CommentSelected>>)
    ensures r.None? <==> boardId !in db.boards
    ensures boardId in db.boards ==>
      && ListsSelected(db.lists, boardId, listRows)
      && CardsSelected(db.cards, listRows, cardRows)
      && TagsSelected(db.cardTags, db.tags, cardRows, tagRows)
      && CommentsSelected(db.comments, cardRows, commentRows)
      && Grouped(tagsByCard, tagRows, TagCardOf)
      && Grouped(commentsByCard, commentRows, CommentCardOf)
      && r == Some(Assembled(BoardSummary(boardId, db.boards[boardId].title, db.boards[boardId].description),
                             listRows, cardRows, tagsByCard, commentsByCard))
  {
    listRows, cardRows, tagRows, commentRows, tagsByCard, commentsByCard := [], [], [], [], map[], map[];
    if boardId !in db.boards {
      return None, listRows, cardRows, tagRows, commentRows, tagsByCard, commentsByCard;
    }
    var board := BoardSummary(boardId, db.boards[boardId].title, db.boards[boardId].description);

    var lrows := SelectLists(db, boardId);
    listRows := lrows;
    if |lrows| == 0 {
      NoListsNoCards(db.cards, lrows);
      return Some(BoardDetails(boardId, board.title, board.description, [])),
             listRows, cardRows, tagRows, commentRows, tagsByCard, commentsByCard;
    }

    var listIds := Mapped(lrows, (l: ListSummary) => l.id);
    var crows := SelectCards(db, lrows, listIds);
    cardRows := crows;

    var cardIds := Mapped(crows, (c: CardSelected) => c.id);
    var trows: seq<TagJoined> := [];
    var mrows: seq<CommentSelected> := [];
    if |cardIds| > 0 {
      trows := SelectTags(db, crows, cardIds);
      mrows := SelectComments(db, crows, cardIds);
    } else {
      NoCardsNoRows(db.cardTags, db.tags, db.comments, crows);
    }
    tagRows, commentRows := trows, mrows;

    var tagGroups := GroupBy(trows, TagCardOf);
    var commentGroups := GroupBy(mrows, CommentCardOf);
    tagsByCard, commentsByCard := tagGroups, commentGroups;

    r := Some(Assembled(board, lrows, crows, tagGroups, commentGroups));
  }

  /** `SELECT id, title, position FROM lists WHERE board_id = ? ORDER BY position` */
  method SelectLists(db: Db, boardId: Id) returns (rows: seq<ListSummary>)
    ensures ListsSelected(db.lists, boardId, rows)
  {
    var keys := ListsOfBoard(db.lists, boardId);
    rows := SelectOrdered(keys, map x | x in keys :: x.position);
  }

  /** `SELECT ... FROM cards WHERE list_id IN listIds ORDER BY position` */
  method SelectCards(db: Db, listRows: seq<ListSummary>, listIds: seq<Id>) returns (rows: seq<CardSelected>)
    requires |listIds| == |listRows| && forall i | 0 <= i < |listRows| :: listIds[i] == listRows[i].id
    ensures CardsSelected(db.cards, listRows, rows)
  {
    SetOfIds(listRows, listIds);
    var keys := CardsOfLists(db.cards, set l | l in listIds);
    rows := SelectOrdered(keys, map x | x in keys :: x.position);
  }

  /** The tag join for the cards `cardIds`, in whatever order the store returns it. */
  method SelectTags(db: Db, cardRows: seq<CardSelected>, cardIds: seq<Id>) returns (rows: seq<TagJoined>)
    requires |cardIds| == |cardRows| && forall i | 0 <= i < |cardRows| :: cardIds[i] == cardRows[i].id
    ensures TagsSelected(db.cardTags, db.tags, cardRows, rows)
  {
    CardIdsOf(cardRows, cardIds);
    var keys := TagsOfCards(db.cardTags, db.tags, set c | c in cardIds);
    rows := SelectOrdered(keys, map x | x in keys :: 0);
  }

  /** `SELECT ... FROM comments WHERE card_id IN cardIds ORDER BY created_at` */
  method SelectComments(db: Db, cardRows: seq<CardSelected>, cardIds: seq<Id>) returns (rows: seq<CommentSelected>)
    requires |cardIds| == |cardRows| && forall i | 0 <= i < |cardRows| :: cardIds[i] == cardRows[i].id
    ensures CommentsSelected(db.comments, cardRows, rows)
  {
    CardIdsOf(cardRows, cardIds);
    var keys := CommentsOfCards(db.comments, set c | c in cardIds);
    rows := SelectOrdered(keys, map x | x in keys :: x.createdAt);
  }

  /** The ids of a sequence of list rows, as a set. */
  lemma SetOfIds(rows: seq<ListSummary>, ids: seq<Id>)
    requires |ids| == |rows| && forall i | 0 <= i < |rows| :: ids[i] == rows[i].id
    ensures (set l | l in ids) == set l | l in rows :: l.id
  {
    forall x | x in rows ensures x.id in ids {
      var i :| 0 <= i < |rows| && rows[i] == x;
      assert ids[i] == x.id;
    }
  }

  /** The ids of a sequence of card rows, as a set. */
  lemma CardIdsOf(rows: seq<CardSelected>, ids: seq<Id>)
    requires |ids| == |rows| && forall i | 0 <= i < |rows| :: ids[i] == rows[i].id
    ensures (set c | c in ids) == set c | c in rows :: c.id
  {
    forall x | x in rows ensures x.id in ids {
      var i :| 0 <= i < |rows| && rows[i] == x;
      assert ids[i] == x.id;
    }
  }

  /** Without lists there is no card to select. */
  lemma NoListsNoCards(cards: map<Id, CardRow>, listRows: seq<ListSummary>)
    requires listRows == []
    ensures CardsSelected(cards, listRows, [])
  {
    assert (set l | l in listRows :: l.id) == {};
  }

  /** Without cards there is no tag or comment to select. */
  lemma NoCardsNoRows(cardTags: set<(Id, Id)>, tags: map<Id, TagRow>, comments: map<Id, CommentRow>,
                      cardRows: seq<CardSelected>)
    requires cardRows == []
    ensures TagsSelected(cardTags, tags, cardRows, [])
    ensures CommentsSelected(comments, cardRows, [])
  {
    assert (set c | c in cardRows :: c.id) == {};
  }

  // ---------------------------------------------------------------------------
  // What the view holds

  /** The view has the board's fields and one list per list of the board, by ascending
      position, each with that list's id, title and position. */
  lemma AssembledLists(lists: map<Id, ListRow>, board: BoardSummary, listRows: seq<ListSummary>, cardRows: seq<CardSelected>,
                       tagsByCard: map<Id, seq<TagJoined>>, commentsByCard: map<Id, seq<CommentSelected>>)
    requires ListsSelected(lists, board.id, listRows)
    ensures var v := Assembled(board, listRows, cardRows, tagsByCard, commentsByCard);
      && v.id == board.id && v.title == board.title && v.description == board.description
      && |v.lists| == |listRows|
      && (forall i, j | 0 <= i < j < |v.lists| :: v.lists[i].position <= v.lists[j].position)
      && (forall i | 0 <= i < |v.lists| :: v.lists[i].id in lists && lists[v.lists[i].id].boardId == board.id &&
            v.lists[i].title == lists[v.lists[i].id].title && v.lists[i].position == lists[v.lists[i].id].position)
      && (forall id | id in lists && lists[id].boardId == board.id :: exists i | 0 <= i < |v.lists| :: v.lists[i].id == id)
  {
    var v := Assembled(board, listRows, cardRows, tagsByCard, commentsByCard);
    forall i | 0 <= i < |v.lists|
      ensures v.lists[i].id in lists && lists[v.lists[i].id].boardId == board.id &&
              v.lists[i].title == lists[v.lists[i].id].title && v.lists[i].position == lists[v.lists[i].id].position
    {
      assert listRows[i] in listRows;
    }
    forall id | id in lists && lists[id].boardId == board.id ensures exists i | 0 <= i < |v.lists| :: v.lists[i].id == id {
      var x := ListSummary(id, lists[id].title, lists[id].position);
      assert x in ListsOfBoard(lists, board.id);
      var i :| 0 <= i < |listRows| && listRows[i] == x;
      assert v.lists[i].id == id;
    }
  }

  /** A list's cards are exactly the cards of that list, by ascending position, with their
      columns as stored. */
  lemma {:induction false} AssembledListCards(cards: map<Id, CardRow>, l: ListSummary, listRows: seq<ListSummary>,
                                              cardRows: seq<CardSelected>, tagsByCard: map<Id, seq<TagJoined>>,
                                              commentsByCard: map<Id, seq<CommentSelected>>)
    requires CardsSelected(cards, listRows, cardRows) && l in listRows
    ensures var cs := ListDetailsOf(l, cardRows, tagsByCard, commentsByCard).cards;
      && (forall id :: (exists j | 0 <= j < |cs| :: cs[j].id == id) <==> id in cards && cards[id].listId == l.id)
      && (forall j | 0 <= j < |cs| :: cs[j].id in cards && cs[j] == CardDetailsOf(CardSelectedOf(cards, cs[j].id), tagsByCard, commentsByCard))
      && (forall j, k | 0 <= j < k < |cs| :: cs[j].position <= cs[k].position)
  {
    var g := Group(cardRows, CardListOf, l.id);
    var cs := ListDetailsOf(l, cardRows, tagsByCard, commentsByCard).cards;
    forall j | 0 <= j < |cs| ensures cs[j].id in cards && cards[cs[j].id].listId == l.id &&
                                     cs[j] == CardDetailsOf(CardSelectedOf(cards, cs[j].id), tagsByCard, commentsByCard) {
      assert g[j] in g;
      GroupMembers(cardRows, CardListOf, l.id, g[j]);
    }
    forall id | id in cards && cards[id].listId == l.id ensures exists j | 0 <= j < |cs| :: cs[j].id == id {
      var x := CardSelectedOf(cards, id);
      assert x in CardsOfLists(cards, set l' | l' in listRows :: l'.id);
      GroupMembers(cardRows, CardListOf, l.id, x);
      var j :| 0 <= j < |g| && g[j] == x;
      assert cs[j].id == id;
    }
    forall j, k | 0 <= j < k < |cs| ensures cs[j].position <= cs[k].position {
      assert Before(g, g[j], g[k]);
      GroupBefore(cardRows, CardListOf, l.id, g[j], g[k]);
      var p, q :| 0 <= p < q < |cardRows| && cardRows[p] == g[j] && cardRows[q] == g[k];
    }
  }

  /** A selected card's tags are exactly its associations with existing tags, each with that
      tag's name and colour; a card without any gets `[]`. */
  lemma AssembledCardTags(cardTags: set<(Id, Id)>, tags: map<Id, TagRow>, cardRows: seq<CardSelected>,
                          tagRows: seq<TagJoined>, tagsByCard: map<Id, seq<TagJoined>>,
                          commentsByCard: map<Id, seq<CommentSelected>>, c: CardSelected)
    requires TagsSelected(cardTags, tags, cardRows, tagRows) && Grouped(tagsByCard, tagRows, TagCardOf) && c in cardRows
    ensures var ts := CardDetailsOf(c, tagsByCard, commentsByCard).tags;
      && (forall e :: e in ts <==> (c.id, e.id) in cardTags && e.id in tags && e == TagEntry(e.id, tags[e.id].name, tags[e.id].color))
      && ((forall t :: (c.id, t) !in cardTags) ==> ts == [])
  {
    var g := Group(tagRows, TagCardOf, c.id);
    var ts := CardDetailsOf(c, tagsByCard, commentsByCard).tags;
    assert c.id in set c' | c' in cardRows :: c'.id;
    forall e ensures e in ts <==> (c.id, e.id) in cardTags && e.id in tags && e == TagEntry(e.id, tags[e.id].name, tags[e.id].color) {
      if e in ts {
        var j :| 0 <= j < |ts| && ts[j] == e;
        GroupMembers(tagRows, TagCardOf, c.id, g[j]);
      }
      if (c.id, e.id) in cardTags && e.id in tags && e == TagEntry(e.id, tags[e.id].name, tags[e.id].color) {
        var x := TagJoined(c.id, e.id, e.name, e.color);
        GroupMembers(tagRows, TagCardOf, c.id, x);
        var j :| 0 <= j < |g| && g[j] == x;
        assert ts[j] == e;
      }
    }
    if forall t :: (c.id, t) !in cardTags {
      forall i | 0 <= i < |tagRows| ensures TagCardOf(tagRows[i]) != c.id {
        assert tagRows[i] in tagRows;
      }
      GroupEmpty(tagRows, TagCardOf, c.id);
    }
  }

  /** A selected card's comments are exactly the comments on it, by ascending creation time. */
  lemma AssembledCardComments(comments: map<Id, CommentRow>, cardRows: seq<CardSelected>, commentRows: seq<CommentSelected>,
                              tagsByCard: map<Id, seq<TagJoined>>, commentsByCard: map<Id, seq<CommentSelected>>,
                              c: CardSelected)
    requires CommentsSelected(comments, cardRows, commentRows) && Grouped(commentsByCard, commentRows, CommentCardOf)
    requires c in cardRows
    ensures var ms := CardDetailsOf(c, tagsByCard, commentsByCard).comments;
      && (forall id :: (exists j | 0 <= j < |ms| :: ms[j].id == id) <==> id in comments && comments[id].cardId == c.id)
      && (forall j | 0 <= j < |ms| :: ms[j].id in comments &&
            ms[j] == CommentEntry(ms[j].id, comments[ms[j].id].userId, comments[ms[j].id].text, comments[ms[j].id].createdAt))
      && (forall j, k | 0 <= j < k < |ms| :: ms[j].createdAt <= ms[k].createdAt)
  {
    CardCommentsStored(comments, cardRows, commentRows, tagsByCard, commentsByCard, c);
    CardCommentsComplete(comments, cardRows, commentRows, tagsByCard, commentsByCard, c);
    CardCommentsOrdered(comments, cardRows, commentRows, tagsByCard, commentsByCard, c);
  }

  /** Each comment of a selected card is a stored comment on that card, with its columns. */
  lemma CardCommentsStored(comments: map<Id, CommentRow>, cardRows: seq<CardSelected>, commentRows: seq<CommentSelected>,
                           tagsByCard: map<Id, seq<TagJoined>>, commentsByCard: map<Id, seq<CommentSelected>>,
                           c: CardSelected)
    requires CommentsSelected(comments, cardRows, commentRows) && Grouped(commentsByCard, commentRows, CommentCardOf)
    requires c in cardRows
    ensures var ms := CardDetailsOf(c, tagsByCard, commentsByCard).comments;
      forall j | 0 <= j < |ms| :: ms[j].id in comments && comments[ms[j].id].cardId == c.id &&
        ms[j] == CommentEntry(ms[j].id, comments[ms[j].id].userId, comments[ms[j].id].text, comments[ms[j].id].createdAt)
  {
    var g := Group(commentRows, CommentCardOf, c.id);
    var ms := CardDetailsOf(c, tagsByCard, commentsByCard).comments;
    assert c.id in set c' | c' in cardRows :: c'.id;
    forall j | 0 <= j < |ms| ensures ms[j].id in comments && comments[ms[j].id].cardId == c.id &&
        ms[j] == CommentEntry(ms[j].id, comments[ms[j].id].userId, comments[ms[j].id].text, comments[ms[j].id].createdAt) {
      assert g[j] in g;
      GroupMembers(commentRows, CommentCardOf, c.id, g[j]);
    }
  }

  /** Every stored comment on a selected card is among that card's comments. */
  lemma CardCommentsComplete(comments: map<Id, CommentRow>, cardRows: seq<CardSelected>, commentRows: seq<CommentSelected>,
                             tagsByCard: map<Id, seq<TagJoined>>, commentsByCard: map<Id, seq<CommentSelected>>,
                             c: CardSelected)
    requires CommentsSelected(comments, cardRows, commentRows) && Grouped(commentsByCard, commentRows, CommentCardOf)
    requires c in cardRows
    ensures var ms := CardDetailsOf(c, tagsByCard, commentsByCard).comments;
      forall id | id in comments && comments[id].cardId == c.id :: exists j | 0 <= j < |ms| :: ms[j].id == id
  {
    var g := Group(commentRows, CommentCardOf, c.id);
    var ms := CardDetailsOf(c, tagsByCard, commentsByCard).comments;
    assert c.id in set c' | c' in cardRows :: c'.id;
    forall id | id in comments && comments[id].cardId == c.id ensures exists j | 0 <= j < |ms| :: ms[j].id == id {
      var m := comments[id];
      var x := CommentSelected(id, m.cardId, m.userId, m.text, m.createdAt);
      GroupMembers(commentRows, CommentCardOf, c.id, x);
      var j :| 0 <= j < |g| && g[j] == x;
      assert ms[j].id == id;
    }
  }

  /** A selected card's comments come by ascending creation time. */
  lemma CardCommentsOrdered(comments: map<Id, CommentRow>, cardRows: seq<CardSelected>, commentRows: seq<CommentSelected>,
                            tagsByCard: map<Id, seq<TagJoined>>, commentsByCard: map<Id, seq<CommentSelected>>,
                            c: CardSelected)
    requires CommentsSelected(comments, cardRows, commentRows) && Grouped(commentsByCard, commentRows, CommentCardOf)
    requires c in cardRows
    ensures var ms := CardDetailsOf(c, tagsByCard, commentsByCard).comments;
      forall j, k | 0 <= j < k < |ms| :: ms[j].createdAt <= ms[k].createdAt
  {
    var g := Group(commentRows, CommentCardOf, c.id);
    var ms := CardDetailsOf(c, tagsByCard, commentsByCard).comments;
    forall j, k | 0 <= j < k < |ms| ensures ms[j].createdAt <= ms[k].createdAt {
      assert Before(g, g[j], g[k]);
      GroupBefore(commentRows, CommentCardOf, c.id, g[j], g[k]);
      var p, q :| 0 <= p < q < |commentRows| && commentRows[p] == g[j] && commentRows[q] == g[k];
    }
  }

  // ---------------------------------------------------------------------------
  // Writes

  /** `createBoard`: insert the board, then its four default lists in one multi-row insert.
      The two inserts are not in a transaction: when the list insert fails (an id refused,
      taken, or repeated) the board stays without lists. */
  method CreateBoard(db: Db, title: string, description: Option<string>, boardId: Id, listIds: seq<Id>, now: int,
                     refused: set<Id>)
    returns (r: Result<BoardSummary, Failure>)
    requires |listIds| == |ListTitles|
    modifies db`boards, db`lists
    ensures boardId in refused || boardId in old(db.boards) ==>
      r == Err(StoreFailure) && db.boards == old(db.boards) && db.lists == old(db.lists)
    ensures boardId !in refused && boardId !in old(db.boards) ==>
      && db.boards == old(db.boards)[boardId := BoardRow(title, description, now)]
      && (ListsInsertable(old(db.lists), listIds, refused) ==>
            r == Ok(BoardSummary(boardId, title, description)) &&
            db.lists == old(db.lists) + DefaultLists(boardId, listIds, now))
      && (!ListsInsertable(old(db.lists), listIds, refused) ==> r == Err(StoreFailure) && db.lists == old(db.lists))
  {
    if boardId in refused || boardId in db.boards {
      return Err(StoreFailure);
    }
    db.boards := db.boards[boardId := BoardRow(title, description, now)];
    if !ListsInsertable(db.lists, listIds, refused) {
      return Err(StoreFailure);
    }
    db.lists := db.lists + DefaultLists(boardId, listIds, now);
    r := Ok(BoardSummary(boardId, title, description));
  }

  /** A multi-row insert of lists succeeds: no id is refused, taken, or repeated. */
  predicate ListsInsertable(lists: map<Id, ListRow>, ids: seq<Id>, refused: set<Id>) {
    NoDup(ids) && forall i | 0 <= i < |ids| :: ids[i] !in lists && ids[i] !in refused
  }

  /** After a successful `createBoard` the board's new lists are Todo, In-Progress, QA and
      Done at positions 1 to 4, and the lists that were there are unchanged. */
  lemma CreatedBoardLists(lists: map<Id, ListRow>, boardId: Id, listIds: seq<Id>, refused: set<Id>, now: int)
    requires |listIds| == |ListTitles| && ListsInsertable(lists, listIds, refused)
    ensures var m := lists + DefaultLists(boardId, listIds, now);
      && (forall i | 0 <= i < |listIds| :: m[listIds[i]] == ListRow(boardId, ListTitles[i], i + 1, now))
      && (forall id | id in lists :: m[id] == lists[id])
      && m.Keys == lists.Keys + set id | id in listIds
  {
    DefaultListsAt(boardId, listIds, now);
    var m := lists + DefaultLists(boardId, listIds, now);
    forall id | id in lists ensures m[id] == lists[id] {
      assert id !in listIds;
    }
  }

  /** `todoLists.find(list => list.title === "Todo")` */
  function FindTodo(rows: seq<ListSummary>): (r: Option<ListSummary>)
    ensures r.None? <==> forall i | 0 <= i < |rows| :: rows[i].title != "Todo"
    ensures r.Some? ==> r.value in rows && r.value.title == "Todo"
    ensures r.Some? ==> exists i | 0 <= i < |rows| :: rows[i] == r.value && forall k | 0 <= k < i :: rows[k].title != "Todo"
  {
    if rows == [] then None
    else if rows[0].title == "Todo" then Some(rows[0])
    else
      var r := FindTodo(rows[1..]);
      assert r.Some? ==> exists i | 0 <= i < |rows[1..]| :: rows[1..][i] == r.value && forall k | 0 <= k < i :: rows[1..][k].title != "Todo";
      assert r.Some? ==> exists i | 0 <= i < |rows| :: rows[i] == r.value && forall k | 0 <= k < i :: rows[k].title != "Todo" by {
        if r.Some? {
          var i :| 0 <= i < |rows[1..]| && rows[1..][i] == r.value && forall k | 0 <= k < i :: rows[1..][k].title != "Todo";
          assert rows[i + 1] == r.value;
          forall k | 0 <= k < i + 1 ensures rows[k].title != "Todo" {
            if k > 0 { assert rows[k] == rows[1..][k - 1]; }
          }
        }
      }
      assert r.None? ==> forall i | 0 <= i < |rows| :: rows[i].title != "Todo" by {
        if r.None? {
          forall i | 0 <= i < |rows| ensures rows[i].title != "Todo" {
            if i > 0 { assert rows[i] == rows[1..][i - 1]; }
          }
        }
      }
      r
  }

  /** `(max ?? -1) + 1` */
  function NextPosition(maxPos: Option<int>): int {
    (if maxPos.Some? then maxPos.value else -1) + 1
  }

  /** A card insert, and the tag insert of the same transaction: the card id must be free,
      and the tag ids distinct, accepted by the store, and not yet associated with it. */
  predicate CardInsertable(cards: map<Id, CardRow>, cardTags: set<(Id, Id)>, cardId: Id, tagIds: seq<Id>,
                           refusedTags: set<Id>) {
    && cardId !in cards
    && NoDup(tagIds)
    && forall i | 0 <= i < |tagIds| :: tagIds[i] !in refusedTags && (cardId, tagIds[i]) !in cardTags
  }

  /** The list `createCard` puts a new card in: the first list of the board titled "Todo",
      `None` when the board has no such list. */
  method TodoListOf(lists: map<Id, ListRow>, boardId: Id) returns (todo: Option<Id>)
    ensures todo.None? <==> forall id | id in lists && lists[id].boardId == boardId :: lists[id].title != "Todo"
    ensures todo.Some? ==> todo.value in lists && lists[todo.value].boardId == boardId && lists[todo.value].title == "Todo"
  {
    var boardLists := ListsOfBoard(lists, boardId);
    var todoLists := SelectOrdered(boardLists, map x | x in boardLists :: 0);
    var todoList := FindTodo(todoLists);
    if todoList.None? {
      forall id | id in lists && lists[id].boardId == boardId ensures lists[id].title != "Todo" {
        assert ListSummary(id, lists[id].title, lists[id].position) in todoLists;
      }
      return None;
    }
    assert todoList.value in boardLists;
    return Some(todoList.value.id);
  }

  /** `createCard`: find a list titled Todo among the board's lists (selected in no
      particular order), put the card one past the list's largest position (0 for an empty
      list), and insert the card and its tags in one transaction. */
  method CreateCard(db: Db, boardId: Id, title: string, description: Option<string>, assigneeId: Option<Id>,
                    tagIds: seq<Id>, cardId: Id, now: int, refusedTags: set<Id>)
    returns (r: Result<Id, Failure>, ghost todo: Id)
    modifies db`cards, db`cardTags
    ensures r == Err(Thrown("Todo list not found for this board")) <==>
      forall id | id in old(db.lists) && old(db.lists)[id].boardId == boardId :: old(db.lists)[id].title != "Todo"
    ensures r.Err? ==> db.cards == old(db.cards) && db.cardTags == old(db.cardTags)
    ensures r.Ok? || r == Err(StoreFailure) ==>
      todo in old(db.lists) && old(db.lists)[todo].boardId == boardId && old(db.lists)[todo].title == "Todo"
    ensures r.Ok? || r == Err(StoreFailure) ==> (r.Ok? <==> CardInsertable(old(db.cards), old(db.cardTags), cardId, tagIds, refusedTags))
    ensures r.Ok? ==>
      && r.value == cardId
      && (exists m: Option<int> ::
            && (m.None? <==> CardsOfList(old(db.cards), todo) == {})
            && (m.Some? ==> Occupied(old(db.cards), todo, m.value) &&
                            forall a | InList(old(db.cards), a, todo) :: old(db.cards)[a].position <= m.value)
            && db.cards == old(db.cards)[cardId := CardRow(todo, title, description, assigneeId, NextPosition(m), false, now)])
      && db.cardTags == old(db.cardTags) + TagPairs(cardId, tagIds, {})
  {
    var todoList := TodoListOf(db.lists, boardId);
    if todoList.None? {
      return Err(Thrown("Todo list not found for this board")), "";
    }
    var todoId := todoList.value;
    todo := todoId;
    var maxPos := db.MaxPosition(todoId);
    var nextPosition := NextPosition(maxPos);

    if !CardInsertable(db.cards, db.cardTags, cardId, tagIds, refusedTags) {
      return Err(StoreFailure), todo;
    }
    ghost var before := db.cards;
    db.cards := db.cards[cardId := CardRow(todoId, title, description, assigneeId, nextPosition, false, now)];
    assert db.cards == before[cardId := CardRow(todo, title, description, assigneeId, NextPosition(maxPos), false, now)];
    if |tagIds| > 0 {
      db.cardTags := db.cardTags + TagPairs(cardId, tagIds, {});
    } else {
      assert TagPairs(cardId, tagIds, {}) == {};
    }
    r := Ok(cardId);
  }

  /** The card `createCard` inserts comes after every card of its list, at 0 in an empty
      list, and a list ranked from 0 stays ranked from 0. */
  lemma CreatedCardAppended(cards: map<Id, CardRow>, todo: Id, m: Option<int>, cardId: Id, title: string,
                            description: Option<string>, assigneeId: Option<Id>, now: int)
    requires Ranked(cards, todo, 0) && cardId !in cards
    requires m.None? <==> CardsOfList(cards, todo) == {}
    requires m.Some? ==> Occupied(cards, todo, m.value) && forall a | InList(cards, a, todo) :: cards[a].position <= m.value
    ensures var c := cards[cardId := CardRow(todo, title, description, assigneeId, NextPosition(m), false, now)];
      && Ranked(c, todo, 0)
      && (m.None? ==> c[cardId].position == 0)
      && forall a | InList(cards, a, todo) :: c[a].position < c[cardId].position
  {
    var row := CardRow(todo, title, description, assigneeId, NextPosition(m), false, now);
    AppendedRanked(cards, todo, 0, cardId, row);
  }

  /** `updateCard`: in one transaction, set the card's title, description and assignee,
      delete all its tag associations and insert one per given tag id. A repeated or refused
      tag id makes the insert fail, and then nothing changes. */
  method UpdateCard(db: Db, cardId: Id, title: string, description: Option<string>, assigneeId: Option<Id>,
                    tagIds: seq<Id>, refusedTags: set<Id>)
    returns (r: Result<(), Failure>)
    modifies db`cards, db`cardTags
    ensures r.Ok? <==> NoDup(tagIds) && forall i | 0 <= i < |tagIds| :: tagIds[i] !in refusedTags
    ensures r.Err? ==> r == Err(StoreFailure) && db.cards == old(db.cards) && db.cardTags == old(db.cardTags)
    ensures r.Ok? ==>
      && db.cards == Edited(old(db.cards), cardId, title, description, assigneeId)
      && db.cardTags == Untagged(old(db.cardTags), cardId) + TagPairs(cardId, tagIds, {})
  {
    var cardsBefore, cardTagsBefore := db.cards, db.cardTags;
    db.cards := Edited(db.cards, cardId, title, description, assigneeId);
    db.cardTags := Untagged(db.cardTags, cardId);
    if |tagIds| > 0 {
      if !(NoDup(tagIds) && forall i | 0 <= i < |tagIds| :: tagIds[i] !in refusedTags) {
        db.cards, db.cardTags := cardsBefore, cardTagsBefore;
        return Err(StoreFailure);
      }
      db.cardTags := db.cardTags + TagPairs(cardId, tagIds, {});
    } else {
      assert TagPairs(cardId, tagIds, {}) == {};
    }
    r := Ok(());
  }

  /** One entry of `updateCardPositions`. */
  datatype PositionUpdate = PositionUpdate(cardId: Id, listId: Id, position: int)

  function UpdatedIds(updates: seq<PositionUpdate>): (ids: seq<Id>)
    ensures |ids| == |updates| && forall i | 0 <= i < |updates| :: ids[i] == updates[i].cardId
  {
    Mapped(updates, (u: PositionUpdate) => u.cardId)
  }

  /** The cards after `UPDATE cards SET list_id = u.listId, position = u.position WHERE id =
      u.cardId` for each update `u` in turn. Only those two columns change. */
  function Placed(cards: map<Id, CardRow>, updates: seq<PositionUpdate>): (r: map<Id, CardRow>)
    ensures r.Keys == cards.Keys
    ensures forall id | id in cards :: r[id] == cards[id].(listId := r[id].listId, position := r[id].position)
  {
    if updates == [] then cards
    else PlaceOne(Placed(cards, updates[..|updates| - 1]), updates[|updates| - 1])
  }

  /** One such UPDATE; an id with no row matches nothing. */
  function PlaceOne(cards: map<Id, CardRow>, u: PositionUpdate): (r: map<Id, CardRow>)
    ensures r.Keys == cards.Keys
    ensures u.cardId in cards ==> r[u.cardId] == cards[u.cardId].(listId := u.listId, position := u.position)
    ensures forall id | id in cards && id != u.cardId :: r[id] == cards[id]
  {
    if u.cardId in cards then cards[u.cardId := cards[u.cardId].(listId := u.listId, position := u.position)] else cards
  }

  /** The last update naming a card decides its list and position; a card no update names
      keeps its row. */
  lemma {:induction false} PlacedAt(cards: map<Id, CardRow>, updates: seq<PositionUpdate>, id: Id)
    requires id in cards
    ensures var k := LastIndex(UpdatedIds(updates), id);
      Placed(cards, updates)[id] ==
        if k == -1 then cards[id] else cards[id].(listId := updates[k].listId, position := updates[k].position)
  {
    if updates != [] {
      var n := |updates| - 1;
      PlacedAt(cards, updates[..n], id);
      assert UpdatedIds(updates)[..n] == UpdatedIds(updates[..n]);
    }
  }

  /** One more update applied to the cards the earlier updates left. */
  lemma PlacedStep(cards: map<Id, CardRow>, updates: seq<PositionUpdate>, i: nat)
    requires i < |updates|
    ensures Placed(cards, updates[..i + 1]) == PlaceOne(Placed(cards, updates[..i]), updates[i])
  {
    assert updates[..i + 1][..i] == updates[..i];
  }

  /** The loop of `updateCardPositions`: the statements run in order and stop at the first
      refused write; `k` of them ran. */
  method ApplyPlacements(db: Db, updates: seq<PositionUpdate>, refused: set<Id>) returns (k: nat)
    modifies db`cards
    ensures k <= |updates|
    ensures forall i | 0 <= i < k :: updates[i].cardId !in refused
    ensures k < |updates| ==> updates[k].cardId in refused
    ensures db.cards == Placed(old(db.cards), updates[..k])
  {
    k := 0;
    ghost var before := db.cards;
    while k < |updates| && updates[k].cardId !in refused
      invariant k <= |updates|
      invariant forall i | 0 <= i < k :: updates[i].cardId !in refused
      invariant db.cards == Placed(before, updates[..k])
    {
      PlacedStep(before, updates, k);
      db.cards := PlaceOne(db.cards, updates[k]);
      k := k + 1;
    }
  }

  /** `updateCardPositions`: the updates in one transaction; a refused write rolls all of them back. */
  method UpdateCardPositions(db: Db, updates: seq<PositionUpdate>, refused: set<Id>) returns (r: Result<(), Failure>)
    modifies db`cards
    ensures r.Ok? <==> forall i | 0 <= i < |updates| :: updates[i].cardId !in refused
    ensures r.Ok? ==> db.cards == Placed(old(db.cards), updates)
    ensures r.Err? ==> r == Err(StoreFailure) && db.cards == old(db.cards)
  {
    var snapshot := db.cards;
    var k := ApplyPlacements(db, updates, refused);
    if k < |updates| {
      db.cards := snapshot;
      return Err(StoreFailure);
    }
    assert updates[..k] == updates;
    r := Ok(());
  }
}
