/** The nested board view of the datastar app (kanban-datastar/view/board/types.go):
    `BuildBoardDetails` turns the flat rows of its queries into board -> lists -> cards ->
    {tags, comments}. `Details` states the result as a function of the rows; the lemmas
    below say what it holds. */
module BoardView {
  import opened Base
  import opened Grouping
  import opened Sqlc

  datatype TagItem = TagItem(id: Id, name: string, color: string)
  datatype CommentItem = CommentItem(id: Id, text: string, userId: Id, userName: string)
  datatype CardWithDetails = CardWithDetails(
    id: Id, title: string, description: string, assigneeId: Id, assigneeName: string,
    position: int, completed: bool, tags: seq<TagItem>, comments: seq<CommentItem>)
  datatype ListWithCards = ListWithCards(id: Id, title: string, position: int, cards: seq<CardWithDetails>)
  datatype BoardDetails = BoardDetails(id: Id, title: string, description: string, lists: seq<ListWithCards>)

  /** The string of a nullable column: `""` for NULL (`sql.NullString.String`). */
  function NullString(s: Option<string>): (r: string)
    ensures s.None? ==> r == ""
    ensures s.Some? ==> r == s.value
  {
    if s.Some? then s.value else ""
  }

  /** `userMap[id]`: the name of the last user row with that id, or `""` for an unknown id. */
  function NameOf(users: seq<User>, id: Id): string {
    var u := LastBy(users, UserId, id);
    if u.Some? then u.value.name else ""
  }

  /** The tag items of one card's association rows: for each row in order, the tag it names,
      or nothing when no tag row has that id. */
  function TagItems(cts: seq<GetTagsByCardIdsRow>, tags: seq<GetTagsRow>): seq<TagItem> {
    if cts == [] then []
    else
      var t := LastBy(tags, TagId, cts[|cts| - 1].tagId);
      TagItems(cts[..|cts| - 1], tags) + (if t.Some? then [TagItem(t.value.id, t.value.name, t.value.color)] else [])
  }

  /** The comment items of one card's comment rows. */
  function CommentItems(cs: seq<Comment>, users: seq<User>): (r: seq<CommentItem>)
    ensures |r| == |cs|
  {
    if cs == [] then []
    else
      var c := cs[|cs| - 1];
      CommentItems(cs[..|cs| - 1], users) + [CommentItem(c.id, c.text, c.userId, NameOf(users, c.userId))]
  }

  function CardDetails(card: GetCardsByListIdsRow, cardTags: seq<GetTagsByCardIdsRow>, comments: seq<Comment>,
                       users: seq<User>, tags: seq<GetTagsRow>): CardWithDetails
  {
    CardWithDetails(
      card.id, card.title, NullString(card.description), NullString(card.assigneeId),
      if card.assigneeId.Some? then NameOf(users, card.assigneeId.value) else "",
      card.position, true,
      TagItems(Group(cardTags, CardTagCard, card.id), tags),
      CommentItems(Group(comments, CommentCard, card.id), users))
  }

  function ListDetails(list: GetListsByBoardIdRow, cards: seq<GetCardsByListIdsRow>, cardTags: seq<GetTagsByCardIdsRow>,
                       comments: seq<Comment>, users: seq<User>, tags: seq<GetTagsRow>): ListWithCards
  {
    var g := Group(cards, CardList, list.id);
    ListWithCards(list.id, list.title, list.position,
      seq(|g|, j requires 0 <= j < |g| => CardDetails(g[j], cardTags, comments, users, tags)))
  }

  /** The view `BuildBoardDetails` builds from the rows. */
  function Details(boardData: GetBoardRow, lists: seq<GetListsByBoardIdRow>, cards: seq<GetCardsByListIdsRow>,
                   cardTags: seq<GetTagsByCardIdsRow>, comments: seq<Comment>, users: seq<User>,
                   tags: seq<GetTagsRow>): BoardDetails
  {
    BoardDetails(boardData.id, boardData.title, NullString(boardData.description),
      seq(|lists|, i requires 0 <= i < |lists| => ListDetails(lists[i], cards, cardTags, comments, users, tags)))
  }

  // ---------------------------------------------------------------------------
  // What the view holds

  /** One output list per input list, in input order, with the same id, title and position;
      the board's own fields, with a NULL description shown as `""`. */
  lemma DetailsShape(boardData: GetBoardRow, lists: seq<GetListsByBoardIdRow>, cards: seq<GetCardsByListIdsRow>,
                     cardTags: seq<GetTagsByCardIdsRow>, comments: seq<Comment>, users: seq<User>, tags: seq<GetTagsRow>)
    ensures var r := Details(boardData, lists, cards, cardTags, comments, users, tags);
      && r.id == boardData.id && r.title == boardData.title
      && (boardData.description.None? ==> r.description == "")
      && (boardData.description.Some? ==> r.description == boardData.description.value)
      && |r.lists| == |lists|
      && forall i | 0 <= i < |lists| ::
           r.lists[i].id == lists[i].id && r.lists[i].title == lists[i].title && r.lists[i].position == lists[i].position
  {
  }

  /** `d1` and `d2` are the details of two card rows, `d1`'s row coming first. */
  ghost predicate DetailsInRowOrder(cards: seq<GetCardsByListIdsRow>, d1: CardWithDetails, d2: CardWithDetails,
                                    cardTags: seq<GetTagsByCardIdsRow>, comments: seq<Comment>, users: seq<User>,
                                    tags: seq<GetTagsRow>) {
    exists c1, c2 | Before(cards, c1, c2) ::
      d1 == CardDetails(c1, cardTags, comments, users, tags) && d2 == CardDetails(c2, cardTags, comments, users, tags)
  }

  /** A list's cards are built from exactly the input cards with that list id, and two of them
      appear in the order of the input rows; a card whose list is not among `lists` appears
      nowhere. */
  lemma {:induction false} DetailsListCards(list: GetListsByBoardIdRow, cards: seq<GetCardsByListIdsRow>,
                         cardTags: seq<GetTagsByCardIdsRow>, comments: seq<Comment>,
                         users: seq<User>, tags: seq<GetTagsRow>)
    ensures var out := ListDetails(list, cards, cardTags, comments, users, tags).cards;
      && (forall c | c in cards && c.listId == list.id :: CardDetails(c, cardTags, comments, users, tags) in out)
      && (forall d | d in out :: exists c | c in cards && c.listId == list.id :: d == CardDetails(c, cardTags, comments, users, tags))
      && (forall j, k | 0 <= j < k < |out| :: DetailsInRowOrder(cards, out[j], out[k], cardTags, comments, users, tags))
  {
    DetailsListComplete(list, cards, cardTags, comments, users, tags);
    DetailsListMembers(list, cards, cardTags, comments, users, tags);
    DetailsListOrdered(list, cards, cardTags, comments, users, tags);
  }

  /** Every card row of the list has its details among the list's cards. */
  lemma {:induction false} DetailsListComplete(list: GetListsByBoardIdRow, cards: seq<GetCardsByListIdsRow>,
      cardTags: seq<GetTagsByCardIdsRow>, comments: seq<Comment>, users: seq<User>, tags: seq<GetTagsRow>)
    ensures var out := ListDetails(list, cards, cardTags, comments, users, tags).cards;
      forall c | c in cards && c.listId == list.id :: CardDetails(c, cardTags, comments, users, tags) in out
  {
    var g := Group(cards, CardList, list.id);
    var out := ListDetails(list, cards, cardTags, comments, users, tags).cards;
    forall c | c in cards && c.listId == list.id ensures CardDetails(c, cardTags, comments, users, tags) in out {
      GroupMembers(cards, CardList, list.id, c);
      var j :| 0 <= j < |g| && g[j] == c;
      assert out[j] == CardDetails(c, cardTags, comments, users, tags);
    }
  }

  /** Each of the list's cards is the details of a card row of that list. */
  lemma {:induction false} DetailsListMembers(list: GetListsByBoardIdRow, cards: seq<GetCardsByListIdsRow>,
      cardTags: seq<GetTagsByCardIdsRow>, comments: seq<Comment>, users: seq<User>, tags: seq<GetTagsRow>)
    ensures var out := ListDetails(list, cards, cardTags, comments, users, tags).cards;
      forall d | d in out :: exists c | c in cards && c.listId == list.id :: d == CardDetails(c, cardTags, comments, users, tags)
  {
    var g := Group(cards, CardList, list.id);
    var out := ListDetails(list, cards, cardTags, comments, users, tags).cards;
    forall d | d in out ensures exists c | c in cards && c.listId == list.id :: d == CardDetails(c, cardTags, comments, users, tags) {
      var j :| 0 <= j < |out| && out[j] == d;
      assert g[j] in g;
      GroupMembers(cards, CardList, list.id, g[j]);
    }
  }

  /** The list's cards keep the order of the card rows. */
  lemma {:induction false} DetailsListOrdered(list: GetListsByBoardIdRow, cards: seq<GetCardsByListIdsRow>,
      cardTags: seq<GetTagsByCardIdsRow>, comments: seq<Comment>, users: seq<User>, tags: seq<GetTagsRow>)
    ensures var out := ListDetails(list, cards, cardTags, comments, users, tags).cards;
      forall j, k | 0 <= j < k < |out| :: DetailsInRowOrder(cards, out[j], out[k], cardTags, comments, users, tags)
  {
    var g := Group(cards, CardList, list.id);
    var out := ListDetails(list, cards, cardTags, comments, users, tags).cards;
    forall j, k | 0 <= j < k < |out| ensures DetailsInRowOrder(cards, out[j], out[k], cardTags, comments, users, tags) {
      assert Before(g, g[j], g[k]);
      GroupBefore(cards, CardList, list.id, g[j], g[k]);
    }
  }

  /** `userMap[id]` is the name of the last user row with that id, and `""` when there is none. */
  lemma NameOfLookup(users: seq<User>, id: Id)
    ensures (forall i | 0 <= i < |users| :: users[i].id != id) ==> NameOf(users, id) == ""
    ensures forall i | 0 <= i < |users| && users[i].id == id && (forall j | i < j < |users| :: users[j].id != id) ::
      NameOf(users, id) == users[i].name
  {
    LastByPresent(users, UserId, id);
    LastByLatest(users, UserId, id);
    if LastBy(users, UserId, id).Some? {
      var u := LastBy(users, UserId, id).value;
      var p :| 0 <= p < |users| && users[p] == u && forall j | p < j < |users| :: UserId(users[j]) != id;
      forall i | 0 <= i < |users| && users[i].id == id && (forall j | i < j < |users| :: users[j].id != id)
        ensures NameOf(users, id) == users[i].name
      {
        assert UserId(users[i]) == id && UserId(users[p]) == id;
        assert i == p;
      }
    }
  }

  /** The tag items of association rows are the tags the rows name, with name and colour from
      the tag table; a row naming no tag contributes nothing. */
  lemma {:induction false} TagItemsFound(cts: seq<GetTagsByCardIdsRow>, tags: seq<GetTagsRow>, item: TagItem)
    ensures |TagItems(cts, tags)| <= |cts|
    ensures item in TagItems(cts, tags) <==>
      exists ct | ct in cts :: LastBy(tags, TagId, ct.tagId).Some? &&
        var t := LastBy(tags, TagId, ct.tagId).value; item == TagItem(t.id, t.name, t.color)
  {
    if cts != [] {
      var n := |cts| - 1;
      TagItemsFound(cts[..n], tags, item);
      assert cts == cts[..n] + [cts[n]];
    }
  }

  /** A card's tags are those its association rows name, looked up in the tag table; dangling
      tag ids are dropped. */
  lemma DetailsCardTags(card: GetCardsByListIdsRow, cardTags: seq<GetTagsByCardIdsRow>, comments: seq<Comment>,
                        users: seq<User>, tags: seq<GetTagsRow>, item: TagItem)
    ensures item in CardDetails(card, cardTags, comments, users, tags).tags <==>
      exists ct | ct in cardTags && ct.cardId == card.id :: LastBy(tags, TagId, ct.tagId).Some? &&
        var t := LastBy(tags, TagId, ct.tagId).value; item == TagItem(t.id, t.name, t.color)
  {
    var g := Group(cardTags, CardTagCard, card.id);
    TagItemsFound(g, tags, item);
    forall ct ensures ct in g <==> ct in cardTags && ct.cardId == card.id {
      GroupMembers(cardTags, CardTagCard, card.id, ct);
    }
  }

  /** The comment items of comment rows are those rows in order, each with the looked-up name. */
  lemma {:induction false} CommentItemsAt(cs: seq<Comment>, users: seq<User>)
    ensures forall j | 0 <= j < |cs| ::
      CommentItems(cs, users)[j] == CommentItem(cs[j].id, cs[j].text, cs[j].userId, NameOf(users, cs[j].userId))
  {
    if cs != [] {
      CommentItemsAt(cs[..|cs| - 1], users);
    }
  }

  /** A card's comments are its comment rows in input order, each showing the text, the user id
      and the user's name (`""` for an unknown user). */
  lemma DetailsCardComments(card: GetCardsByListIdsRow, cardTags: seq<GetTagsByCardIdsRow>, comments: seq<Comment>,
                            users: seq<User>, tags: seq<GetTagsRow>)
    ensures var out := CardDetails(card, cardTags, comments, users, tags).comments;
            var g := Group(comments, CommentCard, card.id);
      && |out| == |g|
      && (forall j | 0 <= j < |g| :: g[j] in comments && g[j].cardId == card.id
            && out[j] == CommentItem(g[j].id, g[j].text, g[j].userId, NameOf(users, g[j].userId)))
      && (forall j, k | 0 <= j < k < |g| :: Before(comments, g[j], g[k]))
      && (forall c | c in comments && c.cardId == card.id :: c in g)
  {
    var g := Group(comments, CommentCard, card.id);
    CommentItemsAt(g, users);
    forall c ensures c in g <==> c in comments && c.cardId == card.id {
      GroupMembers(comments, CommentCard, card.id, c);
    }
    forall j | 0 <= j < |g| ensures g[j] in g { }
    forall j, k | 0 <= j < k < |g| ensures Before(comments, g[j], g[k]) {
      assert Before(g, g[j], g[k]);
      GroupBefore(comments, CommentCard, card.id, g[j], g[k]);
    }
  }

  /** Every card of the view says `completed`, whatever its row says; the description and the
      assignee id of a NULL column read `""`; the assignee name is `""` without an assignee and
      the looked-up name otherwise. */
  lemma DetailsCardFields(card: GetCardsByListIdsRow, cardTags: seq<GetTagsByCardIdsRow>, comments: seq<Comment>,
                          users: seq<User>, tags: seq<GetTagsRow>)
    ensures var d := CardDetails(card, cardTags, comments, users, tags);
      && d.completed
      && d.id == card.id && d.title == card.title && d.position == card.position
      && d.description == (if card.description.Some? then card.description.value else "")
      && (card.assigneeId.None? ==> d.assigneeId == "" && d.assigneeName == "")
      && (card.assigneeId.Some? ==> d.assigneeId == card.assigneeId.value && d.assigneeName == NameOf(users, card.assigneeId.value))
  {
  }

  /** All cards of all lists of the view are completed. */
  lemma DetailsAllCompleted(boardData: GetBoardRow, lists: seq<GetListsByBoardIdRow>, cards: seq<GetCardsByListIdsRow>,
                            cardTags: seq<GetTagsByCardIdsRow>, comments: seq<Comment>, users: seq<User>, tags: seq<GetTagsRow>)
    ensures var r := Details(boardData, lists, cards, cardTags, comments, users, tags);
      forall i, j | 0 <= i < |r.lists| && 0 <= j < |r.lists[i].cards| :: r.lists[i].cards[j].completed
  {
  }

  /** The tags loop of one card. */
  method BuildTagItems(cts: seq<GetTagsByCardIdsRow>, tags: seq<GetTagsRow>, tagMap: map<Id, GetTagsRow>)
    returns (items: seq<TagItem>)
    requires Indexed(tagMap, tags, TagId, TagRowItself)
    ensures items == TagItems(cts, tags)
  {
    items := [];
    for t := 0 to |cts|
      invariant items == TagItems(cts[..t], tags)
    {
      var ct := cts[t];
      if ct.tagId in tagMap {
        var tag := tagMap[ct.tagId];
        items := items + [TagItem(tag.id, tag.name, tag.color)];
      }
      assert cts[..t + 1][..t] == cts[..t];
    }
    assert cts[..|cts|] == cts;
  }

  /** The comments loop of one card. */
  method BuildCommentItems(cs: seq<Comment>, users: seq<User>, userMap: map<Id, string>)
    returns (items: seq<CommentItem>)
    requires Indexed(userMap, users, UserId, UserName)
    ensures items == CommentItems(cs, users)
  {
    items := [];
    for c := 0 to |cs|
      invariant items == CommentItems(cs[..c], users)
    {
      var comment := cs[c];
      var userName := if comment.userId in userMap then userMap[comment.userId] else "";
      items := items + [CommentItem(comment.id, comment.text, comment.userId, userName)];
      assert cs[..c + 1][..c] == cs[..c];
    }
    assert cs[..|cs|] == cs;
  }

  /** The body of the cards loop: one card with its tags, comments and assignee name. */
  method BuildCard(card: GetCardsByListIdsRow, cardTags: seq<GetTagsByCardIdsRow>, comments: seq<Comment>,
                   users: seq<User>, tags: seq<GetTagsRow>, userMap: map<Id, string>, tagMap: map<Id, GetTagsRow>,
                   cardTagsMap: map<Id, seq<GetTagsByCardIdsRow>>, commentsMap: map<Id, seq<Comment>>)
    returns (d: CardWithDetails)
    requires Indexed(userMap, users, UserId, UserName) && Indexed(tagMap, tags, TagId, TagRowItself)
    requires Grouped(cardTagsMap, cardTags, CardTagCard) && Grouped(commentsMap, comments, CommentCard)
    ensures d == CardDetails(card, cardTags, comments, users, tags)
  {
    var cardTagsList := BuildTagItems(Find(cardTagsMap, card.id), tags, tagMap);
    var cardCommentsList := BuildCommentItems(Find(commentsMap, card.id), users, userMap);
    var assigneeName := "";
    if card.assigneeId.Some? {
      assigneeName := if card.assigneeId.value in userMap then userMap[card.assigneeId.value] else "";
    }
    d := CardWithDetails(
      card.id, card.title, NullString(card.description), NullString(card.assigneeId), assigneeName,
      card.position, true, cardTagsList, cardCommentsList);
  }

  /** The body of the lists loop: one list with its cards, each built by `BuildCard`. */
  method BuildList(list: GetListsByBoardIdRow, cards: seq<GetCardsByListIdsRow>, cardTags: seq<GetTagsByCardIdsRow>,
                   comments: seq<Comment>, users: seq<User>, tags: seq<GetTagsRow>,
                   userMap: map<Id, string>, tagMap: map<Id, GetTagsRow>, cardTagsMap: map<Id, seq<GetTagsByCardIdsRow>>,
                   commentsMap: map<Id, seq<Comment>>, cardsMap: map<Id, seq<GetCardsByListIdsRow>>)
    returns (l: ListWithCards)
    requires Indexed(userMap, users, UserId, UserName) && Indexed(tagMap, tags, TagId, TagRowItself)
    requires Grouped(cardTagsMap, cardTags, CardTagCard) && Grouped(commentsMap, comments, CommentCard)
    requires Grouped(cardsMap, cards, CardList)
    ensures l == ListDetails(list, cards, cardTags, comments, users, tags)
  {
    var listCards := Find(cardsMap, list.id);
    var cardsWithDetails: seq<CardWithDetails> := [];
    for j := 0 to |listCards|
      invariant |cardsWithDetails| == j
      invariant forall k | 0 <= k < j :: cardsWithDetails[k] == CardDetails(listCards[k], cardTags, comments, users, tags)
    {
      var d := BuildCard(listCards[j], cardTags, comments, users, tags, userMap, tagMap, cardTagsMap, commentsMap);
      cardsWithDetails := cardsWithDetails + [d];
    }
    l := ListWithCards(list.id, list.title, list.position, cardsWithDetails);
  }

  /** `BuildBoardDetails`: five lookup maps, then one pass over the lists and, within each,
      over its cards. */
  method BuildBoardDetails(boardData: GetBoardRow, lists: seq<GetListsByBoardIdRow>, cards: seq<GetCardsByListIdsRow>,
                           cardTags: seq<GetTagsByCardIdsRow>, comments: seq<Comment>, users: seq<User>,
                           tags: seq<GetTagsRow>)
    returns (r: BoardDetails)
    ensures r == Details(boardData, lists, cards, cardTags, comments, users, tags)
  {
    var userMap := IndexBy(users, UserId, UserName);
    var tagMap := IndexBy(tags, TagId, TagRowItself);
    var cardTagsMap := GroupBy(cardTags, CardTagCard);
    var commentsMap := GroupBy(comments, CommentCard);
    var cardsMap := GroupBy(cards, CardList);

    var listsWithCards: seq<ListWithCards> := [];
    for i := 0 to |lists|
      invariant |listsWithCards| == i
      invariant forall k | 0 <= k < i :: listsWithCards[k] == ListDetails(lists[k], cards, cardTags, comments, users, tags)
    {
      var l := BuildList(lists[i], cards, cardTags, comments, users, tags, userMap, tagMap, cardTagsMap, commentsMap, cardsMap);
      listsWithCards := listsWithCards + [l];
    }

    var description := "";
    if boardData.description.Some? {
      description := boardData.description.value;
    }
    r := BoardDetails(boardData.id, boardData.title, description, listsWithCards);
  }
}
