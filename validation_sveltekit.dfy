/** The sveltekit front end's form validators (`src/lib/validation.ts`). Its board schema is
    the shared one; every other schema names the board the request is about, so each one
    fails with "Board ID is required" unless the body carries a string `boardId`. The card
    and comment schemas are the shared field lists with that id (and the card id) put first,
    so their issues come after the ids' issues. */
module SveltekitValidation {
  import opened Base
  import opened Valibot
  import Schemas

  datatype CardOutput = CardOutput(
    boardId: string, title: string, description: Field<string>, assigneeId: Field<string>, tagIds: Field<seq<string>>)

  datatype CardUpdateOutput = CardUpdateOutput(
    boardId: string, cardId: string, title: string, description: Field<string>,
    assigneeId: Field<string>, tagIds: Field<seq<string>>)

  datatype CommentOutput = CommentOutput(boardId: string, cardId: string, userId: string, text: string)

  datatype CardListUpdateOutput = CardListUpdateOutput(cardId: string, newListId: string, boardId: string)

  datatype CardPositionUpdateOutput = CardPositionUpdateOutput(cardIds: seq<string>, boardId: string)

  datatype DeleteCardOutput = DeleteCardOutput(cardId: string, boardId: string)

  const BoardIdRequired := Custom("Board ID is required")

  /** `v.string('Board ID is required')` */
  function BoardIdField(v: Option<Json>): (r: Result<string, seq<Issue>>)
    ensures r.Ok? <==> IsStr(v)
    ensures r.Ok? ==> r.value == Text(v)
    ensures r.Err? ==> r.error == [BoardIdRequired]
  {
    Str(v, Some("Board ID is required"))
  }

  /** `CardSchema`: a board id, then the shared card fields. */
  function CardSchema(input: Json): (r: Result<CardOutput, seq<Issue>>)
    ensures !ObjectLike(input) ==> r == Err(NotAnObject)
    ensures r.Ok? <==> ObjectLike(input) && IsStr(Get(input, "boardId")) && Schemas.CardSchema(input).Ok?
    ensures r.Ok? ==>
      var c := Schemas.CardSchema(input).value;
      r.value == CardOutput(Text(Get(input, "boardId")), c.title, c.description, c.assigneeId, c.tagIds)
    ensures ObjectLike(input) && !IsStr(Get(input, "boardId")) ==> r.Err? && |r.error| > 0 && r.error[0] == BoardIdRequired
  {
    if !ObjectLike(input) then Err(NotAnObject)
    else
      var boardId := BoardIdField(Get(input, "boardId"));
      var card := Schemas.CardSchema(input);
      if boardId.Ok? && card.Ok? then
        Ok(CardOutput(boardId.value, card.value.title, card.value.description, card.value.assigneeId, card.value.tagIds))
      else Err(IssuesOf(boardId) + IssuesOf(card))
  }

  /** `CardUpdateSchema`: a board id and a card id, then the shared card fields. */
  function CardUpdateSchema(input: Json): (r: Result<CardUpdateOutput, seq<Issue>>)
    ensures !ObjectLike(input) ==> r == Err(NotAnObject)
    ensures r.Ok? <==>
      ObjectLike(input) && IsStr(Get(input, "boardId")) && IsStr(Get(input, "cardId")) && Schemas.CardSchema(input).Ok?
    ensures r.Ok? ==>
      var c := Schemas.CardSchema(input).value;
      r.value == CardUpdateOutput(Text(Get(input, "boardId")), Text(Get(input, "cardId")),
                                  c.title, c.description, c.assigneeId, c.tagIds)
    ensures ObjectLike(input) && !IsStr(Get(input, "boardId")) ==> r.Err? && |r.error| > 0 && r.error[0] == BoardIdRequired
  {
    if !ObjectLike(input) then Err(NotAnObject)
    else
      var boardId := BoardIdField(Get(input, "boardId"));
      var cardId := Str(Get(input, "cardId"), Some("Card ID is required"));
      var card := Schemas.CardSchema(input);
      if boardId.Ok? && cardId.Ok? && card.Ok? then
        Ok(CardUpdateOutput(boardId.value, cardId.value, card.value.title, card.value.description,
                            card.value.assigneeId, card.value.tagIds))
      else Err(IssuesOf(boardId) + IssuesOf(cardId) + IssuesOf(card))
  }

  /** `CommentSchema`: a board id, then the shared comment fields. */
  function CommentSchema(input: Json): (r: Result<CommentOutput, seq<Issue>>)
    ensures !ObjectLike(input) ==> r == Err(NotAnObject)
    ensures r.Ok? <==> ObjectLike(input) && IsStr(Get(input, "boardId")) && Schemas.CommentSchema(input).Ok?
    ensures r.Ok? ==>
      var c := Schemas.CommentSchema(input).value;
      r.value == CommentOutput(Text(Get(input, "boardId")), c.cardId, c.userId, c.text)
    ensures ObjectLike(input) && !IsStr(Get(input, "boardId")) ==> r.Err? && |r.error| > 0 && r.error[0] == BoardIdRequired
  {
    if !ObjectLike(input) then Err(NotAnObject)
    else
      var boardId := BoardIdField(Get(input, "boardId"));
      var comment := Schemas.CommentSchema(input);
      if boardId.Ok? && comment.Ok? then
        Ok(CommentOutput(boardId.value, comment.value.cardId, comment.value.userId, comment.value.text))
      else Err(IssuesOf(boardId) + IssuesOf(comment))
  }

  /** `CardListUpdateSchema`: a card id, the target list id and a board id, in that order. */
  function CardListUpdateSchema(input: Json): (r: Result<CardListUpdateOutput, seq<Issue>>)
    ensures !ObjectLike(input) ==> r == Err(NotAnObject)
    ensures r.Ok? <==>
      ObjectLike(input) && IsStr(Get(input, "cardId")) && IsStr(Get(input, "newListId")) && IsStr(Get(input, "boardId"))
    ensures r.Ok? ==>
      r.value == CardListUpdateOutput(Text(Get(input, "cardId")), Text(Get(input, "newListId")), Text(Get(input, "boardId")))
    ensures ObjectLike(input) && !IsStr(Get(input, "boardId")) ==> r.Err? && BoardIdRequired in r.error
  {
    if !ObjectLike(input) then Err(NotAnObject)
    else
      var cardId := Str(Get(input, "cardId"), Some("Card ID is required"));
      var newListId := Str(Get(input, "newListId"), Some("List ID is required"));
      var boardId := BoardIdField(Get(input, "boardId"));
      if cardId.Ok? && newListId.Ok? && boardId.Ok? then
        Ok(CardListUpdateOutput(cardId.value, newListId.value, boardId.value))
      else Err(IssuesOf(cardId) + IssuesOf(newListId) + IssuesOf(boardId))
  }

  /** `CardPositionUpdateSchema`: the list's card ids in their new order, then a board id. */
  function CardPositionUpdateSchema(input: Json): (r: Result<CardPositionUpdateOutput, seq<Issue>>)
    ensures !ObjectLike(input) ==> r == Err(NotAnObject)
    ensures r.Ok? <==> ObjectLike(input) && Schemas.IsStrArray(Get(input, "cardIds")) && IsStr(Get(input, "boardId"))
    ensures r.Ok? ==>
      r.value == CardPositionUpdateOutput(Schemas.StringsOf(Get(input, "cardIds")), Text(Get(input, "boardId")))
    ensures ObjectLike(input) && !IsStr(Get(input, "boardId")) ==> r.Err? && BoardIdRequired in r.error
  {
    if !ObjectLike(input) then Err(NotAnObject)
    else
      var cardIds := StrArray(Get(input, "cardIds"));
      var boardId := BoardIdField(Get(input, "boardId"));
      if cardIds.Ok? && boardId.Ok? then Ok(CardPositionUpdateOutput(cardIds.value, boardId.value))
      else Err(IssuesOf(cardIds) + IssuesOf(boardId))
  }

  /** The card ids come out in the order they were sent. */
  lemma CardPositionUpdateKeepsOrder(input: Json, i: int)
    requires CardPositionUpdateSchema(input).Ok?
    requires 0 <= i < |Get(input, "cardIds").value.items|
    ensures |CardPositionUpdateSchema(input).value.cardIds| == |Get(input, "cardIds").value.items|
    ensures Get(input, "cardIds").value.items[i] == JStr(CardPositionUpdateSchema(input).value.cardIds[i])
  {
    var cardIds := StrArray(Get(input, "cardIds"));
    assert cardIds.Ok?;
    assert CardPositionUpdateSchema(input).value.cardIds == cardIds.value;
  }

  /** `DeleteCardSchema`: a card id and a board id. */
  function DeleteCardSchema(input: Json): (r: Result<DeleteCardOutput, seq<Issue>>)
    ensures !ObjectLike(input) ==> r == Err(NotAnObject)
    ensures r.Ok? <==> ObjectLike(input) && IsStr(Get(input, "cardId")) && IsStr(Get(input, "boardId"))
    ensures r.Ok? ==> r.value == DeleteCardOutput(Text(Get(input, "cardId")), Text(Get(input, "boardId")))
    ensures ObjectLike(input) && !IsStr(Get(input, "boardId")) ==> r.Err? && BoardIdRequired in r.error
  {
    if !ObjectLike(input) then Err(NotAnObject)
    else
      var cardId := Str(Get(input, "cardId"), Some("Card ID is required"));
      var boardId := BoardIdField(Get(input, "boardId"));
      if cardId.Ok? && boardId.Ok? then Ok(DeleteCardOutput(cardId.value, boardId.value))
      else Err(IssuesOf(cardId) + IssuesOf(boardId))
  }

  /** No schema that names a board accepts a body without a string board id, whatever else
      the body holds; each says why. */
  lemma BoardIdAlwaysRequired(input: Json)
    requires ObjectLike(input) && !IsStr(Get(input, "boardId"))
    ensures CardSchema(input).Err? && BoardIdRequired in CardSchema(input).error
    ensures CardUpdateSchema(input).Err? && BoardIdRequired in CardUpdateSchema(input).error
    ensures CommentSchema(input).Err? && BoardIdRequired in CommentSchema(input).error
    ensures CardListUpdateSchema(input).Err? && BoardIdRequired in CardListUpdateSchema(input).error
    ensures CardPositionUpdateSchema(input).Err? && BoardIdRequired in CardPositionUpdateSchema(input).error
    ensures DeleteCardSchema(input).Err? && BoardIdRequired in DeleteCardSchema(input).error
  {
    assert CardSchema(input).error[0] == BoardIdRequired;
    assert CardUpdateSchema(input).error[0] == BoardIdRequired;
    assert CommentSchema(input).error[0] == BoardIdRequired;
  }
}
